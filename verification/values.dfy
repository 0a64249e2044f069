/**
 * The untyped values that D-Bus property reads return, reduced to the kinds the
 * plugin inspects, and the `filter_map`/`collect` idiom the decoders apply to arrays.
 */
module Values {

  datatype Option<+T> = None | Some(value: T)

  datatype Value =
    | U8(byte: bv8)
    | U32(word: bv32)
    | Str(text: string)
    | ObjectPath(path: string)
    | Array(items: seq<Value>)

  /** Keeps a `U8` element's byte. */
  function AsByte(v: Value): Option<bv8> {
    match v
    case U8(b) => Some(b)
    case _ => None
  }

  /** Keeps an object-path element's path. */
  function AsPath(v: Value): Option<string> {
    match v
    case ObjectPath(p) => Some(p)
    case _ => None
  }

  /** `items.iter().filter_map(f).collect()`: the kept images, in order. */
  function FilterMap<T>(items: seq<Value>, f: Value -> Option<T>): (r: seq<T>)
    ensures |r| <= |items|
  {
    if items == [] then []
    else
      var rest := FilterMap(items[1..], f);
      match f(items[0])
      case Some(x) => [x] + rest
      case None => rest
  }

  /** Filtering distributes over concatenation. */
  lemma {:induction false} FilterMapAppend<T>(a: seq<Value>, b: seq<Value>, f: Value -> Option<T>)
    ensures FilterMap(a + b, f) == FilterMap(a, f) + FilterMap(b, f)
  {
    if a != [] {
      assert (a + b)[1..] == a[1..] + b;
      FilterMapAppend(a[1..], b, f);
    } else {
      assert a + b == b;
    }
  }

  /** A one-element array keeps its element exactly when `f` accepts it. */
  lemma FilterMapSingle<T>(v: Value, f: Value -> Option<T>)
    ensures FilterMap([v], f) == (match f(v) case Some(x) => [x] case None => [])
  {
    assert [v][1..] == [];
  }

  /** Dropping an element that `f` rejects does not change the result. */
  lemma FilterMapSkips<T>(a: seq<Value>, v: Value, b: seq<Value>, f: Value -> Option<T>)
    requires f(v).None?
    ensures FilterMap(a + [v] + b, f) == FilterMap(a + b, f)
  {
    FilterMapAppend(a + [v], b, f);
    FilterMapAppend(a, [v], f);
    FilterMapSingle(v, f);
    FilterMapAppend(a, b, f);
  }

  /** When `f` accepts every element, the result is their images, position by position. */
  lemma {:induction false} FilterMapAllKept<T>(items: seq<Value>, f: Value -> Option<T>)
    requires forall i :: 0 <= i < |items| ==> f(items[i]).Some?
    ensures |FilterMap(items, f)| == |items|
    ensures forall i :: 0 <= i < |items| ==> FilterMap(items, f)[i] == f(items[i]).value
  {
    if items != [] {
      FilterMapAllKept(items[1..], f);
    }
  }

  /** When `f` rejects every element, nothing is kept. */
  lemma {:induction false} FilterMapNoneKept<T>(items: seq<Value>, f: Value -> Option<T>)
    requires forall i :: 0 <= i < |items| ==> f(items[i]).None?
    ensures FilterMap(items, f) == []
  {
    if items != [] {
      FilterMapNoneKept(items[1..], f);
    }
  }
}
