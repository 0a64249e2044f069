/**
 * The typed property decoders of the device, wireless-device and access-point
 * proxies, and the connection proxy's stubs. desktop.rs carries a second copy of
 * the same decoders, which these functions model as well.
 */
module ProxyTraits {
  import opened Values
  import opened Errors
  import Models

  /** `device_type`: the word of a `U32`; any other value is an error. */
  function DeviceType(read: Result<Value>): (r: Result<bv32>)
    ensures r.Ok? <==> read.Ok? && read.value.U32?
    ensures r.Ok? ==> read.value == U32(r.value)
    ensures read.Err? ==> r == Err(read.error)
  {
    match read
    case Err(e) => Err(e)
    case Ok(U32(t)) => Ok(t)
    case Ok(_) => Err(Io("Failed to parse device type"))
  }

  /** `get_access_points`: the object paths of an array, in order; any other value is an error. */
  function GetAccessPoints(read: Result<Value>): (r: Result<seq<string>>)
    ensures r.Err? <==> read.Err? || !read.value.Array?
    ensures read.Err? ==> r == Err(read.error)
    ensures r.Ok? ==> |r.value| <= |read.value.items|
  {
    match read
    case Err(e) => Err(e)
    case Ok(Array(items)) => Ok(FilterMap(items, AsPath))
    case Ok(_) => Err(Dbus("Failed to parse access points"))
  }

  /** `ssid`: the `U8` elements of an array, in order; any other value is an error. */
  function Ssid(read: Result<Value>): (r: Result<seq<bv8>>)
    ensures r.Err? <==> read.Err? || !read.value.Array?
    ensures read.Err? ==> r == Err(read.error)
    ensures r.Ok? ==> |r.value| <= |read.value.items|
  {
    match read
    case Err(e) => Err(e)
    case Ok(Array(items)) => Ok(FilterMap(items, AsByte))
    case Ok(_) => Err(Dbus("Failed to parse SSID"))
  }

  /** `strength`: the byte of a `U8`; any other value is an error. */
  function Strength(read: Result<Value>): (r: Result<bv8>)
    ensures r.Ok? <==> read.Ok? && read.value.U8?
    ensures r.Ok? ==> read.value == U8(r.value)
    ensures read.Err? ==> r == Err(read.error)
  {
    match read
    case Err(e) => Err(e)
    case Ok(U8(s)) => Ok(s)
    case Ok(_) => Err(Dbus("Failed to parse strength"))
  }

  /** `security_type`: from the `WpaFlags` word alone, zero meaning open; a non-word is an error. */
  function SecurityTypeFromWpaFlags(read: Result<Value>): (r: Result<Models.SecurityType>)
    ensures r.Ok? <==> read.Ok? && read.value.U32?
    ensures r.Ok? ==> (r.value == Models.None <==> read.value.word == 0)
    ensures r.Ok? ==> r.value in {Models.None, Models.WpaPsk}
    ensures read.Err? ==> r == Err(read.error)
  {
    match read
    case Err(e) => Err(e)
    case Ok(U32(w)) => Ok(if w == 0 then Models.None else Models.WpaPsk)
    case Ok(_) => Err(Dbus("Failed to parse WPA flags"))
  }

  /** The settings payload: group name to key to value. */
  type Settings = map<string, map<string, string>>

  /** `add_connection`: not implemented, so it fails for every payload. */
  function AddConnection(settings: Settings): (r: Result<string>)
    ensures r == Err(Dbus("Connection addition not implemented"))
  {
    Err(Dbus("Connection addition not implemented"))
  }

  /** `call_add_connection`: not implemented, so it fails for every payload. */
  function CallAddConnection(settings: Settings): (r: Result<string>)
    ensures r == Err(Dbus("Connection addition not implemented"))
  {
    Err(Dbus("Connection addition not implemented"))
  }

  /**
   * The access-point list is exactly the object-path elements, in their order:
   * paths are kept, everything else is dropped, and filtering commutes with splitting.
   */
  lemma AccessPointsArePaths(items: seq<Value>, a: seq<Value>, b: seq<Value>)
    ensures (forall i :: 0 <= i < |items| ==> items[i].ObjectPath?) ==>
      GetAccessPoints(Ok(Array(items))).value == seq(|items|, i requires 0 <= i < |items| => items[i].path)
    ensures (forall i :: 0 <= i < |items| ==> !items[i].ObjectPath?) ==>
      GetAccessPoints(Ok(Array(items))).value == []
    ensures GetAccessPoints(Ok(Array(a + b))).value ==
      GetAccessPoints(Ok(Array(a))).value + GetAccessPoints(Ok(Array(b))).value
  {
    if forall i :: 0 <= i < |items| ==> items[i].ObjectPath? {
      FilterMapAllKept(items, AsPath);
    }
    if forall i :: 0 <= i < |items| ==> !items[i].ObjectPath? {
      FilterMapNoneKept(items, AsPath);
    }
    FilterMapAppend(a, b, AsPath);
  }

  /**
   * The SSID bytes are exactly the `U8` elements, in their order: bytes are kept,
   * everything else is dropped, and filtering commutes with splitting.
   */
  lemma SsidIsBytes(a: seq<Value>, b: seq<Value>)
    ensures (forall i :: 0 <= i < |a| ==> a[i].U8?) ==>
      Ssid(Ok(Array(a))).value == seq(|a|, i requires 0 <= i < |a| => a[i].byte)
    ensures (forall i :: 0 <= i < |a| ==> !a[i].U8?) ==> Ssid(Ok(Array(a))) == Ok([])
    ensures Ssid(Ok(Array(a + b))).value == Ssid(Ok(Array(a))).value + Ssid(Ok(Array(b))).value
  {
    if forall i :: 0 <= i < |a| ==> a[i].U8? {
      FilterMapAllKept(a, AsByte);
    }
    if forall i :: 0 <= i < |a| ==> !a[i].U8? {
      FilterMapNoneKept(a, AsByte);
    }
    FilterMapAppend(a, b, AsByte);
  }
}
