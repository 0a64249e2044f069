/**
 * Access-point security classification, SSID decoding and the connectivity check,
 * with every property read given as its outcome.
 */
module NmHelpers {
  import opened Values
  import opened Errors
  import opened Models
  import opened NmConstants

  /** The outcomes of reading an access point's `Flags`, `WpaFlags`, `RsnFlags` and `KeyMgmt`. */
  datatype AccessPointReads = AccessPointReads(
    flags: Result<Value>,
    wpaFlags: Result<Value>,
    rsnFlags: Result<Value>,
    keyMgmt: Result<Value>)

  /** A flag word: the value of a `U32`, and 0 for any other kind of value. */
  function FlagWord(v: Value): bv32 {
    match v
    case U32(w) => w
    case _ => 0
  }

  /** The key-management string, when the read succeeded and produced a string. */
  function KeyMgmtHint(read: Result<Value>): Option<string> {
    if read.Ok? && read.value.Str? then Some(read.value.text) else Option.None
  }

  /** The key-management branch of the classifier. */
  function FromKeyMgmt(keyMgmt: string): (r: SecurityType)
    ensures r in {SecurityType.None, WpaPsk, WpaEap, Wpa3Psk}
    ensures r != SecurityType.None ==> keyMgmt in {"wpa-psk", "wpa-eap", "sae"}
  {
    if keyMgmt == "none" then SecurityType.None
    else if keyMgmt == "wpa-psk" then WpaPsk
    else if keyMgmt == "wpa-eap" then WpaEap
    else if keyMgmt == "sae" then Wpa3Psk
    else SecurityType.None
  }

  /** The flag-word branch of the classifier, in its order of precedence. */
  function FromFlags(flags: bv32, wpa: bv32, rsn: bv32): (r: SecurityType)
    ensures r != WpaEap
    ensures r == Wep ==> flags & SecurityFlagWep != 0
    ensures wpa == 0 && rsn == 0 ==> r in {SecurityType.None, Wep}
  {
    if flags & SecurityFlagNone != 0 then SecurityType.None
    else if flags & SecurityFlagWep != 0 then Wep
    else if wpa != 0 && rsn == 0 then WpaPsk
    else if rsn != 0 then (if wpa != 0 then Wpa2Psk else Wpa3Psk)
    else SecurityType.None
  }

  /**
   * `detect_security_type`: the three flag reads must succeed (the first failure is
   * returned); then a key-management string, if one was read, decides alone, and
   * otherwise the flag words do.
   */
  function DetectSecurityType(ap: AccessPointReads): (r: Result<SecurityType>)
    ensures r.Err? <==> !FlagsRead(ap)
    ensures ap.flags.Err? ==> r == Err(ap.flags.error)
    ensures ap.flags.Ok? && ap.wpaFlags.Err? ==> r == Err(ap.wpaFlags.error)
    ensures ap.flags.Ok? && ap.wpaFlags.Ok? && ap.rsnFlags.Err? ==> r == Err(ap.rsnFlags.error)
  {
    if ap.flags.Err? then Err(ap.flags.error)
    else if ap.wpaFlags.Err? then Err(ap.wpaFlags.error)
    else if ap.rsnFlags.Err? then Err(ap.rsnFlags.error)
    else
      var flags := FlagWord(ap.flags.value);
      var wpa := FlagWord(ap.wpaFlags.value);
      var rsn := FlagWord(ap.rsnFlags.value);
      match KeyMgmtHint(ap.keyMgmt)
      case Some(k) => Ok(FromKeyMgmt(k))
      case None => Ok(FromFlags(flags, wpa, rsn))
  }

  /** The three flag reads all succeeded. */
  predicate FlagsRead(ap: AccessPointReads) {
    ap.flags.Ok? && ap.wpaFlags.Ok? && ap.rsnFlags.Ok?
  }

  /**
   * With a key-management string the result is that string's classification, and
   * the flag words play no part.
   */
  lemma KeyMgmtDecides(ap: AccessPointReads, other: AccessPointReads, k: string)
    requires FlagsRead(ap) && ap.keyMgmt == Ok(Str(k))
    requires FlagsRead(other) && other.keyMgmt == ap.keyMgmt
    ensures DetectSecurityType(ap) == Ok(FromKeyMgmt(k))
    ensures DetectSecurityType(other) == DetectSecurityType(ap)
  {
  }

  /** The four recognised key-management strings; every other string means an open network. */
  lemma KeyMgmtTable(k: string)
    ensures k == "none" ==> FromKeyMgmt(k) == SecurityType.None
    ensures k == "wpa-psk" ==> FromKeyMgmt(k) == WpaPsk
    ensures k == "wpa-eap" ==> FromKeyMgmt(k) == WpaEap
    ensures k == "sae" ==> FromKeyMgmt(k) == Wpa3Psk
    ensures k !in {"none", "wpa-psk", "wpa-eap", "sae"} ==> FromKeyMgmt(k) == SecurityType.None
  {
  }

  /**
   * A `KeyMgmt` read that fails, or that yields anything but a string, is not an
   * error: the classifier falls back to the flags.
   */
  lemma KeyMgmtFailureFallsBack(ap: AccessPointReads)
    requires FlagsRead(ap) && KeyMgmtHint(ap.keyMgmt).None?
    ensures DetectSecurityType(ap) == DetectSecurityType(ap.(keyMgmt := Ok(U32(0))))
    ensures DetectSecurityType(ap) ==
      Ok(FromFlags(FlagWord(ap.flags.value), FlagWord(ap.wpaFlags.value), FlagWord(ap.rsnFlags.value)))
  {
  }

  /** Bit 0 of `Flags` means an open network, even when bit 1 (WEP) is also set. */
  lemma OpenBitWins(flags: bv32, wpa: bv32, rsn: bv32)
    requires flags & 0x1 != 0
    ensures FromFlags(flags, wpa, rsn) == SecurityType.None
  {
  }

  /** With bit 0 clear, bit 1 of `Flags` means WEP whatever the WPA and RSN words hold. */
  lemma WepBitBeatsWpa(flags: bv32, wpa: bv32, rsn: bv32)
    requires flags & 0x1 == 0 && flags & 0x2 != 0
    ensures FromFlags(flags, wpa, rsn) == Wep
  {
  }

  /** With neither bit set, the WPA and RSN words decide. */
  lemma WpaRsnTable(flags: bv32, wpa: bv32, rsn: bv32)
    requires flags & 0x3 == 0
    ensures wpa != 0 && rsn == 0 ==> FromFlags(flags, wpa, rsn) == WpaPsk
    ensures wpa != 0 && rsn != 0 ==> FromFlags(flags, wpa, rsn) == Wpa2Psk
    ensures wpa == 0 && rsn != 0 ==> FromFlags(flags, wpa, rsn) == Wpa3Psk
    ensures wpa == 0 && rsn == 0 ==> FromFlags(flags, wpa, rsn) == SecurityType.None
  {
    assert flags & SecurityFlagNone == 0 by {
      assert flags & 0x1 == (flags & 0x3) & 0x1;
    }
    assert flags & SecurityFlagWep == 0 by {
      assert flags & 0x2 == (flags & 0x3) & 0x2;
    }
  }

  /** The flag path never reports WPA-EAP: only a key-management string can. */
  lemma FlagsNeverEap(ap: AccessPointReads)
    requires FlagsRead(ap) && KeyMgmtHint(ap.keyMgmt).None?
    ensures DetectSecurityType(ap).Ok? && DetectSecurityType(ap).value != WpaEap
  {
  }

  /** A `Flags`, `WpaFlags` or `RsnFlags` value of any kind other than `U32` counts as the word 0. */
  lemma NonWordFlagIsZero(ap: AccessPointReads)
    requires FlagsRead(ap)
    ensures !ap.flags.value.U32? ==>
      DetectSecurityType(ap) == DetectSecurityType(ap.(flags := Ok(U32(0))))
    ensures !ap.wpaFlags.value.U32? ==>
      DetectSecurityType(ap) == DetectSecurityType(ap.(wpaFlags := Ok(U32(0))))
    ensures !ap.rsnFlags.value.U32? ==>
      DetectSecurityType(ap) == DetectSecurityType(ap.(rsnFlags := Ok(U32(0))))
  {
  }

  // ---------------------------------------------------------------------------
  // SSID decoding

  /**
   * Byte-to-text decoding as far as this model goes: an ASCII byte is its own
   * character and every other byte becomes U+FFFD. It agrees with lossy UTF-8
   * decoding on ASCII input, and like it never yields more characters than bytes.
   */
  function DecodeLossy(bytes: seq<bv8>): (r: string)
    ensures |r| <= |bytes|
    ensures (forall i :: 0 <= i < |bytes| ==> bytes[i] < 0x80) ==>
      |r| == |bytes| && forall i :: 0 <= i < |bytes| ==> r[i] as int == bytes[i] as int
  {
    seq(|bytes|, i requires 0 <= i < |bytes| =>
      if bytes[i] < 0x80 then (bytes[i] as int) as char else '\U{FFFD}')
  }

  /** `parse_ssid`: the `U8` elements of an array, decoded; "Unknown" for any other value. */
  function ParseSsid(v: Value): (r: string)
    ensures !v.Array? ==> r == "Unknown"
    ensures v.Array? ==> |r| <= |v.items|
  {
    match v
    case Array(items) => DecodeLossy(FilterMap(items, AsByte))
    case _ => "Unknown"
  }

  /** An array of ASCII bytes decodes to exactly those characters, in order. */
  lemma ParseSsidAscii(items: seq<Value>)
    requires forall i :: 0 <= i < |items| ==> items[i].U8? && items[i].byte < 0x80
    ensures |ParseSsid(Array(items))| == |items|
    ensures forall i :: 0 <= i < |items| ==> ParseSsid(Array(items))[i] as int == items[i].byte as int
  {
    FilterMapAllKept(items, AsByte);
  }

  /** Elements that are not `U8` are skipped wherever they appear. */
  lemma ParseSsidSkipsNonBytes(a: seq<Value>, v: Value, b: seq<Value>)
    requires !v.U8?
    ensures ParseSsid(Array(a + [v] + b)) == ParseSsid(Array(a + b))
  {
    FilterMapSkips(a, v, b, AsByte);
  }

  // ---------------------------------------------------------------------------
  // Connectivity

  /** `has_internet_connectivity`: a read failure is passed on; otherwise full connectivity only. */
  function HasInternetConnectivity(read: Result<Value>): (r: Result<bool>)
    ensures read.Err? ==> r == Err(read.error)
    ensures read.Ok? ==> r.Ok? && (r.value <==> read.value == U32(4))
  {
    match read
    case Err(e) => Err(e)
    case Ok(v) => Ok(v == U32(ConnectivityFull))
  }
}
