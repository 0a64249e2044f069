/** The plugin's public records and the Wi-Fi security enumeration with its wire names. */
module Models {
  import opened Values

  /** The closed set of security kinds a network can report. */
  datatype SecurityType = None | Wep | WpaPsk | WpaEap | Wpa2Psk | Wpa3Psk

  /** The record handed to the front end for the current network and for each listed network. */
  datatype NetworkInfo = NetworkInfo(
    name: string,
    ssid: string,
    connectionType: string,
    icon: string,
    ipAddress: string,
    macAddress: string,
    signalStrength: bv8,
    securityType: SecurityType,
    isConnected: bool)

  /** A connection request from the front end. */
  datatype ConnectionConfig = ConnectionConfig(
    ssid: string,
    password: Option<string>,
    securityType: SecurityType,
    username: Option<string>)

  /** A visible network as a bare name, strength and icon. */
  datatype WiFiNetwork = WiFiNetwork(ssid: string, signalStrength: bv8, icon: string)

  /** The hand-written `Default` for `NetworkInfo`: the "disconnected" sentinel record. */
  function DefaultNetworkInfo(): NetworkInfo {
    NetworkInfo(
      name := "Unknown",
      ssid := "Unknown",
      connectionType := "Unknown",
      icon := "network-offline-symbolic",
      ipAddress := "0.0.0.0",
      macAddress := "00:00:00:00:00:00",
      signalStrength := 0,
      securityType := SecurityType.None,
      isConnected := false)
  }

  /** The default record carries the sentinel placeholders and is not connected. */
  lemma DefaultIsSentinel()
    ensures var d := DefaultNetworkInfo();
      && d.name == d.ssid == d.connectionType == "Unknown"
      && d.icon == "network-offline-symbolic"
      && d.ipAddress == "0.0.0.0"
      && d.macAddress == "00:00:00:00:00:00"
      && d.signalStrength == 0
      && d.securityType == SecurityType.None
      && !d.isConnected
  {
  }

  // ---------------------------------------------------------------------------
  // Wire names. The enumeration is serialised with serde's `rename_all = "kebab-case"`:
  // the Rust variant name, lower-cased, with a '-' before every upper-case letter
  // other than the first.

  /** The variant's identifier as written in the source. */
  function VariantName(t: SecurityType): string {
    match t
    case None => "None"
    case Wep => "Wep"
    case WpaPsk => "WpaPsk"
    case WpaEap => "WpaEap"
    case Wpa2Psk => "Wpa2Psk"
    case Wpa3Psk => "Wpa3Psk"
  }

  predicate IsUpper(c: char) {
    'A' <= c <= 'Z'
  }

  function ToLower(c: char): (r: char)
    ensures IsUpper(c) ==> r as int == c as int + 32
    ensures !IsUpper(c) ==> r == c
  {
    if IsUpper(c) then (c as int + 32) as char else c
  }

  /** The letters after the first: a '-' goes before each upper-case one. */
  function KebabTail(s: string): string {
    if s == [] then []
    else (if IsUpper(s[0]) then "-" else "") + [ToLower(s[0])] + KebabTail(s[1..])
  }

  /** serde's kebab-case rename of a variant identifier. */
  function KebabCase(name: string): string {
    if name == [] then [] else [ToLower(name[0])] + KebabTail(name[1..])
  }

  /** The string a `SecurityType` is serialised as. */
  function Serialize(t: SecurityType): string {
    KebabCase(VariantName(t))
  }

  /** The derived deserialiser: exact match against the six wire names, anything else fails. */
  function Deserialize(s: string): Option<SecurityType> {
    if s == "none" then Some(SecurityType.None)
    else if s == "wep" then Some(Wep)
    else if s == "wpa-psk" then Some(WpaPsk)
    else if s == "wpa-eap" then Some(WpaEap)
    else if s == "wpa2-psk" then Some(Wpa2Psk)
    else if s == "wpa3-psk" then Some(Wpa3Psk)
    else Option.None
  }

  lemma KebabWpaPsk()
    ensures KebabCase("WpaPsk") == "wpa-psk"
  {
    assert KebabTail("k") == "k";
    assert KebabTail("sk") == "sk";
    assert KebabTail("Psk") == "-psk";
    assert KebabTail("aPsk") == "a-psk";
    assert KebabTail("paPsk") == "pa-psk";
    assert "WpaPsk"[1..] == "paPsk";
  }

  lemma KebabWpaEap()
    ensures KebabCase("WpaEap") == "wpa-eap"
  {
    assert KebabTail("p") == "p";
    assert KebabTail("ap") == "ap";
    assert KebabTail("Eap") == "-eap";
    assert KebabTail("aEap") == "a-eap";
    assert KebabTail("paEap") == "pa-eap";
    assert "WpaEap"[1..] == "paEap";
  }

  lemma KebabWpa2Psk()
    ensures KebabCase("Wpa2Psk") == "wpa2-psk"
  {
    assert KebabTail("k") == "k";
    assert KebabTail("sk") == "sk";
    assert KebabTail("Psk") == "-psk";
    assert KebabTail("2Psk") == "2-psk";
    assert KebabTail("a2Psk") == "a2-psk";
    assert KebabTail("pa2Psk") == "pa2-psk";
    assert "Wpa2Psk"[1..] == "pa2Psk";
  }

  lemma KebabWpa3Psk()
    ensures KebabCase("Wpa3Psk") == "wpa3-psk"
  {
    assert KebabTail("k") == "k";
    assert KebabTail("sk") == "sk";
    assert KebabTail("Psk") == "-psk";
    assert KebabTail("3Psk") == "3-psk";
    assert KebabTail("a3Psk") == "a3-psk";
    assert KebabTail("pa3Psk") == "pa3-psk";
    assert "Wpa3Psk"[1..] == "pa3Psk";
  }

  /** The serialised names, which are also the values of the front end's enumeration. */
  lemma SerializedNames()
    ensures Serialize(SecurityType.None) == "none"
    ensures Serialize(Wep) == "wep"
    ensures Serialize(WpaPsk) == "wpa-psk"
    ensures Serialize(WpaEap) == "wpa-eap"
    ensures Serialize(Wpa2Psk) == "wpa2-psk"
    ensures Serialize(Wpa3Psk) == "wpa3-psk"
  {
    KebabWpaPsk();
    KebabWpaEap();
    KebabWpa2Psk();
    KebabWpa3Psk();
  }

  /** Parsing a serialised name gives back the variant. */
  lemma RoundTrip(t: SecurityType)
    ensures Deserialize(Serialize(t)) == Some(t)
  {
    SerializedNames();
  }

  /** Only the six serialised names parse, each to the variant it names. */
  lemma DeserializeOnlyNames(s: string)
    ensures Deserialize(s).Some? ==> Serialize(Deserialize(s).value) == s
  {
    SerializedNames();
  }

  /** Distinct variants have distinct wire names. */
  lemma SerializeInjective(a: SecurityType, b: SecurityType)
    ensures Serialize(a) == Serialize(b) ==> a == b
  {
    RoundTrip(a);
    RoundTrip(b);
  }
}
