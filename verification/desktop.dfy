/**
 * The desktop manager: its own derived default record, its copy of the icon table,
 * the shaping of the current-state record from the `ActiveConnections` property, and
 * the operations that are still stubs.
 */
module Desktop {
  import opened Values
  import opened Errors
  import opened Models
  import NetworkUtils

  /**
   * `NetworkInfo::default()` as this file derives it: empty strings, strength 0,
   * the `#[default]` security kind `None`, not connected. It agrees with the
   * hand-written default on strength, security and connection, and differs from it
   * in every text field.
   */
  function DerivedDefault(): (r: NetworkInfo)
    ensures r.name == r.ssid == r.connectionType == r.icon == r.ipAddress == r.macAddress == ""
    ensures var h := DefaultNetworkInfo();
      && r.signalStrength == h.signalStrength && r.securityType == h.securityType
      && r.isConnected == h.isConnected
      && r.name != h.name && r.ssid != h.ssid && r.connectionType != h.connectionType
      && r.icon != h.icon && r.ipAddress != h.ipAddress && r.macAddress != h.macAddress
  {
    NetworkInfo("", "", "", "", "", "", 0, SecurityType.None, false)
  }

  /** This file's copy of the icon table, which agrees with the shared one on every strength. */
  function GetWifiIcon(strength: bv8): (r: string)
    ensures r == NetworkUtils.GetWifiIcon(strength)
  {
    if strength <= 20 then "wifi-signal-weak"
    else if strength <= 40 then "wifi-signal-low"
    else if strength <= 60 then "wifi-signal-medium"
    else if strength <= 80 then "wifi-signal-good"
    else if strength <= 100 then "wifi-signal-excellent"
    else "wifi-signal-none"
  }

  /**
   * What the bus answers during one `get_current_network_state` call, in call order:
   * two proxy creations on the service root around a first `ActiveConnections` read
   * whose value is discarded, the `ActiveConnections` read that is used, the proxy
   * for the first active connection, and the `Type` and `Id` reads.
   */
  datatype StateReads = StateReads(
    rootProxy: Result<()>,
    firstActiveRead: Result<Value>,
    secondRootProxy: Result<()>,
    activeConnections: Result<Value>,
    connectionProxy: Result<()>,
    typeRead: Result<Value>,
    idRead: Result<Value>)

  /** The text of a `Str`, and "Unknown" for any other value. */
  function StringOrUnknown(v: Value): string {
    match v
    case Str(s) => s
    case _ => "Unknown"
  }

  /** The list holds at least one element and the first is an object path. */
  predicate FirstIsPath(v: Value) {
    v.Array? && |v.items| > 0 && v.items[0].ObjectPath?
  }

  /**
   * `get_current_network_state`: it fails exactly when a read or proxy creation on
   * the path it takes fails, and its record is marked connected exactly when the
   * first active connection is an object path.
   */
  function GetCurrentNetworkState(bus: StateReads): (r: Result<NetworkInfo>)
    ensures r.Err? <==>
      !ListingRead(bus) || (FirstIsPath(bus.activeConnections.value) && !ConnectionRead(bus))
    ensures r.Ok? ==> (r.value.isConnected <==> FirstIsPath(bus.activeConnections.value))
  {
    if bus.rootProxy.Err? then Err(bus.rootProxy.error)
    else if bus.firstActiveRead.Err? then Err(bus.firstActiveRead.error)
    else if bus.secondRootProxy.Err? then Err(bus.secondRootProxy.error)
    else if bus.activeConnections.Err? then Err(bus.activeConnections.error)
    else if !FirstIsPath(bus.activeConnections.value) then Ok(DerivedDefault())
    else if bus.connectionProxy.Err? then Err(bus.connectionProxy.error)
    else if bus.typeRead.Err? then Err(bus.typeRead.error)
    else if bus.idRead.Err? then Err(bus.idRead.error)
    else
      var connectionType := StringOrUnknown(bus.typeRead.value);
      var ssid := StringOrUnknown(bus.idRead.value);
      Ok(NetworkInfo(
        name := ssid,
        ssid := ssid,
        connectionType := connectionType,
        icon := GetWifiIcon(0),
        ipAddress := "0.0.0.0",
        macAddress := "00:00:00:00:00:00",
        signalStrength := 0,
        securityType := SecurityType.None,
        isConnected := true))
  }

  /** The four reads and proxy creations that come before the `ActiveConnections` value is inspected succeeded. */
  predicate ListingRead(bus: StateReads) {
    bus.rootProxy.Ok? && bus.firstActiveRead.Ok? && bus.secondRootProxy.Ok? && bus.activeConnections.Ok?
  }

  /** The three reads made for the first active connection succeeded. */
  predicate ConnectionRead(bus: StateReads) {
    bus.connectionProxy.Ok? && bus.typeRead.Ok? && bus.idRead.Ok?
  }

  /**
   * When the active-connection value is not an array, is empty, or does not start
   * with an object path, the result is this file's default record, whatever the
   * later reads would have answered.
   */
  lemma NoActivePathGivesDefault(bus: StateReads)
    requires ListingRead(bus) && !FirstIsPath(bus.activeConnections.value)
    ensures GetCurrentNetworkState(bus) == Ok(DerivedDefault())
  {
  }

  /**
   * When the first active connection is a path, the record is connected, named by
   * `Id`, typed by `Type` (each "Unknown" unless it is a string), and carries the
   * placeholder address, strength, security and icon.
   */
  lemma ActivePathGivesConnectedRecord(bus: StateReads)
    requires ListingRead(bus) && FirstIsPath(bus.activeConnections.value) && ConnectionRead(bus)
    ensures GetCurrentNetworkState(bus).Ok?
    ensures var info := GetCurrentNetworkState(bus).value;
      && info.isConnected
      && info.name == info.ssid
      && (bus.idRead.value.Str? ==> info.ssid == bus.idRead.value.text)
      && (!bus.idRead.value.Str? ==> info.ssid == "Unknown")
      && (bus.typeRead.value.Str? ==> info.connectionType == bus.typeRead.value.text)
      && (!bus.typeRead.value.Str? ==> info.connectionType == "Unknown")
      && info.signalStrength == 0
      && info.securityType == SecurityType.None
      && info.ipAddress == "0.0.0.0"
      && info.macAddress == "00:00:00:00:00:00"
      && info.icon == "wifi-signal-weak"
  {
  }

  /**
   * A failing read or proxy creation is returned as it is: the first one to fail,
   * in call order, decides the error.
   */
  lemma StateErrorsAreReadErrors(bus: StateReads)
    ensures bus.rootProxy.Err? ==> GetCurrentNetworkState(bus) == Err(bus.rootProxy.error)
    ensures bus.rootProxy.Ok? && bus.firstActiveRead.Err? ==>
      GetCurrentNetworkState(bus) == Err(bus.firstActiveRead.error)
    ensures bus.rootProxy.Ok? && bus.firstActiveRead.Ok? && bus.secondRootProxy.Err? ==>
      GetCurrentNetworkState(bus) == Err(bus.secondRootProxy.error)
    ensures bus.rootProxy.Ok? && bus.firstActiveRead.Ok? && bus.secondRootProxy.Ok? && bus.activeConnections.Err? ==>
      GetCurrentNetworkState(bus) == Err(bus.activeConnections.error)
    ensures ListingRead(bus) && FirstIsPath(bus.activeConnections.value) && bus.connectionProxy.Err? ==>
      GetCurrentNetworkState(bus) == Err(bus.connectionProxy.error)
    ensures ListingRead(bus) && FirstIsPath(bus.activeConnections.value) && bus.connectionProxy.Ok? && bus.typeRead.Err? ==>
      GetCurrentNetworkState(bus) == Err(bus.typeRead.error)
    ensures ListingRead(bus) && FirstIsPath(bus.activeConnections.value) && bus.connectionProxy.Ok? && bus.typeRead.Ok? && bus.idRead.Err? ==>
      GetCurrentNetworkState(bus) == Err(bus.idRead.error)
  {
  }

  // ---------------------------------------------------------------------------
  // Stubbed operations. Each creates a proxy on the service root first, which can fail.

  /** `list_wifi_networks`: after the `Devices` read it returns no networks. */
  function ListWifiNetworks(rootProxy: Result<()>, devicesRead: Result<Value>): (r: Result<seq<NetworkInfo>>)
    ensures r.Ok? <==> rootProxy.Ok? && devicesRead.Ok?
    ensures r.Ok? ==> r.value == []
  {
    if rootProxy.Err? then Err(rootProxy.error)
    else if devicesRead.Err? then Err(devicesRead.error)
    else Ok([])
  }

  /** `connect_to_wifi`: does nothing with the request and reports success. */
  function ConnectToWifi(rootProxy: Result<()>, config: ConnectionConfig): (r: Result<()>)
    ensures r.Ok? <==> rootProxy.Ok?
  {
    if rootProxy.Err? then Err(rootProxy.error) else Ok(())
  }

  /** `toggle_network_state`: reports the requested state back without changing anything. */
  function ToggleNetworkState(rootProxy: Result<()>, enabled: bool): (r: Result<bool>)
    ensures r.Ok? <==> rootProxy.Ok?
    ensures r.Ok? ==> r.value == enabled
  {
    if rootProxy.Err? then Err(rootProxy.error) else Ok(enabled)
  }

  /**
   * The manager held by the plugin state, as seen by its operations: what the bus
   * answers to each of them.
   */
  datatype Manager = Manager(
    listProxy: Result<()>,
    devicesRead: Result<Value>,
    connectProxy: Result<()>,
    toggleProxy: Result<()>)
}
