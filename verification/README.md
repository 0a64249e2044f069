# Network-manager plugin core, modelled in Dafny

This project models the logic in the desktop network-manager plugin that does not depend on the bus. The plugin reads NetworkManager's state over D-Bus and turns it into a small typed record (`NetworkInfo`). The model covers:

- the access-point security classifier, with its fixed order of precedence;
- SSID decoding and the full-connectivity check;
- the typed property decoders: device type, access-point paths, SSID bytes, strength, and WPA-flag security;
- the signal-strength icon table and its duplicate;
- the default records, and the kebab-case wire names of the security enumeration;
- how the current-state record is built from the `ActiveConnections` property;
- the stubbed manager operations;
- the trailing-edge debounce loop of the change emitter;
- the lock-guarded plugin-state wrappers.

Every D-Bus property read is an input of type `Result<Value>`. Every proxy creation is an input of type `Result<()>`. A `Value` is `U8`, `U32`, `Str`, `ObjectPath` or `Array`. `U8` and `U32` carry `bv8` and `bv32`, so the flag tests use the same bitwise `&` as the code.

Modules follow the source files:

| module | file | source |
|---|---|---|
| `Values` | values.dfy | the D-Bus value shapes and the `filter_map`/`collect` idiom |
| `Errors` | errors.dfy | src/error.rs |
| `NmConstants` | constants.dfy | src/nm_constants.rs |
| `Models` | models.dfy | src/models.rs |
| `NetworkUtils` | network_utils.dfy | src/network_utils.rs |
| `NmHelpers` | nm_helpers.dfy | src/nm_helpers.rs |
| `ProxyTraits` | proxy_traits.dfy | src/proxy_traits.rs, and the identical decoders at src/desktop.rs:19-171 |
| `Desktop` | desktop.dfy | src/desktop.rs |
| `Lib` | lib.dfy | src/lib.rs |

The emitter loop in src/lib.rs changes two variables step by step. It is modelled as the class `Lib.NetworkChangeEmitter`, whose `Receive`, `Tick` and `Disconnected` methods each run one iteration of the loop. Each method is specified by a pure step function (`OnArrive`, `OnClock`, `OnDisconnect`). The lemmas are proved about those step functions and about `Replay`, which folds the steps over a time-ordered list of events. Time is whole milliseconds since the loop started. Published records are kept in the sequence `emitted`.

Behaviour of the code worth noting:

- With no usable active connection, `get_current_network_state` returns the derived `Default` of src/desktop.rs:174. That default has empty strings. It is not the "Unknown" sentinel record of src/models.rs:60-74.
- The current-state record is built from `Type` and `Id` alone. The address, MAC, strength and security fields are fixed placeholders.
- The debounce is trailing-edge and restarts on every record. For records at 0, 100, 200 and 600 ms, the single emission happens at 1100 ms: the last arrival plus the 500 ms window.
- `listen_network_changes` (src/desktop.rs:374-378) drops the sending side of its channel before it returns. The emitter loop therefore ends at its first receive and never publishes anything (`Lib.ClosedAtSpawnNeverEmits`).
- `list_wifi_networks` returns an empty list whenever it succeeds. It fails only when its proxy creation or `Devices` read fails.
- `connect_to_wifi` and `toggle_network_state` are stubs that change nothing.
- src/lib.rs:15-20 declares only the modules `desktop`, `commands`, `error` and `models`. So src/nm_helpers.rs, src/proxy_traits.rs, src/network_utils.rs and src/nm_constants.rs are not compiled into the plugin as it stands. Their classifier, SSID decoding, connectivity check, decoders and icon table are modelled as written, not as behaviour the plugin exhibits.
- The plugin state in src/lib.rs holds a `VSKNetworkManager`. This model binds its wrappers to the methods of the desktop manager in src/desktop.rs.

## Model

| member | source | states |
|---|---|---|
| `Values.FilterMap` | src/nm_helpers.rs:74-83 | the kept elements are never more than the array holds |
| `Values.FilterMapAppend` | src/proxy_traits.rs:45-50 | filtering an array split in two gives the two filtered halves, concatenated (order is kept) |
| `Values.FilterMapSingle` | src/proxy_traits.rs:69-72 | a single element is kept, as its image, exactly when it has the wanted kind |
| `Values.FilterMapSkips` | src/proxy_traits.rs:69-72 | an element of another kind can be removed from anywhere without changing the result |
| `Values.FilterMapAllKept` | src/proxy_traits.rs:66-74 | when every element has the wanted kind, the result is their images, position by position |
| `Values.FilterMapNoneKept` | src/proxy_traits.rs:46-50 | when no element has the wanted kind, the result is empty |
| `Models.DefaultIsSentinel` | src/models.rs:60-74 | the default record has "Unknown" name, SSID and type, the offline icon, "0.0.0.0", "00:00:00:00:00:00", strength 0, security None, and is not connected |
| `Models.SerializedNames` | guest-js/index.ts:12-19 | serde's kebab-case rename of the six variant identifiers gives none, wep, wpa-psk, wpa-eap, wpa2-psk, wpa3-psk |
| `Models.RoundTrip` | src/models.rs:76-85 | parsing the serialised name of any variant returns that variant |
| `Models.DeserializeOnlyNames` | src/models.rs:76-85 | a string parses only if it is the serialised name of the variant it parses to, so any other string fails |
| `Models.SerializeInjective` | src/models.rs:76-85 | distinct variants have distinct wire names |
| `NetworkUtils.GetWifiIcon` | src/network_utils.rs:1-10 | the icon is one of the six names, and it is "wifi-signal-none" exactly for strengths above 100 |
| `NetworkUtils.IconBands` | src/network_utils.rs:1-10 | each icon comes from exactly one band: 0-20 weak, 21-40 low, 41-60 medium, 61-80 good, 81-100 excellent, 101-255 none |
| `NetworkUtils.RankIsBand` | src/network_utils.rs:2-7 | on 0..100 the icon's rank equals (s-1) div 20, with 0 counted in the first band |
| `NetworkUtils.IconMonotone` | src/network_utils.rs:2-7 | on 0..100, a stronger signal never gets a lower-ranked icon (weak < low < medium < good < excellent) |
| `NmHelpers.DetectSecurityType` | src/nm_helpers.rs:15-68 | fails exactly when a Flags, WpaFlags or RsnFlags read fails, and then returns the first failure in read order |
| `NmHelpers.FromKeyMgmt` | src/nm_helpers.rs:41-48 | the key-management path only ever answers None, WpaPsk, WpaEap or Wpa3Psk, and anything but None comes from "wpa-psk", "wpa-eap" or "sae" |
| `NmHelpers.FromFlags` | src/nm_helpers.rs:53-67 | the flag path never answers WpaEap, answers Wep only when Flags bit 1 is set, and with zero WPA and RSN words answers only None or Wep |
| `NmHelpers.KeyMgmtDecides` | src/nm_helpers.rs:36-50 | a key-management string decides the result alone; any flag values give the same answer |
| `NmHelpers.KeyMgmtTable` | src/nm_helpers.rs:42-48 | "none" gives None, "wpa-psk" WpaPsk, "wpa-eap" WpaEap, "sae" Wpa3Psk, and any other string None |
| `NmHelpers.KeyMgmtFailureFallsBack` | src/nm_helpers.rs:37-41 | a KeyMgmt read that fails, or yields anything but a string, is not an error: the result is the flag-based one |
| `NmHelpers.OpenBitWins` | src/nm_helpers.rs:53-54 | Flags bit 0 gives None even when bit 1 is also set |
| `NmHelpers.WepBitBeatsWpa` | src/nm_helpers.rs:55-56 | with bit 0 clear, bit 1 gives Wep whatever the WPA and RSN words are |
| `NmHelpers.WpaRsnTable` | src/nm_helpers.rs:57-67 | with neither bit: WPA only gives WpaPsk, both give Wpa2Psk, RSN only gives Wpa3Psk, neither gives None |
| `NmHelpers.FlagsNeverEap` | src/nm_helpers.rs:53-67 | without a key-management string the classifier succeeds and never answers WpaEap |
| `NmHelpers.NonWordFlagIsZero` | src/nm_helpers.rs:32-34 | a Flags, WpaFlags or RsnFlags value that is not a U32 behaves like U32(0) |
| `NmHelpers.DecodeLossy` | src/nm_helpers.rs:84 | never more characters than bytes; on all-ASCII input, exactly one character per byte with the same code |
| `NmHelpers.ParseSsid` | src/nm_helpers.rs:71-87 | any value that is not an array gives "Unknown"; an array gives no more characters than it has elements |
| `NmHelpers.ParseSsidAscii` | src/nm_helpers.rs:71-85 | an array of ASCII bytes decodes to exactly those characters, in order |
| `NmHelpers.ParseSsidSkipsNonBytes` | src/nm_helpers.rs:74-83 | array elements that are not U8 are ignored wherever they appear |
| `NmHelpers.HasInternetConnectivity` | src/nm_helpers.rs:91-103 | a failed read is passed on; otherwise the answer is true exactly for U32(4) and false for any other code or kind of value |
| `ProxyTraits.DeviceType` | src/proxy_traits.rs:18-31 | succeeds exactly on a U32 and returns its word; a failed read is passed on |
| `ProxyTraits.GetAccessPoints` | src/proxy_traits.rs:35-53 | fails exactly on a failed read (passed on) or a non-array value; a list is never longer than the array |
| `ProxyTraits.Ssid` | src/proxy_traits.rs:57-78 | fails exactly on a failed read (passed on) or a non-array value; the bytes are never more than the array's elements |
| `ProxyTraits.Strength` | src/proxy_traits.rs:80-93 | succeeds exactly on a U8 and returns its byte unchanged; a failed read is passed on |
| `ProxyTraits.SecurityTypeFromWpaFlags` | src/proxy_traits.rs:95-113 | succeeds exactly on a U32; zero gives None and any non-zero word gives WpaPsk |
| `ProxyTraits.AddConnection` | src/proxy_traits.rs:117-120 | fails with "Connection addition not implemented" for every settings map |
| `ProxyTraits.CallAddConnection` | src/proxy_traits.rs:122-125 | fails with "Connection addition not implemented" for every settings map |
| `ProxyTraits.AccessPointsArePaths` | src/proxy_traits.rs:44-50 | the list holds exactly the object-path elements, in their order: all paths are kept, no path gives an empty list, and splitting commutes |
| `ProxyTraits.SsidIsBytes` | src/proxy_traits.rs:66-74 | the bytes are exactly the U8 elements, in order: all bytes are kept, no byte gives an empty list, and splitting commutes |
| `Desktop.DerivedDefault` | src/desktop.rs:174-196 | every text field of the derived default is the empty string; it agrees with the hand-written one on strength, security and connection, and differs from it in every text field |
| `Desktop.GetWifiIcon` | src/desktop.rs:217-226 | the desktop copy of the icon table agrees with the shared one on every strength |
| `Desktop.GetCurrentNetworkState` | src/desktop.rs:243-328 | fails exactly when a read or proxy creation on the path taken fails; a record is marked connected exactly when the first active connection is an object path |
| `Desktop.NoActivePathGivesDefault` | src/desktop.rs:273-325 | a value that is not an array, an empty array, or an array not starting with a path gives the derived default |
| `Desktop.ActivePathGivesConnectedRecord` | src/desktop.rs:276-320 | a path first gives a connected record: name equals SSID, Id and Type are copied when strings and "Unknown" otherwise, placeholders fill the rest, and the icon is wifi-signal-weak |
| `Desktop.StateErrorsAreReadErrors` | src/desktop.rs:245-296 | the first read or proxy creation to fail, in call order, is the error returned |
| `Desktop.ListWifiNetworks` | src/desktop.rs:330-346 | succeeds exactly when the proxy and the Devices read do, and then lists no networks |
| `Desktop.ConnectToWifi` | src/desktop.rs:348-359 | succeeds exactly when the proxy can be created, whatever the request |
| `Desktop.ToggleNetworkState` | src/desktop.rs:361-372 | succeeds exactly when the proxy can be created, and then returns the requested state |
| `Lib.Start` | src/lib.rs:45-47 | the spawned loop runs, holds nothing, has published nothing, and satisfies the loop invariant |
| `Lib.Flush` | src/lib.rs:50-57 | the due check publishes at most one record and retracts none; a new emission is the pending record at its deadline, made only once the deadline is reached |
| `Lib.OnArrive` | src/lib.rs:61-84 | a running loop moves its time to the arrival, makes the record pending and sets the deadline to arrival + 500 ms; a stopped loop is unchanged |
| `Lib.OnClock` | src/lib.rs:50-69 | a running loop moves its time to the end of the wait and keeps running; a stopped loop is unchanged |
| `Lib.OnDisconnect` | src/lib.rs:70-86 | the loop is stopped afterwards; a running loop moves its time forward and drops its pending record and deadline; a stopped loop is unchanged |
| `Lib.Step` | src/lib.rs:49-89 | one loop iteration: a running loop moves its time to the event's time, a stopped loop is unchanged |
| `Lib.Replay` | src/lib.rs:49-89 | a run never moves time backwards, nor past its last event |
| `Lib.FlushKeepsInv` | src/lib.rs:50-57 | publishing a due value keeps the loop invariant, and the last emission is not in the future |
| `Lib.StepKeepsInv` | src/lib.rs:45-89 | every loop step keeps the invariant: pending iff deadline, deadline within one window ahead, emissions in the past and at least 500 ms apart |
| `Lib.ArriveFromIdle` | src/lib.rs:75-84 | from idle, a record becomes pending, the deadline is arrival + 500 ms, and nothing is published |
| `Lib.ArriveInWindow` | src/lib.rs:61-66 | inside a window, a record replaces the pending one, the deadline restarts from its arrival, and nothing is published |
| `Lib.ClockBeforeDeadline` | src/lib.rs:67-69 | a timeout before the deadline changes nothing but the time |
| `Lib.ClockAtDeadlineEmits` | src/lib.rs:50-57 | at or after the deadline, the pending record is published exactly once and both variables become empty |
| `Lib.StoppedIsSilent` | src/lib.rs:70 | once the loop has ended, no later event changes anything |
| `Lib.DisconnectDropsPending` | src/lib.rs:70 | a disconnection inside a window drops the pending record; it is never published |
| `Lib.ClosedAtSpawnNeverEmits` | src/desktop.rs:374-378 | on the channel that listen_network_changes returns, whose sender is already gone, nothing is ever published |
| `Lib.ReplayKeepsInv` | src/lib.rs:49-89 | the invariant holds after every run of the loop |
| `Lib.StepPendingFrom` | src/lib.rs:61-66 | one step keeps the pending record tied to the latest arrival and its deadline |
| `Lib.PendingIsLastArrival` | src/lib.rs:61-66 | after any run, the pending record is the last one received, with deadline equal to its arrival + 500 ms |
| `Lib.EmissionIsLastArrival` | src/lib.rs:50-66 | each event publishes at most one record and retracts none; a new emission is the last record received, at its arrival + 500 ms |
| `Lib.EmissionsBoundedByArrivals` | src/lib.rs:49-89 | records published plus records pending never exceed records received |
| `Lib.BurstExample` | src/lib.rs:47-84 | records at 0, 100, 200 and 600 ms give nothing by 1099 ms and exactly one emission, at 1100 ms, carrying the 600 ms record |
| `Lib.SingleEventExample` | src/lib.rs:75-84 | a single record is published once, exactly 500 ms after it arrived |
| `Lib.NetworkChangeEmitter.constructor` | src/lib.rs:45-47 | the loop starts idle, with nothing published |
| `Lib.NetworkChangeEmitter.Receive` | src/lib.rs:61-84 | one receive: the new state is OnArrive of the old one, and the invariant is kept |
| `Lib.NetworkChangeEmitter.Tick` | src/lib.rs:50-69 | the due check at time now, or a wait that ended without a record: the new state is OnClock of the old one, and the invariant is kept |
| `Lib.NetworkChangeEmitter.Disconnected` | src/lib.rs:70-86 | loop exit: the new state is OnDisconnect of the old one, and the invariant is kept |
| `Lib.Dispatch` | src/lib.rs:100-170 | a poisoned lock gives LockError, an empty slot NotInitialized, otherwise the manager's result unchanged; success only through the manager |
| `Lib.ListWifiNetworks` | src/lib.rs:100-106 | through the state, listing succeeds only with a usable manager and working reads, and then lists nothing; otherwise LockError or NotInitialized |
| `Lib.ConnectToWifi` | src/lib.rs:108-114 | through the state, connecting succeeds exactly when the manager is usable and its proxy can be created, whatever the request |
| `Lib.ToggleNetworkState` | src/lib.rs:140-146 | through the state, toggling succeeds exactly when the manager is usable and its proxy can be created, and returns the requested state |

## Left out

- Bus plumbing is not modelled: the connection, `PropertiesProxy::builder`, `Proxy::new` and property `get`. These are calls into zbus. Each read is an input, so the model does not show which object a read was addressed to. For example, the current-state `Type` and `Id` reads go to the service root.
- Errors are not split by origin. zbus errors and plugin errors share one `NetworkError` type. `ProxyTraits.DeviceType` reports its parse failure as `Io`, and the other decoders report theirs as `Dbus`. `Io` keeps only the message of the `std::io::Error` it wraps.
- error.rs declares neither `NotInitialized` nor a conversion from zbus errors, but the wrappers use both. The model adds them as `NotInitialized` and `Dbus`.
- The emitter's thread, `Instant::now`, `recv`/`recv_timeout` and `app.emit` are not modelled. They become sequential steps over whole-millisecond time. The result of `app.emit` is ignored by the code and is not modelled.
- `Lib.Flush`: records an emission at its deadline. This is when the timed wait ends. The code publishes at the moment it next reads the clock, which is at or after the deadline.
- `Lib.OnArrive`: requires that time does not run backwards (`clock <= t`), as `Instant` guarantees. The same holds for `OnClock`, `OnDisconnect` and the emitter methods.
- `NmHelpers.DecodeLossy`: matches `String::from_utf8_lossy` only on ASCII bytes. Each non-ASCII byte becomes U+FFFD, so valid multi-byte UTF-8 is not decoded. Its contract states only what lossy decoding guarantees: never more characters than bytes, and the identity on ASCII. Full UTF-8 decoding is outside this model.
- `NmHelpers.ParseSsidAscii`: states the decoded text only for ASCII SSIDs, for the same reason.
- The `RwLock` and its `Arc` are reduced to a `poisoned` flag and an optional manager. Concurrent readers and `async`/`.await` are not modelled.
- The plugin state holds a `crate::models::VSKNetworkManager`, whose only `impl` block is in src/network_manager.rs. This model binds the wrappers to the desktop manager's methods in src/desktop.rs instead, since src/network_manager.rs is not part of this model.
- Six wrappers delegate to manager operations that no file modelled here defines: `disconnect_from_wifi`, `get_saved_wifi_networks`, `delete_wifi_connection`, `get_wireless_enabled`, `set_wireless_enabled` and `is_wireless_available`. Their wrappers are covered by `Lib.Dispatch`, with the delegate as a parameter.
- The current-state command in src/commands.rs is scaffolding and is not modelled. `Desktop.Manager` therefore holds only the answers that the three modelled wrappers use.
- Network enumeration with deduplication and ranking, the connection-settings builder, activation and deactivation, and the saved-profile listing and deletion are not modelled. The files modelled here have no implementation of any of them.
- `Models.WiFiNetwork` is declared as a record, but no modelled operation builds one.
- The desktop copy of `WiFiSecurityType` has no rename attribute, so it would serialise as the bare identifiers (`Models.VariantName`). No separate round-trip is stated for it.
- src/network_stats.rs is not part of this model. It reads sysfs files, uses the wall clock, and does floating-point rate arithmetic.
- src/network_manager.rs is not part of this model. It is an older revision that does not type-check and adds no behaviour beyond src/desktop.rs.
- Plugin scaffolding is not modelled: src/commands.rs, the plugin `init`/setup, `NetworkManagerExt`, build.rs, guest-js/index.ts (apart from its enumeration values) and test_wifi_scan.rs.
