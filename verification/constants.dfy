/** NetworkManager's numeric codes and flag bits, as the plugin uses them. */
module NmConstants {

  const DeviceTypeEthernet: bv32 := 1
  const DeviceTypeWifi: bv32 := 2

  const ConnectionStateActivated: bv32 := 2

  const ConnectivityNone: bv32 := 1
  const ConnectivityPortal: bv32 := 2
  const ConnectivityLimited: bv32 := 3
  const ConnectivityFull: bv32 := 4

  /** Bit 0 of an access point's `Flags` word. */
  const SecurityFlagNone: bv32 := 0x1
  /** Bit 1 of an access point's `Flags` word. */
  const SecurityFlagWep: bv32 := 0x2
}
