/**
 * A scanned WiFi access point (crates/netdiag-types, wifi/access_point.rs),
 * with the fields the WiFi analyses read: SSID, BSSID, signal strength in
 * dBm, channel, security, and optional noise floor and SNR.
 */
module AccessPoints {
  import opened Wrappers
  import opened NetAddress
  import opened WifiChannel
  import opened WifiSecurityTypes

  /** `AccessPoint`; rates, capabilities, standard and country are not modelled. */
  datatype AccessPoint = AccessPoint(
    ssid: string,
    bssid: MacAddress,
    rssi: int,
    channel: Channel,
    security: SecurityType,
    isConnected: bool,
    noise: Option<int>,
    snr: Option<int>)
}
