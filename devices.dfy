/**
 * The value types shared by the session, discovery and the view models:
 * the connection state, the connection target and the discovered-device record.
 */
module Devices {
  import opened Wrappers

  /** The five states of a control session. */
  datatype ConnectionState = Disconnected | Connecting | Pairing | Connected | Error

  /** A connection target. Without an explicit port it is the legacy 3000. */
  datatype TvDevice = TvDevice(
    id: string,
    name: string,
    ipAddress: string,
    port: int := 3000,
    isConnected: bool := false)

  /** A device found on the local network. Without an explicit port it is 3001. */
  datatype DiscoveredTv = DiscoveredTv(
    id: string,
    name: string,
    ipAddress: string,
    port: int := 3001,
    modelName: Option<string> := None,
    manufacturer: Option<string> := None,
    uuid: Option<string> := None,
    location: Option<string> := None,
    isLgTv: bool := false)
  {
    /** The connection target for this device. */
    function ToTvDevice(): (t: TvDevice)
      ensures t.id == id && t.name == name && t.ipAddress == ipAddress
      ensures t.port == port
      ensures !t.isConnected
    {
      TvDevice(id, name, ipAddress, port, false)
    }
  }

  /** A record built from identity alone is a non-LG device on port 3001 with nothing else known. */
  lemma DiscoveredTvDefaults(id: string, name: string, ipAddress: string)
    ensures var d := DiscoveredTv(id, name, ipAddress);
      d.port == 3001 && !d.isLgTv &&
      d.modelName == None && d.manufacturer == None && d.uuid == None && d.location == None
  {
  }

  /**
   * Conversion keeps the record's own port: a default-port record yields a
   * target on 3001, never the target type's own default 3000.
   */
  lemma ToTvDeviceKeepsDefaultPort(id: string, name: string, ipAddress: string)
    ensures DiscoveredTv(id, name, ipAddress).ToTvDevice().port == 3001
    ensures TvDevice(id, name, ipAddress).port == 3000
  {
  }
}
