/** The two derived, read-only properties the shell adds to fabric's
    Bluetooth client (`BluetoothService`). Device state comes from BlueZ
    and arrives here as plain records. */
module BluetoothService {
  import opened Common

  /** A Bluetooth device as the widgets see it. */
  datatype Device = Device(
    name: Option<string>,
    address: string,
    connected: bool,
    trusted: bool,
    paired: bool,
    connecting: bool)

  /** `is_device_connected`: some device is connected. */
  function IsDeviceConnected(connectedDevices: seq<Device>): (b: bool)
    ensures b <==> |connectedDevices| > 0
  {
    connectedDevices != []
  }

  /** `current_device`: the first connected device, or `None` when none is
      connected. */
  function CurrentDevice(connectedDevices: seq<Device>): (d: Option<Device>)
    ensures d.None? <==> !IsDeviceConnected(connectedDevices)
    ensures d.Some? ==> d.value == connectedDevices[0] && d.value in connectedDevices
  {
    if IsDeviceConnected(connectedDevices) then Some(connectedDevices[0]) else None
  }
}
