/** The Bluetooth widgets of the control panel: the overview (power button
    and connection summary), the device list in its sorted order, and the
    per-device element with its connect button. */
module BluetoothUi {
  import opened Common
  import opened BluetoothService

  /** `sort_key` of `get_sorted_devices`: connected devices first, then
      trusted ones, then the rest; connected wins when a device is both. */
  function SortKey(d: Device): int {
    if d.connected then -2 else if d.trusted then -1 else 0
  }

  /** Insert `d` before the first element whose key is not smaller than its
      own, so that it stays ahead of the equal-keyed elements that came
      after it in the input. */
  function Insert(d: Device, s: seq<Device>): (r: seq<Device>)
    ensures |r| == |s| + 1
    ensures multiset(r) == multiset(s) + multiset{d}
  {
    if s == [] || SortKey(d) <= SortKey(s[0]) then [d] + s
    else
      assert s == [s[0]] + s[1..];
      [s[0]] + Insert(d, s[1..])
  }

  /** `get_sorted_devices`: Python's `sorted` by `sort_key`, a stable sort,
      written as an insertion sort (a stable sort's output is unique). It
      returns a permutation of the service's device list. */
  function SortedDevices(devices: seq<Device>): (r: seq<Device>)
    ensures |r| == |devices|
    ensures multiset(r) == multiset(devices)
  {
    if devices == [] then []
    else
      assert devices == [devices[0]] + devices[1..];
      Insert(devices[0], SortedDevices(devices[1..]))
  }

  /** The devices of `s` whose key is `k`, in their order in `s`. */
  function WithKey(s: seq<Device>, k: int): (r: seq<Device>)
    ensures forall e | e in r :: SortKey(e) == k
  {
    if s == [] then []
    else (if SortKey(s[0]) == k then [s[0]] else []) + WithKey(s[1..], k)
  }

  /** Reference order: the connected devices, then the trusted unconnected
      ones, then the rest, each group in input order. */
  function Grouped(s: seq<Device>): seq<Device> {
    WithKey(s, -2) + WithKey(s, -1) + WithKey(s, 0)
  }

  lemma {:induction false} InsertPast(d: Device, p: seq<Device>, q: seq<Device>)
    requires forall e | e in p :: SortKey(e) < SortKey(d)
    ensures Insert(d, p + q) == p + Insert(d, q)
    decreases |p|
  {
    if p != [] {
      var pq := p + q;
      assert pq[0] == p[0] && pq[1..] == p[1..] + q;
      assert Insert(d, pq) == [p[0]] + Insert(d, p[1..] + q);
      InsertPast(d, p[1..], q);
      assert [p[0]] + (p[1..] + Insert(d, q)) == ([p[0]] + p[1..]) + Insert(d, q);
      assert [p[0]] + p[1..] == p;
    } else {
      assert p + q == q;
    }
  }

  /** Inserting into a list already in reference order puts the new device
      at the front of its own group. */
  lemma InsertIntoGroups(x: Device, a: seq<Device>, b: seq<Device>, c: seq<Device>)
    requires forall e | e in a :: SortKey(e) == -2
    requires forall e | e in b :: SortKey(e) == -1
    requires forall e | e in c :: SortKey(e) == 0
    ensures Insert(x, a + b + c) ==
      if SortKey(x) == -2 then ([x] + a) + b + c
      else if SortKey(x) == -1 then a + ([x] + b) + c
      else a + b + ([x] + c)
  {
    var abc := a + b + c;
    if SortKey(x) == -2 {
      assert abc == [] || SortKey(x) <= SortKey(abc[0]);
      assert Insert(x, abc) == [x] + abc;
      assert [x] + abc == ([x] + a) + b + c;
    } else if SortKey(x) == -1 {
      assert abc == a + (b + c);
      InsertPast(x, a, b + c);
      var bc := b + c;
      assert bc == [] || SortKey(x) <= SortKey(bc[0]);
      assert Insert(x, bc) == [x] + bc;
      assert a + ([x] + bc) == a + ([x] + b) + c;
    } else {
      var ab := a + b;
      InsertPast(x, ab, c);
      assert c == [] || SortKey(x) <= SortKey(c[0]);
      assert Insert(x, c) == [x] + c;
      assert abc == ab + c;
    }
  }

  /** The sort puts the devices exactly in the reference order. */
  lemma {:induction false} SortedIsGrouped(s: seq<Device>)
    ensures SortedDevices(s) == Grouped(s)
    decreases |s|
  {
    if s != [] {
      var x, rest := s[0], s[1..];
      SortedIsGrouped(rest);
      var a, b, c := WithKey(rest, -2), WithKey(rest, -1), WithKey(rest, 0);
      InsertIntoGroups(x, a, b, c);
      assert SortedDevices(s) == Insert(x, a + b + c);
      if SortKey(x) == -2 {
        assert WithKey(s, -2) == [x] + a && WithKey(s, -1) == b && WithKey(s, 0) == c;
      } else if SortKey(x) == -1 {
        assert WithKey(s, -2) == a && WithKey(s, -1) == [x] + b && WithKey(s, 0) == c;
      } else {
        assert WithKey(s, -2) == a && WithKey(s, -1) == b && WithKey(s, 0) == [x] + c;
      }
    }
  }

  /** Keys never decrease along the sorted list; in terms of the device
      flags: a connected device is preceded only by connected devices, and a
      trusted one only by connected or trusted devices. */
  lemma SortedDevicesOrder(s: seq<Device>)
    ensures forall i, j | 0 <= i < j < |SortedDevices(s)| ::
      SortKey(SortedDevices(s)[i]) <= SortKey(SortedDevices(s)[j])
    ensures forall i, j | 0 <= i < j < |SortedDevices(s)| && SortedDevices(s)[j].connected ::
      SortedDevices(s)[i].connected
    ensures forall i, j | 0 <= i < j < |SortedDevices(s)| && SortedDevices(s)[j].trusted ::
      SortedDevices(s)[i].connected || SortedDevices(s)[i].trusted
  {
    SortedIsGrouped(s);
    var a, b, c := WithKey(s, -2), WithKey(s, -1), WithKey(s, 0);
    var r := SortedDevices(s);
    assert r == a + b + c;
    forall i | 0 <= i < |r|
      ensures i < |a| ==> SortKey(r[i]) == -2
      ensures |a| <= i < |a| + |b| ==> SortKey(r[i]) == -1
      ensures |a| + |b| <= i ==> SortKey(r[i]) == 0
    {
      if i < |a| {
        assert r[i] == a[i];
      } else if i < |a| + |b| {
        assert r[i] == b[i - |a|];
      } else {
        assert r[i] == c[i - |a| - |b|];
      }
    }
  }

  lemma {:induction false} WithKeyOfConcat(p: seq<Device>, q: seq<Device>, k: int)
    ensures WithKey(p + q, k) == WithKey(p, k) + WithKey(q, k)
    decreases |p|
  {
    if p == [] {
      assert p + q == q;
    } else {
      var pq := p + q;
      assert pq[0] == p[0] && pq[1..] == p[1..] + q;
      WithKeyOfConcat(p[1..], q, k);
      var head := if SortKey(p[0]) == k then [p[0]] else [];
      assert WithKey(pq, k) == head + (WithKey(p[1..], k) + WithKey(q, k));
      assert WithKey(p, k) == head + WithKey(p[1..], k);
    }
  }

  lemma {:induction false} WithKeyOfWithKey(s: seq<Device>, k: int, k': int)
    ensures WithKey(WithKey(s, k), k') == if k == k' then WithKey(s, k) else []
    decreases |s|
  {
    if s != [] {
      WithKeyOfWithKey(s[1..], k, k');
      var head := if SortKey(s[0]) == k then [s[0]] else [];
      WithKeyOfConcat(head, WithKey(s[1..], k), k');
    }
  }

  /** Stability: devices of equal rank keep their original relative
      order. */
  lemma SortedDevicesIsStable(s: seq<Device>, k: int)
    ensures WithKey(SortedDevices(s), k) == WithKey(s, k)
  {
    SortedIsGrouped(s);
    var a, b, c := WithKey(s, -2), WithKey(s, -1), WithKey(s, 0);
    WithKeyOfConcat(a + b, c, k);
    WithKeyOfConcat(a, b, k);
    WithKeyOfWithKey(s, -2, k);
    WithKeyOfWithKey(s, -1, k);
    WithKeyOfWithKey(s, 0, k);
    if k != -2 && k != -1 && k != 0 {
      WithKeyOfOtherKey(s, k);
    }
  }

  lemma {:induction false} WithKeyOfOtherKey(s: seq<Device>, k: int)
    requires k != -2 && k != -1 && k != 0
    ensures WithKey(s, k) == []
    decreases |s|
  {
    if s != [] {
      WithKeyOfOtherKey(s[1..], k);
    }
  }

  /** Longest device name the overview shows when it is first built. */
  const OverviewNameLimit := 15

  /** The label a device goes by: its name, or its address when it has no
      name. */
  function DisplayName(d: Device): (s: string)
    ensures d.name.Some? ==> s == d.name.value
    ensures d.name.None? ==> s == d.address
  {
    if d.name.Some? then d.name.value else d.address
  }

  /** `get_connected_device_name`, used when the overview is built:
      "Disconnected" with no current device, else the current device's
      display name cut to 15 characters. */
  function ConnectedDeviceName(connectedDevices: seq<Device>): (t: Text)
    ensures t == Full("Disconnected") <==> connectedDevices == []
    ensures connectedDevices != [] ==> t == Truncated(DisplayName(connectedDevices[0]), OverviewNameLimit)
  {
    match CurrentDevice(connectedDevices)
    case None => Full("Disconnected")
    case Some(d) => Truncated(DisplayName(d), OverviewNameLimit)
  }

  /** The label `on_notify_connected_devices` sets: the same choice, but
      the display name is not truncated. */
  function ConnectionLabel(connectedDevices: seq<Device>): (t: Text)
    ensures connectedDevices == [] ==> t == Full("Disconnected")
    ensures connectedDevices != [] ==> t == Full(DisplayName(connectedDevices[0]))
  {
    match CurrentDevice(connectedDevices)
    case None => Full("Disconnected")
    case Some(d) => Full(DisplayName(d))
  }

  /** The power button may be pressed only while the adapter is settled in
      the "on" or "off" state. */
  predicate PowerButtonSensitive(adapterState: string) {
    adapterState == "on" || adapterState == "off"
  }

  /** `BluetoothOverview`: the power button (its icon and sensitivity) and
      the connection button (its icon and label). */
  class BluetoothOverview {
    var powerIcon: Icon
    var powerSensitive: bool
    var connectionIcon: Icon
    var connectionLabel: Text

    constructor (enabled: bool, connectedDevices: seq<Device>)
      ensures powerIcon == (if enabled then BluetoothOn else BluetoothOff)
      ensures powerSensitive
      ensures connectionIcon == (if IsDeviceConnected(connectedDevices) then Link else LinkOff)
      ensures connectionLabel == ConnectedDeviceName(connectedDevices)
    {
      powerIcon := if enabled then BluetoothOn else BluetoothOff;
      powerSensitive := true;
      connectionIcon := if IsDeviceConnected(connectedDevices) then Link else LinkOff;
      connectionLabel := ConnectedDeviceName(connectedDevices);
    }

    /** `on_notify_state`. */
    method OnNotifyState(adapterState: string)
      modifies this
      ensures powerSensitive == PowerButtonSensitive(adapterState)
      ensures powerIcon == old(powerIcon)
      ensures connectionIcon == old(connectionIcon) && connectionLabel == old(connectionLabel)
    {
      powerSensitive := adapterState == "on" || adapterState == "off";
    }

    /** `on_notify_connected_devices`. */
    method OnNotifyConnectedDevices(connectedDevices: seq<Device>)
      modifies this
      ensures connectionIcon == (if CurrentDevice(connectedDevices).Some? then Link else LinkOff)
      ensures connectionLabel == ConnectionLabel(connectedDevices)
      ensures powerIcon == old(powerIcon) && powerSensitive == old(powerSensitive)
    {
      var current := CurrentDevice(connectedDevices);
      if current.Some? {
        connectionIcon := Link;
        connectionLabel := Full(if current.value.name.Some? then current.value.name.value else current.value.address);
      } else {
        connectionIcon := LinkOff;
        connectionLabel := Full("Disconnected");
      }
    }

    /** `on_notify_enabled`: swaps the power icon, then always re-fires the
        "connected-devices" notification, whose handler runs at once and
        refreshes the connection button from the current device list. */
    method OnNotifyEnabled(enabled: bool, connectedDevices: seq<Device>)
      modifies this
      ensures powerIcon == (if enabled then BluetoothOn else BluetoothOff)
      ensures powerSensitive == old(powerSensitive)
      ensures connectionIcon == (if CurrentDevice(connectedDevices).Some? then Link else LinkOff)
      ensures connectionLabel == ConnectionLabel(connectedDevices)
    {
      powerIcon := if enabled then BluetoothOn else BluetoothOff;
      OnNotifyConnectedDevices(connectedDevices);
    }
  }

  /** `BluetoothDeviceElement` as built for one device: the connect button's
      icon and sensitivity, the pairing icon and the name label. */
  datatype DeviceElement = DeviceElement(
    device: Device,
    connectIcon: Icon,
    connectSensitive: bool,
    pairIcon: Icon,
    nameLabel: string)

  function NewDeviceElement(d: Device): (e: DeviceElement)
    ensures e.device == d
    ensures e.connectSensitive <==> !d.connecting
    ensures e.connectIcon == (if d.connected then Link else LinkAdd)
    ensures e.pairIcon == (if d.paired then BluetoothPaired else BluetoothUnpaired)
    ensures e.nameLabel == DisplayName(d)
  {
    DeviceElement(
      d,
      if d.connected then Link else LinkAdd,
      !d.connecting,
      if d.paired then BluetoothPaired else BluetoothUnpaired,
      if d.name.Some? then d.name.value else d.address)
  }

  /** What a click on an element's connect button hands to BlueZ's
      `connect_device`: the device and whether to connect (rather than
      disconnect) it. Completion notifies "connected-devices". */
  datatype ConnectCall = ConnectCall(address: string, connect: bool)

  /** The click handler of the connect button, given `now`, the element's
      device object as it is when clicked: the flag is read from the device
      then, not from the state the element was built with. */
  function OnConnectClicked(e: DeviceElement, now: Device): (c: ConnectCall)
    requires now.address == e.device.address
    ensures c.address == e.device.address
    ensures c.connect <==> !now.connected
  {
    ConnectCall(now.address, !now.connected)
  }

  /** The element's link glyph and its click can disagree: a device that
      was connected when its element was built, and has since dropped its
      connection, shows the link glyph but is asked to connect. */
  lemma ClickFollowsDeviceNotGlyph(d: Device)
    requires d.connected
    ensures var e := NewDeviceElement(d);
      e.connectIcon == Link && OnConnectClicked(e, d.(connected := false)).connect
    ensures var e := NewDeviceElement(d);
      e.connectIcon == Link && !OnConnectClicked(e, d).connect
  {
  }

  /** `get_device_elements`: one element per device, in sorted order. */
  function DeviceElements(devices: seq<Device>): (r: seq<DeviceElement>)
    ensures |r| == |devices|
    ensures forall i | 0 <= i < |r| :: r[i] == NewDeviceElement(SortedDevices(devices)[i])
  {
    seq(|devices|, i requires 0 <= i < |devices| => NewDeviceElement(SortedDevices(devices)[i]))
  }

  /** `BluetoothConnections`: the device list and the scan toggle icon. */
  class BluetoothConnections {
    var deviceElements: seq<DeviceElement>
    var scanIcon: Icon

    constructor (scanning: bool)
      ensures deviceElements == []
      ensures scanIcon == (if scanning then Search else SearchOff)
    {
      deviceElements := [];
      scanIcon := if scanning then Search else SearchOff;
    }

    /** `on_notify_devices`: the list is rebuilt from the sorted devices. */
    method OnNotifyDevices(devices: seq<Device>)
      modifies this
      ensures deviceElements == DeviceElements(devices)
      ensures scanIcon == old(scanIcon)
    {
      deviceElements := DeviceElements(devices);
    }

    /** `on_notify_scanning`. */
    method OnNotifyScanning(scanning: bool)
      modifies this
      ensures scanIcon == (if scanning then Search else SearchOff)
      ensures deviceElements == old(deviceElements)
    {
      scanIcon := if scanning then Search else SearchOff;
    }
  }
}
