/**
 * The Bluetooth scan receiver (`BLEScanReceiver`): the LE scan callback
 * that collects discovered devices into a list without duplicate
 * addresses, and the broadcast handler that reacts to classic discovery
 * and adapter state changes. The Bluetooth stack is abstract: whether an
 * adapter can be obtained and whether a permission is granted come in as
 * parameters, and the calls made on the stack and on the screen are
 * recorded in order.
 */
module BleScan {
  import opened Wrappers

  /** `BluetoothDevice.ACTION_FOUND` and `BluetoothAdapter.ACTION_STATE_CHANGED`. */
  const ActionFound := "android.bluetooth.device.action.FOUND"
  const ActionStateChanged := "android.bluetooth.adapter.action.STATE_CHANGED"

  /** `BluetoothAdapter.STATE_OFF`, and `ERROR`, the default of the state extra. */
  const StateOff := 10
  const StateError := -2147483648

  const UnknownDevice := "Unknown Device"
  const UnknownAddress := "Unknown Address"
  const NameDenied := "Permission Denied for Name"
  const AddressDenied := "Permission Denied for Address"

  /** A discovered device: its hardware address and its advertised name, if any. */
  datatype Device = Device(address: string, name: Option<string>)

  /** A received broadcast: its action, its device extra and its adapter-state extra. */
  datatype Intent = Intent(action: Option<string>, device: Option<Device>, state: Option<int>)

  /** What the receiver asks of the Bluetooth stack and of the screen. */
  datatype ScanOp = StopLeScan | UpdateDeviceList(device: Device)

  // ---------------------------------------------------------------- the device list

  /** Some entry of `ds` has address `a`. */
  predicate HasAddress(ds: seq<Device>, a: string) {
    exists i | 0 <= i < |ds| :: ds[i].address == a
  }

  /** No two entries share an address. */
  predicate AddressesDistinct(ds: seq<Device>) {
    forall i, j | 0 <= i < j < |ds| :: ds[i].address != ds[j].address
  }

  /** The first entry with address `a`. */
  function Lookup(ds: seq<Device>, a: string): (r: Option<Device>)
    ensures r.Some? <==> HasAddress(ds, a)
    ensures r.Some? ==> r.value in ds && r.value.address == a
  {
    if ds == [] then None
    else if ds[0].address == a then Some(ds[0])
    else
      var r := Lookup(ds[1..], a);
      assert HasAddress(ds, a) ==> HasAddress(ds[1..], a) by {
        if HasAddress(ds, a) {
          var i :| 0 <= i < |ds| && ds[i].address == a;
          assert ds[1..][i - 1].address == a;
        }
      }
      assert HasAddress(ds[1..], a) ==> HasAddress(ds, a) by {
        if HasAddress(ds[1..], a) {
          var i :| 0 <= i < |ds[1..]| && ds[1..][i].address == a;
          assert ds[i + 1].address == a;
        }
      }
      r
  }

  /** The scan callback's list update: append `d` unless its address is already listed. */
  function AddIfAbsent(ds: seq<Device>, d: Device): (r: seq<Device>)
    ensures HasAddress(ds, d.address) ==> r == ds
    ensures !HasAddress(ds, d.address) ==> r == ds + [d]
  {
    if HasAddress(ds, d.address) then ds else ds + [d]
  }

  /** The list after a scan that reported `results`, in order, starting from an empty list. */
  function Scanned(results: seq<Device>): (r: seq<Device>)
    ensures |r| <= |results|
  {
    if results == [] then []
    else AddIfAbsent(Scanned(results[..|results| - 1]), results[|results| - 1])
  }

  /**
   * One update keeps every entry where it was, adds at most one at the end,
   * and afterwards the device's address is listed; no other address appears.
   */
  lemma AddIfAbsentKeeps(ds: seq<Device>, d: Device)
    ensures var r := AddIfAbsent(ds, d);
      |ds| <= |r| <= |ds| + 1 && r[..|ds|] == ds && HasAddress(r, d.address)
      && forall a :: HasAddress(r, a) <==> HasAddress(ds, a) || a == d.address
  {
    if !HasAddress(ds, d.address) {
      var r := ds + [d];
      assert r[..|ds|] == ds;
      assert r[|ds|] == d;
      AppendAddresses(ds, d);
    }
  }

  /** Appending a device adds exactly its address to those listed. */
  lemma AppendAddresses(ds: seq<Device>, d: Device)
    ensures forall a :: HasAddress(ds + [d], a) <==> HasAddress(ds, a) || a == d.address
  {
    var r := ds + [d];
    forall a | HasAddress(r, a) ensures HasAddress(ds, a) || a == d.address {
      var i :| 0 <= i < |r| && r[i].address == a;
      if i < |ds| {
        assert ds[i].address == a;
      }
    }
    forall a | HasAddress(ds, a) ensures HasAddress(r, a) {
      var i :| 0 <= i < |ds| && ds[i].address == a;
      assert r[i].address == a;
    }
    assert r[|ds|].address == d.address;
  }

  /** The update keeps the addresses pairwise distinct. */
  lemma AddIfAbsentPreservesDistinct(ds: seq<Device>, d: Device)
    requires AddressesDistinct(ds)
    ensures AddressesDistinct(AddIfAbsent(ds, d))
  {
    if !HasAddress(ds, d.address) {
      var r := ds + [d];
      forall i, j | 0 <= i < j < |r| ensures r[i].address != r[j].address {
        if j == |ds| {
          assert r[i] == ds[i];
        }
      }
    }
  }

  /** Looking up an address after appending a device: an earlier entry wins. */
  lemma {:induction false} LookupAppend(ds: seq<Device>, d: Device, a: string)
    ensures Lookup(ds + [d], a) ==
      if Lookup(ds, a).Some? then Lookup(ds, a) else if d.address == a then Some(d) else None
  {
    if ds != [] {
      assert (ds + [d])[1..] == ds[1..] + [d];
      LookupAppend(ds[1..], d, a);
    } else {
      assert (ds + [d])[1..] == [];
    }
  }

  /** However many times a device is reported, the scan list holds its addresses once each. */
  lemma {:induction false} ScannedDistinct(results: seq<Device>)
    ensures AddressesDistinct(Scanned(results))
    decreases |results|
  {
    if results != [] {
      ScannedDistinct(results[..|results| - 1]);
      AddIfAbsentPreservesDistinct(Scanned(results[..|results| - 1]), results[|results| - 1]);
    }
  }

  /**
   * For every address, the scan list holds the first device reported with
   * it, and holds nothing for an address never reported: the first-seen
   * entry wins and later reports neither replace nor duplicate it.
   */
  lemma {:induction false} ScannedFirstSeen(results: seq<Device>, a: string)
    ensures Lookup(Scanned(results), a) == Lookup(results, a)
    decreases |results|
  {
    if results != [] {
      var init, d := results[..|results| - 1], results[|results| - 1];
      assert results == init + [d];
      ScannedFirstSeen(init, a);
      LookupAppend(init, d, a);
      if !HasAddress(Scanned(init), d.address) {
        LookupAppend(Scanned(init), d, a);
      } else if a == d.address {
        ScannedFirstSeen(init, d.address);
      }
    }
  }

  // ---------------------------------------------------------------- log labels

  /** The name logged for a classically discovered device. */
  function NameLabel(name: Option<string>, readable: bool): (r: string)
    ensures r != ""
    ensures !readable ==> r == NameDenied
    ensures readable && (name.None? || name.value == "") ==> r == UnknownDevice
    ensures readable && name.Some? && name.value != "" ==> r == name.value
  {
    if !readable then NameDenied
    else if name.None? || name.value == "" then UnknownDevice
    else name.value
  }

  /** The address logged for a classically discovered device. */
  function AddressLabel(address: Option<string>, readable: bool): (r: string)
    ensures r != ""
    ensures !readable ==> r == AddressDenied
    ensures readable && (address.None? || address.value == "") ==> r == UnknownAddress
    ensures readable && address.Some? && address.value != "" ==> r == address.value
  {
    if !readable then AddressDenied
    else if address.None? || address.value == "" then UnknownAddress
    else address.value
  }

  /** The broadcast makes the receiver stop the LE scan: the adapter turned off and scanning is permitted. */
  predicate StopsScan(adapter: bool, intent: Intent, scanPermitted: bool) {
    adapter && intent.action == Some(ActionStateChanged) && intent.state.GetOr(StateError) == StateOff
    && scanPermitted
  }

  // ---------------------------------------------------------------- the receiver

  class ScanReceiver {
    /** `mBluetoothAdapter` has been obtained. */
    var adapter: bool
    /** `mLeDevices`, in discovery order. */
    var devices: seq<Device>
    /** Calls made on the Bluetooth stack and on the screen, oldest first. */
    ghost var ops: seq<ScanOp>

    constructor (devices: seq<Device>)
      ensures !adapter && this.devices == devices && ops == []
    {
      adapter := false;
      this.devices := devices;
      ops := [];
    }

    /**
     * `onReceive`: obtains the adapter if it has none yet (`systemAdapter`:
     * the system can supply one), then handles the action. A classic
     * discovery only produces the name and address to log (`nameReadable`
     * and `addressReadable`: those reads do not throw); an adapter switched
     * off stops the LE scan when scanning is permitted. The device list is
     * never touched.
     */
    method OnReceive(intent: Intent, systemAdapter: bool, scanPermitted: bool, nameReadable: bool,
                     addressReadable: bool) returns (logged: Option<(string, string)>)
      modifies this
      ensures adapter == (old(adapter) || systemAdapter)
      ensures devices == old(devices)
      ensures ops == old(ops) + if StopsScan(adapter, intent, scanPermitted) then [StopLeScan] else []
      ensures logged.Some? <==> adapter && intent.action == Some(ActionFound) && intent.device.Some?
      ensures logged.Some? ==>
        logged.value == (NameLabel(intent.device.value.name, nameReadable),
                         AddressLabel(Some(intent.device.value.address), addressReadable))
    {
      logged := None;
      if !adapter {
        if systemAdapter {
          adapter := true;
        }
      }
      if !adapter {
        return;
      }
      if intent.action == Some(ActionFound) {
        if intent.device.Some? {
          var device := intent.device.value;
          var name := NameLabel(device.name, nameReadable);
          var address := AddressLabel(Some(device.address), addressReadable);
          logged := Some((name, address));
        }
      } else if intent.action == Some(ActionStateChanged) {
        var state := intent.state.GetOr(StateError);
        if state == StateOff {
          if scanPermitted {
            ops := ops + [StopLeScan];
          }
        }
      }
    }

    /**
     * `mLeScanCallback`: a reported device is appended unless an entry with
     * its address is already listed; only a device actually added is shown,
     * and only when the screen is attached.
     */
    method OnLeScan(device: Option<Device>, uiAttached: bool)
      modifies this
      ensures adapter == old(adapter)
      ensures device.None? ==> devices == old(devices)
      ensures device.Some? ==> devices == AddIfAbsent(old(devices), device.value)
      ensures ops == old(ops) +
        if device.Some? && !HasAddress(old(devices), device.value.address) && uiAttached
        then [UpdateDeviceList(device.value)] else []
    {
      if device.Some? {
        var d := device.value;
        var found := false;
        var i := 0;
        while i < |devices|
          invariant 0 <= i <= |devices|
          invariant !found ==> forall j | 0 <= j < i :: devices[j].address != d.address
          invariant found ==> HasAddress(devices, d.address)
        {
          if devices[i].address == d.address {
            found := true;
            break;
          }
          i := i + 1;
        }
        if !found {
          devices := devices + [d];
          if uiAttached {
            ops := ops + [UpdateDeviceList(d)];
          }
        }
      }
    }
  }
}
