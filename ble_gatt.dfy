/**
 * The GATT client of the companion app (`BLEGATT`): a nullable connection
 * handle guarded by the adapter, the connect permission and null checks,
 * and the calls it makes into the Bluetooth stack. The stack itself is
 * abstract: what it answers comes in as parameters (the device an address
 * resolves to, the handle `connectGatt` returns, the services a discovery
 * found, whether the permission is granted at that moment), and what the
 * client asks of it is recorded, in order, as transport operations.
 *
 * Each operation is first a step function from state to next state and
 * issued operations; the `BleGatt` class then performs the same guards
 * imperatively and is proved to take exactly those steps.
 */
module Gatt {
  import opened Wrappers
  import opened Uuids

  /** `BluetoothProfile.STATE_DISCONNECTED` and `STATE_CONNECTED`, and `BluetoothGatt.GATT_SUCCESS`. */
  const StateDisconnected := 0
  const StateConnected := 2
  const GattSuccess := 0

  /** The identity of one `BluetoothGatt` connection object. */
  type Handle = nat

  /** A remote characteristic: its UUID and the UUIDs of its descriptors. */
  datatype Characteristic = Characteristic(uuid: string, descriptors: set<string>)

  /** What the remote device exposes after discovery: service UUID to its characteristics, by UUID. */
  type Server = map<string, map<string, Characteristic>>

  /** `getCharacteristic(u)` returns a characteristic whose UUID is `u`. */
  predicate WellFormedServer(server: Server) {
    forall su, cu | su in server && cu in server[su] :: server[su][cu].uuid == cu
  }

  /**
   * The client's state: whether the constructor obtained an adapter (a
   * final field), the `bluetoothGatt` handle, and the device last
   * connected to (`MainActivity.currentDevice`), by address.
   */
  datatype GattState = GattState(adapterPresent: bool, gatt: Option<Handle>, currentDevice: Option<string>)

  /** The calls made into the Bluetooth stack. */
  datatype TransportOp =
    | ConnectGatt(device: string)
    | Disconnect(handle: Handle)
    | Close(handle: Handle)
    | DiscoverServices(handle: Handle)
    | SetNotification(handle: Handle, characteristic: string, enabled: bool)
    | WriteDescriptor(handle: Handle, characteristic: string, descriptor: string, value: seq<byte>)

  /** The outcome of one operation: the next state and the transport calls made, in order. */
  datatype Step = Step(next: GattState, ops: seq<TransportOp>)

  /** A handle is never held without the device it was opened for. */
  predicate Consistent(s: GattState) {
    s.gatt.Some? ==> s.currentDevice.Some?
  }

  /** `connect` gets past its guards: adapter, address, permission, and a device for the address. */
  predicate ConnectAccepted(s: GattState, address: Option<string>, permitted: bool, device: Option<string>) {
    s.adapterPresent && address.Some? && permitted && device.Some?
  }

  /**
   * `connect(address)`: `device` is what `getRemoteDevice` resolves the
   * address to, `connection` what `connectGatt` returns. An accepted connect
   * records the device and replaces the handle, whatever it held before.
   */
  function ConnectStep(s: GattState, address: Option<string>, permitted: bool, device: Option<string>,
                       connection: Option<Handle>): (r: Step)
    ensures !ConnectAccepted(s, address, permitted, device) ==> r == Step(s, [])
    ensures ConnectAccepted(s, address, permitted, device) ==>
      r.next == GattState(s.adapterPresent, connection, device) && r.ops == [ConnectGatt(device.value)]
  {
    if !s.adapterPresent || address.None? then Step(s, [])
    else if !permitted then Step(s, [])
    else if device.None? then Step(s, [])
    else Step(s.(currentDevice := device, gatt := connection), [ConnectGatt(device.value)])
  }

  /** `disconnect`: asks the stack to drop the link, but keeps the handle. */
  function DisconnectStep(s: GattState, permitted: bool): (r: Step)
    ensures r.next == s
    ensures r.ops != [] <==> s.adapterPresent && s.gatt.Some? && permitted
    ensures r.ops != [] ==> r.ops == [Disconnect(s.gatt.value)]
  {
    if !s.adapterPresent || s.gatt.None? then Step(s, [])
    else if !permitted then Step(s, [])
    else Step(s, [Disconnect(s.gatt.value)])
  }

  /** `close`: releases the handle; without a handle, or without permission, nothing happens. */
  function CloseStep(s: GattState, permitted: bool): (r: Step)
    ensures s.gatt.None? || !permitted ==> r == Step(s, [])
    ensures s.gatt.Some? && permitted ==> r.next == s.(gatt := None) && r.ops == [Close(s.gatt.value)]
  {
    if s.gatt.None? then Step(s, [])
    else if !permitted then Step(s, [])
    else Step(s.(gatt := None), [Close(s.gatt.value)])
  }

  /** `onConnectionStateChange`: on connection, start service discovery on the held handle. */
  function ConnectionStateStep(s: GattState, newState: int, permitted: bool): (r: Step)
    ensures r.next == s
    ensures r.ops != [] <==> newState == StateConnected && permitted && s.gatt.Some?
    ensures r.ops != [] ==> r.ops == [DiscoverServices(s.gatt.value)]
  {
    if newState == StateConnected then
      if !permitted then Step(s, [])
      else if s.gatt.Some? then Step(s, [DiscoverServices(s.gatt.value)])
      else Step(s, [])
    else Step(s, [])
  }

  /** The CCCD value that turns notifications on or off. */
  function NotificationValue(enabled: bool): (v: seq<byte>)
    ensures v == EnableNotificationValue || v == DisableNotificationValue
    ensures enabled <==> v == EnableNotificationValue
  {
    if enabled then EnableNotificationValue else DisableNotificationValue
  }

  /**
   * `setCharacteristicNotification`: with a handle and permission, enable
   * local notification for the characteristic; then, for the
   * notification-update characteristic only, write the CCCD if it has one.
   */
  function SubscribeStep(s: GattState, c: Characteristic, enabled: bool, permitted: bool): (r: Step)
    ensures r.next == s
    ensures s.gatt.None? || !permitted ==> r.ops == []
    ensures s.gatt.Some? && permitted ==>
      |r.ops| >= 1 && r.ops[0] == SetNotification(s.gatt.value, c.uuid, enabled)
    ensures |r.ops| == 2 <==> s.gatt.Some? && permitted && c.uuid == NotificationUpdateUuid && CccdUuid in c.descriptors
    ensures |r.ops| == 2 ==> r.ops[1] == WriteDescriptor(s.gatt.value, NotificationUpdateUuid, CccdUuid, NotificationValue(enabled))
    ensures |r.ops| <= 2
  {
    if s.gatt.None? then Step(s, [])
    else if !permitted then Step(s, [])
    else
      var h := s.gatt.value;
      var write := if c.uuid == NotificationUpdateUuid && CccdUuid in c.descriptors
        then [WriteDescriptor(h, c.uuid, CccdUuid, NotificationValue(enabled))]
        else [];
      Step(s, [SetNotification(h, c.uuid, enabled)] + write)
  }

  /** Discovery succeeded and found the service with both the command and the notification characteristic. */
  predicate SubscriptionFound(status: int, server: Server) {
    status == GattSuccess && ServiceUuid in server
    && CommandUuid in server[ServiceUuid] && NotificationUpdateUuid in server[ServiceUuid]
  }

  /** `onServicesDiscovered`: subscribe to the notification characteristic when everything is there. */
  function ServicesDiscoveredStep(s: GattState, status: int, server: Server, permitted: bool): (r: Step)
    ensures r.next == s
    ensures !SubscriptionFound(status, server) ==> r.ops == []
    ensures SubscriptionFound(status, server) ==>
      r == SubscribeStep(s, server[ServiceUuid][NotificationUpdateUuid], true, permitted)
  {
    if status != GattSuccess then Step(s, [])
    else if ServiceUuid !in server then Step(s, [])
    else
      var service := server[ServiceUuid];
      if CommandUuid !in service then Step(s, [])
      else if NotificationUpdateUuid !in service then Step(s, [])
      else SubscribeStep(s, service[NotificationUpdateUuid], true, permitted)
  }

  /** One call into the client, with what the stack answers during it. */
  datatype Call =
    | ConnectCall(address: Option<string>, permitted: bool, device: Option<string>, connection: Option<Handle>)
    | DisconnectCall(permitted: bool)
    | CloseCall(permitted: bool)
    | ConnectionStateChange(newState: int, permitted: bool)
    | ServicesDiscovered(status: int, server: Server, permitted: bool)
    | SetCharacteristicNotification(characteristic: Characteristic, enabled: bool, permitted: bool)
    | CharacteristicRead(status: int)
    | CharacteristicChanged(characteristic: Characteristic)

  /** The connect permission is granted during the call (the data callbacks never consult it). */
  predicate Granted(c: Call) {
    match c
    case CharacteristicRead(_) => false
    case CharacteristicChanged(_) => false
    case _ => c.permitted
  }

  function Apply(s: GattState, c: Call): Step {
    match c
    case ConnectCall(address, permitted, device, connection) => ConnectStep(s, address, permitted, device, connection)
    case DisconnectCall(permitted) => DisconnectStep(s, permitted)
    case CloseCall(permitted) => CloseStep(s, permitted)
    case ConnectionStateChange(newState, permitted) => ConnectionStateStep(s, newState, permitted)
    case ServicesDiscovered(status, server, permitted) => ServicesDiscoveredStep(s, status, server, permitted)
    case SetCharacteristicNotification(ch, enabled, permitted) => SubscribeStep(s, ch, enabled, permitted)
    case CharacteristicRead(_) => Step(s, [])
    case CharacteristicChanged(_) => Step(s, [])
  }

  /** Calls taken one after the other by `apply`: the final state and every transport call, in order. */
  function Fold(apply: (GattState, Call) -> Step, s: GattState, calls: seq<Call>): (r: Step)
    ensures calls == [] ==> r == Step(s, [])
    decreases |calls|
  {
    if calls == [] then Step(s, [])
    else
      var first := apply(s, calls[0]);
      var rest := Fold(apply, first.next, calls[1..]);
      Step(rest.next, first.ops + rest.ops)
  }

  /** A sequence of calls into the client, one after the other. */
  function Run(s: GattState, calls: seq<Call>): (r: Step)
    ensures calls == [] ==> r == Step(s, [])
    ensures |calls| == 1 ==> r == Apply(s, calls[0])
  {
    assert |calls| == 1 ==> calls[1..] == [];
    Fold(Apply, s, calls)
  }

  // ---------------------------------------------------------------- lemmas

  /**
   * Running `a` then `b` is running `a`, then running `b` from where `a`
   * left the client, with the transport calls of both in order.
   */
  lemma RunConcat(s: GattState, a: seq<Call>, b: seq<Call>)
    ensures var first := Run(s, a); var second := Run(first.next, b);
      Run(s, a + b) == Step(second.next, first.ops + second.ops)
  {
    FoldConcat(Apply, s, a, b);
  }

  /** Folding over `a + b` is folding over `a`, then over `b` from where `a` ended. */
  lemma {:induction false} FoldConcat(apply: (GattState, Call) -> Step, s: GattState, a: seq<Call>, b: seq<Call>)
    ensures var first := Fold(apply, s, a); var second := Fold(apply, first.next, b);
      Fold(apply, s, a + b) == Step(second.next, first.ops + second.ops)
    decreases |a|
  {
    if a == [] {
      assert a + b == b;
    } else {
      var step := apply(s, a[0]);
      assert (a + b)[0] == a[0];
      assert (a + b)[1..] == a[1..] + b;
      FoldConcat(apply, step.next, a[1..], b);
      var rest, second := Fold(apply, step.next, a[1..]), Fold(apply, Fold(apply, s, a).next, b);
      assert step.ops + (rest.ops + second.ops) == (step.ops + rest.ops) + second.ops;
    }
  }

  /** Without the connect permission a call changes nothing and reaches no part of the stack. */
  lemma DeniedCallIsInert(s: GattState, c: Call)
    requires !Granted(c)
    ensures Apply(s, c) == Step(s, [])
  {
  }

  /** Calls made without the connect permission never reach the stack and never change the state. */
  lemma {:induction false} NoPermissionNoTraffic(s: GattState, calls: seq<Call>)
    requires forall i | 0 <= i < |calls| :: !Granted(calls[i])
    ensures Run(s, calls) == Step(s, [])
    decreases |calls|
  {
    if calls != [] {
      DeniedCallIsInert(s, calls[0]);
      NoPermissionNoTraffic(s, calls[1..]);
    }
  }

  /** After a granted close, every further close is a no-op, with or without permission. */
  lemma CloseIdempotent(s: GattState, permitted: bool)
    ensures var once := CloseStep(s, true);
      once.next.gatt.None? && CloseStep(once.next, permitted) == Step(once.next, [])
  {
  }

  /** Every transport call except opening a connection goes to the handle the client holds. */
  lemma OpsTargetHeldHandle(s: GattState, c: Call)
    ensures forall op | op in Apply(s, c).ops && !op.ConnectGatt? :: s.gatt == Some(op.handle)
  {
    var r := Apply(s, c);
    if c.ServicesDiscovered? || c.SetCharacteristicNotification? {
      assert forall i | 0 <= i < |r.ops| :: r.ops[i].handle == s.gatt.value;
    }
  }

  /** A descriptor write is always the CCCD of the notification-update characteristic, with an enable or disable value. */
  predicate WriteTargetsCccd(op: TransportOp) {
    op.WriteDescriptor? ==>
      op.descriptor == CccdUuid && op.characteristic == NotificationUpdateUuid
      && (op.value == EnableNotificationValue || op.value == DisableNotificationValue)
  }

  /** One call's descriptor writes go to the CCCD. */
  lemma ApplyWritesTargetCccd(s: GattState, c: Call)
    ensures forall i | 0 <= i < |Apply(s, c).ops| :: WriteTargetsCccd(Apply(s, c).ops[i])
  {
  }

  /** In any sequence of calls, descriptor writes only ever go to the CCCD of the notification-update characteristic. */
  lemma {:induction false} DescriptorWritesTargetCccd(s: GattState, calls: seq<Call>)
    ensures forall i | 0 <= i < |Run(s, calls).ops| :: WriteTargetsCccd(Run(s, calls).ops[i])
    decreases |calls|
  {
    if calls != [] {
      var first := Apply(s, calls[0]);
      ApplyWritesTargetCccd(s, calls[0]);
      DescriptorWritesTargetCccd(first.next, calls[1..]);
      var rest := Run(first.next, calls[1..]);
      assert Run(s, calls).ops == first.ops + rest.ops;
      forall i | 0 <= i < |first.ops| + |rest.ops|
        ensures WriteTargetsCccd((first.ops + rest.ops)[i])
      {
        if i >= |first.ops| {
          assert (first.ops + rest.ops)[i] == rest.ops[i - |first.ops|];
        }
      }
    }
  }

  /** One call never leaves a handle without its device. */
  lemma ApplyPreservesConsistent(s: GattState, c: Call)
    requires Consistent(s)
    ensures Consistent(Apply(s, c).next)
  {
  }

  /** No sequence of calls leaves a handle without the device it belongs to. */
  lemma {:induction false} RunPreservesConsistent(s: GattState, calls: seq<Call>)
    requires Consistent(s)
    ensures Consistent(Run(s, calls).next)
    decreases |calls|
  {
    if calls != [] {
      ApplyPreservesConsistent(s, calls[0]);
      RunPreservesConsistent(Apply(s, calls[0]).next, calls[1..]);
    }
  }

  /**
   * Service discovery subscribes exactly when it found the service with
   * both characteristics and the client holds a handle with permission:
   * local notification for the notification-update characteristic first,
   * then the enabling CCCD write if that characteristic has the descriptor.
   */
  lemma SubscriptionIff(s: GattState, status: int, server: Server, permitted: bool)
    requires WellFormedServer(server)
    ensures var r := ServicesDiscoveredStep(s, status, server, permitted);
      (r.ops != [] <==> SubscriptionFound(status, server) && s.gatt.Some? && permitted)
      && (r.ops != [] ==>
        var h := s.gatt.value;
        var c := server[ServiceUuid][NotificationUpdateUuid];
        r.ops == [SetNotification(h, NotificationUpdateUuid, true)]
          + if CccdUuid in c.descriptors then [WriteDescriptor(h, NotificationUpdateUuid, CccdUuid, EnableNotificationValue)] else [])
  {
    var r := ServicesDiscoveredStep(s, status, server, permitted);
    if r.ops != [] {
      var c := server[ServiceUuid][NotificationUpdateUuid];
      assert c.uuid == NotificationUpdateUuid;
      if CccdUuid in c.descriptors {
        assert r.ops == [r.ops[0], r.ops[1]];
      } else {
        assert r.ops == [r.ops[0]];
      }
    }
  }

  /**
   * An accepted connect while a handle is held drops that handle without
   * closing it: no close is issued and the client no longer refers to it.
   */
  lemma ConnectReplacesHeldHandle(s: GattState, address: Option<string>, device: Option<string>,
                                  connection: Option<Handle>)
    requires s.gatt.Some? && ConnectAccepted(s, address, true, device) && connection != s.gatt
    ensures var r := ConnectStep(s, address, true, device, connection);
      r.next.gatt != s.gatt && Close(s.gatt.value) !in r.ops
  {
  }

  /**
   * The service's teardown, disconnect then close, with permission: both
   * calls go to the held handle, in that order, and the handle is released.
   */
  lemma TeardownReleasesHandle(s: GattState)
    requires s.adapterPresent && s.gatt.Some?
    ensures Run(s, [DisconnectCall(true), CloseCall(true)])
      == Step(s.(gatt := None), [Disconnect(s.gatt.value), Close(s.gatt.value)])
  {
    RunConcat(s, [DisconnectCall(true)], [CloseCall(true)]);
    assert [DisconnectCall(true)] + [CloseCall(true)] == [DisconnectCall(true), CloseCall(true)];
  }

  /**
   * The teardown when the permission is withdrawn between the two calls:
   * the disconnect is issued, the close is refused, and the handle is kept.
   */
  lemma TeardownCloseDeniedKeepsHandle(s: GattState)
    requires s.adapterPresent && s.gatt.Some?
    ensures Run(s, [DisconnectCall(true), CloseCall(false)]) == Step(s, [Disconnect(s.gatt.value)])
  {
    RunConcat(s, [DisconnectCall(true)], [CloseCall(false)]);
    assert [DisconnectCall(true)] + [CloseCall(false)] == [DisconnectCall(true), CloseCall(false)];
  }

  // ---------------------------------------------------------------- the client object

  class BleGatt {
    const adapterPresent: bool
    var gatt: Option<Handle>
    var currentDevice: Option<string>
    /** Every call made into the Bluetooth stack so far, oldest first. */
    ghost var ops: seq<TransportOp>

    function State(): GattState
      reads this
    {
      GattState(adapterPresent, gatt, currentDevice)
    }

    /**
     * The constructor keeps the adapter when the system's Bluetooth manager
     * is available and has one; `device` is the shared current device.
     */
    constructor (managerAvailable: bool, adapterAvailable: bool, device: Option<string>)
      ensures State() == GattState(managerAvailable && adapterAvailable, None, device)
      ensures ops == []
    {
      adapterPresent := managerAvailable && adapterAvailable;
      gatt := None;
      currentDevice := device;
      ops := [];
    }

    method Connect(address: Option<string>, permitted: bool, device: Option<string>, connection: Option<Handle>)
      returns (ok: bool)
      modifies this
      ensures ok == ConnectAccepted(old(State()), address, permitted, device)
      ensures State() == ConnectStep(old(State()), address, permitted, device, connection).next
      ensures ops == old(ops) + ConnectStep(old(State()), address, permitted, device, connection).ops
    {
      if !adapterPresent || address.None? {
        return false;
      }
      if !permitted {
        return false;
      }
      if device.None? {
        return false;
      }
      currentDevice := device;
      ops := ops + [ConnectGatt(device.value)];
      gatt := connection;
      return true;
    }

    method Disconnect(permitted: bool)
      modifies this
      ensures State() == DisconnectStep(old(State()), permitted).next
      ensures ops == old(ops) + DisconnectStep(old(State()), permitted).ops
    {
      if !adapterPresent || gatt.None? {
        return;
      }
      if !permitted {
        return;
      }
      ops := ops + [TransportOp.Disconnect(gatt.value)];
    }

    method Close(permitted: bool)
      modifies this
      ensures State() == CloseStep(old(State()), permitted).next
      ensures ops == old(ops) + CloseStep(old(State()), permitted).ops
    {
      if gatt.None? {
        return;
      }
      if !permitted {
        return;
      }
      ops := ops + [TransportOp.Close(gatt.value)];
      gatt := None;
    }

    method OnConnectionStateChange(newState: int, permitted: bool)
      modifies this
      ensures State() == ConnectionStateStep(old(State()), newState, permitted).next
      ensures ops == old(ops) + ConnectionStateStep(old(State()), newState, permitted).ops
    {
      if newState == StateConnected {
        if !permitted {
          return;
        }
        if gatt.Some? {
          ops := ops + [DiscoverServices(gatt.value)];
        }
      } else if newState == StateDisconnected {
      }
    }

    method OnServicesDiscovered(status: int, server: Server, permitted: bool)
      modifies this
      ensures State() == ServicesDiscoveredStep(old(State()), status, server, permitted).next
      ensures ops == old(ops) + ServicesDiscoveredStep(old(State()), status, server, permitted).ops
    {
      if status == GattSuccess {
        if ServiceUuid in server {
          var service := server[ServiceUuid];
          if CommandUuid in service {
            if NotificationUpdateUuid in service {
              SetCharacteristicNotification(service[NotificationUpdateUuid], true, permitted);
            }
          }
        }
      }
    }

    method SetCharacteristicNotification(c: Characteristic, enabled: bool, permitted: bool)
      modifies this
      ensures State() == SubscribeStep(old(State()), c, enabled, permitted).next
      ensures ops == old(ops) + SubscribeStep(old(State()), c, enabled, permitted).ops
    {
      if gatt.None? {
        return;
      }
      if !permitted {
        return;
      }
      ops := ops + [SetNotification(gatt.value, c.uuid, enabled)];
      if c.uuid == NotificationUpdateUuid {
        if CccdUuid in c.descriptors {
          ops := ops + [WriteDescriptor(gatt.value, c.uuid, CccdUuid, NotificationValue(enabled))];
        }
      }
    }

    /** `onCharacteristicRead`: only logs. */
    method OnCharacteristicRead(status: int)
      ensures State() == old(State()) && ops == old(ops)
    {
    }

    /** `onCharacteristicChanged`: only logs. */
    method OnCharacteristicChanged(c: Characteristic)
      ensures State() == old(State()) && ops == old(ops)
    {
    }
  }

  /**
   * The service's `onDestroy`: disconnect, then close, the client it holds.
   * Each call checks the permission for itself, so each has its own answer.
   */
  method ServiceOnDestroy(client: BleGatt, disconnectPermitted: bool, closePermitted: bool)
    modifies client
    ensures client.State() ==
      Run(old(client.State()), [DisconnectCall(disconnectPermitted), CloseCall(closePermitted)]).next
    ensures client.ops == old(client.ops) +
      Run(old(client.State()), [DisconnectCall(disconnectPermitted), CloseCall(closePermitted)]).ops
  {
    ghost var s := client.State();
    client.Disconnect(disconnectPermitted);
    client.Close(closePermitted);
    RunConcat(s, [DisconnectCall(disconnectPermitted)], [CloseCall(closePermitted)]);
    assert [DisconnectCall(disconnectPermitted)] + [CloseCall(closePermitted)]
      == [DisconnectCall(disconnectPermitted), CloseCall(closePermitted)];
  }
}
