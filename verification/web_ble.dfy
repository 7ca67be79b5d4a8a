/**
 * The browser `useBLE` hook: a `BLEState` record plus the selected `device` and the
 * bound control `characteristic`, driven by `connect`, `disconnect`, `sendCommand`,
 * the three command wrappers and the `gattserverdisconnected` listener.
 *
 * Every awaited Web Bluetooth call is an input (a `ConnectAttempt` or an `Outcome`);
 * each operation runs as one atomic step. The pure `…Step` functions give the whole
 * session after each operation; the class `WebBleHook` performs the same updates in
 * place and is proved to agree with them.
 */
module WebBle {
  import opened Wrappers
  import opened Hex
  import opened BleConstants

  /** The hook's `BLEState` record. */
  datatype BleState = BleState(
    isConnected: bool,
    isConnecting: bool,
    error: Option<string>,
    deviceName: Option<string>)

  const INITIAL_STATE: BleState := BleState(false, false, None, None)

  const NO_WEB_BLUETOOTH: string := "이 브라우저는 Web Bluetooth를 지원하지 않습니다. Chrome을 사용해주세요."
  const GATT_CONNECT_FAILED: string := "GATT 서버 연결 실패"
  const CONNECT_FAILED: string := "연결 실패"
  const NOT_CONNECTED: string := "연결되지 않았습니다"
  const SEND_FAILED: string := "명령 전송 실패"
  const UNKNOWN_NAME: string := "Unknown"

  /** A `BluetoothDevice` handed back by the picker: identity, optional name, optional GATT server. */
  datatype Device = Device(id: nat, name: Option<string>, hasGatt: bool)

  /** A bound `BluetoothRemoteGATTCharacteristic`: its device, service UUID and UUID. */
  datatype Characteristic = Characteristic(device: nat, service: string, uuid: string)

  /** One write handed to the transport. */
  datatype Write = Write(target: Characteristic, payload: seq<Byte>, withResponse: bool)

  /**
   * What the browser does during one `connect`: whether `navigator.bluetooth` exists,
   * how `requestDevice` ends and which device it returns, then how `gatt.connect()`,
   * `getPrimaryService(SERVICE_UUID)` and `getCharacteristic(CHAR_CONTROL_UUID)` end.
   * Steps after the first failure are never consulted.
   */
  datatype ConnectAttempt = ConnectAttempt(
    bluetooth: bool,
    picker: Outcome,
    picked: Device,
    gatt: Outcome,
    service: Outcome,
    characteristic: Outcome)

  /**
   * The hook's observable session: the record, `device`, `characteristic`, whether the
   * held device's GATT server is connected (`device.gatt.connected`), and the devices
   * on which the hook has registered a `gattserverdisconnected` listener.
   */
  datatype Session = Session(
    state: BleState,
    device: Option<Device>,
    characteristic: Option<Characteristic>,
    linkUp: bool,
    listening: set<nat>)

  /** The result of `sendCommand`: the new session, the returned boolean, the write issued. */
  datatype SendResult = SendResult(after: Session, ok: bool, wire: Option<Write>)

  /** `selectedDevice.name || 'Unknown'`. */
  function DisplayName(d: Device): (n: string)
    ensures n != ""
    ensures d.name.Some? && d.name.value != "" ==> n == d.name.value
    ensures d.name.None? || d.name.value == "" ==> n == UNKNOWN_NAME
  {
    if d.name.None? || d.name.value == "" then UNKNOWN_NAME else d.name.value
  }

  /** The control characteristic of `d`'s Switcher service. */
  function ControlOf(d: Device): Characteristic {
    Characteristic(d.id, SERVICE_UUID, CHAR_CONTROL_UUID)
  }

  /** Every transport step of the attempt resolves. */
  predicate ConnectSucceeds(a: ConnectAttempt) {
    a.bluetooth && a.picker.Done? && a.picked.hasGatt && a.gatt.Done? && a.service.Done? && a.characteristic.Done?
  }

  /** The browser has Web Bluetooth and the picker returned a device (line 40 ran). */
  predicate DevicePicked(a: ConnectAttempt) {
    a.bluetooth && a.picker.Done?
  }

  function InitialSession(): Session {
    Session(INITIAL_STATE, None, None, false, {})
  }

  /**
   * The binding invariant: a characteristic is bound exactly when the session is
   * connected, and then it belongs to the held device, whose GATT link is up and
   * which has a disconnect listener; a connected session shows a device name; no
   * held device means no link.
   */
  predicate Consistent(s: Session) {
    && (s.characteristic.Some? <==> s.state.isConnected)
    && (s.characteristic.Some? ==>
          && s.device.Some?
          && s.characteristic.value == ControlOf(s.device.value)
          && s.device.value.id in s.listening
          && s.linkUp)
    && (s.state.isConnected ==> s.state.deviceName.Some?)
    && (s.device.None? ==> !s.linkUp)
  }

  /** The transient record written first by `connect`: connecting, error cleared. */
  function BeginConnect(s: Session): (r: Session)
    ensures r.state.isConnecting && r.state.error.None?
    ensures r.state.isConnected == s.state.isConnected && r.state.deviceName == s.state.deviceName
    ensures r.device == s.device && r.characteristic == s.characteristic
    ensures r.linkUp == s.linkUp && r.listening == s.listening
  {
    s.(state := s.state.(isConnecting := true, error := None))
  }

  /** The `catch` branch: not connected, not connecting, the error shown, no name. */
  function ConnectFailed(s: Session, message: string): Session {
    s.(state := BleState(false, false, Some(message), None))
  }

  /** What the rest of `connect` does to the session, from the transient record on. */
  function SettleConnect(s: Session, a: ConnectAttempt): (r: Session)
    ensures !r.state.isConnecting
    ensures r.state.isConnected <==> ConnectSucceeds(a)
    ensures ConnectSucceeds(a) ==>
              && r.state.error.None?
              && r.state.deviceName == Some(DisplayName(a.picked))
              && r.characteristic == Some(ControlOf(a.picked))
              && r.linkUp
              && r.listening == s.listening + {a.picked.id}
    ensures !ConnectSucceeds(a) ==>
              && r.state.deviceName.None?
              && r.state.error.Some? && r.state.error.value != ""
              && r.characteristic == s.characteristic
              && r.listening == s.listening
    ensures r.device == if DevicePicked(a) then Some(a.picked) else s.device
    ensures !ConnectSucceeds(a) && DevicePicked(a) ==> r.linkUp == (a.picked.hasGatt && a.gatt.Done?)
    ensures !DevicePicked(a) ==> r.linkUp == s.linkUp
    ensures !a.bluetooth ==> r.state.error == Some(NO_WEB_BLUETOOTH)
    ensures a.bluetooth && a.picker.Failed? ==> r.state.error == Some(MessageOr(a.picker, CONNECT_FAILED))
    ensures DevicePicked(a) && !a.picked.hasGatt ==> r.state.error == Some(GATT_CONNECT_FAILED)
    ensures DevicePicked(a) && a.picked.hasGatt && a.gatt.Failed? ==>
              r.state.error == Some(MessageOr(a.gatt, CONNECT_FAILED))
    ensures DevicePicked(a) && a.picked.hasGatt && a.gatt.Done? && a.service.Failed? ==>
              r.state.error == Some(MessageOr(a.service, CONNECT_FAILED))
    ensures DevicePicked(a) && a.picked.hasGatt && a.gatt.Done? && a.service.Done? && a.characteristic.Failed? ==>
              r.state.error == Some(MessageOr(a.characteristic, CONNECT_FAILED))
  {
    if !a.bluetooth then ConnectFailed(s, NO_WEB_BLUETOOTH)
    else if a.picker.Failed? then ConnectFailed(s, MessageOr(a.picker, CONNECT_FAILED))
    else
      var held := s.(device := Some(a.picked));
      if !a.picked.hasGatt then ConnectFailed(held.(linkUp := false), GATT_CONNECT_FAILED)
      else if a.gatt.Failed? then ConnectFailed(held.(linkUp := false), MessageOr(a.gatt, CONNECT_FAILED))
      else
        var linked := held.(linkUp := true);
        if a.service.Failed? then ConnectFailed(linked, MessageOr(a.service, CONNECT_FAILED))
        else if a.characteristic.Failed? then ConnectFailed(linked, MessageOr(a.characteristic, CONNECT_FAILED))
        else
          Session(
            BleState(true, false, None, Some(DisplayName(a.picked))),
            Some(a.picked),
            Some(ControlOf(a.picked)),
            true,
            s.listening + {a.picked.id})
  }

  /**
   * `connect`: whatever the transport does, the attempt settles (not connecting);
   * it connects exactly when every step resolves, and then binds the picked device's
   * control characteristic, shows its name and listens for its disconnection; on any
   * failure it shows the first failing step's error (a fixed text, or the thrown
   * message falling back to "연결 실패") and no name, and leaves `characteristic`
   * alone; the picked device, once returned, stays held even on failure.
   */
  function ConnectStep(s: Session, a: ConnectAttempt): (r: Session)
    ensures !r.state.isConnecting
    ensures r.state.isConnected <==> ConnectSucceeds(a)
    ensures ConnectSucceeds(a) ==>
              && r.state.error.None?
              && r.state.deviceName == Some(DisplayName(a.picked))
              && r.characteristic == Some(ControlOf(a.picked))
              && r.linkUp
              && r.listening == s.listening + {a.picked.id}
    ensures !ConnectSucceeds(a) ==>
              && r.state.deviceName.None?
              && r.state.error.Some? && r.state.error.value != ""
              && r.characteristic == s.characteristic
              && r.listening == s.listening
    ensures r.device == if DevicePicked(a) then Some(a.picked) else s.device
    ensures !ConnectSucceeds(a) && DevicePicked(a) ==> r.linkUp == (a.picked.hasGatt && a.gatt.Done?)
    ensures !DevicePicked(a) ==> r.linkUp == s.linkUp
    ensures !a.bluetooth ==> r.state.error == Some(NO_WEB_BLUETOOTH)
    ensures a.bluetooth && a.picker.Failed? ==> r.state.error == Some(MessageOr(a.picker, CONNECT_FAILED))
    ensures DevicePicked(a) && !a.picked.hasGatt ==> r.state.error == Some(GATT_CONNECT_FAILED)
    ensures DevicePicked(a) && a.picked.hasGatt && a.gatt.Failed? ==>
              r.state.error == Some(MessageOr(a.gatt, CONNECT_FAILED))
    ensures DevicePicked(a) && a.picked.hasGatt && a.gatt.Done? && a.service.Failed? ==>
              r.state.error == Some(MessageOr(a.service, CONNECT_FAILED))
    ensures DevicePicked(a) && a.picked.hasGatt && a.gatt.Done? && a.service.Done? && a.characteristic.Failed? ==>
              r.state.error == Some(MessageOr(a.characteristic, CONNECT_FAILED))
  {
    SettleConnect(BeginConnect(s), a)
  }

  /**
   * `disconnect`: the record is reset to all-false/null (the error too), `device` and
   * `characteristic` are cleared and the link is down; listeners stay registered.
   */
  function DisconnectStep(s: Session): (r: Session)
    ensures r.state == INITIAL_STATE && r.device.None? && r.characteristic.None? && !r.linkUp
    ensures r.listening == s.listening
  {
    Session(INITIAL_STATE, None, None, false, s.listening)
  }

  /** `device?.gatt?.connected`: whether `disconnect` calls `device.gatt.disconnect()`. */
  predicate CallsGattDisconnect(s: Session) {
    s.device.Some? && s.device.value.hasGatt && s.linkUp
  }

  /**
   * The `gattserverdisconnected` event for device `id`: the held device's link goes
   * down if it is that device, and if the hook listens on `id` the session drops to
   * not connected, no name, no characteristic; `isConnecting` and `error` are kept.
   */
  function GattDisconnectedStep(s: Session, id: nat): (r: Session)
    ensures r.state.isConnecting == s.state.isConnecting && r.state.error == s.state.error
    ensures r.device == s.device && r.listening == s.listening
    ensures id in s.listening ==> !r.state.isConnected && r.state.deviceName.None? && r.characteristic.None?
    ensures id !in s.listening ==> r.state == s.state && r.characteristic == s.characteristic
    ensures r.linkUp == (s.linkUp && !(s.device.Some? && s.device.value.id == id))
  {
    var s1 := if s.device.Some? && s.device.value.id == id then s.(linkUp := false) else s;
    if id in s.listening then
      s1.(state := s1.state.(isConnected := false, deviceName := None), characteristic := None)
    else s1
  }

  /** The byte `sendCommand` writes: `new Uint8Array([parseInt(cmd, 16)])`. */
  function Payload(cmd: string): (p: seq<Byte>)
    ensures |p| == 1
  {
    [ToUint8(ParseIntHex(cmd))]
  }

  /**
   * `sendCommand(cmd)`: with no characteristic it refuses (false, error set, no write);
   * otherwise it writes one byte without response to the bound characteristic and
   * returns whether the write resolved, recording the error if not. The connection
   * fields are never touched.
   */
  function SendStep(s: Session, cmd: string, write: Outcome): (r: SendResult)
    ensures r.after.state.isConnected == s.state.isConnected
    ensures r.after.state.isConnecting == s.state.isConnecting
    ensures r.after.state.deviceName == s.state.deviceName
    ensures r.after.device == s.device && r.after.characteristic == s.characteristic
    ensures r.after.linkUp == s.linkUp && r.after.listening == s.listening
    ensures s.characteristic.None? ==> !r.ok && r.wire.None? && r.after.state.error == Some(NOT_CONNECTED)
    ensures s.characteristic.Some? ==>
              && r.wire == Some(Write(s.characteristic.value, Payload(cmd), false))
              && (r.ok <==> write.Done?)
              && (r.ok ==> r.after == s)
              && (!r.ok ==> r.after.state.error.Some? && r.after.state.error.value != "")
              && (!r.ok ==> r.after.state.error == Some(MessageOr(write, SEND_FAILED)))
  {
    if s.characteristic.None? then
      SendResult(s.(state := s.state.(error := Some(NOT_CONNECTED))), false, None)
    else
      var w := Write(s.characteristic.value, Payload(cmd), false);
      if write.Done? then SendResult(s, true, Some(w))
      else SendResult(s.(state := s.state.(error := Some(MessageOr(write, SEND_FAILED)))), false, Some(w))
  }

  /** The start state satisfies the binding invariant. */
  lemma InitialConsistent()
    ensures Consistent(InitialSession())
    ensures !InitialSession().state.isConnected && !InitialSession().state.isConnecting
  {
  }

  /**
   * A `connect` started while not connected (the only time the connect button is
   * shown) keeps the binding invariant, whichever step fails.
   */
  lemma {:induction false} ConnectKeepsBinding(s: Session, a: ConnectAttempt)
    requires Consistent(s) && !s.state.isConnected
    ensures Consistent(ConnectStep(s, a))
  {
    var r := ConnectStep(s, a);
    if !ConnectSucceeds(a) {
      assert s.characteristic.None?;
      assert r.characteristic.None? && !r.state.isConnected;
      if DevicePicked(a) {
        assert r.device.Some?;
      } else {
        assert r.device == s.device && r.linkUp == s.linkUp;
      }
    }
  }

  /**
   * `connect` has no re-entry guard: called on a connected session and failing, it
   * reports "not connected" while the old characteristic stays bound.
   */
  lemma ReentrantConnectBreaksBinding()
    ensures
      var d := Device(7, Some(DEVICE_NAME), true);
      var s := Session(BleState(true, false, None, Some(DEVICE_NAME)), Some(d), Some(ControlOf(d)), true, {7});
      var a := ConnectAttempt(true, Failed(""), d, Done, Done, Done);
      Consistent(s) && !Consistent(ConnectStep(s, a))
  {
  }

  /** `disconnect` keeps the invariant and a second `disconnect` changes nothing and calls nothing. */
  lemma {:induction false} DisconnectIdempotent(s: Session)
    ensures Consistent(DisconnectStep(s))
    ensures DisconnectStep(DisconnectStep(s)) == DisconnectStep(s)
    ensures !CallsGattDisconnect(DisconnectStep(s))
  {
  }

  /** The disconnect event keeps the invariant. */
  lemma {:induction false} GattDisconnectedKeepsBinding(s: Session, id: nat)
    requires Consistent(s)
    ensures Consistent(GattDisconnectedStep(s, id))
  {
    var r := GattDisconnectedStep(s, id);
    if id !in s.listening && s.characteristic.Some? {
      assert s.device.value.id != id;
    }
  }

  /** `sendCommand` keeps the invariant, whether or not the write succeeds. */
  lemma {:induction false} SendKeepsBinding(s: Session, cmd: string, write: Outcome)
    requires Consistent(s)
    ensures Consistent(SendStep(s, cmd, write).after)
  {
  }

  /**
   * On a connected session, each command button writes exactly its protocol byte,
   * once, without response, to the Switcher's control characteristic, and a failed
   * write leaves the session connected.
   */
  lemma {:induction false} CommandWritesProtocolByte(s: Session, c: Command, write: Outcome)
    requires Consistent(s) && s.state.isConnected
    ensures var r := SendStep(s, CmdText(c), write);
      && r.wire.Some?
      && r.wire.value.payload == [ProtocolByte(c)]
      && !r.wire.value.withResponse
      && r.wire.value.target.uuid == CHAR_CONTROL_UUID
      && r.wire.value.target.service == SERVICE_UUID
      && r.after.state.isConnected
      && (r.ok <==> write.Done?)
  {
    CmdTextDecodes(c);
  }

  /**
   * Once the bound device reports a GATT disconnection, the next command is refused
   * as not connected and nothing is written.
   */
  lemma {:induction false} DroppedLinkRefusesNextCommand(s: Session, c: Command, write: Outcome)
    requires Consistent(s) && s.state.isConnected
    ensures var d := GattDisconnectedStep(s, s.characteristic.value.device);
      var r := SendStep(d, CmdText(c), write);
      && !r.ok && r.wire.None? && r.after.state.error == Some(NOT_CONNECTED)
      && !r.after.state.isConnected
  {
    assert s.characteristic.value.device == s.device.value.id;
  }

  /** What can happen to the hook: the user's three buttons and the browser's disconnect event. */
  datatype Event =
    | UserConnect(attempt: ConnectAttempt)
    | UserDisconnect
    | UserCommand(command: Command, write: Outcome)
    | LinkLost(device: nat)

  function Apply(s: Session, e: Event): Session {
    match e
    case UserConnect(a) => ConnectStep(s, a)
    case UserDisconnect => DisconnectStep(s)
    case UserCommand(c, w) => SendStep(s, CmdText(c), w).after
    case LinkLost(id) => GattDisconnectedStep(s, id)
  }

  /** The connect button is rendered only while not connected. */
  predicate UiAllows(s: Session, e: Event) {
    e.UserConnect? ==> !s.state.isConnected
  }

  function Run(s: Session, events: seq<Event>): Session
    decreases |events|
  {
    if events == [] then s else Run(Apply(s, events[0]), events[1..])
  }

  predicate Admissible(s: Session, events: seq<Event>)
    decreases |events|
  {
    events == [] || (UiAllows(s, events[0]) && Admissible(Apply(s, events[0]), events[1..]))
  }

  /**
   * Every sequence of user actions the UI admits, interleaved with any disconnect
   * events, keeps the binding invariant: the characteristic is bound iff connected.
   */
  lemma {:induction false} RunKeepsBinding(s: Session, events: seq<Event>)
    requires Consistent(s) && Admissible(s, events)
    ensures Consistent(Run(s, events))
    ensures Run(s, events).characteristic.Some? <==> Run(s, events).state.isConnected
    decreases |events|
  {
    if events != [] {
      var e := events[0];
      match e {
        case UserConnect(a) => ConnectKeepsBinding(s, a);
        case UserDisconnect => DisconnectIdempotent(s);
        case UserCommand(c, w) => SendKeepsBinding(s, CmdText(c), w);
        case LinkLost(id) => GattDisconnectedKeepsBinding(s, id);
      }
      RunKeepsBinding(Apply(s, e), events[1..]);
    }
  }

  /** From the hook's first render, every admitted history keeps the binding invariant. */
  lemma {:induction false} ReachableSessionsAreConsistent(events: seq<Event>)
    requires Admissible(InitialSession(), events)
    ensures Consistent(Run(InitialSession(), events))
  {
    InitialConsistent();
    RunKeepsBinding(InitialSession(), events);
  }

  /**
   * The hook object: `state`, `device` and `characteristic` as React state, plus the
   * browser-side facts the hook reads (`device.gatt.connected`, registered listeners).
   */
  class WebBleHook {
    var state: BleState
    var device: Option<Device>
    var characteristic: Option<Characteristic>
    var linkUp: bool
    var listening: set<nat>

    function Snapshot(): Session
      reads this
    {
      Session(state, device, characteristic, linkUp, listening)
    }

    /** The first render: not connected, not connecting, no error, no name, no device. */
    constructor ()
      ensures Snapshot() == InitialSession()
    {
      state := INITIAL_STATE;
      device := None;
      characteristic := None;
      linkUp := false;
      listening := {};
    }

    method Connect(a: ConnectAttempt)
      modifies this
      ensures Snapshot() == ConnectStep(old(Snapshot()), a)
      ensures !state.isConnecting
    {
      state := state.(isConnecting := true, error := None);
      if !a.bluetooth {
        state := BleState(false, false, Some(NO_WEB_BLUETOOTH), None);
        return;
      }
      if a.picker.Failed? {
        state := BleState(false, false, Some(MessageOr(a.picker, CONNECT_FAILED)), None);
        return;
      }
      var selected := a.picked;
      device := Some(selected);
      if !selected.hasGatt || a.gatt.Failed? {
        linkUp := false;
        var message := if !selected.hasGatt then GATT_CONNECT_FAILED else MessageOr(a.gatt, CONNECT_FAILED);
        state := BleState(false, false, Some(message), None);
        return;
      }
      linkUp := true;
      if a.service.Failed? {
        state := BleState(false, false, Some(MessageOr(a.service, CONNECT_FAILED)), None);
        return;
      }
      if a.characteristic.Failed? {
        state := BleState(false, false, Some(MessageOr(a.characteristic, CONNECT_FAILED)), None);
        return;
      }
      characteristic := Some(ControlOf(selected));
      state := BleState(true, false, None, Some(DisplayName(selected)));
      listening := listening + {selected.id};
    }

    /** Returns whether `device.gatt.disconnect()` was called. */
    method Disconnect() returns (calledGattDisconnect: bool)
      modifies this
      ensures calledGattDisconnect == CallsGattDisconnect(old(Snapshot()))
      ensures Snapshot() == DisconnectStep(old(Snapshot()))
    {
      calledGattDisconnect := device.Some? && device.value.hasGatt && linkUp;
      // a called `device.gatt.disconnect()` takes the link down; with no device there is none
      linkUp := false;
      device := None;
      characteristic := None;
      state := BleState(false, false, None, None);
    }

    /** The browser fires `gattserverdisconnected` on device `id`. */
    method HandleGattServerDisconnected(id: nat)
      modifies this
      ensures Snapshot() == GattDisconnectedStep(old(Snapshot()), id)
    {
      if device.Some? && device.value.id == id {
        linkUp := false;
      }
      if id in listening {
        state := state.(isConnected := false, deviceName := None);
        characteristic := None;
      }
    }

    /** Returns what the hook returns and the write it handed to the transport, if any. */
    method SendCommand(cmd: string, write: Outcome) returns (ok: bool, wire: Option<Write>)
      modifies this
      ensures var r := SendStep(old(Snapshot()), cmd, write);
        Snapshot() == r.after && ok == r.ok && wire == r.wire
    {
      if characteristic.None? {
        state := state.(error := Some(NOT_CONNECTED));
        return false, None;
      }
      var data := [ToUint8(ParseIntHex(cmd))];
      wire := Some(Write(characteristic.value, data, false));
      if write.Done? {
        ok := true;
      } else {
        state := state.(error := Some(MessageOr(write, SEND_FAILED)));
        ok := false;
      }
    }

    method TurnOn(write: Outcome) returns (ok: bool, wire: Option<Write>)
      modifies this
      ensures var r := SendStep(old(Snapshot()), CmdText(On), write);
        Snapshot() == r.after && ok == r.ok && wire == r.wire
    {
      ok, wire := SendCommand(CmdText(On), write);
    }

    method TurnOff(write: Outcome) returns (ok: bool, wire: Option<Write>)
      modifies this
      ensures var r := SendStep(old(Snapshot()), CmdText(Off), write);
        Snapshot() == r.after && ok == r.ok && wire == r.wire
    {
      ok, wire := SendCommand(CmdText(Off), write);
    }

    method Toggle(write: Outcome) returns (ok: bool, wire: Option<Write>)
      modifies this
      ensures var r := SendStep(old(Snapshot()), CmdText(Command.Toggle), write);
        Snapshot() == r.after && ok == r.ok && wire == r.wire
    {
      ok, wire := SendCommand(CmdText(Command.Toggle), write);
    }
  }
}
