/**
 * The native-app `useBLE` hook: a placeholder with the browser hook's interface that
 * never talks to a radio. `connect` only reports that native BLE is missing,
 * `disconnect` only clears `isConnected`, and every command returns false.
 */
module NativeBle {
  import opened Wrappers
  import opened BleConstants
  import opened WebBle

  const NOT_IMPLEMENTED: string := "네이티브 BLE는 아직 구현되지 않았습니다. 웹에서 테스트해주세요."
  const NATIVE_MISSING: string := "네이티브 BLE 미구현"

  /** The first render: not connected, not connecting, no name, the "not implemented" error. */
  function StubInitial(): (s: BleState)
    ensures !s.isConnected && !s.isConnecting && s.deviceName.None?
    ensures s.error == Some(NOT_IMPLEMENTED)
  {
    BleState(false, false, Some(NOT_IMPLEMENTED), None)
  }

  /** `connect` replaces the error message and nothing else. */
  function StubConnect(s: BleState): (r: BleState)
    ensures r.error == Some(NATIVE_MISSING)
    ensures r.isConnected == s.isConnected && r.isConnecting == s.isConnecting && r.deviceName == s.deviceName
  {
    s.(error := Some(NATIVE_MISSING))
  }

  /** `disconnect` clears `isConnected` and nothing else. */
  function StubDisconnect(s: BleState): (r: BleState)
    ensures !r.isConnected
    ensures r.isConnecting == s.isConnecting && r.error == s.error && r.deviceName == s.deviceName
  {
    s.(isConnected := false)
  }

  /** What the stub's user can do: connect, disconnect, or press a command button. */
  datatype StubEvent = StubConnectPressed | StubDisconnectPressed | StubCommandPressed(command: Command)

  function StubApply(s: BleState, e: StubEvent): BleState {
    match e
    case StubConnectPressed => StubConnect(s)
    case StubDisconnectPressed => StubDisconnect(s)
    case StubCommandPressed(_) => s
  }

  function StubRun(s: BleState, events: seq<StubEvent>): BleState
    decreases |events|
  {
    if events == [] then s else StubRun(StubApply(s, events[0]), events[1..])
  }

  /** What holds of every state the stub can reach. */
  predicate StubInvariant(s: BleState) {
    !s.isConnected && !s.isConnecting && s.deviceName.None? && s.error.Some? && s.error.value != ""
  }

  /** Every history keeps the stub disconnected, idle, nameless and showing an error. */
  lemma {:induction false} StubRunKeepsInvariant(s: BleState, events: seq<StubEvent>)
    requires StubInvariant(s)
    ensures StubInvariant(StubRun(s, events))
    decreases |events|
  {
    if events != [] {
      StubRunKeepsInvariant(StubApply(s, events[0]), events[1..]);
    }
  }

  /** From the first render, the native hook is never connected. */
  lemma {:induction false} StubNeverConnects(events: seq<StubEvent>)
    ensures !StubRun(StubInitial(), events).isConnected
  {
    StubRunKeepsInvariant(StubInitial(), events);
  }

  class NativeBleHook {
    var state: BleState

    constructor ()
      ensures state == StubInitial()
    {
      state := BleState(false, false, Some(NOT_IMPLEMENTED), None);
    }

    method Connect()
      modifies this
      ensures state == StubConnect(old(state))
    {
      state := state.(error := Some(NATIVE_MISSING));
    }

    method Disconnect()
      modifies this
      ensures state == StubDisconnect(old(state))
    {
      state := state.(isConnected := false);
    }

    /** Refuses every command and changes nothing. */
    method SendCommand(cmd: string) returns (ok: bool)
      ensures !ok
    {
      ok := false;
    }

    method TurnOn() returns (ok: bool)
      ensures !ok
    {
      ok := SendCommand(CmdText(On));
    }

    method TurnOff() returns (ok: bool)
      ensures !ok
    {
      ok := SendCommand(CmdText(Off));
    }

    method Toggle() returns (ok: bool)
      ensures !ok
    {
      ok := SendCommand(CmdText(Command.Toggle));
    }
  }
}
