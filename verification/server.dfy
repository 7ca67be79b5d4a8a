/**
 * The HTTP control server: one module-global `_client` (a Bleak client for the
 * Switcher's address) that is reused while connected and replaced otherwise, a
 * bearer-token check in front of every route, and the six routes.
 *
 * Bleak's `connect`, `write_gatt_char` and `disconnect` are inputs (`Outcome`s);
 * each request runs as one atomic step, as the server's lock serialises them.
 */
module Server {
  import opened Wrappers
  import opened Hex
  import Config
  import BleConstants
  import opened Gatt

  /** The `n`-th Bleak client the server has constructed, and whether its link is up. */
  datatype Client = Client(id: nat, connected: bool)

  /** The module globals: `_client`, and how many clients have been constructed so far. */
  datatype ServerState = ServerState(client: Option<Client>, created: nat)

  /** A route's answer: a JSON body, or an HTTP error with its detail text. */
  datatype Reply = Json(status: string, bleConnected: Option<bool>) | HttpError(code: nat, detail: string)

  /** `ensure_connected`: the new globals and the client returned, or the connect error. */
  datatype Ensured = Ensured(after: ServerState, result: Result<Client, string>)

  /** A request's new globals, its reply, and the write it put on the air, if any. */
  datatype Handled = Handled(after: ServerState, reply: Reply, wire: Option<GattWrite>)

  const UNAUTHORIZED: string := "Unauthorized"
  /** FastAPI's body for an exception no handler catches. */
  const INTERNAL_ERROR: string := "Internal Server Error"
  /** The text of the ValueError `bytes.fromhex` raises (its position suffix left out). */
  const FROMHEX_ERROR: string := "non-hexadecimal number found in fromhex() arg"

  /** `API_KEY`: the environment variable if set and non-empty, else a fresh random token. */
  function ApiKey(env: Option<string>, randomToken: string): (k: string)
    requires randomToken != ""
    ensures k != ""
    ensures env.Some? && env.value != "" ==> k == env.value
    ensures env.None? || env.value == "" ==> k == randomToken
  {
    if env.Some? && env.value != "" then env.value else randomToken
  }

  /**
   * `verify_api_key`: the `Authorization` header ("" when absent) must start with
   * "Bearer " and the rest must be the key; this holds exactly when the header is
   * "Bearer " followed by the key.
   */
  function VerifyApiKey(header: string, apiKey: string): (authorised: bool)
    ensures authorised <==> header == "Bearer " + apiKey
  {
    var ok := |header| >= 7 && header[..7] == "Bearer " && header[7..] == apiKey;
    assert header == "Bearer " + apiKey ==> header[..7] == "Bearer " && header[7..] == apiKey;
    assert ok ==> header == header[..7] + header[7..];
    ok
  }

  /** Whether `_client` is set and connected: what `/health` reports. */
  predicate Linked(s: ServerState) {
    s.client.Some? && s.client.value.connected
  }

  /** Every client held was constructed earlier: its number is below the count. */
  predicate Numbered(s: ServerState) {
    s.client.Some? ==> s.client.value.id < s.created
  }

  /**
   * `ensure_connected`: a connected client is returned as it is, with nothing built
   * and nothing called; otherwise a new client replaces `_client` before `connect`
   * is awaited, so a failed connect leaves a new, unconnected `_client` behind.
   */
  function EnsureConnectedStep(s: ServerState, connect: Outcome): (r: Ensured)
    ensures Linked(s) ==> r.after == s && r.result == Success(s.client.value)
    ensures !Linked(s) ==>
              && r.after.created == s.created + 1
              && r.after.client.Some? && r.after.client.value.id == s.created
              && (r.after.client.value.connected <==> connect.Done?)
              && (connect.Done? ==> r.result == Success(r.after.client.value))
              && (connect.Failed? ==> r.result == Failure(connect.message))
    ensures Numbered(s) ==> Numbered(r.after)
  {
    if Linked(s) then Ensured(s, Success(s.client.value))
    else
      var replaced := ServerState(Some(Client(s.created, false)), s.created + 1);
      if connect.Done? then
        var up := Client(s.created, true);
        Ensured(replaced.(client := Some(up)), Success(up))
      else Ensured(replaced, Failure(connect.message))
  }

  /**
   * `send_command(cmd_hex)`: on success it has written `bytes.fromhex(cmd_hex)` to the
   * control characteristic without response through a connected client and answers
   * "ok"; any failure, in connecting, in decoding the command or in writing, drops
   * `_client` and answers 503 with the error text.
   */
  function SendCommandStep(s: ServerState, cmdHex: string, connect: Outcome, write: Outcome): (r: Handled)
    ensures r.reply.Json? <==> (Linked(s) || connect.Done?) && FromHex(cmdHex).Some? && write.Done?
    ensures r.reply.Json? ==> r.reply == Json("ok", None) && Linked(r.after)
    ensures r.wire.Some? ==> FromHex(cmdHex).Some? && r.wire == Some(GattWrite(Config.CHAR_CONTROL, FromHex(cmdHex).value, false))
    ensures r.wire.Some? <==> (Linked(s) || connect.Done?) && FromHex(cmdHex).Some?
    ensures r.reply.HttpError? ==> r.reply.code == 503 && r.after.client.None?
    ensures !Linked(s) && connect.Failed? ==> r.reply.detail == connect.message
    ensures (Linked(s) || connect.Done?) && FromHex(cmdHex).None? ==> r.reply == HttpError(503, FROMHEX_ERROR)
    ensures (Linked(s) || connect.Done?) && FromHex(cmdHex).Some? && write.Failed? ==>
              r.reply == HttpError(503, write.message)
    ensures Linked(s) && r.reply.Json? ==> r.after == s
    ensures Numbered(s) ==> Numbered(r.after)
  {
    var e := EnsureConnectedStep(s, connect);
    if e.result.Failure? then Handled(e.after.(client := None), HttpError(503, e.result.error), None)
    else match FromHex(cmdHex)
      case None => Handled(e.after.(client := None), HttpError(503, FROMHEX_ERROR), None)
      case Some(data) =>
        var w := GattWrite(Config.CHAR_CONTROL, data, false);
        if write.Done? then Handled(e.after, Json("ok", None), Some(w))
        else Handled(e.after.(client := None), HttpError(503, write.message), Some(w))
  }

  /** `/health`: reports whether `_client` is set and connected. */
  function HealthReply(s: ServerState): (r: Reply)
    ensures r.Json? && r.status == "ok" && r.bleConnected == Some(Linked(s))
  {
    Json("ok", Some(s.client.Some? && s.client.value.connected))
  }

  /**
   * `/ble/connect`: answers `ble_connected: true` once a connected client is held,
   * and 503 with the error text if connecting fails, without clearing `_client`.
   */
  function BleConnectStep(s: ServerState, connect: Outcome): (r: Handled)
    ensures r.wire.None? && r.after == EnsureConnectedStep(s, connect).after
    ensures r.reply == Json("ok", Some(true)) <==> Linked(r.after)
    ensures r.reply.HttpError? ==> r.reply.code == 503 && r.after.client.Some?
    ensures !Linked(r.after) ==> connect.Failed? && r.reply == HttpError(503, connect.message)
  {
    var e := EnsureConnectedStep(s, connect);
    if e.result.Success? then Handled(e.after, Json("ok", Some(true)), None)
    else Handled(e.after, HttpError(503, e.result.error), None)
  }

  /**
   * `/ble/disconnect`: a connected client is disconnected first; unless that call
   * raises (then the error escapes as a 500 and `_client` stays), `_client` is
   * cleared and the answer is `ble_connected: false`.
   */
  function BleDisconnectStep(s: ServerState, disconnect: Outcome): (r: Handled)
    ensures r.wire.None?
    ensures !(Linked(s) && disconnect.Failed?) ==>
              r.after.client.None? && r.after.created == s.created && r.reply == Json("ok", Some(false))
    ensures Linked(s) && disconnect.Failed? ==> r.after == s && r.reply == HttpError(500, INTERNAL_ERROR)
  {
    if Linked(s) && disconnect.Failed? then Handled(s, HttpError(500, INTERNAL_ERROR), None)
    else Handled(s.(client := None), Json("ok", Some(false)), None)
  }

  /** The six routes. */
  datatype Route = GetHealth | PostSwitchOn | PostSwitchOff | PostSwitchToggle | PostBleConnect | PostBleDisconnect

  /** What Bleak does if the request reaches it: connect, write and disconnect outcomes. */
  datatype Transport = Transport(connect: Outcome, write: Outcome, disconnect: Outcome)

  /**
   * Route dispatch: `/health` changes and writes nothing, the connection routes write
   * nothing, and the only writes are the switch routes' commands to the control
   * characteristic without response.
   */
  function RouteStep(s: ServerState, route: Route, t: Transport): (r: Handled)
    ensures route.GetHealth? ==> r.after == s && r.reply == HealthReply(s) && r.wire.None?
    ensures route.PostBleConnect? || route.PostBleDisconnect? ==> r.wire.None?
    ensures r.wire.Some? ==> r.wire.value.characteristic == Config.CHAR_CONTROL && !r.wire.value.response
  {
    match route
    case GetHealth => Handled(s, HealthReply(s), None)
    case PostSwitchOn => SendCommandStep(s, Config.CMD_ON, t.connect, t.write)
    case PostSwitchOff => SendCommandStep(s, Config.CMD_OFF, t.connect, t.write)
    case PostSwitchToggle => SendCommandStep(s, Config.CMD_TOGGLE, t.connect, t.write)
    case PostBleConnect => BleConnectStep(s, t.connect)
    case PostBleDisconnect => BleDisconnectStep(s, t.disconnect)
  }

  /**
   * A request as the app sees it: the API-key dependency runs first, and a request
   * without the right bearer token gets 401 and changes and writes nothing.
   */
  function HandleStep(s: ServerState, apiKey: string, route: Route, header: string, t: Transport): (r: Handled)
    ensures header != "Bearer " + apiKey ==> r == Handled(s, HttpError(401, UNAUTHORIZED), None)
    ensures header == "Bearer " + apiKey ==> r == RouteStep(s, route, t)
  {
    if !VerifyApiKey(header, apiKey) then Handled(s, HttpError(401, UNAUTHORIZED), None)
    else RouteStep(s, route, t)
  }

  /** The command each switch route sends. */
  function SwitchCommand(route: Route): BleConstants.Command
    requires route.PostSwitchOn? || route.PostSwitchOff? || route.PostSwitchToggle?
  {
    match route
    case PostSwitchOn => BleConstants.On
    case PostSwitchOff => BleConstants.Off
    case PostSwitchToggle => BleConstants.Toggle
  }

  /**
   * `/switch/on`, `/switch/off` and `/switch/toggle` write the single protocol byte
   * 0x01, 0x00 and 0x04 to the control characteristic when they succeed.
   */
  lemma {:induction false} SwitchRoutesWriteProtocolByte(s: ServerState, route: Route, t: Transport)
    requires route.PostSwitchOn? || route.PostSwitchOff? || route.PostSwitchToggle?
    ensures var r := RouteStep(s, route, t);
      r.reply.Json? ==>
        r.wire == Some(GattWrite(BleConstants.CHAR_CONTROL_UUID, [BleConstants.ProtocolByte(SwitchCommand(route))], false))
  {
    Config.CommandsDecode();
    Config.AgreesWithApp();
  }

  /**
   * `/health` right after a switch request reports a live link exactly when the
   * request succeeded: success leaves a connected client, failure none.
   */
  lemma {:induction false} HealthAfterSwitch(s: ServerState, route: Route, t: Transport)
    requires route.PostSwitchOn? || route.PostSwitchOff? || route.PostSwitchToggle?
    ensures var r := RouteStep(s, route, t);
      HealthReply(r.after).bleConnected == Some(r.reply.Json?)
  {
    Config.CommandsDecode();
  }

  /**
   * `/ble/disconnect` is idempotent: once it has answered "ok", a second call
   * changes nothing, calls nothing and answers the same.
   */
  lemma {:induction false} BleDisconnectIdempotent(s: ServerState, first: Outcome, second: Outcome)
    requires BleDisconnectStep(s, first).reply.Json?
    ensures var once := BleDisconnectStep(s, first);
      var twice := BleDisconnectStep(once.after, second);
      twice.after == once.after && twice.reply == once.reply && !Linked(once.after)
  {
  }

  /**
   * After any failed switch request the next one builds a new client and connects
   * again, so a lost link is retried on the next request.
   */
  lemma {:induction false} FailureForcesReconnect(s: ServerState, cmd: string, c1: Outcome, w1: Outcome, c2: Outcome, w2: Outcome)
    requires SendCommandStep(s, cmd, c1, w1).reply.HttpError?
    ensures var first := SendCommandStep(s, cmd, c1, w1);
      var e := EnsureConnectedStep(first.after, c2);
      e.after.created == first.after.created + 1 && e.after.client.value.id == first.after.created
  {
  }

  /** The server process: the globals and the key fixed at start-up. */
  class BleServer {
    const apiKey: string
    var client: Option<Client>
    var created: nat

    function Snapshot(): ServerState
      reads this
    {
      ServerState(client, created)
    }

    /** Module load: the key is fixed, no client exists yet. */
    constructor (env: Option<string>, randomToken: string)
      requires randomToken != ""
      ensures apiKey == ApiKey(env, randomToken) && apiKey != ""
      ensures Snapshot() == ServerState(None, 0)
    {
      apiKey := ApiKey(env, randomToken);
      client := None;
      created := 0;
    }

    method EnsureConnected(connect: Outcome) returns (result: Result<Client, string>)
      modifies this
      ensures Ensured(Snapshot(), result) == EnsureConnectedStep(old(Snapshot()), connect)
    {
      if client.Some? && client.value.connected {
        return Success(client.value);
      }
      client := Some(Client(created, false));
      created := created + 1;
      if connect.Failed? {
        return Failure(connect.message);
      }
      client := Some(client.value.(connected := true));
      result := Success(client.value);
    }

    /** The lifespan hook: one connection attempt at start-up whose failure is only logged. */
    method Startup(connect: Outcome)
      modifies this
      ensures Snapshot() == EnsureConnectedStep(old(Snapshot()), connect).after
    {
      var _ := EnsureConnected(connect);
    }

    method SendCommand(cmdHex: string, connect: Outcome, write: Outcome) returns (reply: Reply, wire: Option<GattWrite>)
      modifies this
      ensures Handled(Snapshot(), reply, wire) == SendCommandStep(old(Snapshot()), cmdHex, connect, write)
    {
      var ensured := EnsureConnected(connect);
      if ensured.Failure? {
        client := None;
        return HttpError(503, ensured.error), None;
      }
      var data := FromHex(cmdHex);
      if data.None? {
        client := None;
        return HttpError(503, FROMHEX_ERROR), None;
      }
      wire := Some(GattWrite(Config.CHAR_CONTROL, data.value, false));
      if write.Failed? {
        client := None;
        return HttpError(503, write.message), wire;
      }
      reply := Json("ok", None);
    }

    function Health(): (r: Reply)
      reads this
      ensures r == HealthReply(Snapshot())
    {
      Json("ok", Some(client.Some? && client.value.connected))
    }

    method SwitchOn(connect: Outcome, write: Outcome) returns (reply: Reply, wire: Option<GattWrite>)
      modifies this
      ensures Handled(Snapshot(), reply, wire) == RouteStep(old(Snapshot()), PostSwitchOn, Transport(connect, write, Done))
    {
      reply, wire := SendCommand(Config.CMD_ON, connect, write);
    }

    method SwitchOff(connect: Outcome, write: Outcome) returns (reply: Reply, wire: Option<GattWrite>)
      modifies this
      ensures Handled(Snapshot(), reply, wire) == RouteStep(old(Snapshot()), PostSwitchOff, Transport(connect, write, Done))
    {
      reply, wire := SendCommand(Config.CMD_OFF, connect, write);
    }

    method SwitchToggle(connect: Outcome, write: Outcome) returns (reply: Reply, wire: Option<GattWrite>)
      modifies this
      ensures Handled(Snapshot(), reply, wire) == RouteStep(old(Snapshot()), PostSwitchToggle, Transport(connect, write, Done))
    {
      reply, wire := SendCommand(Config.CMD_TOGGLE, connect, write);
    }

    method BleConnect(connect: Outcome) returns (reply: Reply)
      modifies this
      ensures Handled(Snapshot(), reply, None) == BleConnectStep(old(Snapshot()), connect)
    {
      var ensured := EnsureConnected(connect);
      if ensured.Failure? {
        return HttpError(503, ensured.error);
      }
      reply := Json("ok", Some(true));
    }

    method BleDisconnect(disconnect: Outcome) returns (reply: Reply)
      modifies this
      ensures Handled(Snapshot(), reply, None) == BleDisconnectStep(old(Snapshot()), disconnect)
    {
      if client.Some? && client.value.connected {
        if disconnect.Failed? {
          return HttpError(500, INTERNAL_ERROR);
        }
        client := Some(client.value.(connected := false));
      }
      client := None;
      reply := Json("ok", Some(false));
    }

    /** One request through the API-key dependency and then its route. */
    method Handle(route: Route, header: string, t: Transport) returns (reply: Reply, wire: Option<GattWrite>)
      modifies this
      ensures Handled(Snapshot(), reply, wire) == HandleStep(old(Snapshot()), apiKey, route, header, t)
    {
      if !VerifyApiKey(header, apiKey) {
        return HttpError(401, UNAUTHORIZED), None;
      }
      wire := None;
      match route {
        case GetHealth => reply := Health();
        case PostSwitchOn => reply, wire := SwitchOn(t.connect, t.write);
        case PostSwitchOff => reply, wire := SwitchOff(t.connect, t.write);
        case PostSwitchToggle => reply, wire := SwitchToggle(t.connect, t.write);
        case PostBleConnect => reply := BleConnect(t.connect);
        case PostBleDisconnect => reply := BleDisconnect(t.disconnect);
      }
    }

    /**
     * The lifespan hook at shutdown: a connected client is disconnected; `_client`
     * itself is left set. Returns whether `disconnect` was called.
     */
    method Shutdown(disconnect: Outcome) returns (calledDisconnect: bool)
      modifies this
      ensures calledDisconnect <==> Linked(old(Snapshot()))
      ensures client.Some? <==> old(client).Some?
      ensures created == old(created)
      ensures calledDisconnect && disconnect.Done? ==> !Linked(Snapshot())
      ensures !(calledDisconnect && disconnect.Done?) ==> Snapshot() == old(Snapshot())
    {
      calledDisconnect := client.Some? && client.value.connected;
      if calledDisconnect && disconnect.Done? {
        client := Some(client.value.(connected := false));
      }
    }

    /** Bleak reports the link to the Switcher lost: the held client is no longer connected. */
    method LinkLost()
      modifies this
      ensures client == if old(client).Some? then Some(old(client).value.(connected := false)) else None
      ensures created == old(created)
    {
      if client.Some? {
        client := Some(client.value.(connected := false));
      }
    }
  }
}
