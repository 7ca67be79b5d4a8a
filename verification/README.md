# Switcher BLE control — a Dafny model

Switcher is a small remote for a Bluetooth Low Energy wall-switch pusher called
`SWITCHER_M`. The app, the server and the command-line switcher send one of three
one-byte commands to a single GATT characteristic: `0x00` (OFF, right), `0x01` (ON,
left) and `0x04` (toggle). The brute-force probe instead writes every value of a typed
range to every chosen writable characteristic; values from 0x100 up give a command
that `bytes.fromhex` rejects or a payload of more than one byte. This project models
the parts that make up its core:

- **The protocol constants.** These are the app's `ble.ts` and the Python `config.py`:
  - the device name;
  - the service and control-characteristic UUIDs, shown to be 16-bit UUIDs expanded
    with the Bluetooth Base UUID;
  - the `CMD` table, shown to decode to the protocol bytes under both JavaScript's
    `parseInt(…, 16)` and Python's `bytes.fromhex`.
- **The browser `useBLE` hook** (`WebBle`). The `BLEState` record, the selected device
  and the bound characteristic become fields of the class `WebBleHook`. The hook's
  operations are `connect`, `disconnect`, `sendCommand`, the three command wrappers and
  the `gattserverdisconnected` listener. Each class method is proved equal to a pure
  step function on a `Session` snapshot. The main invariant: along every history the UI
  admits, a characteristic is bound exactly when the hook reports being connected.
- **The native `useBLE` stub** (`NativeBle`). It never connects, and every command
  returns false.
- **The HTTP server** (`Server`). It holds one global Bleak client, `_client`: reused
  while connected, replaced otherwise, dropped after a failed command. A bearer-token
  check runs in front of the six routes. The class `BleServer` holds the globals.
- **The command-line switcher** (`SwitcherCli`). It dispatches on the first argument
  without regard to case, and one run makes at most one write.
- **The brute-force probe** (`BruteForce`):
  - the nested loop that collects writable characteristics;
  - menu-driven target selection with Python's indexing;
  - the coarse sweep over `start..end`, which swallows every write error and tracks
    the last characteristic and command;
  - the clamped fine window and the interactive fine loop.

Bleak, Web Bluetooth and the user's answers do not appear as code. Each awaited call is
an input to the model: an `Outcome` (`Done` or `Failed(message)`), a `ConnectAttempt`,
a set of failing writes, the index of a Ctrl+C, or the list of typed answers. Each
request, callback or loop pass runs as one atomic step.

The hex helpers in `Hex` are shared by all modules. They cover `parseInt(s, 16)` and
the `Uint8Array` conversion, `bytes.fromhex`, `f"{i:02x}"` and `int(s, 16)`.

## Model

| member | source | states |
|---|---|---|
| Wrappers.MessageOr | app/src/hooks/useBLE.web.ts:69 | `err.message \|\| fallback`: a non-empty message is kept and an empty one gives the fallback, so the result is non-empty whenever the fallback is |
| Hex.Format02x | brute_force.py:57 | `f"{i:02x}"` is at least two characters, and a negative value starts with `-` |
| Hex.Format02xRoundTrip | brute_force.py:57-62 | for every byte `i` the command is two lower-case hex digits, `bytes.fromhex` of it is exactly `[i]`, and `int(…, 16)` reads back `i` |
| Hex.Format02xInjective | brute_force.py:57 | distinct bytes give distinct command strings |
| Hex.FromHex | scripts/server.py:69 | `bytes.fromhex` succeeds exactly on even-length strings of hex digits, and yields half as many bytes as digits |
| Hex.FromHexValues | scripts/server.py:69 | byte `k` of `bytes.fromhex(s)` is 16 times the value of digit `2k` plus the value of digit `2k + 1` |
| Hex.ParseIntHex | app/src/hooks/useBLE.web.ts:96 | on a non-empty string of hex digits, `parseInt(s, 16)` is the digits' value |
| Hex.ToUint8 | app/src/hooks/useBLE.web.ts:96 | the `Uint8Array` element keeps values 0..255 and turns NaN into 0 |
| Hex.PyIntHex | brute_force.py:77-78 | on a non-empty string of hex digits, `int(s, 16)` is the digits' value |
| Hex.TwoDigitDecodersAgree | app/src/hooks/useBLE.web.ts:96 | on any two-hex-digit command, the browser's decoding and `bytes.fromhex` give the same single byte |
| BleConstants.CmdText | app/src/constants/ble.ts:7-11 | each `CMD` entry is two hex digits |
| BleConstants.CmdTextDecodes | app/src/constants/ble.ts:7-11 | each `CMD` entry decodes to its protocol byte (0x00, 0x01, 0x04), both in the browser and with `bytes.fromhex` |
| BleConstants.CommandsDistinct | app/src/constants/ble.ts:7-11 | the three commands differ as strings and as bytes |
| BleConstants.Uuid16RoundTrip | app/src/constants/ble.ts:3-4 | expanding a 16-bit value with the Base UUID and reading the alias back gives the value |
| BleConstants.BaseUuid16Injective | app/src/constants/ble.ts:3-4 | distinct 16-bit values expand to distinct UUIDs |
| BleConstants.ServiceUuidIs16Bit | app/src/constants/ble.ts:3 | `SERVICE_UUID` is the 16-bit UUID 0x150B on the Base UUID |
| BleConstants.ControlUuidIs16Bit | app/src/constants/ble.ts:4 | `CHAR_CONTROL_UUID` is the 16-bit UUID 0x15BA on the Base UUID |
| Config.AgreesWithApp | config.py:6-20 | the Python device name, control characteristic and OFF/ON/TOGGLE commands equal the app's |
| Config.CommandsDecode | config.py:14-20 | `bytes.fromhex` of each command and alias is its single protocol byte; RIGHT is OFF and LEFT is ON |
| Config.ReadCharIs16Bit | config.py:11 | the status characteristic is the 16-bit UUID 0x25CA on the Base UUID |
| Config.ReadCharDistinct | config.py:10-11 | the status and control characteristics differ |
| WebBle.DisplayName | app/src/hooks/useBLE.web.ts:56 | the shown name is never empty; it is the device's name when that is non-empty, and "Unknown" when the name is missing or empty |
| WebBle.BeginConnect | app/src/hooks/useBLE.web.ts:27 | the first update of `connect` sets connecting and clears the error. It keeps everything else: the connected flag, the name, the device, the characteristic, the link and the listeners |
| WebBle.ConnectStep | app/src/hooks/useBLE.web.ts:25-73 | `connect` always ends not connecting. It connects exactly when every transport step resolves, and then binds the picked device's control characteristic, shows its name and listens for its disconnection. On failure it shows no name, leaves the characteristic as it was and shows the first failing step's error: the fixed no-Web-Bluetooth text, the fixed GATT text for a device without a GATT server, or `err.message \|\| '연결 실패'` for a rejected picker, GATT connect, service or characteristic lookup. Once picked, the device is held even on failure. A failed service or characteristic lookup leaves that device's GATT link up, because the `catch` never disconnects it; an earlier failure leaves the link as it was |
| WebBle.SettleConnect | app/src/hooks/useBLE.web.ts:29-72 | from the transient connecting record on, the attempt settles: connected with the picked device's name, characteristic and listener exactly when every step resolves; otherwise no name, the characteristic left alone and the first failing step's error, each fixed text or `err.message \|\| '연결 실패'` on its own path. After a picked device fails, the link is up exactly when its GATT connect succeeded |
| WebBle.DisconnectStep | app/src/hooks/useBLE.web.ts:75-87 | `disconnect` resets the record, clears the device and the characteristic, and takes the link down |
| WebBle.GattDisconnectedStep | app/src/hooks/useBLE.web.ts:60-63 | the disconnect event on a device the hook listens to drops the connection, the name and the characteristic, and keeps `isConnecting` and the error |
| WebBle.Payload | app/src/hooks/useBLE.web.ts:96 | a command is always written as exactly one byte |
| WebBle.SendStep | app/src/hooks/useBLE.web.ts:89-103 | without a characteristic the command is refused with "연결되지 않았습니다" and nothing is written. Otherwise one byte is written without response to the bound characteristic, and the result is true exactly when the write resolves; a failure records `err.message \|\| '명령 전송 실패'`. The connection fields never change |
| WebBle.InitialConsistent | app/src/hooks/useBLE.web.ts:15-23 | the first render satisfies the binding invariant |
| WebBle.ConnectKeepsBinding | app/src/hooks/useBLE.web.ts:25-73 | a `connect` started while not connected keeps the invariant, whichever step fails |
| WebBle.ReentrantConnectBreaksBinding | app/src/hooks/useBLE.web.ts:25-73 | `connect` has no re-entry guard: on a connected session, a failing attempt reports "not connected" while the old characteristic stays bound |
| WebBle.DisconnectIdempotent | app/src/hooks/useBLE.web.ts:75-87 | `disconnect` keeps the invariant; a second call changes nothing and does not call `gatt.disconnect()` |
| WebBle.GattDisconnectedKeepsBinding | app/src/hooks/useBLE.web.ts:60-63 | the disconnect event keeps the invariant |
| WebBle.SendKeepsBinding | app/src/hooks/useBLE.web.ts:89-103 | `sendCommand` keeps the invariant, whether the write succeeds or not |
| WebBle.CommandWritesProtocolByte | app/src/hooks/useBLE.web.ts:105-107 | on a connected session each button writes exactly its protocol byte once, without response, to the Switcher's control characteristic, and stays connected |
| WebBle.DroppedLinkRefusesNextCommand | app/src/hooks/useBLE.web.ts:89-93 | after the bound device disconnects, the next command is refused as not connected and nothing is written |
| WebBle.RunKeepsBinding | app/src/components/SwitcherControl.tsx:65-69 | every history the UI admits (connect only while not connected), with any disconnect events, keeps the characteristic bound exactly when connected |
| WebBle.ReachableSessionsAreConsistent | app/src/hooks/useBLE.web.ts:15-23 | every admitted history from the first render satisfies the binding invariant |
| WebBle.WebBleHook.constructor | app/src/hooks/useBLE.web.ts:15-23 | the hook starts in the initial session |
| WebBle.WebBleHook.Connect | app/src/hooks/useBLE.web.ts:25-73 | the fields are updated in place exactly as `ConnectStep` says |
| WebBle.WebBleHook.Disconnect | app/src/hooks/useBLE.web.ts:75-87 | updates as `DisconnectStep` says, and calls `gatt.disconnect()` exactly when a device with a live link is held |
| WebBle.WebBleHook.HandleGattServerDisconnected | app/src/hooks/useBLE.web.ts:60-63 | updates as `GattDisconnectedStep` says |
| WebBle.WebBleHook.SendCommand | app/src/hooks/useBLE.web.ts:89-103 | new state, result and write are those of `SendStep` |
| WebBle.WebBleHook.TurnOn | app/src/hooks/useBLE.web.ts:105 | `sendCommand(CMD.ON)` |
| WebBle.WebBleHook.TurnOff | app/src/hooks/useBLE.web.ts:106 | `sendCommand(CMD.OFF)` |
| WebBle.WebBleHook.Toggle | app/src/hooks/useBLE.web.ts:107 | `sendCommand(CMD.TOGGLE)` |
| NativeBle.StubInitial | app/src/hooks/useBLE.ts:16-21 | the stub starts disconnected, idle and nameless, showing the "not implemented" error |
| NativeBle.StubConnect | app/src/hooks/useBLE.ts:23-26 | `connect` only replaces the error with "네이티브 BLE 미구현" |
| NativeBle.StubDisconnect | app/src/hooks/useBLE.ts:28-30 | `disconnect` only clears `isConnected` |
| NativeBle.StubRunKeepsInvariant | app/src/hooks/useBLE.ts:15-38 | every history keeps the stub disconnected, idle, nameless and showing an error |
| NativeBle.StubNeverConnects | app/src/hooks/useBLE.ts:15-38 | from the first render the native hook is never connected |
| NativeBle.NativeBleHook.constructor | app/src/hooks/useBLE.ts:16-21 | starts in `StubInitial` |
| NativeBle.NativeBleHook.Connect | app/src/hooks/useBLE.ts:23-26 | updates as `StubConnect` says |
| NativeBle.NativeBleHook.Disconnect | app/src/hooks/useBLE.ts:28-30 | updates as `StubDisconnect` says |
| NativeBle.NativeBleHook.SendCommand | app/src/hooks/useBLE.ts:32-34 | always returns false |
| NativeBle.NativeBleHook.TurnOn | app/src/hooks/useBLE.ts:36 | always returns false |
| NativeBle.NativeBleHook.TurnOff | app/src/hooks/useBLE.ts:37 | always returns false |
| NativeBle.NativeBleHook.Toggle | app/src/hooks/useBLE.ts:38 | always returns false |
| Server.ApiKey | scripts/server.py:41 | the key is the environment variable when it is set and non-empty, else the random token; it is never empty |
| Server.VerifyApiKey | scripts/server.py:47-50 | a request is authorised exactly when its header is "Bearer " followed by the key |
| Server.EnsureConnectedStep | scripts/server.py:53-61 | a connected client is reused untouched. Otherwise a new client replaces `_client` before connecting, so a failed connect leaves an unconnected new client. Client numbering stays consistent |
| Server.SendCommandStep | scripts/server.py:64-75 | it answers "ok" exactly when it has a connected client, the command decodes and the write resolves, and then the decoded bytes went to the control characteristic without response, and a linked client was reused with nothing else changed. Every failure answers 503 and drops `_client`: with the connect error, the fromhex error or the write error as detail |
| Server.HealthReply | scripts/server.py:104-107 | `/health` reports whether a connected client is held |
| Server.RouteStep | scripts/server.py:104-142 | `/health` changes and writes nothing, the connection routes write nothing, and every write is a switch command to the control characteristic without response |
| Server.BleConnectStep | scripts/server.py:125-132 | `/ble/connect` answers `ble_connected: true` exactly when a connected client is held afterwards; otherwise the connect failed and it answers 503 with that error's text, keeping the new client |
| Server.BleDisconnectStep | scripts/server.py:135-142 | `/ble/disconnect` clears `_client` and answers `ble_connected: false`; only if disconnecting a live client raises, it answers 500 and keeps the state |
| Server.HandleStep | scripts/server.py:92-94 | a request without the right bearer token gets 401 and changes and writes nothing; otherwise its route runs |
| Server.SwitchRoutesWriteProtocolByte | scripts/server.py:110-122 | a successful `/switch/on`, `/switch/off` or `/switch/toggle` wrote exactly 0x01, 0x00 or 0x04 to the app's control characteristic |
| Server.HealthAfterSwitch | scripts/server.py:104-122 | right after a switch request, `/health` reports a live link exactly when the request succeeded |
| Server.BleDisconnectIdempotent | scripts/server.py:135-142 | after a successful `/ble/disconnect`, a second one changes nothing and answers the same |
| Server.FailureForcesReconnect | scripts/server.py:72-75 | after a failed switch request, the next one builds a new client and connects again |
| Server.BleServer.constructor | scripts/server.py:41-44 | the key is fixed as `ApiKey` says; no client exists yet |
| Server.BleServer.EnsureConnected | scripts/server.py:53-61 | updates the globals and returns as `EnsureConnectedStep` says |
| Server.BleServer.Startup | scripts/server.py:78-86 | one connection attempt at start-up; its failure is only logged |
| Server.BleServer.SendCommand | scripts/server.py:64-75 | globals, reply and write are those of `SendCommandStep` |
| Server.BleServer.Health | scripts/server.py:104-107 | the reply is `HealthReply` of the current globals |
| Server.BleServer.SwitchOn | scripts/server.py:110-112 | `send_command(CMD_ON)` |
| Server.BleServer.SwitchOff | scripts/server.py:115-117 | `send_command(CMD_OFF)` |
| Server.BleServer.SwitchToggle | scripts/server.py:120-122 | `send_command(CMD_TOGGLE)` |
| Server.BleServer.BleConnect | scripts/server.py:125-132 | as `BleConnectStep` says |
| Server.BleServer.BleDisconnect | scripts/server.py:135-142 | as `BleDisconnectStep` says |
| Server.BleServer.Handle | scripts/server.py:92-94 | the key check, then the route, as `HandleStep` says |
| Server.BleServer.Shutdown | scripts/server.py:87-89 | at shutdown a connected client is disconnected, and only a connected one; `_client` stays set |
| Server.BleServer.LinkLost | scripts/server.py:55 | the held client's `is_connected` turns false; nothing else changes |
| SwitcherCli.AgreesWithConfig | scripts/switcher.py:10-15 | the script's address, characteristic and commands equal the shared configuration's |
| SwitcherCli.LowerChar | scripts/switcher.py:33 | an ASCII capital becomes its own lower-case letter (code point plus 32); every other character is unchanged |
| SwitcherCli.Lower | scripts/switcher.py:33 | `str.lower` keeps the length and lower-cases each character as `LowerChar` does |
| SwitcherCli.LowerIdempotent | scripts/switcher.py:33 | lower-casing twice is lower-casing once |
| SwitcherCli.DispatchFollowsKeywords | scripts/switcher.py:28-42 | with no argument the usage is shown. A lower-cased keyword (on/left, off/right, toggle) sends one command whose `bytes.fromhex` is that keyword's protocol byte. Any other argument sends nothing |
| SwitcherCli.Dispatch | scripts/switcher.py:28-42 | the usage shows exactly when there is no argument; a command is sent exactly when the lower-cased argument is a keyword, and it is one of "01", "00", "04" |
| SwitcherCli.DispatchIgnoresCase | scripts/switcher.py:33-40 | arguments that agree up to letter case dispatch the same way |
| SwitcherCli.MixedCaseSpellings | scripts/switcher.py:33-40 | "ON", "Right" and "ToGgLe" select ON, OFF and toggle |
| SwitcherCli.SendCommand | scripts/switcher.py:17-26 | a write is issued exactly when the connection opens and the command decodes, and it goes without response to the control characteristic. The run completes exactly when the connection opens, the command decodes and the write resolves |
| SwitcherCli.MainWritesAtMostOnce | scripts/switcher.py:28-42 | a run makes at most one write. It makes exactly one when the argument is a keyword and the connection opens, and that write carries the keyword's protocol byte |
| SwitcherCli.Main | scripts/switcher.py:28-45 | a run writes at most once, and only to the control characteristic without response |
| BruteForce.FindWriteCharacteristics | brute_force.py:10-17 | the nested loop returns the writable-characteristic list `WritableAll` of the services |
| BruteForce.WritableInMembers | brute_force.py:14-16 | a pair is reported for a service exactly when one of its characteristics has "write" or "write-without-response" and carries that UUID |
| BruteForce.WritableInSound | brute_force.py:14-16 | every pair reported for a service comes from one of its writable characteristics |
| BruteForce.WritableInComplete | brute_force.py:14-16 | every writable characteristic of a service is reported, paired with the service's UUID |
| BruteForce.WritableAllMembers | brute_force.py:13-16 | a pair is reported exactly when some service reports it |
| BruteForce.WritableInAppend | brute_force.py:14-16 | within a service the characteristic order is kept |
| BruteForce.WritableAllAppend | brute_force.py:13-16 | services keep their order: the list for `a + b` is the list for `a` then for `b` |
| BruteForce.PyInt | brute_force.py:38 | `int(s)` of a non-empty digit string is its decimal value, and a `-` or `+` followed by digits is the negated or plain value. Anything else is rejected: an accepted string is digits, or one sign followed by digits |
| BruteForce.Decimal | brute_force.py:30 | the menu number printed is a digit string whose value is the number |
| BruteForce.SelectTargets | brute_force.py:35-39 | "0" targets everything. An unparsable answer raises ValueError. A number `n` picks element `n - 1` when that is an index, counts from the end when `n - 1` is negative but at least minus the length, and otherwise raises IndexError |
| BruteForce.MenuNumberSelects | brute_force.py:29-39 | answering the printed number `i + 1` targets exactly the `i`-th writable characteristic |
| BruteForce.ZeroZeroPicksLast | brute_force.py:35-39 | "00" is not "0": it reads as 0 and, with Python's negative indexing, targets the last characteristic |
| BruteForce.RangeBound | brute_force.py:43-44 | a non-empty decimal answer gives its decimal value and `-digits` its negation; an empty answer gives the value of a decimal default; an answer that is neither digits nor a sign followed by digits raises ValueError, including any that starts with a character other than a sign |
| BruteForce.DefaultRange | brute_force.py:43-44 | with both prompts empty the range is 0 to 255 |
| BruteForce.CoarseSweep | brute_force.py:49-66 | the attempts are the whole sweep, or its first `k` attempts when Ctrl+C comes after `k`, and never depend on which writes fail. Each delivery flag records whether that write went out without raising. `last_char`/`last_cmd` name the latest attempt or stay empty |
| BruteForce.SweepNext | brute_force.py:53-66 | one pass of the outer loop extends the attempts to the whole sweep of the targets so far, or, when interrupted, stops on a prefix of the whole sweep |
| BruteForce.SweepTarget | brute_force.py:56-66 | one target's pass over `range(start, end + 1)` appends that target's attempts, or a prefix of them when interrupted |
| BruteForce.SweepOne | brute_force.py:56-66 | one pass of the inner loop appends the attempt for `i`, with its delivery flag, and makes it the latest pair |
| BruteForce.TracksAppend | brute_force.py:58-59 | each attempt becomes the latest pair and adds its delivery flag |
| BruteForce.SweepRangeInOrder | brute_force.py:56-57 | one target is swept over `start..end` inclusive in ascending order: attempt `k` has value `start + k` |
| BruteForce.AttemptInByteRange | brute_force.py:57-62 | for a byte `i` the command is two lower-case hex digits and the write carries exactly `[i]` |
| BruteForce.AttemptOutsideByteRange | brute_force.py:42-62 | the range is not checked: a negative value, or one from 0x100 to 0xfff, yields a command `bytes.fromhex` rejects, so that attempt writes nothing, silently |
| BruteForce.FullSweepEndsAtEnd | brute_force.py:53-59 | an uninterrupted sweep over a non-empty range ends on the last target with the command for `end` |
| BruteForce.SweepAllFormed | brute_force.py:53-57 | every attempt's value lies in `start..end` |
| BruteForce.FineWindow | brute_force.py:77-78 | the window lies in 0..255. For a byte `last` it contains `last` and has at most 11 values, exactly 11 when `last` is in 5..250 |
| BruteForce.FineWindowIsNeighbourhood | brute_force.py:77-78 | a value is in the window exactly when it is a byte within 5 of `last` |
| BruteForce.FineStart | brute_force.py:77-78 | an empty `last_cmd` (Ctrl+C before the first attempt) raises ValueError. The window exists exactly when `int(last_cmd, 16)` succeeds, and it lies in 0..255 |
| BruteForce.LastCmdReadsBack | brute_force.py:77 | `int(f"{i:02x}", 16) == i` for every integer, negative ones included |
| BruteForce.FineWindowAroundLastAttempt | brute_force.py:70-80 | after Ctrl+C following at least one attempt, the window is computed from the last attempt's value and contains it when it is a byte |
| BruteForce.FineProbe | brute_force.py:80-88 | the fine loop writes `[lo]`, `[lo+1]`, … to `last_char` in order. It stops after the whole window, right after the first "q", or when the answers run out. It records, in order, the commands answered "y" |
| BruteForce.FineStep | brute_force.py:80-88 | one pass of the fine loop writes `[i]` to `last_char`; the loop stops there exactly when the answers have run out or the answer is "q", and a "y" adds the command to the findings |

## Left out

- Concurrency is left out. The server's `asyncio.Lock` and React's state batching are
  modelled by running each request, callback and loop pass as one atomic step. Stale
  `useCallback` closures (a callback seeing an older `device` or `characteristic`) are
  not modelled.
- Timing and floats are left out: `CONNECTION_TIMEOUT`, Bleak's timeouts and every
  `asyncio.sleep`.
- Console and process I/O is left out: `print`, `logging`, `argparse`, `uvicorn`, the
  CORS middleware and `asyncio.run`. `input()` answers and `sys.argv` are parameters.
- Bleak and Web Bluetooth are parameters (`Outcome`, `ConnectAttempt`). Their error
  texts are the inputs' messages, and the way a GATT link drops is an event
  (`LinkLost`, `HandleGattServerDisconnected`).
- Whitespace is left out of the parsers. `bytes.fromhex` and `parseInt` whitespace
  skipping, `int()` underscores, non-ASCII digits and non-ASCII `str.lower` are not
  modelled. The brute-force answers are taken as already stripped and lower-cased.
- JavaScript number precision is left out. `parseInt` results beyond 2^53 are exact
  integers here.
- `brute_force()` opening its connection and `main()` reading the address are left
  out. They are I/O whose failure ends the script.
- BruteForce.CoarseSweep: an interrupt is modelled only as a `KeyboardInterrupt` that
  reaches the loop between two attempts, outside the `try` around the write, or
  before the first attempt. An interrupt raised while a write or its pause is in
  flight (brute_force.py:61-66) is caught by the bare `except:`, which catches every
  `BaseException`, and the sweep goes on. That swallowed interrupt is not modelled.
- BruteForce.FineProbe: a write that raises in the fine loop ends the script and is
  not modelled. Answers running out stand for `input()` reaching end of file.
- Hex.FromHex: its own contract gives when decoding succeeds and the length only; the
  value of each byte is stated by the lemma `Hex.FromHexValues`.
- Hex.PyIntHex: surrounding whitespace, a `0x` prefix and `_` separators, which
  Python's `int(s, 16)` accepts, are not modelled. The only text read this way is
  `last_cmd`, which is always `f"{i:02x}"`.
- Server.SendCommandStep: a `bytes.fromhex` error's detail is the fixed text
  "non-hexadecimal number found in fromhex() arg", without Python's position suffix.
- Server.BleDisconnectStep: when disconnecting a live client raises, the code does not
  reach `_client = None`. FastAPI then answers 500 and the client stays set. The model
  follows the code, not a description of the route as always clearing the client.
- Not part of this model, because they are outside the core: `scan.py`, the `web/`
  proxy, `App.tsx`, rendering in `SwitcherControl.tsx` and the type declarations. Of
  `SwitcherControl.tsx` only the fact that the connect button shows only while not
  connected is used, as the precondition of `WebBle.RunKeepsBinding`.
