/**
 * The command-line switcher: the first argument, lower-cased, picks one command
 * (`on`/`left`, `off`/`right`, `toggle`), which is sent in a single Bleak session
 * whose errors are reported rather than raised.
 */
module SwitcherCli {
  import opened Wrappers
  import opened Hex
  import opened Gatt
  import Config
  import BleConstants

  const DEVICE_ADDRESS: string := "5569D6C3-205E-AADF-96EC-DB634970F8C3"
  const CHAR_CONTROL: string := "000015ba-0000-1000-8000-00805f9b34fb"

  const CMD_RIGHT: string := "00"
  const CMD_LEFT: string := "01"
  const CMD_TOGGLE: string := "04"

  /** The script's own constants are those of the shared configuration. */
  lemma AgreesWithConfig()
    ensures DEVICE_ADDRESS == Config.DEVICE_ADDRESS && CHAR_CONTROL == Config.CHAR_CONTROL
    ensures CMD_RIGHT == Config.CMD_RIGHT && CMD_LEFT == Config.CMD_LEFT && CMD_TOGGLE == Config.CMD_TOGGLE
  {
  }

  /** `str.lower` on one character, for the ASCII letters that spell the commands. */
  function LowerChar(c: char): (d: char)
    ensures !('A' <= d <= 'Z')
    ensures !('A' <= c <= 'Z') ==> d == c
    ensures 'A' <= c <= 'Z' ==> d as int == c as int + 32
  {
    if 'A' <= c <= 'Z' then (c as int - 'A' as int + 'a' as int) as char else c
  }

  function Lower(s: string): (r: string)
    ensures |r| == |s| && forall k :: 0 <= k < |s| ==> r[k] == LowerChar(s[k])
  {
    seq(|s|, k requires 0 <= k < |s| => LowerChar(s[k]))
  }

  /** What `main` decides from `sys.argv`. */
  datatype Action =
    | ShowUsage
    | Send(cmdHex: string, description: string)
    | ShowChoices

  /**
   * `main`'s branch: the usage text without an argument, one of the three commands
   * for a keyword, the list of choices for anything else.
   */
  function Dispatch(argv: seq<string>): (a: Action)
    ensures a == ShowUsage <==> |argv| < 2
    ensures a.Send? <==> |argv| >= 2 && Lower(argv[1]) in KEYWORDS
    ensures a.Send? ==> a.cmdHex == CMD_LEFT || a.cmdHex == CMD_RIGHT || a.cmdHex == CMD_TOGGLE
  {
    if |argv| < 2 then ShowUsage
    else
      var cmd := Lower(argv[1]);
      if cmd == "on" || cmd == "left" then Send(CMD_LEFT, "ON")
      else if cmd == "off" || cmd == "right" then Send(CMD_RIGHT, "OFF")
      else if cmd == "toggle" then Send(CMD_TOGGLE, "토글")
      else ShowChoices
  }

  /** The words the script accepts, after lower-casing, and the command each one names. */
  const KEYWORDS: map<string, BleConstants.Command> := map[
    "on" := BleConstants.On, "left" := BleConstants.On,
    "off" := BleConstants.Off, "right" := BleConstants.Off,
    "toggle" := BleConstants.Toggle]

  /**
   * Dispatch is exactly the keyword table: with no argument it shows the usage; an
   * argument whose lower-case form is a keyword sends one command whose
   * `bytes.fromhex` is that keyword's protocol byte; any other argument sends nothing.
   */
  lemma {:induction false} DispatchFollowsKeywords(argv: seq<string>)
    ensures |argv| < 2 ==> Dispatch(argv) == ShowUsage
    ensures |argv| >= 2 && Lower(argv[1]) !in KEYWORDS ==> Dispatch(argv) == ShowChoices
    ensures |argv| >= 2 && Lower(argv[1]) in KEYWORDS ==>
              Dispatch(argv).Send?
              && FromHex(Dispatch(argv).cmdHex) == Some([BleConstants.ProtocolByte(KEYWORDS[Lower(argv[1])])])
  {
    Config.CommandsDecode();
  }

  lemma {:induction false} LowerIdempotent(s: string)
    ensures Lower(Lower(s)) == Lower(s)
  {
    var l := Lower(s);
    assert forall k :: 0 <= k < |s| ==> Lower(l)[k] == LowerChar(l[k]) == l[k];
  }

  /**
   * Matching ignores case: two arguments that agree up to letter case dispatch the
   * same way, and lower-casing the argument first changes nothing.
   */
  lemma {:induction false} DispatchIgnoresCase(program: string, arg: string, other: string)
    requires Lower(arg) == Lower(other)
    ensures Dispatch([program, arg]) == Dispatch([program, other])
    ensures Dispatch([program, arg]) == Dispatch([program, Lower(arg)])
  {
    LowerIdempotent(arg);
  }

  /** Upper- and mixed-case spellings select the same command as the lower-case ones. */
  lemma MixedCaseSpellings()
    ensures Dispatch(["switcher.py", "ON"]) == Send(CMD_LEFT, "ON")
    ensures Dispatch(["switcher.py", "Right"]) == Send(CMD_RIGHT, "OFF")
    ensures Dispatch(["switcher.py", "ToGgLe"]) == Send(CMD_TOGGLE, "토글")
  {
    assert Lower("ON") == "on";
    assert Lower("Right") == "right";
    assert Lower("ToGgLe") == "toggle";
  }

  /**
   * `send_command`: one Bleak session that connects, writes the command without
   * response, waits and disconnects; every exception is printed, never raised. The
   * result is the write issued, if the session got that far, and whether it all
   * completed.
   */
  datatype SendReport = SendReport(wire: Option<GattWrite>, completed: bool)

  function SendCommand(cmdHex: string, connect: Outcome, write: Outcome): (r: SendReport)
    ensures r.completed <==> connect.Done? && FromHex(cmdHex).Some? && write.Done?
    ensures r.completed ==> r.wire.Some?
    ensures r.wire.Some? <==> connect.Done? && FromHex(cmdHex).Some?
    ensures r.wire.Some? ==> r.wire.value == GattWrite(CHAR_CONTROL, FromHex(cmdHex).value, false)
  {
    if connect.Failed? then SendReport(None, false)
    else match FromHex(cmdHex)
      case None => SendReport(None, false)
      case Some(data) => SendReport(Some(GattWrite(CHAR_CONTROL, data, false)), write.Done?)
  }

  /** `main`: the writes one run of the script puts on the air. */
  function Main(argv: seq<string>, connect: Outcome, write: Outcome): (writes: seq<GattWrite>)
    ensures |writes| <= 1
    ensures forall k :: 0 <= k < |writes| ==> writes[k].characteristic == CHAR_CONTROL && !writes[k].response
  {
    match Dispatch(argv)
    case Send(cmdHex, _) =>
      var report := SendCommand(cmdHex, connect, write);
      if report.wire.Some? then [report.wire.value] else []
    case _ => []
  }

  /**
   * One run sends at most one write: exactly one when the argument is a keyword and
   * the connection succeeds, carrying that keyword's protocol byte, and none for a
   * missing or unknown argument.
   */
  lemma {:induction false} MainWritesAtMostOnce(argv: seq<string>, connect: Outcome, write: Outcome)
    ensures |Main(argv, connect, write)| <= 1
    ensures |Main(argv, connect, write)| == 1 <==> |argv| >= 2 && Lower(argv[1]) in KEYWORDS && connect.Done?
    ensures |Main(argv, connect, write)| == 1 ==>
              Main(argv, connect, write)[0] ==
                GattWrite(Config.CHAR_CONTROL, [BleConstants.ProtocolByte(KEYWORDS[Lower(argv[1])])], false)
  {
    DispatchFollowsKeywords(argv);
  }
}
