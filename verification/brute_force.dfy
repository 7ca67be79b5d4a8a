/**
 * The brute-force probe: collect the characteristics that accept writes, pick the
 * targets from the menu, sweep each target over `start..end` sending `f"{i:02x}"`
 * decoded by `bytes.fromhex`, swallowing every write error, and after a Ctrl+C probe
 * the clamped window of five values either side of the last command sent.
 */
module BruteForce {
  import opened Wrappers
  import opened Hex
  import opened Gatt

  const WRITE: string := "write"
  const WRITE_WITHOUT_RESPONSE: string := "write-without-response"

  /** A discovered GATT characteristic and the property names Bleak reports for it. */
  datatype Characteristic = Characteristic(uuid: string, properties: seq<string>)

  datatype Service = Service(uuid: string, characteristics: seq<Characteristic>)

  /** One `(char.uuid, service.uuid)` pair of the list the probe works through. */
  datatype Target = Target(charUuid: string, serviceUuid: string)

  predicate Writable(c: Characteristic) {
    WRITE in c.properties || WRITE_WITHOUT_RESPONSE in c.properties
  }

  /** The writable characteristics of one service, in the service's order. */
  function WritableIn(serviceUuid: string, chars: seq<Characteristic>): seq<Target> {
    if chars == [] then []
    else
      var c := chars[|chars| - 1];
      WritableIn(serviceUuid, chars[..|chars| - 1]) + (if Writable(c) then [Target(c.uuid, serviceUuid)] else [])
  }

  /** The writable characteristics of all services, service by service. */
  function WritableAll(services: seq<Service>): seq<Target> {
    if services == [] then []
    else
      var s := services[|services| - 1];
      WritableAll(services[..|services| - 1]) + WritableIn(s.uuid, s.characteristics)
  }

  /** `find_write_characteristics`: the nested loop over services and their characteristics. */
  method FindWriteCharacteristics(services: seq<Service>) returns (writeChars: seq<Target>)
    ensures writeChars == WritableAll(services)
  {
    writeChars := [];
    for si := 0 to |services|
      invariant writeChars == WritableAll(services[..si])
    {
      var service := services[si];
      for ci := 0 to |service.characteristics|
        invariant writeChars == WritableAll(services[..si]) + WritableIn(service.uuid, service.characteristics[..ci])
      {
        var c := service.characteristics[ci];
        assert service.characteristics[..ci + 1][..ci] == service.characteristics[..ci];
        if WRITE in c.properties || WRITE_WITHOUT_RESPONSE in c.properties {
          writeChars := writeChars + [Target(c.uuid, service.uuid)];
        }
      }
      assert service.characteristics[..|service.characteristics|] == service.characteristics;
      assert services[..si + 1][..si] == services[..si];
    }
    assert services[..|services|] == services;
  }

  /** Every target reported for a service comes from a writable characteristic of it. */
  lemma {:induction false} WritableInSound(serviceUuid: string, chars: seq<Characteristic>, t: Target)
    requires t in WritableIn(serviceUuid, chars)
    ensures exists ci :: 0 <= ci < |chars| && Writable(chars[ci]) && t == Target(chars[ci].uuid, serviceUuid)
  {
    var init, last := chars[..|chars| - 1], chars[|chars| - 1];
    if t in WritableIn(serviceUuid, init) {
      WritableInSound(serviceUuid, init, t);
      var ci :| 0 <= ci < |init| && Writable(init[ci]) && t == Target(init[ci].uuid, serviceUuid);
      assert chars[ci] == init[ci];
    } else {
      assert Writable(last) && t == Target(last.uuid, serviceUuid);
    }
  }

  /** Every writable characteristic of a service is reported, with the service's uuid. */
  lemma {:induction false} WritableInComplete(serviceUuid: string, chars: seq<Characteristic>, ci: nat)
    requires ci < |chars| && Writable(chars[ci])
    ensures Target(chars[ci].uuid, serviceUuid) in WritableIn(serviceUuid, chars)
  {
    var init := chars[..|chars| - 1];
    if ci < |init| {
      WritableInComplete(serviceUuid, init, ci);
      assert init[ci] == chars[ci];
    }
  }

  /**
   * A target is reported for a service exactly when one of its characteristics is
   * writable and carries that target's uuid.
   */
  lemma WritableInMembers(serviceUuid: string, chars: seq<Characteristic>, t: Target)
    ensures t in WritableIn(serviceUuid, chars) <==>
              exists ci :: 0 <= ci < |chars| && Writable(chars[ci]) && t == Target(chars[ci].uuid, serviceUuid)
  {
    if t in WritableIn(serviceUuid, chars) {
      WritableInSound(serviceUuid, chars, t);
    }
    if exists ci :: 0 <= ci < |chars| && Writable(chars[ci]) && t == Target(chars[ci].uuid, serviceUuid) {
      var ci :| 0 <= ci < |chars| && Writable(chars[ci]) && t == Target(chars[ci].uuid, serviceUuid);
      WritableInComplete(serviceUuid, chars, ci);
    }
  }

  /** A target is reported exactly when some service reports it. */
  lemma {:induction false} WritableAllMembers(services: seq<Service>, t: Target)
    ensures t in WritableAll(services) <==>
              exists si :: 0 <= si < |services| && t in WritableIn(services[si].uuid, services[si].characteristics)
  {
    if services != [] {
      var init := services[..|services| - 1];
      WritableAllMembers(init, t);
      if t in WritableAll(init) {
        var si :| 0 <= si < |init| && t in WritableIn(init[si].uuid, init[si].characteristics);
        assert services[si] == init[si];
      }
      if exists si :: 0 <= si < |services| && t in WritableIn(services[si].uuid, services[si].characteristics) {
        var si :| 0 <= si < |services| && t in WritableIn(services[si].uuid, services[si].characteristics);
        if si < |init| {
          assert init[si] == services[si];
        }
      }
    }
  }

  /** Within a service the characteristics keep their order: the filter distributes over concatenation. */
  lemma {:induction false} WritableInAppend(serviceUuid: string, a: seq<Characteristic>, b: seq<Characteristic>)
    ensures WritableIn(serviceUuid, a + b) == WritableIn(serviceUuid, a) + WritableIn(serviceUuid, b)
    decreases |b|
  {
    if b == [] {
      assert a + b == a;
    } else {
      var init := b[..|b| - 1];
      assert (a + b)[..|a + b| - 1] == a + init;
      assert (a + b)[|a + b| - 1] == b[|b| - 1];
      WritableInAppend(serviceUuid, a, init);
    }
  }

  /** Services keep their order: the list for `a + b` is the list for `a` followed by the list for `b`. */
  lemma {:induction false} WritableAllAppend(a: seq<Service>, b: seq<Service>)
    ensures WritableAll(a + b) == WritableAll(a) + WritableAll(b)
    decreases |b|
  {
    if b == [] {
      assert a + b == a;
    } else {
      var init, last := b[..|b| - 1], b[|b| - 1];
      assert (a + b)[..|a + b| - 1] == a + init;
      assert (a + b)[|a + b| - 1] == last;
      WritableAllAppend(a, init);
      var tail := WritableIn(last.uuid, last.characteristics);
      calc {
        WritableAll(a + b);
        WritableAll(a + init) + tail;
        (WritableAll(a) + WritableAll(init)) + tail;
        { AppendAssociates(WritableAll(a), WritableAll(init), tail); }
        WritableAll(a) + (WritableAll(init) + tail);
        WritableAll(a) + WritableAll(b);
      }
    }
  }

  // ---------------------------------------------------------------------------
  // Target selection and the sweep range typed at the prompts

  /** The errors Python raises on a bad menu answer. */
  datatype PyError = ValueError | IndexError

  predicate IsDecimalDigit(c: char) {
    '0' <= c <= '9'
  }

  predicate AllDecimal(s: string) {
    forall k :: 0 <= k < |s| ==> IsDecimalDigit(s[k])
  }

  function DecimalValue(s: string): (v: nat)
    requires AllDecimal(s)
  {
    if s == [] then 0 else DecimalValue(s[..|s| - 1]) * 10 + (s[|s| - 1] as int - '0' as int)
  }

  /** Python's `int(s)` on an optionally signed string of ASCII digits; `None` is ValueError. */
  function PyInt(s: string): (r: Option<int>)
    ensures AllDecimal(s) && s != [] ==> r == Some(DecimalValue(s))
    ensures r.Some? ==> s != [] && (AllDecimal(s) || (|s| > 1 && (s[0] == '-' || s[0] == '+') && AllDecimal(s[1..])))
    ensures |s| > 1 && (s[0] == '-' || s[0] == '+') && AllDecimal(s[1..]) ==>
              r == Some(if s[0] == '-' then -(DecimalValue(s[1..]) as int) else DecimalValue(s[1..]))
  {
    if |s| > 0 && (s[0] == '-' || s[0] == '+') then
      var t := s[1..];
      if t != [] && AllDecimal(t) then Some(if s[0] == '-' then -(DecimalValue(t) as int) else DecimalValue(t)) else None
    else if s != [] && AllDecimal(s) then Some(DecimalValue(s))
    else None
  }

  /** Python's `str(n)` for a natural number: the decimal spelling the menu prints. */
  function Decimal(n: nat): (r: string)
    ensures r != [] && AllDecimal(r) && DecimalValue(r) == n
  {
    if n < 10 then [('0' as int + n) as char]
    else
      var r := Decimal(n / 10) + [('0' as int + n % 10) as char];
      assert r[..|r| - 1] == Decimal(n / 10);
      r
  }

  /**
   * The target list chosen at the prompt: exactly `"0"` means every writable
   * characteristic; any other answer is read by `int` and picks the single element at
   * `choice - 1` with Python's indexing, where a negative index counts from the end.
   */
  function SelectTargets(choice: string, writeChars: seq<Target>): (r: Result<seq<Target>, PyError>)
    ensures choice == "0" ==> r == Success(writeChars)
    ensures choice != "0" && PyInt(choice).None? ==> r == Failure(ValueError)
    ensures r.Success? && choice != "0" ==> |r.value| == 1 && r.value[0] in writeChars
    ensures r.Failure? && PyInt(choice).Some? ==>
              r.error == IndexError && (PyInt(choice).value < 1 - |writeChars| || PyInt(choice).value > |writeChars|)
    ensures choice != "0" && PyInt(choice).Some? ==>
              var i := PyInt(choice).value - 1;
              if 0 <= i < |writeChars| then r == Success([writeChars[i]])
              else if -|writeChars| <= i < 0 then r == Success([writeChars[|writeChars| + i]])
              else r == Failure(IndexError)
  {
    if choice == "0" then Success(writeChars)
    else match PyInt(choice)
      case None => Failure(ValueError)
      case Some(n) =>
        var idx := n - 1;
        if 0 <= idx < |writeChars| then Success([writeChars[idx]])
        else if -|writeChars| <= idx < 0 then Success([writeChars[|writeChars| + idx]])
        else Failure(IndexError)
  }

  /** The menu prints the `i`-th writable characteristic as number `i + 1`, and answering that number picks it. */
  lemma {:induction false} MenuNumberSelects(writeChars: seq<Target>, i: nat)
    requires i < |writeChars|
    ensures SelectTargets(Decimal(i + 1), writeChars) == Success([writeChars[i]])
  {
  }

  /**
   * Python's negative indexing lets answers other than the menu numbers through:
   * `"00"` reads as 0, so it picks the last characteristic instead of meaning "all".
   */
  lemma ZeroZeroPicksLast(writeChars: seq<Target>)
    requires writeChars != []
    ensures SelectTargets("00", writeChars) == Success([writeChars[|writeChars| - 1]])
  {
    assert DecimalValue("00") == 0 by {
      assert "00"[..1] == "0";
      assert "0"[..0] == [];
    }
  }

  /** `int(input(...).strip() or default)`: an empty answer falls back to the default text. */
  function RangeBound(answer: string, default: string): (r: Option<int>)
    ensures answer == "" ==> r == PyInt(default)
    ensures answer != "" ==> r == PyInt(answer)
    ensures answer != "" && AllDecimal(answer) ==> r == Some(DecimalValue(answer))
    ensures answer == "" && default != "" && AllDecimal(default) ==> r == Some(DecimalValue(default))
    ensures |answer| > 1 && answer[0] == '-' && AllDecimal(answer[1..]) ==> r == Some(-(DecimalValue(answer[1..]) as int))
    ensures answer != "" && !AllDecimal(answer) && !AllDecimal(answer[1..]) ==> r.None?
    ensures answer != "" && !AllDecimal(answer) && answer[0] != '-' && answer[0] != '+' ==> r.None?
  {
    PyInt(if answer == "" then default else answer)
  }

  /** With both prompts left empty the sweep covers 0 through 255. */
  lemma DefaultRange()
    ensures RangeBound("", "0") == Some(0)
    ensures RangeBound("", "255") == Some(255)
  {
    assert DecimalValue("0") == 0 by { assert "0"[..0] == []; }
    assert DecimalValue("255") == 255 by {
      assert "255"[..2] == "25";
      assert "25"[..1] == "2";
      assert "2"[..0] == [];
    }
  }

  // ---------------------------------------------------------------------------
  // The coarse sweep

  /**
   * One pass of the inner loop: the characteristic and command recorded in
   * `last_char`/`last_cmd`, the value `i`, and the write issued, if `bytes.fromhex`
   * accepted the command (a ValueError there is swallowed like a write error).
   */
  datatype Attempt = Attempt(charUuid: string, value: int) {
    /** `f"{i:02x}"`, the command text kept in `last_cmd`. */
    function Cmd(): string {
      Format02x(value)
    }

    /** The write issued, or `None` when `bytes.fromhex` rejected the command. */
    function Write(): Option<GattWrite> {
      match FromHex(Cmd())
      case Some(data) => Some(GattWrite(charUuid, data, false))
      case None => None
    }
  }

  /** The attempts on one characteristic for `i` from `start` up to, not including, `stop`. */
  function SweepRange(charUuid: string, start: int, stop: int): (r: seq<Attempt>)
    ensures |r| == if stop <= start then 0 else stop - start
    decreases stop - start
  {
    if stop <= start then [] else SweepRange(charUuid, start, stop - 1) + [Attempt(charUuid, stop - 1)]
  }

  /** The attempts of a whole uninterrupted sweep: every target over `range(start, end + 1)`. */
  function SweepAll(targets: seq<Target>, start: int, end: int): seq<Attempt> {
    if targets == [] then []
    else SweepAll(targets[..|targets| - 1], start, end) + SweepRange(targets[|targets| - 1].charUuid, start, end + 1)
  }

  /** The attempts made when Ctrl+C arrives once `k` attempts have started, or the whole sweep. */
  function Performed(all: seq<Attempt>, interrupt: Option<nat>): seq<Attempt> {
    if interrupt.Some? && interrupt.value < |all| then all[..interrupt.value] else all
  }

  lemma {:induction false} SweepRangePrefix(charUuid: string, start: int, i: int, stop: int)
    requires i <= stop
    ensures SweepRange(charUuid, start, i) <= SweepRange(charUuid, start, stop)
    decreases stop - i
  {
    if i < stop && start < stop {
      SweepRangePrefix(charUuid, start, i, stop - 1);
    }
  }

  lemma {:induction false} SweepAllPrefix(targets: seq<Target>, n: nat, start: int, end: int)
    requires n <= |targets|
    ensures SweepAll(targets[..n], start, end) <= SweepAll(targets, start, end)
    decreases |targets| - n
  {
    if n < |targets| {
      SweepAllPrefix(targets[..|targets| - 1], n, start, end);
      assert targets[..|targets| - 1][..n] == targets[..n];
    } else {
      assert targets[..n] == targets;
    }
  }

  /** Every prefix the loops can be in when Ctrl+C arrives is a prefix of the whole sweep. */
  lemma {:induction false} PartialSweepIsPrefix(targets: seq<Target>, ti: nat, start: int, end: int, i: int)
    requires ti < |targets| && i <= end + 1
    ensures SweepAll(targets[..ti], start, end) + SweepRange(targets[ti].charUuid, start, i)
              <= SweepAll(targets, start, end)
  {
    var done := SweepAll(targets[..ti], start, end);
    var part := SweepRange(targets[ti].charUuid, start, i);
    var full := SweepRange(targets[ti].charUuid, start, end + 1);
    SweepRangePrefix(targets[ti].charUuid, start, i, end + 1);
    assert done + part == (done + full)[..|done + part|];
    assert targets[..ti + 1][..ti] == targets[..ti];
    SweepAllPrefix(targets, ti + 1, start, end);
  }

  /** Whether an attempt's write went out without raising: the command decoded and the write did not fail. */
  function Delivered(a: Attempt, failing: set<(string, int)>): bool {
    a.Write().Some? && (a.charUuid, a.value) !in failing
  }

  /** The delivery flag of each attempt, in order. */
  function Deliveries(attempts: seq<Attempt>, failing: set<(string, int)>): (d: seq<bool>)
    ensures |d| == |attempts|
  {
    seq(|attempts|, k requires 0 <= k < |attempts| => Delivered(attempts[k], failing))
  }

  /** `(last_char, last_cmd)`: the latest attempt's characteristic and command, or two empty strings. */
  function LastPair(attempts: seq<Attempt>): (string, string) {
    if attempts == [] then ("", "") else (attempts[|attempts| - 1].charUuid, attempts[|attempts| - 1].Cmd())
  }

  /** What the loop keeps beside the attempts: their delivery flags and the latest pair. */
  predicate Tracks(attempts: seq<Attempt>, delivered: seq<bool>, lastChar: string, lastCmd: string,
                   failing: set<(string, int)>) {
    delivered == Deliveries(attempts, failing) && (lastChar, lastCmd) == LastPair(attempts)
  }

  /** One more attempt keeps the bookkeeping: its delivery flag is appended and it becomes the latest. */
  lemma {:induction false} TracksAppend(attempts: seq<Attempt>, delivered: seq<bool>, failing: set<(string, int)>, a: Attempt)
    requires delivered == Deliveries(attempts, failing)
    ensures Tracks(attempts + [a], delivered + [Delivered(a, failing)], a.charUuid, a.Cmd(), failing)
  {
    var d := Deliveries(attempts + [a], failing);
    assert forall k :: 0 <= k < |attempts| ==> (attempts + [a])[k] == attempts[k];
    assert d == delivered + [Delivered(a, failing)];
  }

  lemma AppendAssociates<T>(x: seq<T>, y: seq<T>, z: seq<T>)
    ensures x + (y + z) == (x + y) + z
  {
  }

  /**
   * The coarse loop. `failing` holds the (characteristic, value) pairs whose write or
   * pause raised; `interrupt` is `Some(k)` when Ctrl+C reaches the loop after `k`
   * attempts have finished and before the next one starts, outside the `try` around
   * the write (`Some(0)`: before the first). The attempts made never depend on
   * `failing`: a failed write is swallowed and the loop goes on with the next value.
   * `last_char` and `last_cmd` name the most recent attempt, or stay empty.
   */
  method CoarseSweep(targets: seq<Target>, start: int, end: int, failing: set<(string, int)>, interrupt: Option<nat>)
    returns (attempts: seq<Attempt>, delivered: seq<bool>, lastChar: string, lastCmd: string, interrupted: bool)
    ensures attempts == Performed(SweepAll(targets, start, end), interrupt)
    ensures interrupted <==> interrupt.Some? && interrupt.value <= |SweepAll(targets, start, end)|
    ensures Tracks(attempts, delivered, lastChar, lastCmd, failing)
  {
    attempts, delivered, lastChar, lastCmd := [], [], "", "";
    var stopped := false;
    for ti := 0 to |targets|
      invariant attempts == SweepAll(targets[..ti], start, end)
      invariant interrupt.Some? ==> |attempts| <= interrupt.value
      invariant Tracks(attempts, delivered, lastChar, lastCmd, failing)
      invariant !stopped
    {
      attempts, delivered, lastChar, lastCmd, stopped :=
        SweepNext(targets, ti, start, end, failing, interrupt, attempts, delivered, lastChar, lastCmd);
      if stopped {
        break;
      }
    }
    if !stopped {
      assert targets[..|targets|] == targets;
    }
    interrupted := interrupt.Some? && interrupt.value == |attempts|;
  }

  /** One pass of the outer loop: the sweep of target `ti`, placed within the whole sweep. */
  method SweepNext(targets: seq<Target>, ti: nat, start: int, end: int, failing: set<(string, int)>, interrupt: Option<nat>,
                   attempts0: seq<Attempt>, delivered0: seq<bool>, lastChar0: string, lastCmd0: string)
    returns (attempts: seq<Attempt>, delivered: seq<bool>, lastChar: string, lastCmd: string, stopped: bool)
    requires ti < |targets| && attempts0 == SweepAll(targets[..ti], start, end)
    requires interrupt.Some? ==> |attempts0| <= interrupt.value
    requires Tracks(attempts0, delivered0, lastChar0, lastCmd0, failing)
    ensures !stopped ==> attempts == SweepAll(targets[..ti + 1], start, end)
    ensures stopped ==> interrupt.Some? && interrupt.value == |attempts| && attempts <= SweepAll(targets, start, end)
    ensures interrupt.Some? ==> |attempts| <= interrupt.value
    ensures Tracks(attempts, delivered, lastChar, lastCmd, failing)
  {
    var reached;
    attempts, delivered, lastChar, lastCmd, stopped, reached :=
      SweepTarget(targets[ti].charUuid, start, end, failing, interrupt, attempts0, delivered0, lastChar0, lastCmd0);
    if stopped {
      PartialSweepIsPrefix(targets, ti, start, end, reached);
    } else {
      assert targets[..ti + 1][..ti] == targets[..ti];
    }
  }

  /**
   * The inner loop of the sweep, over `range(start, end + 1)` on one characteristic,
   * taking the loop state where the earlier targets left it. When Ctrl+C arrives it
   * stops with `stopped`, `reached` being the value it had got to.
   */
  method SweepTarget(charUuid: string, start: int, end: int, failing: set<(string, int)>, interrupt: Option<nat>,
                     attempts0: seq<Attempt>, delivered0: seq<bool>, lastChar0: string, lastCmd0: string)
    returns (attempts: seq<Attempt>, delivered: seq<bool>, lastChar: string, lastCmd: string, stopped: bool, reached: int)
    requires interrupt.Some? ==> |attempts0| <= interrupt.value
    requires Tracks(attempts0, delivered0, lastChar0, lastCmd0, failing)
    ensures !stopped ==> attempts == attempts0 + SweepRange(charUuid, start, end + 1)
    ensures stopped ==> interrupt.Some? && interrupt.value == |attempts| && reached <= end + 1
                        && attempts == attempts0 + SweepRange(charUuid, start, reached)
    ensures interrupt.Some? ==> |attempts| <= interrupt.value
    ensures Tracks(attempts, delivered, lastChar, lastCmd, failing)
  {
    attempts, delivered, lastChar, lastCmd, stopped := attempts0, delivered0, lastChar0, lastCmd0, false;
    reached := start;
    if start <= end {
      for i := start to end + 1
        invariant attempts == attempts0 + SweepRange(charUuid, start, i)
        invariant interrupt.Some? ==> |attempts| <= interrupt.value
        invariant Tracks(attempts, delivered, lastChar, lastCmd, failing)
        invariant !stopped
      {
        if interrupt.Some? && interrupt.value == |attempts| {
          stopped, reached := true, i;
          break;
        }
        attempts, delivered, lastChar, lastCmd := SweepOne(charUuid, start, i, failing, attempts0, attempts, delivered);
      }
    }
  }

  /**
   * One pass of the inner loop: the attempt with value `i` is appended, with its
   * delivery flag, and becomes the latest `(last_char, last_cmd)`.
   */
  method SweepOne(charUuid: string, start: int, i: int, failing: set<(string, int)>,
                  attempts0: seq<Attempt>, attempts: seq<Attempt>, delivered: seq<bool>)
    returns (attempts': seq<Attempt>, delivered': seq<bool>, lastChar: string, lastCmd: string)
    requires start <= i
    requires attempts == attempts0 + SweepRange(charUuid, start, i)
    requires delivered == Deliveries(attempts, failing)
    ensures attempts' == attempts0 + SweepRange(charUuid, start, i + 1)
    ensures |attempts'| == |attempts| + 1
    ensures Tracks(attempts', delivered', lastChar, lastCmd, failing)
  {
    var a := Attempt(charUuid, i);
    lastChar, lastCmd := charUuid, Format02x(i);
    TracksAppend(attempts, delivered, failing, a);
    var sofar := SweepRange(charUuid, start, i);
    assert SweepRange(charUuid, start, i + 1) == sofar + [a];
    AppendAssociates(attempts0, sofar, [a]);
    attempts' := attempts + [a];
    delivered' := delivered + [Delivered(a, failing)];
  }

  /**
   * On one characteristic the sweep visits `start..end` inclusive in ascending
   * order: attempt `k` carries the value `start + k` and the command `f"{start+k:02x}"`.
   */
  lemma {:induction false} SweepRangeInOrder(charUuid: string, start: int, stop: int)
    ensures |SweepRange(charUuid, start, stop)| == if stop <= start then 0 else stop - start
    ensures forall k :: 0 <= k < |SweepRange(charUuid, start, stop)| ==>
              SweepRange(charUuid, start, stop)[k] == Attempt(charUuid, start + k)
    decreases stop - start
  {
    if start < stop {
      SweepRangeInOrder(charUuid, start, stop - 1);
    }
  }

  /** Within the byte range every command is two lower-case hex digits and the write carries the single byte `i`. */
  lemma {:induction false} AttemptInByteRange(charUuid: string, i: int)
    requires 0 <= i < 256
    ensures |Attempt(charUuid, i).Cmd()| == 2
    ensures forall k :: 0 <= k < 2 ==> IsLowerHexDigit(Attempt(charUuid, i).Cmd()[k])
    ensures Attempt(charUuid, i).Write() == Some(GattWrite(charUuid, [i as Byte], false))
  {
    Format02xRoundTrip(i);
  }

  /**
   * The range prompts are not checked against one byte: a negative value or a value
   * from 0x100 to 0xfff yields a command `bytes.fromhex` rejects, so that attempt
   * updates `last_cmd` but writes nothing, silently.
   */
  lemma {:induction false} AttemptOutsideByteRange(charUuid: string, i: int)
    requires i < 0 || 256 <= i < 4096
    ensures Attempt(charUuid, i).Write().None?
  {
    var s := Format02x(i);
    if i < 0 {
      assert !IsHexDigit(s[0]);
    } else {
      assert |LowerHex(i / 16 / 16)| == 1;
      assert |LowerHex(i / 16)| == 2;
      assert |s| == 3;
    }
  }

  /** An uninterrupted sweep over a non-empty range ends on the last target with the command for `end`. */
  lemma {:induction false} FullSweepEndsAtEnd(targets: seq<Target>, start: int, end: int)
    requires targets != [] && start <= end
    ensures SweepAll(targets, start, end) != []
    ensures SweepAll(targets, start, end)[|SweepAll(targets, start, end)| - 1]
              == Attempt(targets[|targets| - 1].charUuid, end)
  {
  }

  /** Every attempt of the sweep is the attempt for its own characteristic and value, with `start <= value <= end`. */
  lemma {:induction false} SweepAllFormed(targets: seq<Target>, start: int, end: int)
    ensures forall k :: 0 <= k < |SweepAll(targets, start, end)| ==>
              var a := SweepAll(targets, start, end)[k];
              start <= a.value <= end
  {
    if targets != [] {
      var init := SweepAll(targets[..|targets| - 1], start, end);
      var last := SweepRange(targets[|targets| - 1].charUuid, start, end + 1);
      SweepAllFormed(targets[..|targets| - 1], start, end);
      SweepRangeInOrder(targets[|targets| - 1].charUuid, start, end + 1);
      assert forall k :: 0 <= k < |last| ==> (init + last)[|init| + k] == last[k];
    }
  }

  // ---------------------------------------------------------------------------
  // The fine window

  /** `max(0, last - 5)` and `min(255, last + 5)`: the inclusive bounds of the fine probe. */
  function FineWindow(last: int): (w: (int, int))
    ensures 0 <= w.0 && w.1 <= 255
    ensures 0 <= last <= 255 ==> w.0 <= last <= w.1 && w.1 - w.0 + 1 <= 11
    ensures 5 <= last <= 250 ==> w.1 - w.0 + 1 == 11
  {
    (if last - 5 > 0 then last - 5 else 0, if last + 5 < 255 then last + 5 else 255)
  }

  /** A value lies in the window exactly when it is a byte no further than 5 from `last`. */
  lemma FineWindowIsNeighbourhood(last: int, j: int)
    ensures FineWindow(last).0 <= j <= FineWindow(last).1 <==> 0 <= j <= 255 && last - 5 <= j <= last + 5
  {
  }

  /** `int(last_cmd, 16)` followed by the window; an empty `last_cmd` raises ValueError. */
  function FineStart(lastCmd: string): (r: Result<(int, int), PyError>)
    ensures lastCmd == "" ==> r == Failure(ValueError)
    ensures r.Success? ==> 0 <= r.value.0 && r.value.1 <= 255
    ensures r.Success? <==> PyIntHex(lastCmd).Some?
    ensures r.Failure? ==> r.error == ValueError
  {
    match PyIntHex(lastCmd)
    case None => Failure(ValueError)
    case Some(v) => Success(FineWindow(v))
  }

  /** `int(f"{i:02x}", 16) == i` for every integer, sign included. */
  lemma {:induction false} LastCmdReadsBack(i: int)
    ensures PyIntHex(Format02x(i)) == Some(i)
  {
    var s := Format02x(i);
    if i < 0 {
      assert s[1..] == LowerHex(-i);
    } else if i < 16 {
      assert s == ['0', LowerDigit(i)];
      assert s[..1] == "0";
      assert s[..1][..0] == [];
      assert DigitsValue(s[..1]) == 0;
      assert DigitsValue(s) == i;
    }
  }

  /**
   * After Ctrl+C following `k >= 1` attempts, the fine window is computed from the
   * value of the last attempt; when that value is a byte, the window contains it.
   */
  lemma {:induction false} FineWindowAroundLastAttempt(targets: seq<Target>, start: int, end: int, k: nat)
    requires 1 <= k <= |SweepAll(targets, start, end)|
    ensures var a := SweepAll(targets, start, end)[k - 1];
              FineStart(a.Cmd()) == Success(FineWindow(a.value))
              && (0 <= a.value <= 255 ==> FineWindow(a.value).0 <= a.value <= FineWindow(a.value).1)
  {
    SweepAllFormed(targets, start, end);
    LastCmdReadsBack(SweepAll(targets, start, end)[k - 1].value);
  }

  /** How the interactive fine loop ended. */
  datatype FineEnd = WindowDone | Quit | InputClosed

  function Count(lo: int, hi: int): nat {
    if hi < lo then 0 else hi - lo + 1
  }

  /** The commands the user marked with `y`, in order, for answers starting at `lo`. */
  function Hits(lo: int, answers: seq<string>, n: nat): seq<string>
    requires n <= |answers|
  {
    if n == 0 then []
    else Hits(lo, answers, n - 1) + (if answers[n - 1] == "y" then [Format02x(lo + n - 1)] else [])
  }

  /**
   * The fine loop over `lo..hi` inclusive: each value is written to `last_char`, then
   * one answer is read (already stripped and lower-cased); `y` records the command,
   * `q` stops, anything else goes on. Running out of answers stops the loop with the
   * write for which no answer came.
   */
  method FineProbe(lastChar: string, lo: int, hi: int, answers: seq<string>)
    returns (writes: seq<GattWrite>, found: seq<string>, ended: FineEnd)
    requires 0 <= lo && hi <= 255
    ensures |writes| <= Count(lo, hi)
    ensures forall k :: 0 <= k < |writes| ==> writes[k] == GattWrite(lastChar, [lo + k], false)
    ensures ended == WindowDone ==> |writes| == Count(lo, hi) && |writes| <= |answers|
    ensures ended == Quit ==> 1 <= |writes| <= |answers| && answers[|writes| - 1] == "q"
    ensures ended == InputClosed ==> |writes| == |answers| + 1
    ensures forall k :: 0 <= k < |writes| - 1 ==> answers[k] != "q"
    ensures ended == WindowDone ==> forall k :: 0 <= k < |writes| ==> answers[k] != "q"
    ensures ended != InputClosed ==> found == Hits(lo, answers, |writes|)
    ensures ended == InputClosed ==> found == Hits(lo, answers, |answers|)
  {
    writes, found, ended := [], [], WindowDone;
    var i := lo;
    while i <= hi
      invariant lo <= i && i - lo <= Count(lo, hi) && i - lo <= |answers|
      invariant writes == Probes(lastChar, lo, i - lo)
      invariant NoQuit(answers, i - lo)
      invariant found == Hits(lo, answers, i - lo)
    {
      var stop;
      writes, found, stop := FineStep(lastChar, lo, i, answers, writes, found);
      if stop.Some? {
        ended := stop.value;
        break;
      }
      i := i + 1;
    }
  }

  /**
   * One pass of the fine loop for value `i`: write it, then read the answer for it.
   * `stop` says whether and why the loop ends here.
   */
  method FineStep(lastChar: string, lo: int, i: int, answers: seq<string>, writes: seq<GattWrite>, found: seq<string>)
    returns (writes': seq<GattWrite>, found': seq<string>, stop: Option<FineEnd>)
    requires 0 <= lo <= i <= 255 && i - lo <= |answers|
    requires writes == Probes(lastChar, lo, i - lo) && found == Hits(lo, answers, i - lo)
    ensures writes' == Probes(lastChar, lo, i - lo + 1)
    ensures stop == None <==> i - lo < |answers| && answers[i - lo] != "q"
    ensures stop == Some(InputClosed) <==> i - lo == |answers|
    ensures stop == Some(InputClosed) ==> found' == found
    ensures stop != Some(InputClosed) ==> found' == Hits(lo, answers, i - lo + 1)
    ensures stop != Some(WindowDone)
  {
    var n := i - lo;
    var cmd := Format02x(i);
    Format02xDecodes(i);
    ProbesStep(lastChar, lo, n);
    writes' := writes + [GattWrite(lastChar, FromHex(cmd).value, false)];
    found' := found;
    if |answers| == n {
      return writes', found', Some(InputClosed);
    }
    var result := answers[n];
    if result == "y" {
      found' := found + [cmd];
      stop := None;
    } else if result == "q" {
      stop := Some(Quit);
    } else {
      stop := None;
    }
  }

  /** The first `n` writes of the fine loop: value `lo + k` to `lastChar`, without response. */
  function Probes(lastChar: string, lo: int, n: nat): (ws: seq<GattWrite>)
    requires 0 <= lo && (n == 0 || lo + n <= 256)
    ensures |ws| == n && forall k :: 0 <= k < n ==> ws[k] == GattWrite(lastChar, [lo + k], false)
  {
    seq(n, k requires 0 <= k < n => GattWrite(lastChar, [lo + k], false))
  }

  lemma ProbesStep(lastChar: string, lo: int, n: nat)
    requires 0 <= lo && lo + n < 256
    ensures Probes(lastChar, lo, n + 1) == Probes(lastChar, lo, n) + [GattWrite(lastChar, [lo + n], false)]
  {
  }

  /** None of the first `n` answers is `q`. */
  predicate NoQuit(answers: seq<string>, n: nat) {
    forall k :: 0 <= k < n && k < |answers| ==> answers[k] != "q"
  }

}
