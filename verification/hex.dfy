/**
 * The hexadecimal conversions the programs rely on: JavaScript's `parseInt(s, 16)`
 * followed by the `Uint8Array` element conversion, Python's `bytes.fromhex(s)`,
 * Python's `f"{i:02x}"` and Python's `int(s, 16)`.
 */
module Hex {
  import opened Wrappers

  /** One octet: a `Uint8Array` element, an item of a Python `bytes` value. */
  type Byte = x: int | 0 <= x < 256

  predicate IsHexDigit(c: char) {
    '0' <= c <= '9' || 'a' <= c <= 'f' || 'A' <= c <= 'F'
  }

  predicate IsLowerHexDigit(c: char) {
    '0' <= c <= '9' || 'a' <= c <= 'f'
  }

  predicate AllHex(s: string) {
    forall k :: 0 <= k < |s| ==> IsHexDigit(s[k])
  }

  function DigitValue(c: char): (v: nat)
    requires IsHexDigit(c)
    ensures v < 16
  {
    if '0' <= c <= '9' then c as int - '0' as int
    else if 'a' <= c <= 'f' then c as int - 'a' as int + 10
    else c as int - 'A' as int + 10
  }

  /** The lower-case digit Python's `x` format uses for a value below 16. */
  function LowerDigit(v: nat): (c: char)
    requires v < 16
    ensures IsLowerHexDigit(c) && IsHexDigit(c) && DigitValue(c) == v
  {
    if v < 10 then ('0' as int + v) as char else ('a' as int + v - 10) as char
  }

  lemma {:induction false} LowerDigitInjective(v: nat, w: nat)
    requires v < 16 && w < 16 && LowerDigit(v) == LowerDigit(w)
    ensures v == w
  {
    assert DigitValue(LowerDigit(v)) == v;
  }

  function Pow16(k: nat): (p: nat)
    ensures p >= 1
  {
    if k == 0 then 1 else 16 * Pow16(k - 1)
  }

  /** The value of a string of hex digits read most significant digit first. */
  function DigitsValue(s: string): (v: nat)
    requires AllHex(s)
    ensures v < Pow16(|s|)
  {
    if s == [] then 0 else DigitsValue(s[..|s| - 1]) * 16 + DigitValue(s[|s| - 1])
  }

  /** Python's `format(n, "x")`: the shortest lower-case hex spelling of `n`. */
  function LowerHex(n: nat): (r: string)
    ensures 1 <= |r|
    ensures forall k :: 0 <= k < |r| ==> IsLowerHexDigit(r[k]) && IsHexDigit(r[k])
    ensures AllHex(r) && DigitsValue(r) == n
    ensures n < Pow16(|r|) && (|r| > 1 ==> Pow16(|r| - 1) <= n)
  {
    if n < 16 then [LowerDigit(n)]
    else
      var r := LowerHex(n / 16) + [LowerDigit(n % 16)];
      assert r[..|r| - 1] == LowerHex(n / 16);
      r
  }

  /**
   * Python's `f"{i:02x}"`: lower-case hex, zero-padded to width 2; the padding goes
   * after the sign, and a negative value already fills the width with its sign.
   */
  function Format02x(i: int): (r: string)
    ensures 2 <= |r|
    ensures i < 0 ==> r[0] == '-'
  {
    if i < 0 then "-" + LowerHex(-i)
    else if i < 16 then "0" + LowerHex(i)
    else LowerHex(i)
  }

  /**
   * Python's `bytes.fromhex(s)` on a string without whitespace: every pair of hex
   * digits (either case) is one byte; an odd length or a non-hex character raises
   * ValueError, which is `None` here.
   */
  function FromHex(s: string): (r: Option<seq<Byte>>)
    ensures r.Some? <==> (|s| % 2 == 0 && AllHex(s))
    ensures r.Some? ==> 2 * |r.value| == |s|
    decreases |s|
  {
    if s == [] then Some([])
    else if |s| == 1 || !IsHexDigit(s[0]) || !IsHexDigit(s[1]) then None
    else
      match FromHex(s[2..])
      case None => None
      case Some(rest) => Some([16 * DigitValue(s[0]) + DigitValue(s[1])] + rest)
  }

  /** Byte `k` of `bytes.fromhex(s)` is the value of the digit pair at `2k`, `2k + 1`. */
  lemma {:induction false} FromHexValues(s: string, k: nat)
    requires FromHex(s).Some? && k < |FromHex(s).value|
    ensures IsHexDigit(s[2 * k]) && IsHexDigit(s[2 * k + 1])
    ensures FromHex(s).value[k] == 16 * DigitValue(s[2 * k]) + DigitValue(s[2 * k + 1])
    decreases |s|
  {
    if k > 0 {
      FromHexValues(s[2..], k - 1);
      assert s[2..][2 * (k - 1)] == s[2 * k] && s[2..][2 * (k - 1) + 1] == s[2 * k + 1];
    }
  }

  /** Length of the longest prefix of `s` made of hex digits. */
  function HexRun(s: string): (n: nat)
    ensures n <= |s| && AllHex(s[..n])
    ensures n < |s| ==> !IsHexDigit(s[n])
  {
    if s == [] || !IsHexDigit(s[0]) then 0
    else
      var n := 1 + HexRun(s[1..]);
      assert s[..n] == [s[0]] + s[1..][..n - 1];
      n
  }

  /**
   * JavaScript's `parseInt(s, 16)`: an optional sign, an optional `0x`/`0X` prefix,
   * then the longest run of hex digits; `None` is NaN (no digit at all).
   */
  function ParseIntHex(s: string): (r: Option<int>)
    ensures AllHex(s) && s != [] ==> r == Some(DigitsValue(s))
  {
    var neg := |s| > 0 && s[0] == '-';
    var t := if |s| > 0 && (s[0] == '-' || s[0] == '+') then s[1..] else s;
    var u := if |t| >= 2 && t[0] == '0' && (t[1] == 'x' || t[1] == 'X') then t[2..] else t;
    var n := HexRun(u);
    assert AllHex(s) && s != [] ==> u == s && n == |s| && s[..n] == s;
    if n == 0 then None
    else if neg then Some(-(DigitsValue(u[..n]) as int))
    else Some(DigitsValue(u[..n]))
  }

  /** The `Uint8Array` element conversion: NaN becomes 0, other values wrap modulo 256. */
  function ToUint8(v: Option<int>): (b: Byte)
    ensures v.Some? && 0 <= v.value < 256 ==> b == v.value
    ensures v.None? ==> b == 0
  {
    match v
    case None => 0
    case Some(n) => n % 256
  }

  /**
   * Python's `int(s, 16)` on an optionally signed string of hex digits; `None` is
   * ValueError. Surrounding whitespace, a `0x` prefix and `_` separators, which Python
   * also accepts, are not modelled: the only text read this way is `f"{i:02x}"`.
   */
  function PyIntHex(s: string): (r: Option<int>)
    ensures AllHex(s) && s != [] ==> r == Some(DigitsValue(s))
  {
    if |s| > 0 && (s[0] == '-' || s[0] == '+') then
      var t := s[1..];
      if t != [] && AllHex(t) then Some(if s[0] == '-' then -(DigitsValue(t) as int) else DigitsValue(t)) else None
    else if s != [] && AllHex(s) then Some(DigitsValue(s))
    else None
  }

  /**
   * For every byte value, `f"{i:02x}"` is two lower-case hex digits, and both
   * `bytes.fromhex` and `int(…, 16)` read back exactly `i`.
   */
  lemma {:induction false} Format02xRoundTrip(i: int)
    requires 0 <= i < 256
    ensures |Format02x(i)| == 2
    ensures forall k :: 0 <= k < 2 ==> IsLowerHexDigit(Format02x(i)[k])
    ensures FromHex(Format02x(i)) == Some([i as Byte])
    ensures PyIntHex(Format02x(i)) == Some(i)
  {
    var s := Format02x(i);
    var hi, lo := LowerDigit(i / 16), LowerDigit(i % 16);
    if i < 16 {
      assert LowerHex(i) == [lo];
      assert s == ['0', lo];
    } else {
      assert LowerHex(i / 16) == [hi];
      assert s == [hi, lo];
    }
    assert s == [hi, lo];
    assert s[2..] == [];
    assert FromHex(s[2..]) == Some([]);
    assert [16 * DigitValue(hi) + DigitValue(lo)] + [] == [i];
    assert s[..1] == [hi];
    assert DigitsValue(s) == 16 * (i / 16) + i % 16;
  }

  /** `bytes.fromhex(f"{i:02x}")` is the single byte `i`. */
  lemma {:induction false} Format02xDecodes(i: int)
    requires 0 <= i < 256
    ensures FromHex(Format02x(i)) == Some([i as Byte])
  {
    Format02xRoundTrip(i);
  }

  /** Distinct byte values are formatted as distinct strings. */
  lemma {:induction false} Format02xInjective(i: int, j: int)
    requires 0 <= i < 256 && 0 <= j < 256 && Format02x(i) == Format02x(j)
    ensures i == j
  {
    Format02xRoundTrip(i);
    Format02xRoundTrip(j);
  }

  /**
   * On a two-hex-digit string the browser's decoding (`parseInt` then `Uint8Array`)
   * and the server's decoding (`bytes.fromhex`) produce the same single byte.
   */
  lemma {:induction false} TwoDigitDecodersAgree(s: string)
    requires |s| == 2 && IsHexDigit(s[0]) && IsHexDigit(s[1])
    ensures ParseIntHex(s) == Some(16 * DigitValue(s[0]) + DigitValue(s[1]))
    ensures FromHex(s) == Some([ToUint8(ParseIntHex(s))])
  {
    assert s[..1] == [s[0]];
    assert s[..1][..0] == [];
    assert s[2..] == [];
    assert FromHex(s[2..]) == Some([]);
    var b := 16 * DigitValue(s[0]) + DigitValue(s[1]);
    assert [b] + [] == [b];
    assert FromHex(s) == Some([b]);
    assert DigitsValue(s) == b;
  }
}
