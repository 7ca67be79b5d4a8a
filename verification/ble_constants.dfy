/**
 * The app's fixed protocol constants: the advertised device name, the service and
 * control-characteristic UUIDs, and the frozen `CMD` table of two-digit hex commands.
 */
module BleConstants {
  import opened Wrappers
  import opened Hex

  const DEVICE_NAME: string := "SWITCHER_M"
  const SERVICE_UUID: string := "0000150b-0000-1000-8000-00805f9b34fb"
  const CHAR_CONTROL_UUID: string := "000015ba-0000-1000-8000-00805f9b34fb"

  /** The three entries of `CMD`. */
  datatype Command = Off | On | Toggle

  /** `CMD.OFF`, `CMD.ON`, `CMD.TOGGLE`: the command strings handed to `sendCommand`. */
  function CmdText(c: Command): (s: string)
    ensures |s| == 2 && AllHex(s)
  {
    match c
    case Off => "00"
    case On => "01"
    case Toggle => "04"
  }

  /** The switch's protocol byte for each command (OFF = right, ON = left). */
  function ProtocolByte(c: Command): Byte {
    match c
    case Off => 0x00
    case On => 0x01
    case Toggle => 0x04
  }

  /**
   * Every `CMD` string is read back as its protocol byte, both by the browser
   * (`parseInt(cmd, 16)` into a `Uint8Array`) and by Python's `bytes.fromhex`.
   */
  lemma {:induction false} CmdTextDecodes(c: Command)
    ensures ToUint8(ParseIntHex(CmdText(c))) == ProtocolByte(c)
    ensures FromHex(CmdText(c)) == Some([ProtocolByte(c)])
  {
    var s := CmdText(c);
    TwoDigitDecodersAgree(s);
    assert DigitValue(s[0]) == 0;
  }

  /** The three command strings are pairwise distinct, and so are their bytes. */
  lemma {:induction false} CommandsDistinct(c: Command, d: Command)
    requires c != d
    ensures CmdText(c) != CmdText(d) && ProtocolByte(c) != ProtocolByte(d)
  {
    CmdTextDecodes(c);
    CmdTextDecodes(d);
  }

  /** The tail of the Bluetooth Base UUID 00000000-0000-1000-8000-00805F9B34FB. */
  const BASE_UUID_TAIL: string := "-0000-1000-8000-00805f9b34fb"

  /** Four lower-case hex digits of a 16-bit value, most significant first. */
  function Hex4(v: nat): (r: string)
    requires v < 0x10000
    ensures |r| == 4 && AllHex(r)
  {
    var q1 := v / 16;
    var q2 := q1 / 16;
    var q3 := q2 / 16;
    [LowerDigit(q3), LowerDigit(q2 % 16), LowerDigit(q1 % 16), LowerDigit(v % 16)]
  }

  /**
   * A 16-bit UUID expanded with the Bluetooth Base UUID (Bluetooth Core
   * Specification Vol 3, Part B, section 2.5.1), spelled in lower case.
   */
  function BaseUuid16(v: nat): (r: string)
    requires v < 0x10000
    ensures |r| == 36
  {
    "0000" + Hex4(v) + BASE_UUID_TAIL
  }

  /** The 16-bit alias of a UUID built on the Base UUID, if it is one. */
  function Uuid16Of(s: string): (r: Option<nat>)
    ensures r.Some? ==> r.value < 0x10000
  {
    if |s| == 36 && s[..4] == "0000" && s[8..] == BASE_UUID_TAIL && AllHex(s[4..8]) then
      Some(DigitsValue(s[4..8]))
    else None
  }

  /** Expanding a 16-bit value and reading its alias back gives the value again. */
  lemma {:induction false} Uuid16RoundTrip(v: nat)
    requires v < 0x10000
    ensures Uuid16Of(BaseUuid16(v)) == Some(v)
  {
    var s := BaseUuid16(v);
    var h := Hex4(v);
    assert s[..4] == "0000" && s[8..] == BASE_UUID_TAIL;
    assert s[4..8] == h;
    var q1 := v / 16;
    var q2 := q1 / 16;
    var q3 := q2 / 16;
    assert h[..3][..2] == h[..2] && h[..2][..1] == h[..1] && h[..1][..0] == [];
    assert DigitsValue(h[..1]) == q3;
    assert DigitsValue(h[..2]) == 16 * q3 + q2 % 16 == q2;
    assert DigitsValue(h[..3]) == 16 * q2 + q1 % 16 == q1;
    assert h[..4] == h;
    assert DigitsValue(h) == 16 * q1 + v % 16 == v;
  }

  /** Distinct 16-bit values expand to distinct 128-bit UUIDs. */
  lemma {:induction false} BaseUuid16Injective(v: nat, w: nat)
    requires v < 0x10000 && w < 0x10000 && BaseUuid16(v) == BaseUuid16(w)
    ensures v == w
  {
    Uuid16RoundTrip(v);
    Uuid16RoundTrip(w);
  }

  lemma ServiceSpelling()
    ensures SERVICE_UUID == "0000" + "150b" + BASE_UUID_TAIL
  {
  }

  lemma ServiceDigits()
    ensures Hex4(0x150b) == "150b"
  {
    assert 0x150b / 16 == 0x150;
    assert 0x150 / 16 == 0x15;
    assert 0x15 / 16 == 1;
  }

  /** The service is the 16-bit UUID 0x150B expanded with the Base UUID. */
  lemma {:induction false} ServiceUuidIs16Bit()
    ensures SERVICE_UUID == BaseUuid16(0x150b)
  {
    ServiceDigits();
    ServiceSpelling();
  }

  lemma ControlSpelling()
    ensures CHAR_CONTROL_UUID == "0000" + "15ba" + BASE_UUID_TAIL
  {
  }

  lemma ControlDigits()
    ensures Hex4(0x15ba) == "15ba"
  {
    assert 0x15ba / 16 == 0x15b;
    assert 0x15b / 16 == 0x15;
    assert 0x15 / 16 == 1;
  }

  /** The control characteristic is the 16-bit UUID 0x15BA expanded with the Base UUID. */
  lemma {:induction false} ControlUuidIs16Bit()
    ensures CHAR_CONTROL_UUID == BaseUuid16(0x15ba)
  {
    ControlDigits();
    ControlSpelling();
  }
}
