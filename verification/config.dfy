/** The Python scripts' shared configuration: device identity, characteristics, commands. */
module Config {
  import opened Wrappers
  import opened Hex
  import BleConstants

  const DEVICE_NAME: string := "SWITCHER_M"
  const DEVICE_ADDRESS: string := "5569D6C3-205E-AADF-96EC-DB634970F8C3"

  const CHAR_CONTROL: string := "000015ba-0000-1000-8000-00805f9b34fb"
  const CHAR_READ: string := "000025ca-0000-1000-8000-00805f9b34fb"

  const CMD_RIGHT: string := "00"
  const CMD_LEFT: string := "01"
  const CMD_TOGGLE: string := "04"

  /** Aliases: OFF is the right-hand position, ON the left-hand one. */
  const CMD_OFF: string := CMD_RIGHT
  const CMD_ON: string := CMD_LEFT

  /** The Python constants name the same device, characteristic and commands as the app. */
  lemma AgreesWithApp()
    ensures DEVICE_NAME == BleConstants.DEVICE_NAME
    ensures CHAR_CONTROL == BleConstants.CHAR_CONTROL_UUID
    ensures CMD_OFF == BleConstants.CmdText(BleConstants.Off)
    ensures CMD_ON == BleConstants.CmdText(BleConstants.On)
    ensures CMD_TOGGLE == BleConstants.CmdText(BleConstants.Toggle)
  {
  }

  /** `bytes.fromhex` of each command is the single protocol byte 0x00, 0x01 or 0x04. */
  lemma {:induction false} CommandsDecode()
    ensures FromHex(CMD_OFF) == Some([0x00]) && FromHex(CMD_RIGHT) == FromHex(CMD_OFF)
    ensures FromHex(CMD_ON) == Some([0x01]) && FromHex(CMD_LEFT) == FromHex(CMD_ON)
    ensures FromHex(CMD_TOGGLE) == Some([0x04])
  {
    BleConstants.CmdTextDecodes(BleConstants.Off);
    BleConstants.CmdTextDecodes(BleConstants.On);
    BleConstants.CmdTextDecodes(BleConstants.Toggle);
  }

  /** The four hex digits of the status characteristic's 16-bit UUID. */
  lemma ReadCharSpelling()
    ensures CHAR_READ == "0000" + "25ca" + BleConstants.BASE_UUID_TAIL
  {
  }

  lemma ReadCharDigits()
    ensures BleConstants.Hex4(0x25ca) == "25ca"
  {
    assert 0x25ca / 16 == 0x25c;
    assert 0x25c / 16 == 0x25;
    assert 0x25 / 16 == 2;
  }

  /** The status characteristic is another 16-bit UUID, 0x25CA. */
  lemma {:induction false} ReadCharIs16Bit()
    ensures CHAR_READ == BleConstants.BaseUuid16(0x25ca)
  {
    ReadCharDigits();
    ReadCharSpelling();
  }

  /** Reading status and writing commands go to different characteristics. */
  lemma ReadCharDistinct()
    ensures CHAR_READ != CHAR_CONTROL
  {
    assert CHAR_READ[4] != CHAR_CONTROL[4];
  }
}
