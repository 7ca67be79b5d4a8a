/** A GATT write as the Python scripts issue it through Bleak. */
module Gatt {
  import opened Hex

  /** One `write_gatt_char(characteristic, payload, response=response)` call. */
  datatype GattWrite = GattWrite(characteristic: string, payload: seq<Byte>, response: bool)
}
