/** Value types shared by every layer of the driver model: bus bytes, pin
    levels, an optional value, and the big-endian 16-bit encoding the panel
    uses for its resolution registers. */
module Base {

  /** A value `bytes([v])` accepts: one byte on the SPI bus. */
  type Byte = v: int | 0 <= v < 256

  /** A logic level as `Pin.value()` reads or drives it. */
  type Bit = v: int | 0 <= v <= 1

  datatype Option<+T> = None | Some(value: T)

  /** Big-endian 16-bit encoding: the high byte is sent first. */
  function Be16(v: nat): (r: seq<Byte>)
    requires v < 0x1_0000
    ensures |r| == 2
    ensures r[0] as int * 256 + r[1] as int == v
  {
    [v / 256, v % 256]
  }

  /** Reads back a big-endian 16-bit value; the inverse of `Be16`. */
  function FromBe16(hi: Byte, lo: Byte): (v: nat)
    ensures v < 0x1_0000
    ensures Be16(v) == [hi, lo]
  {
    hi as int * 256 + lo as int
  }
}
