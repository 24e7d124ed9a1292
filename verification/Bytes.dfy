/** Bytes, fixed-width integers and packets. */
module Bytes {

  type Byte = b: int | 0 <= b < 0x100
  type U16 = n: int | 0 <= n < 0x1_0000
  type U32 = n: int | 0 <= n < 0x1_0000_0000

  /** A decoded packet. The wire carries any 16-bit type; unknown ones are decoded like the others. */
  datatype Packet = Packet(kind: U16, payload: seq<Byte>)
}
