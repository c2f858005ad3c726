/** Byte strings, the integers packed into them in either byte order, and hexadecimal digits. */
module ByteStrings {

  type Byte = b: int | 0 <= b < 256
  type Bytes = seq<Byte>

  datatype Order = Little | Big

  function U16(order: Order, b: Bytes): nat
    requires |b| == 2
  {
    if order.Big? then 256 * (b[0] as int) + b[1] as int else 256 * (b[1] as int) + b[0] as int
  }

  function U32(order: Order, b: Bytes): nat
    requires |b| == 4
  {
    if order.Big? then 16777216 * (b[0] as int) + 65536 * (b[1] as int) + 256 * (b[2] as int) + b[3] as int
    else 16777216 * (b[3] as int) + 65536 * (b[2] as int) + 256 * (b[1] as int) + b[0] as int
  }

  function From(b: Bytes, i: nat): Bytes {
    if i <= |b| then b[i..] else []
  }

  /** `b[lo:lo + n]`. */
  function Slice(b: Bytes, lo: nat, n: nat): Bytes {
    if lo >= |b| then [] else if lo + n <= |b| then b[lo..lo + n] else b[lo..]
  }

  function HexDigit(n: nat): char
    requires n < 16
  {
    if n < 10 then ('0' as int + n) as char else ('a' as int + n - 10) as char
  }
}
