/** Text as the adapter's parsers read it: bytes. */
module ByteText {
  type byte = x: int | 0 <= x < 256
  type Bytes = seq<byte>

  const DASH: byte := '-' as int
  const ZERO: byte := '0' as int

  predicate IsDigit(b: byte) { ZERO <= b <= ZERO + 9 }
}
