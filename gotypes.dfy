/** The few pieces of Go's value semantics that the controller relies on. */
module GoTypes {
  const MinInt32: int := -0x8000_0000
  const MaxInt32: int := 0x7FFF_FFFF

  /** Go's `int32`. */
  type Int32 = x: int | -0x8000_0000 <= x < 0x8000_0000

  /** Go's conversion `int32(i)` from a wider integer: keeps the low 32 bits, read as two's complement. */
  function Wrap32(i: int): (r: Int32)
    ensures (r - i) % 0x1_0000_0000 == 0
    ensures MinInt32 <= i <= MaxInt32 ==> r == i
  {
    (i + 0x8000_0000) % 0x1_0000_0000 - 0x8000_0000
  }

  /** Reading `m[key]` from a Go `map[string]string`: a missing key reads as the zero value "". */
  function MapIndex(m: map<string, string>, key: string): (v: string)
    ensures key in m ==> v == m[key]
    ensures key !in m ==> v == ""
  {
    if key in m then m[key] else ""
  }
}
