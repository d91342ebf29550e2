/** Go's fixed-width integers as the scheduler census uses them: run-queue
    indices and the syscall counter are uint32 words, and the census
    reinterprets differences of them as int32. */
module GoInts {

  const TwoTo31: int := 0x8000_0000
  const TwoTo32: int := 0x1_0000_0000

  /** Values of Go's uint32. */
  type Uint32 = x: int | 0 <= x < 0x1_0000_0000

  /** Values of Go's int32. */
  type Int32 = x: int | -0x8000_0000 <= x < 0x8000_0000

  /** uint32 subtraction `a - b`, which wraps around modulo 2^32. */
  function Sub32(a: Uint32, b: Uint32): (r: Uint32)
    ensures (r - (a - b)) % TwoTo32 == 0
    ensures b <= a ==> r == a - b
  {
    (a - b) % TwoTo32
  }

  /** The conversion `int32(x)` of a uint32: the same 32 bits read as two's
      complement. */
  function AsInt32(x: Uint32): (r: Int32)
    ensures (r - x) % TwoTo32 == 0
    ensures r >= 0 <==> x < TwoTo31
  {
    if x < TwoTo31 then x else x - TwoTo32
  }

  /** Two int32 values that agree modulo 2^32 are equal: the int32 range
      holds exactly one representative of each residue. */
  lemma Int32CongruenceIsEquality(a: Int32, b: Int32)
    requires (a - b) % TwoTo32 == 0
    ensures a == b
  {
  }
}
