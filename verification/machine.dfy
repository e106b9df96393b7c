/** Fixed-width integers of the Go program, made explicit: `uint64` counters whose
    `+` and `-` wrap modulo 2^64, and the 64-bit `int` of the command-line options. */
module Machine {

  const U64_MODULUS: nat := 0x1_0000_0000_0000_0000

  const INT64_MIN: int := -0x8000_0000_0000_0000
  const INT64_MAX: int := 0x7fff_ffff_ffff_ffff

  /** A Go `uint64`. */
  type U64 = x: int | 0 <= x < U64_MODULUS

  /** A Go `int` on a 64-bit platform. */
  type Int64 = x: int | INT64_MIN <= x <= INT64_MAX

  /** Go's `a + b` on `uint64`: the exact sum when it fits, otherwise it wraps once. */
  function AddU64(a: U64, b: U64): (r: U64)
    ensures a + b < U64_MODULUS ==> r == a + b
    ensures a + b >= U64_MODULUS ==> r == a + b - U64_MODULUS
  {
    (a + b) % U64_MODULUS
  }

  /** Go's `a - b` on `uint64`: the exact difference when `b <= a`, otherwise it wraps once. */
  function SubU64(a: U64, b: U64): (r: U64)
    ensures b <= a ==> r == a - b
    ensures a < b ==> r == a - b + U64_MODULUS
  {
    (a - b) % U64_MODULUS
  }

  /** Wrapping subtraction undoes wrapping addition. */
  lemma SubUndoesAdd(a: U64, b: U64)
    ensures SubU64(AddU64(a, b), b) == a
  {
  }

  /** Wrapping addition undoes wrapping subtraction. */
  lemma AddUndoesSub(a: U64, b: U64)
    ensures AddU64(SubU64(a, b), b) == a
  {
  }

  /** Go's `a + b` on a 64-bit `int`: two's-complement wrap-around. */
  function AddInt64(a: Int64, b: Int64): (r: Int64)
    ensures INT64_MIN <= a + b <= INT64_MAX ==> r == a + b
    ensures a + b > INT64_MAX ==> r == a + b - U64_MODULUS
    ensures a + b < INT64_MIN ==> r == a + b + U64_MODULUS
  {
    (a + b - INT64_MIN) % U64_MODULUS + INT64_MIN
  }
}
