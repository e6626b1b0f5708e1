/** The source's 64-bit integers, written out over unbounded ones. */
module Ints {
  const MAX_INT64: int := 0x7fff_ffff_ffff_ffff

  function Min(a: int, b: int): int {
    if a < b then a else b
  }

  function Max(a: int, b: int): int {
    if a > b then a else b
  }

  /** Two's-complement int64 addition wraps. */
  function Wrap64(x: int): int {
    (x + 0x8000_0000_0000_0000) % 0x1_0000_0000_0000_0000 - 0x8000_0000_0000_0000
  }

  lemma {:induction false} WrapSmall(x: int)
    requires -MAX_INT64 - 1 <= x <= MAX_INT64
    ensures Wrap64(x) == x
  {
  }

  lemma {:induction false} WrapRange(x: int)
    ensures -MAX_INT64 - 1 <= Wrap64(x) <= MAX_INT64
  {
  }
}
