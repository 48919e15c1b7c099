/** Go's fixed-width integers, written out over Dafny's unbounded `int`. */
module GoInt {

  const TwoTo32: int := 0x1_0000_0000
  const MinInt32: int := -0x8000_0000
  const MaxInt32: int := 0x7FFF_FFFF
  const MinInt64: int := -0x8000_0000_0000_0000
  const MaxInt64: int := 0x7FFF_FFFF_FFFF_FFFF

  predicate InInt32(x: int) {
    MinInt32 <= x <= MaxInt32
  }

  predicate InInt64(x: int) {
    MinInt64 <= x <= MaxInt64
  }

  /** Go's conversion `int32(x)`: keeps the low 32 bits of `x` and reads them
      as a two's-complement number. The result is the one value of the int32
      range that is congruent to `x` modulo 2^32. */
  function Int32(x: int): (r: int)
    ensures InInt32(r)
    ensures (x - r) % TwoTo32 == 0
  {
    var low := x % TwoTo32;
    if low <= MaxInt32 then low else low - TwoTo32
  }

  /** The two clauses of Int32's contract pin the result down: no other int32
      value is congruent to `x`. */
  lemma Int32Unique(x: int, r: int)
    requires InInt32(r) && (x - r) % TwoTo32 == 0
    ensures r == Int32(x)
  {
    var q := Int32(x);
    assert (r - q) % TwoTo32 == 0 by {
      assert r - q == (x - q) - (x - r);
    }
    assert -TwoTo32 < r - q < TwoTo32;
  }

  /** A value already in the int32 range passes unchanged. */
  lemma Int32OfInt32(x: int)
    requires InInt32(x)
    ensures Int32(x) == x
  {
    Int32Unique(x, x);
  }

  /** Truncation is not injective: codes 2^32 apart land on the same value. */
  lemma Int32Collides(x: int)
    ensures Int32(x + TwoTo32) == Int32(x)
  {
    Int32Unique(x + TwoTo32, Int32(x));
  }
}
