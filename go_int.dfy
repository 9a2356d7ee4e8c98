/** Go's 64-bit `int`/`int64` and its arithmetic: the range, the saturation
    `strconv` applies to out-of-range input, two's-complement wrap-around of
    `+`, `-`, `*`, and `/`, which truncates toward zero. */
module GoInt {

  const MaxInt64: int := 0x7FFF_FFFF_FFFF_FFFF
  const MinInt64: int := -0x8000_0000_0000_0000
  const Modulus64: int := 0x1_0000_0000_0000_0000

  predicate IsInt64(x: int) {
    MinInt64 <= x <= MaxInt64
  }

  /** Saturates `x` to the int64 range, as `strconv.ParseInt` does on ErrRange. */
  function Clamp64(x: int): (r: int)
    ensures IsInt64(r)
    ensures IsInt64(x) ==> r == x
    ensures x > MaxInt64 ==> r == MaxInt64
    ensures x < MinInt64 ==> r == MinInt64
  {
    if x > MaxInt64 then MaxInt64 else if x < MinInt64 then MinInt64 else x
  }

  /** Two's-complement wrap-around of a mathematical result into int64. */
  function Wrap64(x: int): (r: int)
    ensures IsInt64(r)
    ensures (r - x) % Modulus64 == 0
    ensures IsInt64(x) ==> r == x
  {
    var m := (x - MinInt64) % Modulus64;
    assert IsInt64(x) ==> m == x - MinInt64;
    m + MinInt64
  }

  /** Go's `season--` on an int64 counter in a `season >= end` loop. While
      `end` is above the smallest int64 the decrement never wraps, so the
      counter takes the values `season - 1` of unbounded arithmetic. At
      `end == MinInt64` the decrement below the smallest value wraps to the
      largest, the guard holds again, and the loop can only be left by a
      `return` in its body. */
  lemma SeasonDecrement(season: int, end: int)
    requires IsInt64(season) && IsInt64(end) && season >= end
    ensures end > MinInt64 ==> Wrap64(season - 1) == season - 1
    ensures season == MinInt64 ==> Wrap64(season - 1) == MaxInt64
    ensures end == MinInt64 ==> Wrap64(season - 1) >= end
  {
    if season == MinInt64 {
      assert (season - 1 - MinInt64) % Modulus64 == Modulus64 - 1;
    }
  }

  function Abs(x: int): nat {
    if x < 0 then -x else x
  }

  lemma DivOfNatsIsNat(x: int, y: int)
    requires x >= 0 && y > 0
    ensures x / y >= 0
  {
  }

  /** Go's integer `/`: the quotient truncated toward zero. */
  function Quo(a: int, b: int): (q: int)
    requires b != 0
    ensures Abs(q) == Abs(a) / Abs(b)
    ensures q != 0 ==> ((q < 0) <==> ((a < 0) != (b < 0)))
  {
    DivOfNatsIsNat(Abs(a), Abs(b));
    var m := Abs(a) / Abs(b);
    if (a < 0) != (b < 0) then -m else m
  }
}
