/** `utils.SleepWithJitter`: the pause the season loops take between
    requests, a base duration shifted by a random amount of up to a quarter
    of the base either way. Durations are Go `time.Duration` values, whole
    nanoseconds. The random draw `rand.Int63n(half)` is a parameter; the
    sleep itself and the log line are not modelled. */
module Jitter {
  import opened Wrappers
  import opened GoInt

  const Millisecond: int := 1_000_000

  /** `half := base / 2`, Go's truncating division. */
  function Half(base: int): int {
    Quo(base, 2)
  }

  /** `rand.Int63n(n)` returns a value in [0, n) and panics when n <= 0. */
  predicate IsDraw(base: int, draw: int) {
    Half(base) > 0 ==> 0 <= draw < Half(base)
  }

  /** The largest draw cannot push `base + delta` past the int64 range. */
  predicate NoWrap(base: int) {
    base + Half(base) - Half(base) / 2 <= MaxInt64 + 1
  }

  /** The duration slept for a draw: None when `rand.Int63n(half)` panics
      (a base below 2ns), otherwise `base + (draw - half/2)`, which wraps
      around in int64 for a base within a quarter of the largest duration. */
  function SleepWithJitter(base: int, draw: int): (actual: Option<int>)
    requires IsInt64(base) && IsDraw(base, draw)
    ensures actual.Some? <==> base >= 2
    ensures actual.Some? && NoWrap(base) ==>
      base - Half(base) / 2 <= actual.value < base + Half(base) - Half(base) / 2 && 0 < actual.value
  {
    var half := Half(base);
    if half <= 0 then None
    else
      QuoOfNat(base, 2);
      QuoOfNat(half, 2);
      var delta := draw - Quo(half, 2);
      Some(Wrap64(base + delta))
  }

  /** On non-negative operands Go's division agrees with Dafny's. */
  lemma QuoOfNat(a: int, b: int)
    requires a >= 0 && b > 0
    ensures Quo(a, b) == a / b
  {
  }

  /** The jitter is at most a quarter of the base either way. */
  lemma WithinAQuarter(base: int, draw: int)
    requires IsInt64(base) && IsDraw(base, draw) && base >= 2 && NoWrap(base)
    ensures 4 * Abs(SleepWithJitter(base, draw).value - base) <= base
  {
  }

  /** Every duration of the range is slept for exactly one draw: the
      jitter covers its interval without gaps, and distinct draws give
      distinct durations. */
  lemma EachDurationHasOneDraw(base: int, actual: int)
    requires IsInt64(base) && base >= 2 && NoWrap(base)
    requires base - Half(base) / 2 <= actual < base + Half(base) - Half(base) / 2
    ensures var draw := actual - base + Half(base) / 2;
      IsDraw(base, draw) && SleepWithJitter(base, draw) == Some(actual)
    ensures forall d | IsDraw(base, d) :: SleepWithJitter(base, d) == Some(actual) ==> d == actual - base + Half(base) / 2
  {
  }

  /** The four bases of the import loops: 1000ms sleeps between 750ms and
      1250ms, 1250ms between 937.5ms and 1562.5ms, 1500ms between 1125ms
      and 1875ms, 1750ms between 1312.5ms and 2187.5ms (upper bounds
      excluded). */
  lemma ImportBases(draw: int)
    ensures IsDraw(1000 * Millisecond, draw) ==>
      750 * Millisecond <= SleepWithJitter(1000 * Millisecond, draw).value < 1250 * Millisecond
    ensures IsDraw(1250 * Millisecond, draw) ==>
      937_500_000 <= SleepWithJitter(1250 * Millisecond, draw).value < 1_562_500_000
    ensures IsDraw(1500 * Millisecond, draw) ==>
      1125 * Millisecond <= SleepWithJitter(1500 * Millisecond, draw).value < 1875 * Millisecond
    ensures IsDraw(1750 * Millisecond, draw) ==>
      1_312_500_000 <= SleepWithJitter(1750 * Millisecond, draw).value < 2_187_500_000
  {
    assert Half(1000 * Millisecond) == 500_000_000;
    assert Half(1250 * Millisecond) == 625_000_000;
    assert Half(1500 * Millisecond) == 750_000_000;
    assert Half(1750 * Millisecond) == 875_000_000;
  }
}
