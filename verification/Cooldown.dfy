// The saturating doubling curve shared by dial cooldowns, pair cooldowns and
// rotation retries, over 64-bit durations.
module Cooldown {
  import opened Common

  const MAX_INT64: int := 0x7fff_ffff_ffff_ffff

  // A signed 64-bit count of nanoseconds: every arithmetic step on it is
  // checked to stay inside the range.
  newtype Duration = x: int | -0x8000_0000_0000_0000 <= x <= 0x7fff_ffff_ffff_ffff

  ghost function Pow2(n: nat): nat {
    if n == 0 then 1 else 2 * Pow2(n - 1)
  }

  /** How often the base is doubled for a streak of `failures`. */
  function Doublings(failures: int): nat {
    if failures < 1 then 0 else failures - 1
  }

  /** The curve as the documentation states it: base doubled per consecutive
      failure, capped at max; nothing for a non-positive bound. */
  ghost function Saturated(base: int, max: int, failures: int): int {
    if base <= 0 || max <= 0 then 0 else Min(max, base * Pow2(Doublings(failures)))
  }

  lemma {:induction false} Pow2Grows(a: nat, b: nat)
    requires a <= b
    ensures Pow2(a) <= Pow2(b)
    decreases b - a
  {
    if a < b {
      Pow2Grows(a, b - 1);
    }
  }

  lemma ScaleMonotone(base: int, x: int, y: int)
    requires 0 < base && x <= y
    ensures base * x <= base * y
  {
    assert base * y - base * x == base * (y - x);
  }

  lemma Pow2Byte(n: nat)
    ensures Pow2(n + 8) == 256 * Pow2(n)
  {
    assert Pow2(n + 2) == 4 * Pow2(n);
    assert Pow2(n + 4) == 4 * Pow2(n + 2);
    assert Pow2(n + 6) == 4 * Pow2(n + 4);
  }

  lemma DoublingsBeyondRange()
    ensures Pow2(64) > MAX_INT64
  {
    assert Pow2(8) == 256;
    Pow2Byte(8);
    Pow2Byte(16);
    Pow2Byte(24);
    Pow2Byte(32);
    Pow2Byte(40);
    Pow2Byte(48);
    Pow2Byte(56);
  }

  lemma ReachesMax(base: int, max: int, failures: int, doublings: nat)
    requires 0 < base && 0 < max
    requires doublings <= Doublings(failures) && max <= base * Pow2(doublings)
    ensures Saturated(base, max, failures) == max
  {
    Pow2Grows(doublings, Doublings(failures));
    ScaleMonotone(base, Pow2(doublings), Pow2(Doublings(failures)));
  }

  // No step overflows: `cd * 2` is an operation on Duration. The second guard
  // of the loop never decides anything, since cd <= max/2 <= MAX_INT64/2.
  method SaturatingCooldown(base: Duration, max: Duration, failures: int) returns (cd: Duration)
    ensures cd as int == Saturated(base as int, max as int, failures)
  {
    if base <= 0 || max <= 0 {
      return 0;
    }
    if base >= max {
      ReachesMax(base as int, max as int, failures, 0);
      return max;
    }
    cd := base;
    var shift := failures - 1;
    if shift < 0 {
      shift := 0;
    }
    if shift > 63 {
      DoublingsBeyondRange();
      ScaleMonotone(Pow2(64), 1, base as int);
      ReachesMax(base as int, max as int, failures, 64);
      return max;
    }
    var i := 0;
    while i < shift
      invariant 0 <= i <= shift
      invariant 0 < cd <= max && cd as int == base as int * Pow2(i)
    {
      assert base as int * Pow2(i + 1) == 2 * (base as int * Pow2(i));
      if cd > max / 2 {
        ReachesMax(base as int, max as int, failures, i + 1);
        return max;
      }
      assert cd as int <= MAX_INT64 / 2;
      cd := cd * 2;
      i := i + 1;
    }
  }

  /** When a cooldown ends, on the clock that counts nanoseconds in 64 bits: the
      difference of two times saturates at the last instant. */
  function EndOf(now: int, cd: int): int {
    Min(now + cd, MAX_INT64)
  }

  /** A longer streak never waits less. */
  lemma SaturatedMonotone(base: int, max: int, shorter: int, longer: int)
    requires shorter <= longer
    ensures Saturated(base, max, shorter) <= Saturated(base, max, longer)
  {
    if 0 < base && 0 < max {
      Pow2Grows(Doublings(shorter), Doublings(longer));
      ScaleMonotone(base, Pow2(Doublings(shorter)), Pow2(Doublings(longer)));
    }
  }

  /** A real streak with positive bounds always waits, and never past the cap. */
  lemma SaturatedRange(base: int, max: int, failures: int)
    requires 0 < base && 0 < max
    ensures Min(base, max) <= Saturated(base, max, failures) <= max
  {
    Pow2Grows(0, Doublings(failures));
    ScaleMonotone(base, 1, Pow2(Doublings(failures)));
  }

  /** Conversion of a float to a duration. Outside the 64-bit range the result
      is whatever the platform yields, here `undefined`. */
  function FromFloat(x: real, undefined: Duration): Duration {
    var t := if x >= 0.0 then x.Floor else -(-x).Floor;
    if -MAX_INT64 - 1 <= t <= MAX_INT64 then t as Duration else undefined
  }

  /** The out-of-range results of the common processors: the least value, or
      the greatest one. */
  predicate Platform(undefined: Duration) {
    undefined as int == -MAX_INT64 - 1 || undefined as int == MAX_INT64
  }

  // The random factor in [0, 1) and the out-of-range conversion result are
  // parameters: every promise holds for all of them.
  method BackoffFor(interval: Duration, consecutive: int, max: Duration, factor: real, undefined: Duration)
      returns (wait: Duration)
    requires 0.0 <= factor < 1.0
    ensures 0 < max ==> 0 < wait <= max
    ensures var base := Saturated(if interval <= 0 then SECOND as int else interval as int, max as int, consecutive);
            0 < max && (base * 11 <= MAX_INT64 * 10 || Platform(undefined)) ==>
              base * 9 / 10 <= wait as int <= Min(max as int, base * 11 / 10)
  {
    var step := if interval <= 0 then SECOND else interval;
    var streak := if consecutive < 1 then 1 else consecutive;
    var base := SaturatingCooldown(step, max, streak);
    if 0 < max {
      SaturatedRange(step as int, max as int, streak);
    }
    var jittered := FromFloat((base as int) as real * (0.9 + 0.2 * factor), undefined);
    JitterRange(base as int, factor);
    if jittered <= 0 {
      return base;
    }
    if jittered > max {
      return max;
    }
    return jittered;
  }

  const SECOND: Duration := 1_000_000_000

  lemma JitterProduct(b: real, f: real)
    requires 0.0 <= f <= 0.2 && 0.0 <= b
    ensures 0.9 * b <= b * (0.9 + f) <= 1.1 * b
  {
    var up, down := 0.2 - f, f;
    assert 0.0 <= b * up && 0.0 <= b * down;
    assert b * (0.9 + down) == b * 0.9 + b * down;
    assert b * (1.1 - up) == b * 1.1 - b * up;
  }

  /** The jittered value stays within ten percent of the base, rounded down. */
  lemma JitterRange(base: int, factor: real)
    requires 0.0 <= factor < 1.0 && 0 <= base
    ensures base * 9 / 10 <= (base as real * (0.9 + 0.2 * factor)).Floor <= base * 11 / 10
  {
    var f := 0.2 * factor;
    JitterProduct(base as real, f);
    FloorRange(base, base as real * (0.9 + f));
  }

  lemma FloorRange(base: int, x: real)
    requires 0.9 * base as real <= x <= 1.1 * base as real
    ensures base * 9 / 10 <= x.Floor <= base * 11 / 10
  {
    assert (base * 9 / 10) as real <= x;
    assert x < (base * 11 / 10 + 1) as real;
  }

  /** A retry wait: never past the ceiling, never short of the provider's hint
      below it, and otherwise within ten percent of the doubling backoff. */
  ghost predicate IsRetryWait(wait: Duration, hint: Duration, interval: Duration, consecutive: int, ceiling: Duration,
                              undefined: Duration) {
    var base := Saturated(if interval <= 0 then SECOND as int else interval as int, ceiling as int, consecutive);
    0 < wait <= ceiling && Min(hint as int, ceiling as int) <= wait as int &&
    (base * 11 <= MAX_INT64 * 10 || Platform(undefined) ==>
      base * 9 / 10 <= wait as int <= Max(hint as int, base * 11 / 10))
  }

  // The wait set after an attempt that did not change the egress IP: a
  // provider hint may extend the backoff, never past the ceiling.
  method RetryWait(hint: Duration, interval: Duration, consecutive: int, ceiling: Duration, factor: real,
                   undefined: Duration)
      returns (wait: Duration)
    requires 0.0 <= factor < 1.0 && 0 < ceiling
    ensures IsRetryWait(wait, hint, interval, consecutive, ceiling, undefined)
  {
    SaturatedRange(if interval <= 0 then SECOND as int else interval as int, ceiling as int, consecutive);
    var backoff := BackoffFor(interval, consecutive, ceiling, factor, undefined);
    var extended := if hint > backoff then hint else backoff;
    wait := if extended < ceiling then extended else ceiling;
  }
}
