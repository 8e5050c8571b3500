/**
  The bounded random draws of scene_generator/utils.py. Each call into Python's
  `random` module becomes a parameter: the underlying `random()` value
  (`t` in `[0, 1]` where the endpoint may be reached, `r` in `[0, 1)` otherwise).
 */
module Draws {
  import opened Wrappers
  import opened Values

  /** `random.uniform(lo, hi)` with the underlying `random()` draw `t` passed in. */
  function Uniform(lo: real, hi: real, t: real): real {
    lo + (hi - lo) * t
  }

  function Abs(x: real): real {
    if x < 0.0 then -x else x
  }

  /** The numeric core of `generate_random_height`: the mean jittered by at most `|std|`. */
  function Jitter(mean: real, std: real, t: real): (h: real)
    requires 0.0 <= t <= 1.0
    ensures mean - Abs(std) <= h <= mean + Abs(std)
  {
    var u := Uniform(-std, std, t);
    assert -Abs(std) <= u <= Abs(std) by {
      if std >= 0.0 {
        assert 0.0 <= 2.0 * std * t <= 2.0 * std;
      } else {
        assert 2.0 * std <= 2.0 * std * t <= 0.0;
      }
    }
    mean + u
  }

  /** Scaling a non-negative length by a fraction below 1 stays within the length. */
  lemma ScaleBelow(r: real, d: real)
    requires 0.0 <= r < 1.0 && 0.0 <= d
    ensures 0.0 <= r * d <= d
    ensures 0.0 < d ==> r * d < d
  {
  }

  /** The side length `random()*(b-a)+a` used by the mesh helpers. */
  function RandomExtent(a: real, b: real, r: real): (e: real)
    requires a <= b && 0.0 <= r < 1.0
    ensures a <= e <= b
    ensures a < b ==> e < b
  {
    var d := b - a;
    ScaleBelow(r, d);
    r * d + a
  }

  /** The argument of `generate_random_height` that failed its type check. */
  datatype HeightArg = Mean | Std

  /**
    `generate_random_height(mean, std)`: both arguments must be numbers (a
    `TypeError` naming the first offender otherwise); the result is the mean
    moved by a uniform draw from between `-std` and `std`.
   */
  function GenerateRandomHeight(mean: Value, std: Value, t: real): (r: Result<real, HeightArg>)
    requires 0.0 <= t <= 1.0
    ensures r.Success? <==> IsNumber(mean) && IsNumber(std)
    ensures r.Failure? ==> (r.error == Mean <==> !IsNumber(mean))
    ensures r.Success? ==> AsReal(mean) - Abs(AsReal(std)) <= r.value <= AsReal(mean) + Abs(AsReal(std))
  {
    if !IsNumber(mean) then Failure(Mean)
    else if !IsNumber(std) then Failure(Std)
    else Success(Jitter(AsReal(mean), AsReal(std), t))
  }
}
