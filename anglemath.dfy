/** Wraparound-aware angle arithmetic shared by the streaming analyzer and the CSV extractor. */
module AngleMath {

  /** `k` whole turns, in degrees. */
  function Turns(k: int): real
  {
    360.0 * k as real
  }

  /** `x.rem_euclid(360.0)`: the representative of `x` modulo 360 in [0, 360). */
  function RemEuclid360(x: real): (r: real)
    ensures 0.0 <= r < 360.0
    ensures exists k: int :: r == x - Turns(k)
  {
    var q := (x / 360.0).Floor;
    assert x - Turns(q) == x - Turns(q);
    x - Turns(q)
  }

  /**
   * `calculate_angle_delta(current, previous)`: the signed shortest turn from
   * `previous` to `current`, the one value in (-180, 180] that differs from
   * `current - previous` by a whole number of turns.
   */
  function YawDelta(current: real, previous: real): (d: real)
    ensures -180.0 < d <= 180.0
    ensures exists k: int :: d == current - previous - Turns(k)
  {
    var diff := RemEuclid360(current - previous);
    var k: int :| diff == current - previous - Turns(k);
    if diff > 180.0 then
      assert diff - 360.0 == current - previous - Turns(k + 1);
      diff - 360.0
    else diff
  }

  /** Two values in (-180, 180] that differ by a whole number of turns are equal. */
  lemma {:induction false} WrappedUnique(d: real, e: real, k: int)
    requires -180.0 < d <= 180.0 && -180.0 < e <= 180.0
    requires d - e == Turns(k)
    ensures d == e
  {
    assert -360.0 < d - e < 360.0;
  }

  /** The yaw delta is determined by the turn it represents: a whole turn added to either angle changes nothing. */
  lemma YawDeltaPeriodic(current: real, previous: real, n: int)
    ensures YawDelta(current + Turns(n), previous) == YawDelta(current, previous)
  {
    var d := YawDelta(current, previous);
    var e := YawDelta(current + Turns(n), previous);
    var k: int :| d == current - previous - Turns(k);
    var j: int :| e == current + Turns(n) - previous - Turns(j);
    assert e - d == Turns(n - j + k);
    WrappedUnique(e, d, n - j + k);
  }

  /** Reversing the two angles reverses the turn, except for a half turn, which stays +180. */
  lemma YawDeltaAntisymmetric(current: real, previous: real)
    requires YawDelta(current, previous) != 180.0
    ensures YawDelta(previous, current) == -YawDelta(current, previous)
  {
    var d := YawDelta(current, previous);
    var e := YawDelta(previous, current);
    var k: int :| d == current - previous - Turns(k);
    var j: int :| e == previous - current - Turns(j);
    assert e - (-d) == Turns(-j - k);
    WrappedUnique(e, -d, -j - k);
  }
}
