/** Value types shared by every module of the model: optional values, results of
    operations that can raise, 3-component numeric arrays, and Python's float `%`
    as the heading arithmetic uses it. */
module Common {

  datatype Option<+T> = None | Some(value: T)

  /** An operation that either produces a value or raises the error it carries. */
  datatype Result<+T, +E> = Success(value: T) | Failure(error: E)

  /** An operation that either completes or raises the error it carries. */
  datatype Outcome<+E> = Pass | Fail(error: E)

  /** A numpy array of shape (3,), in x, y, z order. */
  type Vec = v: seq<real> | |v| == 3 witness [0.0, 0.0, 0.0]

  function Abs(x: real): real { if x < 0.0 then -x else x }

  /** True when `q` is a whole number. */
  predicate IsWhole(q: real) { q == q.Floor as real }

  /** `x % 360` as Python evaluates it on floats: the remainder takes the sign of
      the divisor, so it always lies in [0, 360) and differs from `x` by a whole
      number of turns. */
  function Mod360(x: real): (r: real)
    ensures 0.0 <= r < 360.0
    ensures IsWhole((x - r) / 360.0)
  {
    x - 360.0 * (x / 360.0).Floor as real
  }

  /** The two properties of Mod360 determine it: any value in [0, 360) that
      differs from `x` by whole turns is `x % 360`. */
  lemma {:induction false} Mod360Unique(x: real, y: real)
    requires 0.0 <= y < 360.0
    requires IsWhole((x - y) / 360.0)
    ensures Mod360(x) == y
  {
    var k := ((x - y) / 360.0).Floor;
    assert x / 360.0 == k as real + y / 360.0;
    assert 0.0 <= y / 360.0 < 1.0;
    assert (x / 360.0).Floor == k;
  }

  /** A heading already in [0, 360) is left alone by `% 360`. */
  lemma Mod360InRange(x: real)
    requires 0.0 <= x < 360.0
    ensures Mod360(x) == x
  {
    Mod360Unique(x, x);
  }

  /** The heading the scalar yaw calibration produces: `(raw - offset) % 360`
      once calibrated, the raw heading untouched before. */
  function CorrectedAlpha(calibrated: bool, offset: real, raw: real): (r: real)
    ensures calibrated ==> 0.0 <= r < 360.0 && IsWhole((raw - offset - r) / 360.0)
    ensures !calibrated ==> r == raw
  {
    if calibrated then Mod360(raw - offset) else raw
  }

  /** Calibrating on a sample and then correcting that same sample yields heading 0. */
  lemma CalibratedSampleIsZero(a: real)
    ensures CorrectedAlpha(true, a, a) == 0.0
  {
    Mod360Unique(a - a, 0.0);
  }

  /** After calibrating at heading 200, a reading of 210 is corrected to 10, and a
      reading of 190 wraps round to 350. */
  lemma CorrectedAlphaExamples()
    ensures CorrectedAlpha(true, 200.0, 210.0) == 10.0
    ensures CorrectedAlpha(true, 200.0, 190.0) == 350.0
  {
    Mod360Unique(10.0, 10.0);
    Mod360Unique(-10.0, 350.0);
  }
}
