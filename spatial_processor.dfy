/** The spatial processor: a heading offset plus a rotation-matrix calibration,
    and the pipeline from a validated reading to the point the user points at. */
module Spatial {
  import opened Common
  import opened MathEngine
  import opened Schemas

  /** The direction `process` aims along: the heading corrected by the offset
      when calibrated, converted to a vector, then rotated by the stored matrix
      when there is one. A matrix that is not 3x3 makes `process` fail. */
  function AimDirection(n: Numerics, cal: CalibrationState, offset: real, s: SensorData): (r: Option<Vec>)
    ensures (!cal.isCalibrated || cal.rotationMatrix.None?) ==>
      r == Some(EulerToDirection(n, CorrectedAlpha(cal.isCalibrated, offset, s.alpha), s.beta, s.gamma))
    ensures cal.isCalibrated && cal.rotationMatrix.Some? ==>
      r == ApplyCalibration(n, EulerToDirection(n, CorrectedAlpha(true, offset, s.alpha), s.beta, s.gamma),
                            cal.rotationMatrix.value)
    ensures cal.isCalibrated && cal.rotationMatrix.Some? ==> (r.Some? <==> IsSquare3(cal.rotationMatrix.value))
  {
    var d := EulerToDirection(n, CorrectedAlpha(cal.isCalibrated, offset, s.alpha), s.beta, s.gamma);
    if cal.isCalibrated && cal.GetMatrixNumpy().Some? then ApplyCalibration(n, d, cal.GetMatrixNumpy().value)
    else Some(d)
  }

  /** What `process` returns: a result when the aimed ray reaches the box (the
      hit point, the direction, the calibration flag and the reading echoed),
      and nothing on a miss or a raised error. */
  function ProcessResult(n: Numerics, cal: CalibrationState, offset: real, sensor: SensorData,
                         user: Vector3D, boundsMin: Vector3D, boundsMax: Vector3D): (r: Option<InteractionResult>)
    ensures AimDirection(n, cal, offset, sensor).None? ==> r.None?
    ensures r.Some? ==> r.value.calibrated == cal.isCalibrated && r.value.rawSensor == sensor
    ensures r.Some? ==> RaySpec(n, user.ToNumpy(), AimDirection(n, cal, offset, sensor).value,
                                boundsMin.ToNumpy(), boundsMax.ToNumpy()).Hit?
  {
    var aim := AimDirection(n, cal, offset, sensor);
    if aim.None? then None
    else
      match RaySpec(n, user.ToNumpy(), aim.value, boundsMin.ToNumpy(), boundsMax.ToNumpy())
      case Hit(p, _) =>
        Some(InteractionResult(Vector3D.FromNumpy(p), Vector3D.FromNumpy(aim.value), cal.isCalibrated, sensor))
      case _ => None
  }

  class SpatialProcessor {
    var calibration: CalibrationState
    var alphaOffset: real

    /** Any stored rotation matrix is 3x3. */
    predicate Valid()
      reads this
    {
      calibration.rotationMatrix.Some? ==> IsSquare3(calibration.rotationMatrix.value)
    }

    /** A new processor is uncalibrated with a zero offset. */
    constructor ()
      ensures calibration == DefaultCalibration && alphaOffset == 0.0 && Valid()
    {
      calibration := DefaultCalibration;
      alphaOffset := 0.0;
    }

    /** `calibrate`: store the reading's heading as the offset, aim with the
        corrected heading (which is then 0) and store the rotation onto the
        normalised target. The offset is stored first, so it stays set when the
        later step fails; the model fails where the source would divide by a zero
        target length. */
    method Calibrate(n: Numerics, sensor: SensorData, target: Vector3D) returns (ok: bool)
      requires Valid()
      modifies this
      ensures Valid()
      ensures alphaOffset == sensor.alpha
      ensures ok <==> Magnitude(n, target.ToNumpy()) != 0.0
      ensures ok ==> calibration == CalibrationState(true,
        Some(CalibrationOffset(n, EulerToDirection(n, 0.0, sensor.beta, sensor.gamma), NormalizedTarget(n, target))),
        Some(target))
      ensures !ok ==> calibration == old(calibration)
    {
      alphaOffset := sensor.alpha;
      var correctedAlpha := Mod360(sensor.alpha - alphaOffset);
      CalibratedSampleIsZero(sensor.alpha);
      var currentVector := EulerToDirection(n, correctedAlpha, sensor.beta, sensor.gamma);
      var targetNp := target.ToNumpy();
      var norm := Magnitude(n, targetNp);
      if norm == 0.0 {
        return false;
      }
      var targetNorm: Vec := [targetNp[0] / norm, targetNp[1] / norm, targetNp[2] / norm];
      var rotationMatrix := CalibrationOffset(n, currentVector, targetNorm);
      calibration := CalibrationState(true, Some(rotationMatrix), Some(target));
      return true;
    }

    /** `reset_calibration`: back to the state of a new processor. */
    method ResetCalibration()
      modifies this
      ensures calibration == DefaultCalibration && alphaOffset == 0.0 && Valid()
    {
      calibration := DefaultCalibration;
      alphaOffset := 0.0;
    }

    /** `process`: correct the heading, convert, rotate, intersect, and build the
        result. */
    method Process(n: Numerics, sensor: SensorData, userPosition: Vector3D, boundsMin: Vector3D, boundsMax: Vector3D)
      returns (r: Option<InteractionResult>)
      ensures r == ProcessResult(n, calibration, alphaOffset, sensor, userPosition, boundsMin, boundsMax)
    {
      var correctedAlpha := sensor.alpha;
      if calibration.isCalibrated {
        correctedAlpha := Mod360(sensor.alpha - alphaOffset);
      }
      var direction := EulerToDirection(n, correctedAlpha, sensor.beta, sensor.gamma);
      if calibration.isCalibrated {
        var matrix := calibration.GetMatrixNumpy();
        if matrix.Some? {
          var rotated := ApplyCalibration(n, direction, matrix.value);
          if rotated.None? {
            return None;
          }
          direction := rotated.value;
        }
      }
      assert AimDirection(n, calibration, alphaOffset, sensor) == Some(direction);
      var intersection := RayBoxIntersection(n, userPosition.ToNumpy(), direction, boundsMin.ToNumpy(), boundsMax.ToNumpy());
      if !intersection.Hit? {
        return None;
      }
      return Some(InteractionResult(
        Vector3D.FromNumpy(intersection.point), Vector3D.FromNumpy(direction), calibration.isCalibrated, sensor));
    }
  }

  /** The calibration target scaled to unit length. */
  function NormalizedTarget(n: Numerics, target: Vector3D): Vec
    requires Magnitude(n, target.ToNumpy()) != 0.0
  {
    var t := target.ToNumpy();
    var m := Magnitude(n, t);
    [t[0] / m, t[1] / m, t[2] / m]
  }

  /** A result's direction is the aimed direction, and its intersection is where
      the aimed ray enters the box (or leaves it, when the user stands inside)
      at a non-negative distance: the slab method's full characterisation. */
  lemma ProcessResultSound(n: Numerics, cal: CalibrationState, offset: real, sensor: SensorData,
                           user: Vector3D, boundsMin: Vector3D, boundsMax: Vector3D)
    ensures var r := ProcessResult(n, cal, offset, sensor, user, boundsMin, boundsMax);
      r.Some? ==>
        && AimDirection(n, cal, offset, sensor).Some?
        && r.value.direction.ToNumpy() == AimDirection(n, cal, offset, sensor).value
        && exists t :: RaySound(user.ToNumpy(), NormalizeVector(n, AimDirection(n, cal, offset, sensor).value),
                                boundsMin.ToNumpy(), boundsMax.ToNumpy(), Hit(r.value.intersection.ToNumpy(), t))
  {
    var aim := AimDirection(n, cal, offset, sensor);
    if aim.Some? {
      var o, lo, hi := user.ToNumpy(), boundsMin.ToNumpy(), boundsMax.ToNumpy();
      RaySpecSound(n, o, aim.value, lo, hi);
      var hit := RaySpec(n, o, aim.value, lo, hi);
      if hit.Hit? {
        ArrayRoundTrip(hit.point);
        ArrayRoundTrip(aim.value);
        assert RaySound(o, NormalizeVector(n, aim.value), lo, hi, Hit(hit.point, hit.t));
      }
    }
  }

  /** Conversely, every hit of the aimed ray yields a result, carrying that hit
      point and the aimed direction. */
  lemma ProcessResultComplete(n: Numerics, cal: CalibrationState, offset: real, sensor: SensorData,
                              user: Vector3D, boundsMin: Vector3D, boundsMax: Vector3D)
    ensures var aim := AimDirection(n, cal, offset, sensor);
      aim.Some? && RaySpec(n, user.ToNumpy(), aim.value, boundsMin.ToNumpy(), boundsMax.ToNumpy()).Hit? ==>
        var r := ProcessResult(n, cal, offset, sensor, user, boundsMin, boundsMax);
        && r.Some?
        && r.value.intersection.ToNumpy() == RaySpec(n, user.ToNumpy(), aim.value, boundsMin.ToNumpy(), boundsMax.ToNumpy()).point
        && r.value.direction.ToNumpy() == aim.value
  {
    var aim := AimDirection(n, cal, offset, sensor);
    if aim.Some? {
      var hit := RaySpec(n, user.ToNumpy(), aim.value, boundsMin.ToNumpy(), boundsMax.ToNumpy());
      if hit.Hit? {
        ArrayRoundTrip(hit.point);
        ArrayRoundTrip(aim.value);
      }
    }
  }

  /** Before calibration the stored offset plays no part. */
  lemma UncalibratedIgnoresOffset(n: Numerics, cal: CalibrationState, o1: real, o2: real, sensor: SensorData,
                                  user: Vector3D, boundsMin: Vector3D, boundsMax: Vector3D)
    requires !cal.isCalibrated
    ensures ProcessResult(n, cal, o1, sensor, user, boundsMin, boundsMax)
         == ProcessResult(n, cal, o2, sensor, user, boundsMin, boundsMax)
  {
  }

  /** The roll angle never changes the outcome. */
  lemma ProcessIgnoresGamma(n: Numerics, cal: CalibrationState, offset: real, sensor: SensorData, gamma: real,
                            user: Vector3D, boundsMin: Vector3D, boundsMax: Vector3D)
    ensures var r1 := ProcessResult(n, cal, offset, sensor, user, boundsMin, boundsMax);
            var r2 := ProcessResult(n, cal, offset, sensor.(gamma := gamma), user, boundsMin, boundsMax);
            r1.Some? <==> r2.Some?
    ensures var r1 := ProcessResult(n, cal, offset, sensor, user, boundsMin, boundsMax);
            var r2 := ProcessResult(n, cal, offset, sensor.(gamma := gamma), user, boundsMin, boundsMax);
            r1.Some? ==> r2.Some? && r2.value == r1.value.(rawSensor := sensor.(gamma := gamma))
  {
    EulerIgnoresGamma(n, CorrectedAlpha(cal.isCalibrated, offset, sensor.alpha), sensor.beta, sensor.gamma, gamma);
  }

  /** Once calibrated on a reading, processing that same reading aims along the
      zero-heading direction turned by the stored matrix. */
  lemma CalibratedSampleAim(n: Numerics, sensor: SensorData, m: Matrix, target: Vector3D)
    requires IsSquare3(m)
    ensures AimDirection(n, CalibrationState(true, Some(m), Some(target)), sensor.alpha, sensor)
         == Some(NormalizeVector(n, MatVec(m, EulerToDirection(n, 0.0, sensor.beta, sensor.gamma))))
  {
    CalibratedSampleIsZero(sensor.alpha);
  }

  /** With a valid processor state, the rotation step never raises. */
  lemma ValidStateAims(n: Numerics, cal: CalibrationState, offset: real, sensor: SensorData)
    requires cal.rotationMatrix.Some? ==> IsSquare3(cal.rotationMatrix.value)
    ensures AimDirection(n, cal, offset, sensor).Some?
  {
  }

  /** From a user inside the venue or on its boundary a valid processor always produces a
      result when the square root is genuine at the aimed direction. */
  lemma InsideUserAlwaysHits(n: Numerics, cal: CalibrationState, offset: real, sensor: SensorData,
                             user: Vector3D, boundsMin: Vector3D, boundsMax: Vector3D)
    requires cal.rotationMatrix.Some? ==> IsSquare3(cal.rotationMatrix.value)
    requires boundsMin.x <= user.x <= boundsMax.x && boundsMin.y <= user.y <= boundsMax.y && boundsMin.z <= user.z <= boundsMax.z
    requires ExactSqrtAt(n, NormSq(AimDirection(n, cal, offset, sensor).value))
    ensures ProcessResult(n, cal, offset, sensor, user, boundsMin, boundsMax).Some?
  {
    var aim := AimDirection(n, cal, offset, sensor);
    InsideOriginHits(n, user.ToNumpy(), aim.value, boundsMin.ToNumpy(), boundsMax.ToNumpy());
  }

  /** Uncalibrated, a level reading at heading 0 from (5, 5, 1) in the 10 x 10 x 4
      venue hits the back wall at (5, 10, 1) and reports `calibrated = false`. */
  lemma ForwardReadingHitsBackWall(n: Numerics, s: SensorData)
    requires n.sin(0.0) == 0.0 && n.cos(0.0) == 1.0 && n.sqrt(1.0) == 1.0
    requires s.alpha == 0.0 && s.beta == 0.0
    ensures var r := ProcessResult(n, DefaultCalibration, 0.0, s, Vector3D(5.0, 5.0, 1.0),
                                   Vector3D(0.0, 0.0, 0.0), Vector3D(10.0, 10.0, 4.0));
      r.Some? && r.value.intersection == Vector3D(5.0, 10.0, 1.0) && !r.value.calibrated
  {
    EulerForward(n, s.gamma);
    RayHitsBackWall(n);
  }

  /** Uncalibrated, a reading pointing straight up from a user on the ceiling
      still produces a result: the user's own position. */
  lemma CeilingUserPointingUp(n: Numerics, s: SensorData)
    requires n.sin(Pi / 2.0) == 1.0 && n.cos(Pi / 2.0) == 0.0
    requires n.sin(0.0) == 0.0 && n.cos(0.0) == 1.0 && n.sqrt(1.0) == 1.0
    requires s.alpha == 0.0 && s.beta == 90.0
    ensures var r := ProcessResult(n, DefaultCalibration, 0.0, s, Vector3D(5.0, 5.0, 4.0),
                                   Vector3D(0.0, 0.0, 0.0), Vector3D(10.0, 10.0, 4.0));
      r.Some? && r.value.intersection == Vector3D(5.0, 5.0, 4.0)
  {
    EulerUp(n, s.gamma);
    RayLeavingCeilingHitsStart(n);
  }

  /** Calibrating on heading 90 towards +Y and processing that reading again
      hits the back wall: the offset cancels the heading, and the current and
      target directions then coincide, so the stored rotation is the identity. */
  lemma CalibrateThenProcessHitsBackWall(n: Numerics, s: SensorData)
    requires n.sin(0.0) == 0.0 && n.cos(0.0) == 1.0 && n.sqrt(1.0) == 1.0
    requires s.beta == 0.0
    ensures Magnitude(n, Vector3D(0.0, 1.0, 0.0).ToNumpy()) != 0.0
    ensures var cal := CalibrationState(true,
              Some(CalibrationOffset(n, EulerToDirection(n, 0.0, s.beta, s.gamma), NormalizedTarget(n, Vector3D(0.0, 1.0, 0.0)))),
              Some(Vector3D(0.0, 1.0, 0.0)));
            var r := ProcessResult(n, cal, s.alpha, s, Vector3D(5.0, 5.0, 1.0), Vector3D(0.0, 0.0, 0.0), Vector3D(10.0, 10.0, 4.0));
            r.Some? && r.value.intersection.y == 10.0 && r.value.calibrated
  {
    var fwd: Vec := [0.0, 1.0, 0.0];
    EulerForward(n, s.gamma);
    assert NormSq(fwd) == 1.0;
    assert NormalizedTarget(n, Vector3D(0.0, 1.0, 0.0)) == fwd;
    SelfAlignmentIsIdentity(n, fwd);
    assert MatVec(Identity, fwd) == fwd;
    CalibratedSampleAim(n, s, Identity, Vector3D(0.0, 1.0, 0.0));
    RayHitsBackWall(n);
  }
}
