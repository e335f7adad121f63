/** The data contracts exchanged by the pipeline: 3D vectors, validated sensor
    readings, the calibration state and the interaction result with its broadcast
    form. */
module Schemas {
  import opened Common
  import opened MathEngine

  // ---------------------------------------------------------------------------
  // Vector3D
  // ---------------------------------------------------------------------------

  /** An immutable point or direction in the Z-up venue frame. */
  datatype Vector3D = Vector3D(x: real, y: real, z: real)
  {
    /** `to_numpy` (and `to_list`): the components in x, y, z order. */
    function ToNumpy(): (r: Vec)
      ensures r[0] == x && r[1] == y && r[2] == z
    {
      [x, y, z]
    }

    /** `from_numpy`: the first three entries of an array; any further entries
        are ignored. */
    static function FromNumpy(arr: seq<real>): (r: Vector3D)
      requires |arr| >= 3
      ensures r.ToNumpy() == arr[..3]
    {
      Vector3D(arr[0], arr[1], arr[2])
    }
  }

  /** Converting to an array and back gives the same vector. */
  lemma VectorRoundTrip(v: Vector3D)
    ensures Vector3D.FromNumpy(v.ToNumpy()) == v
  {
  }

  /** Converting a 3-array to a vector and back gives the same array. */
  lemma ArrayRoundTrip(a: Vec)
    ensures Vector3D.FromNumpy(a).ToNumpy() == a
  {
    assert a[..3] == a;
  }

  // ---------------------------------------------------------------------------
  // SensorData
  // ---------------------------------------------------------------------------

  /** A validated orientation reading: heading, pitch and roll in degrees. */
  datatype SensorData = SensorData(alpha: real, beta: real, gamma: real, timestamp: Option<real>)

  datatype AngleField = Alpha | Beta | Gamma

  /** A field as it arrives: absent, an explicit null, or a number. */
  datatype RawValue = Missing | Null | Number(x: real)

  /** The validation errors, one per offending field: an absent field, a null
      rejected by the coercing validator, and a value outside the field's bounds. */
  datatype FieldError = Required(field: AngleField) | NoneValue(field: AngleField) | OutOfRange(field: AngleField, value: real)

  /** The inclusive bounds of each angle: alpha in [0, 360], beta in [-180, 180],
      gamma in [-90, 90]. */
  predicate InBounds(f: AngleField, x: real) {
    match f
    case Alpha => 0.0 <= x <= 360.0
    case Beta => -180.0 <= x <= 180.0
    case Gamma => -90.0 <= x <= 90.0
  }

  predicate Acceptable(f: AngleField, v: RawValue) {
    v.Number? && InBounds(f, v.x)
  }

  /** The error a single field raises, if any. */
  function CheckField(f: AngleField, v: RawValue): (r: Option<FieldError>)
    ensures r.None? <==> Acceptable(f, v)
    ensures r.Some? ==> r.value.field == f
  {
    match v
    case Missing => Some(Required(f))
    case Null => Some(NoneValue(f))
    case Number(x) => if InBounds(f, x) then None else Some(OutOfRange(f, x))
  }

  function ErrorList(e: Option<FieldError>): seq<FieldError> {
    if e.Some? then [e.value] else []
  }

  /** True when some error in `errors` concerns field `f`. */
  predicate Reported(errors: seq<FieldError>, f: AngleField) {
    exists k :: 0 <= k < |errors| && errors[k].field == f
  }

  /** Building a `SensorData`: every field is checked and all errors are reported
      together, in field order; the reading is accepted exactly when the three
      angles are present numbers within their bounds. The timestamp is optional. */
  function ValidateSensorData(alpha: RawValue, beta: RawValue, gamma: RawValue, timestamp: Option<real>)
    : (r: Result<SensorData, seq<FieldError>>)
    ensures r.Success? <==> Acceptable(Alpha, alpha) && Acceptable(Beta, beta) && Acceptable(Gamma, gamma)
    ensures r.Success? ==> r.value == SensorData(alpha.x, beta.x, gamma.x, timestamp)
    ensures r.Failure? ==> 1 <= |r.error| <= 3
    ensures r.Failure? ==>
      && (Reported(r.error, Alpha) <==> !Acceptable(Alpha, alpha))
      && (Reported(r.error, Beta) <==> !Acceptable(Beta, beta))
      && (Reported(r.error, Gamma) <==> !Acceptable(Gamma, gamma))
  {
    var ea, eb, eg := CheckField(Alpha, alpha), CheckField(Beta, beta), CheckField(Gamma, gamma);
    var errors := ErrorList(ea) + ErrorList(eb) + ErrorList(eg);
    if errors == [] then Success(SensorData(alpha.x, beta.x, gamma.x, timestamp))
    else
      assert forall k :: 0 <= k < |errors| ==> errors[k] in ErrorList(ea) || errors[k] in ErrorList(eb) || errors[k] in ErrorList(eg);
      assert ea.Some? ==> errors[0] == ea.value;
      assert eb.Some? ==> errors[|ErrorList(ea)|] == eb.value;
      assert eg.Some? ==> errors[|errors| - 1] == eg.value;
      Failure(errors)
  }

  /** A reading that satisfies the bounds is accepted unchanged. */
  lemma ValidReadingAccepted(s: SensorData)
    requires InBounds(Alpha, s.alpha) && InBounds(Beta, s.beta) && InBounds(Gamma, s.gamma)
    ensures ValidateSensorData(Number(s.alpha), Number(s.beta), Number(s.gamma), s.timestamp) == Success(s)
  {
  }

  /** The documented example reading is accepted, a heading of 400 and a pitch of
      200 are rejected, and a null heading is rejected by the coercing validator. */
  lemma SensorValidationExamples()
    ensures ValidateSensorData(Number(180.0), Number(45.0), Number(0.0), Some(1703073600000.0)).Success?
    ensures ValidateSensorData(Number(400.0), Number(0.0), Number(0.0), None) == Failure([OutOfRange(Alpha, 400.0)])
    ensures ValidateSensorData(Number(0.0), Number(200.0), Number(0.0), None) == Failure([OutOfRange(Beta, 200.0)])
    ensures ValidateSensorData(Null, Number(0.0), Number(0.0), None) == Failure([NoneValue(Alpha)])
    ensures ValidateSensorData(Number(360.0), Number(-180.0), Number(90.0), None).Success?
  {
    assert ErrorList(CheckField(Alpha, Number(400.0))) + [] + [] == [OutOfRange(Alpha, 400.0)];
    assert [] + ErrorList(CheckField(Beta, Number(200.0))) + [] == [OutOfRange(Beta, 200.0)];
    assert ErrorList(CheckField(Alpha, Null)) + [] + [] == [NoneValue(Alpha)];
  }

  // ---------------------------------------------------------------------------
  // CalibrationState
  // ---------------------------------------------------------------------------

  /** Whether the matrix calibration is active, its rotation matrix and the target
      it was aligned with. */
  datatype CalibrationState = CalibrationState(
    isCalibrated: bool,
    rotationMatrix: Option<Matrix>,
    targetDirection: Option<Vector3D>)
  {
    /** `get_matrix_numpy`: the stored matrix, or nothing when none is stored. */
    function GetMatrixNumpy(): (r: Option<Matrix>)
      ensures r.None? <==> rotationMatrix.None?
    {
      rotationMatrix
    }
  }

  /** The state a fresh `CalibrationState()` has. */
  const DefaultCalibration: CalibrationState := CalibrationState(false, None, None)

  /** A fresh calibration state is uncalibrated with no matrix and no target; a
      state built with the identity matrix hands back a 3x3 matrix. */
  lemma CalibrationStateDefaults()
    ensures !DefaultCalibration.isCalibrated
    ensures DefaultCalibration.GetMatrixNumpy() == None && DefaultCalibration.targetDirection == None
    ensures var cal := CalibrationState(true, Some(Identity), Some(Vector3D(0.0, 1.0, 0.0)));
      cal.GetMatrixNumpy().Some? && IsSquare3(cal.GetMatrixNumpy().value)
  {
  }

  // ---------------------------------------------------------------------------
  // InteractionResult
  // ---------------------------------------------------------------------------

  /** The processing output: where the ray meets the venue, the pointing
      direction, whether calibration was active and the reading it came from. */
  datatype InteractionResult = InteractionResult(
    intersection: Vector3D,
    direction: Vector3D,
    calibrated: bool,
    rawSensor: SensorData)

  /** The sensor block of a broadcast from a validated reading. */
  datatype SensorEcho = SensorEcho(alpha: real, beta: real, gamma: real, timestamp: Option<real>)

  /** The `state_update` message sent to every client; `S` is the shape of its
      sensor block. */
  datatype StateUpdate<S> = StateUpdate(
    kind: string,
    sensor: S,
    direction: seq<real>,
    intersection: seq<real>,
    calibrated: bool)

  const StateUpdateKind: string := "state_update"

  /** `to_broadcast_dict`: the result in the wire protocol. */
  function ToBroadcastDict(res: InteractionResult): (r: StateUpdate<SensorEcho>)
    ensures r.kind == StateUpdateKind
    ensures |r.direction| == 3 && |r.intersection| == 3
    ensures r.calibrated == res.calibrated
    ensures FromBroadcast(r) == Some(res)
  {
    var s := res.rawSensor;
    StateUpdate(StateUpdateKind, SensorEcho(s.alpha, s.beta, s.gamma, s.timestamp),
                res.direction.ToNumpy(), res.intersection.ToNumpy(), res.calibrated)
  }

  /** What a client decodes from a message: a result when the message is a
      `state_update` whose pointer lists hold three numbers each. */
  function FromBroadcast(m: StateUpdate<SensorEcho>): Option<InteractionResult> {
    if m.kind == StateUpdateKind && |m.direction| == 3 && |m.intersection| == 3 then
      Some(InteractionResult(
        Vector3D.FromNumpy(m.intersection),
        Vector3D.FromNumpy(m.direction),
        m.calibrated,
        SensorData(m.sensor.alpha, m.sensor.beta, m.sensor.gamma, m.sensor.timestamp)))
    else None
  }

  /** Decoding a well-formed message and encoding it again reproduces it, so the
      broadcast form loses nothing. */
  lemma BroadcastDecodeEncode(m: StateUpdate<SensorEcho>)
    requires FromBroadcast(m).Some?
    ensures ToBroadcastDict(FromBroadcast(m).value) == m
  {
    assert m.direction[..3] == m.direction;
    assert m.intersection[..3] == m.intersection;
  }
}
