/** The server's application state and its two pieces of processing logic: the
    scalar heading calibration and the pipeline from a raw sensor dictionary to
    the `state_update` broadcast. */
module Server {
  import opened Common
  import opened MathEngine
  import opened Schemas
  import opened Venue
  import opened WebSocket
  import Spatial

  /** A venue point as a 3-array. */
  function PointVec(p: Point): (r: Vec)
    ensures r[0] == p.0 && r[1] == p.1 && r[2] == p.2
  {
    [p.0, p.1, p.2]
  }

  /** True when the dictionary carries the three angles the pipeline reads. */
  predicate HasAngles(data: SensorDict) {
    "alpha" in data && "beta" in data && "gamma" in data
  }

  /** The direction the server aims along: the raw heading, or the heading less
      the stored offset and reduced to [0, 360) once calibrated; no rotation
      matrix is applied. Calibrating on a reading and then processing that same
      reading aims along heading 0, whatever the heading was. */
  function ServerAim(n: Numerics, calibrated: bool, offset: real, data: SensorDict): (r: Vec)
    requires HasAngles(data)
    ensures calibrated && offset == data["alpha"] ==> r == EulerToDirection(n, 0.0, data["beta"], data["gamma"])
    ensures !calibrated ==> r == EulerToDirection(n, data["alpha"], data["beta"], data["gamma"])
  {
    CalibratedSampleIsZero(data["alpha"]);
    EulerToDirection(n, CorrectedAlpha(calibrated, offset, data["alpha"]), data["beta"], data["gamma"])
  }

  /** The pointer `process_sensor_data` computes: the aimed direction and the
      point where it meets the venue, or nothing when an angle is missing or the
      ray misses or cannot be computed. */
  function ServerPointer(n: Numerics, calibrated: bool, offset: real, data: SensorDict, user: Point, bounds: Bounds)
    : (r: Option<(Vec, Vec)>)
    ensures !HasAngles(data) ==> r.None?
    ensures r.Some? ==> HasAngles(data) && r.value.0 == ServerAim(n, calibrated, offset, data)
  {
    if !HasAngles(data) then None
    else
      var d := ServerAim(n, calibrated, offset, data);
      match RaySpec(n, PointVec(user), d, PointVec(bounds.min), PointVec(bounds.max))
      case Hit(p, _) => Some((d, p))
      case _ => None
  }

  class AppState {
    const venue: VenueManager
    const websocket: WebSocketHandler
    var isCalibrated: bool
    var alphaOffset: real
    var lastPointerPosition: Option<Vec>
    var lastSensorData: Option<SensorDict>

    /** The default venue, a three-sample latency buffer, no calibration and no
        last state. */
    constructor ()
      ensures venue.Config() == DefaultSettings && venue.Valid()
      ensures websocket.latencyBuffer.bufferSize == 3 && websocket.latencyBuffer.samples == []
      ensures !isCalibrated && alphaOffset == 0.0
      ensures lastPointerPosition == None && lastSensorData == None
    {
      EmptyDictIsDefault();
      venue := new VenueManager(DefaultSettings);
      websocket := new WebSocketHandler(3);
      isCalibrated := false;
      alphaOffset := 0.0;
      lastPointerPosition := None;
      lastSensorData := None;
    }

    /** `reset_calibration`: uncalibrated with a zero offset; the last state is kept. */
    method ResetCalibration()
      modifies this
      ensures !isCalibrated && alphaOffset == 0.0
      ensures lastPointerPosition == old(lastPointerPosition) && lastSensorData == old(lastSensorData)
    {
      isCalibrated := false;
      alphaOffset := 0.0;
    }

    /** `perform_calibration`: the reading's heading becomes the new north. A
        dictionary without a heading fails and changes nothing. */
    method PerformCalibration(data: SensorDict) returns (ok: bool)
      modifies this
      ensures ok <==> "alpha" in data
      ensures ok ==> isCalibrated && alphaOffset == data["alpha"]
      ensures !ok ==> isCalibrated == old(isCalibrated) && alphaOffset == old(alphaOffset)
      ensures lastPointerPosition == old(lastPointerPosition) && lastSensorData == old(lastSensorData)
    {
      if "alpha" !in data {
        return false;
      }
      alphaOffset := data["alpha"];
      isCalibrated := true;
      return true;
    }

    /** `process_sensor_data`: correct the heading, aim, intersect with the venue
        from the user position, remember the pointer and the reading, and build
        the broadcast. On a missing angle or a miss nothing is remembered. */
    method ProcessSensorData(n: Numerics, data: SensorDict) returns (r: Option<StateUpdate<SensorDict>>)
      modifies this
      ensures var ptr := ServerPointer(n, isCalibrated, alphaOffset, data, venue.GetUserPosition(), venue.GetBounds());
        && (r.Some? <==> ptr.Some?)
        && (r.Some? ==> r.value == StateUpdate(StateUpdateKind, data, ptr.value.0, ptr.value.1, isCalibrated))
      ensures r.Some? ==> lastPointerPosition == Some(r.value.intersection) && lastSensorData == Some(data)
      ensures r.None? ==> lastPointerPosition == old(lastPointerPosition) && lastSensorData == old(lastSensorData)
      ensures isCalibrated == old(isCalibrated) && alphaOffset == old(alphaOffset)
    {
      if !HasAngles(data) {
        return None;
      }
      var rawAlpha := data["alpha"];
      var alpha := rawAlpha;
      if isCalibrated {
        alpha := Mod360(rawAlpha - alphaOffset);
      }
      var directionVector := EulerToDirection(n, alpha, data["beta"], data["gamma"]);
      var userPosition := PointVec(venue.GetUserPosition());
      var bounds := venue.GetBounds();
      assert directionVector == ServerAim(n, isCalibrated, alphaOffset, data);
      ghost var pointer := ServerPointer(n, isCalibrated, alphaOffset, data, venue.GetUserPosition(), bounds);
      ghost var spec := RaySpec(n, userPosition, directionVector, PointVec(bounds.min), PointVec(bounds.max));
      assert pointer == if spec.Hit? then Some((directionVector, spec.point)) else None;
      var intersection := RayBoxIntersection(n, userPosition, directionVector, PointVec(bounds.min), PointVec(bounds.max));
      assert intersection == spec;
      if !intersection.Hit? {
        return None;
      }
      lastPointerPosition := Some(intersection.point);
      lastSensorData := Some(data);
      return Some(StateUpdate(StateUpdateKind, data, directionVector, intersection.point, isCalibrated));
    }
  }

  /** Calibration makes the heading relative: a reading turned by some angle from
      the calibration heading aims as an uncalibrated reading at that angle does. */
  lemma CalibrationIsRelative(n: Numerics, offset: real, data: SensorDict)
    requires HasAngles(data)
    requires 0.0 <= data["alpha"] - offset < 360.0
    ensures ServerAim(n, true, offset, data) == ServerAim(n, false, 0.0, data["alpha" := data["alpha"] - offset])
  {
    Mod360Unique(data["alpha"] - offset, data["alpha"] - offset);
  }

  /** A broadcast pointer is where the aimed ray enters the venue (or leaves it,
      when the user stands inside) at a non-negative distance: the slab method's
      full characterisation. */
  lemma ServerPointerSound(n: Numerics, calibrated: bool, offset: real, data: SensorDict, user: Point, bounds: Bounds)
    ensures var ptr := ServerPointer(n, calibrated, offset, data, user, bounds);
      ptr.Some? ==>
        exists t :: RaySound(PointVec(user), NormalizeVector(n, ptr.value.0), PointVec(bounds.min), PointVec(bounds.max),
                             Hit(ptr.value.1, t))
  {
    if HasAngles(data) {
      var d := ServerAim(n, calibrated, offset, data);
      var hit := RaySpec(n, PointVec(user), d, PointVec(bounds.min), PointVec(bounds.max));
      RaySpecSound(n, PointVec(user), d, PointVec(bounds.min), PointVec(bounds.max));
      if hit.Hit? {
        assert RaySound(PointVec(user), NormalizeVector(n, d), PointVec(bounds.min), PointVec(bounds.max),
                        Hit(hit.point, hit.t));
      }
    }
  }

  /** Conversely, a complete reading whose aimed ray hits the box always yields
      the pointer at that hit. */
  lemma ServerPointerComplete(n: Numerics, calibrated: bool, offset: real, data: SensorDict, user: Point, bounds: Bounds)
    ensures HasAngles(data) ==>
      var d := ServerAim(n, calibrated, offset, data);
      var hit := RaySpec(n, PointVec(user), d, PointVec(bounds.min), PointVec(bounds.max));
      hit.Hit? ==> ServerPointer(n, calibrated, offset, data, user, bounds) == Some((d, hit.point))
  {
  }

  /** From the user position of a valid venue the server never drops a complete
      reading when the square root is genuine at the aimed direction. */
  lemma ValidVenueAlwaysPoints(n: Numerics, v: VenueManager, calibrated: bool, offset: real, data: SensorDict)
    requires v.Valid() && HasAngles(data)
    requires ExactSqrtAt(n, NormSq(ServerAim(n, calibrated, offset, data)))
    ensures ServerPointer(n, calibrated, offset, data, v.GetUserPosition(), v.GetBounds()).Some?
  {
    var u, b := v.GetUserPosition(), v.GetBounds();
    assert InsideStrictly(u, b);
    InsideOriginHits(n, PointVec(u), ServerAim(n, calibrated, offset, data), PointVec(b.min), PointVec(b.max));
  }

  /** The server pipeline is the processor's pipeline without a rotation matrix:
      both find the same pointer for the same reading, offset and flag. */
  lemma ServerMatchesProcessor(n: Numerics, calibrated: bool, offset: real, s: SensorData, data: SensorDict,
                               user: Point, bounds: Bounds)
    requires data == map["alpha" := s.alpha, "beta" := s.beta, "gamma" := s.gamma]
    ensures var ptr := ServerPointer(n, calibrated, offset, data, user, bounds);
            var res := Spatial.ProcessResult(n, CalibrationState(calibrated, None, None), offset, s,
                                             Vector3D.FromNumpy(PointVec(user)),
                                             Vector3D.FromNumpy(PointVec(bounds.min)),
                                             Vector3D.FromNumpy(PointVec(bounds.max)));
            && (ptr.Some? <==> res.Some?)
            && (ptr.Some? ==> res.value.intersection.ToNumpy() == ptr.value.1
                              && res.value.direction.ToNumpy() == ptr.value.0)
  {
    ArrayRoundTrip(PointVec(user));
    ArrayRoundTrip(PointVec(bounds.min));
    ArrayRoundTrip(PointVec(bounds.max));
    var d := ServerAim(n, calibrated, offset, data);
    assert Spatial.AimDirection(n, CalibrationState(calibrated, None, None), offset, s) == Some(d);
    var hit := RaySpec(n, PointVec(user), d, PointVec(bounds.min), PointVec(bounds.max));
    if hit.Hit? {
      ArrayRoundTrip(hit.point);
      ArrayRoundTrip(d);
    }
  }

  /** In the default venue, an uncalibrated level reading at heading 0 points at
      (5, 10, 1) on the back wall along +Y. */
  lemma DefaultVenueForward(n: Numerics, v: VenueManager, gamma: real)
    requires v.Config() == DefaultSettings
    requires n.sin(0.0) == 0.0 && n.cos(0.0) == 1.0 && n.sqrt(1.0) == 1.0
    ensures var data := map["alpha" := 0.0, "beta" := 0.0, "gamma" := gamma];
      ServerPointer(n, false, 0.0, data, v.GetUserPosition(), v.GetBounds())
        == Some(([0.0, 1.0, 0.0], [5.0, 10.0, 1.0]))
  {
    DefaultKeyPoints(v);
    EulerForward(n, gamma);
    RayHitsBackWall(n);
    var data := map["alpha" := 0.0, "beta" := 0.0, "gamma" := gamma];
    assert ServerAim(n, false, 0.0, data) == [0.0, 1.0, 0.0];
    assert PointVec(v.GetUserPosition()) == [5.0, 5.0, 1.0];
    assert PointVec(v.GetBounds().min) == [0.0, 0.0, 0.0];
    assert PointVec(v.GetBounds().max) == [10.0, 10.0, 4.0];
  }
}
