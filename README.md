# Gyro Light Control — verified model of the spatial core

The Gyro Light Control visualiser turns a phone's orientation into a pointer
inside a venue. The phone streams heading, pitch and roll (alpha, beta, gamma)
over a websocket. The backend buffers and blends those readings. It corrects
the heading by a calibration offset, turns the angles into a direction vector,
and casts a ray from the user's position. The ray is intersected with the
venue's box, and the hit point is broadcast to every client as a
`state_update` message. The backend can also tell a moving-head fixture which
pan and tilt angles aim it at that point.

This project models that core in Dafny and proves properties of the model.
There is one module per source file:

| module | file | what it holds |
|---|---|---|
| `Common` | — | Option/Result/Outcome, 3-vectors, Python's float `% 360`, the offset-corrected heading |
| `MathEngine` | `math_engine.py` | Euler angles to a direction, normalisation, the calibration rotation and its application, the slab-method ray/box intersection (an imperative loop proved against a recursive specification), fixture pan/tilt, clamp |
| `Schemas` | `schemas.py` | `Vector3D`, validation of `SensorData`, `CalibrationState`, `InteractionResult` and its broadcast form |
| `Venue` | `venue_manager.py` | the `VenueManager` class: validated dimensions, key points, corners, save and load |
| `WebSocket` | `websocket_handler.py` | the `LatencyBuffer` class, with newest-sample and interpolated queries including the heading's wrap-around, and the handler's buffered read |
| `Spatial` | `spatial_processor.py` | the `SpatialProcessor` class: offset plus matrix calibration, and the processing pipeline |
| `Server` | `server.py` | the `AppState` class: scalar calibration and `process_sensor_data` |

Floating-point trigonometry, arc cosine, arc tangent and square root cannot be
computed exactly over the reals. They are the fields of a `MathEngine.Numerics`
value that every geometric operation receives. The general lemmas hold
whatever those functions are. Where a property needs more, such as a true
square root at one point or `sin 0 = 0`, the lemma states that as a
precondition (`ExactSqrtAt`, or explicit values).

Objects whose methods assign fields are Dafny classes whose methods declare
`modifies`:

- `VenueManager`
- `LatencyBuffer`
- `WebSocketHandler`
- `SpatialProcessor`
- `AppState`

Each such method's `ensures` gives its whole new state. Its queries are
functions with `reads` clauses. The two loops of the source are `while`/`for`
loops with invariants:

- the slab loop of `ray_box_intersection`;
- the per-key loop of `get_interpolated`.

So are the nested corner loops of `get_corners`. Each is proved equal to a
specification function, and the properties are proved about that function.

### Behaviour of the code worth noting

- **Interpolation uses the two newest samples.** `get_interpolated` always
  blends the two newest samples (`websocket_handler.py:94-95`), and clamps the
  factor into [0, 1.5] (`websocket_handler.py:110`). It does not look for
  samples that bracket the target time, and it does allow extrapolation past
  the newest sample, up to half an interval (`WebSocket.ExtrapolatesHalfInterval`,
  `WebSocket.ExtrapolationCapped`).
- **Heading blend on a half-turn.** The heading blend adds 360 to the lower
  endpoint when the headings are more than 180 apart
  (`websocket_handler.py:122-129`). For headings in [0, 360] this agrees with
  the shortest-delta rule `((b - a + 540) % 360) - 180`, except at a gap of
  exactly +180 (`WebSocket.AlphaBlendMatchesShortestDelta`). There the code
  turns forward, 0 to 180 passing 90, where the rule turns backward through 270
  (`WebSocket.HalfTurnTie`).
- **Pan and tilt are not clamped.** `calculate_fixture_pan_tilt` returns raw
  degrees, not clamped into a fixture range (`math_engine.py:345-356`;
  `MathEngine.PanTiltNotClamped`).
- **Mounting conventions.**
  - `"ceiling"` negates the depth component.
  - `"floor"` and `"wall"` are identical.
  - Any other mounting negates the height component.

  (`math_engine.py:306-343`; `MathEngine.CeilingMirrorsDepth`,
  `MathEngine.FloorAndWallAgree`, `MathEngine.UnknownMountingMirrorsHeight`.)
- **The heading is negated.** It enters `euler_to_direction` negated
  (`math_engine.py:57`), so heading 90 points along -X
  (`MathEngine.EulerRightIsNegativeX`).
- **The offset is stored first.** `SpatialProcessor.calibrate` stores the
  offset before anything that can fail (`spatial_processor.py:144`). A failed
  calibration therefore keeps the new offset.
- **A ray leaving from the boundary still hits.** The comment in
  `test_processor_no_intersection` (`spatial_processor.py:389-391`) expects no
  result for a user on the ceiling pointing up. The code returns the user's own
  position, because the exit distance is 0 and 0 is accepted
  (`math_engine.py:242-248`; `MathEngine.RayLeavingCeilingHitsStart`,
  `Spatial.CeilingUserPointingUp`).

## Model

| member | source | states |
|---|---|---|
| Common.Mod360 | websocket_handler.py:134-135 | Python's float `x % 360` lies in [0, 360) and differs from `x` by a whole number of turns |
| Common.Mod360Unique | websocket_handler.py:134-135 | `% 360` is the only value in [0, 360) a whole number of turns from `x` |
| Common.Mod360InRange | websocket_handler.py:134-135 | an angle already in [0, 360) is unchanged by `% 360` |
| Common.CorrectedAlpha | spatial_processor.py:242-244 | the calibrated heading lies in [0, 360) and is a whole number of turns from raw less offset; uncalibrated, it is the raw heading |
| Common.CalibratedSampleIsZero | spatial_processor.py:144-150 | the reading the offset was taken from is corrected to heading 0 |
| Common.CorrectedAlphaExamples | server.py:134-138 | with offset 200, heading 210 becomes 10 and heading 190 wraps to 350 |
| MathEngine.NormalizeVector | math_engine.py:363-368 | a vector of magnitude below 1e-10 becomes (0, 1, 0); any other result times the magnitude gives back the input |
| MathEngine.NormalizeIsUnit | math_engine.py:363-368 | with a true square root, a normalised vector has unit length |
| MathEngine.NormalizedNotAllParallel | math_engine.py:210-219 | a normalised direction has at least one component of size at least 1e-8, so the slab loop never treats all three axes as parallel |
| MathEngine.EulerIgnoresGamma | math_engine.py:56-59 | the roll angle never changes the direction |
| MathEngine.EulerToDirection | math_engine.py:30-71 | with a true square root at the heading/pitch vector, the direction has unit length |
| MathEngine.EulerMirrorsHeading | math_engine.py:57-71 | the direction is the textbook heading/pitch vector reflected across the Y-Z plane |
| MathEngine.EulerForward | math_engine.py:380-386 | heading 0, pitch 0 points along +Y |
| MathEngine.EulerRightIsNegativeX | math_engine.py:398-404 | heading 90 points along -X |
| MathEngine.EulerUp | math_engine.py:389-395 | pitch 90 points along +Z |
| MathEngine.CalibrationOffset | math_engine.py:78-142 | the calibration rotation is 3x3, and is the identity when the normalised vectors' dot product exceeds 0.9999 |
| MathEngine.SelfAlignmentIsIdentity | math_engine.py:407-413 | calibrating a direction onto itself gives the identity |
| MathEngine.CalibrationQuarterTurn | math_engine.py:416-424 | calibrating +X onto +Y turns a quarter circle about +Z, and applying it to +X gives +Y |
| MathEngine.ApplyCalibration | math_engine.py:145-167 | rotating gives a result exactly for a 3x3 matrix; any other shape makes `process` fail further on |
| MathEngine.ApplyIdentity | math_engine.py:145-167 | the identity only renormalises |
| MathEngine.SlabInterval | math_engine.py:225-231 | a point on the ray is within a slab exactly when its parameter lies between the two plane crossings |
| MathEngine.Scan | math_engine.py:218-253 | from axis i onwards, a hit lies on the ray at a non-negative parameter; an infinite answer arises only when no far plane was met and every remaining axis is parallel |
| MathEngine.RaySpec | math_engine.py:174-253 | a hit lies on the normalised ray at a non-negative distance; an infinite answer arises only when every component of the normalised direction is below 1e-8 |
| MathEngine.ScanSound | math_engine.py:218-253 | from any state satisfying the slab invariant, the rest of the loop answers soundly: a miss only when no non-negative parameter puts the point in the box, and otherwise the entry point (origin outside) or exit point (origin inside) at a non-negative distance |
| MathEngine.RaySpecSound | math_engine.py:174-253 | the intersection specification is sound in the sense above for every origin, direction and box |
| MathEngine.RayBoxIntersection | math_engine.py:174-253 | the slab loop computes the intersection specification, and its answer is sound |
| MathEngine.InsideOriginHits | math_engine.py:241-248 | from an origin inside the box the ray is never a miss, and with a true square root it always hits |
| MathEngine.RayHitsBackWall | math_engine.py:427-441 | from (5, 5, 1) along +Y in the 10 x 10 x 4 box the hit is (5, 10, 1) |
| MathEngine.RayHitsFloor | math_engine.py:444-456 | from (5, 5, 2) along -Z the hit is (5, 5, 0) |
| MathEngine.RayLeavingCeilingHitsStart | math_engine.py:241-253 | from (5, 5, 4) along +Z the answer is the start point at distance 0 |
| MathEngine.PanInvertFlipsPanOnly | math_engine.py:350-351 | `pan_invert` negates pan and leaves tilt |
| MathEngine.TiltInvertFlipsTiltOnly | math_engine.py:353-354 | `tilt_invert` negates tilt and leaves pan |
| MathEngine.FloorAndWallAgree | math_engine.py:327-338 | floor and wall mounting give the same angles |
| MathEngine.CeilingMirrorsDepth | math_engine.py:306-331 | ceiling mounting aims as a floor fixture at the target mirrored in depth through the fixture |
| MathEngine.UnknownMountingMirrorsHeight | math_engine.py:339-343 | an unknown mounting aims as a floor fixture at the target mirrored in height through the fixture |
| MathEngine.MountedAngles | math_engine.py:306-343 | floor and wall mounting use the floor convention (pan from +Y towards +X, tilt up from the horizontal); ceiling mounting uses it with the depth offset reversed, any other mounting with the height offset reversed |
| MathEngine.FixturePanTilt | math_engine.py:260-356 | the angles are the floor convention at the mounting's mirrored offset, in degrees, each negated exactly when its invert flag is set, and not clamped |
| MathEngine.PanTiltNotClamped | math_engine.py:345-356 | a target straight behind a floor fixture gives pan 180, unclamped |
| MathEngine.CeilingFixtureCentred | math_engine.py:459-470 | a ceiling fixture at (5, 9, 3.5) aiming at (5, 5, 1) has pan 0 and negative tilt |
| MathEngine.Clamp | math_engine.py:371-373 | the result is within [lo, hi] when lo <= hi, equals a value already inside, saturates at the nearer bound, and is lo when the bounds are crossed |
| MathEngine.ClampIdempotent | math_engine.py:371-373 | clamping twice is clamping once |
| Schemas.Vector3D.ToNumpy | schemas.py:48-50 | the array holds x, y, z in order |
| Schemas.Vector3D.FromNumpy | schemas.py:52-55 | the vector holds the first three entries of the array |
| Schemas.VectorRoundTrip | schemas.py:205-213 | vector to array and back is the identity |
| Schemas.ArrayRoundTrip | schemas.py:48-55 | 3-array to vector and back is the identity |
| Schemas.CheckField | schemas.py:75-104 | a field raises no error exactly when it is a present number within its bounds, and any error names that field |
| Schemas.ValidateSensorData | schemas.py:69-104 | a reading is accepted exactly when all three angles are present numbers within bounds, keeping the values; otherwise one to three errors are reported, naming exactly the offending fields |
| Schemas.ValidReadingAccepted | schemas.py:75-96 | a reading within bounds is accepted unchanged |
| Schemas.SensorValidationExamples | schemas.py:217-237 | the documented example is accepted; heading 400 and pitch 200 are rejected with one range error each; a null heading is rejected; the inclusive bounds are accepted |
| Schemas.CalibrationState.GetMatrixNumpy | schemas.py:136-140 | the matrix is absent exactly when none is stored |
| Schemas.CalibrationStateDefaults | schemas.py:240-258 | a fresh state is uncalibrated with no matrix and no target; a state holding the identity gives back a 3x3 matrix |
| Schemas.ToBroadcastDict | schemas.py:174-194 | the message is a `state_update` with 3-element pointer lists, copies the calibration flag, and decodes back to the same result |
| Schemas.BroadcastDecodeEncode | schemas.py:174-194 | a well-formed message decodes and re-encodes to itself |
| Venue.ValidateDimension | venue_manager.py:74-95 | a dimension is accepted exactly within [2, 100], unchanged; otherwise the error names the dimension and value |
| Venue.ValidateGridSize | venue_manager.py:97-108 | a grid size is accepted exactly within [0.1, 5] |
| Venue.ValidateUserHeight | venue_manager.py:110-121 | a user height is accepted exactly within [0.5, 1.5] |
| Venue.ValidateSettings | venue_manager.py:49-72 | the settings are accepted exactly when all five are in range; otherwise the error is for the first setting out of range, in constructor order |
| Venue.EmptyDictIsDefault | venue_manager.py:257-265 | loading an empty dictionary gives the defaults 10 x 10 x 4, grid 1, user height 1, which are valid |
| Venue.VenueManager.constructor | venue_manager.py:49-72 | a manager built from valid settings holds them |
| Venue.VenueManager.Create | venue_manager.py:49-72 | construction succeeds exactly for valid settings; otherwise it raises the first validation error |
| Venue.VenueManager.SetDimensions | venue_manager.py:123-142 | succeeds exactly when all three dimensions are valid; each dimension before the failing one is already assigned; grid size and user height are untouched; validity is kept |
| Venue.VenueManager.SetGridSize | venue_manager.py:144-146 | assigns a valid grid size, leaves everything else, keeps validity |
| Venue.VenueManager.SetUserHeight | venue_manager.py:148-150 | assigns a valid user height, leaves everything else, keeps validity |
| Venue.VenueManager.GetBounds | venue_manager.py:181-197 | the box runs from the origin to (width, depth, height) of the current configuration and, for a valid manager, its side lengths are within the dimension limits |
| Venue.VenueManager.GetUserPosition | venue_manager.py:152-164 | the user stands at (width/2, depth/2, user_height) of the current configuration, midway between opposite walls, and for a valid manager strictly inside the box |
| Venue.VenueManager.GetBackWallCenter | venue_manager.py:166-179 | the calibration target is (width/2, depth, height/2) of the current configuration: on the back wall (maximum Y), centred in width and height |
| Venue.VenueManager.AddLayer | venue_manager.py:211-218 | the nested loop appends the layer's four corners, x outermost |
| Venue.VenueManager.GetCorners | venue_manager.py:199-220 | eight corners, the floor's four first, each a vertex of the box, and every vertex listed |
| Venue.VenueManager.ToDict | venue_manager.py:222-237 | saving writes width, depth, height, grid size and user height under their keys, and loading the result gives back the configuration |
| Venue.VenueManager.FromDict | venue_manager.py:239-265 | loading applies the defaults for missing keys and succeeds exactly when the result is valid |
| Venue.SettingsFromDict | venue_manager.py:239-265 | each key present in the dictionary is taken; a missing key, or a missing `dimensions` entry, takes its default 10, 10, 4, 1, 1 |
| Venue.SaveLoadRoundTrip | venue_manager.py:222-265 | a valid manager saved and loaded gives a new manager with the same configuration |
| Venue.DefaultKeyPoints | venue_manager.py:306-317 | the default venue puts the user at (5, 5, 1), the back-wall centre at (5, 10, 2) and the box at (0, 0, 0)-(10, 10, 4) |
| WebSocket.Latest | websocket_handler.py:63-72 | the newest data is absent exactly for an empty buffer |
| WebSocket.Factor | websocket_handler.py:107-110 | the blend factor lies in [0, 1.5]: 0 on the older side of the older timestamp, 1.5 from half an interval past the newer one, and in between the target's fraction of the way from the older to the newer timestamp, for timestamps in either order |
| WebSocket.BlendKey | websocket_handler.py:116-135 | a blended heading lies in [0, 360); any other key is the older value at factor 0, the newer at factor 1, and between them for a factor in [0, 1] |
| WebSocket.Blend | websocket_handler.py:114-137 | a blended reading has exactly the three angle keys, whatever else the readings carry, and its heading lies in [0, 360) |
| WebSocket.Interpolated | websocket_handler.py:86-137 | nothing exactly when empty; a lone sample unchanged; the newest data when the two newest share a timestamp; otherwise a reading with exactly the three angle keys and a heading in [0, 360) |
| WebSocket.BlendReadings | websocket_handler.py:114-137 | the per-key loop fills exactly the blended reading |
| WebSocket.LatencyBuffer.constructor | websocket_handler.py:42-48 | a new buffer is empty with the given capacity |
| WebSocket.LatencyBuffer.AddSample | websocket_handler.py:50-61 | appends the sample, evicting the oldest when full, never exceeds the capacity, and the added data becomes the newest |
| WebSocket.LatencyBuffer.GetLatest | websocket_handler.py:63-72 | absent exactly when empty, otherwise the newest sample's data |
| WebSocket.LatencyBuffer.GetInterpolated | websocket_handler.py:74-137 | the method computes the interpolation specification |
| WebSocket.LatencyBuffer.Clear | websocket_handler.py:139-141 | the buffer is empty afterwards |
| WebSocket.LatencyBuffer.Size | websocket_handler.py:143-145 | the number of samples, never above the capacity |
| WebSocket.WebSocketHandler.constructor | websocket_handler.py:159-167 | a new handler owns a fresh empty buffer of the given size |
| WebSocket.WebSocketHandler.GetBufferedSensorData | websocket_handler.py:268-281 | answers the interpolation or the newest sample, as asked, and nothing exactly when the buffer is empty |
| WebSocket.WebSocketHandler.ClearBuffer | websocket_handler.py:283-285 | the buffer is empty afterwards |
| WebSocket.InterpolatedUsesTwoNewest | websocket_handler.py:93-95 | with two or more samples only the two newest are consulted |
| WebSocket.AlphaShortestPath | websocket_handler.py:121-129 | after the wrap-around correction the heading endpoints are at most 180 apart, each moved by 0 or a whole turn |
| WebSocket.Mod360Turn | websocket_handler.py:134-135 | adding a turn does not change `% 360` |
| WebSocket.BlendEndpoints | websocket_handler.py:131-135 | factor 0 gives the older reading and factor 1 the newer one |
| WebSocket.TargetBeforeOlderSample | websocket_handler.py:107-110 | a target at or before the older timestamp yields the older pitch and roll |
| WebSocket.LerpBetween | websocket_handler.py:131 | with a factor in [0, 1] the blend lies between its endpoints |
| WebSocket.BlendBetween | websocket_handler.py:107-131 | a target between the timestamps keeps pitch and roll between the two readings |
| WebSocket.ExtrapolatesHalfInterval | websocket_handler.py:107-110 | half an interval past the newer timestamp, pitch and roll continue past the newer reading by half of the last change |
| WebSocket.ExtrapolationCapped | websocket_handler.py:107-110 | any later target gives the same reading as half an interval past the newer timestamp |
| WebSocket.AlphaBlendMatchesShortestDelta | websocket_handler.py:121-135 | except at a gap of exactly +180, the heading blend equals the shortest-delta blend `(a + (((b - a + 540) % 360) - 180) f) % 360` |
| WebSocket.HalfTurnTie | websocket_handler.py:122-129 | at 0 to 180 the code gives 90 at the midpoint where the shortest-delta rule gives 270 |
| WebSocket.WrapAroundExample | websocket_handler.py:364-378 | from 350 to 10 the midpoint heading is 0 |
| WebSocket.MidpointExample | websocket_handler.py:346-361 | from (0, 0, 0) to (100, 50, 10) the midpoint is (50, 25, 5) |
| Spatial.AimDirection | spatial_processor.py:242-261 | uncalibrated, or without a matrix, the aim is the direction of the corrected heading; with a matrix, it is that direction turned by the matrix, and aiming succeeds exactly when the matrix is 3x3 |
| Spatial.ProcessResult | spatial_processor.py:199-289 | no result when aiming fails; a result exactly echoes the reading and the calibration flag, and only comes from a ray that hits the box |
| Spatial.SpatialProcessor.constructor | spatial_processor.py:68-84 | a new processor is uncalibrated with offset 0 |
| Spatial.SpatialProcessor.Calibrate | spatial_processor.py:111-187 | the offset becomes the reading's heading; with a non-zero target the state is calibrated with the rotation from the zero-heading direction onto the normalised target; otherwise the calibration state is unchanged |
| Spatial.SpatialProcessor.ResetCalibration | spatial_processor.py:189-193 | back to a new processor's state |
| Spatial.SpatialProcessor.Process | spatial_processor.py:199-289 | the pipeline computes the processing specification |
| Spatial.ProcessResultSound | spatial_processor.py:266-285 | a result carries the aimed direction, and its intersection is the ray's entry point (or exit point, for a user inside) at a non-negative distance, in the full sense of the slab method's characterisation |
| Spatial.ProcessResultComplete | spatial_processor.py:266-289 | whenever the aimed ray hits the box, `process` returns a result whose intersection is that hit point and whose direction is the aimed direction |
| Spatial.UncalibratedIgnoresOffset | spatial_processor.py:242-244 | before calibration the stored offset does not matter |
| Spatial.ProcessIgnoresGamma | spatial_processor.py:249-253 | the roll angle changes only the echoed reading |
| Spatial.CalibratedSampleAim | spatial_processor.py:144-150 | the calibrating reading is aimed along the zero-heading direction turned by the stored matrix |
| Spatial.ValidStateAims | spatial_processor.py:258-261 | with a 3x3 matrix, or none, the rotation step never fails |
| Spatial.InsideUserAlwaysHits | spatial_processor.py:266-275 | from a user inside the box, with a true square root at the aim, there is always a result |
| Spatial.ForwardReadingHitsBackWall | spatial_processor.py:306-325 | uncalibrated heading 0 from (5, 5, 1) hits (5, 10, 1) and reports uncalibrated |
| Spatial.CeilingUserPointingUp | spatial_processor.py:374-393 | pointing up from (5, 5, 4) yields the user's own position |
| Spatial.CalibrateThenProcessHitsBackWall | spatial_processor.py:328-353 | calibrated towards +Y, the same reading hits the back wall (y = 10) and reports calibrated |
| Server.AppState.constructor | server.py:61-74 | the default venue, a 3-sample buffer, uncalibrated with offset 0, no last state |
| Server.AppState.ResetCalibration | server.py:76-80 | uncalibrated with offset 0; the last state is kept |
| Server.AppState.PerformCalibration | server.py:184-204 | succeeds exactly when the reading has a heading, which becomes the offset; otherwise nothing changes |
| Server.AppState.ProcessSensorData | server.py:111-181 | answers a `state_update` exactly when the pointer specification finds a hit, echoing the reading, the direction, the hit point and the flag; a hit is remembered as the last pointer and reading, and a miss or missing angle leaves them |
| Server.ServerAim | server.py:132-141 | uncalibrated, the server aims at the raw heading; after calibrating on a reading, that reading aims along heading 0 |
| Server.ServerPointer | server.py:127-164 | nothing when an angle is missing; a pointer carries the direction the server aims along |
| Server.CalibrationIsRelative | server.py:134-141 | a reading turned by less than a full turn from the offset aims as an uncalibrated reading at that angle |
| Server.ServerPointerSound | server.py:151-164 | a pointer is the aimed ray's entry point (or exit point, for a user inside) at a non-negative distance, in the full sense of the slab method's characterisation |
| Server.ServerPointerComplete | server.py:132-164 | a complete reading whose aimed ray hits the box always yields the pointer at that hit, with the aimed direction |
| Server.ValidVenueAlwaysPoints | server.py:146-160 | from the user position of a valid venue, with a true square root at the aim, a complete reading always yields a pointer |
| Server.ServerMatchesProcessor | server.py:132-156 | the server pipeline and the processor without a matrix find the same pointer for the same reading |
| Server.DefaultVenueForward | server.py:127-160 | in the default venue, uncalibrated heading 0 points along +Y at (5, 10, 1) |

## Left out

- Trigonometry, arc cosine, arc tangent and square root are not computed. They
  are uninterpreted parameters (`MathEngine.Numerics`), and IEEE rounding, NaN
  and infinities are not modelled. Numbers are exact reals.
- `MathEngine.CalibrationOffset` does not state that the matrix is a rotation
  taking `current` onto `target`, because that depends on the values of sine,
  cosine and arc cosine. The matrix is constructed exactly as the source does,
  and its behaviour is shown on the aligned case and the quarter-turn test.
- `MathEngine.RaySpec` returns `NonFinite` when all three direction components
  are below 1e-8. The source would then compute a point from an infinite
  parameter. This can only happen when the square root is not true
  (`MathEngine.NormalizedNotAllParallel`). Both pipelines treat it as no
  result.
- `Spatial.SpatialProcessor.Calibrate` fails when the target has length 0. The
  source divides by zero there and stores a matrix built from NaN.
- `WebSocket.LatencyBuffer.GetInterpolated` takes the target time as a
  parameter; the source's default `time.time() * 1000` is not modelled.
  `WebSocket.WebSocketHandler.GetBufferedSensorData` likewise takes the time
  as a parameter.
- Python default arguments become explicit parameters, so callers always pass
  them: `mounting="ceiling"`, `pan_invert=False` and `tilt_invert=False` of
  `calculate_fixture_pan_tilt` (math_engine.py:260-266), `buffer_size=3` of
  both constructors (websocket_handler.py:42,159), and `use_interpolation=True`
  of `get_buffered_sensor_data` (websocket_handler.py:268).
- `MathEngine.ApplyCalibration` answers `None` for any matrix that is not 3x3.
  The source's product succeeds for an m-by-3 matrix and gives an m-vector;
  only the later ray intersection fails on it. That m-vector is not modelled,
  because a `Vec` has length 3, and the pipeline gives no result either way.
- `Schemas.Vector3D.FromNumpy` requires an array of at least three entries.
  The `IndexError` that `from_numpy` raises on a shorter array is not
  modelled, because every caller in the core passes a 3-array.
- `Venue.VenueManager.FromDict` reads a dictionary whose keys may be absent
  but not null. An explicit `None` for `dimensions` or for a value, which
  makes the source raise `AttributeError` or `TypeError`, cannot be
  expressed.
- Buffer capacity is a natural number. Python's `deque` rejects a negative
  `maxlen`, which cannot be expressed here.
- Sensor dictionaries map keys to reals. The server's raw dictionaries could
  hold non-numeric values, which would raise inside `euler_to_direction`; that
  path is not modelled.
- Pydantic's float coercion of strings and integers is not modelled. A field is
  missing, null or a number.
- Array conversion in `get_matrix_numpy` is not modelled; nested lists and
  arrays are the same value here.
- `Vector3D.to_list` is the same list as `to_numpy` and is modelled by
  `ToNumpy`.
- Networking is not modelled:
  - the FastAPI app, its lifespan and the websocket endpoint;
  - `receive_sensor_data`, connection management, broadcast and `get_stats`;
  - QR-code generation and static files.
- Logging, `__repr__` and `VenueManager.get_info` are not modelled; they only
  format text.
- Concurrency is not modelled. The source's single-threaded event loop makes
  each handler call atomic.
