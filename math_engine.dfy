/** The geometry kernel: Euler angles to a pointing direction, vector
    normalisation, the calibration rotation and its application, the slab-method
    ray/box test, fixture pan/tilt and clamping. Trigonometry, arc cosine,
    arc tangent and square roots are floating-point numerics: they are the
    fields of a `Numerics` value that every operation receives, and the
    properties below hold whatever those functions are (or under the few
    concrete values a lemma names). */
module MathEngine {
  import opened Common

  /** A rotation matrix as nested lists; `create_calibration_offset` yields 3x3. */
  type Matrix = seq<seq<real>>

  /** The floating-point primitives the kernel relies on, left uninterpreted. */
  datatype Numerics = Numerics(
    sin: real -> real,
    cos: real -> real,
    acos: real -> real,
    atan2: (real, real) -> real,
    sqrt: real -> real)

  /** numpy's `pi`. */
  const Pi: real := 3.141592653589793

  /** Components smaller than this count as zero in the slab test. */
  const ParallelEpsilon: real := 0.00000001

  /** Vectors shorter than this are replaced by the default forward direction. */
  const NormEpsilon: real := 0.0000000001

  function Radians(deg: real): real { deg * Pi / 180.0 }

  function Degrees(rad: real): real { rad * 180.0 / Pi }

  // ---------------------------------------------------------------------------
  // Vectors
  // ---------------------------------------------------------------------------

  function NormSq(v: Vec): real { v[0] * v[0] + v[1] * v[1] + v[2] * v[2] }

  function Magnitude(n: Numerics, v: Vec): real { n.sqrt(NormSq(v)) }

  /** True when `sqrt` returns the genuine square root at `s`. */
  predicate ExactSqrtAt(n: Numerics, s: real) {
    n.sqrt(s) >= 0.0 && n.sqrt(s) * n.sqrt(s) == s
  }

  /** `normalize_vector`: a negligible vector becomes (0, 1, 0); any other is
      divided by its magnitude, so it keeps its direction. */
  function NormalizeVector(n: Numerics, v: Vec): (r: Vec)
    ensures Magnitude(n, v) < NormEpsilon ==> r == [0.0, 1.0, 0.0]
    ensures Magnitude(n, v) >= NormEpsilon ==>
      r[0] * Magnitude(n, v) == v[0] && r[1] * Magnitude(n, v) == v[1] && r[2] * Magnitude(n, v) == v[2]
  {
    var m := Magnitude(n, v);
    if m < NormEpsilon then [0.0, 1.0, 0.0] else [v[0] / m, v[1] / m, v[2] / m]
  }

  /** With a genuine square root, normalisation yields a unit vector. */
  lemma NormalizeIsUnit(n: Numerics, v: Vec)
    requires ExactSqrtAt(n, NormSq(v))
    ensures NormSq(NormalizeVector(n, v)) == 1.0
  {
    var m := Magnitude(n, v);
    var r := NormalizeVector(n, v);
    if m >= NormEpsilon {
      var q := m * m;
      assert q > 0.0;
      var x0, x1, x2 := r[0] * m, r[1] * m, r[2] * m;
      assert x0 == v[0] && x1 == v[1] && x2 == v[2];
      calc {
        NormSq(r) * q;
        x0 * x0 + x1 * x1 + x2 * x2;
        NormSq(v);
        q;
      }
      assert (NormSq(r) - 1.0) * q == 0.0;
    }
  }

  lemma SquareBelow(x: real, c: real)
    requires Abs(x) < c
    ensures x * x < c * c
  {
    var a := Abs(x);
    assert x * x == a * a;
    assert 0.0 <= a < c;
    var aa, ac, cc := a * a, a * c, c * c;
    assert aa <= ac by {
      assert ac - aa == a * (c - a);
    }
    assert ac < cc by {
      var e := c - a;
      assert e > 0.0 && c > 0.0;
      assert c * e > 0.0;
      assert cc - ac == c * e;
    }
  }

  /** A vector whose every component is negligible for the slab test. */
  predicate AllParallel(d: Vec) {
    Abs(d[0]) < ParallelEpsilon && Abs(d[1]) < ParallelEpsilon && Abs(d[2]) < ParallelEpsilon
  }

  /** With a genuine square root, a normalised direction is never parallel to all
      three slabs at once. */
  lemma NormalizedNotAllParallel(n: Numerics, v: Vec)
    requires ExactSqrtAt(n, NormSq(v))
    ensures !AllParallel(NormalizeVector(n, v))
  {
    var r := NormalizeVector(n, v);
    NormalizeIsUnit(n, v);
    if AllParallel(r) {
      SquareBelow(r[0], ParallelEpsilon);
      SquareBelow(r[1], ParallelEpsilon);
      SquareBelow(r[2], ParallelEpsilon);
      assert false;
    }
  }

  // ---------------------------------------------------------------------------
  // Orientation
  // ---------------------------------------------------------------------------

  /** The textbook heading/pitch vector: x = sin a cos b, y = cos a cos b, z = sin b. */
  function HeadingPitchVector(n: Numerics, alpha: real, beta: real): Vec {
    [n.sin(Radians(alpha)) * n.cos(Radians(beta)),
     n.cos(Radians(alpha)) * n.cos(Radians(beta)),
     n.sin(Radians(beta))]
  }

  /** `euler_to_direction`: the heading enters negated and the roll is unused. */
  function EulerToDirection(n: Numerics, alpha: real, beta: real, gamma: real): (r: Vec)
    ensures ExactSqrtAt(n, NormSq(HeadingPitchVector(n, -alpha, beta))) ==> NormSq(r) == 1.0
  {
    var v := HeadingPitchVector(n, -alpha, beta);
    assert ExactSqrtAt(n, NormSq(v)) ==> NormSq(NormalizeVector(n, v)) == 1.0 by {
      if ExactSqrtAt(n, NormSq(v)) { NormalizeIsUnit(n, v); }
    }
    NormalizeVector(n, v)
  }

  /** The roll angle never influences the direction. */
  lemma EulerIgnoresGamma(n: Numerics, alpha: real, beta: real, g1: real, g2: real)
    ensures EulerToDirection(n, alpha, beta, g1) == EulerToDirection(n, alpha, beta, g2)
  {
  }

  function MirrorX(v: Vec): Vec { [-v[0], v[1], v[2]] }

  /** Because the heading is negated, the direction is the textbook vector
      reflected across the Y-Z plane (sine odd and cosine even at that angle). */
  lemma EulerMirrorsHeading(n: Numerics, alpha: real, beta: real, gamma: real)
    requires n.sin(Radians(-alpha)) == -n.sin(Radians(alpha))
    requires n.cos(Radians(-alpha)) == n.cos(Radians(alpha))
    ensures EulerToDirection(n, alpha, beta, gamma) == MirrorX(NormalizeVector(n, HeadingPitchVector(n, alpha, beta)))
  {
    var v := HeadingPitchVector(n, alpha, beta);
    var w := HeadingPitchVector(n, -alpha, beta);
    assert w[0] == -v[0] by {
      assert n.sin(Radians(-alpha)) * n.cos(Radians(beta)) == -(n.sin(Radians(alpha)) * n.cos(Radians(beta)));
    }
    assert w[1] == v[1] && w[2] == v[2];
    assert w == MirrorX(v);
    assert NormSq(w) == NormSq(v);
    var m := Magnitude(n, v);
    assert Magnitude(n, w) == m;
    if m >= NormEpsilon {
      assert (-v[0]) / m == -(v[0] / m);
      assert NormalizeVector(n, w) == [(-v[0]) / m, v[1] / m, v[2] / m];
    }
  }

  /** Heading 0, pitch 0 points forward along +Y. */
  lemma EulerForward(n: Numerics, gamma: real)
    requires n.sin(0.0) == 0.0 && n.cos(0.0) == 1.0 && n.sqrt(1.0) == 1.0
    ensures EulerToDirection(n, 0.0, 0.0, gamma) == [0.0, 1.0, 0.0]
  {
    assert HeadingPitchVector(n, -0.0, 0.0) == [0.0, 1.0, 0.0];
  }

  /** Heading 90 points along -X: the negated heading turns it to the left. */
  lemma EulerRightIsNegativeX(n: Numerics, gamma: real)
    requires n.sin(-Pi / 2.0) == -1.0 && n.cos(-Pi / 2.0) == 0.0
    requires n.sin(0.0) == 0.0 && n.cos(0.0) == 1.0 && n.sqrt(1.0) == 1.0
    ensures EulerToDirection(n, 90.0, 0.0, gamma) == [-1.0, 0.0, 0.0]
  {
    assert Radians(-90.0) == -Pi / 2.0;
    assert HeadingPitchVector(n, -90.0, 0.0) == [-1.0, 0.0, 0.0];
  }

  /** Pitch 90 points straight up. */
  lemma EulerUp(n: Numerics, gamma: real)
    requires n.sin(Pi / 2.0) == 1.0 && n.cos(Pi / 2.0) == 0.0
    requires n.sin(0.0) == 0.0 && n.cos(0.0) == 1.0 && n.sqrt(1.0) == 1.0
    ensures EulerToDirection(n, 0.0, 90.0, gamma) == [0.0, 0.0, 1.0]
  {
    assert Radians(90.0) == Pi / 2.0;
    assert HeadingPitchVector(n, -0.0, 90.0) == [0.0, 0.0, 1.0];
  }

  // ---------------------------------------------------------------------------
  // Calibration matrix
  // ---------------------------------------------------------------------------

  predicate IsSquare3(m: Matrix) {
    |m| == 3 && |m[0]| == 3 && |m[1]| == 3 && |m[2]| == 3
  }

  function MatVec(m: Matrix, v: Vec): (r: Vec)
    requires IsSquare3(m)
  {
    [m[0][0] * v[0] + m[0][1] * v[1] + m[0][2] * v[2],
     m[1][0] * v[0] + m[1][1] * v[1] + m[1][2] * v[2],
     m[2][0] * v[0] + m[2][1] * v[1] + m[2][2] * v[2]]
  }

  const Identity: Matrix := [[1.0, 0.0, 0.0], [0.0, 1.0, 0.0], [0.0, 0.0, 1.0]]

  function Dot(u: Vec, v: Vec): real { u[0] * v[0] + u[1] * v[1] + u[2] * v[2] }

  function Cross(u: Vec, v: Vec): Vec {
    [u[1] * v[2] - u[2] * v[1], u[2] * v[0] - u[0] * v[2], u[0] * v[1] - u[1] * v[0]]
  }

  /** The skew-symmetric matrix K of an axis, with K v == axis x v. */
  function Skew(k: Vec): (m: Matrix)
    ensures IsSquare3(m)
  {
    [[0.0, -k[2], k[1]], [k[2], 0.0, -k[0]], [-k[1], k[0], 0.0]]
  }

  function MatMul(a: Matrix, b: Matrix): (m: Matrix)
    requires IsSquare3(a) && IsSquare3(b)
    ensures IsSquare3(m)
  {
    seq(3, i requires 0 <= i < 3 => seq(3, j requires 0 <= j < 3 => a[i][0] * b[0][j] + a[i][1] * b[1][j] + a[i][2] * b[2][j]))
  }

  /** `I + s K + c K^2`. */
  function Rodrigues(k: Matrix, s: real, c: real): (m: Matrix)
    requires IsSquare3(k)
    ensures IsSquare3(m)
  {
    var k2 := MatMul(k, k);
    seq(3, i requires 0 <= i < 3 => seq(3, j requires 0 <= j < 3 => Identity[i][j] + s * k[i][j] + c * k2[i][j]))
  }

  /** Dot products above this count as already aligned, below its negation as
      opposite. */
  const AlignedDot: real := 0.9999

  /** `create_calibration_offset`: the rotation taking `current` onto `target`.
      Both are normalised; aligned vectors give the identity; opposite vectors
      turn half a circle about an axis perpendicular to `current` (built from Z,
      or from X when `current` is nearly vertical); otherwise the axis is their
      cross product and the angle the arc cosine of their clipped dot product. */
  function CalibrationOffset(n: Numerics, current: Vec, target: Vec): (r: Matrix)
    ensures IsSquare3(r)
    ensures Dot(NormalizeVector(n, current), NormalizeVector(n, target)) > AlignedDot ==> r == Identity
  {
    var c := NormalizeVector(n, current);
    var t := NormalizeVector(n, target);
    var d := Dot(c, t);
    if d > AlignedDot then Identity
    else
      var axisAngle :=
        if d < -AlignedDot then
          var arbitrary: Vec := if Abs(Dot(c, [0.0, 0.0, 1.0])) > 0.9 then [1.0, 0.0, 0.0] else [0.0, 0.0, 1.0];
          (NormalizeVector(n, Cross(c, arbitrary)), Pi)
        else (NormalizeVector(n, Cross(c, t)), n.acos(Clamp(d, -1.0, 1.0)));
      Rodrigues(Skew(axisAngle.0), n.sin(axisAngle.1), 1.0 - n.cos(axisAngle.1))
  }

  /** With a genuine square root, a vector is aligned with itself, so calibrating
      a direction onto itself gives the identity. */
  lemma SelfAlignmentIsIdentity(n: Numerics, v: Vec)
    requires ExactSqrtAt(n, NormSq(v))
    ensures CalibrationOffset(n, v, v) == Identity
  {
    NormalizeIsUnit(n, v);
    assert Dot(NormalizeVector(n, v), NormalizeVector(n, v)) == NormSq(NormalizeVector(n, v));
  }

  /** `apply_calibration`: rotate, then renormalise. A matrix that is not 3x3
      makes `process` fail further on, which is `None` here. */
  function ApplyCalibration(n: Numerics, v: Vec, m: Matrix): (r: Option<Vec>)
    ensures r.Some? <==> IsSquare3(m)
  {
    if IsSquare3(m) then Some(NormalizeVector(n, MatVec(m, v))) else None
  }

  /** The identity matrix only renormalises. */
  lemma ApplyIdentity(n: Numerics, v: Vec)
    ensures ApplyCalibration(n, v, Identity) == Some(NormalizeVector(n, v))
  {
    assert MatVec(Identity, v) == v;
  }

  /** Two 3x3 matrices with the same entries are equal. */
  lemma EntrywiseEqual(a: Matrix, b: Matrix)
    requires IsSquare3(a) && IsSquare3(b)
    requires forall i, j :: 0 <= i < 3 && 0 <= j < 3 ==> a[i][j] == b[i][j]
    ensures a == b
  {
    assert a[0] == b[0] && a[1] == b[1] && a[2] == b[2];
  }

  /** Calibrating +X onto +Y turns a quarter circle about +Z, and applying that
      matrix to +X gives +Y. */
  lemma CalibrationQuarterTurn(n: Numerics)
    requires n.sqrt(1.0) == 1.0 && n.acos(0.0) == Pi / 2.0
    requires n.sin(Pi / 2.0) == 1.0 && n.cos(Pi / 2.0) == 0.0
    ensures CalibrationOffset(n, [1.0, 0.0, 0.0], [0.0, 1.0, 0.0])
         == [[0.0, -1.0, 0.0], [1.0, 0.0, 0.0], [0.0, 0.0, 1.0]]
    ensures ApplyCalibration(n, [1.0, 0.0, 0.0], CalibrationOffset(n, [1.0, 0.0, 0.0], [0.0, 1.0, 0.0]))
         == Some([0.0, 1.0, 0.0])
  {
    var x: Vec := [1.0, 0.0, 0.0];
    var y: Vec := [0.0, 1.0, 0.0];
    var z: Vec := [0.0, 0.0, 1.0];
    assert NormalizeVector(n, x) == x;
    assert NormalizeVector(n, y) == y;
    assert Cross(x, y) == z;
    assert NormalizeVector(n, z) == z;
    var k := Skew(z);
    assert k == [[0.0, -1.0, 0.0], [1.0, 0.0, 0.0], [0.0, 0.0, 0.0]];
    var k2 := [[-1.0, 0.0, 0.0], [0.0, -1.0, 0.0], [0.0, 0.0, 0.0]];
    EntrywiseEqual(MatMul(k, k), k2);
    var r := [[0.0, -1.0, 0.0], [1.0, 0.0, 0.0], [0.0, 0.0, 1.0]];
    EntrywiseEqual(Rodrigues(k, 1.0, 1.0), r);
    assert MatVec(r, x) == y;
  }

  // ---------------------------------------------------------------------------
  // Ray / box intersection (slab method)
  // ---------------------------------------------------------------------------

  /** A ray parameter that may be -inf or +inf. */
  datatype Ext = NegInf | Fin(v: real) | PosInf

  /** `max(a, b)` with b finite. */
  function ExtMax(a: Ext, b: real): Ext {
    match a
    case NegInf => Fin(b)
    case Fin(x) => Fin(if x >= b then x else b)
    case PosInf => PosInf
  }

  /** `min(a, b)` with b finite. */
  function ExtMin(a: Ext, b: real): Ext {
    match a
    case NegInf => NegInf
    case Fin(x) => Fin(if x <= b then x else b)
    case PosInf => Fin(b)
  }

  /** `a > b` on extended parameters. */
  predicate ExtGreater(a: Ext, b: Ext) {
    match (a, b)
    case (Fin(x), Fin(y)) => x > y
    case (PosInf, PosInf) => false
    case (PosInf, _) => true
    case (NegInf, _) => false
    case (Fin(_), NegInf) => true
    case (Fin(_), PosInf) => false
  }

  /** `a < x` for a finite x. */
  predicate ExtBelow(a: Ext, x: real) {
    match a
    case NegInf => true
    case Fin(y) => y < x
    case PosInf => false
  }

  /** `lo <= t <= hi` for a finite t. */
  predicate InInterval(lo: Ext, hi: Ext, t: real) {
    (lo.NegInf? || (lo.Fin? && lo.v <= t)) && (hi.PosInf? || (hi.Fin? && t <= hi.v))
  }

  /** The outcome of the ray test. `NonFinite` is the case the source turns into a
      point made of infinities: no slab constrained the ray. */
  datatype RayResult = Miss | Hit(point: Vec, t: real) | NonFinite

  function PointAt(o: Vec, d: Vec, t: real): Vec {
    [o[0] + d[0] * t, o[1] + d[1] * t, o[2] + d[2] * t]
  }

  predicate Parallel(x: real) { Abs(x) < ParallelEpsilon }

  predicate Between(x: real, a: real, b: real) { (a <= x <= b) || (b <= x <= a) }

  /** The ray at parameter t is inside slab i: for a parallel axis the origin must
      lie in [lo, hi]; otherwise the point lies between the two planes. */
  predicate InSlab(o: Vec, d: Vec, lo: Vec, hi: Vec, i: nat, t: real)
    requires i < 3
  {
    if Parallel(d[i]) then lo[i] <= o[i] <= hi[i] else Between(o[i] + d[i] * t, lo[i], hi[i])
  }

  predicate InSlabsBelow(o: Vec, d: Vec, lo: Vec, hi: Vec, i: nat, t: real)
    requires i <= 3
  {
    forall k :: 0 <= k < i ==> InSlab(o, d, lo, hi, k, t)
  }

  /** The ray at parameter t is inside the box (every slab). */
  predicate InBox(o: Vec, d: Vec, lo: Vec, hi: Vec, t: real) {
    InSlabsBelow(o, d, lo, hi, 3, t)
  }

  /** What the slab method promises of its outcome. A miss means no parameter
      t >= 0 reaches the box; a hit is a point of the box at some t >= 0: the entry
      point when the box lies wholly ahead, the exit point when the ray starts
      inside (some in-box parameter is negative); `NonFinite` happens only when
      every component is negligible and the origin is inside. */
  ghost predicate RaySound(o: Vec, d: Vec, lo: Vec, hi: Vec, r: RayResult) {
    match r
    case Miss => forall t :: t >= 0.0 ==> !InBox(o, d, lo, hi, t)
    case Hit(p, t) =>
      && t >= 0.0
      && p == PointAt(o, d, t)
      && InBox(o, d, lo, hi, t)
      && ((forall s :: InBox(o, d, lo, hi, s) ==> s >= 0.0) ==> (forall s :: InBox(o, d, lo, hi, s) ==> t <= s))
      && (!(forall s :: InBox(o, d, lo, hi, s) ==> s >= 0.0) ==> (forall s :: InBox(o, d, lo, hi, s) ==> s <= t))
    case NonFinite => AllParallel(d) && InBox(o, d, lo, hi, 0.0)
  }

  /** The final step: reject a box wholly behind the origin, else pick t_near when
      it is non-negative and t_far otherwise. */
  function Finish(o: Vec, d: Vec, tNear: Ext, tFar: Ext): RayResult {
    if ExtBelow(tFar, 0.0) then Miss
    else
      var t := if !ExtBelow(tNear, 0.0) then tNear else tFar;
      if t.Fin? then Hit(PointAt(o, d, t.v), t.v) else NonFinite
  }

  /** Every axis from i onwards is parallel to the ray. */
  predicate ParallelFrom(d: Vec, i: nat) {
    forall k :: i <= k < 3 ==> Parallel(d[k])
  }

  /** The slab loop from axis i onwards, with the parameters accumulated so far. */
  function Scan(o: Vec, d: Vec, lo: Vec, hi: Vec, i: nat, tNear: Ext, tFar: Ext): (r: RayResult)
    requires i <= 3
    ensures r.Hit? ==> r.t >= 0.0 && r.point == PointAt(o, d, r.t)
    ensures r.NonFinite? && tNear != PosInf ==> tFar == PosInf && ParallelFrom(d, i)
    decreases 3 - i
  {
    if i == 3 then Finish(o, d, tNear, tFar)
    else if Parallel(d[i]) then
      if o[i] < lo[i] || o[i] > hi[i] then Miss else Scan(o, d, lo, hi, i + 1, tNear, tFar)
    else
      var t1 := (lo[i] - o[i]) / d[i];
      var t2 := (hi[i] - o[i]) / d[i];
      var near := ExtMax(tNear, if t1 > t2 then t2 else t1);
      var far := ExtMin(tFar, if t1 > t2 then t1 else t2);
      if ExtGreater(near, far) then Miss else Scan(o, d, lo, hi, i + 1, near, far)
  }

  /** `ray_box_intersection` as a value: the direction is normalised first. */
  function RaySpec(n: Numerics, origin: Vec, direction: Vec, boxMin: Vec, boxMax: Vec): (r: RayResult)
    ensures r.Hit? ==> r.t >= 0.0 && r.point == PointAt(origin, NormalizeVector(n, direction), r.t)
    ensures r.NonFinite? ==> AllParallel(NormalizeVector(n, direction))
  {
    Scan(origin, NormalizeVector(n, direction), boxMin, boxMax, 0, NegInf, PosInf)
  }

  /** Along a non-parallel axis, the slab is the parameter interval between the
      two plane crossings. */
  lemma SlabInterval(o: real, d: real, lo: real, hi: real, t: real)
    requires d != 0.0
    ensures Between(o + d * t, lo, hi) <==> Between(t, (lo - o) / d, (hi - o) / d)
  {
    var a, b := (lo - o) / d, (hi - o) / d;
    assert lo == o + d * a && hi == o + d * b;
    if d > 0.0 {
      assert t <= a <==> d * t <= d * a;
      assert a <= t <==> d * a <= d * t;
      assert t <= b <==> d * t <= d * b;
      assert b <= t <==> d * b <= d * t;
    } else {
      assert t <= a <==> d * a <= d * t;
      assert a <= t <==> d * t <= d * a;
      assert t <= b <==> d * b <= d * t;
      assert b <= t <==> d * t <= d * b;
    }
  }

  /** The loop invariant of the slab method after axes 0 .. i-1: the parameters
      inside every slab seen so far are exactly [t_near, t_far], and both bounds
      stay infinite only while every slab seen was parallel. */
  ghost predicate ScanInvariant(o: Vec, d: Vec, lo: Vec, hi: Vec, i: nat, tNear: Ext, tFar: Ext)
    requires i <= 3
  {
    && !tNear.PosInf? && !tFar.NegInf?
    && (tNear.NegInf? <==> tFar.PosInf?)
    && (tNear.Fin? ==> tNear.v <= tFar.v)
    && (tFar.PosInf? ==> forall k :: 0 <= k < i ==> Parallel(d[k]))
    && (forall t :: InSlabsBelow(o, d, lo, hi, i, t) <==> InInterval(tNear, tFar, t))
  }

  /** Once all three axes are seen, the final step is sound. */
  lemma FinishSound(o: Vec, d: Vec, lo: Vec, hi: Vec, tNear: Ext, tFar: Ext)
    requires ScanInvariant(o, d, lo, hi, 3, tNear, tFar)
    ensures RaySound(o, d, lo, hi, Finish(o, d, tNear, tFar))
  {
    if ExtBelow(tFar, 0.0) {
      forall t | t >= 0.0 ensures !InBox(o, d, lo, hi, t) {
        assert !InInterval(tNear, tFar, t);
      }
    } else if tNear.NegInf? {
      assert InInterval(tNear, tFar, 0.0);
    } else if !ExtBelow(tNear, 0.0) {
      var a := tNear.v;
      assert InInterval(tNear, tFar, a);
      forall s | InBox(o, d, lo, hi, s) ensures a <= s && s >= 0.0 {
        assert InInterval(tNear, tFar, s);
      }
    } else {
      var a, f := tNear.v, tFar.v;
      assert InInterval(tNear, tFar, f);
      assert InInterval(tNear, tFar, a);
      assert InBox(o, d, lo, hi, a) && a < 0.0;
      forall s | InBox(o, d, lo, hi, s) ensures s <= f {
        assert InInterval(tNear, tFar, s);
      }
    }
  }

  /** Slabs 0 .. i together are slabs 0 .. i-1 and slab i. */
  lemma SlabsBelowStep(o: Vec, d: Vec, lo: Vec, hi: Vec, i: nat, t: real)
    requires i < 3
    ensures InSlabsBelow(o, d, lo, hi, i + 1, t)
        <==> InSlabsBelow(o, d, lo, hi, i, t) && InSlab(o, d, lo, hi, i, t)
  {
  }

  /** A parallel axis whose slab holds the origin keeps the invariant unchanged. */
  lemma ParallelStep(o: Vec, d: Vec, lo: Vec, hi: Vec, i: nat, tNear: Ext, tFar: Ext)
    requires i < 3 && Parallel(d[i]) && lo[i] <= o[i] <= hi[i]
    requires ScanInvariant(o, d, lo, hi, i, tNear, tFar)
    ensures ScanInvariant(o, d, lo, hi, i + 1, tNear, tFar)
  {
    forall t ensures InSlabsBelow(o, d, lo, hi, i + 1, t) <==> InInterval(tNear, tFar, t) {
      SlabsBelowStep(o, d, lo, hi, i, t);
    }
  }

  /** A parallel axis whose slab misses the origin leaves no parameter in the box. */
  lemma ParallelMiss(o: Vec, d: Vec, lo: Vec, hi: Vec, i: nat)
    requires i < 3 && Parallel(d[i]) && (o[i] < lo[i] || o[i] > hi[i])
    ensures RaySound(o, d, lo, hi, Miss)
  {
    forall t | t >= 0.0 ensures !InBox(o, d, lo, hi, t) {
      assert !InSlab(o, d, lo, hi, i, t);
    }
  }

  /** A non-parallel axis intersects the interval with its own crossing interval. */
  lemma CrossingStep(o: Vec, d: Vec, lo: Vec, hi: Vec, i: nat, tNear: Ext, tFar: Ext, a: real, b: real)
    requires i < 3 && !Parallel(d[i])
    requires var t1, t2 := (lo[i] - o[i]) / d[i], (hi[i] - o[i]) / d[i];
      a == (if t1 > t2 then t2 else t1) && b == (if t1 > t2 then t1 else t2)
    requires forall t :: InSlabsBelow(o, d, lo, hi, i, t) <==> InInterval(tNear, tFar, t)
    requires !tNear.PosInf? && !tFar.NegInf?
    ensures forall t :: InSlabsBelow(o, d, lo, hi, i + 1, t) <==> InInterval(ExtMax(tNear, a), ExtMin(tFar, b), t)
  {
    forall t ensures InSlabsBelow(o, d, lo, hi, i + 1, t) <==> InInterval(ExtMax(tNear, a), ExtMin(tFar, b), t) {
      SlabInterval(o[i], d[i], lo[i], hi[i], t);
      assert InSlab(o, d, lo, hi, i, t) <==> a <= t <= b;
      SlabsBelowStep(o, d, lo, hi, i, t);
    }
  }

  /** An empty interval leaves no parameter in the box. */
  lemma EmptyMiss(o: Vec, d: Vec, lo: Vec, hi: Vec, i: nat, near: Ext, far: Ext)
    requires i < 3
    requires ExtGreater(near, far)
    requires forall t :: InSlabsBelow(o, d, lo, hi, i + 1, t) <==> InInterval(near, far, t)
    ensures RaySound(o, d, lo, hi, Miss)
  {
    forall t | t >= 0.0 ensures !InBox(o, d, lo, hi, t) {
      assert !InInterval(near, far, t);
      assert !InSlabsBelow(o, d, lo, hi, i + 1, t);
    }
  }

  /** From the invariant, whatever Scan returns is sound. */
  lemma {:induction false} ScanSound(o: Vec, d: Vec, lo: Vec, hi: Vec, i: nat, tNear: Ext, tFar: Ext)
    requires i <= 3
    requires ScanInvariant(o, d, lo, hi, i, tNear, tFar)
    ensures RaySound(o, d, lo, hi, Scan(o, d, lo, hi, i, tNear, tFar))
    decreases 3 - i
  {
    if i == 3 {
      FinishSound(o, d, lo, hi, tNear, tFar);
    } else if Parallel(d[i]) {
      if o[i] < lo[i] || o[i] > hi[i] {
        ParallelMiss(o, d, lo, hi, i);
      } else {
        ParallelStep(o, d, lo, hi, i, tNear, tFar);
        ScanSound(o, d, lo, hi, i + 1, tNear, tFar);
      }
    } else {
      var t1 := (lo[i] - o[i]) / d[i];
      var t2 := (hi[i] - o[i]) / d[i];
      var a := if t1 > t2 then t2 else t1;
      var b := if t1 > t2 then t1 else t2;
      var near := ExtMax(tNear, a);
      var far := ExtMin(tFar, b);
      CrossingStep(o, d, lo, hi, i, tNear, tFar, a, b);
      if ExtGreater(near, far) {
        EmptyMiss(o, d, lo, hi, i, near, far);
      } else {
        assert ScanInvariant(o, d, lo, hi, i + 1, near, far);
        ScanSound(o, d, lo, hi, i + 1, near, far);
      }
    }
  }

  /** Whatever the slab method returns obeys RaySound. */
  lemma RaySpecSound(n: Numerics, origin: Vec, direction: Vec, boxMin: Vec, boxMax: Vec)
    ensures RaySound(origin, NormalizeVector(n, direction), boxMin, boxMax, RaySpec(n, origin, direction, boxMin, boxMax))
  {
    var d := NormalizeVector(n, direction);
    forall t ensures InSlabsBelow(origin, d, boxMin, boxMax, 0, t) <==> InInterval(NegInf, PosInf, t) { }
    ScanSound(origin, d, boxMin, boxMax, 0, NegInf, PosInf);
  }

  /** `ray_box_intersection`: normalise the direction, then narrow
      [t_near, t_far] axis by axis, leaving early on a parallel axis outside its
      slab or on an empty interval. */
  method RayBoxIntersection(n: Numerics, origin: Vec, direction: Vec, boxMin: Vec, boxMax: Vec)
    returns (hit: RayResult)
    ensures hit == RaySpec(n, origin, direction, boxMin, boxMax)
    ensures RaySound(origin, NormalizeVector(n, direction), boxMin, boxMax, hit)
  {
    var d := NormalizeVector(n, direction);
    ghost var spec := Scan(origin, d, boxMin, boxMax, 0, NegInf, PosInf);
    var tNear, tFar := NegInf, PosInf;
    for i := 0 to 3
      invariant Scan(origin, d, boxMin, boxMax, i, tNear, tFar) == spec
    {
      if Abs(d[i]) < ParallelEpsilon {
        assert Scan(origin, d, boxMin, boxMax, i, tNear, tFar)
            == if origin[i] < boxMin[i] || origin[i] > boxMax[i] then Miss
               else Scan(origin, d, boxMin, boxMax, i + 1, tNear, tFar);
        if origin[i] < boxMin[i] || origin[i] > boxMax[i] {
          RaySpecSound(n, origin, direction, boxMin, boxMax);
          return Miss;
        }
      } else {
        var t1 := (boxMin[i] - origin[i]) / d[i];
        var t2 := (boxMax[i] - origin[i]) / d[i];
        if t1 > t2 {
          t1, t2 := t2, t1;
        }
        tNear := ExtMax(tNear, t1);
        tFar := ExtMin(tFar, t2);
        if ExtGreater(tNear, tFar) {
          RaySpecSound(n, origin, direction, boxMin, boxMax);
          return Miss;
        }
      }
    }
    assert spec == Finish(origin, d, tNear, tFar);
    if ExtBelow(tFar, 0.0) {
      RaySpecSound(n, origin, direction, boxMin, boxMax);
      return Miss;
    }
    var t := if !ExtBelow(tNear, 0.0) then tNear else tFar;
    if t.Fin? {
      hit := Hit(PointAt(origin, d, t.v), t.v);
    } else {
      hit := NonFinite;
    }
    RaySpecSound(n, origin, direction, boxMin, boxMax);
  }

  /** From an origin inside the box (a user standing in the venue), the ray never
      misses; with a genuine square root it always hits. */
  lemma InsideOriginHits(n: Numerics, origin: Vec, direction: Vec, boxMin: Vec, boxMax: Vec)
    requires forall i :: 0 <= i < 3 ==> boxMin[i] <= origin[i] <= boxMax[i]
    ensures RaySpec(n, origin, direction, boxMin, boxMax) != Miss
    ensures ExactSqrtAt(n, NormSq(direction)) ==> RaySpec(n, origin, direction, boxMin, boxMax).Hit?
  {
    var d := NormalizeVector(n, direction);
    RaySpecSound(n, origin, direction, boxMin, boxMax);
    assert InBox(origin, d, boxMin, boxMax, 0.0) by {
      forall k | 0 <= k < 3 ensures InSlab(origin, d, boxMin, boxMax, k, 0.0) {
        assert origin[k] + d[k] * 0.0 == origin[k];
      }
    }
    if ExactSqrtAt(n, NormSq(direction)) {
      NormalizedNotAllParallel(n, direction);
    }
  }

  /** From (5, 5, 1) towards +Y in the 10 x 10 x 4 venue the ray leaves through the
      back wall at (5, 10, 1). */
  lemma RayHitsBackWall(n: Numerics)
    requires n.sqrt(1.0) == 1.0
    ensures RaySpec(n, [5.0, 5.0, 1.0], [0.0, 1.0, 0.0], [0.0, 0.0, 0.0], [10.0, 10.0, 4.0])
         == Hit([5.0, 10.0, 1.0], 5.0)
  {
    var o, lo, hi: Vec := [5.0, 5.0, 1.0], [0.0, 0.0, 0.0], [10.0, 10.0, 4.0];
    var d := NormalizeVector(n, [0.0, 1.0, 0.0]);
    assert d == [0.0, 1.0, 0.0];
    assert Scan(o, d, lo, hi, 3, Fin(-5.0), Fin(5.0)) == Hit([5.0, 10.0, 1.0], 5.0);
    assert Scan(o, d, lo, hi, 2, Fin(-5.0), Fin(5.0)) == Hit([5.0, 10.0, 1.0], 5.0);
    assert Scan(o, d, lo, hi, 1, NegInf, PosInf) == Hit([5.0, 10.0, 1.0], 5.0);
  }

  /** From (5, 5, 2) towards -Z the ray meets the floor at (5, 5, 0). */
  lemma RayHitsFloor(n: Numerics)
    requires n.sqrt(1.0) == 1.0
    ensures RaySpec(n, [5.0, 5.0, 2.0], [0.0, 0.0, -1.0], [0.0, 0.0, 0.0], [10.0, 10.0, 4.0])
         == Hit([5.0, 5.0, 0.0], 2.0)
  {
    var o, lo, hi: Vec := [5.0, 5.0, 2.0], [0.0, 0.0, 0.0], [10.0, 10.0, 4.0];
    var d := NormalizeVector(n, [0.0, 0.0, -1.0]);
    assert d == [0.0, 0.0, -1.0];
    assert Scan(o, d, lo, hi, 3, Fin(-2.0), Fin(2.0)) == Hit([5.0, 5.0, 0.0], 2.0);
    assert Scan(o, d, lo, hi, 2, NegInf, PosInf) == Hit([5.0, 5.0, 0.0], 2.0);
  }

  /** A ray that starts on the ceiling and points up is not a miss: the exit
      distance is 0, so the answer is the starting point itself. */
  lemma RayLeavingCeilingHitsStart(n: Numerics)
    requires n.sqrt(1.0) == 1.0
    ensures RaySpec(n, [5.0, 5.0, 4.0], [0.0, 0.0, 1.0], [0.0, 0.0, 0.0], [10.0, 10.0, 4.0])
         == Hit([5.0, 5.0, 4.0], 0.0)
  {
    var o, lo, hi: Vec := [5.0, 5.0, 4.0], [0.0, 0.0, 0.0], [10.0, 10.0, 4.0];
    var d := NormalizeVector(n, [0.0, 0.0, 1.0]);
    assert d == [0.0, 0.0, 1.0];
    assert Scan(o, d, lo, hi, 3, Fin(-4.0), Fin(0.0)) == Hit([5.0, 5.0, 4.0], 0.0);
    assert Scan(o, d, lo, hi, 2, NegInf, PosInf) == Hit([5.0, 5.0, 4.0], 0.0);
  }

  // ---------------------------------------------------------------------------
  // Fixtures
  // ---------------------------------------------------------------------------

  datatype PanTilt = PanTilt(pan: real, tilt: real)

  /** The floor convention, in radians: the pan is measured from +Y towards +X
      and the tilt upwards from the horizontal. */
  function FloorAngles(n: Numerics, dx: real, dy: real, dz: real): PanTilt {
    PanTilt(n.atan2(dx, dy), n.atan2(dz, n.sqrt(dx * dx + dy * dy)))
  }

  /** The mounting-dependent raw angles, in radians: floor and wall use the
      floor convention, a ceiling mount uses it with the depth offset reversed,
      and any other string with the height offset reversed. */
  function MountedAngles(n: Numerics, dx: real, dy: real, dz: real, mounting: string): (r: PanTilt)
    ensures mounting == "floor" || mounting == "wall" ==> r == FloorAngles(n, dx, dy, dz)
    ensures mounting == "ceiling" ==> r == FloorAngles(n, dx, -dy, dz)
    ensures mounting != "ceiling" && mounting != "floor" && mounting != "wall" ==> r == FloorAngles(n, dx, dy, -dz)
  {
    assert (-dy) * (-dy) == dy * dy;
    var xy := n.sqrt(dx * dx + dy * dy);
    if mounting == "ceiling" then PanTilt(n.atan2(dx, -dy), n.atan2(dz, xy))
    else if mounting == "floor" then PanTilt(n.atan2(dx, dy), n.atan2(dz, xy))
    else if mounting == "wall" then PanTilt(n.atan2(dx, dy), n.atan2(dz, xy))
    else PanTilt(n.atan2(dx, dy), n.atan2(-dz, xy))
  }

  /** `calculate_fixture_pan_tilt`: angles in degrees towards the target, signs
      flipped on request; the result is not clamped. */
  function FixturePanTilt(n: Numerics, fixture: Vec, target: Vec, mounting: string,
                          panInvert: bool, tiltInvert: bool): (r: PanTilt)
    ensures var dx, dy, dz := target[0] - fixture[0], target[1] - fixture[1], target[2] - fixture[2];
      var base := FloorAngles(n, dx, if mounting == "ceiling" then -dy else dy,
                              if mounting in {"ceiling", "floor", "wall"} then dz else -dz);
      && r.pan == (if panInvert then -Degrees(base.pan) else Degrees(base.pan))
      && r.tilt == (if tiltInvert then -Degrees(base.tilt) else Degrees(base.tilt))
  {
    var raw := MountedAngles(n, target[0] - fixture[0], target[1] - fixture[1], target[2] - fixture[2], mounting);
    var pan := Degrees(raw.pan);
    var tilt := Degrees(raw.tilt);
    PanTilt(if panInvert then -pan else pan, if tiltInvert then -tilt else tilt)
  }

  /** `pan_invert` negates the pan and leaves the tilt alone. */
  lemma PanInvertFlipsPanOnly(n: Numerics, fixture: Vec, target: Vec, mounting: string, tiltInvert: bool)
    ensures FixturePanTilt(n, fixture, target, mounting, true, tiltInvert).pan
         == -FixturePanTilt(n, fixture, target, mounting, false, tiltInvert).pan
    ensures FixturePanTilt(n, fixture, target, mounting, true, tiltInvert).tilt
         == FixturePanTilt(n, fixture, target, mounting, false, tiltInvert).tilt
  {
  }

  /** `tilt_invert` negates the tilt and leaves the pan alone. */
  lemma TiltInvertFlipsTiltOnly(n: Numerics, fixture: Vec, target: Vec, mounting: string, panInvert: bool)
    ensures FixturePanTilt(n, fixture, target, mounting, panInvert, true).tilt
         == -FixturePanTilt(n, fixture, target, mounting, panInvert, false).tilt
    ensures FixturePanTilt(n, fixture, target, mounting, panInvert, true).pan
         == FixturePanTilt(n, fixture, target, mounting, panInvert, false).pan
  {
  }

  /** Floor and wall mounting compute the same angles. */
  lemma FloorAndWallAgree(n: Numerics, fixture: Vec, target: Vec, panInvert: bool, tiltInvert: bool)
    ensures FixturePanTilt(n, fixture, target, "floor", panInvert, tiltInvert)
         == FixturePanTilt(n, fixture, target, "wall", panInvert, tiltInvert)
  {
  }

  /** The target reflected through the fixture along axis k. */
  function ReflectThrough(target: Vec, fixture: Vec, k: nat): Vec
    requires k < 3
  {
    target[k := 2.0 * fixture[k] - target[k]]
  }

  /** A ceiling mount aims like a floor mount at the target mirrored in depth: only
      the pan's forward axis is reversed, the tilt is the floor's. */
  lemma CeilingMirrorsDepth(n: Numerics, fixture: Vec, target: Vec, panInvert: bool, tiltInvert: bool)
    ensures FixturePanTilt(n, fixture, target, "ceiling", panInvert, tiltInvert)
         == FixturePanTilt(n, fixture, ReflectThrough(target, fixture, 1), "floor", panInvert, tiltInvert)
  {
    var dx, dy, dz := target[0] - fixture[0], target[1] - fixture[1], target[2] - fixture[2];
    var r := ReflectThrough(target, fixture, 1);
    assert r[0] - fixture[0] == dx && r[2] - fixture[2] == dz;
    assert r[1] - fixture[1] == -dy;
    assert (-dy) * (-dy) == dy * dy;
    assert MountedAngles(n, dx, -dy, dz, "floor") == MountedAngles(n, dx, dy, dz, "ceiling");
  }

  /** Any other mounting string aims like a floor mount at the target mirrored in
      height: it is the only branch that negates the vertical offset. */
  lemma UnknownMountingMirrorsHeight(n: Numerics, fixture: Vec, target: Vec, mounting: string,
                                     panInvert: bool, tiltInvert: bool)
    requires mounting != "ceiling" && mounting != "floor" && mounting != "wall"
    ensures FixturePanTilt(n, fixture, target, mounting, panInvert, tiltInvert)
         == FixturePanTilt(n, fixture, ReflectThrough(target, fixture, 2), "floor", panInvert, tiltInvert)
  {
    var dx, dy, dz := target[0] - fixture[0], target[1] - fixture[1], target[2] - fixture[2];
    var r := ReflectThrough(target, fixture, 2);
    assert r[0] - fixture[0] == dx && r[1] - fixture[1] == dy;
    assert r[2] - fixture[2] == -dz;
    assert MountedAngles(n, dx, dy, -dz, "floor") == MountedAngles(n, dx, dy, dz, mounting);
  }

  /** The angles are returned as computed: a target straight behind a floor
      fixture gives pan 180, outside any +-90 pan range. */
  lemma PanTiltNotClamped(n: Numerics)
    requires n.atan2(0.0, -1.0) == Pi
    ensures FixturePanTilt(n, [0.0, 0.0, 0.0], [0.0, -1.0, 0.0], "floor", false, false).pan == 180.0
  {
  }

  /** A ceiling fixture at (5, 9, 3.5) aiming at the venue centre (5, 5, 1) pans 0
      and tilts downwards. */
  lemma CeilingFixtureCentred(n: Numerics)
    requires n.sqrt(16.0) == 4.0 && n.atan2(0.0, 4.0) == 0.0 && n.atan2(-2.5, 4.0) < 0.0
    ensures FixturePanTilt(n, [5.0, 9.0, 3.5], [5.0, 5.0, 1.0], "ceiling", false, false).pan == 0.0
    ensures FixturePanTilt(n, [5.0, 9.0, 3.5], [5.0, 5.0, 1.0], "ceiling", false, false).tilt < 0.0
  {
    var raw := MountedAngles(n, 0.0, -4.0, -2.5, "ceiling");
    assert raw == PanTilt(n.atan2(0.0, 4.0), n.atan2(-2.5, 4.0));
  }

  // ---------------------------------------------------------------------------
  // Utilities
  // ---------------------------------------------------------------------------

  /** `clamp`: `max(lo, min(value, hi))`. */
  function Clamp(value: real, lo: real, hi: real): (r: real)
    ensures lo <= hi ==> lo <= r <= hi
    ensures lo <= value <= hi ==> r == value
    ensures value < lo ==> r == lo
    ensures lo <= hi && hi < value ==> r == hi
    ensures hi < lo ==> r == lo
  {
    var m := if value <= hi then value else hi;
    if lo >= m then lo else m
  }

  /** Clamping twice is clamping once. */
  lemma ClampIdempotent(value: real, lo: real, hi: real)
    ensures Clamp(Clamp(value, lo, hi), lo, hi) == Clamp(value, lo, hi)
  {
  }
}
