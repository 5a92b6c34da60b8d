/** The East-North-Up pointing frame of src/pointing_conversion.py: the three
    axis rotations, the roll-pitch-yaw rotation, the angles derived from a
    pointing vector, and the ENU object that keeps a vector and those angles
    in step. */
module PointingConversion {
  import opened Numerics
  import opened Vectors

  // ---------------------------------------------------------------------
  // Rotation matrices (`R_east`, `R_north`, `R_up`, `R_rpy`), angles in degrees
  // ---------------------------------------------------------------------

  /** The matrix `R_east(theta)` builds: a rotation about the east axis. */
  function EastMatrix(m: Maths, theta: real): Mat3
  {
    var r := m.radians(theta);
    Mat3(Vec3(1.0, 0.0, 0.0),
         Vec3(0.0, m.cos(r), -m.sin(r)),
         Vec3(0.0, m.sin(r), m.cos(r)))
  }

  /** The matrix `R_north(theta)` builds: a rotation about the north axis. */
  function NorthMatrix(m: Maths, theta: real): Mat3
  {
    var r := m.radians(theta);
    Mat3(Vec3(m.cos(r), 0.0, m.sin(r)),
         Vec3(0.0, 1.0, 0.0),
         Vec3(-m.sin(r), 0.0, m.cos(r)))
  }

  /** The matrix `R_up(theta)` builds: a rotation about the up axis. */
  function UpMatrix(m: Maths, theta: real): Mat3
  {
    var r := m.radians(theta);
    Mat3(Vec3(m.cos(r), -m.sin(r), 0.0),
         Vec3(m.sin(r), m.cos(r), 0.0),
         Vec3(0.0, 0.0, 1.0))
  }

  /** The matrix `R_rpy(psi, phi, theta)` builds: roll `psi`, pitch `phi` and
      yaw `theta` in one matrix. */
  function RpyMatrix(m: Maths, psi: real, phi: real, theta: real): Mat3
  {
    var a, p, t := m.radians(psi), m.radians(phi), m.radians(theta);
    Mat3(Vec3(m.cos(t) * m.cos(a) - m.sin(t) * m.sin(p) * m.sin(a),
              -m.sin(t) * m.cos(p),
              -m.cos(t) * m.sin(a) - m.sin(t) * m.sin(p) * m.cos(a)),
         Vec3(-m.sin(t) * m.cos(p),
              m.cos(t) * m.cos(p),
              -m.sin(p)),
         Vec3(-m.cos(t) * m.sin(a) - m.sin(t) * m.sin(p) * m.cos(a),
              -m.sin(t) * m.sin(a) + m.cos(t) * m.sin(p) * m.cos(a),
              m.cos(p) * m.cos(a)))
  }

  /** Every rotation by zero degrees, and the roll-pitch-yaw rotation by three
      zeros, is the identity. */
  lemma ZeroRotationIsIdentity(m: Maths)
    requires ZeroAngle(m)
    ensures EastMatrix(m, 0.0) == Identity
    ensures NorthMatrix(m, 0.0) == Identity
    ensures UpMatrix(m, 0.0) == Identity
    ensures RpyMatrix(m, 0.0, 0.0, 0.0) == Identity
  {
  }

  /** So rotating any vector by zero degrees leaves it as it is, whichever
      side of the matrix it is multiplied on. */
  lemma ZeroRotationFixes(m: Maths, v: Vec3)
    requires ZeroAngle(m)
    ensures MatVec(EastMatrix(m, 0.0), v) == v
    ensures VecMat(v, NorthMatrix(m, 0.0)) == v
    ensures VecMat(v, UpMatrix(m, 0.0)) == v
    ensures VecMat(v, RpyMatrix(m, 0.0, 0.0, 0.0)) == v
  {
    ZeroRotationIsIdentity(m);
  }

  /** Each axis rotation leaves its own axis where it is, on the side the
      source multiplies it. */
  lemma AxisRotationsFixTheirAxes(m: Maths, theta: real)
    ensures MatVec(EastMatrix(m, theta), EastAxis) == EastAxis
    ensures VecMat(NorthAxis, NorthMatrix(m, theta)) == NorthAxis
    ensures VecMat(UpAxis, UpMatrix(m, theta)) == UpAxis
  {
  }

  /** With sin^2 + cos^2 = 1 the east matrix is orthogonal: times its transpose
      it is the identity, so its transpose undoes it. The same holds for the
      north and up matrices. */
  lemma EastMatrixOrthogonal(m: Maths, theta: real)
    requires Pythagoras(m)
    ensures MatMul(EastMatrix(m, theta), Transpose(EastMatrix(m, theta))) == Identity
  {
    var r := m.radians(theta);
    var c, s := m.cos(r), m.sin(r);
    assert s * s + c * c == 1.0;
    assert EastMatrix(m, theta) == Mat3(EastAxis, Vec3(0.0, c, -s), Vec3(0.0, s, c));
    PlaneOrthogonal(EastMatrix(m, theta), c, s);
  }

  /** The north matrix is orthogonal. */
  lemma NorthMatrixOrthogonal(m: Maths, theta: real)
    requires Pythagoras(m)
    ensures MatMul(NorthMatrix(m, theta), Transpose(NorthMatrix(m, theta))) == Identity
  {
    var r := m.radians(theta);
    var c, s := m.cos(r), m.sin(r);
    assert s * s + c * c == 1.0;
    assert NorthMatrix(m, theta) == Mat3(Vec3(c, 0.0, s), NorthAxis, Vec3(-s, 0.0, c));
    PlaneOrthogonal(NorthMatrix(m, theta), c, s);
  }

  /** The up matrix is orthogonal. */
  lemma UpMatrixOrthogonal(m: Maths, theta: real)
    requires Pythagoras(m)
    ensures MatMul(UpMatrix(m, theta), Transpose(UpMatrix(m, theta))) == Identity
  {
    var r := m.radians(theta);
    var c, s := m.cos(r), m.sin(r);
    assert s * s + c * c == 1.0;
    assert UpMatrix(m, theta) == Mat3(Vec3(c, -s, 0.0), Vec3(s, c, 0.0), UpAxis);
    PlaneOrthogonal(UpMatrix(m, theta), c, s);
  }

  /** The three shapes of a plane rotation by (c, s) are orthogonal. */
  lemma PlaneOrthogonal(a: Mat3, c: real, s: real)
    requires s * s + c * c == 1.0
    requires || a == Mat3(EastAxis, Vec3(0.0, c, -s), Vec3(0.0, s, c))
             || a == Mat3(Vec3(c, 0.0, s), NorthAxis, Vec3(-s, 0.0, c))
             || a == Mat3(Vec3(c, -s, 0.0), Vec3(s, c, 0.0), UpAxis)
    ensures MatMul(a, Transpose(a)) == Identity
  {
    GramMatrix(a);
    assert c * c + (-s) * (-s) == 1.0;
    assert Dot(Vec3(0.0, c, -s), Vec3(0.0, s, c)) == 0.0;
    assert Dot(Vec3(c, 0.0, s), Vec3(-s, 0.0, c)) == 0.0;
    assert Dot(Vec3(c, -s, 0.0), Vec3(s, c, 0.0)) == 0.0;
  }

  /** A matrix times its transpose holds the dot products of its rows. */
  lemma GramMatrix(a: Mat3)
    ensures MatMul(a, Transpose(a))
         == Mat3(Vec3(Dot(a.r0, a.r0), Dot(a.r0, a.r1), Dot(a.r0, a.r2)),
                 Vec3(Dot(a.r1, a.r0), Dot(a.r1, a.r1), Dot(a.r1, a.r2)),
                 Vec3(Dot(a.r2, a.r0), Dot(a.r2, a.r1), Dot(a.r2, a.r2)))
  {
    assert Column0(Transpose(a)) == a.r0;
    assert Column1(Transpose(a)) == a.r1;
    assert Column2(Transpose(a)) == a.r2;
  }

  /** With zero roll and zero yaw, the roll-pitch-yaw matrix is the rotation
      about the east axis by the pitch. */
  lemma PitchOnlyIsEastRotation(m: Maths, phi: real)
    requires ZeroAngle(m)
    ensures RpyMatrix(m, 0.0, phi, 0.0) == EastMatrix(m, phi)
  {
  }

  /** `R_rpy` multiplies on the right, `R_east` on the left: with zero roll
      and yaw, `R_rpy` turns a vector by the opposite pitch. */
  lemma PitchOnlyTurnsBackwards(m: Maths, phi: real, v: Vec3)
    requires ZeroAngle(m) && Parity(m)
    ensures VecMat(v, RpyMatrix(m, 0.0, phi, 0.0)) == MatVec(EastMatrix(m, -phi), v)
  {
    PitchOnlyIsEastRotation(m, phi);
    assert m.radians(-phi) == -m.radians(phi);
    var r := m.radians(phi);
    assert m.sin(-r) == -m.sin(r) && m.cos(-r) == m.cos(r);
  }

  /** `R_east` multiplies the matrix on the left of the vector: the east
      component is kept and the length is preserved. */
  lemma EastRotation(m: Maths, theta: real, v: Vec3)
    requires Pythagoras(m)
    ensures MatVec(EastMatrix(m, theta), v).e == v.e
    ensures Dot(MatVec(EastMatrix(m, theta), v), MatVec(EastMatrix(m, theta), v)) == Dot(v, v)
  {
    var r := m.radians(theta);
    PlaneRotation(m.cos(r), m.sin(r), v.n, v.u);
  }

  /** `R_north` multiplies the vector on the left of the matrix: the north
      component is kept and the length is preserved. */
  lemma NorthRotation(m: Maths, theta: real, v: Vec3)
    requires Pythagoras(m)
    ensures VecMat(v, NorthMatrix(m, theta)).n == v.n
    ensures Dot(VecMat(v, NorthMatrix(m, theta)), VecMat(v, NorthMatrix(m, theta))) == Dot(v, v)
  {
    var r := m.radians(theta);
    PlaneRotation(m.cos(r), -m.sin(r), v.e, v.u);
  }

  /** `R_up` multiplies the vector on the left of the matrix: the up component
      is kept and the length is preserved. */
  lemma UpRotation(m: Maths, theta: real, v: Vec3)
    requires Pythagoras(m)
    ensures VecMat(v, UpMatrix(m, theta)).u == v.u
    ensures Dot(VecMat(v, UpMatrix(m, theta)), VecMat(v, UpMatrix(m, theta))) == Dot(v, v)
  {
    var r := m.radians(theta);
    PlaneRotation(m.cos(r), -m.sin(r), v.e, v.n);
  }

  lemma PlaneRotation(c: real, s: real, p: real, q: real)
    requires s * s + c * c == 1.0
    ensures (c * p - s * q) * (c * p - s * q) + (s * p + c * q) * (s * p + c * q) == p * p + q * q
  {
    assert (c * p - s * q) * (c * p - s * q) + (s * p + c * q) * (s * p + c * q)
        == (s * s + c * c) * (p * p + q * q);
  }

  /** With sine odd and cosine even, multiplying on the right (as `R_north`
      and `R_up` do) rotates by the opposite angle. */
  lemma RowRotationReversesAngle(m: Maths, theta: real, v: Vec3)
    requires Parity(m)
    ensures VecMat(v, NorthMatrix(m, theta)) == MatVec(NorthMatrix(m, -theta), v)
    ensures VecMat(v, UpMatrix(m, theta)) == MatVec(UpMatrix(m, -theta), v)
  {
    assert m.radians(-theta) == -m.radians(theta);
    var r := m.radians(theta);
    assert m.sin(-r) == -m.sin(r) && m.cos(-r) == m.cos(r);
  }

  // ---------------------------------------------------------------------
  // The vectors `from_azel` and `from_xy` build
  // ---------------------------------------------------------------------

  /** `R_up(-az) @ R_east(el) @ north`: azimuth and elevation as a vector. */
  function AzElVector(m: Maths, az: real, el: real): (v: Vec3)
    ensures var a, e := m.radians(-az), m.radians(el);
      v == Vec3(-m.sin(a) * m.cos(e), m.cos(a) * m.cos(e), m.sin(e))
  {
    MatVec(MatMul(UpMatrix(m, -az), EastMatrix(m, el)), NorthAxis)
  }

  /** `R_north(x) @ R_east(-y) @ up`: antenna X and Y angles as a vector. */
  function XYVector(m: Maths, x: real, y: real): (v: Vec3)
    ensures var a, b := m.radians(x), m.radians(-y);
      v == Vec3(m.sin(a) * m.cos(b), -m.sin(b), m.cos(a) * m.cos(b))
  {
    MatVec(MatMul(NorthMatrix(m, x), EastMatrix(m, -y)), UpAxis)
  }

  /** Azimuth is measured from north towards east and elevation up from the
      horizon. */
  lemma AzElVectorDirection(m: Maths, az: real, el: real)
    requires Parity(m)
    ensures var a, e := m.radians(az), m.radians(el);
      AzElVector(m, az, el) == Vec3(m.sin(a) * m.cos(e), m.cos(a) * m.cos(e), m.sin(e))
  {
    assert m.radians(-az) == -m.radians(az);
    var a := m.radians(az);
    assert m.sin(-a) == -m.sin(a) && m.cos(-a) == m.cos(a);
  }

  /** X tips the zenith towards east and Y towards north. */
  lemma XYVectorDirection(m: Maths, x: real, y: real)
    requires Parity(m)
    ensures var a, b := m.radians(x), m.radians(y);
      XYVector(m, x, y) == Vec3(m.sin(a) * m.cos(b), m.sin(b), m.cos(a) * m.cos(b))
  {
    assert m.radians(-y) == -m.radians(y);
    var b := m.radians(y);
    assert m.sin(-b) == -m.sin(b) && m.cos(-b) == m.cos(b);
  }

  /** Both constructions give unit vectors, so `unit_vector` leaves them as
      they are. */
  lemma AzElVectorIsUnit(m: Maths, az: real, el: real)
    requires Pythagoras(m) && SquareRoot(m)
    ensures Norm(m, AzElVector(m, az, el)) == 1.0
    ensures UnitVector(m, AzElVector(m, az, el)) == Some(AzElVector(m, az, el))
  {
    var a, e := m.radians(-az), m.radians(el);
    UnitLength(m.sin(a), m.cos(a), m.sin(e), m.cos(e));
    UnitNorm(m, AzElVector(m, az, el));
  }

  lemma XYVectorIsUnit(m: Maths, x: real, y: real)
    requires Pythagoras(m) && SquareRoot(m)
    ensures Norm(m, XYVector(m, x, y)) == 1.0
    ensures UnitVector(m, XYVector(m, x, y)) == Some(XYVector(m, x, y))
  {
    var a, b := m.radians(x), m.radians(-y);
    UnitLength(m.sin(a), m.cos(a), m.sin(b), m.cos(b));
    UnitNorm(m, XYVector(m, x, y));
  }

  /** (sa ce, ca ce, se) has length one whenever both angle pairs lie on the
      unit circle; the signs do not matter. */
  lemma UnitLength(sa: real, ca: real, se: real, ce: real)
    requires sa * sa + ca * ca == 1.0
    requires se * se + ce * ce == 1.0
    ensures (-sa * ce) * (-sa * ce) + (ca * ce) * (ca * ce) + se * se == 1.0
    ensures (sa * ce) * (sa * ce) + (-se) * (-se) + (ca * ce) * (ca * ce) == 1.0
  {
    assert (-sa * ce) * (-sa * ce) + (ca * ce) * (ca * ce) == (sa * sa + ca * ca) * (ce * ce);
    assert (sa * ce) * (sa * ce) + (ca * ce) * (ca * ce) == (sa * sa + ca * ca) * (ce * ce);
  }

  // ---------------------------------------------------------------------
  // `unit_vector` and `angle_between`
  // ---------------------------------------------------------------------

  /** `vector / np.linalg.norm(vector)`; `None` stands for the NaN vector numpy
      produces when the norm is zero. */
  function UnitVector(m: Maths, v: Vec3): (r: Option<Vec3>)
    ensures r.None? <==> Norm(m, v) == 0.0
    ensures r.Some? ==> Scale(Norm(m, v), r.value) == v
  {
    var n := Norm(m, v);
    if n == 0.0 then None else Some(Vec3(v.e / n, v.n / n, v.u / n))
  }

  function Scale(k: real, v: Vec3): Vec3
  {
    Vec3(k * v.e, k * v.n, k * v.u)
  }

  /** The unit vector exists exactly for a non-zero vector. */
  lemma UnitVectorDefined(m: Maths, v: Vec3)
    requires SquareRoot(m)
    ensures UnitVector(m, v).Some? <==> v != Zero
  {
    NormZeroIffZero(m, v);
  }

  /** The unit vector has length one. */
  lemma UnitVectorIsUnit(m: Maths, v: Vec3)
    requires SquareRoot(m)
    requires v != Zero
    ensures Dot(UnitVector(m, v).value, UnitVector(m, v).value) == 1.0
    ensures Norm(m, UnitVector(m, v).value) == 1.0
  {
    NormZeroIffZero(m, v);
    NormNonNegative(m, v);
    var n := Norm(m, v);
    SumOfSquaresPositive(v);
    assert n * n == v.e * v.e + v.n * v.n + v.u * v.u;
    Normalised(n, v.e, v.n, v.u);
    SqrtOfOne(m);
  }

  lemma Normalised(s: real, e: real, n: real, u: real)
    requires s * s == e * e + n * n + u * u && 0.0 < s
    ensures (e / s) * (e / s) + (n / s) * (n / s) + (u / s) * (u / s) == 1.0
  {
    var t := 1.0 / s;
    assert s * t == 1.0;
    assert e / s == e * t && n / s == n * t && u / s == u * t;
    assert (e * t) * (e * t) + (n * t) * (n * t) + (u * t) * (u * t) == (e * e + n * n + u * u) * (t * t);
    assert (s * s) * (t * t) == (s * t) * (s * t);
  }

  /** A vector of length one is its own unit vector. */
  lemma UnitVectorOfUnit(m: Maths, v: Vec3)
    requires Norm(m, v) == 1.0
    ensures UnitVector(m, v) == Some(v)
  {
  }

  /** `angle_between`: the arc cosine of the dot product of the two unit
      vectors, clipped into [-1, 1]; `None` stands for NaN. */
  function AngleBetween(m: Maths, v1: Vec3, v2: Vec3): (r: Option<real>)
    ensures r.None? <==> Norm(m, v1) == 0.0 || Norm(m, v2) == 0.0
    ensures r.Some? ==> exists c :: -1.0 <= c <= 1.0 && r.value == m.arccos(c)
  {
    var u1, u2 := UnitVector(m, v1), UnitVector(m, v2);
    if u1.None? || u2.None? then None
    else
      var c := Clip(Dot(u1.value, u2.value), -1.0, 1.0);
      Some(m.arccos(c))
  }

  /** A non-zero vector makes the angle arccos(1) with itself. */
  lemma AngleWithItself(m: Maths, v: Vec3)
    requires SquareRoot(m)
    requires v != Zero
    ensures AngleBetween(m, v, v) == Some(m.arccos(1.0))
  {
    UnitVectorIsUnit(m, v);
  }

  /** Perpendicular non-zero vectors make the angle arccos(0). */
  lemma AngleOfPerpendicular(m: Maths, v1: Vec3, v2: Vec3)
    requires SquareRoot(m)
    requires v1 != Zero && v2 != Zero && Dot(v1, v2) == 0.0
    ensures AngleBetween(m, v1, v2) == Some(m.arccos(0.0))
  {
    NormZeroIffZero(m, v1);
    NormZeroIffZero(m, v2);
    DotOfQuotients(v1, v2, Norm(m, v1), Norm(m, v2));
  }

  lemma DotOfQuotients(a: Vec3, b: Vec3, p: real, q: real)
    requires p != 0.0 && q != 0.0
    ensures Dot(Vec3(a.e / p, a.n / p, a.u / p), Vec3(b.e / q, b.n / q, b.u / q)) == Dot(a, b) / (p * q)
  {
    var t := 1.0 / (p * q);
    assert (a.e / p) * (b.e / q) == (a.e * b.e) * t;
    assert (a.n / p) * (b.n / q) == (a.n * b.n) * t;
    assert (a.u / p) * (b.u / q) == (a.u * b.u) * t;
  }

  // ---------------------------------------------------------------------
  // `update_state`: the angles derived from a vector
  // ---------------------------------------------------------------------

  /** The attributes `update_state` writes. */
  datatype Derived = Derived(
    east: real, north: real, up: real,
    az: real, el: real, rng: real,
    x: real, y: real, z: real,
    azel: (real, real), xy: (real, real))

  /** What `update_state` computes from a vector (angles in degrees). */
  function Derive(m: Maths, v: Vec3): (d: Derived)
    ensures (d.east, d.north, d.up) == (v.e, v.n, v.u)
    ensures 0.0 <= d.az < 360.0
    ensures IsWhole((d.az - d.z) / 360.0)
    ensures d.azel == (d.az, d.el) && d.xy == (d.x, d.y)
  {
    var z := m.degrees(m.arctan2(v.e, v.n));
    var az := FloatMod(z + 360.0, 360.0);
    WholeComplement((z + 360.0 - az) / 360.0);
    var el := m.degrees(m.arcsin(v.u));
    var x := m.degrees(m.arctan2(v.e, v.u));
    var y := m.degrees(m.arcsin(v.n));
    Derived(v.e, v.n, v.u, az, el, Norm(m, v), x, y, z, (az, el), (x, y))
  }

  /** The azimuth is the heading `z` brought into [0, 360). */
  lemma AzimuthOfHeading(m: Maths, v: Vec3)
    ensures var d := Derive(m, v);
      (0.0 <= d.z < 360.0 ==> d.az == d.z) && (-360.0 <= d.z < 0.0 ==> d.az == d.z + 360.0)
  {
    var z := Derive(m, v).z;
    if 0.0 <= z < 360.0 {
      FloatModFullTurn(z + 360.0);
    }
  }

  /** A vector's range is its length. */
  lemma RangeIsLength(m: Maths, v: Vec3)
    requires SquareRoot(m)
    ensures 0.0 <= Derive(m, v).rng
    ensures Derive(m, v).rng == 0.0 <==> v == Zero
  {
    NormNonNegative(m, v);
    NormZeroIffZero(m, v);
  }

  /** arcsin undoes sin on [-90, 90] degrees. */
  ghost predicate ArcSinInverse(m: Maths)
  {
    forall t :: -90.0 <= t <= 90.0 ==> m.degrees(m.arcsin(m.sin(m.radians(t)))) == t
  }

  /** The elevation read back from `from_azel`'s vector is the one given. */
  lemma ElevationRoundTrip(m: Maths, az: real, el: real)
    requires ArcSinInverse(m)
    requires -90.0 <= el <= 90.0
    ensures Derive(m, AzElVector(m, az, el)).el == el
  {
  }

  /** The Y angle read back from `from_xy`'s vector is the one given. */
  lemma YRoundTrip(m: Maths, x: real, y: real)
    requires ArcSinInverse(m) && Parity(m)
    requires -90.0 <= y <= 90.0
    ensures Derive(m, XYVector(m, x, y)).y == y
  {
    XYVectorDirection(m, x, y);
  }

  /** The X and Y angles an ENU object reports after `from_azel(az, el)`
      (see `ENU.FromAzEl`). The formulas are those of `Derive`, written out
      on their own so that the search does not carry `Derive`'s square root
      and remainder along; `AzElToXYIsDerived` shows the two agree. */
  function AzElToXY(m: Maths, az: real, el: real): (real, real)
  {
    var v := AzElVector(m, az, el);
    (m.degrees(m.arctan2(v.e, v.u)), m.degrees(m.arcsin(v.n)))
  }

  /** Those are the X and Y `update_state` derives from the azimuth/elevation
      vector. */
  lemma AzElToXYIsDerived(m: Maths, az: real, el: real)
    ensures AzElToXY(m, az, el) == Derive(m, AzElVector(m, az, el)).xy
  {
  }

  // ---------------------------------------------------------------------
  // The ENU object
  // ---------------------------------------------------------------------

  class ENU {
    const maths: Maths
    /** `None` until a vector is set. */
    var vector: Option<Vec3>
    var east: real
    var north: real
    var up: real
    var az: real
    var el: real
    var rng: real
    var x: real
    var y: real
    var z: real
    var azel: (real, real)
    var xy: (real, real)

    /** The attributes `update_state` writes, as one value. */
    function State(): Derived
      reads this
    {
      Derived(east, north, up, az, el, rng, x, y, z, azel, xy)
    }

    /** The attributes agree with the vector, as `update_state` leaves them. */
    ghost predicate Consistent()
      reads this
    {
      vector.Some? && State() == Derive(maths, vector.value)
    }

    /** `ENU(azel, xy)`: from azimuth and elevation when only `azel` is given,
        from antenna X and Y when only `xy` is given, and the north vector
        otherwise. */
    constructor (maths: Maths, azel: Option<(real, real)>, xy: Option<(real, real)>)
      requires Axioms(maths)
      ensures this.maths == maths
      ensures Consistent()
      ensures azel.Some? && xy.None? ==> vector == Some(AzElVector(maths, azel.value.0, azel.value.1))
      ensures xy.Some? && azel.None? ==> vector == Some(XYVector(maths, xy.value.0, xy.value.1))
      ensures azel.Some? == xy.Some? ==> vector == Some(NorthAxis)
    {
      this.maths := maths;
      vector := None;
      new;
      if azel.Some? && xy.None? {
        vector := Some(NorthAxis);
        FromAzEl(azel.value.0, azel.value.1);
      } else if xy.Some? && azel.None? {
        vector := Some(UpAxis);
        FromXY(xy.value.0, xy.value.1);
      } else {
        SqrtOfOne(maths);
        UnitVectorOfUnit(maths, NorthAxis);
        FromEnu(0.0, 1.0, 0.0);
      }
    }

    /** `from_azel`: the vector depends on the two angles only; the 1e-6
        stand-ins for zero angles are overwritten by `update_state`. */
    method FromAzEl(az: real, el: real)
      requires Axioms(maths)
      modifies this
      ensures vector == Some(AzElVector(maths, az, el))
      ensures Consistent()
      ensures xy == AzElToXY(maths, az, el)
    {
      this.az := if az != 0.0 then az else 0.000001;
      this.el := if el != 0.0 then el else 0.000001;
      var rotUp := RUp(-az);
      var rotEast := REast(el);
      var v := MatVec(MatMul(rotUp, rotEast), NorthAxis);
      AzElVectorIsUnit(maths, az, el);
      vector := UnitVector(maths, v);
      UpdateState();
    }

    /** `from_xy`: the vector depends on the two angles only. */
    method FromXY(x: real, y: real)
      requires Axioms(maths)
      modifies this
      ensures vector == Some(XYVector(maths, x, y))
      ensures Consistent()
    {
      this.x := if x != 0.0 then x else 0.000001;
      this.y := if y != 0.0 then y else 0.000001;
      var rotNorth := RNorth(x);
      var rotEast := REast(-y);
      var v := MatVec(MatMul(rotNorth, rotEast), UpAxis);
      XYVectorIsUnit(maths, x, y);
      vector := UnitVector(maths, v);
      UpdateState();
    }

    /** `from_enu`: normalised unless the components sum to zero, in which
        case the vector is kept as given. */
    method FromEnu(e: real, n: real, u: real)
      requires SquareRoot(maths)
      modifies this
      ensures e + n + u != 0.0 ==> vector == UnitVector(maths, Vec3(e, n, u)) && vector.Some?
      ensures e + n + u == 0.0 ==> vector == Some(Vec3(e, n, u))
      ensures Consistent()
    {
      if e + n + u != 0.0 {
        assert Vec3(e, n, u) != Zero;
        UnitVectorDefined(maths, Vec3(e, n, u));
        vector := UnitVector(maths, Vec3(e, n, u));
      } else {
        vector := Some(Vec3(e, n, u));
      }
      UpdateState();
    }

    /** `update_state`: recomputes every attribute from the vector. */
    method UpdateState()
      requires vector.Some?
      modifies this
      ensures vector == old(vector)
      ensures Consistent()
    {
      var v := vector.value;
      east := v.e;
      north := v.n;
      up := v.u;
      var heading := maths.degrees(maths.arctan2(east, north));
      az := FloatMod(heading + 360.0, 360.0);
      el := maths.degrees(maths.arcsin(up));
      rng := Norm(maths, v);
      x := maths.degrees(maths.arctan2(east, up));
      y := maths.degrees(maths.arcsin(north));
      z := heading;
      azel := (az, el);
      xy := (x, y);
    }

    /** `R_east`: returns the matrix; with a vector set, also rotates it
        (matrix on the left) and updates the state. */
    method REast(theta: real) returns (matrix: Mat3)
      modifies this
      ensures matrix == EastMatrix(maths, theta)
      ensures old(vector).None? ==> unchanged(this)
      ensures old(vector).Some? ==> vector == Some(MatVec(matrix, old(vector).value)) && Consistent()
    {
      matrix := EastMatrix(maths, theta);
      if vector.None? {
        return;
      }
      vector := Some(MatVec(matrix, vector.value));
      UpdateState();
    }

    /** `R_north`: as `R_east`, with the vector on the left of the matrix. */
    method RNorth(theta: real) returns (matrix: Mat3)
      modifies this
      ensures matrix == NorthMatrix(maths, theta)
      ensures old(vector).None? ==> unchanged(this)
      ensures old(vector).Some? ==> vector == Some(VecMat(old(vector).value, matrix)) && Consistent()
    {
      matrix := NorthMatrix(maths, theta);
      if vector.None? {
        return;
      }
      vector := Some(VecMat(vector.value, matrix));
      UpdateState();
    }

    /** `R_up`: as `R_north`, about the up axis. */
    method RUp(theta: real) returns (matrix: Mat3)
      modifies this
      ensures matrix == UpMatrix(maths, theta)
      ensures old(vector).None? ==> unchanged(this)
      ensures old(vector).Some? ==> vector == Some(VecMat(old(vector).value, matrix)) && Consistent()
    {
      matrix := UpMatrix(maths, theta);
      if vector.None? {
        return;
      }
      vector := Some(VecMat(vector.value, matrix));
      UpdateState();
    }

    /** `R_rpy`: needs a vector (the source fails without one). */
    method RRpy(psi: real, phi: real, theta: real) returns (matrix: Mat3)
      requires vector.Some?
      modifies this
      ensures matrix == RpyMatrix(maths, psi, phi, theta)
      ensures vector == Some(VecMat(old(vector).value, matrix)) && Consistent()
    {
      matrix := RpyMatrix(maths, psi, phi, theta);
      vector := Some(VecMat(vector.value, matrix));
      UpdateState();
    }
  }
}
