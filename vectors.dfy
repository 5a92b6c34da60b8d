/** The part of numpy the pointing code uses on 3-vectors and 3x3 matrices:
    the three forms of `@`, `np.dot`, `np.linalg.norm` and `np.clip`. A
    one-dimensional array's `.T` is the array itself, so it does not appear. */
module Vectors {
  import opened Numerics

  /** A 3-vector in the (east, north, up) frame. */
  datatype Vec3 = Vec3(e: real, n: real, u: real)

  /** A 3x3 matrix, given by its rows. */
  datatype Mat3 = Mat3(r0: Vec3, r1: Vec3, r2: Vec3)

  const Zero := Vec3(0.0, 0.0, 0.0)
  const EastAxis := Vec3(1.0, 0.0, 0.0)
  const NorthAxis := Vec3(0.0, 1.0, 0.0)
  const UpAxis := Vec3(0.0, 0.0, 1.0)
  const Identity := Mat3(EastAxis, NorthAxis, UpAxis)

  function Dot(a: Vec3, b: Vec3): real
  {
    a.e * b.e + a.n * b.n + a.u * b.u
  }

  function Column0(m: Mat3): Vec3 { Vec3(m.r0.e, m.r1.e, m.r2.e) }
  function Column1(m: Mat3): Vec3 { Vec3(m.r0.n, m.r1.n, m.r2.n) }
  function Column2(m: Mat3): Vec3 { Vec3(m.r0.u, m.r1.u, m.r2.u) }

  function Transpose(m: Mat3): Mat3
  {
    Mat3(Column0(m), Column1(m), Column2(m))
  }

  /** `matrix @ vector`: the vector as a column, multiplied on the left. */
  function MatVec(m: Mat3, v: Vec3): Vec3
  {
    Vec3(Dot(m.r0, v), Dot(m.r1, v), Dot(m.r2, v))
  }

  /** `vector @ matrix`: the vector as a row, multiplied on the right. */
  function VecMat(v: Vec3, m: Mat3): (w: Vec3)
    ensures w == MatVec(Transpose(m), v)
  {
    Vec3(Dot(v, Column0(m)), Dot(v, Column1(m)), Dot(v, Column2(m)))
  }

  /** `a @ b` on two matrices: row i of the product is row i of `a` times `b`. */
  function MatMul(a: Mat3, b: Mat3): Mat3
  {
    Mat3(VecMat(a.r0, b), VecMat(a.r1, b), VecMat(a.r2, b))
  }

  /** `(a @ b) @ v` is `a @ (b @ v)`: the product of two matrices applies the
      right one first. */
  lemma MatMulApplies(a: Mat3, b: Mat3, v: Vec3)
    ensures MatVec(MatMul(a, b), v) == MatVec(a, MatVec(b, v))
  {
    RowTimesProduct(a.r0, b, v);
    RowTimesProduct(a.r1, b, v);
    RowTimesProduct(a.r2, b, v);
  }

  lemma RowTimesProduct(r: Vec3, b: Mat3, v: Vec3)
    ensures Dot(VecMat(r, b), v) == Dot(r, MatVec(b, v))
  {
    var w := VecMat(r, b);
    assert w.e == r.e * b.r0.e + r.n * b.r1.e + r.u * b.r2.e;
    assert w.n == r.e * b.r0.n + r.n * b.r1.n + r.u * b.r2.n;
    assert w.u == r.e * b.r0.u + r.n * b.r1.u + r.u * b.r2.u;
    assert w.e * v.e == r.e * b.r0.e * v.e + r.n * b.r1.e * v.e + r.u * b.r2.e * v.e;
    assert w.n * v.n == r.e * b.r0.n * v.n + r.n * b.r1.n * v.n + r.u * b.r2.n * v.n;
    assert w.u * v.u == r.e * b.r0.u * v.u + r.n * b.r1.u * v.u + r.u * b.r2.u * v.u;
    assert r.e * Dot(b.r0, v) == r.e * b.r0.e * v.e + r.e * b.r0.n * v.n + r.e * b.r0.u * v.u;
    assert r.n * Dot(b.r1, v) == r.n * b.r1.e * v.e + r.n * b.r1.n * v.n + r.n * b.r1.u * v.u;
    assert r.u * Dot(b.r2, v) == r.u * b.r2.e * v.e + r.u * b.r2.n * v.n + r.u * b.r2.u * v.u;
  }

  /** Multiplying on the left and on the right are adjoint: the matrix can
      move from one side of a dot product to the other. */
  lemma MatVecAdjoint(m: Mat3, v: Vec3, u: Vec3)
    ensures Dot(MatVec(m, v), u) == Dot(v, VecMat(u, m))
  {
    RowTimesProduct(u, m, v);
  }

  /** `np.linalg.norm`, and `np.sqrt(e**2 + n**2 + u**2)`: the Euclidean length. */
  function Norm(m: Maths, v: Vec3): real
  {
    m.sqrt(v.e * v.e + v.n * v.n + v.u * v.u)
  }

  /** A length is never negative. */
  lemma NormNonNegative(m: Maths, v: Vec3)
    requires SquareRoot(m)
    ensures 0.0 <= Norm(m, v)
  {
    SquareNonNegative(v.e);
    SquareNonNegative(v.n);
    SquareNonNegative(v.u);
  }

  /** A vector whose squares sum to one has length one. */
  lemma UnitNorm(m: Maths, v: Vec3)
    requires SquareRoot(m)
    requires v.e * v.e + v.n * v.n + v.u * v.u == 1.0
    ensures Norm(m, v) == 1.0
  {
    var s := Norm(m, v);
    assert 0.0 <= s && s * s == 1.0;
    RootOfOne(s);
  }

  /** A length is zero exactly for the zero vector. */
  lemma NormZeroIffZero(m: Maths, v: Vec3)
    requires SquareRoot(m)
    ensures Norm(m, v) == 0.0 <==> v == Zero
  {
    SumOfSquaresPositive(v);
  }

  lemma SumOfSquaresPositive(v: Vec3)
    ensures v != Zero ==> 0.0 < v.e * v.e + v.n * v.n + v.u * v.u
  {
    SquareNonNegative(v.e);
    SquareNonNegative(v.n);
    SquareNonNegative(v.u);
    if v.e != 0.0 {
      SquarePositive(v.e);
    } else if v.n != 0.0 {
      SquarePositive(v.n);
    } else if v.u != 0.0 {
      SquarePositive(v.u);
    }
  }

  lemma SquareNonNegative(x: real)
    ensures 0.0 <= x * x
  {
    if x < 0.0 {
      PositiveProduct(-x, -x);
    } else if x > 0.0 {
      PositiveProduct(x, x);
    }
  }

  lemma SquarePositive(x: real)
    requires x != 0.0
    ensures 0.0 < x * x
  {
    if x < 0.0 {
      PositiveProduct(-x, -x);
    } else {
      PositiveProduct(x, x);
    }
  }

  lemma PositiveProduct(a: real, b: real)
    requires 0.0 < a && 0.0 < b
    ensures 0.0 < a * b
  {
  }

  /** `np.clip(v, lo, hi)`. */
  function Clip(v: real, lo: real, hi: real): (r: real)
    requires lo <= hi
    ensures lo <= r <= hi
    ensures lo <= v <= hi ==> r == v
    ensures v < lo ==> r == lo
    ensures hi < v ==> r == hi
  {
    if v < lo then lo else if hi < v then hi else v
  }
}
