/** Numeric primitives the pointing code borrows from numpy and from Python
    itself. Their floating-point content is not modelled: every primitive is a
    field of `Maths`, an arbitrary function value, and the few facts a proof
    needs about them are stated as predicates that callers must supply. */
module Numerics {

  datatype Option<T> = None | Some(value: T)

  /** The floating-point primitives the source calls, left uninterpreted.
      `radians`/`degrees` stand for np.radians/np.degrees, `arcsin`, `arccos`,
      `arctan2`, `sin`, `cos`, `sqrt` for their numpy namesakes and `round2`
      for Python's round(v, 2). */
  datatype Maths = Maths(
    sin: real -> real,
    cos: real -> real,
    arcsin: real -> real,
    arccos: real -> real,
    arctan2: (real, real) -> real,
    sqrt: real -> real,
    radians: real -> real,
    degrees: real -> real,
    round2: real -> real)

  /** An angle of zero degrees is zero radians, with sine 0 and cosine 1. */
  ghost predicate ZeroAngle(m: Maths)
  {
    m.radians(0.0) == 0.0 && m.sin(0.0) == 0.0 && m.cos(0.0) == 1.0
  }

  /** sin(t)^2 + cos(t)^2 == 1 for every t. */
  ghost predicate Pythagoras(m: Maths)
  {
    forall t :: m.sin(t) * m.sin(t) + m.cos(t) * m.cos(t) == 1.0
  }

  /** sqrt is the non-negative square root on the non-negative reals. The
      first two conjuncts follow from the last; they are spelled out because
      the solver does not derive them from it. */
  ghost predicate SquareRoot(m: Maths)
  {
    m.sqrt(0.0) == 0.0 &&
    (forall q :: 0.0 < q ==> 0.0 < m.sqrt(q)) &&
    (forall q :: 0.0 <= q ==> 0.0 <= m.sqrt(q) && m.sqrt(q) * m.sqrt(q) == q)
  }

  /** The facts the conversion code relies on throughout. */
  ghost predicate Axioms(m: Maths)
  {
    Pythagoras(m) && SquareRoot(m)
  }

  /** Optional: radians and sin are odd, cos is even. */
  ghost predicate Parity(m: Maths)
  {
    forall t :: m.radians(-t) == -m.radians(t) && m.sin(-t) == -m.sin(t) && m.cos(-t) == m.cos(t)
  }

  /** Optional: round(v, 2) moves v by at most half a hundredth. */
  ghost predicate RoundBound(m: Maths)
  {
    forall v :: -0.005 <= m.round2(v) - v <= 0.005
  }

  lemma SqrtOfOne(m: Maths)
    requires SquareRoot(m)
    ensures m.sqrt(1.0) == 1.0
  {
    RootOfOne(m.sqrt(1.0));
  }

  /** The only non-negative square root of one is one. */
  lemma RootOfOne(s: real)
    requires 0.0 <= s && s * s == 1.0
    ensures s == 1.0
  {
    if s < 1.0 {
      MulMonotone(s, 1.0, s + 1.0);
    } else if s > 1.0 {
      MulMonotone(1.0, s, s);
    }
  }

  /** Python's `a % b` on floats for a positive divisor: the result has the
      sign of the divisor (floored division), unlike a truncating remainder. */
  function FloatMod(a: real, b: real): (r: real)
    requires 0.0 < b
    ensures 0.0 <= r < b
    ensures IsWhole((a - r) / b)
    ensures 0.0 <= a < b ==> r == a
  {
    FloorFacts(a, b);
    a - b * ((a / b).Floor as real)
  }

  lemma FloorFacts(a: real, b: real)
    requires 0.0 < b
    ensures var r := a - b * ((a / b).Floor as real);
      0.0 <= r < b && IsWhole((a - r) / b) && (0.0 <= a < b ==> r == a)
  {
    var q := a / b;
    var n := q.Floor;
    var k := n as real;
    assert k <= q < k + 1.0;
    assert q * b == a;
    MulMonotone(k, q, b);
    MulMonotone(q, k + 1.0, b);
    assert q * b < (k + 1.0) * b;
    assert a < (k + 1.0) * b;
    assert (k + 1.0) * b == k * b + b;
    assert b * k == k * b;
    assert b * k <= a < b * k + b;
    if 0.0 <= a < b {
      DivBounds(a, b);
      assert n == 0;
    }
    var r := a - b * k;
    assert a - r == b * k;
    DivideOut(k, b);
    assert (a - r) / b == k;
    assert k.Floor == n;
  }

  lemma DivideOut(k: real, b: real)
    requires b != 0.0
    ensures (b * k) / b == k
  {
  }

  /** A real with no fractional part. */
  predicate IsWhole(q: real)
  {
    q.Floor as real == q
  }

  lemma WholeComplement(q: real)
    requires IsWhole(q)
    ensures IsWhole(1.0 - q)
  {
    var j := 1 - q.Floor;
    assert j as real == 1.0 - q;
    assert (j as real).Floor == j;
  }

  /** Between one and two full turns, `% 360` takes one turn off. */
  lemma FloatModFullTurn(a: real)
    requires 360.0 <= a < 720.0
    ensures FloatMod(a, 360.0) == a - 360.0
  {
    var q := a / 360.0;
    assert 1.0 <= q < 2.0;
    assert q.Floor == 1;
  }

  lemma MulMonotone(x: real, y: real, b: real)
    requires x <= y && 0.0 < b
    ensures x * b <= y * b
    ensures x < y ==> x * b < y * b
  {
  }

  lemma DivBounds(a: real, b: real)
    requires 0.0 <= a < b
    ensures 0.0 <= a / b < 1.0
  {
  }

  function Abs(r: real): (a: real)
    ensures 0.0 <= a && (a == r || a == -r)
  {
    if r < 0.0 then -r else r
  }

  function Max(a: real, b: real): (c: real)
    ensures a <= c && b <= c && (c == a || c == b)
  {
    if a < b then b else a
  }
}
