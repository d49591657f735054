/**
 * 2D vector arithmetic of build/VectorMath.js. Every operation builds a new
 * vector from its operands, component by component; JavaScript numbers are
 * modelled as exact reals.
 */
module VectorMath {

  /** A point or displacement `{x, y}` in world or screen space. */
  datatype Vec2 = Vec2(x: real, y: real)

  /** `origin`: the zero vector. */
  const Origin := Vec2(0.0, 0.0)

  function Abs(r: real): real {
    if r < 0.0 then -r else r
  }

  /** True when `t` has no fractional part. */
  predicate IsInteger(t: real) {
    t.Floor as real == t
  }

  /** `addVectors(v1, v2)`: v1 + v2. */
  function AddVectors(v1: Vec2, v2: Vec2): Vec2 {
    Vec2(v1.x + v2.x, v1.y + v2.y)
  }

  /** `subractVectors(v1, v2)`: v1 - v2. */
  function SubtractVectors(v1: Vec2, v2: Vec2): Vec2 {
    Vec2(v1.x - v2.x, v1.y - v2.y)
  }

  /** `multiplyVectors(v1, v2)`: the component-wise product. */
  function MultiplyVectors(v1: Vec2, v2: Vec2): Vec2 {
    Vec2(v1.x * v2.x, v1.y * v2.y)
  }

  /** JavaScript's integer part of a quotient: rounds toward zero. */
  function Truncate(t: real): (q: int)
    ensures Abs(t - q as real) < 1.0
    ensures t >= 0.0 ==> 0.0 <= t - q as real
    ensures t <= 0.0 ==> t - q as real <= 0.0
  {
    if t >= 0.0 then t.Floor else -((-t).Floor)
  }

  /**
   * JavaScript's `%` on numbers: the remainder of a truncating division, so
   * it carries the sign of the dividend `a` (Dafny's own `%` is Euclidean).
   * The three ensures clauses determine the remainder uniquely.
   */
  function JsRemainder(a: real, d: real): (r: real)
    requires d != 0.0
    ensures IsInteger((a - r) / d)
    ensures Abs(r) < Abs(d)
    ensures a >= 0.0 ==> r >= 0.0
    ensures a <= 0.0 ==> r <= 0.0
  {
    var q := Truncate(a / d);
    var r := a - d * q as real;
    RemainderFacts(a, d, q, r);
    r
  }

  /** Helper for JsRemainder: the remainder r left by the truncated quotient q. */
  lemma RemainderFacts(a: real, d: real, q: int, r: real)
    requires d != 0.0 && q == Truncate(a / d) && r == a - d * q as real
    ensures IsInteger((a - r) / d)
    ensures Abs(r) < Abs(d)
    ensures a >= 0.0 ==> r >= 0.0
    ensures a <= 0.0 ==> r <= 0.0
  {
    var qr := q as real;
    ProductOverDivisor(d, qr);
    assert (a - r) / d == qr;
    assert qr.Floor == q;
    RemainderIsScaledFraction(a, d, qr, r);
    ScaledFraction(d, a / d - qr, a / d);
  }

  /** Helper: the remainder is d times the fractional part t - q of the quotient t. */
  lemma RemainderIsScaledFraction(a: real, d: real, qr: real, r: real)
    requires d != 0.0 && r == a - d * qr
    ensures r == d * (a / d - qr) && a == d * (a / d)
  {
    var t := a / d;
    QuotientTimesDivisor(a, d);
    Distribute(d, t, qr);
  }

  /** Helper: dividing by d and multiplying back gives the dividend. */
  lemma QuotientTimesDivisor(a: real, d: real)
    requires d != 0.0
    ensures d * (a / d) == a
  {
  }

  /** Helper: multiplying by d and dividing back gives the factor. */
  lemma ProductOverDivisor(d: real, r: real)
    requires d != 0.0
    ensures (d * r) / d == r
  {
  }

  /** Helper: d * t - d * r == d * (t - r). */
  lemma Distribute(d: real, t: real, r: real)
    ensures d * t - d * r == d * (t - r)
  {
  }

  /** Helper: |d * f| < |d| when |f| < 1, and d * f has the sign of d * t when f has the sign of t. */
  lemma ScaledFraction(d: real, f: real, t: real)
    requires d != 0.0 && Abs(f) < 1.0
    requires t >= 0.0 ==> f >= 0.0
    requires t <= 0.0 ==> f <= 0.0
    ensures Abs(d * f) < Abs(d)
    ensures d * t >= 0.0 ==> d * f >= 0.0
    ensures d * t <= 0.0 ==> d * f <= 0.0
  {
    if d > 0.0 {
      ScaledFractionBound(d, f);
      assert d * t >= 0.0 ==> t >= 0.0;
      assert d * t <= 0.0 ==> t <= 0.0;
    } else {
      ScaledFractionBound(-d, f);
      assert d * f == -((-d) * f);
      assert d * t >= 0.0 ==> t <= 0.0;
      assert d * t <= 0.0 ==> t >= 0.0;
    }
  }

  /** Helper: for a positive m, |m * f| < m when |f| < 1. */
  lemma ScaledFractionBound(m: real, f: real)
    requires m > 0.0 && Abs(f) < 1.0
    ensures Abs(m * f) < m && Abs(-(m * f)) < m
  {
    if f >= 0.0 {
      assert m * f < m * 1.0;
    } else {
      assert m * (-f) < m * 1.0;
    }
  }

  /** `modVectors(v1, v2)`: JavaScript's `%` on each component. */
  function ModVectors(v1: Vec2, v2: Vec2): (r: Vec2)
    requires v2.x != 0.0 && v2.y != 0.0
    ensures Abs(r.x) < Abs(v2.x) && Abs(r.y) < Abs(v2.y)
    ensures IsInteger((v1.x - r.x) / v2.x) && IsInteger((v1.y - r.y) / v2.y)
    ensures (v1.x >= 0.0 ==> r.x >= 0.0) && (v1.x <= 0.0 ==> r.x <= 0.0)
    ensures (v1.y >= 0.0 ==> r.y >= 0.0) && (v1.y <= 0.0 ==> r.y <= 0.0)
  {
    Vec2(JsRemainder(v1.x, v2.x), JsRemainder(v1.y, v2.y))
  }

  // ---------------------------------------------------------------------
  // Algebraic laws of the operations

  lemma AddVectorsCommutes(v1: Vec2, v2: Vec2)
    ensures AddVectors(v1, v2) == AddVectors(v2, v1)
  {
  }

  lemma OriginIsAdditiveIdentity(v: Vec2)
    ensures AddVectors(v, Origin) == v && AddVectors(Origin, v) == v
    ensures SubtractVectors(v, Origin) == v
  {
  }

  lemma SubtractSelfIsOrigin(v: Vec2)
    ensures SubtractVectors(v, v) == Origin
  {
  }

  /** Subtraction is addition of the negation `origin - v2`, and it undoes addition. */
  lemma SubtractIsAddNegated(v1: Vec2, v2: Vec2)
    ensures AddVectors(v1, SubtractVectors(Origin, v2)) == SubtractVectors(v1, v2)
    ensures SubtractVectors(AddVectors(v1, v2), v2) == v1
    ensures AddVectors(SubtractVectors(v1, v2), v2) == v1
  {
  }

  lemma MultiplyVectorsCommutes(v1: Vec2, v2: Vec2)
    ensures MultiplyVectors(v1, v2) == MultiplyVectors(v2, v1)
  {
  }

  /** Multiplying by (s, s) distributes over subtraction: the basis of the camera's affine projection. */
  lemma MultiplyDistributesOverSubtract(s: Vec2, v1: Vec2, v2: Vec2)
    ensures MultiplyVectors(s, SubtractVectors(v1, v2))
         == SubtractVectors(MultiplyVectors(s, v1), MultiplyVectors(s, v2))
  {
  }

  /** For a non-negative dividend and a positive divisor the remainder lies in [0, d). */
  lemma JsRemainderOfNonNegative(a: real, d: real)
    requires a >= 0.0 && d > 0.0
    ensures 0.0 <= JsRemainder(a, d) < d
  {
  }

  /** For a negative dividend the remainder is not Euclidean: it lies in (-|d|, 0]. */
  lemma JsRemainderOfNegative(a: real, d: real)
    requires a < 0.0 && d != 0.0
    ensures -Abs(d) < JsRemainder(a, d) <= 0.0
  {
  }

  /** A worked value: -7 % 3 is -1 in JavaScript (Euclidean remainder would give 2). */
  lemma JsRemainderExample()
    ensures JsRemainder(-7.0, 3.0) == -1.0
    ensures JsRemainder(7.0, 3.0) == 1.0
  {
    assert Truncate(-7.0 / 3.0) == -2;
    assert Truncate(7.0 / 3.0) == 2;
  }
}
