/**
  Two-dimensional vector arithmetic over the reals.

  The repository's `Vector2` helpers (`dot`, `add`, `sub`, `neg`, `scalar`,
  `orthogonal`) are not part of this model; they are given here as the plain
  pure functions their names describe. `Orthogonal` turns a vector a quarter
  turn counter-clockwise, and every edge is turned the same way.
*/
module Vectors {

  datatype Vector2 = Vector2(x: real, y: real)

  const Zero: Vector2 := Vector2(0.0, 0.0)

  function Dot(a: Vector2, b: Vector2): real {
    a.x * b.x + a.y * b.y
  }

  function Add(a: Vector2, b: Vector2): Vector2 {
    Vector2(a.x + b.x, a.y + b.y)
  }

  function Sub(a: Vector2, b: Vector2): Vector2 {
    Vector2(a.x - b.x, a.y - b.y)
  }

  function Neg(a: Vector2): Vector2 {
    Vector2(-a.x, -a.y)
  }

  function Scale(k: real, a: Vector2): Vector2 {
    Vector2(k * a.x, k * a.y)
  }

  function Orthogonal(a: Vector2): Vector2 {
    Vector2(-a.y, a.x)
  }

  /** Squared length: the quantity the source compares push vectors by. */
  function SqLength(a: Vector2): real {
    Dot(a, a)
  }

  function Min(a: real, b: real): real {
    if a <= b then a else b
  }

  function Max(a: real, b: real): real {
    if a >= b then a else b
  }

  /** Left-to-right sum of a sequence of vectors (an `Array.reduce` from zero). */
  function Sum(vs: seq<Vector2>): Vector2
    decreases |vs|
  {
    if vs == [] then Zero else Add(Sum(vs[..|vs| - 1]), vs[|vs| - 1])
  }

  /** The dot product is linear in its first argument. */
  lemma DotLinear(a: Vector2, b: Vector2, c: Vector2)
    ensures Dot(Add(a, b), c) == Dot(a, c) + Dot(b, c)
    ensures Dot(Add(a, Neg(b)), c) == Dot(a, c) - Dot(b, c)
  {
  }

  /** Scaling by `d / s + e` and projecting back onto a vector of squared length `s`. */
  lemma DivideAndScale(d: real, s: real, e: real)
    requires s > 0.0
    ensures (d / s + e) * s == d + e * s
  {
  }

  /** A vector scaled by `d / |a|² + e` projects onto `a` as `d + e * |a|²`. */
  lemma ProjectScaled(d: real, e: real, a: Vector2)
    requires SqLength(a) > 0.0
    ensures Dot(Scale(d / SqLength(a) + e, a), a) == d + e * SqLength(a)
  {
    ScaleFacts(d / SqLength(a) + e, a);
    DivideAndScale(d, SqLength(a), e);
  }

  /** A sum divided by one count, rescaled by the ratio of that count to another, is the sum divided by the other. */
  lemma RescaleMean(sum: real, m: real, n: real)
    requires m > 0.0 && n > 0.0
    ensures (m / n) * (sum / m) == sum / n
  {
  }

  lemma DivideNonNegative(d: real, s: real)
    requires d >= 0.0 && s > 0.0
    ensures d / s >= 0.0
  {
  }

  /** Negation keeps the squared length, flips every projection and fixes only zero. */
  lemma NegFacts(a: Vector2, b: Vector2)
    ensures SqLength(Neg(a)) == SqLength(a)
    ensures Dot(b, Neg(a)) == -Dot(b, a)
  {
  }

  /** Only the zero vector is its own negation. */
  lemma NegFixesOnlyZero(a: Vector2)
    requires SqLength(a) > 0.0
    ensures Neg(a) != a
  {
  }

  lemma MulPositive(p: real, q: real)
    requires p > 0.0 && q > 0.0
    ensures p * q > 0.0
  {
  }

  lemma ScaleFacts(k: real, a: Vector2)
    ensures SqLength(Scale(k, a)) == k * (k * SqLength(a))
    ensures Dot(Scale(k, a), a) == k * SqLength(a)
  {
  }

  lemma ScalePositive(k: real, a: Vector2)
    requires k > 0.0 && SqLength(a) > 0.0
    ensures SqLength(Scale(k, a)) > 0.0
  {
    ScaleFacts(k, a);
    MulPositive(k, SqLength(a));
    MulPositive(k, k * SqLength(a));
  }
}
