/** Small shared vocabulary: points, an optional value, the browser's
    rounding rule and the abstraction of `Math.sqrt` used for distances. */
module Basics {

  /** A point (or vector) in page coordinates. */
  datatype Point = Point(x: real, y: real)

  datatype Option<T> = None | Some(value: T)

  function Max(a: real, b: real): (r: real)
    ensures r >= a && r >= b && (r == a || r == b)
  {
    if a >= b then a else b
  }

  function Min(a: real, b: real): (r: real)
    ensures r <= a && r <= b && (r == a || r == b)
  {
    if a <= b then a else b
  }

  function Abs(a: real): (r: real)
    ensures r >= 0.0 && (r == a || r == -a)
  {
    if a >= 0.0 then a else -a
  }

  /** `Math.round`: the nearest integer, halves rounded up (towards +infinity). */
  function JsRound(x: real): (r: int)
    ensures r as real - 0.5 <= x < r as real + 0.5
  {
    (x + 0.5).Floor
  }

  lemma JsRoundOfInt(k: int)
    ensures JsRound(k as real) == k
  {
  }

  lemma JsRoundMonotone(x: real, y: real)
    requires x <= y
    ensures JsRound(x) <= JsRound(y)
  {
  }

  /** `norm(dx, dy)` stands for `Math.sqrt(dx * dx + dy * dy)`, computed exactly:
      a non-negative number whose square is the squared length. */
  ghost predicate IsEuclidean(norm: (real, real) -> real)
  {
    forall dx: real, dy: real :: 0.0 <= norm(dx, dy) && norm(dx, dy) * norm(dx, dy) == dx * dx + dy * dy
  }

  /** Two non-negative numbers with the same square are equal. */
  lemma SquareRootUnique(p: real, q: real)
    requires 0.0 <= p && 0.0 <= q && p * p == q * q
    ensures p == q
  {
    if p < q {
      SquareStrictlyMonotone(p, q);
      assert false;
    } else if q < p {
      SquareStrictlyMonotone(q, p);
      assert false;
    }
  }

  lemma SquareStrictlyMonotone(p: real, q: real)
    requires 0.0 <= p < q
    ensures p * p < q * q
  {
    var a, b := p * p, p * q;
    assert a <= b;
    assert b < q * q;
  }

  /** A length is zero exactly for the zero vector: this is what lets the
      solver's `dist === 0` test detect coincident nodes. */
  lemma NormZeroIff(norm: (real, real) -> real, dx: real, dy: real)
    requires IsEuclidean(norm)
    ensures norm(dx, dy) == 0.0 <==> dx == 0.0 && dy == 0.0
  {
    var d := norm(dx, dy);
    assert 0.0 <= d && d * d == dx * dx + dy * dy;
    if dx == 0.0 && dy == 0.0 {
      SquareRootUnique(d, 0.0);
    }
    if d == 0.0 {
      assert dx * dx + dy * dy == 0.0;
      assert dx * dx == 0.0 && dy * dy == 0.0;
      SquareRootUnique(Abs(dx), 0.0);
      SquareRootUnique(Abs(dy), 0.0);
    }
  }

  /** Scaling a vector by a non-negative factor scales its length by that factor. */
  lemma NormScaled(norm: (real, real) -> real, dx: real, dy: real, k: real)
    requires IsEuclidean(norm)
    requires 0.0 <= k
    ensures norm(k * dx, k * dy) == k * norm(dx, dy)
  {
    var a := norm(k * dx, k * dy);
    var b := norm(dx, dy);
    assert 0.0 <= a && a * a == (k * dx) * (k * dx) + (k * dy) * (k * dy);
    assert 0.0 <= b && b * b == dx * dx + dy * dy;
    assert (k * dx) * (k * dx) + (k * dy) * (k * dy) == (k * k) * (dx * dx + dy * dy);
    assert (k * b) * (k * b) == (k * k) * (b * b);
    SquareRootUnique(a, k * b);
  }
}
