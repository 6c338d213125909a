/** Vector algebra over exact reals. The square root is a parameter that is only
    known to be one. */
module VectorMath {
  import opened Common

  ghost predicate IsSquareRoot(sqrt: real -> real) {
    forall x: real :: x >= 0.0 ==> sqrt(x) >= 0.0 && sqrt(x) * sqrt(x) == x
  }

  /** `sum(x * y for x, y in zip(a, b))`: the shorter argument decides. */
  function Dot(a: Vector, b: Vector): real {
    if a == [] || b == [] then 0.0 else a[0] * b[0] + Dot(a[1..], b[1..])
  }

  function SumOfSquares(a: Vector): real {
    if a == [] then 0.0 else a[0] * a[0] + SumOfSquares(a[1..])
  }

  function Norm(sqrt: real -> real, a: Vector): real { sqrt(SumOfSquares(a)) }

  /** `_cosine` of the in-memory store. */
  function Cosine(sqrt: real -> real, a: Vector, b: Vector): real {
    var na, nb := Norm(sqrt, a), Norm(sqrt, b);
    if na == 0.0 || nb == 0.0 then 0.0 else Dot(a, b) / (na * nb)
  }

  function Divide(a: Vector, n: real): (r: Vector)
    requires n != 0.0
    ensures |r| == |a|
  {
    if a == [] then [] else [a[0] / n] + Divide(a[1..], n)
  }

  /** `_unit`: the zero vector stays as it is. */
  function Unit(sqrt: real -> real, a: Vector): (r: Vector)
    ensures |r| == |a|
  {
    var n := Norm(sqrt, a);
    if n == 0.0 then a else Divide(a, n)
  }

  // ---- Cauchy-Schwarz ----

  lemma {:induction false} SquaresNonNegative(a: Vector)
    ensures SumOfSquares(a) >= 0.0
  {
    if a != [] { SquaresNonNegative(a[1..]); }
  }

  function Times(x: real, y: real): real { x * y }

  function Square(x: real): real { Times(x, x) }

  lemma PositiveProduct(x: real, y: real)
    requires x > 0.0 && y > 0.0
    ensures Times(x, y) > 0.0
  {}

  lemma NonNegativeProduct(x: real, y: real)
    requires x >= 0.0 && y >= 0.0
    ensures x * y >= 0.0
  {}

  lemma SquareGrows(d: real)
    ensures Square(d) >= 0.0
    ensures d != 0.0 ==> Square(d) > 0.0
    ensures d > 1.0 || d < -1.0 ==> Square(d) > 1.0
  {
    var e := if d < 0.0 then -d else d;
    assert Square(e) == Square(d);
    if d != 0.0 {
      PositiveProduct(e, e);
    }
    if e > 1.0 {
      PositiveProduct(e - 1.0, e);
      assert Square(e) == (e - 1.0) * e + e;
    }
  }

  lemma UnitInterval(d: real, s: real, t: real)
    requires 0.0 <= s <= 1.0 && 0.0 <= t <= 1.0 && Square(d) <= s * t
    ensures -1.0 <= d <= 1.0
  {
    SquareGrows(d);
    NonNegativeProduct(s, 1.0 - t);
  }

  /** One more coordinate: if d^2 <= s*t then (x*y + d)^2 <= (x*x + s)(y*y + t). */
  lemma CauchyStep(x: real, y: real, d: real, s: real, t: real)
    requires s >= 0.0 && t >= 0.0 && Square(d) <= s * t
    ensures Square(x * y + d) <= (x * x + s) * (y * y + t)
  {
    CrossTerm(x, y, d, s, t);
    calc {
      (x * x + s) * (y * y + t) - Square(x * y + d);
      (x * x) * (y * y) + x * x * t + s * (y * y) + s * t - (x * y) * (x * y) - 2.0 * (x * y) * d - Square(d);
      (x * x * t + y * y * s - 2.0 * (x * y) * d) + (s * t - Square(d));
    }
  }

  lemma CrossTerm(x: real, y: real, d: real, s: real, t: real)
    requires s >= 0.0 && t >= 0.0 && Square(d) <= s * t
    ensures x * x * t + y * y * s - 2.0 * (x * y) * d >= 0.0
  {
    var g := x * x * t + y * y * s - 2.0 * (x * y) * d;
    SquareGrows(y);
    if t == 0.0 {
      SquareGrows(d);
      NonNegativeProduct(Square(y), s);
      assert d == 0.0;
    } else {
      var h := x * t - y * d;
      SquareGrows(h);
      NonNegativeProduct(Square(y), s * t - Square(d));
      calc {
        t * g;
        (x * t) * (x * t) + (y * y) * (s * t) - 2.0 * (x * t) * (y * d);
        Square(h) + Square(y) * (s * t - Square(d));
      }
      if g < 0.0 { PositiveProduct(t, -g); }
    }
  }

  lemma {:induction false} CauchySchwarz(a: Vector, b: Vector)
    ensures Square(Dot(a, b)) <= SumOfSquares(a) * SumOfSquares(b)
  {
    SquaresNonNegative(a);
    SquaresNonNegative(b);
    if a != [] && b != [] {
      SquaresNonNegative(a[1..]);
      SquaresNonNegative(b[1..]);
      CauchySchwarz(a[1..], b[1..]);
      CauchyStep(a[0], b[0], Dot(a[1..], b[1..]), SumOfSquares(a[1..]), SumOfSquares(b[1..]));
    } else {
      NonNegativeProduct(SumOfSquares(a), SumOfSquares(b));
    }
  }

  // ---- Scaling ----

  lemma QuotientIs(x: real, q: real, r: real)
    requires q != 0.0 && x == r * q
    ensures x / q == r
  {
  }

  lemma NonZeroProduct(m: real, n: real)
    requires m != 0.0 && n != 0.0
    ensures m * n != 0.0
  {
  }

  lemma ProductOfFour(r: real, m: real, q: real, n: real)
    ensures (r * m) * (q * n) == (r * q) * (m * n)
  {
  }

  lemma QuotientProduct(x: real, m: real, y: real, n: real)
    requires m != 0.0 && n != 0.0
    ensures m * n != 0.0 && (x / m) * (y / n) == (x * y) / (m * n)
  {
    var r, q := x / m, y / n;
    NonZeroProduct(m, n);
    assert x == r * m && y == q * n;
    ProductOfFour(r, m, q, n);
    QuotientIs(x * y, m * n, r * q);
  }

  lemma QuotientSum(x: real, y: real, c: real)
    requires c != 0.0
    ensures x / c + y / c == (x + y) / c
  {
    QuotientIs(x + y, c, x / c + y / c);
  }

  lemma {:induction false} DotOfDivided(a: Vector, b: Vector, m: real, n: real)
    requires m != 0.0 && n != 0.0
    ensures m * n != 0.0
    ensures Dot(Divide(a, m), Divide(b, n)) == Dot(a, b) / (m * n)
  {
    NonZeroProduct(m, n);
    if a != [] && b != [] {
      DotOfDivided(a[1..], b[1..], m, n);
      QuotientProduct(a[0], m, b[0], n);
      QuotientSum(a[0] * b[0], Dot(a[1..], b[1..]), m * n);
    }
  }

  lemma {:induction false} SquaresAreDot(a: Vector)
    ensures SumOfSquares(a) == Dot(a, a)
  {
    if a != [] { SquaresAreDot(a[1..]); }
  }

  lemma {:induction false} DotWithZero(a: Vector, b: Vector)
    requires SumOfSquares(a) == 0.0
    ensures Dot(a, b) == 0.0 && Dot(b, a) == 0.0
  {
    CauchySchwarz(a, b);
    CauchySchwarz(b, a);
    SquareGrows(Dot(a, b));
    SquareGrows(Dot(b, a));
  }

  lemma DivideByItself(q: real)
    requires q != 0.0
    ensures q / q == 1.0
  {}

  lemma {:induction false} UnitSquares(sqrt: real -> real, a: Vector)
    requires IsSquareRoot(sqrt)
    ensures 0.0 <= SumOfSquares(Unit(sqrt, a)) <= 1.0
  {
    SquaresNonNegative(a);
    var n := Norm(sqrt, a);
    assert n * n == SumOfSquares(a);
    if n != 0.0 {
      DotOfDivided(a, a, n, n);
      SquaresAreDot(a);
      SquaresAreDot(Divide(a, n));
      SquareGrows(n);
      DivideByItself(Square(n));
    }
  }

  /** The product of two unit vectors is a cosine: it stays within [-1, 1]. */
  lemma UnitDotBounded(sqrt: real -> real, a: Vector, b: Vector)
    requires IsSquareRoot(sqrt)
    ensures -1.0 <= Dot(Unit(sqrt, a), Unit(sqrt, b)) <= 1.0
  {
    UnitSquares(sqrt, a);
    UnitSquares(sqrt, b);
    CauchySchwarz(Unit(sqrt, a), Unit(sqrt, b));
    UnitInterval(Dot(Unit(sqrt, a), Unit(sqrt, b)), SumOfSquares(Unit(sqrt, a)), SumOfSquares(Unit(sqrt, b)));
  }

  /** Normalising first and multiplying is the same as multiplying first and
      dividing by the norms: the reranker and the store score alike. */
  lemma UnitDotIsCosine(sqrt: real -> real, a: Vector, b: Vector)
    requires IsSquareRoot(sqrt)
    ensures Dot(Unit(sqrt, a), Unit(sqrt, b)) == Cosine(sqrt, a, b)
  {
    SquaresNonNegative(a);
    SquaresNonNegative(b);
    var na, nb := Norm(sqrt, a), Norm(sqrt, b);
    assert na * na == SumOfSquares(a) && nb * nb == SumOfSquares(b);
    if na == 0.0 {
      DotWithZero(a, Unit(sqrt, b));
    } else if nb == 0.0 {
      DotWithZero(b, Unit(sqrt, a));
    } else {
      DotOfDivided(a, b, na, nb);
    }
  }
}
