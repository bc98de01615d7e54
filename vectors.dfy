/**
 * Vector2: the simulator's two-dimensional vector value type. Every
 * operation builds a new vector and leaves its operands alone, so the Java
 * class is a datatype here. Doubles are modelled as reals.
 *
 * Math.sqrt is a library call the model cannot see, and Dafny cannot
 * construct a real square root, so every member that needs one takes the
 * square root as a parameter `sqrt`; `IsSqrt(sqrt)` says it is the exact,
 * non-negative root on non-negative arguments.
 */
module Vectors {

  datatype Vector2 = Vector2(x: real, y: real) {

    /** this - v, component by component */
    function Subtract(v: Vector2): Vector2 {
      Vector2(x - v.x, y - v.y)
    }

    /** this + v, component by component */
    function Add(v: Vector2): Vector2 {
      Vector2(x + v.x, y + v.y)
    }

    function ScalarMultiply(k: real): Vector2 {
      Vector2(Mul(x, k), Mul(y, k))
    }

    /** Java returns Infinity or NaN components for k == 0; the model excludes that case. */
    function ScalarDivide(k: real): Vector2
      requires k != 0.0
    {
      Vector2(x / k, y / k)
    }

    /** x^2 + y^2, the argument Math.sqrt receives in getMagnitude */
    function MagnitudeSq(): real {
      Sq(x) + Sq(y)
    }
  }

  /** a * b; products of two variables go through this function so that the proofs below can name them */
  function Mul(a: real, b: real): real {
    a * b
  }

  /** Math.pow(a, 2) */
  function Sq(a: real): real {
    Mul(a, a)
  }

  /** The value of `new Vector2()`. */
  const Zero := Vector2(0.0, 0.0)

  ghost predicate IsSqrt(sqrt: real -> real) {
    forall a :: 0.0 <= a ==> 0.0 <= sqrt(a) && Sq(sqrt(a)) == a
  }

  /** getMagnitude: sqrt(x^2 + y^2) */
  function Magnitude(v: Vector2, sqrt: real -> real): real {
    sqrt(v.MagnitudeSq())
  }

  /** The length of p - q, as the Java code computes distances between positions. */
  function Distance(p: Vector2, q: Vector2, sqrt: real -> real): real {
    Magnitude(p.Subtract(q), sqrt)
  }

  function Abs(r: real): real {
    if r < 0.0 then -r else r
  }

  lemma {:induction false} SubtractThenAdd(a: Vector2, b: Vector2)
    ensures a.Subtract(b).Add(b) == a
  {
  }

  lemma {:induction false} AddThenSubtract(a: Vector2, b: Vector2)
    ensures a.Add(b).Subtract(b) == a
  {
  }

  lemma {:induction false} MultiplyByZero(v: Vector2)
    ensures v.ScalarMultiply(0.0) == Zero
  {
  }

  lemma {:induction false} DivideThenMultiply(v: Vector2, k: real)
    requires k != 0.0
    ensures v.ScalarDivide(k).ScalarMultiply(k) == v
  {
  }

  // Small facts of real arithmetic, each stated on its own so that the
  // proofs below only have to combine them linearly.

  lemma {:induction false} MulPositive(a: real, b: real)
    requires 0.0 < a && 0.0 < b
    ensures 0.0 < Mul(a, b)
  {
  }

  lemma {:induction false} MulNonNegative(a: real, b: real)
    requires 0.0 <= a && 0.0 <= b
    ensures 0.0 <= Mul(a, b)
  {
  }

  lemma {:induction false} MulCommutes(a: real, b: real)
    ensures Mul(a, b) == Mul(b, a)
  {
  }

  lemma {:induction false} MulAssociates(a: real, b: real, c: real)
    ensures Mul(Mul(a, b), c) == Mul(a, Mul(b, c))
  {
  }

  lemma {:induction false} MulDistributesOverDifference(a: real, b: real, c: real)
    ensures Mul(a - b, c) == Mul(a, c) - Mul(b, c)
  {
  }

  lemma {:induction false} MulNegates(a: real, b: real)
    ensures Mul(-a, b) == -Mul(a, b)
  {
  }

  lemma {:induction false} MulOne(a: real)
    ensures Mul(a, 1.0) == a
  {
  }

  lemma {:induction false} MulZero(a: real)
    ensures Mul(a, 0.0) == 0.0 && Mul(0.0, a) == 0.0
  {
  }

  /** (a / n) * m == a * (m / n), and (m / n) * n == m */
  lemma {:induction false} DivideMoves(a: real, n: real, m: real)
    requires n != 0.0
    ensures Mul(a / n, m) == Mul(a, m / n)
    ensures Mul(m / n, n) == m
  {
  }

  /** (a k)^2 == a^2 k^2 */
  lemma {:induction false} SquareOfProduct(a: real, k: real)
    ensures Sq(Mul(a, k)) == Mul(Sq(a), Sq(k))
  {
    MulAssociates(a, k, Mul(a, k));
    MulAssociates(k, a, k);
    MulCommutes(k, a);
    MulAssociates(a, k, k);
    MulAssociates(a, a, Mul(k, k));
  }

  /** a^2 is never negative, and positive unless a is zero. */
  lemma {:induction false} SquareSign(a: real)
    ensures 0.0 <= Sq(a)
    ensures a != 0.0 ==> 0.0 < Sq(a)
  {
    if a < 0.0 {
      MulPositive(-a, -a);
      MulNegates(a, -a);
      MulCommutes(a, -a);
      MulNegates(a, a);
    } else if 0.0 < a {
      MulPositive(a, a);
    } else {
      MulZero(a);
    }
  }

  /** Squaring is strictly increasing on the non-negative reals. */
  lemma {:induction false} SquareLess(r: real, s: real)
    requires 0.0 <= r < s
    ensures Sq(r) < Sq(s)
  {
    MulNonNegative(s - r, r);
    MulPositive(s - r, s);
    MulDistributesOverDifference(s, r, r);
    MulDistributesOverDifference(s, r, s);
    MulCommutes(s, r);
  }

  /** Two non-negative reals with the same square are equal. */
  lemma {:induction false} RootUnique(r: real, s: real)
    requires 0.0 <= r && 0.0 <= s && Sq(r) == Sq(s)
    ensures r == s
  {
    if r < s {
      SquareLess(r, s);
    } else if s < r {
      SquareLess(s, r);
    }
  }

  lemma {:induction false} MagnitudeSqNonNegative(v: Vector2)
    ensures 0.0 <= v.MagnitudeSq()
    ensures v.MagnitudeSq() == 0.0 <==> v == Zero
  {
    SquareSign(v.x);
    SquareSign(v.y);
  }

  /** The magnitude is non-negative, squares to x^2 + y^2, and is zero exactly for the zero vector. */
  lemma {:induction false} MagnitudeProperties(v: Vector2, sqrt: real -> real)
    requires IsSqrt(sqrt)
    ensures 0.0 <= Magnitude(v, sqrt)
    ensures Sq(Magnitude(v, sqrt)) == v.MagnitudeSq()
    ensures Magnitude(v, sqrt) == 0.0 <==> v == Zero
  {
    MagnitudeSqNonNegative(v);
    var m := Magnitude(v, sqrt);
    assert 0.0 <= m && Sq(m) == v.MagnitudeSq();
    SquareSign(m);
  }

  /** Comparing magnitudes is comparing squared magnitudes. */
  lemma {:induction false} MagnitudeAtMost(v: Vector2, limit: real, sqrt: real -> real)
    requires IsSqrt(sqrt) && 0.0 <= limit
    ensures Magnitude(v, sqrt) <= limit <==> v.MagnitudeSq() <= Sq(limit)
  {
    MagnitudeProperties(v, sqrt);
    var m := Magnitude(v, sqrt);
    if m < limit {
      SquareLess(m, limit);
    } else if limit < m {
      SquareLess(limit, m);
    }
  }

  lemma {:induction false} AbsSquare(k: real)
    ensures 0.0 <= Abs(k) && Sq(Abs(k)) == Sq(k)
  {
    if k < 0.0 {
      MulNegates(k, -k);
      MulCommutes(k, -k);
      MulNegates(k, k);
    }
  }

  /** Scaling a vector by k scales its magnitude by |k|. */
  lemma {:induction false} MagnitudeOfScaled(v: Vector2, k: real, sqrt: real -> real)
    requires IsSqrt(sqrt)
    ensures Magnitude(v.ScalarMultiply(k), sqrt) == Mul(Abs(k), Magnitude(v, sqrt))
  {
    MagnitudeProperties(v, sqrt);
    MagnitudeProperties(v.ScalarMultiply(k), sqrt);
    var m := Magnitude(v, sqrt);
    var a := Abs(k);
    AbsSquare(k);
    SquareOfProduct(v.x, k);
    SquareOfProduct(v.y, k);
    MulCommutes(Sq(v.x), Sq(k));
    MulCommutes(Sq(v.y), Sq(k));
    assert Mul(Sq(k), Sq(v.x) + Sq(v.y)) == Mul(Sq(k), Sq(v.x)) + Mul(Sq(k), Sq(v.y));
    assert v.ScalarMultiply(k).MagnitudeSq() == Mul(Sq(k), v.MagnitudeSq());
    SquareOfProduct(a, m);
    MulNonNegative(a, m);
    RootUnique(Magnitude(v.ScalarMultiply(k), sqrt), Mul(a, m));
  }

  /**
   * For v != 0, v / |v| * m is the non-negative multiple m / |v| of v, and
   * its magnitude is exactly m (for m >= 0): same direction, new length.
   */
  lemma {:induction false} Rescaled(v: Vector2, m: real, sqrt: real -> real)
    requires IsSqrt(sqrt) && v != Zero && 0.0 <= m
    ensures Magnitude(v, sqrt) != 0.0
    ensures v.ScalarDivide(Magnitude(v, sqrt)).ScalarMultiply(m) == v.ScalarMultiply(m / Magnitude(v, sqrt))
    ensures 0.0 <= m / Magnitude(v, sqrt)
    ensures Magnitude(v.ScalarDivide(Magnitude(v, sqrt)).ScalarMultiply(m), sqrt) == m
  {
    MagnitudeProperties(v, sqrt);
    var n := Magnitude(v, sqrt);
    DivideMoves(v.x, n, m);
    DivideMoves(v.y, n, m);
    assert v.ScalarDivide(n).ScalarMultiply(m) == v.ScalarMultiply(m / n);
    MagnitudeOfScaled(v, m / n, sqrt);
    assert Abs(m / n) == m / n;
  }
}
