/** The part of Python's `math` module that the curves use: `sin`, `cos`,
    `sqrt` and `pi`. They are carried as a record of tables from arguments to
    values, and `Sound` collects the facts about them that the proofs rely
    on. Floating-point rounding is not modelled: all arithmetic is on reals. */
module Elementary {

  datatype Math = Math(sines: imap<real, real>, cosines: imap<real, real>, roots: imap<real, real>, pi: real)
  {
    function Sin(t: real): real { if t in sines then sines[t] else 0.0 }

    function Cos(t: real): real { if t in cosines then cosines[t] else 0.0 }

    function Sqrt(x: real): real { if x in roots then roots[x] else 0.0 }
  }

  /** What is known about the elementary functions: the Pythagorean identity,
      their values at 0, pi/2 and 2pi, and the defining laws of the square root. */
  ghost predicate Sound(m: Math)
  {
    && m.pi > 0.0
    && (forall t :: m.Sin(t) * m.Sin(t) + m.Cos(t) * m.Cos(t) == 1.0)
    && m.Sin(0.0) == 0.0 && m.Cos(0.0) == 1.0
    && m.Sin(m.pi / 2.0) == 1.0 && m.Cos(m.pi / 2.0) == 0.0
    && m.Sin(2.0 * m.pi) == 0.0 && m.Cos(2.0 * m.pi) == 1.0
    && (forall x {:trigger m.Sqrt(x)} :: NonNegative(x) ==> NonNegative(m.Sqrt(x)) && m.Sqrt(x) * m.Sqrt(x) == x)
  }

  /** The guard of the square-root law. (Kept as a named predicate: a bare
      comparison inside that quantifier slows every proof that has `Sound`
      in scope.) */
  predicate NonNegative(x: real) { 0.0 <= x }

  /** The defining law of the square root at one argument. */
  lemma SqrtLaw(m: Math, x: real)
    requires Sound(m) && 0.0 <= x
    ensures 0.0 <= m.Sqrt(x) && m.Sqrt(x) * m.Sqrt(x) == x
  {
    assert NonNegative(x);
  }

  /** The Pythagorean identity at one angle. */
  lemma Pythagoras(m: Math, t: real)
    requires Sound(m)
    ensures m.Cos(t) * m.Cos(t) + m.Sin(t) * m.Sin(t) == 1.0
  {
    assert m.Sin(t) * m.Sin(t) + m.Cos(t) * m.Cos(t) == 1.0;
  }

  /** A point `(r c, r s)` with `c^2 + s^2 = 1` lies at distance `r` from the origin. */
  lemma PolarNorm(r: real, c: real, s: real)
    requires c * c + s * s == 1.0
    ensures (r * c) * (r * c) + (r * s) * (r * s) == r * r
  {
    assert (r * c) * (r * c) + (r * s) * (r * s) == (r * r) * (c * c + s * s);
  }

  /** The square root of a square is the non-negative base. */
  lemma SqrtOfSquare(m: Math, r: real)
    requires Sound(m) && 0.0 <= r
    ensures m.Sqrt(r * r) == r
  {
    var s := m.Sqrt(r * r);
    assert 0.0 <= s && s * s == r * r;
    assert (s - r) * (s + r) == 0.0;
    ZeroProduct(s - r, s + r);
  }

  /** The square root is the only non-negative number whose square is `x`. */
  lemma SqrtUnique(m: Math, x: real, y: real)
    requires Sound(m) && 0.0 <= y && y * y == x
    ensures m.Sqrt(x) == y
  {
    SqrtOfSquare(m, y);
  }

  lemma ZeroProduct(a: real, b: real)
    requires a * b == 0.0
    ensures a == 0.0 || b == 0.0
  {
    if a != 0.0 {
      assert b == (a * b) / a;
    }
  }

  /** The square root is zero exactly at zero. */
  lemma SqrtZero(m: Math, x: real)
    requires Sound(m) && 0.0 <= x
    ensures m.Sqrt(x) == 0.0 <==> x == 0.0
    ensures 0.0 < x ==> 0.0 < m.Sqrt(x)
  {
    var s := m.Sqrt(x);
    assert 0.0 <= s && Sq(s) == x;
    Square(s);
    if s == 0.0 {
      assert Sq(s) == 0.0;
    }
  }

  /** The square of a real. */
  function Sq(x: real): real { x * x }

  /** A square is non-negative, and positive away from zero. */
  lemma Square(x: real)
    ensures 0.0 <= Sq(x)
    ensures x != 0.0 ==> 0.0 < Sq(x)
  {
    // The second factor goes through `Same` so that the solver does not
    // rewrite the fact `0 < x * x` away before using it.
    if x > 0.0 {
      Positive(x, Same(x));
      assert Sq(x) == x * Same(x);
    } else if x < 0.0 {
      Positive(-x, Same(-x));
      assert Sq(x) == (-x) * Same(-x);
    }
  }

  function Same(x: real): real { x }

  lemma Positive(x: real, y: real)
    requires 0.0 < x && 0.0 < y
    ensures 0.0 < x * y
  {
  }
}
