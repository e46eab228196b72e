/**
 * The transcendental functions the beam formulas use. Dafny has none, so the
 * model takes them as an `Oracle` value whose `Valid()` states the facts the
 * proofs rely on: `sqrt` is the non-negative square root, `pow` of a positive
 * base is positive, and `pi` lies in a tight interval.
 *
 * Squares are written `Sq(x)`; the lemmas below are the facts about them the
 * other modules use.
 */
module RealMath {

  function Sq(x: real): real
  {
    x * x
  }

  function AbsR(x: real): (r: real)
    ensures 0.0 <= r && (r == x || r == -x)
  {
    if x < 0.0 then -x else x
  }

  datatype Oracle = Oracle(sqrt: real -> real, log2: real -> real, pow: (real, real) -> real, pi: real)
  {
    /** The interval for `pi`; formulas that divide by `pi` need only this. */
    predicate PiBounds()
    {
      3.14159265 < pi < 3.14159266
    }

    ghost predicate SqrtLaw()
    {
      forall x :: 0.0 <= x ==> 0.0 <= sqrt(x) && Sq(sqrt(x)) == x
    }

    ghost predicate PowLaw()
    {
      forall x, y :: 0.0 < x ==> 0.0 < pow(x, y)
    }

    ghost predicate Valid()
    {
      PiBounds() && SqrtLaw() && PowLaw()
    }
  }

  lemma PositiveProduct(x: real, y: real)
    requires 0.0 < x && 0.0 < y
    ensures 0.0 < x * y
  {
  }

  lemma NonnegativeProduct(x: real, y: real)
    requires 0.0 <= x && 0.0 <= y
    ensures 0.0 <= x * y
  {
  }

  lemma SqPositive(x: real)
    requires x != 0.0
    ensures 0.0 < Sq(x)
  {
    if x > 0.0 {
      PositiveProduct(x, AbsR(x));
      assert Sq(x) == x * AbsR(x);
    } else {
      PositiveProduct(-x, AbsR(x));
      assert Sq(x) == (-x) * AbsR(x);
    }
  }

  lemma SqNonnegative(x: real)
    ensures 0.0 <= Sq(x)
  {
    if x != 0.0 {
      SqPositive(x);
    }
  }

  lemma SqOfAbs(x: real)
    ensures Sq(AbsR(x)) == Sq(x)
  {
    if x < 0.0 {
      assert Sq(-x) == (-x) * (-x);
    }
  }

  lemma SqProduct(x: real, y: real)
    ensures Sq(x * y) == Sq(x) * Sq(y)
  {
  }

  /** A larger non-negative number has a larger square. */
  lemma SqMonotone(x: real, y: real)
    requires 0.0 <= x < y
    ensures Sq(x) < Sq(y)
  {
    var d := y - x;
    var e := y + x;
    PositiveProduct(d, e);
    assert y * y - x * x == d * e;
    assert Sq(y) - Sq(x) == d * e;
  }

  /** Two non-negative reals with the same square are equal. */
  lemma SqInjective(s: real, r: real)
    requires 0.0 <= s && 0.0 <= r && Sq(s) == Sq(r)
    ensures s == r
  {
    if s < r {
      SqMonotone(s, r);
    } else if r < s {
      SqMonotone(r, s);
    }
  }

  /** The defining fact of the oracle's square root at one argument. */
  lemma SqrtAt(m: Oracle, x: real)
    requires m.Valid() && 0.0 <= x
    ensures 0.0 <= m.sqrt(x) && Sq(m.sqrt(x)) == x
  {
  }

  /** A non-negative root of `x` is the oracle's root. */
  lemma SqrtUnique(m: Oracle, x: real, r: real)
    requires m.Valid() && 0.0 <= r && Sq(r) == x
    ensures m.sqrt(x) == r
  {
    SqrtAt(m, x);
    SqInjective(m.sqrt(x), r);
  }

  lemma SqrtMonotone(m: Oracle, x: real, y: real)
    requires m.Valid() && 0.0 <= x <= y
    ensures m.sqrt(x) <= m.sqrt(y)
  {
    SqrtAt(m, x);
    SqrtAt(m, y);
    if m.sqrt(y) < m.sqrt(x) {
      SqMonotone(m.sqrt(y), m.sqrt(x));
    }
  }

  lemma SqrtOne(m: Oracle)
    requires m.Valid()
    ensures m.sqrt(1.0) == 1.0
  {
    SqrtUnique(m, 1.0, 1.0);
  }

  /** `sqrt(x^2) = |x|`. */
  lemma SqrtOfSq(m: Oracle, x: real)
    requires m.Valid()
    ensures m.sqrt(Sq(x)) == AbsR(x)
  {
    SqOfAbs(x);
    SqrtUnique(m, Sq(x), AbsR(x));
  }

  lemma ScaleMonotone(c: real, s1: real, s2: real)
    requires 0.0 <= c && s1 <= s2
    ensures c * s1 <= c * s2
  {
    NonnegativeProduct(c, s2 - s1);
    assert c * s2 - c * s1 == c * (s2 - s1);
  }

  lemma AbsProduct(x: real, s: real)
    requires 0.0 <= s
    ensures AbsR(x * s) == AbsR(x) * s
  {
    NonnegativeProduct(AbsR(x), s);
    if x < 0.0 {
      assert x * s == -((-x) * s);
    }
  }
}
