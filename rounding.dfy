/**
 * Integer rounding as numpy performs it on stage pulses: `np.around` rounds
 * half to even, `//` and integer `linspace` floor.
 */
module Rounding {

  function Abs(x: int): (r: nat)
    ensures r == x || r == -x
  {
    if x < 0 then -x else x
  }

  function AbsReal(x: real): (r: real)
    ensures r >= 0.0 && (r == x || r == -x)
  {
    if x < 0.0 then -x else x
  }

  /** `np.sign`: -1, 0 or 1. */
  function Sign(x: real): (s: int)
    ensures s == -1 || s == 0 || s == 1
    ensures (s == 1 <==> x > 0.0) && (s == -1 <==> x < 0.0)
  {
    if x > 0.0 then 1 else if x < 0.0 then -1 else 0
  }

  /** `np.ceil` of a real, as an integer. */
  function Ceil(x: real): (n: int)
    ensures x <= n as real < x + 1.0
  {
    -((-x).Floor)
  }

  /**
   * `np.around`: the nearest integer, ties going to the even neighbour.
   */
  function RoundHalfEven(x: real): (n: int)
    ensures x - 0.5 <= n as real <= x + 0.5
    ensures (n as real == x - 0.5 || n as real == x + 0.5) ==> n % 2 == 0
  {
    var f := x.Floor;
    var d := x - f as real;
    if d < 0.5 then f
    else if d > 0.5 then f + 1
    else if f % 2 == 0 then f
    else f + 1
  }

  /** A value strictly within one half of an integer rounds to that integer. */
  lemma RoundToNearest(x: real, n: int)
    requires n as real - 0.5 < x < n as real + 0.5
    ensures RoundHalfEven(x) == n
  {
    var r := RoundHalfEven(x);
    assert r as real - n as real < 1.0 && n as real - r as real < 1.0;
  }

  /** Rounding preserves a range with integer ends. */
  lemma RoundWithin(x: real, lo: int, hi: int)
    requires lo as real <= x <= hi as real
    ensures lo <= RoundHalfEven(x) <= hi
  {
  }

  /**
   * A one-third step from an integer never lands on a tie: it rounds to
   * `lo + (w + 1) / 3` with Euclidean (floor) division.
   */
  lemma {:induction false} ThirdForward(lo: int, w: int)
    ensures RoundHalfEven(lo as real + w as real / 3.0) == lo + (w + 1) / 3
  {
    var q := (w + 1) / 3;
    var m := (w + 1) % 3;
    assert w == 3 * q + m - 1;
    assert w as real / 3.0 == q as real + (m - 1) as real / 3.0;
    RoundToNearest(lo as real + w as real / 3.0, lo + q);
  }

  /** The mirror image of `ThirdForward`: a one-third step back from `hi`. */
  lemma {:induction false} ThirdBackward(hi: int, w: int)
    ensures RoundHalfEven(hi as real - w as real / 3.0) == hi - (w + 1) / 3
  {
    var q := (w + 1) / 3;
    var m := (w + 1) % 3;
    assert w == 3 * q + m - 1;
    assert w as real / 3.0 == q as real + (m - 1) as real / 3.0;
    RoundToNearest(hi as real - w as real / 3.0, hi - q);
  }

  /** The rounded midpoint of two integers lies between them. */
  lemma MidpointWithin(a: int, b: int)
    requires a <= b
    ensures a <= RoundHalfEven((a + b) as real / 2.0) <= b
  {
    RoundWithin((a + b) as real / 2.0, a, b);
  }
}
