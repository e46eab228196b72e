/**
 * `find_zR_pps` of `Measurement` (src/nanosquared/measurement/measure.py):
 * the search for the Rayleigh length around a known beam centre.
 *
 * The searched function is `evaluate`: `f(x) = width(x) - sqrt(2) * width(center)`,
 * the excess of the beam width at stage position `x` over `sqrt(2)` times the
 * waist. A bounding search walks from the centre towards a bound until `f` is
 * positive, and an ITP search (interpolate, truncate, project) then narrows the
 * bracket between the centre and that point to twice the precision. Both loops
 * are given `fuel`, the number of rounds they may run.
 */
module RayleighSearch {
  import opened Errors
  import opened Rounding
  import opened RealMath
  import opened NanoScanConstants

  /** `scipy.constants.golden`, the default `kappa2`. */
  const Golden: real := 1.618033988749895

  /** `evaluate` for one axis: the width excess over `sqrt(2)` times the waist at `center`. */
  function Excess(m: Oracle, width: (NsAxes, int) -> real, axis: NsAxes, center: int): int -> real
  {
    x => width(axis, x) - m.sqrt(2.0) * width(axis, center)
  }

  /** `sqrt(2) > 1`, so the excess at the centre is negative whenever the waist is. */
  lemma ExcessAtCenter(m: Oracle, width: (NsAxes, int) -> real, axis: NsAxes, center: int)
    requires m.Valid() && width(axis, center) > 0.0
    ensures Excess(m, width, axis, center)(center) < 0.0
  {
    SqrtAt(m, 2.0);
    SqrtOne(m);
    SqrtMonotone(m, 1.0, 2.0);
    var s := m.sqrt(2.0);
    assert s != 1.0;
    var w := width(axis, center);
    assert w - s * w == (1.0 - s) * w;
    PositiveProduct(s - 1.0, w);
  }

  // ---------------------------------------------------------------- bounding search

  /** `np.around(origin + (bound - origin) / 3)`. */
  function Probe(origin: int, bound: int): (x: int)
    ensures x == origin + (bound - origin + 1) / 3
  {
    ThirdForward(origin, bound - origin);
    RoundHalfEven(origin as real + (bound - origin) as real / 3.0)
  }

  /** A probe moves closer to the bound unless it is within one pulse of it already. */
  lemma ProbeCloser(origin: int, bound: int)
    ensures Abs(bound - origin) <= 1 ==> Abs(bound - Probe(origin, bound)) <= 1
    ensures Abs(bound - origin) >= 2 ==> Abs(bound - Probe(origin, bound)) < Abs(bound - origin)
  {
  }

  /** How the bounding search ends: a point where `f` is positive, or one where it is exactly 0. */
  datatype Bounding = Above(x: int, y: real) | Exact(x: int)

  /**
   * The first loop of `find_zR_pps`. A step with `f <= 0` moves `origin` to the
   * probe; once within `precision` of the bound it tries once more, from the
   * centre towards `retry`, and then raises `StageOutOfRangeError`.
   */
  function BoundingSearch(f: int -> real, center: int, retry: int, origin: int, bound: int, retried: bool,
                          precision: int, fuel: nat): (r: Result<Bounding>)
    ensures r.Ok? && r.value.Above? ==> r.value.y == f(r.value.x) && r.value.y > 0.0
    ensures r.Ok? && r.value.Exact? ==> f(r.value.x) == 0.0
    ensures r.Err? ==> r.error == StageOutOfRangeError || r.error == Diverges
    decreases fuel
  {
    var x := Probe(origin, bound);
    var y := f(x);
    if y > 0.0 then Ok(Above(x, y))
    else if y == 0.0 then Ok(Exact(x))
    else if Abs(bound - x) <= precision then
      if retried then Err(StageOutOfRangeError)
      else if fuel == 0 then Err(Diverges)
      else BoundingSearch(f, center, retry, center, retry, true, precision, fuel - 1)
    else if fuel == 0 then Err(Diverges)
    else BoundingSearch(f, center, retry, x, bound, retried, precision, fuel - 1)
  }

  /** The rounds the bounding search may need: the distance to walk, and the retry's. */
  function BoundingRounds(center: int, retry: int, origin: int, bound: int, retried: bool): nat
  {
    Abs(bound - origin) + if retried then 0 else Abs(retry - center) + 1
  }

  /** With a precision of at least one pulse the bounding search ends within `BoundingRounds`. */
  lemma {:induction false} BoundingEnds(f: int -> real, center: int, retry: int, origin: int, bound: int, retried: bool,
                                        precision: int, fuel: nat)
    requires precision >= 1 && fuel >= BoundingRounds(center, retry, origin, bound, retried)
    ensures BoundingSearch(f, center, retry, origin, bound, retried, precision, fuel) != Err(Diverges)
    decreases fuel
  {
    var x := Probe(origin, bound);
    ProbeCloser(origin, bound);
    if f(x) < 0.0 {
      if Abs(bound - x) <= precision {
        if !retried {
          BoundingEnds(f, center, retry, center, retry, true, precision, fuel - 1);
        }
      } else {
        BoundingEnds(f, center, retry, x, bound, retried, precision, fuel - 1);
      }
    }
  }

  /** A beam narrower than `sqrt(2)` times its waist everywhere: both directions fail, and the search raises. */
  lemma BoundingOutOfRange(f: int -> real, center: int, retry: int, bound: int, precision: int, fuel: nat)
    requires forall x :: f(x) < 0.0
    requires precision >= 1 && fuel >= BoundingRounds(center, retry, center, bound, false)
    ensures BoundingSearch(f, center, retry, center, bound, false, precision, fuel) == Err(StageOutOfRangeError)
  {
    BoundingEnds(f, center, retry, center, bound, false, precision, fuel);
    var r := BoundingSearch(f, center, retry, center, bound, false, precision, fuel);
    assert r.Ok? ==> f(r.value.x) < 0.0;
  }

  // ---------------------------------------------------------------- ITP search

  /** The bracket of the ITP loop and its iteration count `j`. */
  datatype Itp = Itp(xa: int, ya: real, xb: int, yb: real, j: int)

  /** The two ends of the bracket carry values of opposite sign. */
  predicate Bracketed(s: Itp)
  {
    s.xa <= s.xb && ((s.ya < 0.0 < s.yb) || (s.yb < 0.0 < s.ya))
  }

  /** The values are `f` at the ends, or the bracket collapsed onto a root. */
  predicate Sampled(f: int -> real, s: Itp)
  {
    (s.ya == f(s.xa) && s.yb == f(s.xb)) || (s.xa == s.xb && f(s.xa) == 0.0)
  }

  /** The regula falsi point `(y_b x_a - y_a x_b) / (y_b - y_a)`. */
  function Falsi(s: Itp): real
    requires s.yb != s.ya
  {
    (s.yb * s.xa as real - s.ya * s.xb as real) / (s.yb - s.ya)
  }

  /** Truncation: move the falsi point `delta` towards the midpoint, or to the midpoint if it is nearer. */
  function Truncated(xf: real, xHalf: real, delta: real): real
  {
    if delta <= AbsR(xHalf - xf) then xf + Sign(xHalf - xf) as real * delta else xHalf
  }

  /** Projection: keep the estimate within `r` of the midpoint, on the side of `sigma`. */
  function Projected(xt: real, xHalf: real, sigma: real, r: real): real
  {
    if r < AbsR(xt - xHalf) then xHalf - sigma * r else xt
  }

  /** `x_half = (x_a + x_b) / 2`. */
  function Half(s: Itp): real
  {
    (s.xa + s.xb) as real / 2.0
  }

  /** `r = precision 2^(n_max - j) - (x_b - x_a) / 2`, the radius of the minmax interval. */
  function Radius(m: Oracle, s: Itp, precision: int, nMax: int): real
  {
    precision as real * m.pow(2.0, (nMax - s.j) as real) - (s.xb - s.xa) as real / 2.0
  }

  /** `delta = kappa1 (x_b - x_a)^kappa2`, the truncation step. */
  function Delta(m: Oracle, s: Itp, kappa1: real, kappa2: real): real
  {
    kappa1 * m.pow((s.xb - s.xa) as real, kappa2)
  }

  /** One ITP probe, `x_itp` rounded to a pulse. */
  function ItpPoint(m: Oracle, s: Itp, precision: int, nMax: int, kappa1: real, kappa2: real): int
    requires s.yb != s.ya
  {
    var xf := Falsi(s);
    RoundHalfEven(Projected(Truncated(xf, Half(s), Delta(m, s, kappa1, kappa2)), Half(s), Sign(Half(s) - xf) as real,
                            Radius(m, s, precision, nMax)))
  }

  /** Step 4 of the loop: the probe replaces the end whose value has its sign, or both ends on a root. */
  function ItpUpdate(s: Itp, x: int, y: real): Itp
  {
    var orientation := Sign(s.yb - s.ya) as real;
    if y * orientation > 0.0 then s.(xb := x, yb := y, j := s.j + 1)
    else if y * orientation < 0.0 then s.(xa := x, ya := y, j := s.j + 1)
    else s.(xa := x, xb := x, j := s.j + 1)
  }

  /** The second loop of `find_zR_pps`: it runs while the bracket is wider than twice the precision. */
  function ItpLoop(m: Oracle, f: int -> real, s: Itp, precision: int, nMax: int, kappa1: real, kappa2: real,
                   fuel: nat): (r: Result<Itp>)
    ensures r.Err? ==> r.error == NonFinite || r.error == Diverges
    decreases fuel
  {
    if !(s.xb - s.xa > 2 * precision) then Ok(s)
    else if s.yb == s.ya then Err(NonFinite)
    else if fuel == 0 then Err(Diverges)
    else
      var x := ItpPoint(m, s, precision, nMax, kappa1, kappa2);
      ItpLoop(m, f, ItpUpdate(s, x, f(x)), precision, nMax, kappa1, kappa2, fuel - 1)
  }

  /**
   * `n_max = ceil(log2((x_b - x_a) / (2 precision)))`, then the loop. A
   * precision of 0 or less makes that `inf` or `nan`; the model stops there.
   */
  function ItpSearch(m: Oracle, f: int -> real, s: Itp, precision: int, kappa1: real, kappa2: real,
                     fuel: nat): (r: Result<Itp>)
    ensures r.Err? ==> r.error == NonFinite || r.error == Diverges
  {
    if !(s.xb - s.xa > 2 * precision) then Ok(s)
    else if precision <= 0 then Err(NonFinite)
    else ItpLoop(m, f, s, precision, Ceil(m.log2((s.xb - s.xa) as real / (2 * precision) as real)), kappa1, kappa2, fuel)
  }

  lemma FalsiBetween(s: Itp)
    requires Bracketed(s)
    ensures s.yb != s.ya && s.xa as real <= Falsi(s) <= s.xb as real
  {
    var a, b := s.xa as real, s.xb as real;
    var d := s.yb - s.ya;
    var xf := Falsi(s);
    assert xf * d == s.yb * a - s.ya * b;
    assert (xf - a) * d == s.ya * (a - b);
    assert (b - xf) * d == s.yb * (b - a);
    if s.ya < 0.0 {
      NonnegativeProduct(-s.ya, b - a);
      NonnegativeProduct(s.yb, b - a);
      if xf < a {
        PositiveProduct(a - xf, d);
      }
      assert (xf - b) * d == -((b - xf) * d);
      if b < xf {
        PositiveProduct(xf - b, d);
      }
    } else {
      NonnegativeProduct(s.ya, b - a);
      NonnegativeProduct(-s.yb, b - a);
      if xf < a {
        PositiveProduct(a - xf, -d);
      }
      if b < xf {
        PositiveProduct(xf - b, -d);
      }
    }
  }

  lemma TruncatedBetween(xf: real, xHalf: real, delta: real)
    requires 0.0 <= delta
    ensures xf <= xHalf ==> xf <= Truncated(xf, xHalf, delta) <= xHalf
    ensures xHalf <= xf ==> xHalf <= Truncated(xf, xHalf, delta) <= xf
  {
  }

  lemma ProjectedWithin(xt: real, xHalf: real, sigma: real, r: real, a: real, b: real)
    requires a <= xt <= b && xHalf == (a + b) / 2.0 && r > -(b - a) / 2.0
    requires sigma == 1.0 || sigma == 0.0 || sigma == -1.0
    requires sigma == 1.0 ==> xt <= xHalf
    requires sigma == -1.0 ==> xHalf <= xt
    ensures a <= Projected(xt, xHalf, sigma, r) <= b
  {
  }

  lemma PowPositive(m: Oracle, x: real, y: real)
    requires m.PowLaw() && 0.0 < x
    ensures 0.0 < m.pow(x, y)
  {
  }

  /** With a positive precision the radius never reaches below minus half the bracket. */
  lemma RadiusAbove(m: Oracle, s: Itp, precision: int, nMax: int)
    requires m.PowLaw() && precision > 0
    ensures Radius(m, s, precision, nMax) > -(s.xb - s.xa) as real / 2.0
  {
    PowPositive(m, 2.0, (nMax - s.j) as real);
    PositiveProduct(precision as real, m.pow(2.0, (nMax - s.j) as real));
  }

  lemma DeltaNonnegative(m: Oracle, s: Itp, kappa1: real, kappa2: real)
    requires m.PowLaw() && s.xa < s.xb && kappa1 >= 0.0
    ensures Delta(m, s, kappa1, kappa2) >= 0.0
  {
    PowPositive(m, (s.xb - s.xa) as real, kappa2);
    NonnegativeProduct(kappa1, m.pow((s.xb - s.xa) as real, kappa2));
  }

  /** Each ITP probe lies in the bracket when `kappa1 >= 0` and the precision is positive. */
  lemma ProbeInBracket(m: Oracle, s: Itp, precision: int, nMax: int, kappa1: real, kappa2: real)
    requires m.PowLaw() && Bracketed(s) && s.xa < s.xb && precision > 0 && kappa1 >= 0.0
    ensures s.yb != s.ya
    ensures s.xa <= ItpPoint(m, s, precision, nMax, kappa1, kappa2) <= s.xb
  {
    FalsiBetween(s);
    RadiusAbove(m, s, precision, nMax);
    DeltaNonnegative(m, s, kappa1, kappa2);
    var xf := Falsi(s);
    var delta := Delta(m, s, kappa1, kappa2);
    TruncatedBetween(xf, Half(s), delta);
    var xt := Truncated(xf, Half(s), delta);
    var sigma := Sign(Half(s) - xf) as real;
    var r := Radius(m, s, precision, nMax);
    ProjectedWithin(xt, Half(s), sigma, r, s.xa as real, s.xb as real);
    RoundWithin(Projected(xt, Half(s), sigma, r), s.xa, s.xb);
  }

  /** A round keeps the bracket, nested in the old one, with values sampled from `f`. */
  lemma ItpRoundKeeps(m: Oracle, f: int -> real, s: Itp, precision: int, nMax: int, kappa1: real, kappa2: real)
    requires m.PowLaw() && Bracketed(s) && Sampled(f, s) && s.xb - s.xa > 2 * precision && precision > 0 && kappa1 >= 0.0
    ensures s.yb != s.ya
    ensures var x := ItpPoint(m, s, precision, nMax, kappa1, kappa2);
            var t := ItpUpdate(s, x, f(x));
            Bracketed(t) && Sampled(f, t) && s.xa <= t.xa && t.xb <= s.xb
  {
    ProbeInBracket(m, s, precision, nMax, kappa1, kappa2);
  }

  /** When the loop ends, the bracket is at most twice the precision wide, nested and still bracketing a root. */
  lemma {:induction false} ItpLoopBrackets(m: Oracle, f: int -> real, s: Itp, precision: int, nMax: int,
                                           kappa1: real, kappa2: real, fuel: nat)
    requires m.PowLaw() && Bracketed(s) && Sampled(f, s) && precision > 0 && kappa1 >= 0.0
    ensures var r := ItpLoop(m, f, s, precision, nMax, kappa1, kappa2, fuel);
            r.Err? ==> r.error == Diverges
    ensures var r := ItpLoop(m, f, s, precision, nMax, kappa1, kappa2, fuel);
            r.Ok? ==> Bracketed(r.value) && Sampled(f, r.value) && r.value.xb - r.value.xa <= 2 * precision
                      && s.xa <= r.value.xa && r.value.xb <= s.xb
    decreases fuel
  {
    if s.xb - s.xa > 2 * precision && fuel > 0 {
      ItpRoundKeeps(m, f, s, precision, nMax, kappa1, kappa2);
      var x := ItpPoint(m, s, precision, nMax, kappa1, kappa2);
      ItpLoopBrackets(m, f, ItpUpdate(s, x, f(x)), precision, nMax, kappa1, kappa2, fuel - 1);
    }
  }

  lemma ItpSearchBrackets(m: Oracle, f: int -> real, s: Itp, precision: int, kappa1: real, kappa2: real, fuel: nat)
    requires m.PowLaw() && Bracketed(s) && Sampled(f, s) && precision > 0 && kappa1 >= 0.0
    ensures var r := ItpSearch(m, f, s, precision, kappa1, kappa2, fuel);
            r.Ok? ==> Bracketed(r.value) && Sampled(f, r.value) && r.value.xb - r.value.xa <= 2 * precision
                      && s.xa <= r.value.xa && r.value.xb <= s.xb
  {
    if s.xb - s.xa > 2 * precision {
      ItpLoopBrackets(m, f, s, precision, Ceil(m.log2((s.xb - s.xa) as real / (2 * precision) as real)), kappa1, kappa2, fuel);
    }
  }

  /** The rounded midpoint of a bracket at most `2 precision` wide is within `precision` of both ends. */
  lemma MidpointNear(a: int, b: int, precision: int)
    requires a <= b && b - a <= 2 * precision
    ensures var c := RoundHalfEven((a + b) as real / 2.0);
            a <= c <= b && c - a <= precision && b - c <= precision
  {
    MidpointWithin(a, b);
  }

  // ---------------------------------------------------------------- find_zR_pps

  /** The bracket the ITP loop starts from: the centre with its value, and the positive point found. */
  function InitialBracket(f: int -> real, center: int, x: int, y: real): Itp
  {
    var waist := f(center);
    if x > center then Itp(center, waist, x, y, 0) else Itp(x, y, center, waist, 0)
  }

  /** The position reported for a bounding result: an exact root, or the rounded midpoint after the ITP loop. */
  function Located(m: Oracle, f: int -> real, center: int, b: Bounding, precision: int, kappa1: real, kappa2: real,
                   fuel: nat): (r: Result<int>)
    ensures r.Err? ==> r.error == NonFinite || r.error == Diverges
  {
    if b.Exact? then Ok(b.x)
    else
      var t := ItpSearch(m, f, InitialBracket(f, center, b.x, b.y), precision, kappa1, kappa2, fuel);
      if t.Err? then Err(t.error) else Ok(RoundHalfEven((t.value.xa + t.value.xb) as real / 2.0))
  }

  /** The common part of both versions: the bounding search, then the position it leads to. */
  function ZRSearch(m: Oracle, f: int -> real, center: int, lower: int, upper: int, other: Option<int>,
                    precision: int, kappa1: real, kappa2: real, fuel: nat): (r: Result<int>)
    ensures r.Err? ==> r.error in {StageOutOfRangeError, NonFinite, Diverges}
  {
    var bound := if other.Some? then other.value else upper;
    var retry := if bound > center then lower else upper;
    var b := BoundingSearch(f, center, retry, center, bound, false, precision, fuel);
    if b.Err? then Err(b.error) else Located(m, f, center, b.value, precision, kappa1, kappa2, fuel)
  }

  /**
   * `find_zR_pps` for one axis as written: an exact zero of the bounding search
   * returns that position itself. The rounded midpoint becomes `|result - center|`;
   * when `um_per_pulse` is unknown, the conversion in the log line raises, the
   * handler catches it and the position is returned instead.
   */
  function ZRAsWritten(m: Oracle, f: int -> real, center: int, lower: int, upper: int, umKnown: bool, other: Option<int>,
                       precision: int, kappa1: real, kappa2: real, fuel: nat): (r: Result<int>)
    ensures r.Err? ==> r.error in {StageOutOfRangeError, NonFinite, Diverges}
  {
    var bound := if other.Some? then other.value else upper;
    var retry := if bound > center then lower else upper;
    var b := BoundingSearch(f, center, retry, center, bound, false, precision, fuel);
    if b.Err? then Err(b.error)
    else if b.value.Exact? then Ok(b.value.x)
    else
      var z := Located(m, f, center, b.value, precision, kappa1, kappa2, fuel);
      if z.Err? then Err(z.error) else Ok(if umKnown then Abs(z.value - center) else z.value)
  }

  /** `find_zR_pps` for one axis, with an exact zero reported as its distance to the centre. */
  function ZR(m: Oracle, f: int -> real, center: int, lower: int, upper: int, umKnown: bool, other: Option<int>,
              precision: int, kappa1: real, kappa2: real, fuel: nat): (r: Result<int>)
    ensures r.Err? ==> r.error in {StageOutOfRangeError, NonFinite, Diverges}
    ensures r.Ok? && umKnown ==> r.value >= 0
  {
    var z := ZRSearch(m, f, center, lower, upper, other, precision, kappa1, kappa2, fuel);
    if z.Err? then Err(z.error) else Ok(if umKnown then Abs(z.value - center) else z.value)
  }

  /**
   * The position found lies within `precision` of two sampled positions
   * `lo <= hi` where `f` changes sign (or of one root).
   */
  lemma LocatedNearCrossing(m: Oracle, f: int -> real, center: int, b: Bounding, precision: int,
                            kappa1: real, kappa2: real, fuel: nat) returns (lo: int, hi: int)
    requires m.PowLaw() && precision > 0 && kappa1 >= 0.0 && f(center) < 0.0
    requires b.Above? ==> b.y == f(b.x) && b.y > 0.0
    requires b.Exact? ==> f(b.x) == 0.0
    requires Located(m, f, center, b, precision, kappa1, kappa2, fuel).Ok?
    ensures var pos := Located(m, f, center, b, precision, kappa1, kappa2, fuel).value;
            lo <= pos <= hi && pos - lo <= precision && hi - pos <= precision
    ensures (f(lo) <= 0.0 <= f(hi)) || (f(hi) <= 0.0 <= f(lo))
  {
    if b.Exact? {
      lo, hi := b.x, b.x;
    } else {
      var s := InitialBracket(f, center, b.x, b.y);
      ItpSearchBrackets(m, f, s, precision, kappa1, kappa2, fuel);
      var t := ItpSearch(m, f, s, precision, kappa1, kappa2, fuel).value;
      MidpointNear(t.xa, t.xb, precision);
      lo, hi := t.xa, t.xb;
    }
  }

  /**
   * What the Rayleigh length means: `center ± z` lies within `precision` of two
   * sampled positions `a <= b` where `f` changes sign (or of one root), so the
   * width crosses `sqrt(2)` times the waist between them.
   */
  lemma ZRLocatesCrossing(m: Oracle, f: int -> real, center: int, lower: int, upper: int, other: Option<int>,
                          precision: int, kappa1: real, kappa2: real, fuel: nat) returns (a: int, b: int, pos: int)
    requires m.PowLaw() && precision > 0 && kappa1 >= 0.0 && f(center) < 0.0
    requires ZR(m, f, center, lower, upper, true, other, precision, kappa1, kappa2, fuel).Ok?
    ensures var z := ZR(m, f, center, lower, upper, true, other, precision, kappa1, kappa2, fuel).value;
            pos == center + z || pos == center - z
    ensures a <= pos <= b && pos - a <= precision && b - pos <= precision
    ensures (f(a) <= 0.0 <= f(b)) || (f(b) <= 0.0 <= f(a))
  {
    var bound := if other.Some? then other.value else upper;
    var retry := if bound > center then lower else upper;
    var bs := BoundingSearch(f, center, retry, center, bound, false, precision, fuel);
    a, b := LocatedNearCrossing(m, f, center, bs.value, precision, kappa1, kappa2, fuel);
    pos := Located(m, f, center, bs.value, precision, kappa1, kappa2, fuel).value;
  }

  /** Whether the bounding search of `find_zR_pps` stops on an exact zero of the excess. */
  predicate BoundingHitsZero(f: int -> real, center: int, lower: int, upper: int, other: Option<int>,
                             precision: int, fuel: nat)
  {
    var bound := if other.Some? then other.value else upper;
    var retry := if bound > center then lower else upper;
    var b := BoundingSearch(f, center, retry, center, bound, false, precision, fuel);
    b.Ok? && b.value.Exact?
  }

  /**
   * What the as-written `find_zR_pps` returns. Unless the bounding search stops on
   * an exact zero, the result is the corrected Rayleigh length `ZR`: `center ± z`
   * lies within `precision` of a sampled crossing of `sqrt(2)` times the waist.
   * On an exact zero the result is that root's position, not its distance.
   */
  lemma ZRAsWrittenLocatesCrossing(m: Oracle, f: int -> real, center: int, lower: int, upper: int, other: Option<int>,
                                   precision: int, kappa1: real, kappa2: real, fuel: nat) returns (a: int, b: int, pos: int)
    requires m.PowLaw() && precision > 0 && kappa1 >= 0.0 && f(center) < 0.0
    requires ZRAsWritten(m, f, center, lower, upper, true, other, precision, kappa1, kappa2, fuel).Ok?
    ensures var r := ZRAsWritten(m, f, center, lower, upper, true, other, precision, kappa1, kappa2, fuel).value;
            if BoundingHitsZero(f, center, lower, upper, other, precision, fuel)
            then f(r) == 0.0 && a == pos == b == r
            else ZR(m, f, center, lower, upper, true, other, precision, kappa1, kappa2, fuel) == Ok(r)
                 && r >= 0 && (pos == center + r || pos == center - r)
    ensures a <= pos <= b && pos - a <= precision && b - pos <= precision
    ensures (f(a) <= 0.0 <= f(b)) || (f(b) <= 0.0 <= f(a))
  {
    var bound := if other.Some? then other.value else upper;
    var retry := if bound > center then lower else upper;
    var bs := BoundingSearch(f, center, retry, center, bound, false, precision, fuel);
    if bs.value.Exact? {
      a, b, pos := bs.value.x, bs.value.x, bs.value.x;
    } else {
      a, b, pos := ZRLocatesCrossing(m, f, center, lower, upper, other, precision, kappa1, kappa2, fuel);
    }
  }

  /** As written, a probe that hits the crossing exactly is returned as a position, not a length. */
  lemma ExactHitAsWritten()
    ensures var f := (x: int) => (x - 200) as real;
            var m := Oracle(x => x, x => x, (x, y) => 1.0, 3.1415926535);
            ZRAsWritten(m, f, 100, 0, 400, true, None, 10, 0.0, Golden, 10) == Ok(200)
            && ZR(m, f, 100, 0, 400, true, None, 10, 0.0, Golden, 10) == Ok(100)
  {
    assert Probe(100, 400) == 200;
  }

  /** The unit test's out-of-range beam: `f < 0` everywhere, so the search raises. */
  lemma ZROutOfRange(m: Oracle, f: int -> real, center: int, lower: int, upper: int, umKnown: bool,
                     precision: int, kappa1: real, kappa2: real, fuel: nat)
    requires forall x :: f(x) < 0.0
    requires precision >= 1 && fuel >= Abs(upper - center) + Abs(upper - lower) + Abs(lower - center) + 1
    ensures ZR(m, f, center, lower, upper, umKnown, None, precision, kappa1, kappa2, fuel) == Err(StageOutOfRangeError)
  {
    var retry := if upper > center then lower else upper;
    BoundingOutOfRange(f, center, retry, upper, precision, fuel);
  }

  /**
   * `find_zR_pps` with `axis == BOTH`: two single-axis searches at the two
   * centres with the default `other`, `kappa1` and `kappa2`; the pair is
   * returned as it is.
   */
  function ZRBoth(m: Oracle, width: (NsAxes, int) -> real, center: (int, int), lower: int, upper: int, umKnown: bool,
                  precision: int, fuel: nat): (r: Result<(int, int)>)
    ensures r.Ok? ==>
              ZR(m, Excess(m, width, X, center.0), center.0, lower, upper, umKnown, None, precision, 0.0, Golden, fuel) == Ok(r.value.0) &&
              ZR(m, Excess(m, width, Y, center.1), center.1, lower, upper, umKnown, None, precision, 0.0, Golden, fuel) == Ok(r.value.1)
    ensures r.Err? ==> r.error in {StageOutOfRangeError, NonFinite, Diverges}
  {
    var zx := ZR(m, Excess(m, width, X, center.0), center.0, lower, upper, umKnown, None, precision, 0.0, Golden, fuel);
    if zx.Err? then Err(zx.error)
    else
      var zy := ZR(m, Excess(m, width, Y, center.1), center.1, lower, upper, umKnown, None, precision, 0.0, Golden, fuel);
      if zy.Err? then Err(zy.error) else Ok((zx.value, zy.value))
  }

  // ---------------------------------------------------------------- the loops

  /** The bounding loop of `find_zR_pps`, with its single retry. */
  method BoundingLoop(f: int -> real, center: int, retry: int, bound: int, precision: int, fuel: nat)
    returns (r: Result<Bounding>)
    ensures r == BoundingSearch(f, center, retry, center, bound, false, precision, fuel)
  {
    var origin, to := center, bound;
    var remainingTries := 1;
    var rounds := 0;
    while true
      invariant 0 <= rounds <= fuel && 0 <= remainingTries <= 1
      invariant BoundingSearch(f, center, retry, origin, to, remainingTries == 0, precision, fuel - rounds)
                == BoundingSearch(f, center, retry, center, bound, false, precision, fuel)
      decreases fuel - rounds
    {
      var x := RoundHalfEven(origin as real + (to - origin) as real / 3.0);
      var y := f(x);
      if y > 0.0 {
        return Ok(Above(x, y));
      } else if y == 0.0 {
        return Ok(Exact(x));
      }
      origin := x;
      if Abs(to - origin) <= precision {
        if remainingTries == 0 {
          return Err(StageOutOfRangeError);
        }
        remainingTries := 0;
        origin, to := center, retry;
      }
      if rounds == fuel {
        return Err(Diverges);
      }
      rounds := rounds + 1;
    }
  }

  /** The ITP loop of `find_zR_pps`. */
  method ItpIterate(m: Oracle, f: int -> real, s: Itp, precision: int, nMax: int, kappa1: real, kappa2: real, fuel: nat)
    returns (r: Result<Itp>)
    ensures r == ItpLoop(m, f, s, precision, nMax, kappa1, kappa2, fuel)
  {
    var xa, ya, xb, yb, j := s.xa, s.ya, s.xb, s.yb, s.j;
    var rounds := 0;
    while xb - xa > 2 * precision
      invariant 0 <= rounds <= fuel
      invariant ItpLoop(m, f, Itp(xa, ya, xb, yb, j), precision, nMax, kappa1, kappa2, fuel - rounds)
                == ItpLoop(m, f, s, precision, nMax, kappa1, kappa2, fuel)
      decreases fuel - rounds
    {
      if yb == ya {
        return Err(NonFinite);
      }
      if rounds == fuel {
        return Err(Diverges);
      }
      var xItp := ItpPoint(m, Itp(xa, ya, xb, yb, j), precision, nMax, kappa1, kappa2);
      var yItp := f(xItp);
      var orientation := Sign(yb - ya) as real;
      if yItp * orientation > 0.0 {
        xb, yb := xItp, yItp;
      } else if yItp * orientation < 0.0 {
        xa, ya := xItp, yItp;
      } else {
        xa, xb := xItp, xItp;
      }
      j := j + 1;
      rounds := rounds + 1;
    }
    r := Ok(Itp(xa, ya, xb, yb, j));
  }

  /** `n_max` from the starting bracket, then the ITP loop. */
  method ItpPhase(m: Oracle, f: int -> real, s: Itp, precision: int, kappa1: real, kappa2: real, fuel: nat)
    returns (r: Result<Itp>)
    ensures r == ItpSearch(m, f, s, precision, kappa1, kappa2, fuel)
  {
    if !(s.xb - s.xa > 2 * precision) {
      return Ok(s);
    } else if precision <= 0 {
      return Err(NonFinite);
    }
    var nHalf := Ceil(m.log2((s.xb - s.xa) as real / (2 * precision) as real));
    r := ItpIterate(m, f, s, precision, nHalf, kappa1, kappa2, fuel);
  }

  /** The position a bounding result leads to: the ITP phase unless the root was hit exactly. */
  method LocateRoot(m: Oracle, f: int -> real, center: int, b: Bounding, precision: int, kappa1: real, kappa2: real,
                    fuel: nat) returns (r: Result<int>)
    ensures r == Located(m, f, center, b, precision, kappa1, kappa2, fuel)
  {
    if b.Exact? {
      return Ok(b.x);
    }
    var t := ItpPhase(m, f, InitialBracket(f, center, b.x, b.y), precision, kappa1, kappa2, fuel);
    if t.Err? {
      return Err(t.error);
    }
    r := Ok(RoundHalfEven((t.value.xa + t.value.xb) as real / 2.0));
  }

  /**
   * `find_zR_pps` for one axis as written: the two loops, then the distance of
   * the midpoint from the centre, except that an exact zero of the bounding
   * search returns that position.
   */
  method FindZR(m: Oracle, f: int -> real, center: int, lower: int, upper: int, umKnown: bool, other: Option<int>,
                precision: int, kappa1: real, kappa2: real, fuel: nat) returns (r: Result<int>)
    ensures r == ZRAsWritten(m, f, center, lower, upper, umKnown, other, precision, kappa1, kappa2, fuel)
  {
    var bound := if other.Some? then other.value else upper;
    var retry := if bound > center then lower else upper;
    var b := BoundingLoop(f, center, retry, bound, precision, fuel);
    if b.Err? {
      return Err(b.error);
    }
    if b.value.Exact? {
      return Ok(b.value.x);
    }
    var result := LocateRoot(m, f, center, b.value, precision, kappa1, kappa2, fuel);
    if result.Err? {
      return Err(result.error);
    }
    r := Ok(if umKnown then Abs(result.value - center) else result.value);
  }
}
