/**
 * The beam-waist searches of `Measurement` (src/nanosquared/measurement/measure.py):
 * `find_center`, a ternary search over stage pulses for the smallest beam
 * width, and `find_center_xy`, which searches both camera axes from one queue.
 *
 * A measurement is a fixed function of the stage position: `beam(axis, p)` is
 * the mean diameter `measure_at(...)[0]` on that axis after moving to `p`.
 * The Python loops need not end; each search here is given `fuel`, the number
 * of rounds it may run, and reports `Err(Diverges)` when the loop would still
 * be running after them.
 */
module CenterSearch {
  import opened Errors
  import opened Helpers
  import opened Rounding
  import opened NanoScanConstants
  import NanoScan

  type Beam = (NsAxes, int) -> real

  /** The left third point of a bracket, in the closed form `ThirdsRound` proves equal to the source's rounding. */
  function LeftThird(left: int, right: int): int
  {
    left + (right - left + 1) / 3
  }

  /** The right third point, likewise. */
  function RightThird(left: int, right: int): int
  {
    right - (right - left + 1) / 3
  }

  /**
   * `np.around(left + (right - left) / 3)` and `np.around(right - (right - left) / 3)`
   * never land on a tie, so they are the floor divisions `LeftThird` and `RightThird`.
   */
  lemma ThirdsRound(left: int, right: int)
    ensures LeftThird(left, right) == RoundHalfEven(left as real + (right - left) as real / 3.0)
    ensures RightThird(left, right) == RoundHalfEven(right as real - (right - left) as real / 3.0)
  {
    ThirdForward(left, right - left);
    ThirdBackward(right, right - left);
  }

  /** `np.around((left + right) / 2)`: the centre reported for a bracket. */
  function Midpoint(left: int, right: int): int
  {
    var h := (left + right) / 2;
    if (left + right) % 2 == 0 || h % 2 == 0 then h else h + 1
  }

  /** `Midpoint` is the source's `np.around((left + right) / 2)`: a half rounds to the even neighbour. */
  lemma MidpointRounds(left: int, right: int)
    ensures Midpoint(left, right) == RoundHalfEven((left + right) as real / 2.0)
    ensures left <= right ==> left <= Midpoint(left, right) <= right
  {
    var h := (left + right) / 2;
    var x := (left + right) as real / 2.0;
    if (left + right) % 2 == 0 {
      assert x == h as real;
      RoundToNearest(x, h);
    } else {
      assert x == h as real + 0.5;
      var n := RoundHalfEven(x);
      assert n == h || n == h + 1;
    }
  }

  /** One round of `find_center`: drop the third beyond the wider of the two probes. */
  function TernaryRound(width: int -> real, left: int, right: int): (b: (int, int))
  {
    var lt := LeftThird(left, right);
    var rt := RightThird(left, right);
    if width(lt) > width(rt) then (lt, right) else (left, rt)
  }

  /** A bracket at least two pulses wide shrinks strictly and stays ordered and nested. */
  lemma TernaryRoundNarrows(width: int -> real, left: int, right: int)
    requires left + 2 <= right
    ensures var b := TernaryRound(width, left, right);
            left <= b.0 <= b.1 <= right && b.1 - b.0 < right - left
  {
  }

  /** The loop of `find_center` as written: it runs while `|right - left| >= precision`. */
  function Ternary(width: int -> real, left: int, right: int, precision: int, fuel: nat): (r: Result<int>)
    ensures r.Err? ==> r.error == Diverges
    decreases fuel
  {
    if Abs(right - left) < precision then Ok(Midpoint(left, right))
    else if fuel == 0 then Err(Diverges)
    else
      var b := TernaryRound(width, left, right);
      Ternary(width, b.0, b.1, precision, fuel - 1)
  }

  /**
   * With a precision of at least 2 the search ends within `right - left`
   * rounds, and the centre lies within the starting bracket.
   */
  lemma {:induction false} TernaryFinishes(width: int -> real, left: int, right: int, precision: int, fuel: nat)
    requires 2 <= precision && left <= right && right - left <= fuel
    ensures Ternary(width, left, right, precision, fuel).Ok?
    ensures left <= Ternary(width, left, right, precision, fuel).value <= right
    decreases fuel
  {
    if right - left >= precision {
      TernaryRoundNarrows(width, left, right);
      var b := TernaryRound(width, left, right);
      TernaryFinishes(width, b.0, b.1, precision, fuel - 1);
    } else {
      MidpointRounds(left, right);
    }
  }

  /** As written, a precision of at most 1 never ends on a one-pulse bracket: the third points are its ends. */
  lemma {:induction false} TernaryStalls(width: int -> real, left: int, precision: int, fuel: nat)
    requires precision <= 1
    ensures Ternary(width, left, left + 1, precision, fuel) == Err(Diverges)
    decreases fuel
  {
    if fuel > 0 {
      assert TernaryRound(width, left, left + 1) == (left, left + 1);
      TernaryStalls(width, left, precision, fuel - 1);
    }
  }

  /** The precision `find_center_xy` uses, and `find_center` evidently should: at least 2. */
  function ClampedPrecision(precision: int): (p: int)
    ensures p >= 2 && (precision >= 2 ==> p == precision)
  {
    if precision < 2 then 2 else precision
  }

  /** The search of `find_center` with its precision clamped to 2. */
  function TernaryClamped(width: int -> real, left: int, right: int, precision: int, fuel: nat): Result<int>
  {
    Ternary(width, left, right, ClampedPrecision(precision), fuel)
  }

  /** The clamped search always ends on an ordered bracket, within it. */
  lemma ClampedSearchFinishes(width: int -> real, left: int, right: int, precision: int, fuel: nat)
    requires left <= right && right - left <= fuel
    ensures TernaryClamped(width, left, right, precision, fuel).Ok?
    ensures left <= TernaryClamped(width, left, right, precision, fuel).value <= right
  {
    TernaryFinishes(width, left, right, ClampedPrecision(precision), fuel);
  }

  /**
   * A beam whose width falls strictly up to the waist position `z` and rises
   * strictly after it: the profile `find_center` looks for.
   */
  ghost predicate Unimodal(width: int -> real, z: int)
  {
    && (forall p, q :: p < q <= z ==> WidthAt(width, p) > WidthAt(width, q))
    && (forall p, q :: z <= p < q ==> WidthAt(width, p) < WidthAt(width, q))
  }

  /** The width at `p`, named so that `Unimodal` speaks only of the positions a proof mentions. */
  ghost function WidthAt(width: int -> real, p: int): real
  {
    width(p)
  }

  /** A search not yet within its precision, with rounds left, runs one round and goes on. */
  lemma TernaryUnfolds(width: int -> real, left: int, right: int, precision: int, fuel: nat)
    requires Abs(right - left) >= precision && fuel > 0
    ensures var b := TernaryRound(width, left, right);
            Ternary(width, left, right, precision, fuel) == Ternary(width, b.0, b.1, precision, fuel - 1)
  {
  }

  /** A search still wider than its precision runs one round and goes on from the narrower bracket. */
  lemma TernaryStep(width: int -> real, left: int, right: int, precision: int, fuel: nat)
    requires 2 <= precision && left + precision <= right && right - left <= fuel
    ensures var b := TernaryRound(width, left, right);
            && left <= b.0 <= b.1 <= right && b.1 - b.0 < right - left && b.1 - b.0 <= fuel - 1
            && Ternary(width, left, right, precision, fuel) == Ternary(width, b.0, b.1, precision, fuel - 1)
  {
    TernaryRoundNarrows(width, left, right);
  }

  /**
   * A round on a bracket holding the waist keeps it, except on a two-pulse
   * bracket, whose third points coincide: the kept one-pulse bracket may
   * then miss the waist by one pulse.
   */
  lemma TernaryRoundKeepsWaist(width: int -> real, z: int, left: int, right: int)
    requires Unimodal(width, z) && left + 2 <= right && left <= z <= right
    ensures var b := TernaryRound(width, left, right);
            (b.0 <= z <= b.1) || (b.1 - b.0 == 1 && b.0 - 1 <= z <= b.1 + 1)
  {
    var lt, rt := LeftThird(left, right), RightThird(left, right);
    if right - left == 2 {
      assert lt == rt == left + 1;
    } else {
      assert lt < rt;
      assert z < lt ==> WidthAt(width, lt) < WidthAt(width, rt);
      assert z > rt ==> WidthAt(width, lt) > WidthAt(width, rt);
    }
  }

  /**
   * The search from a bracket holding the waist (or missing it by one pulse
   * on a one-pulse bracket) ends within `precision / 2 + 1` pulses of the waist.
   */
  lemma {:induction false} TernaryNearWaist(width: int -> real, z: int, left: int, right: int, precision: int, fuel: nat)
    requires Unimodal(width, z) && 2 <= precision && left <= right && right - left <= fuel
    requires (left <= z <= right) || (right - left == 1 && left - 1 <= z <= right + 1)
    ensures Ternary(width, left, right, precision, fuel).Ok?
    ensures 2 * Abs(Ternary(width, left, right, precision, fuel).value - z) <= precision + 2
    decreases fuel
  {
    if right - left >= precision {
      assert left <= z <= right;
      var b := TernaryRound(width, left, right);
      TernaryStep(width, left, right, precision, fuel);
      TernaryRoundKeepsWaist(width, z, left, right);
      TernaryNearWaist(width, z, b.0, b.1, precision, fuel - 1);
    } else {
      MidpointNearWaist(z, left, right, precision);
    }
  }

  /** The centre of a bracket narrower than `precision` lies near a waist it holds. */
  lemma MidpointNearWaist(z: int, left: int, right: int, precision: int)
    requires 2 <= precision && left <= right && right - left < precision
    requires (left <= z <= right) || (right - left == 1 && left - 1 <= z <= right + 1)
    ensures 2 * Abs(Midpoint(left, right) - z) <= precision + 2
  {
    MidpointRounds(left, right);
  }

  /**
   * What `find_center` promises, "the approximate beam-waist position": on a
   * beam with its waist inside the bracket, the clamped search ends within
   * half its precision, plus one pulse, of the waist.
   */
  lemma ClampedSearchNearWaist(width: int -> real, z: int, left: int, right: int, precision: int, fuel: nat)
    requires Unimodal(width, z) && left <= z <= right && right - left <= fuel
    ensures TernaryClamped(width, left, right, precision, fuel).Ok?
    ensures 2 * Abs(TernaryClamped(width, left, right, precision, fuel).value - z) <= ClampedPrecision(precision) + 2
  {
    TernaryNearWaist(width, z, left, right, ClampedPrecision(precision), fuel);
  }

  /** The loop of `find_center`, with its precision clamped. */
  method SearchCenter(width: int -> real, left: int, right: int, precision: int, fuel: nat) returns (r: Result<int>)
    ensures r == TernaryClamped(width, left, right, precision, fuel)
  {
    var p := if precision < 2 then 2 else precision;
    var lo, hi := left, right;
    var rounds := 0;
    while Abs(hi - lo) >= p
      invariant 0 <= rounds <= fuel
      invariant Ternary(width, lo, hi, p, fuel - rounds) == Ternary(width, left, right, p, fuel)
      decreases fuel - rounds
    {
      if rounds == fuel {
        assert Ternary(width, lo, hi, p, 0) == Err(Diverges);
        return Err(Diverges);
      }
      var leftThird := RoundHalfEven(lo as real + (hi - lo) as real / 3.0);
      var rightThird := RoundHalfEven(hi as real - (hi - lo) as real / 3.0);
      ThirdsRound(lo, hi);
      ghost var b := TernaryRound(width, lo, hi);
      TernaryUnfolds(width, lo, hi, p, fuel - rounds);
      if width(leftThird) > width(rightThird) {
        lo := leftThird;
      } else {
        hi := rightThird;
      }
      assert (lo, hi) == b;
      rounds := rounds + 1;
    }
    r := Ok(RoundHalfEven((lo + hi) as real / 2.0));
    MidpointRounds(lo, hi);
    assert Ternary(width, lo, hi, p, fuel - rounds) == Ok(Midpoint(lo, hi));
  }

  /** What `find_center` reports: nothing for a foreign axis, one centre, or a pair for `BOTH`. */
  datatype Center = NoCenter | AxisCenter(c: int) | PairCenter(x: int, y: int)

  /**
   * The bracket of a two-axis search: `left` and `right` hold one bound per
   * axis (0 is X, 1 is Y), and the queue of axes still searched is `[0, 1][next..]`.
   */
  datatype XYState = XYState(left: seq<int>, right: seq<int>, next: int)

  predicate WellFormed(s: XYState)
  {
    |s.left| == 2 && |s.right| == 2 && 0 <= s.next <= 2
  }

  function AxisAt(a: int): NsAxes
  {
    if a == 0 then X else Y
  }

  /** Whether axis `a` keeps the right part of the bracket: its width is bigger at the left probe. */
  predicate MovesLeft(beam: Beam, a: int, lt: int, rt: int)
  {
    beam(AxisAt(a), lt) > beam(AxisAt(a), rt)
  }

  function NewLeft(beam: Beam, s: XYState, a: int, lt: int, rt: int): int
    requires WellFormed(s) && 0 <= a < 2
  {
    if s.next <= a && MovesLeft(beam, a, lt, rt) then lt else s.left[a]
  }

  function NewRight(beam: Beam, s: XYState, a: int, lt: int, rt: int): int
    requires WellFormed(s) && 0 <= a < 2
  {
    if s.next <= a && !MovesLeft(beam, a, lt, rt) then rt else s.right[a]
  }

  /**
   * One round of `find_center_xy`: third points from the front axis's
   * bracket, `one_third = |right - left| / 3`; every queued axis compares its
   * own widths there; the front axis leaves the queue once within precision.
   */
  function XYRound(beam: Beam, s: XYState, precision: int): (t: XYState)
    requires WellFormed(s) && s.next < 2
    ensures WellFormed(t) && (t.next == s.next || t.next == s.next + 1)
    ensures forall a :: 0 <= a < s.next ==> t.left[a] == s.left[a] && t.right[a] == s.right[a]
  {
    var cur := s.next;
    var g := Abs(s.right[cur] - s.left[cur]);
    var lt := RoundHalfEven(s.left[cur] as real + g as real / 3.0);
    var rt := RoundHalfEven(s.right[cur] as real - g as real / 3.0);
    var left := [NewLeft(beam, s, 0, lt, rt), NewLeft(beam, s, 1, lt, rt)];
    var right := [NewRight(beam, s, 0, lt, rt), NewRight(beam, s, 1, lt, rt)];
    XYState(left, right, if Abs(right[cur] - left[cur]) <= precision then cur + 1 else cur)
  }

  /** The third points of `XYRound` have the closed form of `LeftThird`/`RightThird`, with the width taken absolutely. */
  lemma XYThirds(l: int, r: int)
    ensures RoundHalfEven(l as real + Abs(r - l) as real / 3.0) == l + (Abs(r - l) + 1) / 3
    ensures RoundHalfEven(r as real - Abs(r - l) as real / 3.0) == r - (Abs(r - l) + 1) / 3
  {
    ThirdForward(l, Abs(r - l));
    ThirdBackward(r, Abs(r - l));
  }

  /** The loop of `find_center_xy`, then the rounded midpoints. */
  function XYSearch(beam: Beam, s: XYState, precision: int, fuel: nat): (r: Result<(int, int)>)
    requires WellFormed(s)
    ensures r.Err? ==> r.error == Diverges
    decreases fuel
  {
    if s.next == 2 then Ok((Midpoint(s.left[0], s.right[0]), Midpoint(s.left[1], s.right[1])))
    else if fuel == 0 then Err(Diverges)
    else XYSearch(beam, XYRound(beam, s, precision), precision, fuel - 1)
  }

  /** Once X has left the queue its bracket is frozen: its centre is the midpoint of the bracket it left with. */
  lemma {:induction false} XYPoppedAxisFrozen(beam: Beam, s: XYState, precision: int, fuel: nat)
    requires WellFormed(s) && s.next >= 1
    ensures var r := XYSearch(beam, s, precision, fuel);
            r.Ok? ==> r.value.0 == Midpoint(s.left[0], s.right[0])
    decreases fuel
  {
    if s.next < 2 && fuel > 0 {
      XYPoppedAxisFrozen(beam, XYRound(beam, s, precision), precision, fuel - 1);
    }
  }

  /** Python's `isinstance(v, int)`, which `bool` passes too. */
  predicate IsPyInt(v: PyValue)
  {
    v.PInt? || v.PBool?
  }

  function PyIntValue(v: PyValue): int
    requires IsPyInt(v)
  {
    if v.PInt? then v.i else if v.b then 1 else 0
  }

  /**
   * `find_center_xy`: bounds default to the stage limits for both axes; a
   * bound that is not an `int` gives `(0, 0)`; the precision is clamped to 2.
   * The stage limits come in as `int`s here, while an SGSP26-200's limits
   * after `resetStage` are Python floats, which the `int` test refuses.
   */
  function CenterXY(beam: Beam, lower: int, upper: int, left: Option<seq<PyValue>>, right: Option<seq<PyValue>>,
                    precision: int, fuel: nat): (r: Result<(int, int)>)
    requires left.Some? ==> |left.value| == 2
    requires right.Some? ==> |right.value| == 2
    ensures (left.Some? && exists i :: 0 <= i < 2 && !IsPyInt(left.value[i])) ==> r == Ok((0, 0))
    ensures (right.Some? && exists i :: 0 <= i < 2 && !IsPyInt(right.value[i])) ==> r == Ok((0, 0))
  {
    var l := if left.Some? then left.value else [PInt(lower), PInt(lower)];
    var rr := if right.Some? then right.value else [PInt(upper), PInt(upper)];
    if !(IsPyInt(l[0]) && IsPyInt(l[1]) && IsPyInt(rr[0]) && IsPyInt(rr[1])) then Ok((0, 0))
    else
      XYSearch(beam, XYState([PyIntValue(l[0]), PyIntValue(l[1])], [PyIntValue(rr[0]), PyIntValue(rr[1])], 0),
               ClampedPrecision(precision), fuel)
  }

  /** One pass of the `for i in queue` loop of `find_center_xy`, then the pop. */
  method XYStep(beam: Beam, lo: seq<int>, hi: seq<int>, next: int, p: int) returns (lo': seq<int>, hi': seq<int>, next': int)
    requires WellFormed(XYState(lo, hi, next)) && next < 2
    ensures XYState(lo', hi', next') == XYRound(beam, XYState(lo, hi, next), p)
  {
    ghost var before := XYState(lo, hi, next);
    var oneThird := Abs(hi[next] - lo[next]) as real / 3.0;
    var leftThird := RoundHalfEven(lo[next] as real + oneThird);
    var rightThird := RoundHalfEven(hi[next] as real - oneThird);
    lo', hi' := lo, hi;
    for a := next to 2
      invariant |lo'| == 2 && |hi'| == 2
      invariant forall k :: 0 <= k < 2 ==> lo'[k] == (if k < a then NewLeft(beam, before, k, leftThird, rightThird) else lo[k])
      invariant forall k :: 0 <= k < 2 ==> hi'[k] == (if k < a then NewRight(beam, before, k, leftThird, rightThird) else hi[k])
    {
      if beam(AxisAt(a), leftThird) > beam(AxisAt(a), rightThird) {
        lo' := lo'[a := leftThird];
      } else {
        hi' := hi'[a := rightThird];
      }
    }
    next' := if Abs(hi'[next] - lo'[next]) <= p then next + 1 else next;
  }

  /** One unfolding of `XYSearch` while an axis is queued. */
  lemma XYSearchUnfold(beam: Beam, s: XYState, precision: int, fuel: nat)
    requires WellFormed(s) && s.next < 2 && fuel > 0
    ensures XYSearch(beam, s, precision, fuel) == XYSearch(beam, XYRound(beam, s, precision), precision, fuel - 1)
  {
  }

  /** The loop of `find_center_xy` on list brackets and a queue index. */
  method SearchCenterXY(beam: Beam, left: seq<int>, right: seq<int>, precision: int, fuel: nat) returns (r: Result<(int, int)>)
    requires |left| == 2 && |right| == 2
    ensures r == XYSearch(beam, XYState(left, right, 0), ClampedPrecision(precision), fuel)
  {
    var p := if precision < 2 then 2 else precision;
    var lo, hi := left, right;
    var next := 0;
    var rounds := 0;
    while next < 2
      invariant 0 <= rounds <= fuel && |lo| == 2 && |hi| == 2 && 0 <= next <= 2
      invariant XYSearch(beam, XYState(lo, hi, next), p, fuel - rounds) == XYSearch(beam, XYState(left, right, 0), p, fuel)
      decreases fuel - rounds
    {
      if rounds == fuel {
        return Err(Diverges);
      }
      XYSearchUnfold(beam, XYState(lo, hi, next), p, fuel - rounds);
      lo, hi, next := XYStep(beam, lo, hi, next, p);
      rounds := rounds + 1;
    }
    r := Ok((RoundHalfEven((lo[0] + hi[0]) as real / 2.0), RoundHalfEven((lo[1] + hi[1]) as real / 2.0)));
    MidpointRounds(lo[0], hi[0]);
    MidpointRounds(lo[1], hi[1]);
  }

  /**
   * A beam whose Y width is bigger only at pulse 9. Searched from [0, 27] at
   * precision 2, the first round moves Y's left bound to 9 and later rounds pull
   * Y's right bound below it: once X leaves the queue, Y's bracket is inverted
   * and widens every round.
   */
  function InvertingBeam(): Beam
  {
    (axis: NsAxes, p: int) => if axis == Y && p == 9 then 1.0 else 0.0
  }

  /** The brackets of that search after each of its first six rounds. */
  function WitnessState(k: nat): (s: XYState)
    requires k <= 6
    ensures WellFormed(s)
  {
    var rights := [27, 18, 12, 8, 5, 3, 2];
    XYState([0, if k == 0 then 0 else 9], [rights[k], if k <= 1 then 27 else rights[k]], if k == 6 then 1 else 0)
  }

  lemma WitnessRound(k: nat)
    requires k < 6
    ensures XYRound(InvertingBeam(), WitnessState(k), 2) == WitnessState(k + 1)
  {
    var s := WitnessState(k);
    XYThirds(s.left[0], s.right[0]);
  }

  /** With only Y queued, left bound 9 and right bound at most 2, no round ever ends the search. */
  lemma {:induction false} InvertedBracketGrows(s: XYState, fuel: nat)
    requires WellFormed(s) && s.next == 1 && s.left[1] == 9 && s.right[1] <= 2
    ensures XYSearch(InvertingBeam(), s, 2, fuel) == Err(Diverges)
    decreases fuel
  {
    if fuel > 0 {
      XYThirds(s.left[1], s.right[1]);
      var t := XYRound(InvertingBeam(), s, 2);
      assert t.left[1] == 9 && t.right[1] <= s.right[1] - 2 && t.next == 1;
      InvertedBracketGrows(t, fuel - 1);
    }
  }

  /** A search whose next state diverges, for every number of rounds, diverges too. */
  lemma DivergesBack(beam: Beam, s: XYState, t: XYState, precision: int)
    requires WellFormed(s) && s.next < 2 && XYRound(beam, s, precision) == t
    requires forall fuel: nat :: XYSearch(beam, t, precision, fuel) == Err(Diverges)
    ensures forall fuel: nat :: XYSearch(beam, s, precision, fuel) == Err(Diverges)
  {
    forall fuel: nat
      ensures XYSearch(beam, s, precision, fuel) == Err(Diverges)
    {
      if fuel > 0 {
        assert XYSearch(beam, t, precision, fuel - 1) == Err(Diverges);
      }
    }
  }

  /** After six rounds X has left the queue and Y's bracket is inverted. */
  lemma WitnessTail()
    ensures forall fuel: nat :: XYSearch(InvertingBeam(), WitnessState(6), 2, fuel) == Err(Diverges)
  {
    var s := WitnessState(6);
    assert s.next == 1 && s.left[1] == 9 && s.right[1] == 2;
    forall fuel: nat
      ensures XYSearch(InvertingBeam(), s, 2, fuel) == Err(Diverges)
    {
      InvertedBracketGrows(s, fuel);
    }
  }

  lemma {:induction false} WitnessDiverges(k: nat)
    requires k <= 6
    ensures forall fuel: nat :: XYSearch(InvertingBeam(), WitnessState(k), 2, fuel) == Err(Diverges)
    decreases 6 - k
  {
    if k == 6 {
      WitnessTail();
    } else {
      WitnessRound(k);
      WitnessDiverges(k + 1);
      DivergesBack(InvertingBeam(), WitnessState(k), WitnessState(k + 1), 2);
    }
  }

  /** `find_center_xy` does not end on that beam, however many rounds it is given. */
  lemma XYSearchMayNotEnd(fuel: nat)
    ensures CenterXY(InvertingBeam(), 0, 27, None, None, 2, fuel) == Err(Diverges)
  {
    WitnessDiverges(0);
    assert XYSearch(InvertingBeam(), WitnessState(0), 2, fuel) == Err(Diverges);
  }

  /**
   * `find_center`: the X axis by default, nothing for an axis that is not the
   * camera's, the two-axis search for `BOTH`, and in development mode the
   * simulated waist `z_0 = 0` converted to pulses by `um_to_pulse`, which
   * reads the stage's `um_per_pulse` (`AttributeError` while the stage has
   * none, `ZeroDivisionError` when it is 0). Missing bounds are the stage
   * limits (`lower`, `upper`) as they stand after any `findRange`. For `BOTH`
   * an integer bound reaches `find_center_xy`, which iterates over it: a `TypeError`.
   */
  function CenterOf(beam: Beam, dev: bool, umPerPulse: Option<real>, axis: Option<NanoScan.AxisArg>, lower: int, upper: int,
                    left: Option<int>, right: Option<int>, precision: int, fuel: nat): (r: Result<Center>)
    ensures axis == Some(NanoScan.NotAnAxis) ==> r == Ok(NoCenter)
    ensures axis == Some(NanoScan.Axis(BOTH)) && (left.Some? || right.Some?) ==> r == Err(TypeError)
    ensures axis != Some(NanoScan.NotAnAxis) && axis != Some(NanoScan.Axis(BOTH)) && dev ==>
              && (umPerPulse.None? ==> r == Err(AttributeError))
              && (umPerPulse == Some(0.0) ==> r == Err(ZeroDivisionError))
              && (umPerPulse.Some? && umPerPulse.value != 0.0 ==> r == Ok(AxisCenter(0)))
  {
    var ax := if axis.Some? then axis.value else NanoScan.Axis(X);
    if ax.NotAnAxis? then Ok(NoCenter)
    else if ax.axis == BOTH then
      if left.Some? || right.Some? then Err(TypeError)
      else
        var xy := CenterXY(beam, lower, upper, None, None, precision, fuel);
        if xy.Err? then Err(xy.error) else Ok(PairCenter(xy.value.0, xy.value.1))
    else if dev then
      if umPerPulse.None? then Err(AttributeError)
      else if umPerPulse.value == 0.0 then Err(ZeroDivisionError)
      else Ok(AxisCenter(0))
    else
      var l := if left.Some? then left.value else lower;
      var rr := if right.Some? then right.value else upper;
      var c := TernaryClamped(p => beam(ax.axis, p), l, rr, precision, fuel);
      if c.Err? then Err(c.error) else Ok(AxisCenter(c.value))
  }

  /** Off development mode, a single-axis centre lies within the bounds searched, given enough rounds. */
  lemma CenterWithinBounds(beam: Beam, umPerPulse: Option<real>, axis: NsAxes, lower: int, upper: int,
                           left: Option<int>, right: Option<int>, precision: int, fuel: nat)
    requires axis != BOTH
    requires var l := if left.Some? then left.value else lower;
             var rr := if right.Some? then right.value else upper;
             l <= rr && rr - l <= fuel
    ensures var r := CenterOf(beam, false, umPerPulse, Some(NanoScan.Axis(axis)), lower, upper, left, right, precision, fuel);
            var l := if left.Some? then left.value else lower;
            var rr := if right.Some? then right.value else upper;
            r.Ok? && r.value.AxisCenter? && l <= r.value.c <= rr
  {
    var l := if left.Some? then left.value else lower;
    var rr := if right.Some? then right.value else upper;
    ClampedSearchFinishes(p => beam(axis, p), l, rr, precision, fuel);
  }

  /**
   * Off development mode, on a beam that narrows strictly up to a waist `z`
   * inside the bounds searched and widens strictly after it, the centre
   * `find_center` reports lies within half the (clamped) precision, plus one
   * pulse, of the waist.
   */
  lemma CenterNearWaist(beam: Beam, umPerPulse: Option<real>, axis: NsAxes, lower: int, upper: int,
                        left: Option<int>, right: Option<int>, precision: int, fuel: nat, z: int)
    requires axis != BOTH && Unimodal(p => beam(axis, p), z)
    requires var l := if left.Some? then left.value else lower;
             var rr := if right.Some? then right.value else upper;
             l <= z <= rr && rr - l <= fuel
    ensures var r := CenterOf(beam, false, umPerPulse, Some(NanoScan.Axis(axis)), lower, upper, left, right, precision, fuel);
            r.Ok? && r.value.AxisCenter? && 2 * Abs(r.value.c - z) <= ClampedPrecision(precision) + 2
  {
    var l := if left.Some? then left.value else lower;
    var rr := if right.Some? then right.value else upper;
    ClampedSearchNearWaist(p => beam(axis, p), z, l, rr, precision, fuel);
  }
}
