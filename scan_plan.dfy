/**
 * The scan plan of `take_measurements` (src/nanosquared/measurement/measure.py):
 * which stage positions an M² measurement visits. ISO 11146-1:2021 asks for at
 * least ten positions, about half within one Rayleigh length of the waist and
 * half beyond two. The plan takes ten offsets in `[-R, R]`, five in `[2R, 3R]`,
 * their negations and `0`, shifts them by the centre of each axis, and keeps
 * the distinct positions in ascending order. A plan that leaves the stage
 * travel falls back to a one-sided plan, then to its mirror image.
 */
module ScanPlan {
  import opened Errors
  import opened Rounding
  import opened RealMath

  // ---------------------------------------------------------------- integer linspace

  /** `np.linspace(a, b, n, dtype=np.integer)`: evenly spaced values, floored. */
  function Linspace(a: int, b: int, n: nat): (r: seq<int>)
    requires n >= 2
    ensures |r| == n && r[0] == a && r[n - 1] == b
  {
    MulDivCancel(b - a, n - 1);
    seq(n, i requires 0 <= i < n => Spaced(a, b, n, i))
  }

  /** The `i`-th of `n` values from `a` to `b`. */
  function Spaced(a: int, b: int, n: int, i: int): int
    requires n >= 2
  {
    a + ((b - a) * i) / (n - 1)
  }

  lemma Distrib(k: int, i: int, j: int)
    ensures k * j - k * i == k * (j - i)
  {
  }

  lemma MulAtLeast(k: int, m: int)
    requires k >= 0 && m >= 1
    ensures k * m >= k
  {
  }

  lemma MulMono(k: int, i: int, j: int)
    requires k >= 0 && i <= j
    ensures k * i <= k * j
  {
    if i < j {
      Distrib(k, i, j);
      MulAtLeast(k, j - i);
    }
  }

  lemma MulDivCancel(x: int, d: int)
    requires d > 0
    ensures (x * d) / d == x
  {
    var q := (x * d) / d;
    assert x * d == d * q + (x * d) % d;
    Distrib(d, q, x);
    if x - q >= 1 {
      MulAtLeast(d, x - q);
    } else if x - q <= -1 {
      MulAtLeast(d, q - x);
      Distrib(d, x, q);
    }
  }

  /** `y >= d * q` means `y / d >= q`. */
  lemma FloorAtLeast(y: int, d: int, q: int)
    requires d > 0 && y >= d * q
    ensures y / d >= q
  {
    var p := y / d;
    assert y == d * p + y % d;
    if p < q {
      Distrib(d, p, q);
      MulAtLeast(d, q - p);
    }
  }

  /** `x < d * q` means `x / d < q`. */
  lemma FloorBelow(x: int, d: int, q: int)
    requires d > 0 && x < d * q
    ensures x / d < q
  {
    var p := x / d;
    assert x == d * p + x % d;
    if p >= q {
      MulMono(d, q, p);
    }
  }

  lemma FloorStep(x: int, y: int, d: int)
    requires d > 0 && y - x >= d
    ensures x / d < y / d
  {
    var q := x / d;
    assert x == d * q + x % d;
    assert d * (q + 1) == d * q + d;
    FloorAtLeast(y, d, q + 1);
  }

  lemma StepScales(k: int, i: int, j: int)
    requires k >= 0 && i < j
    ensures k * j - k * i >= k
  {
    Distrib(k, i, j);
    MulAtLeast(k, j - i);
  }

  /** Steps of at least one whole unit keep integer linspace strictly increasing. */
  lemma LinspaceIncreasing(a: int, b: int, n: nat)
    requires n >= 2 && b - a >= n - 1
    ensures Increasing(Linspace(a, b, n))
  {
    var r := Linspace(a, b, n);
    forall i, j | 0 <= i < j < n
      ensures r[i] < r[j]
    {
      StepScales(b - a, i, j);
      FloorStep((b - a) * i, (b - a) * j, n - 1);
    }
  }

  /** Every value lies between the two ends. */
  lemma LinspaceBetween(a: int, b: int, n: nat)
    requires n >= 2 && a <= b
    ensures forall i :: 0 <= i < n ==> a <= Linspace(a, b, n)[i] <= b
  {
    var r := Linspace(a, b, n);
    forall i | 0 <= i < n
      ensures a <= r[i] <= b
    {
      MulMono(b - a, 0, i);
      MulMono(b - a, i, n - 1);
      MulDivCancel(b - a, n - 1);
      FloorAtLeast((b - a) * i, n - 1, 0);
      FloorBelow((b - a) * i, n - 1, b - a + 1);
    }
  }

  // ---------------------------------------------------------------- distinct and sorted

  predicate Increasing(s: seq<int>)
  {
    forall i, j :: 0 <= i < j < |s| ==> s[i] < s[j]
  }

  predicate Distinct(s: seq<int>)
  {
    forall i, j :: 0 <= i < j < |s| ==> s[i] != s[j]
  }

  function Elements(s: seq<int>): set<int>
  {
    set x | x in s
  }

  function Insert(x: int, s: seq<int>): (r: seq<int>)
    requires Increasing(s)
    ensures Increasing(r) && forall y :: y in r <==> y in s || y == x
  {
    if |s| == 0 then [x]
    else if x < s[0] then [x] + s
    else if x == s[0] then s
    else
      var t := Insert(x, s[1..]);
      TailAbove(s);
      assert forall k :: 0 <= k < |t| ==> s[0] < t[k] by {
        forall k | 0 <= k < |t|
          ensures s[0] < t[k]
        {
          assert t[k] in t;
        }
      }
      ConsIncreasing(s[0], t);
      [s[0]] + t
  }

  lemma ConsIncreasing(h: int, t: seq<int>)
    requires Increasing(t) && forall k :: 0 <= k < |t| ==> h < t[k]
    ensures Increasing([h] + t)
  {
    var r := [h] + t;
    forall i, j | 0 <= i < j < |r|
      ensures r[i] < r[j]
    {
      assert r[j] == t[j - 1];
      if i > 0 {
        assert r[i] == t[i - 1];
      }
    }
  }

  lemma TailAbove(s: seq<int>)
    requires |s| > 0 && Increasing(s)
    ensures forall y :: y in s[1..] ==> s[0] < y
  {
    forall y | y in s[1..]
      ensures s[0] < y
    {
      var k :| 0 <= k < |s| - 1 && s[1..][k] == y;
      assert s[k + 1] == y;
    }
  }

  /** `np.sort(np.unique(s))`: the distinct values of `s` in ascending order. */
  function Unique(s: seq<int>): (r: seq<int>)
    ensures Increasing(r) && forall y :: y in r <==> y in s
  {
    if |s| == 0 then []
    else
      assert s == s[..|s| - 1] + [s[|s| - 1]];
      Insert(s[|s| - 1], Unique(s[..|s| - 1]))
  }

  lemma UniqueElements(s: seq<int>)
    ensures Elements(Unique(s)) == Elements(s)
  {
  }

  /** A sequence without repeats has as many elements as its length. */
  lemma {:induction false} DistinctCard(s: seq<int>)
    requires Distinct(s)
    ensures |Elements(s)| == |s|
  {
    if |s| > 0 {
      var init := s[..|s| - 1];
      assert s == init + [s[|s| - 1]];
      assert Elements(s) == Elements(init) + {s[|s| - 1]};
      assert s[|s| - 1] !in Elements(init);
      DistinctCard(init);
    }
  }

  lemma UniqueLength(s: seq<int>)
    ensures |Unique(s)| == |Elements(s)|
  {
    DistinctCard(Unique(s));
    UniqueElements(s);
  }

  function Shifted(s: seq<int>, c: int): (r: seq<int>)
    ensures |r| == |s|
  {
    seq(|s|, i requires 0 <= i < |s| => s[i] + c)
  }

  function Negated(s: seq<int>): (r: seq<int>)
    ensures |r| == |s|
  {
    seq(|s|, i requires 0 <= i < |s| => -s[i])
  }

  /** `np.flip(-points)`: the points mirrored about stage position 0. */
  function Mirror(s: seq<int>): (r: seq<int>)
    ensures |r| == |s|
  {
    seq(|s|, i requires 0 <= i < |s| => -s[|s| - 1 - i])
  }

  lemma MirrorIncreasing(s: seq<int>)
    requires Increasing(s)
    ensures Increasing(Mirror(s))
  {
  }

  // ---------------------------------------------------------------- the plan

  /** The three offset patterns: the ISO plan, the one-sided fallback, and that fallback turned the other way. */
  datatype Rung = Symmetric | OneSided | OtherSide

  /** `_within_points`: ten offsets from `-R` to `R`. */
  function Within(rl: int): seq<int>
  {
    Linspace(-rl, rl, 10)
  }

  /** `_without_points_1`: five offsets from `2R` to `3R`. */
  function Outer(rl: int): seq<int>
  {
    Linspace(2 * rl, 3 * rl, 5)
  }

  /** `asym_without_points`: ten offsets from `2R` to `3R`. */
  function OuterOneSided(rl: int): seq<int>
  {
    Linspace(2 * rl, 3 * rl, 10)
  }

  function Offsets(rung: Rung, rl: int): seq<int>
  {
    match rung
    case Symmetric => Within(rl) + Outer(rl) + Negated(Outer(rl)) + [0]
    case OneSided => Within(rl) + OuterOneSided(rl) + [0]
    case OtherSide => Negated(Within(rl) + OuterOneSided(rl) + [0])
  }

  /** The offsets of every axis shifted by its centre, flattened; an axis is `(center, R)`. */
  function Flattened(axes: seq<(int, int)>, rung: Rung): seq<int>
  {
    if |axes| == 0 then []
    else Flattened(axes[..|axes| - 1], rung) + Shifted(Offsets(rung, axes[|axes| - 1].1), axes[|axes| - 1].0)
  }

  function Points(axes: seq<(int, int)>, rung: Rung): seq<int>
  {
    Unique(Flattened(axes, rung))
  }

  /** Every axis contributes at least its centre. */
  lemma PointsNonempty(axes: seq<(int, int)>, rung: Rung)
    requires |axes| > 0
    ensures |Points(axes, rung)| > 0
  {
    var last := axes[|axes| - 1];
    var sh := Shifted(Offsets(rung, last.1), last.0);
    assert sh[|sh| - 1] in Elements(Flattened(axes, rung));
  }

  /** The test of `take_measurements`: the first and last point keep 10 pulses from the limits. */
  predicate Fits(p: seq<int>, lower: int, upper: int)
    requires |p| > 0
  {
    !(p[0] < lower + 10 || p[|p| - 1] > upper - 10)
  }

  /**
   * The fallback ladder as written: the ISO plan; else the one-sided plan;
   * else that plan mirrored about stage position 0; else `ConfigurationError`.
   */
  function LadderAsWritten(axes: seq<(int, int)>, lower: int, upper: int): (r: Result<seq<int>>)
    ensures r.Err? ==> r.error == ConfigurationError || (r.error == IndexError && |axes| == 0)
    ensures r.Ok? ==> |r.value| > 0
  {
    if |axes| == 0 then Err(IndexError)
    else
      PointsNonempty(axes, Symmetric);
      PointsNonempty(axes, OneSided);
      var p0 := Points(axes, Symmetric);
      if Fits(p0, lower, upper) then Ok(p0)
      else
        var p1 := Points(axes, OneSided);
        var p2 := if Fits(p1, lower, upper) then p1 else Mirror(p1);
        if Fits(p2, lower, upper) then Ok(p2) else Err(ConfigurationError)
  }

  /** The ladder with its last rung turning the one-sided offsets about each axis's centre. */
  function Ladder(axes: seq<(int, int)>, lower: int, upper: int): (r: Result<seq<int>>)
    ensures r.Err? ==> r.error == ConfigurationError || (r.error == IndexError && |axes| == 0)
    ensures r.Ok? ==> |r.value| > 0
  {
    if |axes| == 0 then Err(IndexError)
    else
      PointsNonempty(axes, Symmetric);
      PointsNonempty(axes, OneSided);
      PointsNonempty(axes, OtherSide);
      var p0 := Points(axes, Symmetric);
      if Fits(p0, lower, upper) then Ok(p0)
      else
        var p1 := Points(axes, OneSided);
        var p2 := if Fits(p1, lower, upper) then p1 else Points(axes, OtherSide);
        if Fits(p2, lower, upper) then Ok(p2) else Err(ConfigurationError)
  }

  lemma IncreasingBounds(p: seq<int>, lower: int, upper: int)
    requires |p| > 0 && Increasing(p) && Fits(p, lower, upper)
    ensures forall x :: x in p ==> lower + 10 <= x <= upper - 10
  {
    forall x | x in p
      ensures lower + 10 <= x <= upper - 10
    {
      var k :| 0 <= k < |p| && p[k] == x;
      assert k == 0 || p[0] < p[k];
      assert k == |p| - 1 || p[k] < p[|p| - 1];
    }
  }

  /** A plan the ladder accepts is strictly ascending and keeps 10 pulses away from both limits. */
  lemma LadderWithinTravel(axes: seq<(int, int)>, lower: int, upper: int)
    ensures var r := Ladder(axes, lower, upper);
            r.Ok? ==> Increasing(r.value) && forall x :: x in r.value ==> lower + 10 <= x <= upper - 10
  {
    var r := Ladder(axes, lower, upper);
    if r.Ok? {
      PointsNonempty(axes, Symmetric);
      IncreasingBounds(r.value, lower, upper);
    }
  }

  /** The ISO plan is kept whenever it fits. */
  lemma LadderPrefersSymmetric(axes: seq<(int, int)>, lower: int, upper: int)
    requires |axes| > 0
    ensures |Points(axes, Symmetric)| > 0
    ensures Fits(Points(axes, Symmetric), lower, upper) ==> Ladder(axes, lower, upper) == Ok(Points(axes, Symmetric))
  {
    PointsNonempty(axes, Symmetric);
  }

  /** The mirror of the as-written ladder is strictly ascending too: its accepted plans keep the travel. */
  lemma LadderAsWrittenWithinTravel(axes: seq<(int, int)>, lower: int, upper: int)
    ensures var r := LadderAsWritten(axes, lower, upper);
            r.Ok? ==> Increasing(r.value) && forall x :: x in r.value ==> lower + 10 <= x <= upper - 10
  {
    var r := LadderAsWritten(axes, lower, upper);
    if r.Ok? {
      PointsNonempty(axes, OneSided);
      MirrorIncreasing(Points(axes, OneSided));
      IncreasingBounds(r.value, lower, upper);
    }
  }

  // ---------------------------------------------------------------- the ISO distribution

  lemma WithinShape(rl: int)
    requires rl >= 9
    ensures Increasing(Within(rl))
    ensures forall o :: o in Within(rl) ==> -rl <= o <= rl && o != 0
  {
    LinspaceIncreasing(-rl, rl, 10);
    LinspaceBetween(-rl, rl, 10);
    var w := Within(rl);
    forall i | 0 <= i < 10
      ensures w[i] != 0
    {
      WithinEntry(rl, i);
    }
  }

  /** No offset of the near group lands on the waist itself. */
  lemma WithinEntry(rl: int, i: int)
    requires rl >= 9 && 0 <= i < 10
    ensures Within(rl)[i] != 0
  {
    var k := rl - -rl;
    assert Within(rl)[i] == -rl + (k * i) / 9;
    if i <= 4 {
      MulMono(k, i, 4);
      FloorBelow(k * i, 9, rl);
    } else {
      MulMono(k, 5, i);
      FloorAtLeast(k * i, 9, rl + 1);
    }
  }

  lemma OuterShape(rl: int)
    requires rl >= 9
    ensures Increasing(Outer(rl))
    ensures forall o :: o in Outer(rl) ==> 2 * rl <= o <= 3 * rl
  {
    LinspaceIncreasing(2 * rl, 3 * rl, 5);
    LinspaceBetween(2 * rl, 3 * rl, 5);
  }

  lemma DisjointCard(a: set<int>, b: set<int>)
    requires a !! b
    ensures |a + b| == |a| + |b|
  {
    assert a * b == {};
  }

  /** The offsets of the ISO pattern sorted into the near and the far group. */
  lemma NearFar(w: seq<int>, o: seq<int>, rl: int)
    requires rl > 0
    requires forall y :: y in w ==> -rl <= y <= rl
    requires forall y :: y in o ==> 2 * rl <= y
    ensures var offs := w + o + Negated(o) + [0];
            Near(offs, rl) == Elements(w) + {0}
            && Far(offs, rl) == Elements(o) + Elements(Negated(o))
            && Elements(offs) == Elements(w) + Elements(o) + Elements(Negated(o)) + {0}
            && Elements(w) !! Elements(o) && Elements(w) !! Elements(Negated(o))
            && Elements(o) !! Elements(Negated(o))
            && 0 !in Elements(o) + Elements(Negated(o))
  {
    var n := Negated(o);
    assert forall y :: y in n ==> y <= -2 * rl by {
      forall y | y in n
        ensures y <= -2 * rl
      {
        var k :| 0 <= k < |n| && n[k] == y;
        assert o[k] in o;
      }
    }
    var offs := w + o + n + [0];
    assert Elements(offs) == Elements(w) + Elements(o) + Elements(n) + {0};
  }

  /**
   * Ten distinct offsets within `R` that miss zero, five distinct ones in
   * `[2R, 3R]` and their negations give 21 distinct offsets: eleven within `R`
   * and ten at least `2R` away.
   */
  lemma Distribution(w: seq<int>, o: seq<int>, rl: int)
    requires rl > 0
    requires |w| == 10 && Increasing(w) && forall y :: y in w ==> -rl <= y <= rl && y != 0
    requires |o| == 5 && Increasing(o) && forall y :: y in o ==> 2 * rl <= y <= 3 * rl
    ensures var offs := w + o + Negated(o) + [0];
            |Elements(offs)| == 21
            && |Near(offs, rl)| == 11
            && |Far(offs, rl)| == 10
  {
    var n := Negated(o);
    DistinctCard(w);
    DistinctCard(o);
    assert Distinct(n);
    DistinctCard(n);
    NearFar(w, o, rl);
    assert 0 !in Elements(w);
    CountGroups(Elements(w), Elements(o), Elements(n));
  }

  lemma CountGroups(w: set<int>, o: set<int>, n: set<int>)
    requires |w| == 10 && |o| == 5 && |n| == 5
    requires w !! o && w !! n && o !! n && 0 !in w + o + n
    ensures |w + o + n + {0}| == 21 && |w + {0}| == 11 && |o + n| == 10
  {
    DisjointCard(w, o);
    DisjointCard(w + o, n);
    DisjointCard(w + o + n, {0});
    DisjointCard(w, {0});
    DisjointCard(o, n);
  }

  /** The points within `R` of the centre offset 0. */
  function Near(s: seq<int>, rl: int): set<int>
  {
    set x | x in s && -rl <= x <= rl
  }

  /** The points at least `2R` from the centre offset 0. */
  function Far(s: seq<int>, rl: int): set<int>
  {
    set x | x in s && (x <= -2 * rl || 2 * rl <= x)
  }

  lemma UniqueKeepsSets(s: seq<int>, rl: int)
    ensures Near(Unique(s), rl) == Near(s, rl) && Far(Unique(s), rl) == Far(s, rl)
    ensures |Unique(s)| == |Elements(s)|
  {
    UniqueLength(s);
  }

  /** For `R >= 9` the ISO plan of one axis has the distribution ISO 11146 asks for. */
  lemma SymmetricDistribution(rl: int)
    requires rl >= 9
    ensures var u := Unique(Offsets(Symmetric, rl));
            |u| == 21 && |Near(u, rl)| == 11 && |Far(u, rl)| == 10
  {
    WithinShape(rl);
    OuterShape(rl);
    Distribution(Within(rl), Outer(rl), rl);
    UniqueKeepsSets(Offsets(Symmetric, rl), rl);
  }

  lemma ShiftedIncreasing(s: seq<int>, c: int)
    requires Increasing(s)
    ensures Increasing(Shifted(s, c))
  {
  }

  lemma ShiftedCons(h: int, t: seq<int>, c: int)
    ensures Shifted([h] + t, c) == [h + c] + Shifted(t, c)
  {
  }

  /** Shifting commutes with the dedupe-and-sort, so every centre gets the same pattern. */
  lemma {:induction false} InsertShifted(x: int, s: seq<int>, c: int)
    requires Increasing(s)
    ensures Increasing(Shifted(s, c)) && Insert(x + c, Shifted(s, c)) == Shifted(Insert(x, s), c)
  {
    ShiftedIncreasing(s, c);
    if |s| == 0 {
      assert Shifted(s, c) == [];
    } else if x <= s[0] {
      InsertShiftedHead(x, s, c);
    } else {
      InsertShifted(x, s[1..], c);
      InsertShiftedTail(x, s, c);
    }
  }

  lemma InsertShiftedHead(x: int, s: seq<int>, c: int)
    requires Increasing(s) && |s| > 0 && x <= s[0]
    ensures Increasing(Shifted(s, c)) && Insert(x + c, Shifted(s, c)) == Shifted(Insert(x, s), c)
  {
    ShiftedIncreasing(s, c);
    if x < s[0] {
      ShiftedCons(x, s, c);
    }
  }

  lemma InsertShiftedTail(x: int, s: seq<int>, c: int)
    requires Increasing(s) && |s| > 0 && x > s[0]
    requires Increasing(Shifted(s[1..], c)) && Insert(x + c, Shifted(s[1..], c)) == Shifted(Insert(x, s[1..]), c)
    ensures Increasing(Shifted(s, c)) && Insert(x + c, Shifted(s, c)) == Shifted(Insert(x, s), c)
  {
    ShiftedIncreasing(s, c);
    var sh := Shifted(s, c);
    assert sh[1..] == Shifted(s[1..], c);
    ShiftedCons(s[0], Insert(x, s[1..]), c);
  }

  lemma {:induction false} UniqueShifted(s: seq<int>, c: int)
    ensures Unique(Shifted(s, c)) == Shifted(Unique(s), c)
  {
    if |s| > 0 {
      var init := s[..|s| - 1];
      assert Shifted(s, c)[..|s| - 1] == Shifted(init, c);
      UniqueShifted(init, c);
      InsertShifted(s[|s| - 1], Unique(init), c);
    }
  }

  /** A single-axis plan is the offset pattern moved to the centre. */
  lemma SingleAxisPlan(c: int, rl: int, rung: Rung)
    ensures Points([(c, rl)], rung) == Shifted(Unique(Offsets(rung, rl)), c)
  {
    var axes := [(c, rl)];
    assert axes[..0] == [];
    assert Flattened(axes, rung) == Shifted(Offsets(rung, rl), c);
    UniqueShifted(Offsets(rung, rl), c);
  }

  // ---------------------------------------------------------------- the mirror finding

  /**
   * As written, a waist near the upper limit whose one-sided plan overshoots gets
   * no plan at all: the mirror about position 0 lies below the lower limit. The
   * same offsets turned about the waist fit the travel.
   */
  lemma MirrorLeavesTravel(c: int, rl: int, lower: int, upper: int)
    requires rl >= 0
    requires c + 3 * rl > upper - 10 && -(c + 3 * rl) < lower + 10
    requires c - 3 * rl >= lower + 10 && c + rl <= upper - 10
    ensures LadderAsWritten([(c, rl)], lower, upper) == Err(ConfigurationError)
    ensures Ladder([(c, rl)], lower, upper) == Ok(Points([(c, rl)], OtherSide))
  {
    var axes := [(c, rl)];
    PointsNonempty(axes, Symmetric);
    PointsNonempty(axes, OneSided);
    PointsNonempty(axes, OtherSide);
    PlanExtent(c, rl, Symmetric);
    PlanExtent(c, rl, OneSided);
    PlanExtent(c, rl, OtherSide);
    MirrorEnds(Points(axes, OneSided));
  }

  /** A waist at 900 on a stage from 0 to 1000 with `R = 40`. */
  lemma MirrorAboutZero()
    ensures LadderAsWritten([(900, 40)], 0, 1000) == Err(ConfigurationError)
    ensures Ladder([(900, 40)], 0, 1000).Ok?
  {
    MirrorLeavesTravel(900, 40, 0, 1000);
  }

  /** The least and the greatest offset of each pattern. */
  function Extent(rung: Rung, rl: int): (int, int)
  {
    match rung
    case Symmetric => (-3 * rl, 3 * rl)
    case OneSided => (-rl, 3 * rl)
    case OtherSide => (-3 * rl, rl)
  }

  lemma OffsetsExtent(rung: Rung, rl: int)
    requires rl >= 0
    ensures var offs, e := Offsets(rung, rl), Extent(rung, rl);
            e.0 in offs && e.1 in offs && forall x :: x in offs ==> e.0 <= x <= e.1
  {
    match rung
    case Symmetric => SymmetricExtent(rl);
    case OneSided => OneSidedExtent(rl);
    case OtherSide => OtherSideExtent(rl);
  }

  lemma SymmetricExtent(rl: int)
    requires rl >= 0
    ensures var offs, e := Offsets(Symmetric, rl), Extent(Symmetric, rl);
            e.0 in offs && e.1 in offs && forall x :: x in offs ==> e.0 <= x <= e.1
  {
    var w, o := Within(rl), Outer(rl);
    LinspaceBetween(-rl, rl, 10);
    LinspaceBetween(2 * rl, 3 * rl, 5);
    assert forall x :: x in w ==> -rl <= x <= rl;
    assert forall x :: x in o ==> 2 * rl <= x <= 3 * rl;
    var n := Negated(o);
    assert n[4] == -3 * rl;
    assert forall x :: x in n ==> -3 * rl <= x <= -2 * rl by {
      forall x | x in n
        ensures -3 * rl <= x <= -2 * rl
      {
        var k :| 0 <= k < 5 && n[k] == x;
        assert o[k] in o;
      }
    }
    assert Offsets(Symmetric, rl) == w + o + n + [0];
  }

  lemma OneSidedExtent(rl: int)
    requires rl >= 0
    ensures var offs, e := Offsets(OneSided, rl), Extent(OneSided, rl);
            e.0 in offs && e.1 in offs && forall x :: x in offs ==> e.0 <= x <= e.1
  {
    var w, o1 := Within(rl), OuterOneSided(rl);
    LinspaceBetween(-rl, rl, 10);
    LinspaceBetween(2 * rl, 3 * rl, 10);
    assert forall x :: x in w ==> -rl <= x <= rl;
    assert forall x :: x in o1 ==> 2 * rl <= x <= 3 * rl;
    assert Offsets(OneSided, rl) == w + o1 + [0];
  }

  lemma OtherSideExtent(rl: int)
    requires rl >= 0
    ensures var offs, e := Offsets(OtherSide, rl), Extent(OtherSide, rl);
            e.0 in offs && e.1 in offs && forall x :: x in offs ==> e.0 <= x <= e.1
  {
    var w, o1 := Within(rl), OuterOneSided(rl);
    LinspaceBetween(-rl, rl, 10);
    LinspaceBetween(2 * rl, 3 * rl, 10);
    assert forall x :: x in w ==> -rl <= x <= rl;
    assert forall x :: x in o1 ==> 2 * rl <= x <= 3 * rl;
    var pos := w + o1 + [0];
    assert pos[19] == 3 * rl && pos[0] == -rl;
    assert forall x :: x in Negated(pos) ==> -3 * rl <= x <= rl by {
      forall x | x in Negated(pos)
        ensures -3 * rl <= x <= rl
      {
        var k :| 0 <= k < |pos| && Negated(pos)[k] == x;
        assert pos[k] in pos;
      }
    }
    assert Negated(pos)[19] == -3 * rl && Negated(pos)[0] == rl;
  }

  /** A single-axis plan runs from the centre plus the least offset to the centre plus the greatest. */
  lemma PlanExtent(c: int, rl: int, rung: Rung)
    requires rl >= 0
    ensures var p, e := Points([(c, rl)], rung), Extent(rung, rl);
            |p| > 0 && p[0] == c + e.0 && p[|p| - 1] == c + e.1
  {
    var e := Extent(rung, rl);
    OffsetsExtent(rung, rl);
    ExtentsAt(Offsets(rung, rl), e.0, e.1);
    SingleAxisPlan(c, rl, rung);
  }

  /** The first and last of the sorted values are the least and the greatest. */
  lemma ExtentsAt(s: seq<int>, lo: int, hi: int)
    requires lo in s && hi in s && forall x :: x in s ==> lo <= x <= hi
    ensures |Unique(s)| > 0 && Unique(s)[0] == lo && Unique(s)[|Unique(s)| - 1] == hi
  {
    var u := Unique(s);
    assert lo in u;
    var last := |u| - 1;
    assert u[0] in u && u[last] in u;
    var i :| 0 <= i < |u| && u[i] == lo;
    var j :| 0 <= j < |u| && u[j] == hi;
    IncreasingEnds(u, i);
    IncreasingEnds(u, j);
  }

  lemma IncreasingEnds(u: seq<int>, i: int)
    requires Increasing(u) && 0 <= i < |u|
    ensures u[0] <= u[i] <= u[|u| - 1]
  {
  }

  lemma MirrorEnds(s: seq<int>)
    requires |s| > 0
    ensures Mirror(s)[0] == -s[|s| - 1] && Mirror(s)[|s| - 1] == -s[0]
  {
  }

  // ---------------------------------------------------------------- the Rayleigh length in pulses

  /**
   * The `R` of the plan, one per axis of the centre: a given Rayleigh length
   * in millimetres becomes `round(rl * 1000 / um_per_pulse)`, broadcast to
   * the `n` axes; a searched one comes from `find_zR_pps`, whose
   * `StageOutOfRangeError` surfaces as `ConfigurationError`.
   */
  function RayleighPulses(n: nat, given: Option<real>, umPerPulse: Option<real>, searched: Result<seq<int>>): (r: Result<seq<int>>)
    ensures r.Err? ==> r.error != StageOutOfRangeError
    ensures given.None? && searched == Err(StageOutOfRangeError) ==> r == Err(ConfigurationError)
    ensures given.None? && searched.Err? && searched.error != StageOutOfRangeError ==> r == searched
    ensures given.None? && searched.Ok? ==> r == searched
    ensures given.Some? && umPerPulse.None? ==> r == Err(AttributeError)
    ensures given.Some? && umPerPulse.Some? && umPerPulse.value > 0.0 ==>
              r.Ok? && |r.value| == n &&
              forall k :: 0 <= k < n ==> AbsReal(r.value[k] as real * umPerPulse.value - given.value * 1000.0) <= umPerPulse.value / 2.0
  {
    if given.None? then
      if searched.Err? && searched.error == StageOutOfRangeError then Err(ConfigurationError) else searched
    else if umPerPulse.None? then Err(AttributeError)
    else if umPerPulse.value == 0.0 then Err(ZeroDivisionError)
    else
      var pulses := given.value * 1000.0 / umPerPulse.value;
      var p := RoundHalfEven(pulses);
      assert umPerPulse.value > 0.0 ==> AbsReal(p as real * umPerPulse.value - given.value * 1000.0) <= umPerPulse.value / 2.0 by {
        if umPerPulse.value > 0.0 {
          RoundScaled(pulses, p, umPerPulse.value);
          assert pulses * umPerPulse.value == given.value * 1000.0;
        }
      }
      Ok(seq(n, _ => p))
  }

  lemma RoundScaled(x: real, n: int, u: real)
    requires u > 0.0 && x - 0.5 <= n as real <= x + 0.5
    ensures AbsReal(n as real * u - x * u) <= u / 2.0
  {
    var d := n as real - x;
    assert n as real * u - x * u == u * d;
    ScaleMonotone(u, d, 0.5);
    ScaleMonotone(u, -0.5, d);
    assert u * -0.5 == -(u / 2.0) && u * 0.5 == u / 2.0;
  }
}
