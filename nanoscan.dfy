/**
 * Post-processing of NanoScan readings (src/nanosquared/cameras/nanoscan.py):
 * spike removal, the stages of `getAxis_avg_D4Sigma` and the scan-head
 * rotation-frequency setter.
 *
 * The profiler itself is an oracle: `oneRev(mask, k)` is the k-th (x, y)
 * reading taken while `mask` is the selected parameter set, and
 * `scipy.signal.find_peaks` is a `PeakFinder` that reports interior indices.
 */
module NanoScan {
  import opened Errors
  import opened RealMath
  import opened Rounding
  import opened Stats
  import opened NanoScanConstants

  /** `x` is `y` with some elements removed, in the order of `y`: `x[j] == y[idx[j]]`. */
  ghost predicate Embeds(x: seq<real>, y: seq<real>, idx: seq<int>)
  {
    && |idx| == |x|
    && (forall j :: 0 <= j < |idx| ==> 0 <= idx[j] < |y| && x[j] == y[idx[j]])
    && (forall j, k :: 0 <= j < k < |idx| ==> idx[j] < idx[k])
  }

  ghost predicate Subsequence(x: seq<real>, y: seq<real>)
  {
    exists idx :: Embeds(x, y, idx)
  }

  function Compose(outer: seq<int>, inner: seq<int>): (c: seq<int>)
    requires forall j :: 0 <= j < |inner| ==> 0 <= inner[j] < |outer|
    ensures |c| == |inner|
    ensures forall j :: 0 <= j < |inner| ==> c[j] == outer[inner[j]]
  {
    seq(|inner|, j requires 0 <= j < |inner| => outer[inner[j]])
  }

  lemma EmbedsTransitive(x: seq<real>, y: seq<real>, z: seq<real>, i1: seq<int>, i2: seq<int>)
    requires Embeds(x, y, i1) && Embeds(y, z, i2)
    ensures Embeds(x, z, Compose(i2, i1))
  {
  }

  lemma SubsequenceTransitive(x: seq<real>, y: seq<real>, z: seq<real>)
    requires Subsequence(x, y) && Subsequence(y, z)
    ensures Subsequence(x, z)
  {
    var i1 :| Embeds(x, y, i1);
    var i2 :| Embeds(y, z, i2);
    EmbedsTransitive(x, y, z, i1, i2);
  }

  function Range(lo: int, hi: int): (r: seq<int>)
    requires lo <= hi
    ensures |r| == hi - lo
    ensures forall j :: 0 <= j < |r| ==> r[j] == lo + j
  {
    seq(hi - lo, j => lo + j)
  }

  lemma SliceIsSubsequence(a: seq<real>, lo: int, hi: int)
    requires 0 <= lo <= hi <= |a|
    ensures Subsequence(a[lo..hi], a)
  {
    assert Embeds(a[lo..hi], a, Range(lo, hi));
  }

  /** The indices below `n` a boolean mask keeps when the indices in `s` are set to `False`. */
  function KeptIndices(s: seq<int>, n: nat): (r: seq<int>)
    ensures |r| <= n
    ensures forall j :: 0 <= j < |r| ==> 0 <= r[j] < n && r[j] !in s
    ensures forall j, k :: 0 <= j < k < |r| ==> r[j] < r[k]
  {
    if n == 0 then []
    else
      var prior := KeptIndices(s, n - 1);
      if n - 1 in s then prior else prior + [n - 1]
  }

  /** Every index the mask leaves `True` is kept. */
  lemma {:induction false} KeptIndicesComplete(s: seq<int>, n: nat, i: int)
    requires 0 <= i < n && i !in s
    ensures i in KeptIndices(s, n)
  {
    if i < n - 1 {
      KeptIndicesComplete(s, n - 1, i);
    }
  }

  /** Masking out an index below `n` keeps fewer than `n`. */
  lemma {:induction false} KeptIndicesFewer(s: seq<int>, n: nat, i: int)
    requires 0 <= i < n && i in s
    ensures |KeptIndices(s, n)| < n
  {
    if i < n - 1 {
      KeptIndicesFewer(s, n - 1, i);
    }
  }

  lemma {:induction false} KeptIndicesFirst(s: seq<int>, n: nat)
    requires 0 < n && 0 !in s
    ensures 0 < |KeptIndices(s, n)| && KeptIndices(s, n)[0] == 0
  {
    if 1 < n {
      KeptIndicesFirst(s, n - 1);
    }
  }

  lemma KeptIndicesLast(s: seq<int>, n: nat)
    requires 0 < n && n - 1 !in s
    ensures 0 < |KeptIndices(s, n)| && KeptIndices(s, n)[|KeptIndices(s, n)| - 1] == n - 1
  {
  }

  function Pick(a: seq<real>, idx: seq<int>): (r: seq<real>)
    requires forall j :: 0 <= j < |idx| ==> 0 <= idx[j] < |a|
    ensures |r| == |idx|
    ensures forall j :: 0 <= j < |idx| ==> r[j] == a[idx[j]]
  {
    seq(|idx|, j requires 0 <= j < |idx| => a[idx[j]])
  }

  /** `a[mask]` for the mask that is `False` exactly at the indices in `s`. */
  function Delete(a: seq<real>, s: seq<int>): (r: seq<real>)
    ensures Embeds(r, a, KeptIndices(s, |a|))
    ensures |r| <= |a|
  {
    Pick(a, KeptIndices(s, |a|))
  }

  /** `find_peaks(a, prominence = t)`: the indices of the peaks it found. */
  type PeakFinder = (seq<real>, real) -> seq<int>

  /** A peak has a neighbour on each side, so the oracle never reports an endpoint. */
  ghost predicate InteriorPeaks(f: PeakFinder)
  {
    forall a, t, j :: 0 <= j < |f(a, t)| ==> 0 < f(a, t)[j] < |a| - 1
  }

  predicate Interior(s: seq<int>, n: int)
  {
    forall j :: 0 <= j < |s| ==> 0 < s[j] < n - 1
  }

  /** Removing interior indices keeps both endpoints and strictly shortens a non-empty deletion. */
  lemma DeleteInterior(a: seq<real>, s: seq<int>)
    requires Interior(s, |a|)
    ensures |s| > 0 ==> |Delete(a, s)| < |a|
    ensures 2 <= |a| ==> 2 <= |Delete(a, s)|
    ensures 2 <= |a| ==> Delete(a, s)[0] == a[0] && Delete(a, s)[|Delete(a, s)| - 1] == a[|a| - 1]
  {
    var k := KeptIndices(s, |a|);
    if |s| > 0 {
      KeptIndicesFewer(s, |a|, s[0]);
    }
    if 2 <= |a| {
      assert 0 !in s && |a| - 1 !in s;
      KeptIndicesFirst(s, |a|);
      KeptIndicesLast(s, |a|);
      assert k[0] == 0 && k[|k| - 1] == |a| - 1;
    }
  }

  /** The data once the loop of `remove_spikes` has deleted every reported peak. */
  function SpikeFree(f: PeakFinder, a: seq<real>, t: real): seq<real>
    requires InteriorPeaks(f)
    decreases |a|
  {
    var peaks := f(a, t);
    if |peaks| == 0 then a
    else
      assert Interior(peaks, |a|);
      DeleteInterior(a, peaks);
      SpikeFree(f, Delete(a, peaks), t)
  }

  /** The loop ends with no peak left. */
  lemma {:induction false} SpikeFreeSettled(f: PeakFinder, a: seq<real>, t: real)
    requires InteriorPeaks(f)
    ensures |f(SpikeFree(f, a, t), t)| == 0
    decreases |a|
  {
    var peaks := f(a, t);
    if |peaks| > 0 {
      assert Interior(peaks, |a|);
      DeleteInterior(a, peaks);
      SpikeFreeSettled(f, Delete(a, peaks), t);
    }
  }

  /** The loop only deletes: its result is an order-preserving subsequence. */
  lemma {:induction false} SpikeFreeSubsequence(f: PeakFinder, a: seq<real>, t: real)
    requires InteriorPeaks(f)
    ensures Subsequence(SpikeFree(f, a, t), a)
    decreases |a|
  {
    var peaks := f(a, t);
    if |peaks| == 0 {
      assert Embeds(a, a, Range(0, |a|));
    } else {
      var b := Delete(a, peaks);
      assert Interior(peaks, |a|);
      DeleteInterior(a, peaks);
      SpikeFreeSubsequence(f, b, t);
      assert Embeds(b, a, KeptIndices(peaks, |a|));
      SubsequenceTransitive(SpikeFree(f, b, t), b, a);
    }
  }

  /** Both endpoints survive the loop, so two or more points stay two or more. */
  lemma {:induction false} SpikeFreeEnds(f: PeakFinder, a: seq<real>, t: real)
    requires InteriorPeaks(f)
    ensures |SpikeFree(f, a, t)| <= |a|
    ensures 2 <= |a| <==> 2 <= |SpikeFree(f, a, t)|
    ensures 2 <= |a| ==> SpikeFree(f, a, t)[0] == a[0]
    ensures 2 <= |a| ==> SpikeFree(f, a, t)[|SpikeFree(f, a, t)| - 1] == a[|a| - 1]
    decreases |a|
  {
    var peaks := f(a, t);
    if |peaks| > 0 {
      assert Interior(peaks, |a|);
      DeleteInterior(a, peaks);
      SpikeFreeEnds(f, Delete(a, peaks), t);
    }
  }

  /** Where the endpoint check starts and stops keeping: both judged on the same data. */
  function TrimStart(a: seq<real>, t: real): (lo: nat)
    requires 2 <= |a|
    ensures lo == 1 <==> AbsReal(a[0] - a[1]) > t
    ensures lo <= 1
  {
    if AbsReal(a[0] - a[1]) > t then 1 else 0
  }

  function TrimEnd(a: seq<real>, t: real): (hi: nat)
    requires 2 <= |a|
    ensures hi == |a| - 1 <==> AbsReal(a[|a| - 1] - a[|a| - 2]) > t
    ensures hi == |a| || hi == |a| - 1
  {
    if AbsReal(a[|a| - 1] - a[|a| - 2]) > t then |a| - 1 else |a|
  }

  /** `remove_spikes`: `IndexError` when fewer than two points reach the endpoint check. */
  function RemoveSpikesSpec(f: PeakFinder, a: seq<real>, t: real): Result<seq<real>>
    requires InteriorPeaks(f)
  {
    var b := SpikeFree(f, a, t);
    if |b| < 2 then Err(IndexError) else Ok(b[TrimStart(b, t)..TrimEnd(b, t)])
  }

  /**
   * `remove_spikes` fails exactly on fewer than two points; otherwise it
   * returns a subsequence of its input, which loses at most the two ends of
   * the spike-free data beyond the peaks.
   */
  lemma RemoveSpikesProperties(f: PeakFinder, a: seq<real>, t: real)
    requires InteriorPeaks(f)
    ensures RemoveSpikesSpec(f, a, t).Err? <==> |a| < 2
    ensures RemoveSpikesSpec(f, a, t).Err? ==> RemoveSpikesSpec(f, a, t).error == IndexError
    ensures RemoveSpikesSpec(f, a, t).Ok? ==> Subsequence(RemoveSpikesSpec(f, a, t).value, a)
    ensures RemoveSpikesSpec(f, a, t).Ok? ==>
              |SpikeFree(f, a, t)| - 2 <= |RemoveSpikesSpec(f, a, t).value| <= |SpikeFree(f, a, t)|
  {
    SpikeFreeEnds(f, a, t);
    SpikeFreeSubsequence(f, a, t);
    var b := SpikeFree(f, a, t);
    if 2 <= |b| {
      SliceIsSubsequence(b, TrimStart(b, t), TrimEnd(b, t));
      SubsequenceTransitive(b[TrimStart(b, t)..TrimEnd(b, t)], b, a);
    }
  }

  /** An endpoint is dropped exactly when it differs from its neighbour by more than the threshold. */
  lemma RemoveSpikesEndpoints(f: PeakFinder, a: seq<real>, t: real)
    requires InteriorPeaks(f) && 2 <= |a|
    ensures 2 <= |SpikeFree(f, a, t)|
    ensures var b := SpikeFree(f, a, t);
            RemoveSpikesSpec(f, a, t) == Ok(b[TrimStart(b, t)..TrimEnd(b, t)])
    ensures var b := SpikeFree(f, a, t);
            (AbsReal(b[0] - b[1]) > t <==> TrimStart(b, t) == 1)
            && (AbsReal(b[|b| - 1] - b[|b| - 2]) > t <==> TrimEnd(b, t) == |b| - 1)
  {
    SpikeFreeEnds(f, a, t);
  }

  /** `remove_spikes`, its loop deleting masked peaks until the oracle reports none. */
  method RemoveSpikes(arr: seq<real>, threshold: real, findPeaks: PeakFinder) returns (r: Result<seq<real>>)
    requires InteriorPeaks(findPeaks)
    ensures r == RemoveSpikesSpec(findPeaks, arr, threshold)
  {
    var rem := arr;
    while true
      invariant SpikeFree(findPeaks, rem, threshold) == SpikeFree(findPeaks, arr, threshold)
      decreases |rem|
    {
      var peaks := findPeaks(rem, threshold);
      if |peaks| == 0 {
        break;
      }
      assert Interior(peaks, |rem|);
      DeleteInterior(rem, peaks);
      rem := Delete(rem, peaks);
    }
    if |rem| < 2 {
      return Err(IndexError);
    }
    var lo := 0;
    var hi := |rem|;
    if AbsReal(rem[0] - rem[1]) > threshold {
      lo := 1;
    }
    if AbsReal(rem[|rem| - 1] - rem[|rem| - 2]) > threshold {
      hi := |rem| - 1;
    }
    r := Ok(rem[lo..hi]);
  }

  /** One `oneRev` reading. */
  datatype Reading = Reading(x: real, y: real)

  function XColumn(rs: seq<Reading>): (c: seq<real>)
    ensures |c| == |rs| && forall i :: 0 <= i < |rs| ==> c[i] == rs[i].x
  {
    seq(|rs|, i requires 0 <= i < |rs| => rs[i].x)
  }

  function YColumn(rs: seq<Reading>): (c: seq<real>)
    ensures |c| == |rs| && forall i :: 0 <= i < |rs| ==> c[i] == rs[i].y
  {
    seq(|rs|, i requires 0 <= i < |rs| => rs[i].y)
  }

  /** `np.column_stack` of two columns of equal length. */
  function Zip(xs: seq<real>, ys: seq<real>): (rs: seq<Reading>)
    requires |xs| == |ys|
    ensures XColumn(rs) == xs && YColumn(rs) == ys
  {
    seq(|xs|, i requires 0 <= i < |xs| => Reading(xs[i], ys[i]))
  }

  /** The axis argument: an `NsAxes` member or anything else. */
  datatype AxisArg = Axis(axis: NsAxes) | NotAnAxis

  datatype Stat = Stat(mean: real, std: real)

  /** `(None, None)`, one `(average, stddev)`, or `[[mx, sx], [my, sy]]`. */
  datatype D4Sigma = NoAxis | Single(s: Stat) | Both(x: Stat, y: Stat)

  /** The intended check: `removeOutliers` outside 0, 1, 2 becomes 0 (as written the warning before it raises, `SettingsAsWritten`). */
  function OutlierMode(removeOutliers: int): (mode: int)
    ensures 0 <= mode <= 2
    ensures mode == removeOutliers || (mode == 0 && !(0 <= removeOutliers <= 2))
  {
    if 0 <= removeOutliers <= 2 then removeOutliers else 0
  }

  /** The intended check: a threshold that is not a number, or not positive, becomes 0.2. */
  function SpikeThreshold(threshold: Option<real>): (t: real)
    ensures 0.0 < t
    ensures threshold.Some? && 0.0 < threshold.value ==> t == threshold.value
    ensures !(threshold.Some? && 0.0 < threshold.value) ==> t == 0.2
  {
    if threshold.Some? && 0.0 < threshold.value then threshold.value else 0.2
  }

  /**
   * The settings checks of `getAxis_avg_D4Sigma` as written: each
   * replacement is preceded by a log call at level `logging.warn`, which is
   * the logging module's `warn` function and not a level, so `logging.log`
   * raises `TypeError("level must be an integer")` and no replacement
   * happens. Settings that need no replacement pass unchanged.
   */
  function SettingsAsWritten(removeOutliers: int, threshold: Option<real>): (r: Result<int>)
    ensures r.Ok? <==> 0 <= removeOutliers <= 2 && (removeOutliers == 2 ==> threshold.Some? && 0.0 < threshold.value)
    ensures r.Ok? ==> r.value == removeOutliers
    ensures r.Err? ==> r.error == TypeError
  {
    if !(0 <= removeOutliers <= 2) then Err(TypeError)
    else if removeOutliers == 2 && !(threshold.Some? && 0.0 < threshold.value) then Err(TypeError)
    else Ok(removeOutliers)
  }

  /** As written, mode 3 raises where the intended check falls back to mode 0; so does a mode-2 threshold of 0, where 0.2 is intended. */
  lemma SettingsAsWrittenRaise()
    ensures SettingsAsWritten(3, Some(0.2)) == Err(TypeError) && OutlierMode(3) == 0
    ensures SettingsAsWritten(2, Some(0.0)) == Err(TypeError) && OutlierMode(2) == 2 && SpikeThreshold(Some(0.0)) == 0.2
  {
  }

  /** The intended replacements keep every setting the written checks accept, and replace only those they raise on. */
  lemma SettingsIntended(removeOutliers: int, threshold: Option<real>)
    ensures SettingsAsWritten(removeOutliers, threshold).Ok? ==>
              && OutlierMode(removeOutliers) == removeOutliers
              && (removeOutliers == 2 ==> Some(SpikeThreshold(threshold)) == threshold)
    ensures SettingsAsWritten(removeOutliers, threshold).Err? ==>
              OutlierMode(removeOutliers) != removeOutliers || SpikeThreshold(threshold) == 0.2
  {
  }

  /** A threshold up to 1 is a fraction of the column mean; a larger one is absolute. */
  function ProminenceFor(t: real, column: seq<real>): real
  {
    if t <= 1.0 then
      // numpy gives `nan` for the mean of no data; `remove_spikes` then fails on its length.
      if |column| == 0 then 0.0 else t * Mean(column)
    else t
  }

  /** `int(np.around(0.1 * numsamples))`: the number of top values to drop. */
  function Throwout(numsamples: nat): (k: int)
    ensures 0 <= k
  {
    RoundWithin(0.1 * numsamples as real, 0, numsamples);
    RoundHalfEven(0.1 * numsamples as real)
  }

  /** Five samples or fewer drop nothing: 0.5 rounds to the even 0. */
  lemma ThrowoutOfFewSamples(numsamples: nat)
    requires numsamples <= 5
    ensures Throwout(numsamples) == 0
  {
    if numsamples == 5 {
      RoundWithin(0.5, 0, 1);
    } else {
      RoundToNearest(0.1 * numsamples as real, 0);
    }
  }

  lemma ThrowoutOfTwenty()
    ensures Throwout(20) == 2
  {
    RoundToNearest(2.0, 2);
  }

  /** As written: `[:-k]`, which keeps nothing when `k` is 0. */
  function KeptAsWritten(len: nat, k: nat): nat
  {
    if k == 0 then 0 else if k <= len then len - k else 0
  }

  /** Intended: drop the top `k` values, keeping everything when `k` is 0. */
  function KeptCount(len: nat, k: nat): (n: nat)
    ensures n <= len
    ensures n + k >= len
    ensures k == 0 ==> n == len
    ensures k <= len ==> n == len - k
  {
    if k <= len then len - k else 0
  }

  /** With five samples the trim as written empties the data, so the average is `nan`. */
  lemma TrimOfFewSamplesAsWritten(numsamples: nat)
    requires 0 < numsamples <= 5
    ensures KeptAsWritten(numsamples, Throwout(numsamples)) == 0
    ensures KeptCount(numsamples, Throwout(numsamples)) == numsamples
  {
    ThrowoutOfFewSamples(numsamples);
  }

  /** The two agree whenever something is thrown out. */
  lemma KeptAgreesWhenTrimming(len: nat, k: nat)
    requires 0 < k
    ensures KeptAsWritten(len, k) == KeptCount(len, k)
  {
  }

  /** `np.sort(column)[:-throwout]`, with the intended count. */
  function DropTop(column: seq<real>, k: nat): (r: seq<real>)
    ensures |r| == KeptCount(|column|, k)
    ensures Sorted(r)
  {
    SortAsc(column)[..KeptCount(|column|, k)]
  }

  /** What is kept is part of the data, and no kept value exceeds a dropped one. */
  lemma DropTopKeepsSmallest(column: seq<real>, k: nat)
    ensures multiset(DropTop(column, k)) <= multiset(column)
    ensures var s := SortAsc(column);
            forall i, j :: 0 <= i < |DropTop(column, k)| <= j < |column| ==> DropTop(column, k)[i] <= s[j]
  {
    DropTopPart(column, k);
    DropTopBelow(column, k);
  }

  lemma DropTopPart(column: seq<real>, k: nat)
    ensures multiset(DropTop(column, k)) <= multiset(column)
  {
    PrefixPart(SortAsc(column), KeptCount(|column|, k));
  }

  lemma PrefixPart(s: seq<real>, n: nat)
    requires n <= |s|
    ensures multiset(s[..n]) <= multiset(s)
  {
    assert s == s[..n] + s[n..];
  }

  lemma DropTopBelow(column: seq<real>, k: nat)
    ensures var s := SortAsc(column);
            forall i, j :: 0 <= i < |DropTop(column, k)| <= j < |column| ==> DropTop(column, k)[i] <= s[j]
  {
    var s := SortAsc(column);
    var d := DropTop(column, k);
    forall i, j | 0 <= i < |d| <= j < |column|
      ensures d[i] <= s[j]
    {
      assert d[i] == s[i];
    }
  }

  /** `np.sort` of a 2-column array sorts each row: a reading becomes (min, max). */
  function SortRow(r: Reading): (s: Reading)
    ensures s.x <= s.y
    ensures (s.x == r.x && s.y == r.y) || (s.x == r.y && s.y == r.x)
  {
    if r.x <= r.y then r else Reading(r.y, r.x)
  }

  function SortRows(rs: seq<Reading>): (ss: seq<Reading>)
    ensures |ss| == |rs| && forall i :: 0 <= i < |rs| ==> ss[i] == SortRow(rs[i])
  {
    seq(|rs|, i requires 0 <= i < |rs| => SortRow(rs[i]))
  }

  /** The mode-1 trim: per column on both axes, per row otherwise. */
  function TopTrimmed(axis: NsAxes, out: seq<Reading>, k: nat): (r: seq<Reading>)
    ensures |r| == KeptCount(|out|, k)
  {
    if axis == BOTH then Zip(DropTop(XColumn(out), k), DropTop(YColumn(out), k))
    else SortRows(out)[..KeptCount(|out|, k)]
  }

  /**
   * On one axis the mode-1 trim keeps the earliest rows, each sorted, so the
   * X column holds `min(x, y)` of a row and nothing is ranked by size.
   */
  lemma SingleAxisTrimSortsRows(axis: NsAxes, out: seq<Reading>, k: nat, i: nat)
    requires axis != BOTH && i < KeptCount(|out|, k)
    ensures TopTrimmed(axis, out, k)[i] == SortRow(out[i])
    ensures TopTrimmed(axis, out, k)[i].x <= out[i].x && TopTrimmed(axis, out, k)[i].x <= out[i].y
  {
  }

  /** The mode-2 stage. One axis fails: `find_peaks` refuses a 2-D array. */
  function Despiked(axis: NsAxes, out: seq<Reading>, threshold: real, f: PeakFinder): (r: Result<seq<Reading>>)
    requires InteriorPeaks(f)
    ensures axis != BOTH ==> r == Err(ValueError)
  {
    if axis != BOTH then Err(ValueError)
    else
      var xs := XColumn(out);
      var ys := YColumn(out);
      var rx := RemoveSpikesSpec(f, xs, ProminenceFor(threshold, xs));
      var ry := RemoveSpikesSpec(f, ys, ProminenceFor(threshold, ys));
      if rx.Err? then Err(rx.error)
      else if ry.Err? then Err(ry.error)
      // `np.column_stack` refuses columns of different lengths.
      else if |rx.value| != |ry.value| then Err(ValueError)
      else Ok(Zip(rx.value, ry.value))
  }

  function ColumnStat(m: Oracle, column: seq<real>): Stat
    requires |column| > 0
  {
    Stat(Mean(column), PopStd(m, column))
  }

  /** Mean and population deviation per column, then the axis selected. */
  function Summary(m: Oracle, axis: NsAxes, out: seq<Reading>): (r: Result<D4Sigma>)
    ensures r.Err? <==> |out| == 0
    ensures r.Ok? ==> (r.value.Both? <==> axis == BOTH) && (r.value.Single? <==> axis != BOTH)
  {
    if |out| == 0 then Err(NonFinite)
    else if axis == BOTH then Ok(Both(ColumnStat(m, XColumn(out)), ColumnStat(m, YColumn(out))))
    else if axis == X then Ok(Single(ColumnStat(m, XColumn(out))))
    else Ok(Single(ColumnStat(m, YColumn(out))))
  }

  /** The outlier stage of the given mode, then the summary. */
  function Processed(m: Oracle, axis: NsAxes, mode: int, t: real, numsamples: nat, out: seq<Reading>, f: PeakFinder): Result<D4Sigma>
    requires InteriorPeaks(f)
  {
    if mode == 1 then Summary(m, axis, TopTrimmed(axis, out, Throwout(numsamples)))
    else if mode == 2 then
      var d := Despiked(axis, out, t, f);
      if d.Err? then Err(d.error) else Summary(m, axis, d.value)
    else Summary(m, axis, out)
  }

  /** `getAxis_avg_D4Sigma` once `numsamples + 10` readings have been taken. */
  function AxisAverage(m: Oracle, devMode: bool, axis: AxisArg, numsamples: nat, removeOutliers: int,
                       threshold: Option<real>, readings: seq<Reading>, f: PeakFinder): Result<D4Sigma>
    requires InteriorPeaks(f) && |readings| == numsamples + 10
  {
    if axis.NotAnAxis? then Ok(NoAxis)
    else if devMode then
      if axis.axis == BOTH then Ok(Both(Stat(500.0, 10.0), Stat(600.0, 25.0))) else Ok(Single(Stat(550.0, 15.0)))
    else Processed(m, axis.axis, OutlierMode(removeOutliers), SpikeThreshold(threshold), numsamples, readings[10..], f)
  }

  /** The first ten readings are discarded: only the last `numsamples` matter. */
  lemma WarmUpDiscarded(m: Oracle, devMode: bool, axis: AxisArg, numsamples: nat, removeOutliers: int,
                        threshold: Option<real>, r1: seq<Reading>, r2: seq<Reading>, f: PeakFinder)
    requires InteriorPeaks(f) && |r1| == numsamples + 10 && |r2| == numsamples + 10
    requires r1[10..] == r2[10..]
    ensures AxisAverage(m, devMode, axis, numsamples, removeOutliers, threshold, r1, f)
         == AxisAverage(m, devMode, axis, numsamples, removeOutliers, threshold, r2, f)
  {
  }

  /** Without outlier removal, each axis reports the mean of its last `numsamples` readings. */
  lemma PlainAverage(m: Oracle, axis: NsAxes, numsamples: nat, removeOutliers: int,
                     threshold: Option<real>, readings: seq<Reading>, f: PeakFinder, lo: real, hi: real)
    requires InteriorPeaks(f) && |readings| == numsamples + 10 && 0 < numsamples
    requires !(1 <= removeOutliers <= 2)
    requires forall i :: 10 <= i < |readings| ==> lo <= readings[i].x <= hi && lo <= readings[i].y <= hi
    ensures var r := AxisAverage(m, false, Axis(axis), numsamples, removeOutliers, threshold, readings, f);
            && r.Ok?
            && (axis == BOTH ==> r.value.Both? && r.value.x.mean == Mean(XColumn(readings[10..]))
                                 && r.value.y.mean == Mean(YColumn(readings[10..])))
            && (axis == X ==> r.value.Single? && r.value.s.mean == Mean(XColumn(readings[10..])))
            && (axis == Y ==> r.value.Single? && r.value.s.mean == Mean(YColumn(readings[10..])))
            && (r.value.Single? ==> lo <= r.value.s.mean <= hi)
  {
    var out := readings[10..];
    MeanBounds(XColumn(out), lo, hi);
    MeanBounds(YColumn(out), lo, hi);
  }

  /** On one axis, spike removal always fails. */
  lemma SingleAxisDespikeFails(m: Oracle, axis: NsAxes, numsamples: nat, threshold: Option<real>,
                               readings: seq<Reading>, f: PeakFinder)
    requires InteriorPeaks(f) && |readings| == numsamples + 10 && axis != BOTH
    ensures AxisAverage(m, false, Axis(axis), numsamples, 2, threshold, readings, f) == Err(ValueError)
  {
  }

  /** The selection widened by the D4σ width: that bit set, every other bit kept. */
  function WithD4Sigma(mask: Mask): Mask
  {
    mask | Flag(BeamWidthD4Sigma)
  }

  /** `n` readings taken one revolution at a time under `mask`. */
  function Acquire(oneRev: (Mask, int) -> Reading, mask: Mask, n: nat): (rs: seq<Reading>)
    ensures |rs| == n && forall k :: 0 <= k < n ==> rs[k] == oneRev(mask, k)
  {
    seq(n, k => oneRev(mask, k))
  }

  /** The mode-2 stage of `getAxis_avg_D4Sigma`, spikes removed column by column. */
  method DespikeColumns(axis: NsAxes, out: seq<Reading>, t: real, findPeaks: PeakFinder) returns (r: Result<seq<Reading>>)
    requires InteriorPeaks(findPeaks)
    ensures r == Despiked(axis, out, t, findPeaks)
  {
    if axis != BOTH {
      return Err(ValueError);
    }
    var xs := XColumn(out);
    var ys := YColumn(out);
    var rx := RemoveSpikes(xs, ProminenceFor(t, xs), findPeaks);
    if rx.Err? {
      return Err(rx.error);
    }
    var ry := RemoveSpikes(ys, ProminenceFor(t, ys), findPeaks);
    if ry.Err? {
      return Err(ry.error);
    }
    if |rx.value| != |ry.value| {
      return Err(ValueError);
    }
    r := Ok(Zip(rx.value, ry.value));
  }

  /** The outlier stages of `getAxis_avg_D4Sigma`, then mean and deviation. */
  method ProcessReadings(m: Oracle, axis: NsAxes, mode: int, t: real, numsamples: nat, readings: seq<Reading>,
                         findPeaks: PeakFinder) returns (r: Result<D4Sigma>)
    requires InteriorPeaks(findPeaks)
    ensures r == Processed(m, axis, mode, t, numsamples, readings, findPeaks)
  {
    var out := readings;
    if mode == 1 {
      out := TopTrimmed(axis, out, Throwout(numsamples));
    }
    if mode == 2 {
      var d := DespikeColumns(axis, out, t, findPeaks);
      if d.Err? {
        return Err(d.error);
      }
      out := d.value;
    }
    r := Summary(m, axis, out);
  }

  class NanoScanDevice {
    const devMode: bool
    const allowedRots: seq<real>
    var rotFreq: real
    /** The device's selected parameter mask. */
    var selectedParameters: Mask

    /** The development-mode device: 10 Hz out of 1.25, 2.5, 5, 10 and 20 Hz. */
    constructor Dev(mask: Mask)
      ensures devMode && allowedRots == [1.25, 2.5, 5.0, 10.0, 20.0] && rotFreq == 10.0
      ensures selectedParameters == mask
    {
      devMode := true;
      allowedRots := [1.25, 2.5, 5.0, 10.0, 20.0];
      rotFreq := 10.0;
      selectedParameters := mask;
    }

    /** A connected device, with the frequency and scan rates it reports. */
    constructor Live(freq: real, rates: seq<real>, mask: Mask)
      ensures !devMode && allowedRots == rates && rotFreq == freq && selectedParameters == mask
    {
      devMode := false;
      allowedRots := rates;
      rotFreq := freq;
      selectedParameters := mask;
    }

    /** The `rotationFrequency` setter: a rate the head does not offer is ignored. */
    method SetRotationFrequency(freq: real)
      modifies this
      ensures rotFreq == (if freq in allowedRots then freq else old(rotFreq))
      ensures selectedParameters == old(selectedParameters)
    {
      if freq !in allowedRots {
        return;
      }
      rotFreq := freq;
    }

    /**
     * `getAxis_avg_D4Sigma`. The D4SIGMA width is added to the selected
     * parameters while the readings are taken; the original mask is restored
     * on success or when the statistics are non-finite, but stays extended
     * when a later stage raises.
     */
    method GetAxisAvgD4Sigma(m: Oracle, axis: AxisArg, numsamples: nat, removeOutliers: int, threshold: Option<real>,
                             oneRev: (Mask, int) -> Reading, findPeaks: PeakFinder) returns (r: Result<D4Sigma>)
      requires InteriorPeaks(findPeaks)
      modifies this
      ensures var acquisitionMask := WithD4Sigma(old(selectedParameters));
              r == AxisAverage(m, devMode, axis, numsamples, removeOutliers, threshold,
                               Acquire(oneRev, acquisitionMask, numsamples + 10), findPeaks)
      ensures selectedParameters == (if axis.NotAnAxis? || devMode || r.Ok? || r == Err(NonFinite) then old(selectedParameters)
                                     else WithD4Sigma(old(selectedParameters)))
      ensures rotFreq == old(rotFreq)
    {
      if axis.NotAnAxis? {
        return Ok(NoAxis);
      }
      var mode := OutlierMode(removeOutliers);
      var t := if mode == 2 then SpikeThreshold(threshold) else 0.2;
      if devMode {
        if axis.axis == BOTH {
          return Ok(Both(Stat(500.0, 10.0), Stat(600.0, 25.0)));
        }
        return Ok(Single(Stat(550.0, 15.0)));
      }
      r := AcquireMasked(m, axis.axis, mode, t, numsamples, oneRev, findPeaks);
    }

    /**
     * The hardware part of `getAxis_avg_D4Sigma`: widen the mask, read,
     * process, and restore the mask unless processing raised. Non-finite
     * statistics are not raised: numpy returns them after a warning.
     */
    method AcquireMasked(m: Oracle, axis: NsAxes, mode: int, t: real, numsamples: nat,
                         oneRev: (Mask, int) -> Reading, findPeaks: PeakFinder) returns (r: Result<D4Sigma>)
      requires InteriorPeaks(findPeaks)
      modifies this
      ensures var acquisitionMask := WithD4Sigma(old(selectedParameters));
              r == Processed(m, axis, mode, t, numsamples, Acquire(oneRev, acquisitionMask, numsamples + 10)[10..], findPeaks)
      ensures selectedParameters == (if r.Ok? || r == Err(NonFinite) then old(selectedParameters)
                                     else WithD4Sigma(old(selectedParameters)))
      ensures rotFreq == old(rotFreq)
    {
      var originalParams := selectedParameters;
      var acquisitionMask := WithD4Sigma(originalParams);
      selectedParameters := acquisitionMask;
      var readings := Acquire(oneRev, acquisitionMask, numsamples + 10);
      // Throw away the warm-up readings.
      var out := readings[10..];
      r := ProcessReadings(m, axis, mode, t, numsamples, out, findPeaks);
      if r.Err? && r.error != NonFinite {
        return;
      }
      selectedParameters := originalParams;
    }
  }
}
