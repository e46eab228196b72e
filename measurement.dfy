/**
 * The measurement driver of `measure.py` apart from its searches: the beam
 * formulas, the simulated beam of development mode, the rows that
 * `take_measurements` collects point by point, the metadata of a run, and the
 * tab-separated data file that `write_to_file` writes and `read_from_file`
 * reads back.
 *
 * Units follow the source: a waist radius in micrometres, a wavelength in
 * nanometres, lens data and Rayleigh lengths in millimetres, stage positions
 * in pulses.
 */
module Measure {
  import opened Errors
  import opened RealMath
  import opened PyStrings
  import opened FitFunctions
  import NanoScan
  import ScanPlan

  // ---------------------------------------------------------------- beam formulas

  /**
   * `beam_waist_radius`: the focused waist `2 M2 wavelength f / (pi d)`, then
   * divided by 1000. A beam diameter of zero divides by zero.
   */
  function BeamWaistRadius(m: Oracle, diamAtLens: real, focalLength: real, wavelength: real, m2: real): (r: Result<real>)
    requires m.PiBounds()
    ensures r.Err? <==> diamAtLens == 0.0
    ensures r.Err? ==> r.error == ZeroDivisionError
    ensures r.Ok? ==> r.value * 1000.0 * (m.pi * diamAtLens) == 2.0 * m2 * wavelength * focalLength
  {
    if diamAtLens == 0.0 then Err(ZeroDivisionError)
    else
      var q := m.pi * diamAtLens;
      assert q != 0.0 by { NonzeroProduct(m.pi, diamAtLens); }
      Ok((2.0 * m2 * wavelength * focalLength) / q / 1000.0)
  }

  lemma NonzeroProduct(x: real, y: real)
    requires x != 0.0 && y != 0.0
    ensures x * y != 0.0
  {
  }

  /**
   * `rayleigh_length` as written: `pi w0^2 / wavelength`. Its `M2` argument plays
   * no part.
   */
  function RayleighLengthAsWritten(m: Oracle, waistRadius: real, wavelength: real, m2: real): (r: Result<real>)
    ensures r.Err? <==> wavelength == 0.0
    ensures r.Err? ==> r.error == ZeroDivisionError
    ensures r.Ok? ==> r.value * wavelength == m.pi * Sq(waistRadius)
  {
    if wavelength == 0.0 then Err(ZeroDivisionError) else Ok(m.pi * Sq(waistRadius) / wavelength)
  }

  /**
   * The Rayleigh length of a beam of quality `M2`: `pi w0^2 / (M2 wavelength)`,
   * the distance from the waist at which the beam area doubles.
   */
  function RayleighLength(m: Oracle, waistRadius: real, wavelength: real, m2: real): (r: Result<real>)
    ensures r.Err? <==> wavelength == 0.0 || m2 == 0.0
    ensures r.Err? ==> r.error == ZeroDivisionError
    ensures r.Ok? ==> r.value * (m2 * wavelength) == m.pi * Sq(waistRadius)
  {
    if wavelength == 0.0 || m2 == 0.0 then Err(ZeroDivisionError)
    else
      assert m2 * wavelength != 0.0 by { NonzeroProduct(m2, wavelength); }
      Ok(m.pi * Sq(waistRadius) / (m2 * wavelength))
  }

  /** A distance `d` from the waist with `d p = c pi w0^2` makes the growth term `c^2`. */
  lemma GrowthAtMultiple(m: Oracle, w0: real, z0: real, p: real, d: real, c: real)
    requires m.PiBounds() && w0 != 0.0
    requires d * p == c * (m.pi * Sq(w0))
    ensures Growth(m, w0, z0, p, z0 + d) == Sq(c)
  {
    var q := m.pi * Sq(w0);
    var k := Slope(m, w0, p);
    PiTimesSqPositive(m, w0);
    assert (d * k) * q == c * q;
    CancelFactor(d * k, c, q);
    assert (z0 + d) - z0 == d;
    SqProduct(d, k);
  }

  lemma CancelFactor(a: real, b: real, q: real)
    requires q != 0.0 && a * q == b * q
    ensures a == b
  {
    assert (a - b) * q == 0.0;
    if a != b {
      NonzeroProduct(a - b, q);
    }
  }

  /** One Rayleigh length from the waist, the radius of a beam of quality `M2` is `sqrt 2` times the waist. */
  lemma RayleighLengthDoubles(m: Oracle, w0: real, z0: real, wavelength: real, m2: real)
    requires m.Valid() && w0 != 0.0 && RayleighLength(m, w0, wavelength, m2).Ok?
    ensures Sq(OmegaZ(m, [w0, z0, m2 * wavelength], z0 + RayleighLength(m, w0, wavelength, m2).value)) == 2.0 * Sq(w0)
  {
    var zr := RayleighLength(m, w0, wavelength, m2).value;
    GrowthAtMultiple(m, w0, z0, m2 * wavelength, zr, 1.0);
    OmegaZSquared(m, [w0, z0, m2 * wavelength], z0 + zr);
  }

  /**
   * For `M2 = 2` the length `rayleigh_length` returns is too long: there the
   * squared radius is five times the waist's, not twice.
   */
  lemma RayleighLengthIgnoresM2(m: Oracle, w0: real, z0: real, wavelength: real)
    requires m.Valid() && w0 != 0.0 && wavelength != 0.0
    ensures var zr := RayleighLengthAsWritten(m, w0, wavelength, 2.0).value;
            Sq(OmegaZ(m, [w0, z0, 2.0 * wavelength], z0 + zr)) == 5.0 * Sq(w0) != 2.0 * Sq(w0)
  {
    var zr := RayleighLengthAsWritten(m, w0, wavelength, 2.0).value;
    assert zr * (2.0 * wavelength) == 2.0 * (m.pi * Sq(w0));
    GrowthAtMultiple(m, w0, z0, 2.0 * wavelength, zr, 2.0);
    OmegaZSquared(m, [w0, z0, 2.0 * wavelength], z0 + zr);
    SqPositive(w0);
  }

  /** The simulated beam's Rayleigh length is the `z_R` of `SIMULATION_PARAMS`, to the digits given. */
  lemma SimulationRayleighLength(m: Oracle)
    requires m.PiBounds()
    ensures RayleighLength(m, 100.0, 2300.0, 1.0) == RayleighLengthAsWritten(m, 100.0, 2300.0, 1.0)
    ensures RayleighLength(m, 100.0, 2300.0, 1.0).Ok?
    ensures AbsR(RayleighLength(m, 100.0, 2300.0, 1.0).value - 13.65909849) < 0.00000004
  {
    assert Sq(100.0) == 10000.0;
  }

  /**
   * `get_w0_zR`: the waist a lens focuses to, and the Rayleigh length of that
   * waist.
   */
  function GetW0ZR(m: Oracle, diamAtLens: real, focalLength: real, wavelength: real, m2: real): (r: Result<(real, real)>)
    requires m.PiBounds()
    ensures r.Err? <==> diamAtLens == 0.0 || wavelength == 0.0 || m2 == 0.0
    ensures r.Err? ==> r.error == ZeroDivisionError
    ensures r.Ok? ==> BeamWaistRadius(m, diamAtLens, focalLength, wavelength, m2) == Ok(r.value.0)
    ensures r.Ok? ==> r.value.1 * (m.pi * Sq(diamAtLens)) * 1000000.0 == 4.0 * m2 * wavelength * Sq(focalLength)
  {
    var w := BeamWaistRadius(m, diamAtLens, focalLength, wavelength, m2);
    if w.Err? then Err(w.error)
    else
      var z := RayleighLength(m, w.value, wavelength, m2);
      if z.Err? then Err(z.error)
      else
        FocusedRayleigh(m, diamAtLens, focalLength, wavelength, m2, w.value, z.value);
        Ok((w.value, z.value))
  }

  /** From the two defining equations, `z_R = 4 M2 wavelength f^2 / (pi d^2)` (with the unit factor 10^6). */
  lemma FocusedRayleigh(m: Oracle, d: real, f: real, wavelength: real, m2: real, w: real, z: real)
    requires m.PiBounds() && d != 0.0 && m2 * wavelength != 0.0
    requires w * 1000.0 * (m.pi * d) == 2.0 * m2 * wavelength * f
    requires z * (m2 * wavelength) == m.pi * Sq(w)
    ensures z * (m.pi * Sq(d)) * 1000000.0 == 4.0 * m2 * wavelength * Sq(f)
  {
    FocusedAlgebra(w, m.pi, d, m2 * wavelength, f, z);
  }

  lemma FocusedAlgebra(w: real, p: real, d: real, a: real, f: real, z: real)
    requires a != 0.0
    requires w * 1000.0 * (p * d) == 2.0 * a * f
    requires z * a == p * Sq(w)
    ensures z * (p * Sq(d)) * 1000000.0 == 4.0 * a * Sq(f)
  {
    var lhs := z * (p * Sq(d)) * 1000000.0;
    var u := w * 1000.0 * (p * d);
    assert Sq(u) == Sq(2.0 * a * f);
    assert Sq(u) == (p * Sq(w)) * (p * Sq(d)) * 1000000.0 by {
      SqProduct(w * 1000.0, p * d);
      SqProduct(w, 1000.0);
      SqProduct(p, d);
    }
    assert Sq(2.0 * a * f) == (4.0 * a * Sq(f)) * a by {
      SqProduct(2.0 * a, f);
      SqProduct(2.0, a);
    }
    assert lhs * a == (z * a) * (p * Sq(d)) * 1000000.0;
    CancelFactor(lhs, 4.0 * a * Sq(f), a);
  }

  // ---------------------------------------------------------------- the simulated beam

  /** `pulse_to_um(pps) / 1000`: a stage position in millimetres. */
  function PulseToMm(umPerPulse: real, pps: int): real
  {
    umPerPulse * pps as real / 1000.0
  }

  /**
   * `simulate_beam`: the diameter `2 omega_z` of a beam with `w0 = 100`,
   * `z0 = 0` and `p = 2300` at the stage position in millimetres, with a
   * fixed spread of 10. The position comes from `pulse_to_um`, which fails
   * while the stage has no `um_per_pulse`.
   */
  function SimulateBeam(m: Oracle, umPerPulse: Option<real>, pos: int): (r: Result<NanoScan.Stat>)
    requires m.PiBounds()
    ensures r.Err? <==> umPerPulse.None?
    ensures r.Err? ==> r.error == AttributeError
    ensures r.Ok? ==> r.value.std == 10.0
  {
    if umPerPulse.None? then Err(AttributeError)
    else Ok(NanoScan.Stat(2.0 * OmegaZ(m, [100.0, 0.0, 2300.0], PulseToMm(umPerPulse.value, pos)), 10.0))
  }

  /** The simulated diameter is smallest, 200, at position 0 and the same at `pos` and `-pos`. */
  lemma SimulatedWaist(m: Oracle, u: real, pos: int)
    requires m.Valid()
    ensures SimulateBeam(m, Some(u), 0) == Ok(NanoScan.Stat(200.0, 10.0))
    ensures 200.0 <= SimulateBeam(m, Some(u), pos).value.mean
    ensures SimulateBeam(m, Some(u), pos) == SimulateBeam(m, Some(u), -pos)
  {
    assert PulseToMm(u, 0) == 0.0;
    OmegaZAtWaist(m, 100.0, 0.0, 2300.0);
    var z := PulseToMm(u, pos);
    OmegaZAtLeastWaist(m, 100.0, 0.0, 2300.0, z);
    var g := Growth(m, 100.0, 0.0, 2300.0, z);
    SqrtAt(m, 1.0 + g);
    NonnegativeProduct(100.0, m.sqrt(1.0 + g));
    var w := OmegaZ(m, [100.0, 0.0, 2300.0], z);
    assert w == 100.0 * m.sqrt(1.0 + g);
    assert 0.0 <= w;
    assert AbsR(100.0) <= AbsR(w);
    assert SimulateBeam(m, Some(u), pos).value.mean == 2.0 * w;
    SimulatedEven(m, u, pos);

  }

  lemma SimulatedEven(m: Oracle, u: real, pos: int)
    requires m.PiBounds()
    ensures OmegaZ(m, [100.0, 0.0, 2300.0], PulseToMm(u, pos))
            == OmegaZ(m, [100.0, 0.0, 2300.0], PulseToMm(u, -pos))
  {
    var z := PulseToMm(u, pos);
    assert PulseToMm(u, -pos) == 0.0 - z;
    assert z == 0.0 + z;
    OmegaZEven(m, 100.0, 0.0, 2300.0, z);
  }

  /** One simulated Rayleigh length from position 0 the squared diameter doubles. */
  lemma SimulatedRayleigh(m: Oracle, u: real, pos: int)
    requires m.Valid()
    requires PulseToMm(u, pos) == RayleighLength(m, 100.0, 2300.0, 1.0).value
    ensures Sq(SimulateBeam(m, Some(u), pos).value.mean) == 2.0 * Sq(200.0)
  {
    var z := PulseToMm(u, pos);
    RayleighLengthDoubles(m, 100.0, 0.0, 2300.0, 1.0);
    assert [100.0, 0.0, 1.0 * 2300.0] == [100.0, 0.0, 2300.0];
    assert 0.0 + z == z;
    SqProduct(2.0, OmegaZ(m, [100.0, 0.0, 2300.0], z));
  }

  // ---------------------------------------------------------------- metadata

  /** A Python `dict` of strings, in insertion order. */
  type Dict = seq<(string, string)>

  predicate DistinctKeys(d: Dict)
  {
    forall i, j :: 0 <= i < j < |d| ==> d[i].0 != d[j].0
  }

  /** `d.get(k)`. */
  function Lookup(d: Dict, k: string): Option<string>
  {
    if |d| == 0 then None
    else if d[0].0 == k then Some(d[0].1)
    else Lookup(d[1..], k)
  }

  /** `d[k] = v`: an existing key keeps its place, a new one goes last. */
  function Assign(d: Dict, k: string, v: string): (r: Dict)
    ensures Lookup(r, k) == Some(v)
    ensures forall j :: j != k ==> Lookup(r, j) == Lookup(d, j)
    ensures |d| <= |r| <= |d| + 1
    ensures forall i :: 0 <= i < |d| ==> r[i].0 == d[i].0
  {
    if |d| == 0 then [(k, v)]
    else if d[0].0 == k then [(k, v)] + d[1..]
    else [d[0]] + Assign(d[1..], k, v)
  }

  /** `{**a, **b}`: the entries of `b` assigned one by one onto `a`. */
  function Merged(a: Dict, b: Dict): (r: Dict)
    ensures |a| <= |r|
    ensures forall i :: 0 <= i < |a| ==> r[i].0 == a[i].0
    decreases |b|
  {
    if |b| == 0 then a else Merged(Assign(a, b[0].0, b[0].1), b[1..])
  }

  /** A key of `b` takes `b`'s value; any other key keeps `a`'s. */
  lemma {:induction false} MergedLookup(a: Dict, b: Dict, k: string)
    requires DistinctKeys(b)
    ensures Lookup(Merged(a, b), k) == if Lookup(b, k).Some? then Lookup(b, k) else Lookup(a, k)
    decreases |b|
  {
    if |b| > 0 {
      MergedLookup(Assign(a, b[0].0, b[0].1), b[1..], k);
      if b[0].0 == k {
        LookupAbsent(b[1..], k);
      }
    }
  }

  lemma LookupAbsent(d: Dict, k: string)
    requires forall i :: 0 <= i < |d| ==> d[i].0 != k
    ensures Lookup(d, k) == None
  {
    if |d| > 0 {
      LookupAbsent(d[1..], k);
    }
  }

  /** The names of the post-processing modes, indexed by `removeOutliers`. */
  const ModeNames: seq<string> := ["0: Do Nothing", "1: Remove top 10%", "2: Remove positive peaks from data"]

  /**
   * The metadata `take_measurements` writes: the Rayleigh length, overridden by
   * the caller's entries, then the raw log file if one was kept, and for a
   * NanoScan camera the post-processing mode and, in mode 2, its threshold.
   */
  function RunMetadata(rayleighMm: string, user: Dict, rawFile: Option<string>, nanoScan: bool,
                       mode: int, threshold: string): (r: Dict)
    requires 0 <= mode <= 2
    ensures |r| >= 1 && r[0].0 == "Rayleigh Length"
  {
    var base := Merged([("Rayleigh Length", rayleighMm + " mm")], user);
    var withRaw := if rawFile.Some? then Assign(base, "Raw Data File", rawFile.value) else base;
    if !nanoScan then withRaw
    else
      var withMode := Assign(withRaw, "Post Processing Mode", ModeNames[mode]);
      if mode == 2 then Assign(withMode, "Threshold", threshold) else withMode
  }

  /** The caller's Rayleigh length, if any, replaces the measured one. */
  lemma MetadataRayleigh(rayleighMm: string, user: Dict, rawFile: Option<string>, nanoScan: bool,
                         mode: int, threshold: string)
    requires 0 <= mode <= 2 && DistinctKeys(user)
    ensures Lookup(RunMetadata(rayleighMm, user, rawFile, nanoScan, mode, threshold), "Rayleigh Length")
            == if Lookup(user, "Rayleigh Length").Some? then Lookup(user, "Rayleigh Length") else Some(rayleighMm + " mm")
  {
    var d := [("Rayleigh Length", rayleighMm + " mm")];
    MergedLookup(d, user, "Rayleigh Length");
    KeysDiffer();
  }

  /** The raw log file's path is recorded when a raw log was kept. */
  lemma MetadataRawFile(rayleighMm: string, user: Dict, rawFile: Option<string>, nanoScan: bool,
                        mode: int, threshold: string)
    requires 0 <= mode <= 2 && rawFile.Some?
    ensures Lookup(RunMetadata(rayleighMm, user, rawFile, nanoScan, mode, threshold), "Raw Data File") == rawFile
  {
    KeysDiffer();
  }

  /** A NanoScan run records its post-processing mode, and in mode 2 its threshold. */
  lemma MetadataPostProcessing(rayleighMm: string, user: Dict, rawFile: Option<string>,
                               mode: int, threshold: string)
    requires 0 <= mode <= 2
    ensures var r := RunMetadata(rayleighMm, user, rawFile, true, mode, threshold);
            Lookup(r, "Post Processing Mode") == Some(ModeNames[mode])
            && (mode == 2 ==> Lookup(r, "Threshold") == Some(threshold))
  {
    var base := Merged([("Rayleigh Length", rayleighMm + " mm")], user);
    var withRaw := if rawFile.Some? then Assign(base, "Raw Data File", rawFile.value) else base;
    KeysDiffer();
    LastTwoEntries(withRaw, "Post Processing Mode", ModeNames[mode], "Threshold", threshold, mode == 2);
  }

  /** Two assignments of distinct keys, the second one optional: both values can be looked up. */
  lemma LastTwoEntries(d: Dict, k1: string, v1: string, k2: string, v2: string, both: bool)
    requires k1 != k2
    ensures var d1 := Assign(d, k1, v1);
            var r := if both then Assign(d1, k2, v2) else d1;
            Lookup(r, k1) == Some(v1) && (both ==> Lookup(r, k2) == Some(v2))
  {
  }

  /** Other runs record a threshold only if the caller gave one. */
  lemma MetadataNoThreshold(rayleighMm: string, user: Dict, rawFile: Option<string>, nanoScan: bool,
                            mode: int, threshold: string)
    requires 0 <= mode <= 2 && DistinctKeys(user) && (!nanoScan || mode != 2)
    ensures Lookup(RunMetadata(rayleighMm, user, rawFile, nanoScan, mode, threshold), "Threshold") == Lookup(user, "Threshold")
  {
    var d := [("Rayleigh Length", rayleighMm + " mm")];
    MergedLookup(d, user, "Threshold");
    KeysDiffer();
    assert Lookup(d, "Threshold") == None;
  }

  lemma KeysDiffer()
    ensures "Rayleigh Length" != "Raw Data File" && "Rayleigh Length" != "Post Processing Mode"
    ensures "Rayleigh Length" != "Threshold" && "Raw Data File" != "Post Processing Mode"
    ensures "Raw Data File" != "Threshold" && "Post Processing Mode" != "Threshold"
  {
    assert |"Rayleigh Length"| == 15 && |"Raw Data File"| == 13 && |"Post Processing Mode"| == 20 && |"Threshold"| == 9;
  }

  // ---------------------------------------------------------------- the data of a run

  /** One row `[z, diam, delta_diam]` of an axis: a position in millimetres and the reading there. */
  datatype Point = Point(z: real, diam: real, ddiam: real)

  /** `np.vstack((data, row))`, or the row itself while the axis has no data (`None`). */
  function Stacked(data: Option<seq<Point>>, row: Point): (r: seq<Point>)
    ensures |r| >= 1 && r[|r| - 1] == row
    ensures r[..|r| - 1] == if data.None? then [] else data.value
  {
    if data.None? then [row] else data.value + [row]
  }

  /** numpy's shape of an axis's data: a single row is flat, `(3,)`; more rows are `(n, 3)`. */
  function Shape(rows: seq<Point>): (r: seq<nat>)
    ensures |r| >= 1 && r[|r| - 1] == 3
    ensures |r| == 1 <==> |rows| == 1
    ensures |r| == 2 ==> r[0] == |rows|
  {
    if |rows| == 1 then [3] else [|rows|, 3]
  }

  /** The row one axis gets at stage position `pt`. */
  function RowAt(umPerPulse: real, pt: int, s: NanoScan.Stat): Point
  {
    Point(PulseToMm(umPerPulse, pt), s.mean, s.std)
  }

  /** The rows of the X (`xAxis`) or the Y axis after measuring at each point in turn. */
  function Scanned(points: seq<int>, umPerPulse: real, measure: int -> (NanoScan.Stat, NanoScan.Stat), xAxis: bool): (r: seq<Point>)
    ensures |r| == |points|
  {
    seq(|points|, i requires 0 <= i < |points| =>
      RowAt(umPerPulse, points[i], if xAxis then measure(points[i]).0 else measure(points[i]).1))
  }

  /** Both axes' rows are taken at the same positions, in the order of the points. */
  lemma ScannedPositions(points: seq<int>, umPerPulse: real, measure: int -> (NanoScan.Stat, NanoScan.Stat), xAxis: bool, i: int)
    requires 0 <= i < |points|
    ensures var r := Scanned(points, umPerPulse, measure, xAxis);
            r[i].z == PulseToMm(umPerPulse, points[i])
            && r[i].z == Scanned(points, umPerPulse, measure, !xAxis)[i].z
            && (r[i].diam, r[i].ddiam) == (if xAxis then (measure(points[i]).0.mean, measure(points[i]).0.std)
                                          else (measure(points[i]).1.mean, measure(points[i]).1.std))
  {
  }

  lemma PulseToMmMonotone(u: real, a: int, b: int)
    requires u > 0.0 && a < b
    ensures PulseToMm(u, a) < PulseToMm(u, b)
  {
    assert u * b as real - u * a as real == u * (b - a) as real;
    PositiveProduct(u, (b - a) as real);
  }

  /** Rows taken along ascending points ascend, inside the millimetre image of the points' range. */
  lemma ScannedIncreasing(points: seq<int>, lo: int, hi: int, u: real,
                          measure: int -> (NanoScan.Stat, NanoScan.Stat), xAxis: bool)
    requires u > 0.0 && ScanPlan.Increasing(points)
    requires forall x :: x in points ==> lo <= x <= hi
    ensures var r := Scanned(points, u, measure, xAxis);
            && (forall i, j :: 0 <= i < j < |r| ==> r[i].z < r[j].z)
            && (forall i :: 0 <= i < |r| ==> PulseToMm(u, lo) <= r[i].z <= PulseToMm(u, hi))
  {
    var r := Scanned(points, u, measure, xAxis);
    forall i, j | 0 <= i < j < |r|
      ensures r[i].z < r[j].z
    {
      PulseToMmMonotone(u, points[i], points[j]);
    }
    forall i | 0 <= i < |r|
      ensures PulseToMm(u, lo) <= r[i].z <= PulseToMm(u, hi)
    {
      assert points[i] in points;
      if lo < points[i] {
        PulseToMmMonotone(u, lo, points[i]);
      }
      if points[i] < hi {
        PulseToMmMonotone(u, points[i], hi);
      }
    }
  }

  /**
   * A plan the ladder accepts gives rows in strictly ascending position, all
   * within the travel less its 10-pulse margins.
   */
  lemma ScannedAscending(axes: seq<(int, int)>, lower: int, upper: int, u: real,
                         measure: int -> (NanoScan.Stat, NanoScan.Stat), xAxis: bool)
    requires u > 0.0 && ScanPlan.Ladder(axes, lower, upper).Ok?
    ensures var r := Scanned(ScanPlan.Ladder(axes, lower, upper).value, u, measure, xAxis);
            && (forall i, j :: 0 <= i < j < |r| ==> r[i].z < r[j].z)
            && (forall i :: 0 <= i < |r| ==> PulseToMm(u, lower + 10) <= r[i].z <= PulseToMm(u, upper - 10))
  {
    ScanPlan.LadderWithinTravel(axes, lower, upper);
    ScannedIncreasing(ScanPlan.Ladder(axes, lower, upper).value, lower + 10, upper - 10, u, measure, xAxis);
  }

  // ---------------------------------------------------------------- writing the data file

  /** Where `write_to_file` writes: a given path, which may fail to open; a fresh temporary file; or neither. */
  datatype Target = Given(path: string, opens: bool) | Temporary(path: string) | NotAPath

  predicate Opens(target: Target)
  {
    target.Temporary? || (target.Given? && target.opens)
  }

  /** The `metadata` argument: `None`, a dictionary, or something else, which is skipped. */
  datatype Metadata = NoMetadata | Entries(items: Dict) | NotADict

  /** What a write leaves: the text of the file, if one was opened, and the call's outcome. */
  datatype Written = Written(contents: Option<string>, result: Result<Option<string>>)

  function MetadataLines(items: Dict): (r: seq<string>)
    ensures |r| == |items|
  {
    seq(|items|, k requires 0 <= k < |items| => "#\t" + items[k].0 + ": " + items[k].1)
  }

  /** The comment lines before the data, each without its newline. */
  function HeaderLines(stamp: string, meta: Metadata): seq<string>
  {
    ["# Data written on " + stamp]
    + (if meta.Entries? then ["# ==== Metadata ===="] + MetadataLines(meta.items) else [])
    + ["# ====== Data ======"]
  }

  const ColumnHeader: string := "# position[mm]" + "\t" + "x_diam[um]" + "\t" + "dx_diam[um]" + "\t" + "y_diam[um]" + "\t" + "dy_diam[um]"

  /** The five fields of a data line: X's position and reading, then Y's reading; Y's position is not written. */
  function RowFields(show: real -> string, px: Point, py: Point): seq<string>
  {
    [show(px.z), show(px.diam), show(px.ddiam), show(py.diam), show(py.ddiam)]
  }

  function RowLine(show: real -> string, px: Point, py: Point): string
  {
    Join(RowFields(show, px, py), "\t")
  }

  function DataLines(show: real -> string, x: seq<Point>, y: seq<Point>): (r: seq<string>)
    requires |x| == |y|
    ensures |r| == |x|
  {
    seq(|x|, i requires 0 <= i < |x| => RowLine(show, x[i], y[i]))
  }

  /**
   * `write_to_file`, with `show` standing for Python's formatting of a float.
   * A path that fails to open leaves `f` as `None`, so the first write raises
   * `AttributeError`; neither a path nor `None` writes nothing. Then come the
   * comment lines; data that is `None` has no `shape` (`AttributeError`); data
   * of different shapes gets no rows; a single flat row is indexed as a
   * scalar (`IndexError`).
   */
  function WriteData(target: Target, stamp: string, meta: Metadata, x: Option<seq<Point>>, y: Option<seq<Point>>,
                     show: real -> string): (w: Written)
    ensures target.NotAPath? ==> w == Written(None, Ok(None))
    ensures target.Given? && !target.opens ==> w == Written(None, Err(AttributeError))
    ensures Opens(target) <==> w.contents.Some?
    ensures w.result.Err? ==> w.result.error == AttributeError || w.result.error == IndexError
    ensures Opens(target) && w.result.Ok? ==> w.result.value == Some(target.path)
    ensures Opens(target) ==> (w.result.Err? <==> x.None? || y.None? || |x.value| == |y.value| == 1)
  {
    if target.NotAPath? then Written(None, Ok(None))
    else if target.Given? && !target.opens then Written(None, Err(AttributeError))
    else
      var head := HeaderLines(stamp, meta);
      if x.None? || y.None? then Written(Some(Unlines(head)), Err(AttributeError))
      else if Shape(x.value) != Shape(y.value) then Written(Some(Unlines(head)), Ok(Some(target.path)))
      else if |x.value| == 1 then Written(Some(Unlines(head + [ColumnHeader])), Err(IndexError))
      else Written(Some(Unlines(head + [ColumnHeader] + DataLines(show, x.value, y.value))), Ok(Some(target.path)))
  }

  // ---------------------------------------------------------------- reading it back

  /** `[float(x) for x in fields]`, `None` when `float` rejects a field. */
  function Floats(parse: string -> Option<real>, fields: seq<string>): (r: Option<seq<real>>)
    ensures r.Some? <==> forall k :: 0 <= k < |fields| ==> parse(fields[k]).Some?
    ensures r.Some? ==> |r.value| == |fields| && forall k :: 0 <= k < |fields| ==> r.value[k] == parse(fields[k]).value
  {
    if |fields| == 0 then Some([])
    else if parse(fields[0]).None? then None
    else
      var rest := Floats(parse, fields[1..]);
      if rest.None? then None else Some([parse(fields[0]).value] + rest.value)
  }

  /** What one line of the file does: nothing, a row for each axis, or an exception. */
  datatype LineRead = Comment | Values(x: Point, y: Point) | Bad(error: Error)

  /**
   * One pass of `read_from_file`'s loop: a line that strips to nothing fails at
   * `l[0]`; a `#` line is skipped; any other line must hold five floats
   * separated by tabs.
   */
  function ReadLine(parse: string -> Option<real>, line: string): (r: LineRead)
    ensures r.Bad? ==> r.error == IndexError || r.error == ValueError
    ensures r == Bad(IndexError) <==> Strip(line) == ""
    ensures r.Comment? <==> Strip(line) != "" && Strip(line)[0] == '#'
    ensures r.Values? ==> r.x.z == r.y.z
  {
    var l := Strip(line);
    if |l| == 0 then Bad(IndexError)
    else if l[0] == '#' then Comment
    else
      var v := Floats(parse, SplitChar(l, '\t'));
      if v.None? || |v.value| != 5 then Bad(ValueError)
      else Values(Point(v.value[0], v.value[1], v.value[2]), Point(v.value[0], v.value[3], v.value[4]))
  }

  function Reads(parse: string -> Option<real>, lines: seq<string>): (r: seq<LineRead>)
    ensures |r| == |lines|
  {
    seq(|lines|, k requires 0 <= k < |lines| => ReadLine(parse, lines[k]))
  }

  function Count(data: Option<seq<Point>>): nat
  {
    if data.None? then 0 else |data.value|
  }

  /**
   * The loop over the read lines: rows are added on each axis's data, and the
   * first bad line stops it with its exception, keeping what was added.
   */
  function Absorb(x: Option<seq<Point>>, y: Option<seq<Point>>, steps: seq<LineRead>)
    : (r: (Option<seq<Point>>, Option<seq<Point>>, Option<Error>))
    ensures Count(r.0) - Count(x) == Count(r.1) - Count(y)
    ensures x.Some? ==> r.0.Some? && |x.value| <= |r.0.value| && r.0.value[..|x.value|] == x.value
    ensures y.Some? ==> r.1.Some? && |y.value| <= |r.1.value| && r.1.value[..|y.value|] == y.value
    decreases |steps|
  {
    if |steps| == 0 then (x, y, None)
    else match steps[0]
      case Comment => Absorb(x, y, steps[1..])
      case Bad(e) => (x, y, Some(e))
      case Values(px, py) =>
        var x', y' := Stacked(x, px), Stacked(y, py);
        var r := Absorb(Some(x'), Some(y'), steps[1..]);
        assert x.Some? ==> x'[..|x.value|] == x.value;
        assert y.Some? ==> y'[..|y.value|] == y.value;
        r
  }

  /** `read_from_file` on a file with this text, onto the data already there. */
  function ReadBack(x: Option<seq<Point>>, y: Option<seq<Point>>, parse: string -> Option<real>, text: string)
    : (Option<seq<Point>>, Option<seq<Point>>, Option<Error>)
  {
    Absorb(x, y, Reads(parse, Lines(text)))
  }

  // ---------------------------------------------------------------- the round trip

  /** One field as Python prints it: not empty, no whitespace, not a comment. */
  predicate Token(t: string)
  {
    |t| > 0 && NoSpace(t) && t[0] != '#'
  }

  /** `float` reads the printed value back exactly, and it prints as one field. */
  predicate Printable(show: real -> string, parse: string -> Option<real>, v: real)
  {
    Token(show(v)) && parse(show(v)) == Some(v)
  }

  predicate RowPrintable(show: real -> string, parse: string -> Option<real>, px: Point, py: Point)
  {
    Printable(show, parse, px.z) && Printable(show, parse, px.diam) && Printable(show, parse, px.ddiam)
    && Printable(show, parse, py.diam) && Printable(show, parse, py.ddiam)
  }

  /** A data line of printable values reads back as the two rows it was written from. */
  lemma ReadRowLine(show: real -> string, parse: string -> Option<real>, px: Point, py: Point)
    requires RowPrintable(show, parse, px, py) && px.z == py.z
    ensures NoNewline(RowLine(show, px, py))
    ensures ReadLine(parse, RowLine(show, px, py) + "\n") == Values(px, py)
  {
    var fields := RowFields(show, px, py);
    var l := RowLine(show, px, py);
    RowLineFields(show, parse, px, py);
    StripNewline(l);
    var v := Floats(parse, fields);
    assert v.Some? && v.value == [px.z, px.diam, px.ddiam, py.diam, py.ddiam];
  }

  /** A data line holds no newline, starts and ends with a printed field, and splits back into its fields. */
  lemma RowLineFields(show: real -> string, parse: string -> Option<real>, px: Point, py: Point)
    requires RowPrintable(show, parse, px, py)
    ensures var l := RowLine(show, px, py);
            && NoNewline(l) && |l| > 0 && !IsSpace(l[0]) && !IsSpace(l[|l| - 1]) && l[0] != '#'
            && SplitChar(l, '\t') == RowFields(show, px, py)
  {
    var fields := RowFields(show, px, py);
    forall k | 0 <= k < 5
      ensures '\t' !in fields[k] && '\n' !in fields[k]
    {
      NoSpaceAvoids(fields[k], '\t');
      NoSpaceAvoids(fields[k], '\n');
    }
    JoinAvoids(fields, "\t", '\n');
    JoinFirst(fields, "\t");
    JoinLast(fields, "\t");
    SplitJoinChar(fields, '\t');
  }

  /** A line starting with `#` is skipped. */
  lemma ReadComment(parse: string -> Option<real>, l: string)
    requires |l| > 0 && l[0] == '#'
    ensures ReadLine(parse, l + "\n") == Comment
  {
    StripFirst(l + "\n");
  }

  /** Comment lines before the data change nothing. */
  lemma {:induction false} AbsorbComments(x: Option<seq<Point>>, y: Option<seq<Point>>, steps: seq<LineRead>, n: nat)
    requires n <= |steps| && forall k :: 0 <= k < n ==> steps[k] == Comment
    ensures Absorb(x, y, steps) == Absorb(x, y, steps[n..])
    decreases n
  {
    if n > 0 {
      AbsorbComments(x, y, steps[1..], n - 1);
      assert steps[1..][n - 1..] == steps[n..];
    }
  }

  /** Data already there, then the rows `xs`, `ys`. */
  function Extended(data: Option<seq<Point>>, rows: seq<Point>): seq<Point>
  {
    if data.None? then rows else data.value + rows
  }

  /** The read lines of a file's data part. */
  function ValueSteps(xs: seq<Point>, ys: seq<Point>): (r: seq<LineRead>)
    requires |xs| == |ys|
    ensures |r| == |xs| && forall i :: 0 <= i < |xs| ==> r[i] == Values(xs[i], ys[i])
  {
    seq(|xs|, i requires 0 <= i < |xs| => Values(xs[i], ys[i]))
  }

  lemma AbsorbHead(x: Option<seq<Point>>, y: Option<seq<Point>>, steps: seq<LineRead>)
    requires |steps| > 0 && steps[0].Values?
    ensures Absorb(x, y, steps) == Absorb(Some(Stacked(x, steps[0].x)), Some(Stacked(y, steps[0].y)), steps[1..])
  {
  }

  /** Reading lines of values appends their rows, and nothing stops it. */
  lemma {:induction false} AbsorbValues(x: Option<seq<Point>>, y: Option<seq<Point>>, xs: seq<Point>, ys: seq<Point>)
    requires |xs| == |ys| >= 1
    ensures Absorb(x, y, ValueSteps(xs, ys)) == (Some(Extended(x, xs)), Some(Extended(y, ys)), None)
    decreases |xs|
  {
    var steps := ValueSteps(xs, ys);
    AbsorbHead(x, y, steps);
    ExtendedCons(x, xs);
    ExtendedCons(y, ys);
    if |xs| == 1 {
      assert steps[1..] == [];
    } else {
      assert steps[1..] == ValueSteps(xs[1..], ys[1..]);
      AbsorbValues(Some(Stacked(x, xs[0])), Some(Stacked(y, ys[0])), xs[1..], ys[1..]);
    }
  }

  lemma ExtendedCons(data: Option<seq<Point>>, rows: seq<Point>)
    requires |rows| >= 1
    ensures Extended(Some(Stacked(data, rows[0])), rows[1..]) == Extended(data, rows)
    ensures |rows| == 1 ==> Stacked(data, rows[0]) == Extended(data, rows)
  {
    if data.Some? {
      assert data.value + [rows[0]] + rows[1..] == data.value + rows;
    } else {
      assert [rows[0]] + rows[1..] == rows;
    }
  }

  predicate HeaderPrintable(stamp: string, meta: Metadata)
  {
    NoNewline(stamp)
    && (meta.Entries? ==> forall k :: 0 <= k < |meta.items| ==> NoNewline(meta.items[k].0) && NoNewline(meta.items[k].1))
  }

  lemma ColumnHeaderLine()
    ensures |ColumnHeader| > 0 && ColumnHeader[0] == '#' && NoNewline(ColumnHeader)
  {
    assert '\n' !in "# position[mm]" && '\n' !in "x_diam[um]" && '\n' !in "dx_diam[um]";
    assert '\n' !in "y_diam[um]" && '\n' !in "dy_diam[um]" && '\n' !in "\t";
  }

  /** The comment lines of the file: each one starts with `#` and holds no newline. */
  lemma HeaderComments(stamp: string, meta: Metadata)
    requires HeaderPrintable(stamp, meta)
    ensures var h := HeaderLines(stamp, meta) + [ColumnHeader];
            CommentLines(h) && forall k :: 0 <= k < |h| ==> NoNewline(h[k])
  {
    var h := HeaderLines(stamp, meta) + [ColumnHeader];
    forall k | 0 <= k < |h|
      ensures |h[k]| > 0 && h[k][0] == '#' && NoNewline(h[k])
    {
      var n := |h|;
      if k == 0 {
        assert h[k] == "# Data written on " + stamp;
        assert NoNewline("# Data written on ");
      } else if k == n - 1 {
        ColumnHeaderLine();
      } else if k == n - 2 {
        assert h[k] == "# ====== Data ======";
        assert NoNewline("# ====== Data ======");
      } else if k == 1 {
        assert h[k] == "# ==== Metadata ====";
        assert NoNewline("# ==== Metadata ====");
      } else {
        var e := meta.items[k - 2];
        assert h[k] == "#\t" + e.0 + ": " + e.1;
        assert NoNewline("#\t") && NoNewline(": ");
      }
    }
  }

  /**
   * `read_from_file` undoes `write_to_file`: onto empty data it reproduces
   * both axes, provided the file could be opened, there are at least two rows
   * (a single row is not written), the axes share their positions (only X's
   * are written), every value prints as one field that `float` reads back
   * exactly, and no header text holds a newline.
   */
  lemma ReadWritten(target: Target, stamp: string, meta: Metadata, x: seq<Point>, y: seq<Point>,
                    show: real -> string, parse: string -> Option<real>)
    requires Opens(target) && HeaderPrintable(stamp, meta)
    requires |x| == |y| >= 2
    requires forall i :: 0 <= i < |x| ==> x[i].z == y[i].z && RowPrintable(show, parse, x[i], y[i])
    ensures var w := WriteData(target, stamp, meta, Some(x), Some(y), show);
            w.result == Ok(Some(target.path))
            && ReadBack(None, None, parse, w.contents.value) == (Some(x), Some(y), None)
  {
    var head := HeaderLines(stamp, meta) + [ColumnHeader];
    var text := Unlines(head + DataLines(show, x, y));
    assert WriteData(target, stamp, meta, Some(x), Some(y), show).contents == Some(text);
    HeaderComments(stamp, meta);
    var steps := WrittenSteps(head, x, y, show, parse);
    AbsorbComments(None, None, steps, |head|);
    AbsorbValues(None, None, x, y);
  }

  /** How the lines of a written file read: the comment lines, then one `Values` per row. */
  lemma WrittenSteps(head: seq<string>, x: seq<Point>, y: seq<Point>,
                     show: real -> string, parse: string -> Option<real>) returns (steps: seq<LineRead>)
    requires CommentLines(head) && forall k :: 0 <= k < |head| ==> NoNewline(head[k])
    requires |x| == |y|
    requires forall i :: 0 <= i < |x| ==> x[i].z == y[i].z && RowPrintable(show, parse, x[i], y[i])
    ensures steps == Reads(parse, Lines(Unlines(head + DataLines(show, x, y))))
    ensures |head| <= |steps| && (forall k :: 0 <= k < |head| ==> steps[k] == Comment)
    ensures steps[|head|..] == ValueSteps(x, y)
  {
    var data := DataLines(show, x, y);
    forall i | 0 <= i < |x|
      ensures NoNewline(data[i])
    {
      ReadRowLine(show, parse, x[i], y[i]);
    }
    var lines := LinesOfFile(head + data);
    steps := Reads(parse, lines);
    HeadSteps(parse, head, lines);
    DataSteps(show, parse, x, y, |head|, lines);
  }

  /** The lines of a file written line by line, each with its newline back. */
  lemma LinesOfFile(all: seq<string>) returns (lines: seq<string>)
    requires forall k :: 0 <= k < |all| ==> NoNewline(all[k])
    ensures lines == Lines(Unlines(all))
    ensures |lines| == |all| && forall k :: 0 <= k < |all| ==> lines[k] == all[k] + "\n"
  {
    LinesOfUnlines(all);
    lines := Lines(Unlines(all));
  }

  predicate CommentLines(head: seq<string>)
  {
    forall k :: 0 <= k < |head| ==> |head[k]| > 0 && head[k][0] == '#'
  }

  lemma HeadSteps(parse: string -> Option<real>, head: seq<string>, lines: seq<string>)
    requires CommentLines(head) && |head| <= |lines|
    requires forall k :: 0 <= k < |head| ==> lines[k] == head[k] + "\n"
    ensures forall k :: 0 <= k < |head| ==> Reads(parse, lines)[k] == Comment
  {
    forall k | 0 <= k < |head|
      ensures Reads(parse, lines)[k] == Comment
    {
      ReadComment(parse, head[k]);
    }
  }

  lemma DataSteps(show: real -> string, parse: string -> Option<real>, x: seq<Point>, y: seq<Point>, off: nat, lines: seq<string>)
    requires |x| == |y| && off + |x| == |lines|
    requires forall i :: 0 <= i < |x| ==> x[i].z == y[i].z && RowPrintable(show, parse, x[i], y[i])
    requires forall i :: 0 <= i < |x| ==> lines[off + i] == RowLine(show, x[i], y[i]) + "\n"
    ensures Reads(parse, lines)[off..] == ValueSteps(x, y)
  {
    var steps := Reads(parse, lines);
    forall i | 0 <= i < |x|
      ensures steps[off..][i] == ValueSteps(x, y)[i]
    {
      ReadRowLine(show, parse, x[i], y[i]);
    }
  }

  /** Axes of different lengths are written without rows, so nothing is read back. */
  lemma MismatchReadsNothing(target: Target, stamp: string, meta: Metadata, x: seq<Point>, y: seq<Point>,
                             show: real -> string, parse: string -> Option<real>)
    requires Opens(target) && HeaderPrintable(stamp, meta) && |x| != |y|
    ensures var w := WriteData(target, stamp, meta, Some(x), Some(y), show);
            w.result == Ok(Some(target.path))
            && ReadBack(None, None, parse, w.contents.value) == (None, None, None)
  {
    var w := WriteData(target, stamp, meta, Some(x), Some(y), show);
    assert Shape(x) != Shape(y);
    assert w.contents == Some(Unlines(HeaderLines(stamp, meta)));
    HeaderReadsNothing(stamp, meta, parse);
  }

  /** The header alone reads back as no data and no error. */
  lemma HeaderReadsNothing(stamp: string, meta: Metadata, parse: string -> Option<real>)
    requires HeaderPrintable(stamp, meta)
    ensures ReadBack(None, None, parse, Unlines(HeaderLines(stamp, meta))) == (None, None, None)
  {
    var head := HeaderLines(stamp, meta);
    HeaderOnlyComments(stamp, meta);
    var lines := LinesOfFile(head);
    HeadSteps(parse, head, lines);
    var steps := Reads(parse, lines);
    AbsorbComments(None, None, steps, |head|);
    assert steps[|head|..] == [];
  }

  lemma HeaderOnlyComments(stamp: string, meta: Metadata)
    requires HeaderPrintable(stamp, meta)
    ensures var h := HeaderLines(stamp, meta);
            CommentLines(h) && forall k :: 0 <= k < |h| ==> NoNewline(h[k])
  {
    var h := HeaderLines(stamp, meta);
    HeaderComments(stamp, meta);
    assert forall k :: 0 <= k < |h| ==> h[k] == (h + [ColumnHeader])[k];
  }

  // ---------------------------------------------------------------- the measurement object

  /**
   * The scan plan: the centre (searched or given), then the Rayleigh length
   * per axis (`RayleighPulses`), then the travel ladder. The search for the
   * Rayleigh length returns one length per axis of the centre it is given.
   */
  function Plan(center: Result<seq<int>>, given: Option<real>, umPerPulse: Option<real>, searched: Result<seq<int>>,
                lower: int, upper: int): (r: Result<seq<int>>)
    requires given.None? && center.Ok? && searched.Ok? ==> |searched.value| == |center.value|
    ensures center.Err? ==> r == Err(center.error)
    ensures center.Ok? && r.Err? ==> r.error != StageOutOfRangeError
    ensures center.Ok? && given.None? && searched == Err(StageOutOfRangeError) ==> r == Err(ConfigurationError)
    ensures r.Ok? ==> |r.value| > 0 && ScanPlan.Increasing(r.value) && forall x :: x in r.value ==> lower + 10 <= x <= upper - 10
  {
    if center.Err? then Err(center.error)
    else
      var radii := ScanPlan.RayleighPulses(|center.value|, given, umPerPulse, searched);
      if radii.Err? then Err(radii.error)
      else
        var axes := Paired(center.value, radii.value);
        ScanPlan.LadderWithinTravel(axes, lower, upper);
        ScanPlan.Ladder(axes, lower, upper)
  }

  /** Each axis's centre with its Rayleigh length, the `(center, R)` pairs of the plan. */
  function Paired(centers: seq<int>, radii: seq<int>): (axes: seq<(int, int)>)
    requires |centers| == |radii|
    ensures |axes| == |centers| && forall k :: 0 <= k < |axes| ==> axes[k] == (centers[k], radii[k])
  {
    seq(|centers|, k requires 0 <= k < |centers| => (centers[k], radii[k]))
  }

  /**
   * `Measurement`'s state: each axis's rows (`None` before the first), the
   * post-processing mode and threshold of the last run, and the raw log file
   * kept open during a run.
   */
  class Measurement {
    var xData: Option<seq<Point>>
    var yData: Option<seq<Point>>
    var removeOutliers: int
    var threshold: Option<real>
    var openedFile: Option<string>

    constructor()
      ensures xData.None? && yData.None?
      ensures removeOutliers == 0 && threshold == Some(0.2) && openedFile.None?
    {
      xData, yData := None, None;
      removeOutliers, threshold := 0, Some(0.2);
      openedFile := None;
    }

    /** One row stacked onto each axis. */
    method Append(px: Point, py: Point)
      modifies this
      ensures xData == Some(Stacked(old(xData), px)) && yData == Some(Stacked(old(yData), py))
      ensures removeOutliers == old(removeOutliers) && threshold == old(threshold) && openedFile == old(openedFile)
    {
      xData := Some(Stacked(xData, px));
      yData := Some(Stacked(yData, py));
    }

    /**
     * `take_measurements`: normalises the post-processing settings (with the
     * intended `OutlierMode` and `SpikeThreshold`: as written an invalid
     * setting raises `TypeError`, `NanoScan.SettingsAsWritten`), opens the
     * raw log, clears the data, plans the scan, measures both axes at every
     * point, closes the log and writes the data file with the run's metadata.
     * The centre search's outcome (or the given centre) is `center`, the
     * Rayleigh length search's outcome is `searched` and the caller's length
     * `given`; the camera is `measure`, and the Rayleigh length as printed is
     * `rayleighText`.
     */
    method TakeMeasurements(center: Result<seq<int>>, given: Option<real>, searched: Result<seq<int>>,
                            lower: int, upper: int, umPerPulse: Option<real>,
                            requestedMode: int, requestedThreshold: Option<real>,
                            measure: int -> (NanoScan.Stat, NanoScan.Stat), raw: Option<string>,
                            target: Target, stamp: string, user: Dict, nanoScan: bool, rayleighText: string,
                            show: real -> string)
      returns (r: Result<()>, file: Option<Written>)
      requires given.None? && center.Ok? && searched.Ok? ==> |searched.value| == |center.value|
      modifies this
      ensures removeOutliers == NanoScan.OutlierMode(requestedMode)
      ensures threshold == if removeOutliers == 2 then Some(NanoScan.SpikeThreshold(requestedThreshold)) else requestedThreshold
      ensures var plan := Plan(center, given, umPerPulse, searched, lower, upper);
              plan.Err? || umPerPulse.None? ==>
                && r == Err(if plan.Err? then plan.error else AttributeError)
                && xData.None? && yData.None? && file.None?
                && openedFile == if raw.Some? then raw else old(openedFile)
      ensures var plan := Plan(center, given, umPerPulse, searched, lower, upper);
              plan.Ok? && umPerPulse.Some? ==>
                && xData == Some(Scanned(plan.value, umPerPulse.value, measure, true))
                && yData == Some(Scanned(plan.value, umPerPulse.value, measure, false))
                && openedFile == (if raw.Some? then None else old(openedFile))
                && file == Some(WriteData(target, stamp,
                                          Entries(RunMetadata(rayleighText, user, raw, nanoScan, removeOutliers,
                                                              show(NanoScan.SpikeThreshold(requestedThreshold)))),
                                          xData, yData, show))
                && (r.Ok? <==> file.value.result.Ok?)
                && (r.Err? ==> r.error == file.value.result.error)
    {
      removeOutliers := NanoScan.OutlierMode(requestedMode);
      threshold := if removeOutliers == 2 then Some(NanoScan.SpikeThreshold(requestedThreshold)) else requestedThreshold;
      if raw.Some? {
        openedFile := raw;
      }
      xData, yData := None, None;
      var plan := Plan(center, given, umPerPulse, searched, lower, upper);
      if plan.Err? {
        return Err(plan.error), None;
      }
      if umPerPulse.None? {
        return Err(AttributeError), None;
      }
      var meta := RunMetadata(rayleighText, user, raw, nanoScan, removeOutliers,
                              show(NanoScan.SpikeThreshold(requestedThreshold)));
      r, file := ScanAndWrite(plan.value, umPerPulse.value, measure, raw.Some?, target, stamp, Entries(meta), show);
    }

    /**
     * The tail of `take_measurements` once the ladder is planned: scan it,
     * close the raw log if one was opened, and write the data out.
     */
    method ScanAndWrite(points: seq<int>, u: real, measure: int -> (NanoScan.Stat, NanoScan.Stat), closeRaw: bool,
                        target: Target, stamp: string, meta: Metadata, show: real -> string)
      returns (r: Result<()>, file: Option<Written>)
      requires |points| > 0 && xData.None? && yData.None?
      modifies this
      ensures xData == Some(Scanned(points, u, measure, true)) && yData == Some(Scanned(points, u, measure, false))
      ensures removeOutliers == old(removeOutliers) && threshold == old(threshold)
      ensures openedFile == if closeRaw then None else old(openedFile)
      ensures file == Some(WriteData(target, stamp, meta, xData, yData, show))
      ensures r.Ok? <==> file.value.result.Ok?
      ensures r.Err? ==> r.error == file.value.result.error
    {
      Scan(points, u, measure);
      if closeRaw {
        openedFile := None;
      }
      var w := WriteData(target, stamp, meta, xData, yData, show);
      file := Some(w);
      r := if w.result.Err? then Err(w.result.error) else Ok(());
    }

    /** The measuring loop of `take_measurements`: one row per axis at each point, in order. */
    method Scan(points: seq<int>, u: real, measure: int -> (NanoScan.Stat, NanoScan.Stat))
      requires |points| > 0 && xData.None? && yData.None?
      modifies this
      ensures xData == Some(Scanned(points, u, measure, true)) && yData == Some(Scanned(points, u, measure, false))
      ensures removeOutliers == old(removeOutliers) && threshold == old(threshold) && openedFile == old(openedFile)
    {
      ghost var xs, ys := Scanned(points, u, measure, true), Scanned(points, u, measure, false);
      var i := 0;
      while i < |points|
        invariant 0 <= i <= |points|
        invariant i == 0 ==> xData.None? && yData.None?
        invariant i > 0 ==> xData == Some(xs[..i]) && yData == Some(ys[..i])
        invariant removeOutliers == old(removeOutliers) && threshold == old(threshold) && openedFile == old(openedFile)
      {
        var (sx, sy) := measure(points[i]);
        assert xs[i] == RowAt(u, points[i], sx) && ys[i] == RowAt(u, points[i], sy);
        ghost var x0, y0 := xData, yData;
        Append(RowAt(u, points[i], sx), RowAt(u, points[i], sy));
        assert xData.value == Stacked(x0, xs[i]);
        assert xs[..i + 1] == (if i == 0 then [] else xs[..i]) + [xs[i]];
        assert ys[..i + 1] == (if i == 0 then [] else ys[..i]) + [ys[i]];
        assert yData.value == Stacked(y0, ys[i]);
        assert xData.value == xs[..i + 1] && yData.value == ys[..i + 1];
        i := i + 1;
      }
      assert xs[..i] == xs && ys[..i] == ys;
    }

    /**
     * `read_from_file`: a file that does not open logs a warning, or raises
     * `OSError` if asked to; otherwise its lines are read in turn onto the
     * data already there, and the first bad line raises, keeping the rows
     * read before it. The file's text is `text`; `None` stands for a file
     * that does not open.
     */
    method ReadFromFile(text: Option<string>, raiseError: bool, parse: string -> Option<real>) returns (r: Result<()>)
      modifies this
      ensures removeOutliers == old(removeOutliers) && threshold == old(threshold) && openedFile == old(openedFile)
      ensures text.None? ==> xData == old(xData) && yData == old(yData) && r == if raiseError then Err(OSError) else Ok(())
      ensures text.Some? ==>
                var b := ReadBack(old(xData), old(yData), parse, text.value);
                xData == b.0 && yData == b.1 && r == if b.2.None? then Ok(()) else Err(b.2.value)
    {
      if text.None? {
        return if raiseError then Err(OSError) else Ok(());
      }
      var lines := Lines(text.value);
      ghost var steps := Reads(parse, lines);
      ghost var whole := ReadBack(xData, yData, parse, text.value);
      var i := 0;
      while i < |lines|
        invariant 0 <= i <= |lines|
        invariant whole == Absorb(xData, yData, steps[i..])
        invariant removeOutliers == old(removeOutliers) && threshold == old(threshold) && openedFile == old(openedFile)
      {
        var step := ReadLine(parse, lines[i]);
        AbsorbStep(xData, yData, steps, i);
        match step {
          case Bad(e) =>
            return Err(e);
          case Comment =>
          case Values(px, py) =>
            Append(px, py);
        }
        i := i + 1;
      }
      assert steps[i..] == [];
      r := Ok(());
    }
  }

  /**
   * A scan of two points or more, written to a file that opens, reads back
   * as both axes' rows, provided every value prints as a field `float` reads
   * back exactly and no header text holds a newline.
   */
  lemma ScanReadsBack(points: seq<int>, u: real, measure: int -> (NanoScan.Stat, NanoScan.Stat),
                      target: Target, stamp: string, meta: Metadata,
                      show: real -> string, parse: string -> Option<real>)
    requires Opens(target) && HeaderPrintable(stamp, meta) && |points| >= 2
    requires forall i :: 0 <= i < |points| ==>
               RowPrintable(show, parse, Scanned(points, u, measure, true)[i], Scanned(points, u, measure, false)[i])
    ensures var x, y := Scanned(points, u, measure, true), Scanned(points, u, measure, false);
            var w := WriteData(target, stamp, meta, Some(x), Some(y), show);
            w.result == Ok(Some(target.path))
            && ReadBack(None, None, parse, w.contents.value) == (Some(x), Some(y), None)
  {
    var x, y := Scanned(points, u, measure, true), Scanned(points, u, measure, false);
    forall i | 0 <= i < |x|
      ensures x[i].z == y[i].z
    {
      ScannedPositions(points, u, measure, true, i);
    }
    ReadWritten(target, stamp, meta, x, y, show, parse);
  }

  /** One pass of the read loop, in terms of what is left of the file. */
  lemma AbsorbStep(x: Option<seq<Point>>, y: Option<seq<Point>>, steps: seq<LineRead>, i: nat)
    requires i < |steps|
    ensures steps[i].Comment? ==> Absorb(x, y, steps[i..]) == Absorb(x, y, steps[i + 1..])
    ensures steps[i].Bad? ==> Absorb(x, y, steps[i..]) == (x, y, Some(steps[i].error))
    ensures steps[i].Values? ==>
              Absorb(x, y, steps[i..]) == Absorb(Some(Stacked(x, steps[i].x)), Some(Stacked(y, steps[i].y)), steps[i + 1..])
  {
    assert steps[i..][1..] == steps[i + 1..];
  }
}
