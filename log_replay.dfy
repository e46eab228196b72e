/**
 * The log replay of tests/outlier/process_fullrun.py: it walks a measurement
 * log line by line and rebuilds, for every scan point, the average and
 * population deviation of every reading the camera logged, including the
 * warm-up readings the camera itself discards.
 *
 * `x, y = ast.literal_eval(xy)` on the logged pair is the parameter `eval`,
 * which says whether the text unpacks to a pair or which of the ways it
 * fails it takes; the positions column read from the data file is the
 * parameter `positions`.
 */
module LogReplay {
  import opened Errors
  import opened RealMath
  import opened PyStrings
  import opened Stats
  import opened NanoScanConstants
  import opened NanoScan

  /** One written row: the position and, per axis, mean and deviation; `None` where numpy gives `nan`. */
  datatype Row = Row(position: real, x: Option<Stat>, y: Option<Stat>)

  /** The script's variables: `datapoint` (`None` before the first Point line), the counter `i`, the rows written. */
  datatype State = State(datapoint: Option<seq<Reading>>, i: nat, rows: seq<Row>)

  const Start := State(None, 0, [])

  /** `line[:n] == p` for the prefix `p` of length `n`. */
  predicate StartsWith(line: string, p: string)
  {
    |line| >= |p| && line[..|p|] == p
  }

  predicate IsPoint(line: string)
  {
    StartsWith(line, "INFO: Point")
  }

  predicate IsReading(line: string)
  {
    StartsWith(line, "DEBUG: Got 1 Reading")
  }

  predicate IsAverage(line: string)
  {
    StartsWith(line, "DEBUG: average")
  }

  /** The three kinds of line exclude each other, so at most one of the script's three tests holds. */
  lemma KindsExclusive(line: string)
    ensures !(IsPoint(line) && IsReading(line))
    ensures !(IsPoint(line) && IsAverage(line))
    ensures !(IsReading(line) && IsAverage(line))
  {
    assert IsPoint(line) ==> line[0] == "INFO: Point"[0];
    assert IsReading(line) ==> line[0] == "DEBUG: Got 1 Reading"[0] && line[7] == "DEBUG: Got 1 Reading"[7];
    assert IsAverage(line) ==> line[0] == "DEBUG: average"[0] && line[7] == "DEBUG: average"[7];
  }

  /**
   * What `x, y = ast.literal_eval(xy)` makes of the text: a pair of numbers,
   * text that does not parse, an expression that is not a literal, a literal
   * that cannot be iterated, or one with other than two items.
   */
  datatype Evaluated = Evaluated(xy: Reading) | Unparsable | NotALiteral | NotIterable | WrongCount

  /** The outcome of the assignment: the pair, or the exception Python raises. */
  function Unpacked(e: Evaluated): (r: Result<Reading>)
    ensures r.Ok? <==> e.Evaluated?
    ensures r.Ok? ==> r.value == e.xy
    ensures r.Err? ==> r.error in {SyntaxError, ValueError, TypeError}
    ensures e.Unparsable? <==> r == Err(SyntaxError)
    ensures e.NotIterable? <==> r == Err(TypeError)
  {
    match e
    case Evaluated(xy) => Ok(xy)
    case Unparsable => Err(SyntaxError)
    case NotALiteral => Err(ValueError)
    case NotIterable => Err(TypeError)
    case WrongCount => Err(ValueError)
  }

  /** The pair a reading line carries: the text after the first `(x, y): `, evaluated and unpacked. */
  function Pair(eval: string -> Evaluated, line: string): (r: Result<Reading>)
    ensures r.Err? ==> r.error in {IndexError, SyntaxError, ValueError, TypeError}
    ensures r.Err? && r.error == IndexError <==> !Contains(line, "(x, y): ")
  {
    var parts := SplitOn(line, "(x, y): ");
    assert Contains(line, "(x, y): ") ==> |parts| >= 2 by {
      if Contains(line, "(x, y): ") {
        SplitAtFirst(line, "(x, y): ");
      }
    }
    if |parts| < 2 then Err(IndexError)
    else
      Unpacked(eval(parts[1]))
  }

  /** A log line by the test it passes once stripped; a reading line carries its evaluated pair. */
  datatype Line = PointLine | ReadingLine(pair: Result<Reading>) | AverageLine | OtherLine

  function Classify(eval: string -> Evaluated, raw: string): (l: Line)
    ensures l.PointLine? <==> IsPoint(Strip(raw))
    ensures l.ReadingLine? <==> IsReading(Strip(raw))
    ensures l.AverageLine? <==> IsAverage(Strip(raw))
  {
    var line := Strip(raw);
    KindsExclusive(line);
    if IsPoint(line) then PointLine
    else if IsReading(line) then ReadingLine(Pair(eval, line))
    else if IsAverage(line) then AverageLine
    else OtherLine
  }

  function Classified(eval: string -> Evaluated, lines: seq<string>): (ls: seq<Line>)
    ensures |ls| == |lines| && forall k :: 0 <= k < |lines| ==> ls[k] == Classify(eval, lines[k])
  {
    seq(|lines|, k requires 0 <= k < |lines| => Classify(eval, lines[k]))
  }

  /** The camera's log line for one reading: `Got 1 Reading of (x, y): ` and the pair, at DEBUG level. */
  function LoggedLine(literal: string): string
  {
    "DEBUG: Got 1 Reading of (x, y): " + literal + "\n"
  }

  /** The replay reads back exactly the pair the camera logged. */
  lemma LoggedReading(eval: string -> Evaluated, literal: string)
    requires |literal| > 0 && !IsSpace(literal[|literal| - 1]) && !Contains(literal, "(x, y): ")
    ensures Classify(eval, LoggedLine(literal))
            == ReadingLine(Unpacked(eval(literal)))
  {
    var line := "DEBUG: Got 1 Reading of " + "(x, y): " + literal;
    assert LoggedLine(literal) == line + "\n";
    StripNewline(line);
    assert line[..20] == "DEBUG: Got 1 Reading";
    KindsExclusive(line);
    LoggedPair(eval, literal);
  }

  /** The logged pair is the text after the first `(x, y): `. */
  lemma LoggedPair(eval: string -> Evaluated, literal: string)
    requires !Contains(literal, "(x, y): ")
    ensures Pair(eval, "DEBUG: Got 1 Reading of " + "(x, y): " + literal)
            == Unpacked(eval(literal))
  {
    var marker := "(x, y): ";
    var line := "DEBUG: Got 1 Reading of " + marker + literal;
    MarkerFirstAt(literal);
    SplitAtFirst(line, marker);
    assert line[32..] == literal;
  }

  /** In a logged reading line the marker first occurs right after the prefix. */
  lemma MarkerFirstAt(literal: string)
    ensures Find("DEBUG: Got 1 Reading of " + "(x, y): " + literal, "(x, y): ") == 24
  {
    var prefix := "DEBUG: Got 1 Reading of ";
    var marker := "(x, y): ";
    var line := prefix + marker + literal;
    assert OccursAt(line, marker, 24);
    forall j | 0 <= j < 24
      ensures !OccursAt(line, marker, j)
    {
      assert line[j] == prefix[j];
      assert prefix[j] != '(';
      assert j + 8 <= |line| ==> line[j..j + 8][0] == line[j];
    }
  }

  /** Mean and population deviation of one column, or `nan` for an empty one. */
  function Averaged(m: Oracle, column: seq<real>): (r: Option<Stat>)
    ensures r.Some? <==> |column| > 0
  {
    if |column| == 0 then None else Some(ColumnStat(m, column))
  }

  /** What one line of the log does to the script's variables, or the exception it raises. */
  function Step(m: Oracle, positions: seq<real>, st: State, l: Line): Result<State>
  {
    match l
    case PointLine => Ok(st.(datapoint := Some([])))
    case OtherLine => Ok(st)
    case ReadingLine(pair) =>
      if pair.Err? then Err(pair.error)
      else if st.datapoint.None? then Err(TypeError)
      else Ok(st.(datapoint := Some(st.datapoint.value + [pair.value])))
    case AverageLine =>
      if st.datapoint.None? then Err(TypeError)
      else if st.i >= |positions| then Err(IndexError)
      else
        var ds := st.datapoint.value;
        var row := Row(positions[st.i], Averaged(m, XColumn(ds)), Averaged(m, YColumn(ds)));
        Ok(st.(i := st.i + 1, rows := st.rows + [row]))
  }

  /** The whole loop from state `st`: the last state reached and the exception that ended it, if any. */
  function Run(m: Oracle, positions: seq<real>, st: State, ls: seq<Line>): (r: (State, Option<Error>))
    ensures |st.rows| <= |r.0.rows| && r.0.rows[..|st.rows|] == st.rows
    decreases |ls|
  {
    if |ls| == 0 then (st, None)
    else
      var next := Step(m, positions, st, ls[0]);
      if next.Err? then (st, Some(next.error))
      else
        var r := Run(m, positions, next.value, ls[1..]);
        assert next.value.rows[..|st.rows|] == st.rows;
        r
  }

  /** The rows the script writes for a log, and the exception that stops it, if any. */
  function Replay(m: Oracle, positions: seq<real>, eval: string -> Evaluated, lines: seq<string>): (seq<Row>, Option<Error>)
  {
    var r := Run(m, positions, Start, Classified(eval, lines));
    (r.0.rows, r.1)
  }

  /** The script's loop; rows written before an exception stay in the output file. */
  method ReplayLog(m: Oracle, positions: seq<real>, eval: string -> Evaluated, lines: seq<string>)
    returns (rows: seq<Row>, failure: Option<Error>)
    ensures (rows, failure) == Replay(m, positions, eval, lines)
  {
    ghost var ls := Classified(eval, lines);
    var st := Start;
    failure := None;
    var k := 0;
    assert ls[0..] == ls;
    while k < |lines|
      invariant 0 <= k <= |lines|
      invariant Run(m, positions, Start, ls) == Run(m, positions, st, ls[k..])
    {
      RunStep(m, positions, st, ls, k);
      var next := ProcessLine(m, positions, eval, st, lines[k]);
      if next.Err? {
        rows, failure := st.rows, Some(next.error);
        return;
      }
      st := next.value;
      k := k + 1;
    }
    assert ls[k..] == [];
    rows := st.rows;
  }

  /** The body of the script's loop for one raw line: the variables it leaves, or the exception. */
  method ProcessLine(m: Oracle, positions: seq<real>, eval: string -> Evaluated, st: State, raw: string)
    returns (next: Result<State>)
    ensures next == Step(m, positions, st, Classify(eval, raw))
  {
    var datapoint, i, rows := st.datapoint, st.i, st.rows;
    var line := Strip(raw);
    KindsExclusive(line);
    ghost var l := Classify(eval, raw);
    if IsPoint(line) {
      assert l == PointLine;
      datapoint := Some([]);
    }
    if IsReading(line) {
      var xy := Pair(eval, line);
      assert l == ReadingLine(xy);
      if xy.Err? {
        return Err(xy.error);
      }
      if datapoint.None? {
        return Err(TypeError);
      }
      datapoint := Some(datapoint.value + [xy.value]);
    }
    if IsAverage(line) {
      assert l == AverageLine;
      if datapoint.None? {
        return Err(TypeError);
      }
      var ds := datapoint.value;
      var xs, ys := Averaged(m, XColumn(ds)), Averaged(m, YColumn(ds));
      if i >= |positions| {
        return Err(IndexError);
      }
      rows := rows + [Row(positions[i], xs, ys)];
      i := i + 1;
    }
    next := Ok(State(datapoint, i, rows));
  }

  /** One step of `Run` on the lines from `k` on. */
  lemma RunStep(m: Oracle, positions: seq<real>, st: State, ls: seq<Line>, k: nat)
    requires k < |ls|
    ensures var next := Step(m, positions, st, ls[k]);
            Run(m, positions, st, ls[k..])
            == if next.Err? then (st, Some(next.error)) else Run(m, positions, next.value, ls[k + 1..])
  {
    assert ls[k..][0] == ls[k];
    assert ls[k..][1..] == ls[k + 1..];
  }

  // ---------------------------------------------------------------- rows and positions

  /** Row `k` was written for `positions[k]`, one row per counted average. */
  predicate Paired(positions: seq<real>, st: State)
  {
    st.i == |st.rows| <= |positions| && forall k :: 0 <= k < |st.rows| ==> st.rows[k].position == positions[k]
  }

  /** How many average lines a log holds. */
  function Averages(ls: seq<Line>): (n: nat)
    ensures n <= |ls|
  {
    if |ls| == 0 then 0 else (if ls[0].AverageLine? then 1 else 0) + Averages(ls[1..])
  }

  /**
   * Rows pair one to one with the positions, in order: row `k` carries
   * `positions[k]`; without an exception there is one row per average line.
   */
  lemma {:induction false} RowsFollowPositions(m: Oracle, positions: seq<real>, st: State, ls: seq<Line>)
    requires Paired(positions, st)
    ensures var r := Run(m, positions, st, ls);
            Paired(positions, r.0)
            && (r.1 == None ==> |r.0.rows| == |st.rows| + Averages(ls))
    decreases |ls|
  {
    if |ls| > 0 {
      var next := Step(m, positions, st, ls[0]);
      if next.Ok? {
        assert Paired(positions, next.value);
        assert |next.value.rows| == |st.rows| + (if ls[0].AverageLine? then 1 else 0);
        RowsFollowPositions(m, positions, next.value, ls[1..]);
      }
    }
  }

  /** The whole log: row `k` is written for `positions[k]`, and there are as many rows as average lines. */
  lemma ReplayRows(m: Oracle, positions: seq<real>, eval: string -> Evaluated, lines: seq<string>)
    ensures var (rows, failure) := Replay(m, positions, eval, lines);
            |rows| <= |positions| && (forall k :: 0 <= k < |rows| ==> rows[k].position == positions[k])
            && (failure == None ==> |rows| == Averages(Classified(eval, lines)))
  {
    RowsFollowPositions(m, positions, Start, Classified(eval, lines));
  }

  // ---------------------------------------------------------------- ordering

  /** A reading or average line met while `datapoint` is `None` and before any Point line raises. */
  lemma {:induction false} NoPointFails(m: Oracle, positions: seq<real>, st: State, ls: seq<Line>, j: nat)
    requires st.datapoint.None?
    requires j < |ls| && (ls[j].ReadingLine? || ls[j].AverageLine?)
    requires forall k :: 0 <= k < j ==> ls[k].OtherLine?
    ensures Run(m, positions, st, ls).1.Some?
    decreases j
  {
    if j > 0 {
      assert Step(m, positions, st, ls[0]) == Ok(st);
      NoPointFails(m, positions, st, ls[1..], j - 1);
    }
  }

  /** In a log whose first reading or average line comes before any Point line, the replay raises. */
  lemma ReadingBeforePoint(m: Oracle, positions: seq<real>, eval: string -> Evaluated, lines: seq<string>, j: nat)
    requires j < |lines| && (IsReading(Strip(lines[j])) || IsAverage(Strip(lines[j])))
    requires forall k :: 0 <= k < j ==> !IsPoint(Strip(lines[k])) && !IsReading(Strip(lines[k])) && !IsAverage(Strip(lines[k]))
    ensures Replay(m, positions, eval, lines).1.Some?
  {
    NoPointFails(m, positions, Start, Classified(eval, lines), j);
  }

  // ---------------------------------------------------------------- the rebuilt averages

  /** The readings of one point run through the replay: each is appended, none is dropped. */
  lemma {:induction false} ReadingsAppended(m: Oracle, positions: seq<real>, st: State, ls: seq<Line>, ps: seq<Reading>)
    requires st.datapoint.Some? && |ls| == |ps|
    requires forall k :: 0 <= k < |ls| ==> ls[k] == ReadingLine(Ok(ps[k]))
    ensures Run(m, positions, st, ls) == (st.(datapoint := Some(st.datapoint.value + ps)), None)
    decreases |ls|
  {
    if |ls| == 0 {
      assert st.datapoint.value + ps == st.datapoint.value;
    } else {
      var st' := st.(datapoint := Some(st.datapoint.value + [ps[0]]));
      assert Step(m, positions, st, ls[0]) == Ok(st');
      ReadingsAppended(m, positions, st', ls[1..], ps[1..]);
      assert (st.datapoint.value + [ps[0]]) + ps[1..] == st.datapoint.value + ps;
    }
  }

  /** Running two pieces of a log one after the other. */
  lemma {:induction false} RunAppend(m: Oracle, positions: seq<real>, st: State, a: seq<Line>, b: seq<Line>)
    ensures var ra := Run(m, positions, st, a);
            Run(m, positions, st, a + b) == if ra.1.Some? then ra else Run(m, positions, ra.0, b)
    decreases |a|
  {
    if |a| == 0 {
      assert a + b == b;
    } else {
      assert (a + b)[0] == a[0];
      assert (a + b)[1..] == a[1..] + b;
      var next := Step(m, positions, st, a[0]);
      if next.Ok? {
        RunAppend(m, positions, next.value, a[1..], b);
      }
    }
  }

  /**
   * A Point line, the lines of its readings, and an average line write one
   * row: the next position and the mean and population deviation of every
   * one of those readings per axis.
   */
  lemma PointBlock(m: Oracle, positions: seq<real>, st: State, readings: seq<Line>, ps: seq<Reading>)
    requires st.i < |positions|
    requires |readings| == |ps| && forall k :: 0 <= k < |readings| ==> readings[k] == ReadingLine(Ok(ps[k]))
    ensures var r := Run(m, positions, st, [PointLine] + readings + [AverageLine]);
            r.1 == None
            && r.0.rows == st.rows + [Row(positions[st.i], Averaged(m, XColumn(ps)), Averaged(m, YColumn(ps)))]
            && r.0.i == st.i + 1
  {
    var ls := [PointLine] + readings + [AverageLine];
    var st1 := st.(datapoint := Some([]));
    assert Step(m, positions, st, PointLine) == Ok(st1);
    assert ls[1..] == readings + [AverageLine];
    RunAppend(m, positions, st1, readings, [AverageLine]);
    ReadingsAppended(m, positions, st1, readings, ps);
    assert [] + ps == ps;
    var st2 := st1.(datapoint := Some(ps));
    assert Run(m, positions, st2, [AverageLine]).0 == Step(m, positions, st2, AverageLine).value;
  }

  /**
   * The camera logs all `numsamples + 10` readings of a point, so the rebuilt
   * row averages all of them, while the camera's own average skips the first ten.
   */
  lemma WarmUpIncluded(m: Oracle, positions: seq<real>, st: State, logged: seq<Line>,
                       numsamples: nat, readings: seq<Reading>, threshold: Option<real>, f: PeakFinder)
    requires InteriorPeaks(f) && 0 < numsamples && |readings| == numsamples + 10 && st.i < |positions|
    requires |logged| == |readings| && forall k :: 0 <= k < |logged| ==> logged[k] == ReadingLine(Ok(readings[k]))
    ensures var rows := Run(m, positions, st, [PointLine] + logged + [AverageLine]).0.rows;
            var camera := AxisAverage(m, false, Axis(BOTH), numsamples, 0, threshold, readings, f);
            |rows| == |st.rows| + 1
            && rows[|st.rows|].x == Some(ColumnStat(m, XColumn(readings)))
            && rows[|st.rows|].y == Some(ColumnStat(m, YColumn(readings)))
            && camera == Ok(Both(ColumnStat(m, XColumn(readings[10..])), ColumnStat(m, YColumn(readings[10..]))))
  {
    PointBlock(m, positions, st, logged, readings);
  }

  /**
   * The rebuilt average is not the camera's: with ten warm-up readings of 0
   * and the rest 1 on the X axis, the row's mean is below 1 and the camera's is 1.
   */
  lemma WarmUpShiftsMean(readings: seq<Reading>, numsamples: nat)
    requires 0 < numsamples && |readings| == numsamples + 10
    requires forall k :: 0 <= k < 10 ==> readings[k].x == 0.0
    requires forall k :: 10 <= k < |readings| ==> readings[k].x == 1.0
    ensures Mean(XColumn(readings)) < 1.0 && Mean(XColumn(readings[10..])) == 1.0
  {
    var xs := XColumn(readings);
    assert XColumn(readings[10..]) == xs[10..];
    MeanConstant(xs[10..], 1.0);
    SumSplit(xs, 10);
    SumConstant(xs[..10], 0.0);
    SumConstant(xs[10..], 1.0);
    assert Sum(xs) == numsamples as real;
    var n := |xs| as real;
    assert Mean(xs) * n == numsamples as real;
    assert numsamples as real < n;
  }

  /** The sum of a column is the sum of its two parts. */
  lemma {:induction false} SumSplit(s: seq<real>, k: nat)
    requires k <= |s|
    ensures Sum(s) == Sum(s[..k]) + Sum(s[k..])
    decreases |s|
  {
    if |s| > k {
      SumSplit(s[..|s| - 1], k);
      assert s[..|s| - 1][..k] == s[..k];
      assert s[k..][..|s[k..]| - 1] == s[..|s| - 1][k..];
    } else {
      assert s[..k] == s;
    }
  }
}
