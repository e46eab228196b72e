/**
 * The C# wrapper generator (src/cameras/csharp/NanoScanLibrary/generate.py).
 * Each `static extern` declaration read from the interop file becomes one
 * public wrapper method: the `NsInterop` prefix (or suffix) is dropped from
 * the name, the parameter list is copied, and the call passes the last word
 * of each parameter.
 */
module WrapperGen {
  import opened Errors
  import opened PyStrings

  /** The parts of one generated wrapper. */
  datatype Wrapper = Wrapper(returnType: string, name: string, params: string, target: string, args: string)

  /** `my_func`: the text after `NsInterop`, or the text before it when nothing follows. */
  function WrapperName(funcName: string): (r: Result<string>)
    ensures r.Err? <==> !Contains(funcName, "NsInterop")
    ensures r.Err? ==> r.error == IndexError
  {
    var temp := SplitOn(funcName, "NsInterop");
    assert Contains(funcName, "NsInterop") ==> |temp| >= 2 by {
      if Contains(funcName, "NsInterop") {
        SplitAtFirst(funcName, "NsInterop");
      }
    }
    if |temp| < 2 then Err(IndexError)
    else Ok(if temp[1] != "" then temp[1] else temp[0])
  }

  /** The argument passed for one parameter: its last space-separated word. */
  function ArgOf(param: string): (a: string)
    ensures ' ' !in a
  {
    var words := SplitChar(param, ' ');
    words[|words| - 1]
  }

  /** `params_2`: the arguments of the call, joined with `", "`. */
  function ArgsOf(params: string): string
  {
    var pieces := SplitChar(params, ',');
    Join(seq(|pieces|, k requires 0 <= k < |pieces| => ArgOf(pieces[k])), ", ")
  }

  /** `params`: the text between the first `(` and the next `(` or `)`. */
  function ParamsOf(line: string): (r: Result<string>)
    ensures r.Err? <==> '(' !in line
    ensures r.Err? ==> r.error == IndexError
  {
    var open := SplitChar(line, '(');
    if |open| < 2 then Err(IndexError)
    else Ok(SplitChar(open[1], ')')[0])
  }

  /** One selected line, already stripped, turned into a wrapper; the source's exceptions become errors. */
  function Parse(line: string): (r: Result<Wrapper>)
    ensures r.Err? ==> r.error in {ValueError, IndexError}
  {
    var splitted := SplitWs(line);
    var t := IndexOf(splitted, "extern");
    if t.Err? then Err(ValueError)
    else if t.value + 2 >= |splitted| then Err(IndexError)
    else
      Assemble(line, splitted[t.value + 1], SplitChar(splitted[t.value + 2], '(')[0])
  }

  /** The rest of `parse` once the words are found: the wrapper name from `funcName`, the parameters from `line`. */
  function Assemble(line: string, returnType: string, funcName: string): (r: Result<Wrapper>)
    ensures r.Err? <==> !Contains(funcName, "NsInterop") || '(' !in line
    ensures r.Err? ==> r.error == IndexError
    ensures r.Ok? ==> r.value.returnType == returnType && r.value.target == funcName
  {
    var name := WrapperName(funcName);
    if name.Err? then Err(IndexError)
    else
      var params := ParamsOf(line);
      if params.Err? then Err(IndexError)
      else Ok(Wrapper(returnType, name.value, params.value, funcName, ArgsOf(params.value)))
  }

  /** The opening of the printed method, up to the brace. */
  function Head(w: Wrapper): string
  {
    "public " + w.returnType + " " + w.name + " (" + w.params + ") { "
  }

  /** The printed method: `public T Name (params) { return Target(args); }`, without `return ` for `void`. */
  function Render(w: Wrapper): string
  {
    Head(w) + (if w.returnType != "void" then "return " else "") + w.target + "(" + w.args + "); }"
  }

  /** The line filter: a stripped line that is not empty and contains `static extern`. */
  predicate Selected(raw: string)
  {
    var line := Strip(raw);
    line != "" && Contains(line, "static extern")
  }

  function Filter(lines: seq<string>): (r: seq<string>)
    ensures |r| <= |lines|
    ensures forall k :: 0 <= k < |r| ==> Selected(r[k])
  {
    if |lines| == 0 then []
    else if Selected(lines[0]) then [lines[0]] + Filter(lines[1..])
    else Filter(lines[1..])
  }

  /** What one line of the file contributes: nothing, one printed method, or the exception it raises. */
  function Emit(raw: string): (r: Option<Result<string>>)
    ensures r.Some? <==> Selected(raw)
    ensures r.Some? && r.value.Err? ==> r.value.error in {ValueError, IndexError}
  {
    if !Selected(raw) then None
    else
      var w := Parse(Strip(raw));
      if w.Err? then Some(Err(w.error)) else Some(Ok(Render(w.value)))
  }

  /** The printed methods up to the first exception, and that exception if there is one. */
  function Collect(steps: seq<Option<Result<string>>>): (r: (seq<string>, Option<Error>))
    ensures |r.0| <= |steps|
    ensures r.1.Some? ==> Some(Err(r.1.value)) in steps
  {
    if |steps| == 0 then ([], None)
    else
      var rest := Collect(steps[1..]);
      match steps[0]
      case None => rest
      case Some(Err(e)) => ([], Some(e))
      case Some(Ok(t)) => ([t] + rest.0, rest.1)
  }

  function Emits(lines: seq<string>): (r: seq<Option<Result<string>>>)
    ensures |r| == |lines| && forall k :: 0 <= k < |lines| ==> r[k] == Emit(lines[k])
  {
    seq(|lines|, k requires 0 <= k < |lines| => Emit(lines[k]))
  }

  /**
   * What the script prints for the lines of the interop file: one method per
   * selected line, up to the first line that raises, and that exception.
   */
  function Generate(lines: seq<string>): (r: (seq<string>, Option<Error>))
    ensures r.1.Some? ==> r.1.value in {ValueError, IndexError}
  {
    var steps := Emits(lines);
    var r := Collect(steps);
    assert r.1.Some? ==> exists k :: 0 <= k < |lines| && steps[k] == Some(Err(r.1.value));
    r
  }

  /** The script's loop over the file, printing as it goes. */
  method GenerateAll(lines: seq<string>) returns (printed: seq<string>, failure: Option<Error>)
    ensures (printed, failure) == Generate(lines)
  {
    ghost var steps := Emits(lines);
    printed := [];
    failure := None;
    var i := 0;
    assert steps[0..] == steps;
    while i < |lines|
      invariant 0 <= i <= |lines|
      invariant printed + Collect(steps[i..]).0 == Collect(steps).0
      invariant Collect(steps[i..]).1 == Collect(steps).1
      invariant failure == None
    {
      CollectStep(steps, i);
      var step := EmitLine(lines[i]);
      assert steps[i] == step;
      if step.Some? {
        if step.value.Err? {
          failure := Some(step.value.error);
          assert printed + [] == printed;
          return;
        }
        AppendAssoc(printed, [step.value.value], Collect(steps[i + 1..]).0);
        printed := printed + [step.value.value];
      }
      i := i + 1;
    }
    assert steps[i..] == [];
    assert printed + [] == printed;
  }

  /** The loop body for one line: the method it prints, the exception it raises, or nothing. */
  method EmitLine(raw: string) returns (r: Option<Result<string>>)
    ensures r == Emit(raw)
  {
    var line := Strip(raw);
    r := None;
    if line != "" && Contains(line, "static extern") {
      var w := Parse(line);
      if w.Err? {
        return Some(Err(w.error));
      }
      r := Some(Ok(Render(w.value)));
    }
  }

  lemma AppendAssoc(a: seq<string>, b: seq<string>, c: seq<string>)
    ensures (a + b) + c == a + (b + c)
  {
  }

  /** One step of `Collect` on the steps from `i` on. */
  lemma CollectStep(steps: seq<Option<Result<string>>>, i: nat)
    requires i < |steps|
    ensures var now, later := Collect(steps[i..]), Collect(steps[i + 1..]);
            now == match steps[i]
                   case None => later
                   case Some(Err(e)) => ([], Some(e))
                   case Some(Ok(t)) => ([t] + later.0, later.1)
  {
    assert steps[i..][0] == steps[i];
    assert steps[i..][1..] == steps[i + 1..];
  }

  // ---------------------------------------------------------------- properties

  /** `out` holds, in order, the printed method of each line of `sel`, none of which raises. */
  predicate PrintsEach(out: seq<string>, sel: seq<string>)
  {
    AllPrinted(Emits(sel), out)
  }

  /** Every step prints, and `out` holds what each prints. */
  predicate AllPrinted(steps: seq<Option<Result<string>>>, out: seq<string>)
  {
    |steps| == |out| && forall k :: 0 <= k < |out| ==> steps[k] == Some(Ok(out[k]))
  }

  /** Without an error, there is exactly one printed method per selected line, in order. */
  lemma {:induction false} OnePerSelectedLine(lines: seq<string>)
    requires Generate(lines).1 == None
    ensures PrintsEach(Generate(lines).0, Filter(lines))
  {
    if |lines| > 0 {
      GenerateCons(lines);
      OnePerSelectedLine(lines[1..]);
      if Selected(lines[0]) {
        PrintsCons(lines[0], Emit(lines[0]).value.value, Generate(lines[1..]).0, Filter(lines[1..]));
      }
    }
  }

  /** `Generate` on a nonempty file: the first line's contribution, then the rest. */
  lemma GenerateCons(lines: seq<string>)
    requires |lines| > 0
    ensures var rest := Generate(lines[1..]);
            Generate(lines) == match Emit(lines[0])
                               case None => rest
                               case Some(Err(e)) => ([], Some(e))
                               case Some(Ok(t)) => ([t] + rest.0, rest.1)
  {
    assert Emits(lines)[1..] == Emits(lines[1..]);
  }

  lemma PrintsCons(x: string, t: string, out: seq<string>, sel: seq<string>)
    requires Emit(x) == Some(Ok(t)) && PrintsEach(out, sel)
    ensures PrintsEach([t] + out, [x] + sel)
  {
    EmitsCons(x, sel);
    AllPrintedCons(Emit(x), Emits(sel), t, out);
  }

  lemma EmitsCons(x: string, sel: seq<string>)
    ensures Emits([x] + sel) == [Emit(x)] + Emits(sel)
  {
    var lines := [x] + sel;
    assert forall k :: 1 <= k < |lines| ==> lines[k] == sel[k - 1];
  }

  lemma AllPrintedCons(s: Option<Result<string>>, steps: seq<Option<Result<string>>>, t: string, out: seq<string>)
    requires s == Some(Ok(t)) && AllPrinted(steps, out)
    ensures AllPrinted([s] + steps, [t] + out)
  {
    var l, r := [s] + steps, [t] + out;
    forall k | 0 <= k < |r|
      ensures l[k] == Some(Ok(r[k]))
    {
      if k > 0 {
        assert l[k] == steps[k - 1] && r[k] == out[k - 1];
      }
    }
  }

  /** `NsInteropGetGain` wraps as `GetGain`: the text after the prefix. */
  lemma NameAfterPrefix(rest: string)
    requires rest != "" && !Contains(rest, "NsInterop")
    ensures WrapperName("NsInterop" + rest) == Ok(rest)
  {
    var s := "NsInterop" + rest;
    assert OccursAt(s, "NsInterop", 0);
    assert s[9..] == rest;
    SplitAtFirst(s, "NsInterop");
  }

  /** `InitNsInterop` wraps as `Init`: nothing follows the first `NsInterop`, so the text before it is used. */
  lemma NameBeforeSuffix(front: string)
    requires front != "" && Find(front + "NsInterop", "NsInterop") == |front|
    ensures WrapperName(front + "NsInterop") == Ok(front)
  {
    var s := front + "NsInterop";
    assert s[..|front|] == front;
    assert s[|front| + 9..] == "";
    assert !Contains("", "NsInterop");
    SplitAtFirst(s, "NsInterop");
  }

  /** The argument of `ref float x` is `x`: modifiers before the last word are dropped. */
  lemma ArgIsLastWord(front: string, x: string)
    requires ' ' !in x
    ensures ArgOf(front + " " + x) == x
  {
    LastPiece(front, ' ', x);
  }

  /**
   * Declarations `types[k] + " " + names[k]` joined with `,` pass exactly the
   * names, joined with `", "`.
   */
  lemma ArgsPassNames(types: seq<string>, names: seq<string>)
    requires |types| == |names| >= 1
    requires forall k :: 0 <= k < |types| ==> ',' !in types[k] && ',' !in names[k] && ' ' !in names[k]
    ensures ArgsOf(Join(seq(|types|, k requires 0 <= k < |types| => types[k] + " " + names[k]), ",")) == Join(names, ", ")
  {
    var decls := seq(|types|, k requires 0 <= k < |types| => types[k] + " " + names[k]);
    forall k | 0 <= k < |decls|
      ensures ',' !in decls[k]
    {
      assert decls[k] == types[k] + " " + names[k];
    }
    SplitJoinChar(decls, ',');
    var args := seq(|decls|, k requires 0 <= k < |decls| => ArgOf(decls[k]));
    forall k | 0 <= k < |decls|
      ensures args[k] == names[k]
    {
      ArgIsLastWord(types[k], names[k]);
    }
    assert args == names;
  }

  /** An empty parameter list, as in `Init()`, passes no arguments. */
  lemma NoParamsNoArgs()
    ensures ArgsOf("") == ""
  {
    SingleChar("", ',');
    SingleChar("", ' ');
  }

  /** A declaration whose line ends at its only `(` has empty parameters and passes no arguments. */
  lemma LineEndingAtOpen(front: string)
    requires '(' !in front
    ensures ParamsOf(front + "(") == Ok("")
    ensures ArgsOf(ParamsOf(front + "(").value) == ""
  {
    assert front + "(" == front + ['('] + "";
    SplitCharPrefix(front, '(', "");
    SingleChar("", '(');
    SingleChar("", ')');
    NoParamsNoArgs();
  }

  /**
   * The parameter text starts right after the first `(` of the line, holds
   * neither parenthesis, and ends at the end of the line or at the next `(` or `)`.
   */
  lemma ParamsBetween(line: string)
    requires '(' in line
    ensures var i, p := |SplitChar(line, '(')[0]|, ParamsOf(line).value;
            i < |line| && line[i] == '(' && '(' !in line[..i]
            && '(' !in p && ')' !in p && i + 1 + |p| <= |line| && line[i + 1..i + 1 + |p|] == p
            && (i + 1 + |p| == |line| || line[i + 1 + |p|] == '(' || line[i + 1 + |p|] == ')')
  {
    OpenParenAt(line);
    var i := |SplitChar(line, '(')[0]|;
    var after := line[i + 1..];
    InnerPiece(after);
    var p := SplitChar(SplitChar(after, '(')[0], ')')[0];
    assert ParamsOf(line).value == p;
    SliceOfSuffix(line, i + 1, p);
  }

  /** The first `(` of a line, and the split of what follows it. */
  lemma OpenParenAt(line: string)
    requires '(' in line
    ensures var open := SplitChar(line, '(');
            var i := |open[0]|;
            i < |line| && line[i] == '(' && '(' !in line[..i] && open[1] == SplitChar(line[i + 1..], '(')[0]
  {
    var open := SplitChar(line, '(');
    FirstPieceChar(line, '(');
    assert open[1..][0] == open[1];
  }

  /** A prefix of `s[k..]` is the slice of `s` that starts at `k`. */
  lemma SliceOfSuffix(s: string, k: nat, q: string)
    requires k <= |s| && |q| <= |s| - k && q == s[k..][..|q|]
    ensures s[k..k + |q|] == q
    ensures k + |q| < |s| ==> s[k + |q|] == s[k..][|q|]
  {
  }

  /** The text before the first `(` and then before the first `)`: a prefix that ends where either parenthesis starts. */
  lemma InnerPiece(after: string)
    ensures var q := SplitChar(SplitChar(after, '(')[0], ')')[0];
            |q| <= |after| && q == after[..|q|] && '(' !in q && ')' !in q
            && (|q| == |after| || after[|q|] == '(' || after[|q|] == ')')
  {
    var inner := SplitChar(after, '(')[0];
    FirstPieceChar(after, '(');
    FirstPieceChar(inner, ')');
    var q := SplitChar(inner, ')')[0];
    assert forall k :: 0 <= k < |q| ==> q[k] == inner[k];
    assert |q| < |inner| ==> after[|q|] == inner[|q|];
  }

  /** The last piece of a split on `c` is what follows the last `c`. */
  lemma LastPiece(front: string, c: char, x: string)
    requires c !in x
    ensures var r := SplitChar(front + [c] + x, c); r[|r| - 1] == x
  {
    SplitCharSuffix(front, c, x);
  }

  /**
   * The body of the printed method starts with `return ` exactly when the
   * return type is not `void` (the called name is one word, so it cannot).
   */
  lemma ReturnUnlessVoid(w: Wrapper)
    requires ' ' !in w.target
    ensures var body := Render(w)[|Head(w)|..];
            (|body| >= 7 && body[..7] == "return ") <==> w.returnType != "void"
  {
    var body := Render(w)[|Head(w)|..];
    if w.returnType == "void" {
      assert body == w.target + "(" + w.args + "); }";
      if |body| >= 7 {
        if |w.target| >= 7 {
          assert body[6] == w.target[6];
          assert body[..7][6] != ' ';
        } else {
          assert body[|w.target|] == '(';
          assert body[..7][|w.target|] == '(';
        }
      }
    } else {
      assert body == "return " + w.target + "(" + w.args + "); }";
    }
  }

  /** The called name comes from one whitespace-free word, so it holds no space. */
  lemma TargetIsOneWord(line: string)
    requires Parse(line).Ok?
    ensures ' ' !in Parse(line).value.target
  {
    var splitted := SplitWs(line);
    var t := IndexOf(splitted, "extern");
    assert t.Ok?;
    ParseTarget(line, splitted, t.value);
    var word := splitted[t.value + 2];
    assert NoSpace(word);
    FirstPieceNoSpace(word);
  }

  /** Where a parsed wrapper's called name comes from: the word two after `extern`, up to its `(`. */
  lemma ParseTarget(line: string, splitted: seq<string>, t: nat)
    requires Parse(line).Ok?
    requires splitted == SplitWs(line) && IndexOf(splitted, "extern") == Ok(t)
    ensures t + 2 < |splitted| && Parse(line).value.target == SplitChar(splitted[t + 2], '(')[0]
  {
    var a := Assemble(line, splitted[t + 1], SplitChar(splitted[t + 2], '(')[0]);
    assert Parse(line) == a;
  }

  lemma FirstPieceNoSpace(word: string)
    requires NoSpace(word)
    ensures ' ' !in SplitChar(word, '(')[0]
  {
    var funcName := SplitChar(word, '(')[0];
    FirstPieceChar(word, '(');
    forall k | 0 <= k < |funcName|
      ensures funcName[k] != ' '
    {
      assert funcName[k] == word[k];
      assert !IsSpace(word[k]);
    }
  }
}
