/**
 * The Python string operations the file formats and the text tools use:
 * `str.strip`, `str.find`/`in`, `str.split(sep)`, `str.join`, `str.split()`
 * on whitespace, `list.index`, and iterating a text file line by line.
 * Each comes with its inverse or its characterising property.
 */
module PyStrings {
  import opened Errors

  /** The characters `str.isspace` accepts, which `strip()` and `split()` remove. */
  predicate IsSpace(c: char)
  {
    var k := c as int;
    (9 <= k <= 13) || (28 <= k <= 32) || k == 0x85 || k == 0xA0 || k == 0x1680
    || (0x2000 <= k <= 0x200A) || k == 0x2028 || k == 0x2029 || k == 0x202F || k == 0x205F || k == 0x3000
  }

  predicate NoSpace(s: string)
  {
    forall i :: 0 <= i < |s| ==> !IsSpace(s[i])
  }

  // ---------------------------------------------------------------- strip

  function LStrip(s: string): (r: string)
    ensures |r| <= |s| && r == s[|s| - |r|..]
    ensures forall i :: 0 <= i < |s| - |r| ==> IsSpace(s[i])
    ensures |r| > 0 ==> !IsSpace(r[0])
    decreases |s|
  {
    if |s| > 0 && IsSpace(s[0]) then LStrip(s[1..]) else s
  }

  function RStrip(s: string): (r: string)
    ensures |r| <= |s| && r == s[..|r|]
    ensures forall i :: |r| <= i < |s| ==> IsSpace(s[i])
    ensures |r| > 0 ==> !IsSpace(r[|r| - 1])
    decreases |s|
  {
    if |s| > 0 && IsSpace(s[|s| - 1]) then RStrip(s[..|s| - 1]) else s
  }

  /** `s.strip()`: `s` without its leading and trailing whitespace. */
  function Strip(s: string): (r: string)
    ensures |r| > 0 ==> !IsSpace(r[0]) && !IsSpace(r[|r| - 1])
  {
    RStrip(LStrip(s))
  }

  /** Stripping leaves a string whose ends are not whitespace as it is. */
  lemma StripKeeps(s: string)
    requires |s| > 0 && !IsSpace(s[0]) && !IsSpace(s[|s| - 1])
    ensures Strip(s) == s
  {
  }

  /** A trailing newline is whitespace and goes. */
  lemma StripNewline(s: string)
    requires |s| > 0 && !IsSpace(s[0]) && !IsSpace(s[|s| - 1])
    ensures Strip(s + "\n") == s
  {
    var t := s + "\n";
    assert LStrip(t) == t;
    assert t[..|t| - 1] == s;
  }

  /** A string that starts with a non-space character keeps it first. */
  lemma StripFirst(s: string)
    requires |s| > 0 && !IsSpace(s[0])
    ensures |Strip(s)| > 0 && Strip(s)[0] == s[0]
  {
    assert LStrip(s) == s;
  }

  // ---------------------------------------------------------------- find

  predicate OccursAt(s: string, sub: string, i: int)
  {
    0 <= i && i + |sub| <= |s| && s[i..i + |sub|] == sub
  }

  function FindFrom(s: string, sub: string, i: nat): (r: int)
    requires i <= |s|
    ensures r == -1 || (i <= r && OccursAt(s, sub, r))
    ensures r == -1 ==> forall j :: i <= j <= |s| ==> !OccursAt(s, sub, j)
    ensures r >= 0 ==> forall j :: i <= j < r ==> !OccursAt(s, sub, j)
    decreases |s| - i
  {
    if OccursAt(s, sub, i) then i
    else if i == |s| then -1
    else FindFrom(s, sub, i + 1)
  }

  /** `s.find(sub)`: the first index where `sub` occurs, or -1. */
  function Find(s: string, sub: string): (r: int)
    ensures r == -1 || OccursAt(s, sub, r)
    ensures r == -1 <==> forall j :: 0 <= j <= |s| ==> !OccursAt(s, sub, j)
    ensures r >= 0 ==> forall j :: 0 <= j < r ==> !OccursAt(s, sub, j)
  {
    FindFrom(s, sub, 0)
  }

  /** `sub in s`. */
  predicate Contains(s: string, sub: string)
  {
    Find(s, sub) >= 0
  }

  // ---------------------------------------------------------------- split and join

  /** `sep.join(pieces)`. */
  function Join(pieces: seq<string>, sep: string): string
  {
    if |pieces| == 0 then ""
    else if |pieces| == 1 then pieces[0]
    else pieces[0] + sep + Join(pieces[1..], sep)
  }

  /** `s.split(sep)`: the pieces between the occurrences of `sep`, found left to right. */
  function SplitOn(s: string, sep: string): (r: seq<string>)
    requires |sep| > 0
    ensures |r| >= 1
    ensures !Contains(s, sep) ==> r == [s]
    decreases |s|
  {
    var i := Find(s, sep);
    if i < 0 then [s]
    else [s[..i]] + SplitOn(s[i + |sep|..], sep)
  }

  /** A text that holds the separator: the text before its first occurrence, then the split of what follows. */
  lemma SplitAtFirst(s: string, sep: string)
    requires |sep| > 0 && Contains(s, sep)
    ensures var r, i := SplitOn(s, sep), Find(s, sep);
            |r| >= 2 && r[0] == s[..i] && r[1..] == SplitOn(s[i + |sep|..], sep)
  {
  }

  /** Joining the pieces of a split with the separator gives back the text. */
  lemma {:induction false} JoinSplit(s: string, sep: string)
    requires |sep| > 0
    ensures Join(SplitOn(s, sep), sep) == s
    decreases |s|
  {
    var i := Find(s, sep);
    if i >= 0 {
      var t := s[i + |sep|..];
      var rest := SplitOn(t, sep);
      assert SplitOn(s, sep) == [s[..i]] + rest;
      JoinSplit(t, sep);
      JoinCons(s[..i], rest, sep);
      ThreeSlices(s, i, i + |sep|);
    }
  }

  lemma ThreeSlices(s: string, i: nat, j: nat)
    requires i <= j <= |s|
    ensures s == s[..i] + s[i..j] + s[j..]
  {
  }

  /**
   * `s.split(c)` for a one-character separator `c`: the pieces between the
   * occurrences of `c`. It is `SplitOn(s, [c])` written character by character.
   */
  function SplitChar(s: string, c: char): (r: seq<string>)
    ensures |r| >= 1
    ensures |r| == 1 <==> c !in s
    ensures forall k :: 0 <= k < |r| ==> c !in r[k]
    decreases |s|
  {
    if |s| == 0 then [""]
    else
      var rest := SplitChar(s[1..], c);
      if s[0] == c then [""] + rest
      else [[s[0]] + rest[0]] + rest[1..]
  }

  /** Joining the pieces of a one-character split with that character gives back the text. */
  lemma {:induction false} JoinSplitChar(s: string, c: char)
    ensures Join(SplitChar(s, c), [c]) == s
    decreases |s|
  {
    if |s| > 0 {
      var rest := SplitChar(s[1..], c);
      JoinSplitChar(s[1..], c);
      if s[0] == c {
        JoinCons("", rest, [c]);
      } else {
        JoinHead([s[0]], rest, [c]);
      }
      assert s == [s[0]] + s[1..];
    }
  }

  lemma JoinCons(p: string, rest: seq<string>, sep: string)
    requires |rest| >= 1
    ensures Join([p] + rest, sep) == p + sep + Join(rest, sep)
  {
    assert ([p] + rest)[1..] == rest;
  }

  /** Prefixing the first piece prefixes the joined text. */
  lemma JoinHead(a: string, rest: seq<string>, sep: string)
    requires |rest| >= 1
    ensures Join([a + rest[0]] + rest[1..], sep) == a + Join(rest, sep)
  {
    if |rest| == 1 {
      assert [a + rest[0]] + rest[1..] == [a + rest[0]];
    } else {
      JoinCons(a + rest[0], rest[1..], sep);
      JoinCons(rest[0], rest[1..], sep);
      assert rest == [rest[0]] + rest[1..];
    }
  }

  /** A text without `c`, then `c`, then more: the first piece is that text. */
  lemma {:induction false} SplitCharPrefix(p: string, c: char, t: string)
    requires c !in p
    ensures SplitChar(p + [c] + t, c) == [p] + SplitChar(t, c)
    decreases |p|
  {
    var s := p + [c] + t;
    if |p| == 0 {
      assert s[1..] == t;
    } else {
      assert s[1..] == p[1..] + [c] + t;
      SplitCharPrefix(p[1..], c, t);
      assert [p[0]] + p[1..] == p;
    }
  }

  /** A separator and a final piece without it add that piece at the end. */
  lemma {:induction false} SplitCharSuffix(s: string, c: char, x: string)
    requires c !in x
    ensures SplitChar(s + [c] + x, c) == SplitChar(s, c) + [x]
    decreases |s|
  {
    var w := s + [c] + x;
    if |s| == 0 {
      assert w[1..] == x;
      SingleChar(x, c);
    } else {
      assert w[0] == s[0] && w[1..] == s[1..] + [c] + x;
      SplitCharSuffix(s[1..], c, x);
      var rest := SplitChar(s[1..], c);
      if s[0] != c {
        assert (rest + [x])[0] == rest[0];
        assert (rest + [x])[1..] == rest[1..] + [x];
      }
    }
  }

  /** The first piece of a one-character split, and the split of what follows it. */
  lemma FirstPieceChar(s: string, c: char)
    ensures var r := SplitChar(s, c);
            |r[0]| <= |s| && r[0] == s[..|r[0]|]
            && (|r[0]| == |s| <==> |r| == 1)
            && (|r[0]| < |s| ==> s[|r[0]|] == c && r[1..] == SplitChar(s[|r[0]| + 1..], c))
  {
    var r := SplitChar(s, c);
    var n := |r[0]|;
    if |r| == 1 {
      SingleChar(s, c);
    } else {
      var p := r[0];
      PrefixOfSplit(s, c);
      var t := s[n + 1..];
      assert s == p + [c] + t;
      SplitCharPrefix(p, c, t);
    }
  }

  /** A split into two or more pieces: the first piece, `c`, then the rest. */
  lemma PrefixOfSplit(s: string, c: char)
    requires |SplitChar(s, c)| >= 2
    ensures var r := SplitChar(s, c); |r[0]| < |s| && s == r[0] + [c] + s[|r[0]| + 1..]
  {
    var r := SplitChar(s, c);
    JoinSplitChar(s, c);
    assert Join(r, [c]) == r[0] + [c] + Join(r[1..], [c]);
    assert s[..|r[0]|] == r[0];
  }

  /** A join whose first piece is not empty starts with that piece's first character. */
  lemma JoinFirst(pieces: seq<string>, sep: string)
    requires |pieces| >= 1 && |pieces[0]| > 0
    ensures |Join(pieces, sep)| > 0 && Join(pieces, sep)[0] == pieces[0][0]
  {
  }

  /** A join whose last piece is not empty ends with that piece's last character. */
  lemma {:induction false} JoinLast(pieces: seq<string>, sep: string)
    requires |pieces| >= 1 && |pieces[|pieces| - 1]| > 0
    ensures var j := Join(pieces, sep); var p := pieces[|pieces| - 1];
            |j| > 0 && j[|j| - 1] == p[|p| - 1]
    decreases |pieces|
  {
    if |pieces| > 1 {
      JoinLast(pieces[1..], sep);
    }
  }

  /** A character in neither the pieces nor the separator is not in their join. */
  lemma {:induction false} JoinAvoids(pieces: seq<string>, sep: string, c: char)
    requires c !in sep && forall k :: 0 <= k < |pieces| ==> c !in pieces[k]
    ensures c !in Join(pieces, sep)
    decreases |pieces|
  {
    if |pieces| > 1 {
      JoinAvoids(pieces[1..], sep, c);
    }
  }

  /** A string without whitespace holds no whitespace character. */
  lemma NoSpaceAvoids(s: string, c: char)
    requires NoSpace(s) && IsSpace(c)
    ensures c !in s
  {
  }

  /** Splitting on one character undoes joining with it when no piece holds it. */
  lemma {:induction false} SplitJoinChar(pieces: seq<string>, c: char)
    requires |pieces| >= 1
    requires forall k :: 0 <= k < |pieces| ==> c !in pieces[k]
    ensures SplitChar(Join(pieces, [c]), c) == pieces
  {
    if |pieces| == 1 {
      SingleChar(pieces[0], c);
    } else {
      var rest := Join(pieces[1..], [c]);
      SplitCharPrefix(pieces[0], c, rest);
      SplitJoinChar(pieces[1..], c);
      assert pieces == [pieces[0]] + pieces[1..];
    }
  }

  /** A text without the separator is one piece. */
  lemma SingleChar(s: string, c: char)
    requires c !in s
    ensures SplitChar(s, c) == [s]
  {
    JoinSplitChar(s, c);
  }

  // ---------------------------------------------------------------- split on whitespace

  /** The length of the run of non-space characters at the front. */
  function TokenLength(t: string): (n: nat)
    ensures n <= |t| && NoSpace(t[..n]) && (n < |t| ==> IsSpace(t[n]))
  {
    if |t| == 0 || IsSpace(t[0]) then 0
    else
      var m := TokenLength(t[1..]);
      assert t[..m + 1] == [t[0]] + t[1..][..m];
      m + 1
  }

  /** `s.split()`: the maximal runs of non-space characters, in order. */
  function SplitWs(s: string): (r: seq<string>)
    ensures forall k :: 0 <= k < |r| ==> |r[k]| > 0 && NoSpace(r[k])
    decreases |s|
  {
    var t := LStrip(s);
    if |t| == 0 then []
    else
      var n := TokenLength(t);
      var rest := SplitWs(t[n..]);
      TokensCons(t[..n], rest);
      [t[..n]] + rest
  }

  lemma TokensCons(a: string, rest: seq<string>)
    requires |a| > 0 && NoSpace(a)
    requires forall k :: 0 <= k < |rest| ==> |rest[k]| > 0 && NoSpace(rest[k])
    ensures forall k :: 0 <= k < |[a] + rest| ==> |([a] + rest)[k]| > 0 && NoSpace(([a] + rest)[k])
  {
  }

  /** Splitting on whitespace undoes joining with single spaces. */
  lemma {:induction false} SplitWsJoin(tokens: seq<string>)
    requires forall k :: 0 <= k < |tokens| ==> |tokens[k]| > 0 && NoSpace(tokens[k])
    ensures SplitWs(Join(tokens, " ")) == tokens
  {
    if |tokens| == 1 {
      SplitWsSingle(tokens[0]);
    } else if |tokens| > 1 {
      SplitWsJoin(tokens[1..]);
      JoinCons(tokens[0], tokens[1..], " ");
      assert tokens == [tokens[0]] + tokens[1..];
      SplitWsCons(tokens[0], Join(tokens[1..], " "));
    }
  }

  lemma SplitWsSingle(p: string)
    requires |p| > 0 && NoSpace(p)
    ensures SplitWs(p) == [p]
  {
    TokenOf(p, "");
    assert p + "" == p;
    assert p[|p|..] == "";
  }

  lemma SplitWsCons(p: string, rest: string)
    requires |p| > 0 && NoSpace(p)
    ensures SplitWs(p + " " + rest) == [p] + SplitWs(rest)
  {
    var s := p + " " + rest;
    assert s == p + (" " + rest);
    assert LStrip(s) == s;
    TokenOf(p, " " + rest);
    assert s[..|p|] == p;
    assert s[|p|..] == " " + rest;
    assert (" " + rest)[1..] == rest;
    assert LStrip(" " + rest) == LStrip(rest);
  }

  lemma TokenOf(p: string, rest: string)
    requires |p| > 0 && NoSpace(p) && (|rest| == 0 || IsSpace(rest[0]))
    ensures TokenLength(p + rest) == |p|
    decreases |p|
  {
    assert (p + rest)[1..] == p[1..] + rest;
    if |p| > 1 {
      TokenOf(p[1..], rest);
    } else {
      assert (p + rest)[1..] == rest;
    }
  }

  // ---------------------------------------------------------------- lists

  /** `xs.index(x)`: the first position of `x`, or `ValueError`. */
  function IndexOf(xs: seq<string>, x: string): (r: Result<nat>)
    ensures r.Ok? ==> r.value < |xs| && xs[r.value] == x && forall j :: 0 <= j < r.value ==> xs[j] != x
    ensures r.Err? ==> r.error == ValueError && x !in xs
  {
    if |xs| == 0 then Err(ValueError)
    else if xs[0] == x then Ok(0)
    else
      var r := IndexOf(xs[1..], x);
      if r.Ok? then Ok(r.value + 1) else Err(ValueError)
  }

  // ---------------------------------------------------------------- text files

  function Concat(ls: seq<string>): string
  {
    if |ls| == 0 then "" else ls[0] + Concat(ls[1..])
  }

  /** `for line in f`: the lines of the text, each with its newline except perhaps the last. */
  function Lines(text: string): (r: seq<string>)
    ensures Concat(r) == text
    ensures forall k :: 0 <= k < |r| ==> |r[k]| > 0
    decreases |text|
  {
    var i := Find(text, "\n");
    if i < 0 then (if |text| == 0 then [] else [text])
    else
      assert text == text[..i + 1] + text[i + 1..];
      [text[..i + 1]] + Lines(text[i + 1..])
  }

  /** The text of a file written line by line, each line followed by a newline. */
  function Unlines(ls: seq<string>): string
  {
    if |ls| == 0 then "" else ls[0] + "\n" + Unlines(ls[1..])
  }

  predicate NoNewline(s: string)
  {
    '\n' !in s
  }

  /** Reading back a file written line by line gives each line with its newline. */
  lemma {:induction false} LinesOfUnlines(ls: seq<string>)
    requires forall k :: 0 <= k < |ls| ==> NoNewline(ls[k])
    ensures Lines(Unlines(ls)) == Terminated(ls)
  {
    if |ls| > 0 {
      var l, rest := ls[0], ls[1..];
      assert Unlines(ls) == l + "\n" + Unlines(rest);
      LinesCons(l, Unlines(rest));
      LinesOfUnlines(rest);
    }
  }

  /** Each line with its newline. */
  function Terminated(ls: seq<string>): (r: seq<string>)
    ensures |r| == |ls| && forall k :: 0 <= k < |ls| ==> r[k] == ls[k] + "\n"
  {
    if |ls| == 0 then [] else [ls[0] + "\n"] + Terminated(ls[1..])
  }

  /** A line without a newline, then a newline, is the first line read back. */
  lemma LinesCons(l: string, rest: string)
    requires NoNewline(l)
    ensures Lines(l + "\n" + rest) == [l + "\n"] + Lines(rest)
  {
    var text := l + "\n" + rest;
    assert OccursAt(text, "\n", |l|);
    forall j | 0 <= j < |l|
      ensures !OccursAt(text, "\n", j)
    {
      assert text[j] == l[j];
    }
    assert Find(text, "\n") == |l|;
    assert text[..|l| + 1] == l + "\n";
    assert text[|l| + 1..] == rest;
  }

  lemma UnlinesAppend(a: seq<string>, b: seq<string>)
    ensures Unlines(a + b) == Unlines(a) + Unlines(b)
    decreases |a|
  {
    if |a| > 0 {
      assert (a + b)[1..] == a[1..] + b;
      UnlinesAppend(a[1..], b);
    } else {
      assert a + b == b;
    }
  }
}
