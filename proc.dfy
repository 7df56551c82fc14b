/**
 * format_output of prompy/processio/proc.py.  Every output string is split at
 * each maximal run of '\r'/'\n' (`re.split('[\r\n]+', x)`), the pieces of all
 * strings are chained in order, each piece is prefixed with `indent` spaces,
 * and the lines are joined with '\n'.
 */
module Proc {
  import opened Text

  predicate IsBreak(c: char) {
    c == '\r' || c == '\n'
  }

  /** No '\r' and no '\n' in t. */
  predicate NoBreak(t: string) {
    forall k :: 0 <= k < |t| ==> !IsBreak(t[k])
  }

  // ---------------------------------------------------------------------
  // re.split('[\r\n]+', s)

  /** The pieces of s[i..]: the text up to the next run of breaks, then the pieces after that run. */
  function SplitFrom(s: string, i: nat): (ps: seq<string>)
    requires i <= |s|
    ensures ps != []
    decreases |s| - i
  {
    var e := Span(s, i, NotLineBreak);
    if e == |s| then [s[i..]]
    else
      SpanRun(s, i, NotLineBreak);
      assert In(LineBreak, s[e]);
      [s[i..e]] + SplitFrom(s, Span(s, e, LineBreak))
  }

  /** `_re_endline.split(s)`: empty pieces are kept where s starts or ends with a break. */
  function Split(s: string): seq<string> {
    SplitFrom(s, 0)
  }

  function Concat(ps: seq<string>): string {
    if ps == [] then "" else ps[0] + Concat(ps[1..])
  }

  /** s with every '\r' and '\n' removed: the reference for what the pieces keep. */
  function Strip(s: string): (r: string)
    ensures NoBreak(r)
  {
    if s == [] then []
    else (if IsBreak(s[0]) then [] else [s[0]]) + Strip(s[1..])
  }

  lemma {:induction false} StripConcat(a: string, b: string)
    ensures Strip(a + b) == Strip(a) + Strip(b)
    decreases |a|
  {
    if a == [] {
      assert a + b == b;
    } else {
      assert (a + b)[1..] == a[1..] + b;
      StripConcat(a[1..], b);
    }
  }

  lemma {:induction false} StripKeeps(t: string)
    requires NoBreak(t)
    ensures Strip(t) == t
    decreases |t|
  {
    if t != [] {
      StripKeeps(t[1..]);
    }
  }

  lemma {:induction false} StripDrops(t: string)
    requires forall k :: 0 <= k < |t| ==> IsBreak(t[k])
    ensures Strip(t) == ""
    decreases |t|
  {
    if t != [] {
      StripDrops(t[1..]);
    }
  }

  /** The text before the first break of s[i..] is break-free. */
  lemma PieceClean(s: string, i: nat, e: nat)
    requires i <= |s| && e == Span(s, i, NotLineBreak)
    ensures NoBreak(s[i..e]) && Strip(s[i..e]) == s[i..e]
  {
    SpanRun(s, i, NotLineBreak);
    var piece := s[i..e];
    forall k | 0 <= k < |piece| ensures !IsBreak(piece[k]) {
      assert piece[k] == s[i + k];
    }
    StripKeeps(piece);
  }

  /** Stripping s[i..] keeps the first piece and drops the run of breaks after it. */
  lemma StripStep(s: string, i: nat, e: nat, f: nat)
    requires i <= |s| && e == Span(s, i, NotLineBreak) && e < |s| && f == Span(s, e, LineBreak)
    ensures Strip(s[i..]) == s[i..e] + Strip(s[f..])
  {
    var piece, breaks, rest := s[i..e], s[e..f], s[f..];
    assert Strip(piece) == piece by { PieceClean(s, i, e); }
    assert Strip(breaks) == "" by {
      SpanRun(s, e, LineBreak);
      forall k | 0 <= k < |breaks| ensures IsBreak(breaks[k]) {
        assert breaks[k] == s[e + k];
      }
      StripDrops(breaks);
    }
    assert s[i..] == piece + (breaks + rest);
    StripConcat(piece, breaks + rest);
    StripConcat(breaks, rest);
    assert Strip(breaks + rest) == Strip(rest);
  }

  /** The pieces hold no break, and together they are the text without its breaks, in order. */
  lemma {:induction false} SplitFromText(s: string, i: nat)
    requires i <= |s|
    ensures forall k :: 0 <= k < |SplitFrom(s, i)| ==> NoBreak(SplitFrom(s, i)[k])
    ensures Concat(SplitFrom(s, i)) == Strip(s[i..])
    decreases |s| - i
  {
    var e := Span(s, i, NotLineBreak);
    PieceClean(s, i, e);
    if e == |s| {
      assert s[i..e] == s[i..];
    } else {
      var f := Span(s, e, LineBreak);
      SpanRun(s, i, NotLineBreak);
      assert In(LineBreak, s[e]);
      SplitFromText(s, f);
      StripStep(s, i, e, f);
      assert SplitFrom(s, i) == [s[i..e]] + SplitFrom(s, f);
    }
  }

  /** No piece contains '\r' or '\n', and the pieces keep every other character in order. */
  lemma SplitText(s: string)
    ensures forall k :: 0 <= k < |Split(s)| ==> '\r' !in Split(s)[k] && '\n' !in Split(s)[k]
    ensures Concat(Split(s)) == Strip(s)
  {
    SplitFromText(s, 0);
    assert s[0..] == s;
  }

  /** The edge cases of re.split: no break gives the string itself; a leading break gives an empty first piece. */
  lemma SplitEdges(s: string)
    ensures NoBreak(s) ==> Split(s) == [s]
    ensures |s| > 0 && IsBreak(s[0]) ==> Split(s)[0] == ""
  {
    if NoBreak(s) {
      SpanIs(s, 0, |s|, NotLineBreak);
      assert s[0..] == s;
    }
  }

  /** A trailing break gives an empty last piece. */
  lemma {:induction false} SplitFromTrailing(s: string, i: nat)
    requires i <= |s| && |s| > 0 && IsBreak(s[|s| - 1])
    ensures SplitFrom(s, i)[|SplitFrom(s, i)| - 1] == ""
    decreases |s| - i
  {
    var e := Span(s, i, NotLineBreak);
    SpanRun(s, i, NotLineBreak);
    if e == |s| {
      // s[i..] holds no break, and the last character of s is one
      assert i == |s|;
    } else {
      var f := Span(s, e, LineBreak);
      SpanRun(s, e, LineBreak);
      SplitFromTrailing(s, f);
    }
  }

  lemma SplitTrailing(s: string)
    requires |s| > 0 && IsBreak(s[|s| - 1])
    ensures Split(s)[|Split(s)| - 1] == ""
  {
    SplitFromTrailing(s, 0);
  }

  // ---------------------------------------------------------------------
  // format_output

  /** `itertools.chain(*[split(x) for x in output])`. */
  function Pieces(output: seq<string>): seq<string> {
    if output == [] then [] else Split(output[0]) + Pieces(output[1..])
  }

  /** `' ' * indent`: n spaces, and none when n is zero or negative. */
  function Spaces(n: int): (r: string)
    ensures |r| == (if n > 0 then n else 0) && forall k :: 0 <= k < |r| ==> r[k] == ' '
  {
    if n <= 0 then "" else seq(n, k => ' ')
  }

  function Lines(pieces: seq<string>, indentation: string): (ls: seq<string>)
    ensures |ls| == |pieces|
  {
    seq(|pieces|, k requires 0 <= k < |pieces| => indentation + pieces[k])
  }

  /** format_output(output, indent) */
  function FormatOutput(output: seq<string>, indent: int): string {
    Join(Lines(Pieces(output), Spaces(indent)), "\n")
  }

  /** Chaining keeps the pieces of each string together and the strings in order. */
  lemma {:induction false} PiecesConcat(a: seq<string>, b: seq<string>)
    ensures Pieces(a + b) == Pieces(a) + Pieces(b)
    decreases |a|
  {
    if a == [] {
      assert a + b == b;
    } else {
      assert (a + b)[1..] == a[1..] + b;
      PiecesConcat(a[1..], b);
    }
  }

  /**
   * Every piece is free of breaks, there is a piece exactly when there is
   * output, and the pieces hold all the text of the output but its breaks.
   */
  lemma {:induction false} PiecesText(output: seq<string>)
    ensures forall k :: 0 <= k < |Pieces(output)| ==> NoBreak(Pieces(output)[k])
    ensures Pieces(output) == [] <==> output == []
    ensures Concat(Pieces(output)) == Strip(Concat(output))
    decreases |output|
  {
    if output != [] {
      var ps := Split(output[0]);
      SplitFromText(output[0], 0);
      assert output[0][0..] == output[0];
      PiecesText(output[1..]);
      ConcatAppend(ps, Pieces(output[1..]));
      StripConcat(output[0], Concat(output[1..]));
      var all := Pieces(output);
      forall k | 0 <= k < |all| ensures NoBreak(all[k]) {
        if k < |ps| {
          assert all[k] == ps[k];
        } else {
          assert all[k] == Pieces(output[1..])[k - |ps|];
        }
      }
    }
  }

  lemma {:induction false} ConcatAppend(a: seq<string>, b: seq<string>)
    ensures Concat(a + b) == Concat(a) + Concat(b)
    decreases |a|
  {
    if a == [] {
      assert a + b == b;
    } else {
      assert (a + b)[1..] == a[1..] + b;
      ConcatAppend(a[1..], b);
    }
  }

  /** The lines hold no break: the indentation is spaces and the pieces are break-free. */
  lemma LinesNoBreak(output: seq<string>, indent: int)
    ensures forall k :: 0 <= k < |Lines(Pieces(output), Spaces(indent))| ==>
      '\n' !in Lines(Pieces(output), Spaces(indent))[k] && '\r' !in Lines(Pieces(output), Spaces(indent))[k]
  {
    PiecesText(output);
    var ps := Pieces(output);
    var ls := Lines(ps, Spaces(indent));
    forall k | 0 <= k < |ls| ensures '\n' !in ls[k] && '\r' !in ls[k] {
      assert ls[k] == Spaces(indent) + ps[k];
      forall j | 0 <= j < |ls[k]| ensures !IsBreak(ls[k][j]) {
        var n := |Spaces(indent)|;
        if j < n {
          assert ls[k][j] == ' ';
        } else {
          assert ls[k][j] == ps[k][j - n];
        }
      }
    }
  }

  /** The result has one '\n' between neighbouring lines and no '\r'. */
  lemma FormatOutputBreaks(output: seq<string>, indent: int)
    ensures Count(FormatOutput(output, indent), '\n') == if output == [] then 0 else |Pieces(output)| - 1
    ensures '\r' !in FormatOutput(output, indent)
  {
    PiecesText(output);
    LinesNoBreak(output, indent);
    CountJoin(Lines(Pieces(output), Spaces(indent)), '\n');
    JoinLacks(Lines(Pieces(output), Spaces(indent)), "\n", '\r');
  }

  lemma FormatOutputEmpty(indent: int)
    ensures FormatOutput([], indent) == ""
  {
  }

  /** With indent 0, a single string without line breaks comes back unchanged. */
  lemma FormatOutputSingle(s: string)
    requires NoBreak(s)
    ensures FormatOutput([s], 0) == s
  {
    SplitEdges(s);
    assert Pieces([s]) == Split(s) + Pieces([]);
    assert Spaces(0) == "";
    assert Lines([s], "")[0] == s;
  }

  // ---------------------------------------------------------------------
  // Reading the lines back: str.split('\n')

  /** The pieces of s[i..] between single '\n's. */
  function SplitNewlinesFrom(s: string, i: nat): (ps: seq<string>)
    requires i <= |s|
    ensures ps != []
    decreases |s| - i
  {
    var e := Span(s, i, NotNewline);
    if e == |s| then [s[i..]] else [s[i..e]] + SplitNewlinesFrom(s, e + 1)
  }

  /** `s.split('\n')` */
  function SplitNewlines(s: string): seq<string> {
    SplitNewlinesFrom(s, 0)
  }

  lemma {:induction false} SplitNewlinesShift(a: string, b: string, k: nat)
    requires k <= |b|
    ensures SplitNewlinesFrom(a + b, |a| + k) == SplitNewlinesFrom(b, k)
    decreases |b| - k
  {
    SpanShift(a, b, k, NotNewline);
    var e := Span(b, k, NotNewline);
    assert (a + b)[|a| + k..|a| + e] == b[k..e];
    if e < |b| {
      SplitNewlinesShift(a, b, e + 1);
      assert SplitNewlinesFrom(a + b, |a| + k) == [b[k..e]] + SplitNewlinesFrom(a + b, |a| + e + 1);
    } else {
      assert (a + b)[|a| + k..] == b[k..];
    }
  }

  /** Splitting at '\n' undoes joining with '\n', for lines that hold no '\n'. */
  lemma {:induction false} SplitJoin(lines: seq<string>)
    requires lines != [] && forall k :: 0 <= k < |lines| ==> '\n' !in lines[k]
    ensures SplitNewlines(Join(lines, "\n")) == lines
    decreases |lines|
  {
    var l := lines[0];
    assert forall j :: 0 <= j < |l| ==> In(NotNewline, l[j]);
    if |lines| == 1 {
      SpanIs(l, 0, |l|, NotNewline);
      assert l[0..] == l;
    } else {
      SplitJoin(lines[1..]);
      SplitFirstLine(l, Join(lines[1..], "\n"));
      assert lines == [l] + lines[1..];
    }
  }

  /** A first line without '\n', then '\n', splits off as the first piece. */
  lemma SplitFirstLine(l: string, rest: string)
    requires '\n' !in l
    ensures SplitNewlines(l + "\n" + rest) == [l] + SplitNewlines(rest)
  {
    var t := l + "\n" + rest;
    forall j | 0 <= j < |l| ensures In(NotNewline, t[j]) {
      assert t[j] == l[j];
    }
    SpanIs(t, 0, |l|, NotNewline);
    assert t[0..|l|] == l;
    assert t == (l + "\n") + rest;
    SplitNewlinesShift(l + "\n", rest, 0);
  }

  /**
   * Read back at '\n', the result of format_output is its lines, each the
   * indentation followed by one piece, in order.
   */
  lemma FormatOutputLines(output: seq<string>, indent: int)
    requires output != []
    ensures var ls := SplitNewlines(FormatOutput(output, indent));
      && |ls| == |Pieces(output)|
      && forall k :: 0 <= k < |ls| ==> ls[k] == Spaces(indent) + Pieces(output)[k]
  {
    PiecesText(output);
    LinesNoBreak(output, indent);
    SplitJoin(Lines(Pieces(output), Spaces(indent)));
  }

  /** A string starting with a line break gives a bare-indentation first line. */
  lemma LeadingBreakLine(s: string, rest: seq<string>, indent: int)
    requires |s| > 0 && IsBreak(s[0])
    ensures SplitNewlines(FormatOutput([s] + rest, indent))[0] == Spaces(indent)
  {
    SplitEdges(s);
    assert Pieces([s] + rest) == Split(s) + Pieces(rest);
    FormatOutputLines([s] + rest, indent);
  }

  /** A string ending with a line break gives a bare-indentation line for its last piece. */
  lemma TrailingBreakLine(front: seq<string>, s: string, indent: int)
    requires |s| > 0 && IsBreak(s[|s| - 1])
    ensures var ls := SplitNewlines(FormatOutput(front + [s], indent));
      var n := |Pieces(front)| + |Split(s)|;
      |ls| == n && ls[n - 1] == Spaces(indent)
  {
    SplitTrailing(s);
    PiecesConcat(front, [s]);
    assert Pieces([s]) == Split(s) + Pieces([]);
    FormatOutputLines(front + [s], indent);
  }
}
