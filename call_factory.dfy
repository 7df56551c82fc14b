/**
 * Route templating and request construction of prompy/networkio/call_factory.py.
 *
 * A route such as "/user/<user>/post/<id>" names its parameters with the
 * pattern `<(\w*)>`; `FormatRoute` substitutes them positionally with
 * `str.replace`, and `Caller.Call` builds the URL and headers of the web call
 * and hands the promise to a container.
 */
module CallFactory {
  import opened Wrappers
  import opened Errors
  import opened Values
  import opened Text
  import opened UrlTools
  import opened PromiseSpec
  import opened Promises
  import opened Containers
  import opened Receivers
  import ThreadQueues

  // ---------------------------------------------------------------------
  // Placeholders: matches of `<(\w*)>`.

  /** The placeholder text `<name>`. */
  function Tag(name: string): (t: string)
    ensures |t| == |name| + 2 && t[0] == '<' && t[|t| - 1] == '>'
  {
    "<" + name + ">"
  }

  /** A match of `<(\w*)>` starts at i: '<', the longest run of word characters, then '>'. */
  predicate PlaceholderAt(s: string, i: nat) {
    i < |s| && s[i] == '<' && Span(s, i + 1, Word) < |s| && s[Span(s, i + 1, Word)] == '>'
  }

  /** The name the placeholder at i captures. */
  function NameAt(s: string, i: nat): string
    requires PlaceholderAt(s, i)
  {
    s[i + 1..Span(s, i + 1, Word)]
  }

  /** The names of the placeholders found scanning from i: `re.findall('<(\w*)>', s[i:])`. */
  function ParamsFrom(s: string, i: nat): seq<string>
    requires i <= |s|
    decreases |s| - i
  {
    if i == |s| then []
    else if PlaceholderAt(s, i) then [NameAt(s, i)] + ParamsFrom(s, Span(s, i + 1, Word) + 1)
    else ParamsFrom(s, i + 1)
  }

  /** `route_params`: the names written as `<name>` in the route, left to right, with repeats. */
  function RouteParams(route: string): seq<string> {
    ParamsFrom(route, 0)
  }

  /** Some placeholder of `s` is named `q`. */
  predicate Named(s: string, q: string) {
    exists j :: 0 <= j < |s| && PlaceholderAt(s, j) && NameAt(s, j) == q
  }

  /** Every name found is made of word characters and is the name of a placeholder of `s`. */
  lemma {:induction false} ParamsSound(s: string, i: nat)
    requires i <= |s|
    ensures forall k :: 0 <= k < |ParamsFrom(s, i)| ==>
      AllIn(ParamsFrom(s, i)[k], Word) && Named(s, ParamsFrom(s, i)[k])
    decreases |s| - i
  {
    if i < |s| {
      if PlaceholderAt(s, i) {
        var e := Span(s, i + 1, Word);
        ParamsSound(s, e + 1);
        SpanRun(s, i + 1, Word);
        var n := NameAt(s, i);
        forall k | 0 <= k < |n| ensures In(Word, n[k]) {
          assert n[k] == s[i + 1 + k];
        }
      } else {
        ParamsSound(s, i + 1);
      }
    }
  }

  /** Every placeholder at or after i is found: the scan never skips over one. */
  lemma {:induction false} ParamsComplete(s: string, i: nat, j: nat)
    requires i <= j && PlaceholderAt(s, j)
    ensures NameAt(s, j) in ParamsFrom(s, i)
    decreases |s| - i
  {
    if i < j {
      if PlaceholderAt(s, i) {
        var e := Span(s, i + 1, Word);
        SpanRun(s, i + 1, Word);
        // s[i+1..e] are word characters and s[e] is '>', so the '<' at j lies beyond e.
        assert j > e;
        ParamsComplete(s, e + 1, j);
      } else {
        ParamsComplete(s, i + 1, j);
      }
    }
  }

  /** A route has no params exactly when it holds no placeholder. */
  lemma NoParamsIff(route: string)
    ensures RouteParams(route) == [] <==> forall j :: 0 <= j < |route| ==> !PlaceholderAt(route, j)
  {
    ParamsSound(route, 0);
    if RouteParams(route) != [] {
      assert Named(route, RouteParams(route)[0]);
    }
    forall j | 0 <= j < |route| && PlaceholderAt(route, j) ensures RouteParams(route) != [] {
      ParamsComplete(route, 0, j);
    }
  }

  /** The placeholder `<q>` of a word-character name is written at i exactly when a placeholder named q starts there. */
  lemma TagAt(s: string, i: nat, q: string)
    requires AllIn(q, Word)
    ensures StartsAt(s, i, Tag(q)) <==> PlaceholderAt(s, i) && NameAt(s, i) == q
  {
    var t := Tag(q);
    var e := i + 1 + |q|;
    if StartsAt(s, i, t) {
      var w := s[i..i + |t|];
      assert w == t;
      forall k | 0 <= k < |q| ensures s[i + 1 + k] == q[k] {
        assert s[i + 1 + k] == w[k + 1] == t[k + 1];
      }
      forall k | i + 1 <= k < e ensures In(Word, s[k]) {
        assert s[i + 1 + (k - i - 1)] == q[k - i - 1];
      }
      assert s[e] == w[|q| + 1] == '>';
      SpanIs(s, i + 1, e, Word);
      assert s[i] == w[0] == '<';
      assert s[i + 1..e] == q;
    }
    if PlaceholderAt(s, i) && NameAt(s, i) == q {
      assert Span(s, i + 1, Word) == e;
      assert s[i..i + |t|] == t;
    }
  }

  /** Placeholders inside a suffix `b` of `a + b` are the same placeholders, shifted by |a|. */
  lemma PlaceholderShift(a: string, b: string, k: nat)
    requires k <= |b|
    ensures PlaceholderAt(a + b, |a| + k) <==> PlaceholderAt(b, k)
    ensures PlaceholderAt(b, k) ==> NameAt(a + b, |a| + k) == NameAt(b, k)
  {
    if k < |b| {
      assert (a + b)[|a| + k] == b[k];
      SpanShift(a, b, k + 1, Word);
      var e := Span(b, k + 1, Word);
      if e < |b| {
        assert (a + b)[|a| + e] == b[e];
      }
      if PlaceholderAt(b, k) {
        assert (a + b)[|a| + k + 1..|a| + e] == b[k + 1..e];
      }
    }
  }

  // ---------------------------------------------------------------------
  // str.replace

  /** `s.replace(pat, repl)`: every occurrence of `pat`, leftmost first and not overlapping, becomes `repl`. */
  function Replace(s: string, pat: string, repl: string): string
    requires pat != []
    decreases |s|
  {
    if |s| < |pat| then s
    else if s[..|pat|] == pat then repl + Replace(s[|pat|..], pat, repl)
    else [s[0]] + Replace(s[1..], pat, repl)
  }

  /** A string in which `pat` does not occur is returned unchanged. */
  lemma {:induction false} ReplaceAbsent(s: string, pat: string, repl: string)
    requires pat != [] && forall i :: 0 <= i <= |s| ==> !StartsAt(s, i, pat)
    ensures Replace(s, pat, repl) == s
    decreases |s|
  {
    if |pat| <= |s| {
      assert !StartsAt(s, 0, pat);
      forall i | 0 <= i <= |s[1..]| ensures !StartsAt(s[1..], i, pat) {
        assert !StartsAt(s, i + 1, pat);
        if i + |pat| <= |s[1..]| {
          assert s[1..][i..i + |pat|] == s[i + 1..i + 1 + |pat|];
        }
      }
      ReplaceAbsent(s[1..], pat, repl);
    }
  }

  /** A prefix without the first character of `pat` passes through untouched. */
  lemma {:induction false} ReplaceSkips(x: string, y: string, pat: string, repl: string)
    requires pat != [] && pat[0] !in x
    ensures Replace(x + y, pat, repl) == x + Replace(y, pat, repl)
    decreases |x|
  {
    if x != [] {
      var s := x + y;
      if |s| < |pat| {
        assert Replace(y, pat, repl) == y;
      } else {
        assert s[..|pat|][0] == x[0];
        assert s[1..] == x[1..] + y;
        ReplaceSkips(x[1..], y, pat, repl);
        assert [x[0]] + (x[1..] + Replace(y, pat, repl)) == x + Replace(y, pat, repl);
      }
    } else {
      assert x + y == y;
    }
  }

  /** Every '<' of `s` opens a placeholder. */
  predicate Closed(s: string) {
    forall i :: 0 <= i < |s| && s[i] == '<' ==> PlaceholderAt(s, i)
  }

  lemma ClosedSuffix(s: string, n: nat)
    requires n <= |s| && Closed(s)
    ensures Closed(s[n..])
  {
    var t := s[n..];
    assert s == s[..n] + t;
    forall k | 0 <= k < |t| && t[k] == '<' ensures PlaceholderAt(t, k) {
      assert s[n + k] == '<';
      PlaceholderShift(s[..n], t, k);
    }
  }

  /** Every '<' of `r` opens a placeholder, and each placeholder of `r` is one of `s` not named `p`. */
  predicate Keeps(s: string, r: string, p: string) {
    && Closed(r)
    && forall i :: 0 <= i < |r| && PlaceholderAt(r, i) ==> NameAt(r, i) != p && Named(s, NameAt(r, i))
  }

  /**
   * Replacing `<p>` by a value without '<' in a string whose every '<' opens a
   * placeholder keeps that so, and leaves only placeholders of other names
   * that were already there.
   */
  lemma {:induction false} ReplaceClosed(s: string, p: string, v: string)
    requires Closed(s) && AllIn(p, Word) && '<' !in v
    ensures Keeps(s, Replace(s, Tag(p), v), p)
    decreases |s|
  {
    var pat := Tag(p);
    if |s| < |pat| {
      forall i | 0 <= i < |s| && PlaceholderAt(s, i) ensures NameAt(s, i) != p {
        TagAt(s, i, p);
      }
    } else if s[..|pat|] == pat {
      var t := s[|pat|..];
      assert s == pat + t;
      ClosedSuffix(s, |pat|);
      ReplaceClosed(t, p, v);
      KeepsAfterValue(pat, t, v, Replace(t, pat, v), p);
      assert Replace(s, pat, v) == v + Replace(t, pat, v);
    } else {
      var t := s[1..];
      assert s == [s[0]] + t;
      ClosedSuffix(s, 1);
      ReplaceClosed(t, p, v);
      if s[0] == '<' {
        assert PlaceholderAt(s, 0);
        FirstPlaceholderKept(s, p, v);
      }
      KeepsAfterChar(s[0], t, Replace(t, pat, v), p);
      assert Replace(s, pat, v) == [s[0]] + Replace(t, pat, v);
    }
  }

  /** Placeholders at or after |a| in `a + b` are those of `b`, shifted. */
  lemma ShiftAll(a: string, b: string)
    ensures forall i :: |a| <= i < |a + b| ==> (PlaceholderAt(a + b, i) <==> PlaceholderAt(b, i - |a|))
    ensures forall i :: |a| <= i < |a + b| && PlaceholderAt(b, i - |a|) ==> NameAt(a + b, i) == NameAt(b, i - |a|)
  {
    forall i | |a| <= i < |a + b|
      ensures (PlaceholderAt(a + b, i) <==> PlaceholderAt(b, i - |a|))
      ensures PlaceholderAt(b, i - |a|) ==> NameAt(a + b, i) == NameAt(b, i - |a|)
    {
      PlaceholderShift(a, b, i - |a|);
    }
  }

  lemma NamedShift(a: string, b: string, q: string)
    requires Named(b, q)
    ensures Named(a + b, q)
  {
    var j :| 0 <= j < |b| && PlaceholderAt(b, j) && NameAt(b, j) == q;
    PlaceholderShift(a, b, j);
  }

  /** The step of ReplaceClosed where the string starts with `pat`, which became `v`. */
  lemma KeepsAfterValue(pat: string, t: string, v: string, r: string, p: string)
    requires '<' !in v && Keeps(t, r, p)
    ensures Keeps(pat + t, v + r, p)
  {
    ShiftAll(v, r);
    assert forall k :: 0 <= k < |v| ==> (v + r)[k] == v[k];
    forall i | 0 <= i < |v + r| && (v + r)[i] == '<' ensures PlaceholderAt(v + r, i) {
      assert i >= |v|;
      assert r[i - |v|] == (v + r)[i];
    }
    forall i | 0 <= i < |v + r| && PlaceholderAt(v + r, i)
      ensures NameAt(v + r, i) != p && Named(pat + t, NameAt(v + r, i))
    {
      assert i >= |v|;
      NamedShift(pat, t, NameAt(r, i - |v|));
    }
  }

  /** The step of ReplaceClosed where the first character `c` is kept. */
  lemma KeepsAfterChar(c: char, t: string, r: string, p: string)
    requires Keeps(t, r, p)
    requires c == '<' ==> PlaceholderAt([c] + r, 0) && NameAt([c] + r, 0) != p && Named([c] + t, NameAt([c] + r, 0))
    ensures Keeps([c] + t, [c] + r, p)
  {
    ClosedAfterChar(c, r);
    NamesAfterChar(c, t, r, p);
  }

  /** Keeping a first character leaves every '<' opening a placeholder. */
  lemma ClosedAfterChar(c: char, r: string)
    requires Closed(r)
    requires c == '<' ==> PlaceholderAt([c] + r, 0)
    ensures Closed([c] + r)
  {
    var cr := [c] + r;
    forall i | 0 <= i < |cr| && cr[i] == '<' ensures PlaceholderAt(cr, i) {
      if i > 0 {
        assert r[i - 1] == cr[i];
        PlaceholderShift([c], r, i - 1);
      }
    }
  }

  /** Keeping a first character adds no placeholder name but the one it may open. */
  lemma NamesAfterChar(c: char, t: string, r: string, p: string)
    requires forall i :: 0 <= i < |r| && PlaceholderAt(r, i) ==> NameAt(r, i) != p && Named(t, NameAt(r, i))
    requires c == '<' ==> PlaceholderAt([c] + r, 0) && NameAt([c] + r, 0) != p && Named([c] + t, NameAt([c] + r, 0))
    ensures forall i :: 0 <= i < |[c] + r| && PlaceholderAt([c] + r, i) ==> NameAt([c] + r, i) != p && Named([c] + t, NameAt([c] + r, i))
  {
    var cr := [c] + r;
    forall i | 0 <= i < |cr| && PlaceholderAt(cr, i)
      ensures NameAt(cr, i) != p && Named([c] + t, NameAt(cr, i))
    {
      if i > 0 {
        PlaceholderShift([c], r, i - 1);
        NamedShift([c], t, NameAt(r, i - 1));
      } else {
        assert c == '<';
      }
    }
  }

  /** A placeholder at 0 is '<', its name, '>' and the rest. */
  lemma PlaceholderShape(s: string)
    requires PlaceholderAt(s, 0)
    ensures AllIn(NameAt(s, 0), Word) && '<' !in NameAt(s, 0) + ">"
    ensures s[1..] == (NameAt(s, 0) + ">") + s[Span(s, 1, Word) + 1..]
  {
    SpanRun(s, 1, Word);
    var n := NameAt(s, 0);
    assert forall k :: 0 <= k < |n| ==> n[k] == s[1 + k];
  }

  /** '<', a word, '>' and anything: a placeholder with that word as its name. */
  lemma PlaceholderOf(n: string, u: string)
    requires AllIn(n, Word)
    ensures PlaceholderAt("<" + n + ">" + u, 0) && NameAt("<" + n + ">" + u, 0) == n
  {
    var r := "<" + n + ">" + u;
    forall k | 1 <= k < 1 + |n| ensures In(Word, r[k]) {
      assert r[k] == n[k - 1];
    }
    assert r[1 + |n|] == '>';
    SpanIs(r, 1, 1 + |n|, Word);
    assert r[1..1 + |n|] == n;
  }

  /** The else-case of ReplaceClosed at position 0: a placeholder of another name survives as it is. */
  lemma FirstPlaceholderKept(s: string, p: string, v: string)
    requires PlaceholderAt(s, 0) && AllIn(p, Word)
    requires |Tag(p)| <= |s| && s[..|Tag(p)|] != Tag(p)
    ensures var r := [s[0]] + Replace(s[1..], Tag(p), v);
      PlaceholderAt(r, 0) && NameAt(r, 0) != p && Named(s, NameAt(r, 0))
  {
    var n := NameAt(s, 0);
    var w := Replace(s[Span(s, 1, Word) + 1..], Tag(p), v);
    assert n != p by {
      TagAt(s, 0, p);
    }
    FirstPlaceholderRewrite(s, p, v);
    PlaceholderOf(n, w);
    assert PlaceholderAt(s, 0) && NameAt(s, 0) == n;
  }

  /** Replacing in the text after a leading placeholder leaves its name and '>' in front. */
  lemma FirstPlaceholderRewrite(s: string, p: string, v: string)
    requires PlaceholderAt(s, 0) && AllIn(p, Word)
    ensures AllIn(NameAt(s, 0), Word)
    ensures [s[0]] + Replace(s[1..], Tag(p), v)
      == "<" + NameAt(s, 0) + ">" + Replace(s[Span(s, 1, Word) + 1..], Tag(p), v)
  {
    var n, u := NameAt(s, 0), s[Span(s, 1, Word) + 1..];
    PlaceholderShape(s);
    ReplaceSkips(n + ">", u, Tag(p), v);
    var r := Replace(u, Tag(p), v);
    assert Replace(s[1..], Tag(p), v) == (n + ">") + r;
    assert [s[0]] + ((n + ">") + r) == "<" + n + ">" + r;
  }

  // ---------------------------------------------------------------------
  // format_route_params

  /** Every argument string is free of '<'. */
  predicate NoBracket(values: seq<string>) {
    forall k :: 0 <= k < |values| ==> '<' !in values[k]
  }

  /** Every name is made of word characters, as every name `<(\w*)>` captures is. */
  predicate Words(names: seq<string>) {
    forall k :: 0 <= k < |names| ==> AllIn(names[k], Word)
  }

  /** The replace loop: `s.replace(f'<{names[i]}>', values[i])` for i = 0, 1, ... in turn. */
  function Substitute(s: string, names: seq<string>, values: seq<string>): string
    requires |names| == |values|
    decreases |names|
  {
    if names == [] then s
    else Substitute(Replace(s, Tag(names[0]), values[0]), names[1..], values[1..])
  }

  /** The exception raised when the argument count differs: it lists the params from position n on. */
  function MissingParams(ps: seq<string>, n: nat): Error {
    Exception("Missing url parameter <" + Join(if n <= |ps| then ps[n..] else [], ",") + ">")
  }

  /** CallRoute.format_route_params(*args) on the route text, with each argument already `str`-converted. */
  function FormatRoute(route: string, args: seq<string>): Result<string, Error> {
    var ps := RouteParams(route);
    if ps == [] then Ok(route)
    else if |args| != |ps| then Err(MissingParams(ps, |args|))
    else Ok(Substitute(route, ps, args))
  }

  /** The names route_params lists are exactly the names of the route's placeholders, each made of word characters. */
  lemma RouteParamsNames(route: string)
    ensures Words(RouteParams(route))
    ensures forall q :: q in RouteParams(route) <==> Named(route, q)
  {
    ParamsSound(route, 0);
    forall q | Named(route, q) ensures q in RouteParams(route) {
      var j :| 0 <= j < |route| && PlaceholderAt(route, j) && NameAt(route, j) == q;
      ParamsComplete(route, 0, j);
    }
  }

  /** A route without placeholders comes back unchanged, whatever the arguments. */
  lemma NoPlaceholderUnchanged(route: string, args: seq<string>)
    requires forall j :: 0 <= j < |route| ==> !PlaceholderAt(route, j)
    ensures FormatRoute(route, args) == Ok(route)
  {
    NoParamsIff(route);
  }

  /** With placeholders, the call fails exactly when the argument count differs, naming the params not given. */
  lemma ArgCountChecked(route: string, args: seq<string>)
    requires RouteParams(route) != []
    ensures FormatRoute(route, args).Err? <==> |args| != |RouteParams(route)|
    ensures |args| < |RouteParams(route)| ==>
      FormatRoute(route, args) == Err(Exception("Missing url parameter <" + Join(RouteParams(route)[|args|..], ",") + ">"))
    ensures |args| > |RouteParams(route)| ==> FormatRoute(route, args) == Err(Exception("Missing url parameter <>"))
  {
    assert Join([], ",") == "";
    assert "Missing url parameter <" + "" + ">" == "Missing url parameter <>";
  }

  /**
   * The loop never creates a placeholder: after it, every '<' still opens a
   * placeholder, and each one left was in `s` under a name not substituted.
   */
  lemma {:induction false} SubstituteKeeps(s: string, names: seq<string>, values: seq<string>)
    requires |names| == |values| && Closed(s) && Words(names) && NoBracket(values)
    ensures Closed(Substitute(s, names, values))
    ensures forall i :: 0 <= i < |Substitute(s, names, values)| && PlaceholderAt(Substitute(s, names, values), i) ==>
      NameAt(Substitute(s, names, values), i) !in names && Named(s, NameAt(Substitute(s, names, values), i))
    decreases |names|
  {
    if names != [] {
      var r1 := Replace(s, Tag(names[0]), values[0]);
      ReplaceClosed(s, names[0], values[0]);
      assert Words(names[1..]) && NoBracket(values[1..]) by {
        assert forall k :: 0 <= k < |names| - 1 ==> names[1..][k] == names[k + 1];
        assert forall k :: 0 <= k < |values| - 1 ==> values[1..][k] == values[k + 1];
      }
      SubstituteKeeps(r1, names[1..], values[1..]);
      var r := Substitute(s, names, values);
      assert r == Substitute(r1, names[1..], values[1..]);
      forall i | 0 <= i < |r| && PlaceholderAt(r, i) ensures NameAt(r, i) !in names && Named(s, NameAt(r, i)) {
        var q := NameAt(r, i);
        var j :| 0 <= j < |r1| && PlaceholderAt(r1, j) && NameAt(r1, j) == q;
        assert q != names[0];
        assert names == [names[0]] + names[1..];
      }
    }
  }

  /** A step whose placeholder no longer occurs replaces nothing, so its argument does not matter. */
  lemma {:induction false} UnnamedIgnored(s: string, names: seq<string>, values: seq<string>, k: nat, b: string)
    requires |names| == |values| && Closed(s) && Words(names) && NoBracket(values) && '<' !in b
    requires k < |names| && !Named(s, names[k])
    ensures Substitute(s, names, values) == Substitute(s, names, values[k := b])
    decreases |names|
  {
    assert Words(names[1..]) && NoBracket(values[1..]) by {
      assert forall k :: 0 <= k < |names| - 1 ==> names[1..][k] == names[k + 1];
      assert forall k :: 0 <= k < |values| - 1 ==> values[1..][k] == values[k + 1];
    }
    if k == 0 {
      forall i | 0 <= i <= |s| ensures !StartsAt(s, i, Tag(names[0])) {
        TagAt(s, i, names[0]);
      }
      ReplaceAbsent(s, Tag(names[0]), values[0]);
      ReplaceAbsent(s, Tag(names[0]), b);
      assert values[k := b][1..] == values[1..];
    } else {
      var r1 := Replace(s, Tag(names[0]), values[0]);
      ReplaceClosed(s, names[0], values[0]);
      forall j | 0 <= j < |r1| && PlaceholderAt(r1, j) ensures NameAt(r1, j) != names[k] {
        assert Named(s, NameAt(r1, j));
      }
      UnnamedIgnored(r1, names[1..], values[1..], k - 1, b);
      assert values[k := b][1..] == values[1..][k - 1 := b];
    }
  }

  /** When names[j] == names[k] with j < k, step j already replaced every `<name>`: argument k is never used. */
  lemma {:induction false} RepeatIgnored(s: string, names: seq<string>, values: seq<string>, j: nat, k: nat, b: string)
    requires |names| == |values| && Closed(s) && Words(names) && NoBracket(values) && '<' !in b
    requires j < k < |names| && names[j] == names[k]
    ensures Substitute(s, names, values) == Substitute(s, names, values[k := b])
    decreases j
  {
    assert Words(names[1..]) && NoBracket(values[1..]) by {
      assert forall k :: 0 <= k < |names| - 1 ==> names[1..][k] == names[k + 1];
      assert forall k :: 0 <= k < |values| - 1 ==> values[1..][k] == values[k + 1];
    }
    var r1 := Replace(s, Tag(names[0]), values[0]);
    ReplaceClosed(s, names[0], values[0]);
    if j == 0 {
      UnnamedIgnored(r1, names[1..], values[1..], k - 1, b);
    } else {
      RepeatIgnored(r1, names[1..], values[1..], j - 1, k - 1, b);
    }
    assert values[k := b][1..] == values[1..][k - 1 := b];
  }

  /** For a repeated param name only the argument at its first position is used. */
  lemma RepeatedNameIgnored(route: string, args: seq<string>, j: nat, k: nat, b: string)
    requires Closed(route) && NoBracket(args) && '<' !in b
    requires j < k < |RouteParams(route)| && k < |args| && RouteParams(route)[j] == RouteParams(route)[k]
    ensures FormatRoute(route, args) == FormatRoute(route, args[k := b])
  {
    if |args| == |RouteParams(route)| {
      RouteParamsNames(route);
      RepeatIgnored(route, RouteParams(route), args, j, k, b);
    }
  }

  /**
   * When every '<' of the route opens a placeholder and no argument holds a
   * '<', a successful format leaves no '<' at all: every placeholder is filled.
   */
  lemma NoPlaceholderRemains(route: string, args: seq<string>)
    requires Closed(route) && NoBracket(args) && FormatRoute(route, args).Ok?
    ensures '<' !in FormatRoute(route, args).value
  {
    var ps := RouteParams(route);
    RouteParamsNames(route);
    if ps == [] {
      NoParamsIff(route);
    } else {
      var r := Substitute(route, ps, args);
      SubstituteKeeps(route, ps, args);
    }
  }

  /** Without the Closed premise the claim fails: a stray '<' before a placeholder survives. */
  lemma StrayBracketSurvives()
    ensures FormatRoute("<<a>>", ["b"]) == Ok("<b>")
  {
    var s := "<<a>>";
    assert Span(s, 1, Word) == 1;
    assert !PlaceholderAt(s, 0);
    assert Span(s, 2, Word) == 3;
    assert PlaceholderAt(s, 1) && NameAt(s, 1) == "a";
    assert !PlaceholderAt(s, 4);
    assert RouteParams(s) == ["a"];
    assert Replace(">", "<a>", "b") == ">";
    assert Replace("<a>>", "<a>", "b") == "b>";
    assert Replace(s, "<a>", "b") == "<b>";
  }

  /**
   * Without the Closed premise a repeated name's later argument can matter:
   * in "<a><<a>a>" the first replacement joins a new "<a>", which the second
   * argument then fills.
   */
  lemma RepeatedNameUsedWithoutClosed()
    ensures RouteParams("<a><<a>a>") == ["a", "a"]
    ensures FormatRoute("<a><<a>a>", ["", "x"]) == Ok("x")
    ensures FormatRoute("<a><<a>a>", ["", "y"]) == Ok("y")
  {
    var s := "<a><<a>a>";
    RepeatedRouteParams();
    assert Replace(s, "<a>", "") == "<a>" by {
      FirstReplaceJoins();
    }
    assert Replace("<a>", "<a>", "x") == "x";
    assert Replace("<a>", "<a>", "y") == "y";
  }

  /** The names findall reports for "<a><<a>a>": the second '<' of "<<a>" opens no placeholder. */
  lemma RepeatedRouteParams()
    ensures RouteParams("<a><<a>a>") == ["a", "a"]
  {
    var s := "<a><<a>a>";
    assert Span(s, 1, Word) == 2;
    assert PlaceholderAt(s, 0) && NameAt(s, 0) == "a";
    assert Span(s, 5, Word) == 6;
    assert PlaceholderAt(s, 4) && NameAt(s, 4) == "a";
    assert ParamsFrom(s, 7) == [] by {
      assert !PlaceholderAt(s, 7) && !PlaceholderAt(s, 8);
    }
    assert ParamsFrom(s, 3) == ["a"] by {
      assert Span(s, 4, Word) == 4;
      assert !PlaceholderAt(s, 3);
    }
  }

  /** Removing both "<a>" of "<a><<a>a>" joins the stray '<' and the trailing "a>" into a new "<a>". */
  lemma FirstReplaceJoins()
    ensures Replace("<a><<a>a>", "<a>", "") == "<a>"
  {
    assert Replace("a>", "<a>", "") == "a>";
    assert Replace("<a>a>", "<a>", "") == "a>";
    assert Replace("<<a>a>", "<a>", "") == "<a>";
  }

  /** A route call object; route_params and route_params_length are derived from the route text. */
  datatype CallRoute = CallRoute(route: string, verb: string, contentType: string) {
    function Params(): (ps: seq<string>)
      ensures ps == RouteParams(route)
    {
      RouteParams(route)
    }
  }

  /** format_route_params, with its loop rewriting a local copy of the route. */
  method FormatRouteParams(cr: CallRoute, args: seq<string>) returns (r: Result<string, Error>)
    ensures r == FormatRoute(cr.route, args)
  {
    var ps := RouteParams(cr.route);
    if ps == [] {
      return Ok(cr.route);
    }
    if |args| != |ps| {
      return Err(MissingParams(ps, |args|));
    }
    var route := cr.route;
    var i := 0;
    while i < |ps|
      invariant 0 <= i <= |ps|
      invariant Substitute(route, ps[i..], args[i..]) == Substitute(cr.route, ps, args)
    {
      assert ps[i..][1..] == ps[i + 1..] && args[i..][1..] == args[i + 1..];
      route := Replace(route, Tag(ps[i]), args[i]);
      i := i + 1;
    }
    assert ps[i..] == [];
    return Ok(route);
  }

  // ---------------------------------------------------------------------
  // format_data

  /** The data a call may send: None, a str, a list or a dict. */
  datatype Data =
    | NoData
    | TextData(text: string)
    | ListData(items: seq<Val>)
    | DictData(entries: seq<(string, Val)>)

  /** Python truthiness of the data. */
  predicate Truthy(d: Data) {
    match d
    case NoData => false
    case TextData(t) => t != ""
    case ListData(items) => items != []
    case DictData(entries) => entries != []
  }

  /** An encoded request body: `json.dumps(data).encode('utf-8')` (kept symbolic) or `text.encode('utf-8')`. */
  datatype Body = JsonBytes(data: Data) | Utf8Bytes(text: string)

  /** Does the content type contain 'application/json'? */
  predicate IsJsonType(contentType: string) {
    Find(contentType, ContentTypeJson, 0).Some?
  }

  /** CallRoute.format_data: None for falsy data, JSON for a JSON content type, else `data.encode`. */
  function FormatData(contentType: string, d: Data): (r: Result<Option<Body>, Error>)
    ensures !Truthy(d) ==> r == Ok(None)
    ensures Truthy(d) && IsJsonType(contentType) ==> r == Ok(Some(JsonBytes(d)))
    ensures Truthy(d) && !IsJsonType(contentType) && d.TextData? ==> r == Ok(Some(Utf8Bytes(d.text)))
    ensures r.Err? <==> Truthy(d) && !IsJsonType(contentType) && !d.TextData?
    ensures r.Err? ==> r.error == AttributeError("encode")
  {
    if !Truthy(d) then Ok(None)
    else if IsJsonType(contentType) then Ok(Some(JsonBytes(d)))
    else if d.TextData? then Ok(Some(Utf8Bytes(d.text)))
    else Err(AttributeError("encode"))
  }

  /** The content type json_headers builds is a JSON content type, so truthy data is sent as JSON. */
  lemma JsonHeadersSendJson(encoding: string, d: Data)
    requires Truthy(d)
    ensures FormatData(JsonHeaders(encoding)[ContentType], d) == Ok(Some(JsonBytes(d)))
  {
    var ct := JsonHeaders(encoding)[ContentType];
    assert StartsAt(ct, 0, ContentTypeJson);
  }

  // ---------------------------------------------------------------------
  // Caller.call

  /** What url_call is handed: the url, the body, the method and the headers. */
  datatype Request = Request(url: string, body: Option<Body>, verb: string, headers: map<string, string>)

  /** What `format_route_params(*None)` raises: the default `route_params=None` is not iterable. */
  const NotIterable: Error := TypeError("CallRoute.format_route_params() argument after * must be an iterable, not NoneType")

  /**
   * The url of a call: base url, formatted route, then `?` and the encoded
   * params when there are any.  `routeParams` is None when the caller left the
   * argument at its default.
   */
  function CallUrl(baseUrl: string, cr: CallRoute, routeParams: Option<seq<string>>, params: seq<(string, string)>): Result<string, Error> {
    if routeParams.None? then Err(NotIterable)
    else
      match FormatRoute(cr.route, routeParams.value)
      case Err(e) => Err(e)
      case Ok(path) => Ok(if params == [] then baseUrl + path else EncodeUrlParams(baseUrl + path, params))
  }

  /** Without route_params every call fails with TypeError, before the route is even looked at. */
  lemma MissingRouteParamsFails(baseUrl: string, cr: CallRoute, params: seq<(string, string)>)
    ensures CallUrl(baseUrl, cr, None, params) == Err(NotIterable) && NotIterable.TypeError?
  {
  }

  /** The url always starts with the base url and the formatted route; a query is appended only for non-empty params. */
  lemma CallUrlShape(baseUrl: string, cr: CallRoute, routeParams: seq<string>, params: seq<(string, string)>)
    requires FormatRoute(cr.route, routeParams).Ok?
    ensures var u := CallUrl(baseUrl, cr, Some(routeParams), params);
      var prefix := baseUrl + FormatRoute(cr.route, routeParams).value;
      && u.Ok? && |prefix| <= |u.value| && u.value[..|prefix|] == prefix
      && (params == [] <==> u.value == prefix)
      && (params != [] ==> u.value[|prefix|..] == "?" + UrlEncode(params))
  {
    var prefix := baseUrl + FormatRoute(cr.route, routeParams).value;
    assert CallUrl(baseUrl, cr, Some(routeParams), params)
      == Ok(if params == [] then prefix else EncodeUrlParams(prefix, params));
    if params != [] {
      QueryAppended(prefix, params);
    }
  }

  /** Encoding params onto a url keeps the url as a strict prefix, followed by `?` and the query. */
  lemma QueryAppended(url: string, params: seq<(string, string)>)
    ensures var u := EncodeUrlParams(url, params);
      |u| > |url| && u[..|url|] == url && u[|url|..] == "?" + UrlEncode(params)
  {
    var u := EncodeUrlParams(url, params);
    assert u[|url|..] == [u[|url|]] + u[|url| + 1..];
  }

  /**
   * The request Caller.call builds, from the headers dict after `headers or {}`:
   * the route error comes first, then the headers get the route's content
   * type, then the data is encoded.
   */
  function BuildRequest(baseUrl: string, cr: CallRoute, routeParams: Option<seq<string>>, params: seq<(string, string)>,
                        headers: map<string, string>, d: Data): Result<Request, Error>
  {
    match CallUrl(baseUrl, cr, routeParams, params)
    case Err(e) => Err(e)
    case Ok(url) =>
      match FormatData(cr.contentType, d)
      case Err(e) => Err(e)
      case Ok(body) => Ok(Request(url, body, cr.verb, headers[ContentType := cr.contentType]))
  }

  /**
   * A call fails exactly when the url (a missing route_params, or a route that
   * cannot be formatted) or the data cannot be built, the url error first; otherwise it sends the route's method and encoded data,
   * and the caller's headers with Content-Type set to the route's content type.
   */
  lemma BuildRequestShape(baseUrl: string, cr: CallRoute, routeParams: Option<seq<string>>, params: seq<(string, string)>,
                          headers: map<string, string>, d: Data)
    ensures var r := BuildRequest(baseUrl, cr, routeParams, params, headers, d);
      && (r.Ok? <==> routeParams.Some? && FormatRoute(cr.route, routeParams.value).Ok? && FormatData(cr.contentType, d).Ok?)
      && (routeParams.None? ==> r == Err(NotIterable))
      && (routeParams.Some? && FormatRoute(cr.route, routeParams.value).Err? ==>
            r == Err(FormatRoute(cr.route, routeParams.value).error))
      && (routeParams.Some? && FormatRoute(cr.route, routeParams.value).Ok? && FormatData(cr.contentType, d).Err? ==>
            r == Err(FormatData(cr.contentType, d).error))
      && (r.Ok? ==> r.value.url == CallUrl(baseUrl, cr, routeParams, params).value)
      && (r.Ok? ==> r.value.verb == cr.verb && r.value.body == FormatData(cr.contentType, d).value)
      && (r.Ok? ==> r.value.headers.Keys == headers.Keys + {ContentType})
      && (r.Ok? ==> r.value.headers[ContentType] == cr.contentType)
      && (r.Ok? ==> forall k :: k in headers && k != ContentType ==> r.value.headers[k] == headers[k])
  {
  }

  /** A headers dict the caller passes in; Caller.call writes Content-Type into it in place. */
  class HeaderDict {
    var items: map<string, string>

    constructor (items: map<string, string>)
      ensures this.items == items
    {
      this.items := items;
    }
  }

  /** The dict `headers or {}` stands for: the caller's items, or an empty dict when there is none. */
  function Incoming(h: Option<HeaderDict>): map<string, string>
    reads if h.Some? then {h.value} else {}
  {
    if h.Some? then h.value.items else map[]
  }

  /**
   * `headers = headers or {}; headers['Content-Type'] = ct`: a non-empty dict
   * of the caller is written in place, an empty or missing one is replaced by
   * a fresh dict; `sent` is the dict url_call receives.
   */
  method SetContentType(headers: Option<HeaderDict>, ct: string) returns (sent: map<string, string>)
    modifies if headers.Some? then {headers.value} else {}
    ensures sent == old(Incoming(headers))[ContentType := ct]
    ensures headers.Some? ==>
      headers.value.items == if old(headers.value.items) != map[] then old(headers.value.items)[ContentType := ct]
                             else old(headers.value.items)
  {
    if headers.Some? && headers.value.items != map[] {
      headers.value.items := headers.value.items[ContentType := ct];
      sent := headers.value.items;
    } else {
      sent := map[ContentType := ct];
    }
  }

  /** Caller: a base url and an optional container that collects the promises of the calls. */
  class Caller {
    const baseUrl: string
    const container: Option<Receiver>

    constructor (baseUrl: string, container: Option<Receiver>)
      ensures this.baseUrl == baseUrl && this.container == container
    {
      this.baseUrl := baseUrl;
      this.container := container;
    }

    /**
     * Caller.call.  `p` is the promise url_call returns for the request and
     * `after` the complete callback that forwards to after_call.  On success
     * the request is the one BuildRequest describes, `p` gets `after` as a
     * complete callback and is added to the container when there is one (for
     * a pool, `target` is the queue that took it).  A non-empty headers dict
     * is updated in place; an empty one is replaced by a fresh dict.  A route
     * error leaves everything untouched; a data error comes after the headers
     * were written.
     */
    method Call(cr: CallRoute, routeParams: Option<seq<string>>, params: seq<(string, string)>,
                headers: Option<HeaderDict>, d: Data, p: Promise, after: Callback)
      returns (r: Result<Promise, Error>, request: Option<Request>, ghost target: Option<ThreadQueues.PromiseQueue>)
      requires p.Valid()
      requires container.Some? ==> Ready(container.value)
      modifies p`completes
      modifies if container.Some? then Footprint(container.value) else {}
      modifies if headers.Some? then {headers.value} else {}
      ensures var built := BuildRequest(baseUrl, cr, routeParams, params, old(Incoming(headers)), d);
        && (r.Ok? <==> built.Ok?)
        && (r.Err? ==> r.error == built.error && request == None)
        && (r.Ok? ==> r.value == p && request == Some(built.value))
      ensures p.Valid()
      ensures r.Ok? ==> p.Snapshot() == CompleteSpec(old(p.Snapshot()), after)
      ensures r.Err? ==> p.Snapshot() == old(p.Snapshot())
      ensures container.Some? && container.value.DictContainer? ==> var c := container.value.dict;
        c.promises == if r.Ok? then Register(old(c.promises), p) else old(c.promises)
      ensures container.Some? && container.value.QueuePool? && r.Ok? ==> var pp := container.value.pool;
        target.Some? && PoolTook(pp, old(StateOf(pp)), p, target.value)
      ensures container.Some? && container.value.DictContainer? && r.Err? ==> unchanged(container.value.dict)
      ensures container.Some? && container.value.QueuePool? && r.Err? ==> var pp := container.value.pool;
        unchanged(pp, pp.counter) && unchanged(old(pp.pool))
      ensures headers.Some? ==>
        if CallUrl(baseUrl, cr, routeParams, params).Ok? && old(headers.value.items) != map[]
        then headers.value.items == old(headers.value.items)[ContentType := cr.contentType]
        else headers.value.items == old(headers.value.items)
    {
      target := None;
      var built := Prepare(cr, routeParams, params, headers, d, {p} + if container.Some? then Footprint(container.value) else {});
      if built.Err? {
        return Err(built.error), None, None;
      }
      request := Some(built.value);
      if container.Some? && container.value.QueuePool? {
        StateKept(container.value.pool);
      }
      target := Dispatch(p, after, if headers.Some? then {headers.value} else {});
      r := Ok(p);
    }

    /** The part of Caller.call before url_call: the url, the Content-Type header and the encoded data. */
    method Prepare(cr: CallRoute, routeParams: Option<seq<string>>, params: seq<(string, string)>,
                   headers: Option<HeaderDict>, d: Data, ghost keep: set<object>) returns (built: Result<Request, Error>)
      requires headers.Some? ==> headers.value !in keep
      modifies if headers.Some? then {headers.value} else {}
      ensures unchanged(keep)
      ensures built == BuildRequest(baseUrl, cr, routeParams, params, old(Incoming(headers)), d)
      ensures headers.Some? ==>
        if CallUrl(baseUrl, cr, routeParams, params).Ok? && old(headers.value.items) != map[]
        then headers.value.items == old(headers.value.items)[ContentType := cr.contentType]
        else headers.value.items == old(headers.value.items)
    {
      var url := Url(cr, routeParams, params);
      if url.Err? {
        return Err(url.error);
      }
      var sent := SetContentType(headers, cr.contentType);
      var body := FormatData(cr.contentType, d);
      if body.Err? {
        return Err(body.error);
      }
      built := Ok(Request(url.value, body.value, cr.verb, sent));
    }

    /** `url = f'{base_url}{route.format_route_params(*route_params)}'`, then encode_url_params when params is truthy. */
    method Url(cr: CallRoute, routeParams: Option<seq<string>>, params: seq<(string, string)>) returns (url: Result<string, Error>)
      ensures url == CallUrl(baseUrl, cr, routeParams, params)
    {
      if routeParams.None? {
        return Err(NotIterable);
      }
      var path := FormatRouteParams(cr, routeParams.value);
      if path.Err? {
        return Err(path.error);
      }
      var u := baseUrl + path.value;
      if params != [] {
        u := EncodeUrlParams(u, params);
      }
      return Ok(u);
    }

    /**
     * promise.complete(after_call) and, when a container is set,
     * container.add_promise(promise).  The objects in `keep` are neither the
     * promise nor part of the container, and stay as they were.
     */
    method Dispatch(p: Promise, after: Callback, ghost keep: set<object>)
      returns (ghost target: Option<ThreadQueues.PromiseQueue>)
      requires p.Valid()
      requires container.Some? ==> Ready(container.value) && keep !! Footprint(container.value)
      requires p !in keep
      modifies p`completes
      modifies if container.Some? then Footprint(container.value) else {}
      ensures p.Valid()
      ensures p.Snapshot() == CompleteSpec(old(p.Snapshot()), after)
      ensures container.Some? && container.value.DictContainer? ==> var c := container.value.dict;
        c.promises == Register(old(c.promises), p)
      ensures container.Some? && container.value.QueuePool? ==> var pp := container.value.pool;
        target.Some? && PoolTook(pp, old(StateOf(pp)), p, target.value)
      ensures unchanged(keep)
    {
      var q := p.Complete(after);
      target := None;
      if container.Some? {
        if container.value.QueuePool? {
          StateKept(container.value.pool);
        }
        target := AddTo(container.value, p, keep);
      }
    }
  }
}
