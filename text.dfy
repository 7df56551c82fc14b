/**
 * Character classes, scanning and formatting on strings, shared by the URL,
 * route and output-formatting models.  Python's `\w` and `\d` are taken as
 * their ASCII meaning.
 */
module Text {
  import opened Wrappers

  predicate IsDigit(c: char) {
    '0' <= c <= '9'
  }

  predicate IsAsciiLetter(c: char) {
    'a' <= c <= 'z' || 'A' <= c <= 'Z'
  }

  /** `\w`: ASCII letters, digits and '_'. */
  predicate IsWordChar(c: char) {
    IsAsciiLetter(c) || IsDigit(c) || c == '_'
  }

  /** The character classes of the patterns the model scans. */
  datatype CharClass =
    | Word              // \w
    | Digit             // \d
    | HostClass         // [\w.]
    | PathClass         // [/\w.]
    | ParamClass        // [\w/=&\-+]
    | TagClass          // [\w-]
    | NotNewline        // .
    | LineBreak         // [\r\n]
    | NotLineBreak      // [^\r\n]

  predicate In(cl: CharClass, c: char) {
    match cl
    case Word => IsWordChar(c)
    case Digit => IsDigit(c)
    case HostClass => IsWordChar(c) || c == '.'
    case PathClass => IsWordChar(c) || c == '/' || c == '.'
    case ParamClass => IsWordChar(c) || c == '/' || c == '=' || c == '&' || c == '-' || c == '+'
    case TagClass => IsWordChar(c) || c == '-'
    case NotNewline => c != '\n'
    case LineBreak => c == '\r' || c == '\n'
    case NotLineBreak => c != '\r' && c != '\n'
  }

  predicate AllIn(s: string, cl: CharClass) {
    forall k :: 0 <= k < |s| ==> In(cl, s[k])
  }

  /** The end of the longest run of characters of class `cl` that starts at `i`. */
  function Span(s: string, i: nat, cl: CharClass): (j: nat)
    requires i <= |s|
    ensures i <= j <= |s|
    decreases |s| - i
  {
    if i < |s| && In(cl, s[i]) then Span(s, i + 1, cl) else i
  }

  /** Every character of the run is in the class, and the one after it (if any) is not. */
  lemma {:induction false} SpanRun(s: string, i: nat, cl: CharClass)
    requires i <= |s|
    ensures forall k :: i <= k < Span(s, i, cl) ==> In(cl, s[k])
    ensures Span(s, i, cl) < |s| ==> !In(cl, s[Span(s, i, cl)])
    decreases |s| - i
  {
    if i < |s| && In(cl, s[i]) {
      SpanRun(s, i + 1, cl);
    }
  }

  /** A run that ends where the class fails (or at the end) is the one Span finds. */
  lemma {:induction false} SpanIs(s: string, i: nat, j: nat, cl: CharClass)
    requires i <= j <= |s|
    requires forall k :: i <= k < j ==> In(cl, s[k])
    requires j < |s| ==> !In(cl, s[j])
    ensures Span(s, i, cl) == j
    decreases j - i
  {
    if i < j {
      SpanIs(s, i + 1, j, cl);
    }
  }

  /** A run read inside a suffix `b` of `a + b` is the same run, shifted by |a|. */
  lemma {:induction false} SpanShift(a: string, b: string, k: nat, cl: CharClass)
    requires k <= |b|
    ensures Span(a + b, |a| + k, cl) == |a| + Span(b, k, cl)
    decreases |b| - k
  {
    if k < |b| {
      assert (a + b)[|a| + k] == b[k];
      if In(cl, b[k]) {
        SpanShift(a, b, k + 1, cl);
      }
    }
  }

  predicate StartsAt(s: string, i: nat, t: string) {
    i + |t| <= |s| && s[i..i + |t|] == t
  }

  /** The leftmost occurrence of `t` in `s` at or after `i` (`re.search` / `str.find`). */
  function Find(s: string, t: string, i: nat): (r: Option<nat>)
    requires i <= |s|
    ensures r.Some? ==> i <= r.value <= |s| && StartsAt(s, r.value, t)
    ensures r.Some? ==> forall m :: i <= m < r.value ==> !StartsAt(s, m, t)
    ensures r.None? ==> forall m :: i <= m <= |s| ==> !StartsAt(s, m, t)
    decreases |s| - i
  {
    if StartsAt(s, i, t) then Some(i)
    else if i == |s| then None
    else Find(s, t, i + 1)
  }

  /** An occurrence with none before it (from `i`) is the one Find returns. */
  lemma {:induction false} FindIs(s: string, t: string, i: nat, k: nat)
    requires i <= k <= |s| && StartsAt(s, k, t)
    requires forall m :: i <= m < k ==> !StartsAt(s, m, t)
    ensures Find(s, t, i) == Some(k)
    decreases k - i
  {
    if i < k {
      FindIs(s, t, i + 1, k);
    }
  }

  /** `sep.join(parts)`. */
  function Join(parts: seq<string>, sep: string): string
  {
    if parts == [] then ""
    else if |parts| == 1 then parts[0]
    else parts[0] + sep + Join(parts[1..], sep)
  }

  /** How many times `c` occurs in `s`. */
  function Count(s: string, c: char): (n: nat)
    ensures n <= |s|
    ensures n == 0 <==> c !in s
  {
    if s == [] then 0 else (if s[0] == c then 1 else 0) + Count(s[1..], c)
  }

  lemma {:induction false} CountConcat(a: string, b: string, c: char)
    ensures Count(a + b, c) == Count(a, c) + Count(b, c)
    decreases |a|
  {
    if a == [] {
      assert a + b == b;
    } else {
      assert (a + b)[1..] == a[1..] + b;
      CountConcat(a[1..], b, c);
    }
  }

  /** Joining pieces adds one separator character between neighbours. */
  lemma {:induction false} CountJoin(parts: seq<string>, c: char)
    requires forall k :: 0 <= k < |parts| ==> c !in parts[k]
    ensures Count(Join(parts, [c]), c) == if parts == [] then 0 else |parts| - 1
    decreases |parts|
  {
    if |parts| > 1 {
      CountJoin(parts[1..], c);
      CountConcat(parts[0] + [c], Join(parts[1..], [c]), c);
      CountConcat(parts[0], [c], c);
    } else if |parts| == 1 {
      assert Count(parts[0], c) == 0;
    }
  }

  /** A character absent from every piece and from the separator is absent from the join. */
  lemma {:induction false} JoinLacks(parts: seq<string>, sep: string, c: char)
    requires c !in sep && forall k :: 0 <= k < |parts| ==> c !in parts[k]
    ensures c !in Join(parts, sep)
    decreases |parts|
  {
    if |parts| > 1 {
      JoinLacks(parts[1..], sep, c);
    }
  }

  // ---------------------------------------------------------------------
  // Decimal numerals: `int(digits)` and `str(n)`.

  function DigitValue(c: char): (d: nat)
    requires IsDigit(c)
    ensures d < 10
  {
    (c as int - '0' as int) as nat
  }

  function DigitChar(d: nat): (c: char)
    requires d < 10
    ensures IsDigit(c) && DigitValue(c) == d
  {
    ('0' as int + d) as char
  }

  /** The value of a string of decimal digits, most significant first. */
  function DecimalValue(ds: string): nat
    requires AllIn(ds, Digit)
  {
    if ds == [] then 0 else DecimalValue(ds[..|ds| - 1]) * 10 + DigitValue(ds[|ds| - 1])
  }

  /** str(n) for a natural number. */
  function Decimal(n: nat): (ds: string)
    ensures ds != [] && AllIn(ds, Digit)
  {
    if n < 10 then [DigitChar(n)] else Decimal(n / 10) + [DigitChar(n % 10)]
  }

  /** int(str(n)) == n. */
  lemma {:induction false} DecimalRoundTrip(n: nat)
    ensures DecimalValue(Decimal(n)) == n
  {
    if n >= 10 {
      var ds := Decimal(n);
      assert ds[..|ds| - 1] == Decimal(n / 10);
      DecimalRoundTrip(n / 10);
    }
  }
}
