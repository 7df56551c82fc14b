/**
 * prompy/networkio/url_tools.py: the `Url` parser, its `params` setter,
 * `detect_content_charset`, `encode_url_params`, `json_headers`, and the
 * `urllib.parse.urlencode` / `quote_plus` encoding they rely on.
 *
 * The URL pattern `(https?)://([\w.]*)(:\d*)?([/\w.]*)\??([\w/=&\-+]*)#?([\w-]*)`
 * is searched, not matched.  After `https?://` every group may be empty and is
 * greedy, and nothing after a group can fail, so scanning each group as the
 * longest run of its characters gives exactly the regex's match.
 */
module UrlTools {
  import opened Wrappers
  import opened Errors
  import opened Text

  // ---------------------------------------------------------------------
  // urlencode and quote_plus.

  /** Characters quote_plus never escapes: ASCII letters, digits and `_.-~`. */
  predicate AlwaysSafe(c: char) {
    IsAsciiLetter(c) || IsDigit(c) || c == '_' || c == '.' || c == '-' || c == '~'
  }

  /** The UTF-8 encoding of one character. */
  function Utf8(c: char): (bs: seq<nat>)
    ensures 1 <= |bs| <= 4
    ensures forall k :: 0 <= k < |bs| ==> bs[k] < 256
    ensures bs[0] < 0x80 <==> |bs| == 1
    ensures forall k :: 1 <= k < |bs| ==> 0x80 <= bs[k] < 0xC0
  {
    var n := c as int;
    if n < 0x80 then [n]
    else if n < 0x800 then [0xC0 + n / 0x40, 0x80 + n % 0x40]
    else if n < 0x10000 then [0xE0 + n / 0x1000, 0x80 + (n / 0x40) % 0x40, 0x80 + n % 0x40]
    else [0xF0 + n / 0x40000, 0x80 + (n / 0x1000) % 0x40, 0x80 + (n / 0x40) % 0x40, 0x80 + n % 0x40]
  }

  function HexDigit(d: nat): (c: char)
    requires d < 16
    ensures AlwaysSafe(c)
  {
    if d < 10 then DigitChar(d) else ('A' as int + (d - 10)) as char
  }

  /** `%XX` for each byte, upper-case hexadecimal. */
  function PercentBytes(bs: seq<nat>): (r: string)
    requires forall k :: 0 <= k < |bs| ==> bs[k] < 256
    ensures |r| == 3 * |bs|
    ensures forall k :: 0 <= k < |r| ==> r[k] == '%' || AlwaysSafe(r[k])
  {
    if bs == [] then "" else ['%', HexDigit(bs[0] / 16), HexDigit(bs[0] % 16)] + PercentBytes(bs[1..])
  }

  function QuoteChar(c: char): (r: string)
    ensures forall k :: 0 <= k < |r| ==> r[k] == '%' || r[k] == '+' || AlwaysSafe(r[k])
  {
    if AlwaysSafe(c) then [c] else if c == ' ' then "+" else PercentBytes(Utf8(c))
  }

  /** quote_plus(s): safe characters kept, space as '+', the rest percent-encoded. */
  function QuotePlus(s: string): (r: string)
    ensures forall k :: 0 <= k < |r| ==> r[k] == '%' || r[k] == '+' || AlwaysSafe(r[k])
  {
    if s == [] then "" else QuoteChar(s[0]) + QuotePlus(s[1..])
  }

  /** A string of safe characters is its own quoting. */
  lemma {:induction false} QuotePlusKeepsSafe(s: string)
    requires forall k :: 0 <= k < |s| ==> AlwaysSafe(s[k])
    ensures QuotePlus(s) == s
  {
    if s != [] {
      QuotePlusKeepsSafe(s[1..]);
    }
  }

  /** urlencode(params) for a dict whose keys and values are already strings (`str` of each). */
  function UrlEncode(params: seq<(string, string)>): string {
    Join(seq(|params|, i requires 0 <= i < |params| => QuotePlus(params[i].0) + "=" + QuotePlus(params[i].1)), "&")
  }

  /** Quoted text holds no '&', '#' or '?'. */
  lemma QuotedLacks(r: string)
    requires forall k :: 0 <= k < |r| ==> r[k] == '%' || r[k] == '+' || AlwaysSafe(r[k])
    ensures '&' !in r && '#' !in r && '?' !in r
  {
  }

  /** One encoded pair holds no '&', '#' or '?'. */
  lemma EncodedPairLacks(key: string, value: string)
    ensures var part := QuotePlus(key) + "=" + QuotePlus(value);
      '&' !in part && '#' !in part && '?' !in part
  {
    QuotedLacks(QuotePlus(key));
    QuotedLacks(QuotePlus(value));
  }

  /** Quoting leaves no '&': the pairs are separated by exactly |params|-1 '&'. */
  lemma EncodedPairsSeparate(params: seq<(string, string)>)
    ensures Count(UrlEncode(params), '&') == if params == [] then 0 else |params| - 1
    ensures '#' !in UrlEncode(params) && '?' !in UrlEncode(params)
  {
    var parts := seq(|params|, i requires 0 <= i < |params| => QuotePlus(params[i].0) + "=" + QuotePlus(params[i].1));
    forall i | 0 <= i < |parts|
      ensures '&' !in parts[i] && '#' !in parts[i] && '?' !in parts[i]
    {
      EncodedPairLacks(params[i].0, params[i].1);
    }
    CountJoin(parts, '&');
    JoinLacks(parts, "&", '#');
    JoinLacks(parts, "&", '?');
  }

  /** encode_url_params(url, params): always `url?encoded`, even when url already holds a '?'. */
  function EncodeUrlParams(url: string, params: seq<(string, string)>): (r: string)
    ensures |r| == |url| + 1 + |UrlEncode(params)|
    ensures r[..|url|] == url && r[|url|] == '?' && r[|url| + 1..] == UrlEncode(params)
    ensures Count(r, '?') == Count(url, '?') + 1
  {
    var r := url + "?" + UrlEncode(params);
    EncodedPairsSeparate(params);
    CountConcat(url + "?", UrlEncode(params), '?');
    CountConcat(url, "?", '?');
    assert r[|url| + 1..] == UrlEncode(params);
    r
  }

  // ---------------------------------------------------------------------
  // Headers and charset.

  const ContentType := "Content-Type"
  const ContentTypeJson := "application/json"

  /** json_headers(encoding) */
  function JsonHeaders(encoding: string): (h: map<string, string>)
    ensures h.Keys == {ContentType}
  {
    map[ContentType := ContentTypeJson + "; charset=" + encoding]
  }

  /** detect_content_charset: what follows the first `charset=`, up to a line break. */
  function DetectContentCharset(contentType: string): (r: Option<string>)
    ensures r.None? <==> forall m :: 0 <= m <= |contentType| ==> !StartsAt(contentType, m, "charset=")
    ensures r.Some? ==> '\n' !in r.value
  {
    match Find(contentType, "charset=", 0)
    case None => None
    case Some(k) =>
      var e := Span(contentType, k + 8, NotNewline);
      SpanRun(contentType, k + 8, NotNewline);
      Some(contentType[k + 8..e])
  }

  /** The charset written by json_headers is the one detect_content_charset reads back. */
  lemma JsonHeadersCharset(encoding: string)
    requires '\n' !in encoding
    ensures DetectContentCharset(JsonHeaders(encoding)[ContentType]) == Some(encoding)
  {
    var ct := ContentTypeJson + "; charset=" + encoding;
    assert JsonHeaders(encoding)[ContentType] == ct;
    CharsetAfterPrefix("application/json; ", encoding);
    assert ct == "application/json; " + "charset=" + encoding;
  }

  /** After a prefix with no 'h', the first `charset=` is the one that follows it. */
  lemma CharsetAfterPrefix(prefix: string, encoding: string)
    requires 'h' !in prefix && '\n' !in encoding
    ensures DetectContentCharset(prefix + "charset=" + encoding) == Some(encoding)
  {
    var ct := prefix + "charset=" + encoding;
    var k := |prefix|;
    assert ct[k..k + 8] == "charset=";
    forall m | 0 <= m < k ensures !StartsAt(ct, m, "charset=") {
      if m + 1 < k {
        assert ct[m + 1] == prefix[m + 1];
      } else {
        assert ct[m + 1] == 'c';
      }
      assert ct[m..m + 8][1] == ct[m + 1] != 'h';
    }
    FindIs(ct, "charset=", 0, k);
    forall j | k + 8 <= j < |ct| ensures In(NotNewline, ct[j]) {
      assert ct[j] == encoding[j - k - 8];
    }
    SpanIs(ct, k + 8, |ct|, NotNewline);
    assert ct[k + 8..|ct|] == encoding;
    assert DetectContentCharset(ct) == Some(ct[k + 8..|ct|]);
  }

  /** The detected charset ends at a line break or at the end of the header. */
  lemma CharsetStopsAtLineBreak(contentType: string)
    requires DetectContentCharset(contentType).Some?
    ensures var k := Find(contentType, "charset=", 0).value;
      var v := DetectContentCharset(contentType).value;
      StartsAt(contentType, k + 8, v)
      && (k + 8 + |v| == |contentType| || contentType[k + 8 + |v|] == '\n')
  {
    SpanRun(contentType, Find(contentType, "charset=", 0).value + 8, NotNewline);
  }

  // ---------------------------------------------------------------------
  // Url.

  /** `https?://` matches at i. */
  predicate SchemeAt(s: string, i: nat) {
    StartsAt(s, i, "http://") || StartsAt(s, i, "https://")
  }

  /** The leftmost position at or after i where `https?://` matches. */
  function FindScheme(s: string, i: nat): (r: Option<nat>)
    requires i <= |s|
    ensures r.Some? ==> i <= r.value <= |s| && SchemeAt(s, r.value)
    decreases |s| - i
  {
    if SchemeAt(s, i) then Some(i) else if i == |s| then None else FindScheme(s, i + 1)
  }

  /** FindScheme finds the leftmost match, and finds none only when there is none. */
  lemma {:induction false} FindSchemeLeftmost(s: string, i: nat)
    requires i <= |s|
    ensures FindScheme(s, i).Some? ==> forall m :: i <= m < FindScheme(s, i).value ==> !SchemeAt(s, m)
    ensures FindScheme(s, i).None? ==> forall m :: i <= m <= |s| ==> !SchemeAt(s, m)
    decreases |s| - i
  {
    if !SchemeAt(s, i) && i < |s| {
      FindSchemeLeftmost(s, i + 1);
    }
  }

  /** Where each group of the pattern starts and ends, for a match at `start`. */
  datatype Spans = Spans(
    start: nat, protocol: string, hostStart: nat, hostEnd: nat, portEnd: nat,
    pathEnd: nat, paramsStart: nat, paramsEnd: nat, tagStart: nat, tagEnd: nat)

  /** One more position when `c` is at i (an optional character of the pattern). */
  function Skip(s: string, i: nat, c: char): (j: nat)
    requires i <= |s|
    ensures j == (if i < |s| && s[i] == c then i + 1 else i) && j <= |s|
  {
    if i < |s| && s[i] == c then i + 1 else i
  }

  /** The end of `(:\d*)?` after the host. */
  function PortEnd(s: string, hostEnd: nat): (j: nat)
    requires hostEnd <= |s|
    ensures hostEnd <= j <= |s|
    ensures j == (if hostEnd < |s| && s[hostEnd] == ':' then Span(s, hostEnd + 1, Digit) else hostEnd)
  {
    if hostEnd < |s| && s[hostEnd] == ':' then Span(s, hostEnd + 1, Digit) else hostEnd
  }

  function ProtocolAt(s: string, start: nat): (p: string)
    requires SchemeAt(s, start)
    ensures p == "http" || p == "https"
    ensures start + |p| + 3 <= |s| && StartsAt(s, start, p + "://")
  {
    if StartsAt(s, start, "https://") then
      assert s[start..start + 8] == "https" + "://";
      "https"
    else
      assert s[start..start + 7] == "http" + "://";
      "http"
  }

  /** The groups of the match at `start`: each the longest run of its class, the '?' and '#' optional. */
  function MatchAt(s: string, start: nat): (m: Spans)
    requires start <= |s| && SchemeAt(s, start)
    ensures m.start == start && m.protocol == ProtocolAt(s, start)
    ensures m.hostStart == start + |m.protocol| + 3
    ensures m.hostStart <= m.hostEnd <= m.portEnd <= m.pathEnd <= m.paramsStart <= m.paramsEnd
            <= m.tagStart <= m.tagEnd <= |s|
  {
    var protocol := ProtocolAt(s, start);
    var hs := start + |protocol| + 3;
    var he := Span(s, hs, HostClass);
    var pe := PortEnd(s, he);
    var pathEnd := Span(s, pe, PathClass);
    var ps := Skip(s, pathEnd, '?');
    var pend := Span(s, ps, ParamClass);
    var ts := Skip(s, pend, '#');
    Spans(start, protocol, hs, he, pe, pathEnd, ps, pend, ts, Span(s, ts, TagClass))
  }

  /** The digits after ':' are digits. */
  lemma PortDigits(s: string, he: nat)
    requires he <= |s|
    ensures PortEnd(s, he) > he ==> AllIn(s[he + 1..PortEnd(s, he)], Digit)
  {
    if PortEnd(s, he) > he {
      SpanRun(s, he + 1, Digit);
      var ds := s[he + 1..PortEnd(s, he)];
      forall k | 0 <= k < |ds| ensures In(Digit, ds[k]) {
        assert ds[k] == s[he + 1 + k];
      }
    }
  }

  datatype Url = Url(
    url: string, protocol: string, host: string, port: Option<nat>,
    path: string, params: string, tag: string)

  const EmptyIntLiteral := ValueError("invalid literal for int() with base 10: ''")

  /** The groups that ordered match ends delimit, with the port read as a decimal number. */
  predicate Delimits(s: string, m: Spans) {
    && m.hostStart <= m.hostEnd <= m.portEnd <= m.pathEnd <= m.paramsStart <= m.paramsEnd
       <= m.tagStart <= m.tagEnd <= |s|
    && (m.portEnd > m.hostEnd ==> AllIn(s[m.hostEnd + 1..m.portEnd], Digit))
  }

  /** The Url built from a match; ':' with no digit after it is `int('')`. */
  function UrlOfMatch(s: string, m: Spans): (r: Result<Url, Error>)
    requires Delimits(s, m)
    ensures r.Err? <==> m.portEnd == m.hostEnd + 1
    ensures r.Err? ==> r.error == EmptyIntLiteral
    ensures r.Ok? ==> r.value.url == s && r.value.protocol == m.protocol
  {
    if m.portEnd == m.hostEnd + 1 then Err(EmptyIntLiteral)
    else
      var port := if m.portEnd == m.hostEnd then None else Some(DecimalValue(s[m.hostEnd + 1..m.portEnd]));
      Ok(Url(s, m.protocol, s[m.hostStart..m.hostEnd], port,
             s[m.portEnd..m.pathEnd], s[m.paramsStart..m.paramsEnd], s[m.tagStart..m.tagEnd]))
  }

  /** Url(url) */
  function ParseUrl(s: string): (r: Result<Url, Error>)
  {
    match FindScheme(s, 0)
    case None => Err(TypeError("Not a valid url -- " + s))
    case Some(i) =>
      var m := MatchAt(s, i);
      PortDigits(s, m.hostEnd);
      UrlOfMatch(s, m)
  }

  /** A parse with a scheme at i builds the Url from the match at i. */
  lemma ParseAt(s: string, i: nat)
    requires FindScheme(s, 0) == Some(i)
    ensures Delimits(s, MatchAt(s, i)) && ParseUrl(s) == UrlOfMatch(s, MatchAt(s, i))
  {
    PortDigits(s, MatchAt(s, i).hostEnd);
  }

  /** Url(s) is rejected with TypeError exactly when `https?://` occurs nowhere in s. */
  lemma NotAUrl(s: string)
    ensures ParseUrl(s) == Err(TypeError("Not a valid url -- " + s)) <==> forall m :: 0 <= m <= |s| ==> !SchemeAt(s, m)
  {
    FindSchemeLeftmost(s, 0);
    match FindScheme(s, 0)
    case None =>
    case Some(i) => ParseAt(s, i);
  }

  /** A successful parse keeps the whole string as `url` and reads an http or https protocol. */
  lemma ParsedProtocol(s: string, i: nat)
    requires FindScheme(s, 0) == Some(i) && ParseUrl(s).Ok?
    ensures ParseUrl(s).value.url == s
    ensures ParseUrl(s).value.protocol == "http" || ParseUrl(s).value.protocol == "https"
  {
    ParseAt(s, i);
  }

  /** The `params` setter: a string is stored as it is, a dict as its urlencoded form. */
  datatype ParamsValue = ParamsText(text: string) | ParamsDict(pairs: seq<(string, string)>)

  function SetParams(u: Url, v: ParamsValue): (u': Url)
    ensures u' == u.(params := u'.params)
    ensures v.ParamsText? ==> u'.params == v.text
    ensures v.ParamsDict? ==> u'.params == UrlEncode(v.pairs)
  {
    match v
    case ParamsText(t) => u.(params := t)
    case ParamsDict(ps) => u.(params := UrlEncode(ps))
  }

  /** The fields of a successful parse are the groups of the leftmost match. */
  lemma ParseFields(s: string, i: nat)
    requires FindScheme(s, 0) == Some(i) && ParseUrl(s).Ok?
    ensures var m := MatchAt(s, i);
      var u := ParseUrl(s).value;
      && u.protocol == m.protocol && u.host == s[m.hostStart..m.hostEnd]
      && (u.port.Some? <==> m.portEnd > m.hostEnd)
      && u.path == s[m.portEnd..m.pathEnd] && u.params == s[m.paramsStart..m.paramsEnd]
      && u.tag == s[m.tagStart..m.tagEnd]
  {
    ParseAt(s, i);
  }

  /** The host group is the longest run of `[\w.]` at its start, and a port group exists exactly when ':' follows. */
  lemma MatchHost(s: string, i: nat)
    requires i <= |s| && SchemeAt(s, i)
    ensures var m := MatchAt(s, i);
      && AllIn(s[m.hostStart..m.hostEnd], HostClass)
      && (m.hostEnd < |s| ==> !In(HostClass, s[m.hostEnd]))
      && (m.portEnd > m.hostEnd <==> m.hostEnd < |s| && s[m.hostEnd] == ':')
  {
    var m := MatchAt(s, i);
    SpanRun(s, m.hostStart, HostClass);
    var host := s[m.hostStart..m.hostEnd];
    forall k | 0 <= k < |host| ensures In(HostClass, host[k]) {
      assert host[k] == s[m.hostStart + k];
    }
  }

  /** A successful parse reads the protocol of the leftmost `https?://`. */
  lemma ParsedFromLeftmost(s: string, i: nat)
    requires FindScheme(s, 0) == Some(i) && ParseUrl(s).Ok?
    ensures SchemeAt(s, i) && forall m :: 0 <= m < i ==> !SchemeAt(s, m)
    ensures StartsAt(s, i, ParseUrl(s).value.protocol + "://")
  {
    FindSchemeLeftmost(s, 0);
    ParseAt(s, i);
  }

  /**
   * The host is the longest run of `[\w.]` right after the scheme, and a
   * port is present exactly when ':' follows the host.
   */
  lemma ParsedHost(s: string, i: nat)
    requires FindScheme(s, 0) == Some(i) && ParseUrl(s).Ok?
    ensures HostAt(s, i + |ParseUrl(s).value.protocol| + 3, ParseUrl(s).value.host, ParseUrl(s).value.port.Some?)
  {
    HostFields(s, i);
    MatchHost(s, i);
    var m := MatchAt(s, i);
    HostAtMatch(s, m.hostStart, m.hostEnd, m.portEnd);
  }

  /**
   * `host` is the run of `[\w.]` starting at hs and ending where the class
   * fails, and a port follows exactly when ':' comes next.
   */
  predicate HostAt(s: string, hs: nat, host: string, hasPort: bool) {
    var he := hs + |host|;
    && he <= |s| && s[hs..he] == host
    && AllIn(host, HostClass) && (he < |s| ==> !In(HostClass, s[he]))
    && (hasPort <==> he < |s| && s[he] == ':')
  }

  lemma HostAtMatch(s: string, hs: nat, he: nat, pe: nat)
    requires hs <= he <= |s|
    requires AllIn(s[hs..he], HostClass) && (he < |s| ==> !In(HostClass, s[he]))
    requires pe > he <==> he < |s| && s[he] == ':'
    ensures HostAt(s, hs, s[hs..he], pe > he)
  {
    assert hs + |s[hs..he]| == he;
  }

  lemma HostFields(s: string, i: nat)
    requires FindScheme(s, 0) == Some(i) && ParseUrl(s).Ok?
    ensures var m := MatchAt(s, i);
      var u := ParseUrl(s).value;
      && m.hostStart == i + |u.protocol| + 3 && m.hostEnd == m.hostStart + |u.host|
      && u.host == s[m.hostStart..m.hostEnd] && (u.port.Some? <==> m.portEnd > m.hostEnd)
  {
    ParseFields(s, i);
  }

  /** `:` after the host with no digit closes the port group with no digits. */
  lemma EmptyPort(s: string, i: nat)
    requires i <= |s| && SchemeAt(s, i)
    requires var m := MatchAt(s, i);
      m.hostEnd < |s| && s[m.hostEnd] == ':' && (m.hostEnd + 1 == |s| || !IsDigit(s[m.hostEnd + 1]))
    ensures MatchAt(s, i).portEnd == MatchAt(s, i).hostEnd + 1
  {
    PortEndEmpty(s, MatchAt(s, i).hostEnd);
  }

  lemma PortEndEmpty(s: string, he: nat)
    requires he < |s| && s[he] == ':' && (he + 1 == |s| || !IsDigit(s[he + 1]))
    ensures PortEnd(s, he) == he + 1
  {
    assert Span(s, he + 1, Digit) == he + 1;
  }

  /** ... which makes `int('')` fail. */
  lemma EmptyPortFails(s: string, i: nat)
    requires FindScheme(s, 0) == Some(i)
    requires var m := MatchAt(s, i);
      m.hostEnd < |s| && s[m.hostEnd] == ':' && (m.hostEnd + 1 == |s| || !IsDigit(s[m.hostEnd + 1]))
    ensures ParseUrl(s) == Err(EmptyIntLiteral)
  {
    EmptyPort(s, i);
    ParseAt(s, i);
  }

  /** The tag is non-empty only right after a '#'. */
  lemma TagFollowsHash(s: string, i: nat)
    requires i <= |s| && SchemeAt(s, i)
    ensures var m := MatchAt(s, i);
      m.tagEnd > m.tagStart ==> m.tagStart > 0 && s[m.tagStart - 1] == '#'
  {
    var m := MatchAt(s, i);
    assert m.paramsEnd == Span(s, m.paramsStart, ParamClass);
    assert m.tagStart == Skip(s, m.paramsEnd, '#');
    assert m.tagEnd == Span(s, m.tagStart, TagClass);
    SpanRun(s, m.paramsStart, ParamClass);
    if m.tagStart == m.paramsEnd && m.tagStart < |s| {
      // A tag character would also have extended the params group.
      assert !In(ParamClass, s[m.paramsEnd]);
      assert !In(TagClass, s[m.tagStart]);
    }
  }

  /**
   * The params group needs no '?': when the path stops at a character of the
   * params class other than '?' (such as '='), the params start right there
   * and are not empty.
   */
  lemma ParamsWithoutQuestionMark(s: string, i: nat)
    requires FindScheme(s, 0) == Some(i) && ParseUrl(s).Ok?
    requires var m := MatchAt(s, i); m.pathEnd < |s| && s[m.pathEnd] != '?' && In(ParamClass, s[m.pathEnd])
    ensures MatchAt(s, i).paramsStart == MatchAt(s, i).pathEnd && ParseUrl(s).value.params != ""
  {
    ParamsAfterPath(s, i);
    ParamsLength(s, i);
  }

  lemma ParamsLength(s: string, i: nat)
    requires FindScheme(s, 0) == Some(i) && ParseUrl(s).Ok?
    ensures |ParseUrl(s).value.params| == MatchAt(s, i).paramsEnd - MatchAt(s, i).paramsStart
  {
    ParseFields(s, i);
  }

  lemma ParamsAfterPath(s: string, i: nat)
    requires i <= |s| && SchemeAt(s, i)
    ensures var m := MatchAt(s, i);
      m.pathEnd < |s| && s[m.pathEnd] != '?' && In(ParamClass, s[m.pathEnd]) ==>
        m.paramsStart == m.pathEnd && m.paramsEnd > m.paramsStart
  {
    var m := MatchAt(s, i);
    if m.pathEnd < |s| && s[m.pathEnd] != '?' && In(ParamClass, s[m.pathEnd]) {
      assert m.paramsStart == Skip(s, m.pathEnd, '?') == m.pathEnd;
      assert m.paramsEnd == Span(s, m.pathEnd, ParamClass) > m.pathEnd;
    }
  }

  // ---------------------------------------------------------------------
  // Round trip: formatting well-formed parts and parsing gives the parts back.

  function PortText(port: Option<nat>): string {
    if port.None? then "" else ":" + Decimal(port.value)
  }

  /** `?params`, or nothing when params is empty. */
  function QueryText(params: string): string {
    if params == "" then "" else "?" + params
  }

  /** `#tag`, or nothing when tag is empty. */
  function FragmentText(tag: string): string {
    if tag == "" then "" else "#" + tag
  }

  /** The URL the parts spell, each group after its marker; empty params and tag are left out. */
  function FormatUrl(protocol: string, host: string, port: Option<nat>, path: string, params: string, tag: string): string {
    protocol + "://" + (host + (PortText(port) + (path + (QueryText(params) + FragmentText(tag)))))
  }

  /** Parts the pattern reads back unchanged: each in its character class, the path starting with '/'. */
  predicate WellFormedParts(protocol: string, host: string, path: string, params: string, tag: string) {
    && (protocol == "http" || protocol == "https")
    && AllIn(host, HostClass) && AllIn(path, PathClass) && AllIn(params, ParamClass) && AllIn(tag, TagClass)
    && (path == "" || path[0] == '/')
  }

  /** A string that starts with `protocol://` matches at 0 with that protocol. */
  lemma SchemeOfPrefix(protocol: string, rest: string)
    requires protocol == "http" || protocol == "https"
    ensures var s := protocol + "://" + rest;
      FindScheme(s, 0) == Some(0) && ProtocolAt(s, 0) == protocol
  {
    var s := protocol + "://" + rest;
    if protocol == "https" {
      assert s[0..8] == "https://";
    } else {
      assert s[0..7] == "http://";
      assert s[4] == ':';
    }
  }

  /** A run of class `cl` at i, followed by a rest that starts outside the class, is read whole. */
  lemma PieceSpan(s: string, i: nat, j: nat, piece: string, rest: string, cl: CharClass)
    requires i <= |s| && s[i..] == piece + rest && j == i + |piece|
    requires AllIn(piece, cl) && (rest != [] ==> !In(cl, rest[0]))
    ensures j <= |s| && Span(s, i, cl) == j
    ensures s[i..j] == piece && s[j..] == rest
  {
    forall k | i <= k < i + |piece| ensures In(cl, s[k]) {
      assert s[k] == s[i..][k - i] == piece[k - i];
    }
    if rest != [] {
      assert s[i + |piece|] == s[i..][|piece|] == rest[0];
    }
    SpanIs(s, i, i + |piece|, cl);
    assert s[i..][..|piece|] == piece;
    assert s[i..][|piece|..] == rest;
  }

  /** The optional character `c` is taken when it is there. */
  lemma SkipPresent(s: string, i: nat, c: char, rest: string)
    requires i <= |s| && s[i..] == [c] + rest
    ensures Skip(s, i, c) == i + 1 && s[i + 1..] == rest
  {
    assert s[i] == s[i..][0];
    assert s[i + 1..] == s[i..][1..];
  }

  /** ... and left alone when the rest starts with something else. */
  lemma SkipAbsent(s: string, i: nat, c: char)
    requires i <= |s| && (s[i..] != [] ==> s[i..][0] != c)
    ensures Skip(s, i, c) == i
  {
    if i < |s| {
      assert s[i] == s[i..][0];
    }
  }

  /** A port text: nothing, or ':' followed by at least one digit. */
  predicate PortShaped(o: string) {
    o == "" || (|o| > 1 && o[0] == ':' && AllIn(o[1..], Digit))
  }

  /** The port group ends after the digits of a port, or right at the host's end without one. */
  lemma PortPart(s: string, he: nat, pe: nat, o: string, rest: string)
    requires he <= |s| && s[he..] == o + rest && PortShaped(o) && pe == he + |o|
    requires rest == [] || rest[0] == '/' || rest[0] == '?' || rest[0] == '#'
    ensures pe <= |s| && PortEnd(s, he) == pe && s[pe..] == rest
    ensures o != "" ==> he < pe && s[he + 1..pe] == o[1..]
  {
    if o != "" {
      assert o + rest == ":" + o[1..] + rest;
      PortPresent(s, he, o[1..], rest);
    } else {
      assert s[he..] == rest;
      if he < |s| {
        assert s[he] == s[he..][0];
      }
    }
  }

  lemma PortPresent(s: string, he: nat, ds: string, rest: string)
    requires he <= |s| && s[he..] == ":" + ds + rest
    requires AllIn(ds, Digit) && (rest == [] || rest[0] == '/' || rest[0] == '?' || rest[0] == '#')
    ensures PortEnd(s, he) == he + 1 + |ds|
    ensures s[he + 1..he + 1 + |ds|] == ds && s[he + 1 + |ds|..] == rest
  {
    SkipPresent(s, he, ':', ds + rest);
    PieceSpan(s, he + 1, he + 1 + |ds|, ds, rest, Digit);
  }

  /** The params group reads `params` back after an optional '?', up to a rest that starts with '#' or is empty. */
  lemma QueryPart(s: string, i: nat, ps: nat, pe: nat, params: string, rest: string)
    requires i <= |s| && s[i..] == QueryText(params) + rest
    requires ps == i + |QueryText(params)| - |params| && pe == ps + |params|
    requires AllIn(params, ParamClass) && (rest == [] || rest[0] == '#')
    ensures i <= ps <= pe <= |s| && Skip(s, i, '?') == ps && Span(s, ps, ParamClass) == pe
    ensures s[ps..pe] == params && s[pe..] == rest
  {
    if params != "" {
      assert ps == i + 1;
      QueryPresent(s, i, ps, pe, params, rest);
    } else {
      assert ps == i && pe == i;
      QueryAbsent(s, i, rest);
    }
  }

  lemma QueryPresent(s: string, i: nat, ps: nat, pe: nat, params: string, rest: string)
    requires i <= |s| && s[i..] == ['?'] + (params + rest) && ps == i + 1 && pe == ps + |params|
    requires AllIn(params, ParamClass) && (rest == [] || rest[0] == '#')
    ensures pe <= |s| && Skip(s, i, '?') == ps && Span(s, ps, ParamClass) == pe
    ensures s[ps..pe] == params && s[pe..] == rest
  {
    SkipPresent(s, i, '?', params + rest);
    PieceSpan(s, ps, pe, params, rest, ParamClass);
  }

  lemma QueryAbsent(s: string, i: nat, rest: string)
    requires i <= |s| && s[i..] == rest && (rest == [] || rest[0] == '#')
    ensures Skip(s, i, '?') == i && Span(s, i, ParamClass) == i
  {
    SkipAbsent(s, i, '?');
    PieceSpan(s, i, i, "", rest, ParamClass);
  }

  /** The tag group reads `tag` back after an optional '#', up to the end. */
  lemma FragmentPart(s: string, i: nat, ts: nat, tag: string)
    requires i <= |s| && s[i..] == FragmentText(tag) && AllIn(tag, TagClass)
    requires ts == i + |FragmentText(tag)| - |tag|
    ensures i <= ts <= |s| && Skip(s, i, '#') == ts && Span(s, ts, TagClass) == |s| && s[ts..|s|] == tag
  {
    if tag != "" {
      SkipPresent(s, i, '#', tag);
      PieceSpan(s, i + 1, |s|, tag, "", TagClass);
    } else {
      SkipAbsent(s, i, '#');
      PieceSpan(s, i, |s|, tag, "", TagClass);
    }
  }

  /** Where the groups of the formatted parts start and end, in a string of length n. */
  function Layout(protocol: string, host: string, port: Option<nat>, path: string, params: string, tag: string, n: nat): Spans {
    var hs := |protocol| + 3;
    var he := hs + |host|;
    var pe := he + |PortText(port)|;
    var pathEnd := pe + |path|;
    var ps := pathEnd + |QueryText(params)| - |params|;
    var pend := ps + |params|;
    Spans(0, protocol, hs, he, pe, pathEnd, ps, pend, pend + |FragmentText(tag)| - |tag|, n)
  }

  /** With every group's end given, MatchAt is those ends. */
  lemma MatchIs(s: string, m: Spans)
    requires SchemeAt(s, 0) && ProtocolAt(s, 0) == m.protocol && m.start == 0 && m.tagEnd == |s|
    requires m.hostStart == |m.protocol| + 3 <= m.hostEnd <= m.portEnd <= m.pathEnd <= m.paramsStart
             <= m.paramsEnd <= m.tagStart <= |s|
    requires Span(s, m.hostStart, HostClass) == m.hostEnd && PortEnd(s, m.hostEnd) == m.portEnd
    requires Span(s, m.portEnd, PathClass) == m.pathEnd && Skip(s, m.pathEnd, '?') == m.paramsStart
    requires Span(s, m.paramsStart, ParamClass) == m.paramsEnd && Skip(s, m.paramsEnd, '#') == m.tagStart
    requires Span(s, m.tagStart, TagClass) == |s|
    ensures MatchAt(s, 0) == m
  {
  }

  /** The group ends of `m` are where the formatted parts, laid out from `m.hostStart`, end. */
  predicate Placed(m: Spans, host: string, o: string, path: string, params: string, tag: string) {
    && m.hostEnd == m.hostStart + |host|
    && m.portEnd == m.hostEnd + |o|
    && m.pathEnd == m.portEnd + |path|
    && m.paramsStart == m.pathEnd + |QueryText(params)| - |params|
    && m.paramsEnd == m.paramsStart + |params|
    && m.tagStart == m.paramsEnd + |FragmentText(tag)| - |tag|
  }

  /** The host group of `m` is read back as `host`. */
  predicate HostRead(s: string, m: Spans, host: string)
    requires m.hostStart <= m.hostEnd <= |s|
  {
    Span(s, m.hostStart, HostClass) == m.hostEnd && s[m.hostStart..m.hostEnd] == host
  }

  /** The port group of `m` is read back from the port text `o`. */
  predicate PortRead(s: string, m: Spans, o: string)
    requires m.hostEnd <= m.portEnd <= |s|
  {
    PortEnd(s, m.hostEnd) == m.portEnd && (o != "" ==> m.hostEnd < m.portEnd && s[m.hostEnd + 1..m.portEnd] == o[1..])
  }

  /** The path group of `m` is read back as `path`. */
  predicate PathRead(s: string, m: Spans, path: string)
    requires m.portEnd <= m.pathEnd <= |s|
  {
    Span(s, m.portEnd, PathClass) == m.pathEnd && s[m.portEnd..m.pathEnd] == path
  }

  /** The params and tag groups of `m` are read back as `params` and `tag`. */
  predicate TailRead(s: string, m: Spans, params: string, tag: string)
    requires m.pathEnd <= m.paramsStart <= m.paramsEnd <= m.tagStart <= |s|
  {
    && Skip(s, m.pathEnd, '?') == m.paramsStart && Span(s, m.paramsStart, ParamClass) == m.paramsEnd
    && s[m.paramsStart..m.paramsEnd] == params
    && Skip(s, m.paramsEnd, '#') == m.tagStart && Span(s, m.tagStart, TagClass) == |s|
    && s[m.tagStart..|s|] == tag
  }

  lemma TailFrom(s: string, m: Spans, host: string, o: string, path: string, params: string, tag: string)
    requires Placed(m, host, o, path, params, tag)
    requires m.pathEnd <= |s| && s[m.pathEnd..] == QueryText(params) + FragmentText(tag)
    requires AllIn(params, ParamClass) && AllIn(tag, TagClass)
    ensures m.pathEnd <= m.paramsStart <= m.paramsEnd <= m.tagStart <= |s|
    ensures TailRead(s, m, params, tag)
  {
    assert m.paramsEnd <= |s| && Skip(s, m.pathEnd, '?') == m.paramsStart
      && Span(s, m.paramsStart, ParamClass) == m.paramsEnd && s[m.paramsStart..m.paramsEnd] == params
      && s[m.paramsEnd..] == FragmentText(tag) by {
      QueryPart(s, m.pathEnd, m.paramsStart, m.paramsEnd, params, FragmentText(tag));
    }
    assert m.tagStart <= |s| && Skip(s, m.paramsEnd, '#') == m.tagStart
      && Span(s, m.tagStart, TagClass) == |s| && s[m.tagStart..|s|] == tag by {
      FragmentPart(s, m.paramsEnd, m.tagStart, tag);
    }
  }

  lemma PathFrom(s: string, m: Spans, host: string, o: string, path: string, params: string, tag: string)
    requires Placed(m, host, o, path, params, tag)
    requires m.portEnd <= |s| && s[m.portEnd..] == path + (QueryText(params) + FragmentText(tag))
    requires AllIn(path, PathClass) && AllIn(params, ParamClass) && AllIn(tag, TagClass)
    ensures m.portEnd <= m.pathEnd <= m.paramsStart <= m.paramsEnd <= m.tagStart <= |s|
    ensures PathRead(s, m, path) && TailRead(s, m, params, tag)
  {
    var T := QueryText(params) + FragmentText(tag);
    assert m.pathEnd <= |s| && PathRead(s, m, path) && s[m.pathEnd..] == T by {
      assert T != [] ==> T[0] == '?' || T[0] == '#';
      PieceSpan(s, m.portEnd, m.pathEnd, path, T, PathClass);
    }
    TailFrom(s, m, host, o, path, params, tag);
  }

  lemma PortFrom(s: string, m: Spans, host: string, o: string, path: string, params: string, tag: string)
    requires Placed(m, host, o, path, params, tag) && PortShaped(o)
    requires m.hostEnd <= |s| && s[m.hostEnd..] == o + (path + (QueryText(params) + FragmentText(tag)))
    requires AllIn(path, PathClass) && AllIn(params, ParamClass) && AllIn(tag, TagClass)
    requires path == "" || path[0] == '/'
    ensures m.hostEnd <= m.portEnd <= m.pathEnd <= m.paramsStart <= m.paramsEnd <= m.tagStart <= |s|
    ensures PortRead(s, m, o) && PathRead(s, m, path) && TailRead(s, m, params, tag)
  {
    var rest := path + (QueryText(params) + FragmentText(tag));
    assert m.portEnd <= |s| && PortRead(s, m, o) && s[m.portEnd..] == rest by {
      assert rest != [] ==> rest[0] == '/' || rest[0] == '?' || rest[0] == '#';
      PortPart(s, m.hostEnd, m.portEnd, o, rest);
    }
    PathFrom(s, m, host, o, path, params, tag);
  }

  lemma HostFrom(s: string, m: Spans, host: string, o: string, path: string, params: string, tag: string)
    requires Placed(m, host, o, path, params, tag) && PortShaped(o)
    requires m.hostStart <= |s| && s[m.hostStart..] == host + (o + (path + (QueryText(params) + FragmentText(tag))))
    requires AllIn(host, HostClass) && AllIn(path, PathClass) && AllIn(params, ParamClass) && AllIn(tag, TagClass)
    requires path == "" || path[0] == '/'
    ensures m.hostStart <= m.hostEnd <= m.portEnd <= m.pathEnd <= m.paramsStart <= m.paramsEnd <= m.tagStart <= |s|
    ensures HostRead(s, m, host) && PortRead(s, m, o) && PathRead(s, m, path) && TailRead(s, m, params, tag)
  {
    var R := o + (path + (QueryText(params) + FragmentText(tag)));
    assert m.hostEnd <= |s| && HostRead(s, m, host) && s[m.hostEnd..] == R by {
      assert R != [] ==> R[0] == ':' || R[0] == '/' || R[0] == '?' || R[0] == '#';
      PieceSpan(s, m.hostStart, m.hostEnd, host, R, HostClass);
    }
    PortFrom(s, m, host, o, path, params, tag);
  }

  /** The Url built from groups that read back the parts holds the parts. */
  lemma UrlOfParts(s: string, m: Spans, protocol: string, host: string, port: Option<nat>, path: string, params: string, tag: string)
    requires m.protocol == protocol && m.tagEnd == |s| && Placed(m, host, PortText(port), path, params, tag)
    requires m.hostStart <= m.hostEnd <= m.portEnd <= m.pathEnd <= m.paramsStart <= m.paramsEnd <= m.tagStart <= |s|
    requires HostRead(s, m, host) && PortRead(s, m, PortText(port)) && PathRead(s, m, path) && TailRead(s, m, params, tag)
    ensures Delimits(s, m) && UrlOfMatch(s, m) == Ok(Url(s, protocol, host, port, path, params, tag))
  {
    if port.Some? {
      var ds := Decimal(port.value);
      assert PortText(port)[1..] == ds;
      assert s[m.hostEnd + 1..m.portEnd] == ds;
      DecimalRoundTrip(port.value);
    } else {
      assert m.portEnd == m.hostEnd;
    }
  }

  /** Formatting well-formed parts and parsing gives the parts back. */
  lemma ParseFormat(protocol: string, host: string, port: Option<nat>, path: string, params: string, tag: string)
    requires WellFormedParts(protocol, host, path, params, tag)
    ensures var s := FormatUrl(protocol, host, port, path, params, tag);
      ParseUrl(s) == Ok(Url(s, protocol, host, port, path, params, tag))
  {
    var o := PortText(port);
    var rest := host + (o + (path + (QueryText(params) + FragmentText(tag))));
    var s := protocol + "://" + rest;
    var m := Layout(protocol, host, port, path, params, tag, |s|);
    assert s == FormatUrl(protocol, host, port, path, params, tag);
    assert m.hostStart <= m.hostEnd <= m.portEnd <= m.pathEnd <= m.paramsStart <= m.paramsEnd <= m.tagStart <= |s|
      && HostRead(s, m, host) && PortRead(s, m, o) && PathRead(s, m, path) && TailRead(s, m, params, tag) by {
      assert m.hostStart == |protocol| + 3 && s[m.hostStart..] == rest;
      assert Placed(m, host, o, path, params, tag);
      assert PortShaped(o);
      HostFrom(s, m, host, o, path, params, tag);
    }
    SchemeOfPrefix(protocol, rest);
    MatchIs(s, m);
    UrlOfParts(s, m, protocol, host, port, path, params, tag);
    ParseAt(s, 0);
  }
}
