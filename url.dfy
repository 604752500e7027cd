/**
  The part of Python's `urllib.parse` (`urlsplit`, `urlparse`, `parse_qs`) that the
  link parser, the link-file validation and the media-extension fallback rely on.
*/
module Url {
  import opened Wrappers
  import opened Text

  datatype ParsedUrl = ParsedUrl(
    scheme: string, netloc: string, path: string, params: string, query: string, fragment: string)

  /** The characters `urlsplit` strips from the front: C0 controls and space. */
  predicate IsC0OrSpace(c: char) {
    c <= ' '
  }

  function LStripC0(s: string): (r: string)
    ensures |r| <= |s| && r == s[|s| - |r|..]
    ensures r == [] || !IsC0OrSpace(r[0])
  {
    if s != [] && IsC0OrSpace(s[0]) then LStripC0(s[1..]) else s
  }

  /** Tab, carriage return and line feed are deleted anywhere in the URL. */
  predicate IsUnsafe(c: char) {
    c == '\t' || c == '\r' || c == '\n'
  }

  function RemoveUnsafe(s: string): (r: string)
    ensures |r| <= |s|
    ensures forall i :: 0 <= i < |r| ==> !IsUnsafe(r[i])
    ensures (forall i :: 0 <= i < |s| ==> !IsUnsafe(s[i])) ==> r == s
  {
    if s == [] then []
    else if IsUnsafe(s[0]) then RemoveUnsafe(s[1..])
    else [s[0]] + RemoveUnsafe(s[1..])
  }

  predicate IsAsciiLetter(c: char) {
    'a' <= c <= 'z' || 'A' <= c <= 'Z'
  }

  predicate IsSchemeChar(c: char) {
    IsAsciiLetter(c) || IsDigit(c) || c == '+' || c == '-' || c == '.'
  }

  /** The scheme prefix, if the text before the first ':' qualifies as one. */
  function SchemeEnd(url: string): (r: Option<nat>)
    ensures r.Some? ==> 0 < r.value < |url| && url[r.value] == ':'
  {
    match Find(url, ':')
    case None => None
    case Some(i) =>
      if i > 0 && IsAsciiLetter(url[0]) && forall j :: 0 <= j < i ==> IsSchemeChar(url[j])
      then Some(i) else None
  }

  /** `_splitnetloc(url, 2)`: the authority runs to the first '/', '?' or '#'. */
  function NetlocEnd(rest: string): (r: nat)
    ensures r <= |rest|
    ensures forall j :: 0 <= j < r ==> rest[j] != '/' && rest[j] != '?' && rest[j] != '#'
    ensures r < |rest| ==> rest[r] == '/' || rest[r] == '?' || rest[r] == '#'
  {
    if rest == [] || rest[0] == '/' || rest[0] == '?' || rest[0] == '#' then 0
    else 1 + NetlocEnd(rest[1..])
  }

  /** Split `s` at the first `c`: `s.split(c, 1)` when `c in s`. */
  function SplitOnce(s: string, c: char): (r: (string, Option<string>))
    ensures r.1.None? ==> r.0 == s && c !in s
    ensures r.1.Some? ==> s == r.0 + [c] + r.1.value && c !in r.0
  {
    match Find(s, c)
    case None => (s, None)
    case Some(i) =>
      assert s == s[..i] + [c] + s[i + 1..];
      (s[..i], Some(s[i + 1..]))
  }

  /**
    `urlsplit(url)`. Fails (Python raises ValueError) when the authority holds an
    unmatched square bracket.
  */
  function UrlSplit(url0: string): Result<ParsedUrl, string> {
    var url := RemoveUnsafe(LStripC0(url0));
    var (scheme, afterScheme) :=
      match SchemeEnd(url)
      case Some(i) => (Lower(url[..i]), url[i + 1..])
      case None => ("", url);
    var (netloc, afterNetloc) :=
      if |afterScheme| >= 2 && afterScheme[..2] == "//" then
        var e := NetlocEnd(afterScheme[2..]);
        (afterScheme[2..][..e], afterScheme[2..][e..])
      else ("", afterScheme);
    SplitRest(scheme, netloc, afterNetloc)
  }

  /** The end of `urlsplit`: the bracket check, then `#fragment` and `?query` split off. */
  function SplitRest(scheme: string, netloc: string, afterNetloc: string): Result<ParsedUrl, string> {
    if ('[' in netloc) != (']' in netloc) then Failure("Invalid IPv6 URL")
    else
      var (beforeFragment, fragment) := SplitOnce(afterNetloc, '#');
      var (path, query) := SplitOnce(beforeFragment, '?');
      Success(ParsedUrl(scheme, netloc, path, "", query.GetOr(""), fragment.GetOr("")))
  }

  /** The schemes for which `urlparse` splits `;params` off the last path segment. */
  predicate UsesParams(scheme: string) {
    scheme in ["", "ftp", "hdl", "prospero", "http", "imap", "https", "shttp", "rtsp",
               "rtsps", "rtspu", "sip", "sips", "mms", "sftp", "tel"]
  }

  /** The index of the last `c` in `s`. */
  function FindLast(s: string, c: char): (r: Option<nat>)
    ensures r.Some? ==> r.value < |s| && s[r.value] == c && forall j :: r.value < j < |s| ==> s[j] != c
    ensures r.None? ==> c !in s
  {
    if s == [] then None
    else if s[|s| - 1] == c then Some(|s| - 1)
    else FindLast(s[..|s| - 1], c)
  }

  /** `_splitparams(path)`: called only when the path holds a ';'. */
  function SplitParams(path: string): (r: (string, string))
    requires ';' in path
    ensures |r.0| <= |path| && r.0 == path[..|r.0|]
  {
    match FindLast(path, '/')
    case Some(slash) =>
      (match Find(path[slash..], ';')
       case None => (path, "")
       case Some(k) => (path[..slash + k], path[slash + k + 1..]))
    case None =>
      var i := Find(path, ';').value;
      (path[..i], path[i + 1..])
  }

  /** `urlparse(url)`: `urlsplit` plus the `;params` of the last path segment. */
  function UrlParse(url: string): Result<ParsedUrl, string> {
    match UrlSplit(url)
    case Failure(e) => Failure(e)
    case Success(p) =>
      if UsesParams(p.scheme) && ';' in p.path then
        var (path, params) := SplitParams(p.path);
        Success(p.(path := path, params := params))
      else Success(p)
  }

  /** Every URL that begins with `https://host/` parses with scheme https and that host. */
  lemma HttpsPrefix(url: string, host: string, rest: string)
    requires url == "https://" + host + "/" + rest
    requires forall j :: 0 <= j < |host| ==> host[j] != '/' && host[j] != '?' && host[j] != '#'
    requires forall j :: 0 <= j < |host| ==> !IsUnsafe(host[j]) && host[j] != '[' && host[j] != ']'
    ensures UrlParse(url).Success?
    ensures UrlParse(url).value.scheme == "https" && UrlParse(url).value.netloc == host
  {
    HttpsPrefixSplit(url, host, rest);
    assert '[' !in host && ']' !in host;
  }

  /**
    `https://host/` survives the clean-up at the front of `urlsplit` untouched: the
    scheme is https, the authority is `host`, and only the rest loses its tabs and newlines.
  */
  lemma HttpsPrefixSplit(url: string, host: string, rest: string)
    requires url == "https://" + host + "/" + rest
    requires forall j :: 0 <= j < |host| ==> host[j] != '/' && host[j] != '?' && host[j] != '#'
    requires forall j :: 0 <= j < |host| ==> !IsUnsafe(host[j])
    ensures UrlSplit(url) == SplitRest("https", host, "/" + RemoveUnsafe(rest))
  {
    var r := RemoveUnsafe(rest);
    var tail := host + ("/" + r);
    HttpsClean(url, host, rest);
    CleanHttpsSplit(url, "https://" + tail);
    Halves("https://", tail);
    NetlocEndAt(tail, |host|);
    Halves(host, "/" + r);
  }

  /** The clean-up at the front of `urlsplit` leaves `https://host/` alone. */
  lemma HttpsClean(url: string, host: string, rest: string)
    requires url == "https://" + host + "/" + rest
    requires forall j :: 0 <= j < |host| ==> !IsUnsafe(host[j])
    ensures RemoveUnsafe(LStripC0(url)) == "https://" + (host + ("/" + RemoveUnsafe(rest)))
  {
    var pre := "https://" + host + "/";
    assert url == pre + rest;
    assert LStripC0(url) == url;
    SafeConcat("https://", host);
    SafeConcat("https://" + host, "/");
    RemoveUnsafePrefix(pre, rest);
  }

  /** The two halves of a concatenation. */
  lemma Halves(a: string, b: string)
    ensures (a + b)[..|a|] == a && (a + b)[|a|..] == b
  {
  }

  /** A URL that cleans up to text starting with `https://` splits after the scheme and the authority. */
  lemma CleanHttpsSplit(url: string, u: string)
    requires RemoveUnsafe(LStripC0(url)) == u && "https://" <= u
    ensures var tail := u[8..]; var e := NetlocEnd(tail);
      UrlSplit(url) == SplitRest("https", tail[..e], tail[e..])
  {
    HttpsScheme(u);
  }

  /** The scheme of any text starting with `https://` is `https`. */
  lemma HttpsScheme(u: string)
    requires "https://" <= u
    ensures SchemeEnd(u) == Some(5)
    ensures Lower(u[..5]) == "https"
    ensures u[6..][..2] == "//" && u[6..][2..] == u[8..]
  {
    assert u[5] == ':';
    var f := Find(u, ':');
    assert f.Some? && f.value == 5;
    assert forall j :: 0 <= j < 5 ==> IsSchemeChar(u[j]);
    assert u[..5] == "https";
  }

  lemma {:induction false} RemoveUnsafePrefix(pre: string, rest: string)
    requires forall j :: 0 <= j < |pre| ==> !IsUnsafe(pre[j])
    ensures RemoveUnsafe(pre + rest) == pre + RemoveUnsafe(rest)
  {
    if pre == [] {
      assert pre + rest == rest;
    } else {
      var s := pre + rest;
      assert s[0] == pre[0];
      assert s[1..] == pre[1..] + rest;
      RemoveUnsafePrefix(pre[1..], rest);
      calc {
        RemoveUnsafe(s);
        [s[0]] + RemoveUnsafe(s[1..]);
        [pre[0]] + (pre[1..] + RemoveUnsafe(rest));
        { assert pre == [pre[0]] + pre[1..]; }
        pre + RemoveUnsafe(rest);
      }
    }
  }

  /** `SplitOnce` is determined by the first separator. */
  lemma SplitOnceAt(a: string, c: char, b: string)
    requires c !in a
    ensures SplitOnce(a + [c] + b, c) == (a, Some(b))
  {
    var s := a + [c] + b;
    assert s[|a|] == c;
    assert s[..|a|] == a && s[|a| + 1..] == b;
  }

  /** The authority of `https://host/rest` is `host`, and the rest follows it. */
  lemma HttpsSplit(url: string, host: string, rest: string)
    requires url == "https://" + host + "/" + rest
    requires forall j :: 0 <= j < |host| ==> host[j] != '/' && host[j] != '?' && host[j] != '#'
    requires forall j :: 0 <= j < |host| ==> !IsUnsafe(host[j])
    requires forall j :: 0 <= j < |rest| ==> !IsUnsafe(rest[j])
    ensures UrlSplit(url) == SplitRest("https", host, "/" + rest)
  {
    HttpsPrefixSplit(url, host, rest);
  }

  /**
    A URL `https://host/path[?query]` whose path holds no '?', '#' or ';' and whose query
    holds no '#' splits into exactly those parts.
  */
  lemma HttpsParts(url: string, host: string, path: string, query: Option<string>)
    requires url == "https://" + host + "/" + path + (if query.Some? then "?" + query.value else "")
    requires forall j :: 0 <= j < |host| ==> host[j] != '/' && host[j] != '?' && host[j] != '#'
    requires forall j :: 0 <= j < |host| ==> !IsUnsafe(host[j]) && host[j] != '[' && host[j] != ']'
    requires forall j :: 0 <= j < |path| ==> !IsUnsafe(path[j]) && path[j] != '?' && path[j] != '#' && path[j] != ';'
    requires query.Some? ==> forall j :: 0 <= j < |query.value| ==> !IsUnsafe(query.value[j]) && query.value[j] != '#'
    ensures UrlParse(url) == Success(ParsedUrl("https", host, "/" + path, "", query.GetOr(""), ""))
  {
    HttpsRestSplit(url, host, path, query);
    assert forall j :: 0 <= j < |"/" + path| ==> ("/" + path)[j] != ';';
    NoParams(url, ParsedUrl("https", host, "/" + path, "", query.GetOr(""), ""));
  }

  /** `urlsplit` of `https://host/path[?query]`. */
  lemma HttpsRestSplit(url: string, host: string, path: string, query: Option<string>)
    requires url == "https://" + host + "/" + path + (if query.Some? then "?" + query.value else "")
    requires forall j :: 0 <= j < |host| ==> host[j] != '/' && host[j] != '?' && host[j] != '#'
    requires forall j :: 0 <= j < |host| ==> !IsUnsafe(host[j]) && host[j] != '[' && host[j] != ']'
    requires forall j :: 0 <= j < |path| ==> !IsUnsafe(path[j]) && path[j] != '?' && path[j] != '#'
    requires query.Some? ==> forall j :: 0 <= j < |query.value| ==> !IsUnsafe(query.value[j]) && query.value[j] != '#'
    ensures UrlSplit(url) == Success(ParsedUrl("https", host, "/" + path, "", query.GetOr(""), ""))
  {
    var q := if query.Some? then "?" + query.value else "";
    var rest := path + q;
    assert url == "https://" + host + "/" + rest;
    SafeRest(path, query);
    HttpsSplit(url, host, rest);
    assert "/" + rest == "/" + path + q;
    RestParts(host, path, query);
  }

  lemma SafeRest(path: string, query: Option<string>)
    requires forall j :: 0 <= j < |path| ==> !IsUnsafe(path[j])
    requires query.Some? ==> forall j :: 0 <= j < |query.value| ==> !IsUnsafe(query.value[j])
    ensures var rest := path + (if query.Some? then "?" + query.value else "");
      forall j :: 0 <= j < |rest| ==> !IsUnsafe(rest[j])
  {
    var q := if query.Some? then "?" + query.value else "";
    assert forall j :: 0 <= j < |q| ==> !IsUnsafe(q[j]);
    SafeConcat(path, q);
  }

  lemma SafeConcat(a: string, b: string)
    requires forall j :: 0 <= j < |a| ==> !IsUnsafe(a[j])
    requires forall j :: 0 <= j < |b| ==> !IsUnsafe(b[j])
    ensures forall j :: 0 <= j < |a + b| ==> !IsUnsafe((a + b)[j])
  {
  }

  /** A split URL whose path holds no ';' is its own `urlparse`. */
  lemma NoParams(url: string, p: ParsedUrl)
    requires UrlSplit(url) == Success(p) && ';' !in p.path
    ensures UrlParse(url) == Success(p)
  {
  }

  lemma RestParts(host: string, path: string, query: Option<string>)
    requires '[' !in host && ']' !in host
    requires forall j :: 0 <= j < |path| ==> path[j] != '?' && path[j] != '#'
    requires query.Some? ==> forall j :: 0 <= j < |query.value| ==> query.value[j] != '#'
    ensures SplitRest("https", host, "/" + path + (if query.Some? then "?" + query.value else ""))
      == Success(ParsedUrl("https", host, "/" + path, "", query.GetOr(""), ""))
  {
    var afterNetloc := "/" + path + (if query.Some? then "?" + query.value else "");
    assert '#' !in afterNetloc;
    if query.Some? {
      assert afterNetloc == ("/" + path) + ['?'] + query.value;
      SplitOnceAt("/" + path, '?', query.value);
    } else {
      assert afterNetloc == "/" + path;
    }
  }

  lemma NetlocEndAt(s: string, k: nat)
    requires k < |s| && s[k] == '/'
    requires forall j :: 0 <= j < k ==> s[j] != '/' && s[j] != '?' && s[j] != '#'
    ensures NetlocEnd(s) == k
  {
  }

  /**
    The `(name, value)` pairs of `parse_qs(query)` in order: pieces split on '&',
    pieces without '=' and pieces with an empty value dropped, '+' read as a space.
  */
  function QueryPairs(query: string): seq<(string, string)> {
    PairsOf(Split(query, '&'))
  }

  function PairsOf(pieces: seq<string>): (r: seq<(string, string)>)
    ensures |r| <= |pieces|
    ensures forall i :: 0 <= i < |r| ==> r[i].1 != []
  {
    if pieces == [] then []
    else
      var (name, value) := SplitOnce(pieces[0], '=');
      if value.None? || value.value == [] then PairsOf(pieces[1..])
      else [(PlusToSpace(name), PlusToSpace(value.value))] + PairsOf(pieces[1..])
  }

  function PlusToSpace(s: string): (r: string)
    ensures |r| == |s|
    ensures forall i :: 0 <= i < |s| ==> r[i] == if s[i] == '+' then ' ' else s[i]
  {
    if s == [] then [] else [if s[0] == '+' then ' ' else s[0]] + PlusToSpace(s[1..])
  }

  /** `parse_qs(query).get(name, [None])[0]`: the first non-empty value given for `name`. */
  function QueryFirst(query: string, name: string): Option<string> {
    FirstValue(QueryPairs(query), name)
  }

  function FirstValue(pairs: seq<(string, string)>, name: string): (r: Option<string>)
    ensures r.Some? ==> exists i :: 0 <= i < |pairs| && pairs[i] == (name, r.value)
    ensures r.None? ==> forall i :: 0 <= i < |pairs| ==> pairs[i].0 != name
  {
    if pairs == [] then None
    else if pairs[0].0 == name then Some(pairs[0].1)
    else FirstValue(pairs[1..], name)
  }
}
