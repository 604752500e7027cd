/**
  Parsing of `t.me` message links into a link record, and the first step of resolving
  such a record: which peer and which message ids to ask for.
*/
module TelegramLinkParser {
  import opened Wrappers
  import opened Text
  import opened Url

  /** `TelegramLinkInfo`: every field is optional in the record, as in the dataclass. */
  datatype TelegramLinkInfo = TelegramLinkInfo(
    isPrivate: bool, peerId: Option<string>, threadId: Option<int>, messageId: Option<int>,
    commentId: Option<int>)

  const LinkPrefix: string := "https://t.me/"
  const FormatError: string := "Invalid Telegram link format: must start with https://t.me/"

  /**
    The message every failure after the prefix check ends with: the "unsupported format"
    error is itself a `ValueError`, so the handler for integer errors catches it and
    replaces its message.
  */
  function IntegerError(link: string): string {
    "Invalid integer format in link: " + link
  }

  /** A query value counts only when it is a non-empty string of digits. */
  function DigitQuery(v: Option<string>): (r: Option<nat>)
    ensures r.Some? <==> v.Some? && IsDigits(v.value)
  {
    if v.Some? && IsDigits(v.value) then Some(DigitsValue(v.value)) else None
  }

  /** The path segments after an optional leading `c`, with that `c` recorded as private. */
  function PeerSegments(parts: seq<string>): (r: (bool, seq<string>))
    ensures r.0 <==> |parts| > 0 && parts[0] == "c"
    ensures r.1 == if r.0 then parts[1..] else parts
  {
    if |parts| > 0 && parts[0] == "c" then (true, parts[1..]) else (false, parts)
  }

  /** The three accepted segment shapes, tried in order. */
  function Shape(parts: seq<string>, thread: Option<nat>, comment: Option<nat>, isPrivate: bool): (r: Option<TelegramLinkInfo>)
    ensures r.Some? <==> (|parts| == 2 && IsDigits(parts[1])) || (|parts| == 3 && IsDigits(parts[1]) && IsDigits(parts[2]))
    ensures r.Some? ==> r.value.peerId == Some(parts[0]) && r.value.messageId.Some? && r.value.isPrivate == isPrivate
    ensures r.Some? && r.value.commentId.Some? ==> r.value.threadId.None? && r.value.commentId == comment
  {
    if |parts| == 2 && thread.Some? && IsDigits(parts[1]) then
      Some(TelegramLinkInfo(isPrivate, Some(parts[0]), Some(thread.value), Some(DigitsValue(parts[1])), None))
    else if |parts| == 2 && IsDigits(parts[1]) then
      Some(TelegramLinkInfo(isPrivate, Some(parts[0]), None, Some(DigitsValue(parts[1])), comment))
    else if |parts| == 3 && IsDigits(parts[1]) && IsDigits(parts[2]) then
      Some(TelegramLinkInfo(isPrivate, Some(parts[0]), Some(DigitsValue(parts[1])), Some(DigitsValue(parts[2])), None))
    else None
  }

  /** `parse_telegram_link`. */
  function ParseTelegramLink(link0: string): (r: Result<TelegramLinkInfo, string>)
    ensures !StartsWith(Strip(link0), LinkPrefix) ==> r == Failure(FormatError)
    ensures r.Failure? ==> r.error == FormatError || r.error == IntegerError(Strip(link0))
    ensures r.Success? ==> r.value.peerId.Some? && r.value.messageId.Some? && r.value.messageId.value >= 0
    ensures r.Success? && r.value.commentId.Some? ==> r.value.threadId.None?
  {
    var link := Strip(link0);
    if !StartsWith(link, LinkPrefix) then Failure(FormatError)
    else match UrlParse(link)
      case Failure(_) => Failure(IntegerError(link))
      case Success(u) => FromParsed(link, u)
  }

  /** The part of `parse_telegram_link` after `urlparse`: query ids, segments and shapes. */
  function FromParsed(link: string, u: ParsedUrl): (r: Result<TelegramLinkInfo, string>)
    ensures r.Failure? ==> r.error == IntegerError(link)
    ensures r.Success? ==> r.value.peerId.Some? && r.value.messageId.Some? && r.value.messageId.value >= 0
    ensures r.Success? && r.value.commentId.Some? ==> r.value.threadId.None?
  {
    var thread := DigitQuery(QueryFirst(u.query, "thread"));
    var comment := DigitQuery(QueryFirst(u.query, "comment"));
    var (isPrivate, parts) := PeerSegments(NonEmpty(Split(u.path, '/')));
    match Shape(parts, thread, comment, isPrivate)
    case None => Failure(IntegerError(link))
    case Some(info) => Success(info)
  }

  /** A link past the prefix check always gets through `urlparse`, with host `t.me`. */
  lemma PrefixedLinkParses(link: string)
    requires StartsWith(link, LinkPrefix)
    ensures UrlParse(link).Success? && UrlParse(link).value.netloc == "t.me"
  {
    assert link == "https://" + "t.me" + "/" + link[|LinkPrefix|..];
    HttpsPrefix(link, "t.me", link[|LinkPrefix|..]);
  }

  /**
    A character that neither `strip`, `urlsplit`, `parse_qs` nor the path split treats
    specially, so it can appear in a peer name.
  */
  predicate PlainChar(c: char) {
    !IsSpace(c) && c != '/' && c != '?' && c != '#' && c != ';' && c != '&' && c != '=' && c != '+'
    && c != '[' && c != ']'
  }

  predicate PlainSegment(s: string) {
    s != [] && forall i :: 0 <= i < |s| ==> PlainChar(s[i])
  }

  /** The path segments of a message link: `[c/]peer/[thread/]message`. */
  function Segments(isPrivate: bool, peer: string, pathThread: Option<nat>, message: nat): seq<string> {
    (if isPrivate then ["c"] else []) + [peer]
    + (if pathThread.Some? then [NatToString(pathThread.value)] else []) + [NatToString(message)]
  }

  /** The query of a message link: `thread=<n>` or `comment=<n>`, if any. */
  function QueryText(query: Option<(string, nat)>): Option<string> {
    if query.Some? then Some(query.value.0 + "=" + NatToString(query.value.1)) else None
  }

  /** A `t.me` message link in one of the documented forms. */
  function Render(isPrivate: bool, peer: string, pathThread: Option<nat>, message: nat, query: Option<(string, nat)>): string {
    var q := QueryText(query);
    LinkPrefix + Join(Segments(isPrivate, peer, pathThread, message), "/") + (if q.Some? then "?" + q.value else "")
  }

  /**
    What parsing a rendered link gives: a thread in the path wins and drops the query; a
    `thread` query sets the thread; a `comment` query sets the comment.
  */
  function Expected(isPrivate: bool, peer: string, pathThread: Option<nat>, message: nat, query: Option<(string, nat)>): TelegramLinkInfo {
    if pathThread.Some? then TelegramLinkInfo(isPrivate, Some(peer), Some(pathThread.value), Some(message), None)
    else if query.Some? && query.value.0 == "thread" then TelegramLinkInfo(isPrivate, Some(peer), Some(query.value.1), Some(message), None)
    else if query.Some? && query.value.0 == "comment" then TelegramLinkInfo(isPrivate, Some(peer), None, Some(message), Some(query.value.1))
    else TelegramLinkInfo(isPrivate, Some(peer), None, Some(message), None)
  }

  /** Every documented link form parses to the record it spells out. */
  lemma ParseRenderedLink(isPrivate: bool, peer: string, pathThread: Option<nat>, message: nat, query: Option<(string, nat)>)
    requires PlainSegment(peer) && (isPrivate || peer != "c")
    requires query.Some? ==> query.value.0 == "thread" || query.value.0 == "comment"
    ensures ParseTelegramLink(Render(isPrivate, peer, pathThread, message, query))
      == Success(Expected(isPrivate, peer, pathThread, message, query))
  {
    var link := Render(isPrivate, peer, pathThread, message, query);
    var u := RenderedUrl(isPrivate, peer, pathThread, message, query);
    RenderedClean(isPrivate, peer, pathThread, message, query);
    ParseOfClean(link, u);
    SegmentChars(isPrivate, peer, pathThread, message);
    PathParts(Segments(isPrivate, peer, pathThread, message));
    ShapeOfSegments(isPrivate, peer, pathThread, message, query);
  }

  /** A clean link past the prefix check is parsed from its `urlparse`. */
  lemma ParseOfClean(link: string, u: ParsedUrl)
    requires Clean(link) && StartsWith(link, LinkPrefix) && UrlParse(link) == Success(u)
    ensures ParseTelegramLink(link) == FromParsed(link, u)
  {
    StripClean(link);
  }

  /** The `urlparse` of a rendered link: host `t.me`, the joined segments, the query. */
  lemma RenderedUrl(isPrivate: bool, peer: string, pathThread: Option<nat>, message: nat, query: Option<(string, nat)>)
      returns (u: ParsedUrl)
    requires PlainSegment(peer)
    requires query.Some? ==> query.value.0 == "thread" || query.value.0 == "comment"
    ensures u == ParsedUrl("https", "t.me", "/" + Join(Segments(isPrivate, peer, pathThread, message), "/"), "",
      QueryText(query).GetOr(""), "")
    ensures UrlParse(Render(isPrivate, peer, pathThread, message, query)) == Success(u)
  {
    var segs := Segments(isPrivate, peer, pathThread, message);
    var path := Join(segs, "/");
    var q := QueryText(query);
    var link := Render(isPrivate, peer, pathThread, message, query);
    SegmentChars(isPrivate, peer, pathThread, message);
    JoinChars(segs, '/', QuietPathChar);
    QueryChars(query);
    assert link == "https://" + "t.me" + "/" + path + (if q.Some? then "?" + q.value else "");
    HttpsParts(link, "t.me", path, q);
    u := ParsedUrl("https", "t.me", "/" + path, "", q.GetOr(""), "");
  }

  /** Path characters that `urlsplit` passes through untouched. */
  predicate QuietPathChar(c: char) {
    !IsUnsafe(c) && c != '?' && c != '#' && c != ';'
  }

  lemma SegmentChars(isPrivate: bool, peer: string, pathThread: Option<nat>, message: nat)
    requires PlainSegment(peer)
    ensures var segs := Segments(isPrivate, peer, pathThread, message);
      forall i, j :: 0 <= i < |segs| && 0 <= j < |segs[i]| ==> QuietPathChar(segs[i][j]) && segs[i][j] != '/'
    ensures forall i :: 0 <= i < |Segments(isPrivate, peer, pathThread, message)| ==> Segments(isPrivate, peer, pathThread, message)[i] != []
  {
    var segs := Segments(isPrivate, peer, pathThread, message);
    forall i, j | 0 <= i < |segs| && 0 <= j < |segs[i]| ensures QuietPathChar(segs[i][j]) && segs[i][j] != '/' {
      var x := segs[i][j];
      assert x == 'c' || x in peer || IsDigit(x) by {
        var t := if pathThread.Some? then [NatToString(pathThread.value)] else [];
        var pre := if isPrivate then ["c"] else [];
        if i < |pre| {
        } else if i == |pre| {
          assert segs[i] == peer;
        } else if i < |pre| + 1 + |t| {
          assert segs[i] == NatToString(pathThread.value);
        } else {
          assert segs[i] == NatToString(message);
        }
      }
      if x in peer {
        var k :| 0 <= k < |peer| && peer[k] == x;
        assert PlainChar(peer[k]);
      }
    }
  }

  lemma QueryChars(query: Option<(string, nat)>)
    requires query.Some? ==> query.value.0 == "thread" || query.value.0 == "comment"
    ensures QueryText(query).Some? ==> forall j :: 0 <= j < |QueryText(query).value| ==>
      !IsUnsafe(QueryText(query).value[j]) && QueryText(query).value[j] != '#'
  {
    if query.Some? {
      var t := QueryText(query).value;
      var n := NatToString(query.value.1);
      forall j | 0 <= j < |t| ensures !IsUnsafe(t[j]) && t[j] != '#' {
        if j > |query.value.0| {
          assert t[j] == n[j - |query.value.0| - 1];
        }
      }
    }
  }

  /** A rendered link has no surrounding whitespace: it starts with `h` and ends with a digit. */
  lemma RenderedClean(isPrivate: bool, peer: string, pathThread: Option<nat>, message: nat, query: Option<(string, nat)>)
    ensures Clean(Render(isPrivate, peer, pathThread, message, query))
    ensures StartsWith(Render(isPrivate, peer, pathThread, message, query), LinkPrefix)
  {
    var link := Render(isPrivate, peer, pathThread, message, query);
    var segs := Segments(isPrivate, peer, pathThread, message);
    var last := NatToString(message);
    JoinEndsWith(segs, '/');
    assert IsDigit(last[|last| - 1]);
    assert link[0] == 'h';
    var q := QueryText(query);
    if q.Some? {
      var n := NatToString(query.value.1);
      assert IsDigit(n[|n| - 1]);
      assert link[|link| - 1] == n[|n| - 1];
    } else {
      var path := Join(segs, "/");
      assert link[|link| - 1] == path[|path| - 1];
    }
  }

  lemma {:induction false} JoinEndsWith(parts: seq<string>, c: char)
    requires |parts| >= 1 && parts[|parts| - 1] != []
    ensures var j := Join(parts, [c]); var l := parts[|parts| - 1]; |j| >= |l| && j[|j| - 1] == l[|l| - 1]
  {
    if |parts| > 1 {
      JoinEndsWith(parts[1..], c);
    }
  }

  /** The path `/` + join of plain segments splits back into those segments. */
  lemma PathParts(segs: seq<string>)
    requires |segs| >= 1
    requires forall i :: 0 <= i < |segs| ==> segs[i] != [] && '/' !in segs[i]
    ensures NonEmpty(Split("/" + Join(segs, "/"), '/')) == segs
  {
    assert "/" + Join(segs, "/") == "" + ['/'] + Join(segs, "/");
    SplitAt("", '/', Join(segs, "/"));
    SplitJoinRoundTrip(segs, '/');
    var all := [""] + segs;
    assert NonEmpty(all) == NonEmpty(all[1..]);
    assert all[1..] == segs;
  }

  /** The query ids a rendered query carries. */
  lemma QueryValues(query: Option<(string, nat)>)
    requires query.Some? ==> query.value.0 == "thread" || query.value.0 == "comment"
    ensures var q := QueryText(query).GetOr("");
      && DigitQuery(QueryFirst(q, "thread")) == (if query.Some? && query.value.0 == "thread" then Some(query.value.1) else None)
      && DigitQuery(QueryFirst(q, "comment")) == (if query.Some? && query.value.0 == "comment" then Some(query.value.1) else None)
  {
    if query.Some? {
      var n := NatToString(query.value.1);
      OnePair(query.value.0, n);
      NatToStringRoundTrip(query.value.1);
    } else {
      SplitNone("", '&');
    }
  }

  /** `thread=<digits>` or `comment=<digits>` is a single name-value pair. */
  lemma OnePair(name: string, n: string)
    requires name == "thread" || name == "comment"
    requires IsDigits(n)
    ensures QueryPairs(name + "=" + n) == [(name, n)]
  {
    var q := name + "=" + n;
    assert '&' !in q by {
      assert forall j :: 0 <= j < |q| ==> j < |name| || q[j] == '=' || q[j] == n[j - |name| - 1];
    }
    SplitNone(q, '&');
    assert q == name + ['='] + n;
    SplitOnceAt(name, '=', n);
    assert '+' !in n;
    PlusFree(name);
    PlusFree(n);
  }

  lemma PlusFree(s: string)
    requires '+' !in s
    ensures PlusToSpace(s) == s
  {
  }

  /** The segment shapes of a rendered link select the expected record. */
  lemma ShapeOfSegments(isPrivate: bool, peer: string, pathThread: Option<nat>, message: nat, query: Option<(string, nat)>)
    requires isPrivate || peer != "c"
    requires query.Some? ==> query.value.0 == "thread" || query.value.0 == "comment"
    ensures var q := QueryText(query).GetOr("");
      var (p, parts) := PeerSegments(Segments(isPrivate, peer, pathThread, message));
      Shape(parts, DigitQuery(QueryFirst(q, "thread")), DigitQuery(QueryFirst(q, "comment")), p)
        == Some(Expected(isPrivate, peer, pathThread, message, query))
  {
    QueryValues(query);
    NatToStringRoundTrip(message);
    if pathThread.Some? {
      NatToStringRoundTrip(pathThread.value);
    }
  }

  /** `-(1000000000000 + p)`: the bot-API id of private channel `p`. */
  function ChannelPeer(p: int): (id: int)
    ensures PeerOfChannel(id) == p
  {
    -(1000000000000 + p)
  }

  /** The channel number back from its bot-API id. */
  function PeerOfChannel(id: int): int {
    -id - 1000000000000
  }

  /** Distinct private channels resolve to distinct peers, all below -10^12 when p >= 0. */
  lemma ChannelPeerInjective(p: int, q: int)
    ensures ChannelPeer(p) == ChannelPeer(q) <==> p == q
    ensures p >= 0 ==> ChannelPeer(p) <= -1000000000000
  {
    if ChannelPeer(p) == ChannelPeer(q) {
      assert PeerOfChannel(ChannelPeer(p)) == PeerOfChannel(ChannelPeer(q));
    }
  }

  datatype Peer = Username(name: string) | Channel(id: int)

  /**
    What `resolve_message` goes on to fetch: nothing, one message, or a channel post and
    then the comment in its discussion group.
  */
  datatype Plan = NoTarget | Direct(peer: Peer, id: int) | ViaComment(peer: Peer, postId: int, commentId: int)

  /**
    The id arithmetic at the top of `resolve_message`. A missing or falsy peer or message
    id resolves to nothing; a private peer that is not an integer raises.
  */
  function ResolvePlan(info: TelegramLinkInfo): (r: Result<Plan, string>)
    ensures info.peerId.None? || info.peerId.value == "" || info.messageId.None? || info.messageId.value == 0
      ==> r == Success(NoTarget)
    ensures r.Success? && !r.value.NoTarget? && info.isPrivate ==>
      r.value.peer.Channel? && PyInt(info.peerId.value).Some? && PeerOfChannel(r.value.peer.id) == PyInt(info.peerId.value).value
    ensures r.Success? && !r.value.NoTarget? && !info.isPrivate ==> r.value.peer == Username(info.peerId.value)
    ensures r.Failure? <==>
      info.isPrivate && !(info.peerId.None? || info.peerId.value == "" || info.messageId.None? || info.messageId.value == 0)
      && PyInt(info.peerId.value).None?
  {
    if info.peerId.None? || info.peerId.value == "" || info.messageId.None? || info.messageId.value == 0 then Success(NoTarget)
    else
      var peer :=
        if !info.isPrivate then Success(Username(info.peerId.value))
        else match PyInt(info.peerId.value)
          case None => Failure("invalid literal for int() with base 10: '" + info.peerId.value + "'")
          case Some(p) => Success(Channel(ChannelPeer(p)));
      match peer
      case Failure(e) => Failure(e)
      case Success(pr) =>
        if info.commentId.Some? && info.commentId.value != 0 then
          Success(ViaComment(pr, info.messageId.value, info.commentId.value))
        else Success(Direct(pr, info.messageId.value))
  }

  /** The message finally asked for: the comment when there is a (truthy) one, else the message. */
  function TargetId(p: Plan): Option<int> {
    match p
    case NoTarget => None
    case Direct(_, id) => Some(id)
    case ViaComment(_, _, c) => Some(c)
  }

  lemma ResolveTargetsCommentFirst(info: TelegramLinkInfo)
    requires ResolvePlan(info).Success? && !ResolvePlan(info).value.NoTarget?
    ensures info.commentId.Some? && info.commentId.value != 0 ==> TargetId(ResolvePlan(info).value) == info.commentId
    ensures !(info.commentId.Some? && info.commentId.value != 0) ==> TargetId(ResolvePlan(info).value) == info.messageId
  {
  }
}
