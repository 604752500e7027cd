/** Validation of the link file: one URL per line, blank lines ignored. */
module TelegramInput {
  import opened Wrappers
  import opened Text
  import opened Url

  /**
    `is_valid_url`: a URL needs both a scheme and a network location. `urlparse` raising on
    an unmatched bracket propagates (Failure).
  */
  function IsValidUrl(url: string): (r: Result<bool, string>)
    ensures r.Failure? <==> UrlParse(url).Failure?
    ensures r.Success? ==> (r.value <==> UrlParse(url).value.scheme != "" && UrlParse(url).value.netloc != "")
  {
    match UrlParse(url)
    case Failure(e) => Failure(e)
    case Success(p) => Success(p.scheme != "" && p.netloc != "")
  }

  function InvalidUrl(line: string): string {
    "无效的 URL: " + line
  }

  const NoUrls: string := "没有找到 URL "

  /**
    The loop of `get_links_for_configure_or_raise` as a function of the remaining lines:
    blank lines are skipped, and the first line that is not a valid URL stops everything.
  */
  function Collect(lines: seq<string>, valid: string -> Result<bool, string>): Result<set<string>, string> {
    if lines == [] then Success({})
    else
      var line := Strip(lines[0]);
      if line == "" then Collect(lines[1..], valid)
      else match valid(line)
        case Failure(e) => Failure(e)
        case Success(false) => Failure(InvalidUrl(line))
        case Success(true) =>
          match Collect(lines[1..], valid)
          case Failure(e) => Failure(e)
          case Success(rest) => Success({line} + rest)
  }

  /** The URLs of a link file: the trimmed valid lines, duplicates collapsed. */
  ghost function Urls(lines: seq<string>): set<string> {
    set i | 0 <= i < |lines| && Strip(lines[i]) != "" :: Strip(lines[i])
  }

  predicate Acceptable(line: string, valid: string -> Result<bool, string>) {
    var t := Strip(line);
    t == "" || valid(t) == Success(true)
  }

  /**
    The lines are accepted exactly when every non-blank trimmed line is a valid URL, and
    the result is then the set of those trimmed lines.
  */
  lemma {:induction false} CollectMeaning(lines: seq<string>, valid: string -> Result<bool, string>)
    ensures Collect(lines, valid).Success? <==> forall i :: 0 <= i < |lines| ==> Acceptable(lines[i], valid)
    ensures Collect(lines, valid).Success? ==> Collect(lines, valid).value == Urls(lines)
  {
    if lines != [] {
      CollectMeaning(lines[1..], valid);
      var tail := lines[1..];
      if forall i :: 0 <= i < |tail| ==> Acceptable(tail[i], valid) {
        assert forall i :: 1 <= i < |lines| ==> Acceptable(lines[i], valid) by {
          forall i | 1 <= i < |lines| ensures Acceptable(lines[i], valid) {
            assert lines[i] == tail[i - 1];
          }
        }
      } else {
        var i :| 0 <= i < |tail| && !Acceptable(tail[i], valid);
        assert lines[i + 1] == tail[i];
      }
      if Collect(lines, valid).Success? {
        UrlsCons(lines);
      }
    }
  }

  lemma UrlsCons(lines: seq<string>)
    requires lines != []
    ensures var t := Strip(lines[0]);
      Urls(lines) == (if t == "" then {} else {t}) + Urls(lines[1..])
  {
    var t := Strip(lines[0]);
    var tail := lines[1..];
    forall x | x in Urls(lines) ensures x in (if t == "" then {} else {t}) + Urls(tail) {
      var i :| 0 <= i < |lines| && Strip(lines[i]) != "" && Strip(lines[i]) == x;
      if i > 0 {
        assert tail[i - 1] == lines[i];
      }
    }
    forall x | x in Urls(tail) ensures x in Urls(lines) {
      var i :| 0 <= i < |tail| && Strip(tail[i]) != "" && Strip(tail[i]) == x;
      assert lines[i + 1] == tail[i];
    }
  }

  /**
    What `get_links_for_configure_or_raise` returns: the collected URLs, or an error when
    a line is invalid or no URL was found.
  */
  function Links(lines: seq<string>, valid: string -> Result<bool, string>): Result<set<string>, string> {
    match Collect(lines, valid)
    case Failure(e) => Failure(e)
    case Success(urls) => if urls == {} then Failure(NoUrls) else Success(urls)
  }

  /** `get_links_for_configure_or_raise` over the lines of the link file. */
  method GetLinksForConfigureOrRaise(lines: seq<string>) returns (r: Result<set<string>, string>)
    ensures r == Links(lines, IsValidUrl)
  {
    r := ReadLinks(lines, IsValidUrl);
  }

  /** The loop of `get_links_for_configure_or_raise`, for any URL check. */
  method ReadLinks(lines: seq<string>, isValidUrl: string -> Result<bool, string>) returns (r: Result<set<string>, string>)
    ensures r == Links(lines, isValidUrl)
  {
    var urls: set<string> := {};
    var i := 0;
    assert lines[0..] == lines;
    ThenEmpty(Collect(lines, isValidUrl));
    while i < |lines|
      invariant 0 <= i <= |lines|
      invariant Collect(lines, isValidUrl) == Then(urls, Collect(lines[i..], isValidUrl))
    {
      CollectStep(lines, i, isValidUrl);
      var line := Strip(lines[i]);
      if line == "" {
        i := i + 1;
        continue;
      }
      var valid := isValidUrl(line);
      if valid.Failure? {
        return Failure(valid.error);
      }
      if valid.value {
        ThenUnion(urls, line, Collect(lines[i + 1..], isValidUrl));
        urls := urls + {line};
      } else {
        return Failure(InvalidUrl(line));
      }
      i := i + 1;
    }
    assert lines[i..] == [];
    if |urls| == 0 {
      return Failure(NoUrls);
    }
    return Success(urls);
  }

  /**
    The link file is accepted exactly when every non-blank line is a valid URL and at least
    one is present; the result is then the set of trimmed lines.
  */
  lemma LinksMeaning(lines: seq<string>)
    ensures Links(lines, IsValidUrl).Success? <==>
      (forall i :: 0 <= i < |lines| ==> Acceptable(lines[i], IsValidUrl)) && Urls(lines) != {}
    ensures Links(lines, IsValidUrl).Success? ==> Links(lines, IsValidUrl).value == Urls(lines)
  {
    CollectMeaning(lines, IsValidUrl);
  }

  lemma CollectStep(lines: seq<string>, i: nat, valid: string -> Result<bool, string>)
    requires i < |lines|
    ensures var line := Strip(lines[i]);
      Collect(lines[i..], valid) ==
        if line == "" then Collect(lines[i + 1..], valid)
        else match valid(line)
          case Failure(e) => Failure(e)
          case Success(false) => Failure(InvalidUrl(line))
          case Success(true) => Then({line}, Collect(lines[i + 1..], valid))
  {
    assert lines[i..][1..] == lines[i + 1..];
  }

  lemma ThenEmpty(x: Result<set<string>, string>)
    ensures Then({}, x) == x
  {
    if x.Success? {
      assert {} + x.value == x.value;
    }
  }

  lemma ThenUnion(done: set<string>, line: string, x: Result<set<string>, string>)
    ensures Then(done, Then({line}, x)) == Then(done + {line}, x)
  {
    if x.Success? {
      assert done + ({line} + x.value) == (done + {line}) + x.value;
    }
  }

  /** The result of lines already collected into `done`, followed by the rest. */
  function Then(done: set<string>, rest: Result<set<string>, string>): Result<set<string>, string> {
    match rest
    case Failure(e) => Failure(e)
    case Success(s) => Success(done + s)
  }
}
