/**
  The Twitter download executor: the paging loop that asks the downloader for pages of
  media at a clamped page size until a page comes back missing or empty, hands every
  item of a page to the downloader and lets the whole page finish before asking for the
  next one; and the batch submission of a handler over a list of arguments. The thread
  pool is run one item at a time; the calls the executor makes are kept as a trace.
*/
module TwitterExecutor {
  import opened Wrappers
  import opened TwitterModels
  import TD = TwitterDownloader

  /** `min(max(count, 1), 50)`: the page size asked for on every round. */
  function PageSize(count: int): (r: int)
    ensures 1 <= r <= 50
    ensures 1 <= count <= 50 ==> r == count
    ensures count < 1 ==> r == 1
    ensures count > 50 ==> r == 50
  {
    if count < 1 then 1 else if count > 50 then 50 else count
  }

  /** A call the executor makes on the downloader. */
  datatype Event = Requested(size: int) | Submitted(media: MediaInfo)

  function Submissions(items: seq<MediaInfo>): (r: seq<Event>)
    ensures |r| == |items|
    ensures forall i :: 0 <= i < |r| ==> r[i] == Submitted(items[i])
  {
    if items == [] then [] else Submissions(items[..|items| - 1]) + [Submitted(items[|items| - 1])]
  }

  /** One round per page, in order: the request that fetched the page, then its items. */
  function Rounds(pages: seq<seq<MediaInfo>>, size: int): seq<Event> {
    if pages == [] then []
    else Rounds(pages[..|pages| - 1], size) + [Requested(size)] + Submissions(pages[|pages| - 1])
  }

  /** A whole run: the rounds of the pages downloaded, then the request that ended it. */
  function Trace(pages: seq<seq<MediaInfo>>, size: int): seq<Event> {
    Rounds(pages, size) + [Requested(size)]
  }

  function Concat<T>(pages: seq<seq<T>>): seq<T> {
    if pages == [] then [] else Concat(pages[..|pages| - 1]) + pages[|pages| - 1]
  }

  /** The items of the submissions of a trace, in order. */
  function SubmittedMedia(events: seq<Event>): seq<MediaInfo> {
    if events == [] then []
    else
      var last := events[|events| - 1];
      SubmittedMedia(events[..|events| - 1]) + (if last.Submitted? then [last.media] else [])
  }

  /** The page sizes of the requests of a trace, in order. */
  function RequestSizes(events: seq<Event>): seq<int> {
    if events == [] then []
    else
      var last := events[|events| - 1];
      RequestSizes(events[..|events| - 1]) + (if last.Requested? then [last.size] else [])
  }

  lemma {:induction false} SubmittedMediaAppend(a: seq<Event>, b: seq<Event>)
    ensures SubmittedMedia(a + b) == SubmittedMedia(a) + SubmittedMedia(b)
    ensures RequestSizes(a + b) == RequestSizes(a) + RequestSizes(b)
  {
    if b != [] {
      SubmittedMediaAppend(a, b[..|b| - 1]);
      assert (a + b)[..|a + b| - 1] == a + b[..|b| - 1];
    } else {
      assert a + b == a;
    }
  }

  lemma {:induction false} SubmissionsContents(items: seq<MediaInfo>)
    ensures SubmittedMedia(Submissions(items)) == items
    ensures RequestSizes(Submissions(items)) == []
  {
    if items != [] {
      var init := items[..|items| - 1];
      SubmissionsContents(init);
      SubmittedMediaAppend(Submissions(init), [Submitted(items[|items| - 1])]);
      assert SubmittedMedia([Submitted(items[|items| - 1])]) == [items[|items| - 1]];
      assert RequestSizes([Submitted(items[|items| - 1])]) == [];
    }
  }

  /**
    A run submits every item of every page exactly once, in page order, and makes one
    request per page plus the one that ended it, all at the same page size.
  */
  lemma {:induction false} TraceContents(pages: seq<seq<MediaInfo>>, size: int)
    ensures SubmittedMedia(Trace(pages, size)) == Concat(pages)
    ensures RequestSizes(Trace(pages, size)) == seq(|pages| + 1, _ => size)
  {
    RoundsContents(pages, size);
    SubmittedMediaAppend(Rounds(pages, size), [Requested(size)]);
    assert SubmittedMedia([Requested(size)]) == [];
    assert RequestSizes([Requested(size)]) == [size];
  }

  lemma {:induction false} RoundsContents(pages: seq<seq<MediaInfo>>, size: int)
    ensures SubmittedMedia(Rounds(pages, size)) == Concat(pages)
    ensures RequestSizes(Rounds(pages, size)) == seq(|pages|, _ => size)
  {
    if pages != [] {
      var init := pages[..|pages| - 1];
      var page := pages[|pages| - 1];
      RoundsContents(init, size);
      SubmittedMediaAppend(Rounds(init, size), [Requested(size)]);
      SubmittedMediaAppend(Rounds(init, size) + [Requested(size)], Submissions(page));
      SubmissionsContents(page);
      assert SubmittedMedia([Requested(size)]) == [];
      assert RequestSizes([Requested(size)]) == [size];
    }
  }

  /**
    The rounds of earlier pages come, whole, before those of later pages: every item of
    a page is submitted before the request for the next page.
  */
  lemma {:induction false} RoundsAppend(a: seq<seq<MediaInfo>>, b: seq<seq<MediaInfo>>, size: int)
    ensures Rounds(a + b, size) == Rounds(a, size) + Rounds(b, size)
  {
    if b != [] {
      var init := b[..|b| - 1];
      RoundsAppend(a, init, size);
      assert (a + b)[..|a + b| - 1] == a + init;
    } else {
      assert a + b == a;
    }
  }

  /** `pages` are the non-empty pages the endpoint gives from its `start`-th reply on. */
  predicate PagesFrom(api: TD.LikesEndpoint, start: nat, pages: seq<seq<MediaInfo>>) {
    forall i :: 0 <= i < |pages| ==> pages[i] != [] && TD.PageItems(api.Reply(start + i)) == Some(pages[i])
  }

  lemma PagesFromSnoc(api: TD.LikesEndpoint, start: nat, pages: seq<seq<MediaInfo>>, page: seq<MediaInfo>)
    requires PagesFrom(api, start, pages)
    requires page != [] && TD.PageItems(api.Reply(start + |pages|)) == Some(page)
    ensures PagesFrom(api, start, pages + [page])
  {
    var next := pages + [page];
    forall i | 0 <= i < |next|
      ensures next[i] != [] && TD.PageItems(api.Reply(start + i)) == Some(next[i])
    {
      if i < |pages| {
        assert next[i] == pages[i];
      }
    }
  }

  /**
    After the rounds of `pages`, from a start with log `log0`, downloads `handled0` and
    endpoint requests `requests0`, the log, downloads and requests are `log`, `handled`
    and `requests`.
  */
  predicate Ran(api: TD.LikesEndpoint, size: int, log0: seq<Event>, handled0: seq<MediaInfo>,
                requests0: seq<(string, Option<string>, int)>, pages: seq<seq<MediaInfo>>,
                log: seq<Event>, handled: seq<MediaInfo>, requests: seq<(string, Option<string>, int)>)
  {
    && log == log0 + Rounds(pages, size)
    && handled == handled0 + Concat(pages)
    && requests0 <= requests
    && |requests| == |requests0| + |pages|
    && PagesFrom(api, |requests0|, pages)
    && forall i :: |requests0| <= i < |requests| ==> requests[i].2 == TD.MediaCount(size)
  }

  /** One more round: a request that gave a non-empty page, then that page's downloads. */
  lemma RanStep(api: TD.LikesEndpoint, size: int, log0: seq<Event>, handled0: seq<MediaInfo>,
                requests0: seq<(string, Option<string>, int)>, pages: seq<seq<MediaInfo>>,
                log: seq<Event>, handled: seq<MediaInfo>, requests: seq<(string, Option<string>, int)>,
                page: seq<MediaInfo>, request: (string, Option<string>, int), log': seq<Event>, handled': seq<MediaInfo>)
    requires Ran(api, size, log0, handled0, requests0, pages, log, handled, requests)
    requires page != [] && TD.PageItems(api.Reply(|requests|)) == Some(page)
    requires request.2 == TD.MediaCount(size)
    requires log' == log + [Requested(size)] + Submissions(page) && handled' == handled + page
    ensures log' == log0 + Rounds(pages + [page], size)
    ensures handled' == handled0 + Concat(pages + [page])
    ensures requests0 <= requests + [request]
    ensures |requests + [request]| == |requests0| + |pages + [page]|
    ensures PagesFrom(api, |requests0|, pages + [page])
    ensures forall i :: |requests0| <= i < |requests + [request]| ==> (requests + [request])[i].2 == TD.MediaCount(size)
  {
    PagesFromSnoc(api, |requests0|, pages, page);
    LogStep(log0, log, pages, page, size);
    Assoc(handled0, Concat(pages), page);
    RequestsStep(requests0, requests, request, TD.MediaCount(size));
  }

  /** The last round: a request that gave no page ends the trace. */
  lemma RanEnd(api: TD.LikesEndpoint, size: int, log0: seq<Event>, handled0: seq<MediaInfo>,
               requests0: seq<(string, Option<string>, int)>, pages: seq<seq<MediaInfo>>,
               log: seq<Event>, handled: seq<MediaInfo>, requests: seq<(string, Option<string>, int)>,
               request: (string, Option<string>, int))
    requires Ran(api, size, log0, handled0, requests0, pages, log, handled, requests)
    requires request.2 == TD.MediaCount(size)
    ensures log + [Requested(size)] == log0 + Trace(pages, size)
    ensures requests0 <= requests + [request]
    ensures |requests + [request]| == |requests0| + |pages| + 1
    ensures forall i :: |requests0| <= i < |requests + [request]| ==> (requests + [request])[i].2 == TD.MediaCount(size)
  {
    Assoc(log0, Rounds(pages, size), [Requested(size)]);
    RequestsStep(requests0, requests, request, TD.MediaCount(size));
  }

  lemma LogStep(log0: seq<Event>, log: seq<Event>, pages: seq<seq<MediaInfo>>, page: seq<MediaInfo>, size: int)
    requires log == log0 + Rounds(pages, size)
    ensures log + [Requested(size)] + Submissions(page) == log0 + Rounds(pages + [page], size)
  {
    Snoc(pages, page, size);
    Assoc(log0, Rounds(pages, size), [Requested(size)] + Submissions(page));
    Assoc(log, [Requested(size)], Submissions(page));
    Assoc(Rounds(pages, size), [Requested(size)], Submissions(page));
  }

  lemma RequestsStep<R>(requests0: seq<(string, Option<string>, R)>, requests: seq<(string, Option<string>, R)>,
                        request: (string, Option<string>, R), n: R)
    requires requests0 <= requests && request.2 == n
    requires forall i :: |requests0| <= i < |requests| ==> requests[i].2 == n
    ensures requests0 <= requests + [request]
    ensures forall i :: |requests0| <= i < |requests| + 1 ==> (requests + [request])[i].2 == n
  {
  }

  lemma Assoc<T>(a: seq<T>, b: seq<T>, c: seq<T>)
    ensures a + (b + c) == (a + b) + c
  {
  }

  lemma Snoc(pages: seq<seq<MediaInfo>>, page: seq<MediaInfo>, size: int)
    ensures Rounds(pages + [page], size) == Rounds(pages, size) + [Requested(size)] + Submissions(page)
    ensures Concat(pages + [page]) == Concat(pages) + page
  {
    assert (pages + [page])[..|pages|] == pages;
  }

  class ThreadedExecutor {
    const maxWorkers: int
    /** The calls made on downloaders, in order. */
    var log: seq<Event>

    constructor (maxWorkers: int)
      ensures this.maxWorkers == maxWorkers && log == []
    {
      this.maxWorkers := maxWorkers;
      log := [];
    }

    /**
      `start_download`: pages are requested at the clamped size until one is None or
      empty; the items of each non-empty page are downloaded before the next request.
      The pages downloaded are the endpoint's replies from the first request on, every
      download is accounted for by the downloader, and the run ends on the first reply
      that gives no items.
    */
    method StartDownload(d: TD.TwitterLikesMediaDownloader, count: int) returns (pages: seq<seq<MediaInfo>>)
      requires d.Valid()
      modifies this, d, d.api, d.cache
      ensures d.Valid()
      ensures log == old(log) + Trace(pages, PageSize(count))
      ensures d.handled == old(d.handled) + Concat(pages)
      ensures old(d.api.requests) <= d.api.requests
      ensures |d.api.requests| == |old(d.api.requests)| + |pages| + 1
      ensures forall i :: 0 <= i < |pages| ==>
        pages[i] != [] && TD.PageItems(d.api.Reply(|old(d.api.requests)| + i)) == Some(pages[i])
      ensures var last := TD.PageItems(d.api.Reply(|d.api.requests| - 1)); last.None? || last == Some([])
      ensures forall i :: |old(d.api.requests)| <= i < |d.api.requests| ==>
        d.api.requests[i].2 == TD.MediaCount(PageSize(count))
    {
      var size := PageSize(count);
      ghost var log0, handled0, requests0 := log, d.handled, d.api.requests;
      pages := [];
      while true
        invariant d.Valid()
        invariant Ran(d.api, size, log0, handled0, requests0, pages, log, d.handled, d.api.requests)
        decreases if |d.api.requests| <= |d.api.replies| then |d.api.replies| - |d.api.requests| else 0
      {
        ghost var logBefore, requestsBefore := log, d.api.requests;
        var page := Round(d, size, log0, handled0, requests0, pages);
        if page.None? {
          RanEnd(d.api, size, log0, handled0, requests0, pages, logBefore, d.handled, requestsBefore,
                 d.api.requests[|requestsBefore|]);
          assert d.api.requests == requestsBefore + [d.api.requests[|requestsBefore|]];
          break;
        }
        pages := pages + [page.value];
      }
    }

    /**
      One round of the loop: request a page; a missing or empty one ends the run,
      otherwise its items are all downloaded.
    */
    method Round(d: TD.TwitterLikesMediaDownloader, size: int, ghost log0: seq<Event>,
                 ghost handled0: seq<MediaInfo>, ghost requests0: seq<(string, Option<string>, int)>,
                 ghost pages: seq<seq<MediaInfo>>) returns (page: Option<seq<MediaInfo>>)
      requires d.Valid()
      requires Ran(d.api, size, log0, handled0, requests0, pages, log, d.handled, d.api.requests)
      modifies this, d, d.api, d.cache
      ensures d.Valid()
      ensures d.api.requests == old(d.api.requests) + [(d.restId, old(d.cursor), TD.MediaCount(size))]
      ensures page.Some? ==> |old(d.api.requests)| < |d.api.replies|
      ensures page.Some? ==> Ran(d.api, size, log0, handled0, requests0, pages + [page.value], log, d.handled, d.api.requests)
      ensures page.None? ==>
        && log == old(log) + [Requested(size)] && d.handled == old(d.handled)
        && var got := TD.PageItems(d.api.Reply(|old(d.api.requests)|)); got.None? || got == Some([])
    {
      ghost var k := |d.api.requests|;
      ghost var log1, handled1, requests1 := log, d.handled, d.api.requests;
      var items := d.GetMedias(size);
      log := log + [Requested(size)];
      if items.None? || items.value == [] {
        return None;
      }
      assert k < |d.api.replies|;
      SubmitPage(d, items.value);
      page := items;
      RanStep(d.api, size, log0, handled0, requests0, pages, log1, handled1, requests1,
              items.value, d.api.requests[k], log, d.handled);
    }

    /** Submit every item of one page and wait for all of them. */
    method SubmitPage(d: TD.TwitterLikesMediaDownloader, page: seq<MediaInfo>)
      requires d.Valid()
      modifies this`log, d`failedList, d`imageCount, d`videoCount, d`files, d`fetches
      modifies d`handled, d`saved, d.cache
      ensures d.Valid()
      ensures log == old(log) + Submissions(page)
      ensures d.handled == old(d.handled) + page
    {
      for i := 0 to |page|
        invariant d.Valid()
        invariant log == old(log) + Submissions(page[..i])
        invariant d.handled == old(d.handled) + page[..i]
      {
        d.DownloadMedia(page[i]);
        assert page[..i + 1][..i] == page[..i];
        Assoc(old(log), Submissions(page[..i]), [Submitted(page[i])]);
        Assoc(old(d.handled), page[..i], [page[i]]);
        log := log + [Submitted(page[i])];
      }
      assert page[..|page|] == page;
    }

    /**
      `submit_tasks`: the handler runs once per argument, and the batch is over only
      when every call has finished; the results are those calls' results, in argument
      order.
    */
    method SubmitTasks<A, R>(handler: A -> R, args: seq<A>) returns (results: seq<R>)
      ensures |results| == |args|
      ensures forall i :: 0 <= i < |args| ==> results[i] == handler(args[i])
    {
      results := [];
      for i := 0 to |args|
        invariant |results| == i
        invariant forall j :: 0 <= j < i ==> results[j] == handler(args[j])
      {
        results := results + [handler(args[i])];
      }
    }
  }
}
