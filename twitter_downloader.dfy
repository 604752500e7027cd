/**
  The Twitter likes downloader: fetching one page of liked media (the cursor and the
  request count it keeps), downloading one media item through a temporary file with its
  decision ladder (kind filter, cache check, request, transfer, final name, rename, cache
  commit), the success counters and the failure list, and the simulated chunked response.
*/
module TwitterDownloader {
  import opened Wrappers
  import opened Text
  import Paths
  import Cache
  import opened TwitterModels
  import opened TwitterApi

  // ---------------------------------------------------------------------------------
  // FakeResponse

  /** The byte `b"x"`. */
  const X: bv8 := 0x78

  function Repeat(b: bv8, n: nat): (r: seq<bv8>)
    ensures |r| == n && forall i :: 0 <= i < n ==> r[i] == b
  {
    if n == 0 then [] else Repeat(b, n - 1) + [b]
  }

  lemma RepeatAdd(b: bv8, m: nat, n: nat)
    ensures Repeat(b, m) + Repeat(b, n) == Repeat(b, m + n)
  {
    assert forall i :: 0 <= i < m + n ==> (Repeat(b, m) + Repeat(b, n))[i] == b;
  }

  /** The bytes of the chunks one after another. */
  function Flatten(chunks: seq<seq<bv8>>): seq<bv8> {
    if chunks == [] then [] else Flatten(chunks[..|chunks| - 1]) + chunks[|chunks| - 1]
  }

  /** `FakeResponse`: a response whose body is `total_size` bytes "x", served from `_pos` on. */
  class FakeResponse {
    const totalSize: int
    /** Stored by the constructor but never read: `iter_content` takes its own size. */
    const chunkSize: int
    var pos: int

    constructor (totalSize: int, chunkSize: int)
      ensures this.totalSize == totalSize && this.chunkSize == chunkSize && pos == 0
    {
      this.totalSize := totalSize;
      this.chunkSize := chunkSize;
      pos := 0;
    }

    /**
      `iter_content(chunk_size)`, with the generator run to the end: chunks of exactly
      `size` bytes and a shorter last one, which together are the rest of the body.
    */
    method IterContent(size: int) returns (chunks: seq<seq<bv8>>)
      requires size > 0
      modifies this`pos
      ensures pos == if old(pos) < totalSize then totalSize else old(pos)
      ensures Flatten(chunks) == Repeat(X, pos - old(pos))
      ensures forall i :: 0 <= i < |chunks| ==> 0 < |chunks[i]| <= size
      ensures forall i :: 0 <= i < |chunks| - 1 ==> |chunks[i]| == size
    {
      chunks := [];
      ghost var start := pos;
      while pos < totalSize
        invariant start == old(pos) && start <= pos && (start < totalSize ==> pos <= totalSize)
        invariant start >= totalSize ==> pos == start
        invariant Flatten(chunks) == Repeat(X, pos - start)
        invariant forall i :: 0 <= i < |chunks| ==> 0 < |chunks[i]| <= size
        invariant pos < totalSize ==> forall i :: 0 <= i < |chunks| ==> |chunks[i]| == size
        invariant pos >= totalSize ==> forall i :: 0 <= i < |chunks| - 1 ==> |chunks[i]| == size
        decreases totalSize - pos
      {
        var n := if size < totalSize - pos then size else totalSize - pos;
        var chunk := Repeat(X, n);
        RepeatAdd(X, pos - start, n);
        assert (chunks + [chunk])[..|chunks|] == chunks;
        pos := pos + |chunk|;
        chunks := chunks + [chunk];
      }
    }
  }

  // ---------------------------------------------------------------------------------
  // The likes endpoint

  /** A page with nothing on it: what the endpoint answers once its script is used up. */
  const EmptyPage := LikesPage([], None)

  /**
    The remote likes endpoint (`get_likes` followed by the processing in
    `get_user_likes_medias`) as a script: the k-th request gets the k-th reply, a
    Failure standing for an exception; past the script the timeline is exhausted. Every
    request is logged with the user id, cursor and count it was made with.
  */
  class LikesEndpoint {
    const replies: seq<Result<LikesPage, string>>
    var requests: seq<(string, Option<string>, int)>

    constructor (replies: seq<Result<LikesPage, string>>)
      ensures this.replies == replies && requests == []
    {
      this.replies := replies;
      requests := [];
    }

    function Reply(k: nat): Result<LikesPage, string> {
      if k < |replies| then replies[k] else Success(EmptyPage)
    }

    method GetLikes(restId: string, cursor: Option<string>, count: int) returns (r: Result<LikesPage, string>)
      modifies this`requests
      ensures requests == old(requests) + [(restId, cursor, count)]
      ensures r == Reply(|old(requests)|)
    {
      r := Reply(|requests|);
      requests := requests + [(restId, cursor, count)];
    }
  }

  /** What `get_medias` makes of a reply: None for an exception, else the page's media. */
  function PageItems(r: Result<LikesPage, string>): Option<seq<MediaInfo>> {
    match r
    case Failure(_) => None
    case Success(page) => Some(LikesMedias(page.tweets))
  }

  /** `min(max(1, count), 2)`: the page size `get_medias` asks for. */
  function MediaCount(count: int): (r: int)
    ensures 1 <= r <= 2
    ensures 1 <= count <= 2 ==> r == count
  {
    if count < 1 then 1 else if count > 2 then 2 else count
  }

  // ---------------------------------------------------------------------------------
  // One download

  /** The HTTP response of a media URL as the download sees it. */
  datatype Response = Response(
    status: int, contentType: Option<string>, contentLength: Option<string>, body: Result<nat, string>)

  /**
    What lies outside the program: the HTTP GET of a URL (a Failure for a connection
    error), `mimetypes.guess_extension`, and which final paths `os.replace` refuses.
  */
  datatype World = World(
    get: string -> Result<Response, string>,
    guessExtension: string -> Option<string>,
    replaceFails: string -> bool)

  /** Why a download is skipped before anything is touched. */
  datatype SkipReason = TypeMismatch | AlreadyCached

  /**
    The step at which a download that got past the skips fails. `FinalName` is the
    `except` around naming the final file; `PlanNeverFailsAtFinalName` shows that no plan
    reaches it.
  */
  datatype Stage = NoUrl | Connection | HttpStatus | ContentLength | Transfer | FinalName | Rename

  /** How `download_media` ends for one media item. */
  datatype Outcome =
    | Skipped(reason: SkipReason)
    | NoTempName
    | Failed(temp: string, stage: Stage)
    | Saved(temp: string, final: string)

  /** The cache key of a Twitter media item. */
  function CacheKey(m: MediaInfo): string {
    "x-" + m.id
  }

  /** An optional extension inside an f-string: None renders as "None". */
  function OptText(e: Option<string>): string {
    match e
    case None => "None"
    case Some(s) => s
  }

  /** `raise_for_status()` raises for client (4xx) and server (5xx) errors. */
  predicate IsHttpError(status: int) {
    400 <= status < 600
  }

  /** `int(s)` succeeds. */
  predicate ParsesAsInt(s: string) {
    PyInt(s).Some?
  }

  /** The content type without its parameters: `headers.get("Content-Type", "").split(";")[0]`. */
  function ContentType(resp: Response): (r: string)
    ensures ';' !in r
  {
    Split(resp.contentType.GetOr(""), ';')[0]
  }

  /**
    The extension of the final file: the one guessed from the response's content type,
    else `media.extension()`; ".jpe" becomes ".jpg".
  */
  function FinalExtension(resp: Response, m: MediaInfo, guess: string -> Option<string>): (r: Result<Option<string>, string>)
    ensures r.Success? ==> r.value != Some(".jpe")
    ensures Truthy(guess(ContentType(resp))) && guess(ContentType(resp)) != Some(".jpe") ==>
      r == Success(guess(ContentType(resp)))
    ensures guess(ContentType(resp)) == Some(".jpe") ==> r == Success(Some(".jpg"))
  {
    var g := guess(ContentType(resp));
    var e := if Truthy(g) then Success(g) else Extension(m, guess);
    match e
    case Failure(err) => Failure(err)
    case Success(ext) => Success(if ext == Some(".jpe") then Some(".jpg") else ext)
  }

  function TempFileName(m: MediaInfo, ext: Option<string>): string {
    "x-likes-" + m.id + OptText(ext) + ".tmp"
  }

  function FinalFileName(m: MediaInfo, ext: Option<string>): string {
    "x-likes-" + m.id + OptText(ext)
  }

  /** The ladder of `download_media`: the kind filter, the cache check, then the attempt. */
  function Plan(s: Settings, w: World, keys: set<string>, m: MediaInfo): Outcome {
    if !AllowDownload(s, m) then Skipped(TypeMismatch)
    else if CacheKey(m) in keys then Skipped(AlreadyCached)
    else Attempt(s, w, m)
  }

  /**
    The temporary file `x-likes-<id><extension>.tmp` in the kind's directory; None when
    `media.extension()` raises.
  */
  function TempPath(s: Settings, w: World, m: MediaInfo): Option<string> {
    match Extension(m, w.guessExtension)
    case Failure(_) => None
    case Success(ext0) => Some(Paths.Join(StorageDir(s, m.kind), TempFileName(m, ext0)))
  }

  /** Naming the temporary file, then the request. */
  function Attempt(s: Settings, w: World, m: MediaInfo): Outcome {
    match TempPath(s, w, m)
    case None => NoTempName
    case Some(temp) => Fetch(w, m, StorageDir(s, m.kind), temp)
  }

  /** The GET of the media URL; a missing URL fails before any network traffic. */
  function Fetch(w: World, m: MediaInfo, dir: string, temp: string): (r: Outcome)
    ensures (r.Failed? || r.Saved?) && r.temp == temp
    ensures r.Failed? && r.stage == NoUrl <==> m.url.None?
  {
    if m.url.None? then Failed(temp, NoUrl)
    else
      match w.get(m.url.value)
      case Failure(_) => Failed(temp, Connection)
      case Success(resp) => Store(w, m, dir, temp, resp)
  }

  /** The status and length checks, the transfer into the temporary file, the final name, the rename. */
  function Store(w: World, m: MediaInfo, dir: string, temp: string, resp: Response): (r: Outcome)
    ensures (r.Failed? || r.Saved?) && r.temp == temp
    ensures r.Failed? ==> r.stage !in {NoUrl, Connection}
    ensures r.Saved? ==> !IsHttpError(resp.status) && resp.body.Success? && !w.replaceFails(r.final)
  {
    if IsHttpError(resp.status) then Failed(temp, HttpStatus)
    else if resp.contentLength.Some? && !ParsesAsInt(resp.contentLength.value) then Failed(temp, ContentLength)
    else if resp.body.Failure? then Failed(temp, Transfer)
    else
      match FinalExtension(resp, m, w.guessExtension)
      case Failure(_) => Failed(temp, FinalName)
      case Success(ext) =>
        var final := Paths.Join(dir, FinalFileName(m, ext));
        if w.replaceFails(final) then Failed(temp, Rename) else Saved(temp, final)
  }

  /** The final extension falls back to `media.extension()`, so it is found whenever that call succeeds. */
  lemma FinalExtensionFound(resp: Response, m: MediaInfo, guess: string -> Option<string>)
    requires Extension(m, guess).Success?
    ensures FinalExtension(resp, m, guess).Success?
  {
  }

  /**
    Naming the final file never fails: the temporary name already evaluated
    `media.extension()` successfully, and the final name only falls back to that call.
  */
  lemma PlanNeverFailsAtFinalName(s: Settings, w: World, keys: set<string>, m: MediaInfo)
    ensures !(Plan(s, w, keys, m).Failed? && Plan(s, w, keys, m).stage == FinalName)
  {
    if AllowDownload(s, m) && CacheKey(m) !in keys && TempPath(s, w, m).Some?
       && m.url.Some? && w.get(m.url.value).Success? {
      FinalExtensionFound(w.get(m.url.value).value, m, w.guessExtension);
    }
  }

  /** Whether the download got as far as the GET request. */
  predicate Fetched(o: Outcome) {
    o.Saved? || (o.Failed? && o.stage != NoUrl)
  }

  /**
    The files after a download: a leftover temporary file is removed before the request;
    a transfer that started leaves the temporary file behind unless it is renamed to the
    final name.
  */
  function FilesAfter(files: set<string>, o: Outcome): set<string> {
    match o
    case Skipped(_) => files
    case NoTempName => files
    case Failed(temp, stage) =>
      if stage in {Transfer, FinalName, Rename} then files + {temp} else files - {temp}
    case Saved(temp, final) => files - {temp} + {final}
  }

  /** Whether a leftover temporary file existed makes no difference to the files afterwards. */
  lemma FilesAfterLeftover(files: set<string>, o: Outcome)
    requires o.Failed? || o.Saved?
    ensures FilesAfter(files - {o.temp} + {o.temp}, o) == FilesAfter(files, o)
  {
  }

  /** A media item the settings exclude is skipped as a mismatch, whether or not it is cached. */
  lemma TypeFilterFirst(s: Settings, w: World, keys: set<string>, m: MediaInfo)
    requires !AllowDownload(s, m)
    ensures Plan(s, w, keys, m) == Skipped(TypeMismatch)
  {
  }

  /** A cached item is skipped before any request is made and before any file is touched. */
  lemma CachedIsSkipped(s: Settings, w: World, keys: set<string>, m: MediaInfo)
    requires AllowDownload(s, m) && CacheKey(m) in keys
    ensures Plan(s, w, keys, m) == Skipped(AlreadyCached)
    ensures !Fetched(Plan(s, w, keys, m))
    ensures forall files :: FilesAfter(files, Plan(s, w, keys, m)) == files
  {
  }

  /**
    A saved item passed the filter, was not cached, answered its GET without an HTTP
    error, and ends up in its kind's directory as `x-likes-<id><ext>` with ".jpe"
    normalised away.
  */
  lemma SavedShape(s: Settings, w: World, keys: set<string>, m: MediaInfo)
    requires Plan(s, w, keys, m).Saved?
    ensures m.kind == Image || m.kind == Video
    ensures CacheKey(m) !in keys
    ensures m.url.Some? && w.get(m.url.value).Success? && !IsHttpError(w.get(m.url.value).value.status)
    ensures exists ext: Option<string> ::
      (ext != Some(".jpe")
       && Plan(s, w, keys, m).final == Paths.Join(StorageDir(s, m.kind), "x-likes-" + m.id + OptText(ext)))
    ensures !w.replaceFails(Plan(s, w, keys, m).final)
  {
    var resp := w.get(m.url.value).value;
    var dir := StorageDir(s, m.kind);
    assert Plan(s, w, keys, m) == Store(w, m, dir, TempPath(s, w, m).value, resp);
    StoreFinal(w, m, dir, TempPath(s, w, m).value, resp);
    var ext := FinalExtension(resp, m, w.guessExtension).value;
    assert Plan(s, w, keys, m).final == Paths.Join(dir, "x-likes-" + m.id + OptText(ext));
  }

  /** Once an item is saved its key is cached, so downloading it again is a skip. */
  lemma SecondDownloadSkipped(s: Settings, w: World, keys: set<string>, m: MediaInfo)
    requires Plan(s, w, keys, m).Saved?
    ensures Plan(s, w, keys + {CacheKey(m)}, m) == Skipped(AlreadyCached)
  {
    SavedShape(s, w, keys, m);
  }

  /**
    A photo whose URL has a suffix and whose response has no recognised content type is
    saved under a name ending in "None": both extension sources come back empty-handed.
  */
  lemma NoneExtensionName(s: Settings, w: World, keys: set<string>, m: MediaInfo, resp: Response)
    requires Plan(s, w, keys, m).Saved?
    requires w.get(m.url.value) == Success(resp)
    requires !Truthy(w.guessExtension(ContentType(resp)))
    requires Extension(m, w.guessExtension) == Success(None)
    ensures Plan(s, w, keys, m).final == Paths.Join(StorageDir(s, m.kind), "x-likes-" + m.id + "None")
  {
    assert FinalExtension(resp, m, w.guessExtension) == Success(None);
    var temp := TempPath(s, w, m).value;
    var dir := StorageDir(s, m.kind);
    assert Plan(s, w, keys, m) == Store(w, m, dir, temp, resp);
    StoreFinal(w, m, dir, temp, resp);
    assert FinalFileName(m, None) == "x-likes-" + m.id + "None";
  }

  /** A stored response is renamed to `x-likes-<id><ext>` in the kind's directory, `ext` being the final extension. */
  lemma StoreFinal(w: World, m: MediaInfo, dir: string, temp: string, resp: Response)
    requires Store(w, m, dir, temp, resp).Saved?
    ensures FinalExtension(resp, m, w.guessExtension).Success?
    ensures Store(w, m, dir, temp, resp).final == Paths.Join(dir, FinalFileName(m, FinalExtension(resp, m, w.guessExtension).value))
  {
  }

  // ---------------------------------------------------------------------------------
  // The downloader

  class TwitterLikesMediaDownloader {
    const settings: Settings
    /** `user_info.rest_id`, known once `start()` has looked the user up. */
    const restId: string
    const world: World
    const api: LikesEndpoint
    const cache: Cache.CacheManager

    var cursor: Option<string>
    var failedList: seq<MediaInfo>
    var apiRequestCount: nat
    var imageCount: nat
    var videoCount: nat
    /** The paths that exist on disk. */
    var files: set<string>
    /** The URLs requested, in order. */
    var fetches: seq<string>
    /** Every item `download_media` was called with, and those it saved. */
    ghost var handled: seq<MediaInfo>
    ghost var saved: seq<MediaInfo>

    /**
      Every call to `download_media` ends in exactly one of: an image saved, a video
      saved, an entry in the failure list; and the key of every saved item is cached.
    */
    ghost predicate Valid()
      reads this, cache
    {
      && imageCount + videoCount + |failedList| == |handled|
      && imageCount + videoCount == |saved|
      && forall m :: m in saved ==> CacheKey(m) in cache.keys
    }

    constructor (settings: Settings, restId: string, world: World, api: LikesEndpoint,
                 cache: Cache.CacheManager, files: set<string>)
      ensures this.settings == settings && this.restId == restId && this.world == world
      ensures this.api == api && this.cache == cache && this.files == files
      ensures cursor.None? && failedList == [] && apiRequestCount == 0
      ensures imageCount == 0 && videoCount == 0 && fetches == []
      ensures Valid()
    {
      this.settings := settings;
      this.restId := restId;
      this.world := world;
      this.api := api;
      this.cache := cache;
      this.files := files;
      cursor := None;
      failedList := [];
      apiRequestCount := 0;
      imageCount := 0;
      videoCount := 0;
      fetches := [];
      handled := [];
      saved := [];
    }

    /**
      `get_medias(count)`: one request for at most two items from the current cursor.
      On success the cursor moves to the reply's bottom cursor and the request count goes
      up by one; on an exception nothing changes and the answer is None.
    */
    method GetMedias(count: int) returns (items: Option<seq<MediaInfo>>)
      modifies this`cursor, this`apiRequestCount, api`requests
      ensures api.requests == old(api.requests) + [(restId, old(cursor), MediaCount(count))]
      ensures items == PageItems(api.Reply(|old(api.requests)|))
      ensures items.Some? ==>
        (cursor == api.Reply(|old(api.requests)|).value.bottom && apiRequestCount == old(apiRequestCount) + 1)
      ensures items.None? ==> cursor == old(cursor) && apiRequestCount == old(apiRequestCount)
    {
      var c := cursor;
      var n := MediaCount(count);
      var reply := api.GetLikes(restId, c, n);
      if reply.Failure? {
        return None;
      }
      var result, nextCursor := GetUserLikesMedias(reply.value);
      cursor := nextCursor;
      apiRequestCount := apiRequestCount + 1;
      return Some(result);
    }

    /** The `except` branch: the item joins the failure list. */
    method Fail(media: MediaInfo)
      modifies this`failedList, this`handled
      ensures failedList == old(failedList) + [media] && handled == old(handled) + [media]
    {
      failedList := failedList + [media];
      handled := handled + [media];
    }

    /**
      `download_media(media)`: never raises. The new state is the one `Plan` describes:
      a failure or skip appends the item to the failure list and leaves the cache and the
      counters alone; a success renames the temporary file, commits the key to the cache
      and counts one image or one video.
    */
    method DownloadMedia(media: MediaInfo)
      requires Valid()
      modifies this`failedList, this`imageCount, this`videoCount, this`files, this`fetches
      modifies this`handled, this`saved, cache
      ensures Valid()
      ensures var o := Plan(settings, world, old(cache.keys), media);
        && failedList == old(failedList) + (if o.Saved? then [] else [media])
        && (o.Saved? ==> cache.keys == old(cache.keys) + {CacheKey(media)} && o.final in files)
        && (!o.Saved? ==> cache.keys == old(cache.keys) && cache.log == old(cache.log))
        && imageCount == old(imageCount) + (if o.Saved? && media.kind == Image then 1 else 0)
        && videoCount == old(videoCount) + (if o.Saved? && media.kind == Video then 1 else 0)
        && files == FilesAfter(old(files), o)
        && fetches == old(fetches) + (if Fetched(o) then [media.url.value] else [])
      ensures handled == old(handled) + [media]
    {
      var o: Outcome;
      var key := CacheKey(media);
      if !AllowDownload(settings, media) {
        o := Skipped(TypeMismatch);
      } else {
        var cached := cache.Contains(key);
        if cached {
          o := Skipped(AlreadyCached);
        } else {
          o := TryDownload(media);
        }
      }
      assert o == Plan(settings, world, old(cache.keys), media);
      if o.Saved? {
        Commit(media, key);
      } else {
        Fail(media);
      }
    }

    /**
      The part of the `try` block after the checks: name the temporary file after the
      extension the descriptor suggests, clear a leftover one, then fetch and store.
    */
    method TryDownload(media: MediaInfo) returns (o: Outcome)
      modifies this`files, this`fetches
      ensures o == Attempt(settings, world, media)
      ensures files == FilesAfter(old(files), o)
      ensures fetches == old(fetches) + (if Fetched(o) then [media.url.value] else [])
    {
      var saveDir := StorageDir(settings, media.kind);
      var tempPath := TempPath(settings, world, media);
      if tempPath.None? {
        return NoTempName;
      }
      o := FetchInto(media, saveDir, tempPath.value);
    }

    /** Clear a leftover temporary file, then the GET of the media URL and storing the response. */
    method FetchInto(media: MediaInfo, saveDir: string, temp: string) returns (o: Outcome)
      modifies this`files, this`fetches
      ensures o == Fetch(world, media, saveDir, temp)
      ensures files == FilesAfter(old(files), o)
      ensures fetches == old(fetches) + (if Fetched(o) then [media.url.value] else [])
    {
      files := files - {temp};
      o := Request(media, saveDir, temp);
      FilesAfterLeftover(old(files), o);
    }

    /** The GET of the media URL, then storing the response. */
    method Request(media: MediaInfo, saveDir: string, temp: string) returns (o: Outcome)
      requires temp !in files
      modifies this`files, this`fetches
      ensures o == Fetch(world, media, saveDir, temp)
      ensures files == FilesAfter(old(files) + {temp}, o)
      ensures fetches == old(fetches) + (if Fetched(o) then [media.url.value] else [])
    {
      if media.url.None? {
        return Failed(temp, NoUrl);
      }
      fetches := fetches + [media.url.value];
      var res := world.get(media.url.value);
      if res.Failure? {
        return Failed(temp, Connection);
      }
      o := StoreResponse(media, saveDir, temp, res.value);
    }

    /** Check the response, write the temporary file, pick the final name and rename. */
    method StoreResponse(media: MediaInfo, saveDir: string, temp: string, resp: Response) returns (o: Outcome)
      requires temp !in files
      modifies this`files
      ensures o == Store(world, media, saveDir, temp, resp)
      ensures files == FilesAfter(old(files) + {temp}, o)
    {
      if IsHttpError(resp.status) {
        return Failed(temp, HttpStatus);
      }
      if resp.contentLength.Some? && !ParsesAsInt(resp.contentLength.value) {
        return Failed(temp, ContentLength);
      }
      files := files + {temp};
      if resp.body.Failure? {
        return Failed(temp, Transfer);
      }
      var ext := FinalExtension(resp, media, world.guessExtension);
      if ext.Failure? {
        return Failed(temp, FinalName);
      }
      var final := Paths.Join(saveDir, FinalFileName(media, ext.value));
      if world.replaceFails(final) {
        return Failed(temp, Rename);
      }
      files := files - {temp} + {final};
      o := Saved(temp, final);
    }

    /** After the rename: the key goes into the cache and the kind's counter goes up. */
    method Commit(media: MediaInfo, key: string)
      requires Valid() && key == CacheKey(media) && key !in cache.keys
      requires media.kind == Image || media.kind == Video
      modifies this`imageCount, this`videoCount, this`handled, this`saved, cache
      ensures Valid()
      ensures cache.keys == old(cache.keys) + {key}
      ensures imageCount == old(imageCount) + (if media.kind == Image then 1 else 0)
      ensures videoCount == old(videoCount) + (if media.kind == Video then 1 else 0)
      ensures handled == old(handled) + [media]
    {
      cache.Set(key);
      if media.kind == Image {
        imageCount := imageCount + 1;
      } else {
        videoCount := videoCount + 1;
      }
      handled := handled + [media];
      saved := saved + [media];
    }
  }
}
