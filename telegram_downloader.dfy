/**
  The Telegram download service: a registry of tasks keyed by id, a FIFO of ids that
  workers take one at a time, lifetime success and failure counters, and the ladder of
  checks a single download passes before the file is fetched, moved into place and its
  key committed to the dedup cache.
*/
module TelegramDownloader {
  import opened Wrappers
  import opened Text
  import Paths
  import Cache
  import IdGen
  import MT = TelegramMediaTypes
  import LP = TelegramLinkParser

  // ---------------------------------------------------------------------------------
  // Statuses, error codes and the error classifier

  /** `TaskStatus`: pending, running, success, failure. */
  datatype TaskStatus = Pending | Running | Succeeded | Failed

  /** `is_completion`: a task is complete once it has succeeded or failed. */
  function IsCompletion(s: TaskStatus): (r: bool)
    ensures r <==> s != Pending && s != Running
  {
    s == Failed || s == Succeeded
  }

  datatype ErrorCode =
    | ExistInCache | Unsupported | Unknown | NotExistMedia
    | NetworkError | AuthError | FileSystemError | RateLimitError

  /** The member name of each code, as Python 3.11 formats the enum in `str(e)`. */
  function CodeName(c: ErrorCode): string {
    match c
    case ExistInCache => "ExistInCache"
    case Unsupported => "Unsupported"
    case Unknown => "Unknown"
    case NotExistMedia => "NotExistMedia"
    case NetworkError => "NetworkError"
    case AuthError => "AuthError"
    case FileSystemError => "FileSystemError"
    case RateLimitError => "RateLimitError"
  }

  datatype DownloadException = DownloadException(code: ErrorCode, message: string)

  /** `str(e)` of a `DownloadException`. */
  function ExceptionText(e: DownloadException): string {
    "DownloadErrorCode." + CodeName(e.code) + ": " + e.message
  }

  /** An exception raised below a task, by the kinds `from_error` tells apart. */
  datatype Raised =
    | Download(ex: DownloadException)
    | ConnectionFailure(text: string)  // `ConnectionError` and its subclasses
    | PermissionFailure(text: string)  // `PermissionError`
    | OtherFailure(text: string)

  /** `str(e)`. */
  function RaisedText(e: Raised): string {
    match e
    case Download(x) => ExceptionText(x)
    case ConnectionFailure(t) => t
    case PermissionFailure(t) => t
    case OtherFailure(t) => t
  }

  /** The word test `from_error` applies to the lower-cased message. */
  predicate Mentions(e: Raised, word: string) {
    Contains(Lower(RaisedText(e)), word)
  }

  /** The prefix `from_error` puts before the original message, by code. */
  function ClassPrefix(c: ErrorCode): string {
    match c
    case NetworkError => "网络连接错误: "
    case FileSystemError => "文件系统权限错误: "
    case AuthError => "认证错误: "
    case RateLimitError => "速率限制错误: "
    case _ => "未知错误: "
  }

  /**
    `from_error`: a `DownloadException` passes through unchanged; anything else is
    classified by the first matching rule (connection, permission, auth, limit) and keeps
    its message behind the prefix of its class.
  */
  function FromError(e: Raised): (r: DownloadException)
    ensures e.Download? ==> r == e.ex
    ensures !e.Download? ==> r.message == ClassPrefix(r.code) + RaisedText(e)
    ensures !e.Download? ==> r.code in {NetworkError, FileSystemError, AuthError, RateLimitError, Unknown}
    ensures !e.Download? ==>
      (r.code == NetworkError <==> e.ConnectionFailure? || Mentions(e, "connection"))
    ensures !e.Download? && r.code != NetworkError ==>
      (r.code == FileSystemError <==> e.PermissionFailure? || Mentions(e, "permission"))
    ensures !e.Download? && r.code != NetworkError && r.code != FileSystemError ==>
      (r.code == AuthError <==> Mentions(e, "auth") || Mentions(e, "unauthorized"))
    ensures !e.Download? && r.code !in {NetworkError, FileSystemError, AuthError} ==>
      (r.code == RateLimitError <==> Mentions(e, "limit") || Mentions(e, "flood"))
  {
    if e.Download? then e.ex
    else
      var text := RaisedText(e);
      if e.ConnectionFailure? || Mentions(e, "connection") then DownloadException(NetworkError, ClassPrefix(NetworkError) + text)
      else if e.PermissionFailure? || Mentions(e, "permission") then DownloadException(FileSystemError, ClassPrefix(FileSystemError) + text)
      else if Mentions(e, "auth") || Mentions(e, "unauthorized") then DownloadException(AuthError, ClassPrefix(AuthError) + text)
      else if Mentions(e, "limit") || Mentions(e, "flood") then DownloadException(RateLimitError, ClassPrefix(RateLimitError) + text)
      else DownloadException(Unknown, ClassPrefix(Unknown) + text)
  }

  /** Classifying an already classified error changes nothing. */
  lemma FromErrorIdempotent(e: Raised)
    ensures FromError(Download(FromError(e))) == FromError(e)
  {
  }

  /**
    Every message mentioning "unauthorized" also mentions "auth", so the second test of
    the auth rule never decides anything.
  */
  lemma UnauthorizedMentionsAuth(s: string)
    requires Contains(s, "unauthorized")
    ensures Contains(s, "auth")
  {
    var i :| 0 <= i <= |s| - 12 && "unauthorized" <= s[i..];
    assert s[i + 2..][..4] == s[i..][2..6];
    assert "auth" <= s[i + 2..];
  }

  // ---------------------------------------------------------------------------------
  // Task ids, task records and the service status

  type TaskId = string

  /** `_is_task_id`. */
  predicate IsTaskId(id: TaskId) {
    StartsWith(id, "_t")
  }

  /** `_next_task_id`, given the counter value the shared generator handed out. */
  function TaskIdOf(n: nat): (id: TaskId)
    ensures IsTaskId(id)
    ensures id[2..] == NatToString(n)
  {
    "_t" + NatToString(n)
  }

  /** Different counter values give different task ids. */
  lemma TaskIdInjective(a: nat, b: nat)
    requires TaskIdOf(a) == TaskIdOf(b)
    ensures a == b
  {
    assert TaskIdOf(a)[2..] == TaskIdOf(b)[2..];
    NatToStringInjective(a, b);
  }

  /** What a task downloads: a link (resolved through the user client) or a message. */
  datatype Source = LinkSource(link: string) | MessageSource(message: MT.Message)

  /** `{source}` in a message: the link itself, or `str(message)`. */
  function SourceText(s: Source): string {
    match s
    case LinkSource(l) => l
    case MessageSource(m) => m.printed
  }

  /** How a task ended: the saved file path, or the error. */
  datatype Outcome = Completed(path: string) | Errored(error: DownloadException)

  /** `TaskDefinition` (the waiter lives in the service's `waiters` map, by task id). */
  datatype TaskDef = TaskDef(
    id: TaskId, source: Source, status: TaskStatus, result: Option<string>,
    exception: Option<DownloadException>, hasCallback: bool)

  /** The future a caller awaits: not yet resolved, resolved once, or cancelled by its awaiter. */
  datatype Waiter = Waiting | Resolved(outcome: Outcome) | Cancelled

  /**
    `str(InvalidStateError)` raised when resolving a future that is no longer waiting:
    CPython's C future says "invalid state" whether it was cancelled or finished.
  */
  function InvalidStateText(w: Waiter): string {
    "invalid state"
  }

  /**
    A message without capitals that lacks one letter of every word `from_error` looks for
    (c, p, u, m and f) is classified as an unknown error.
  */
  lemma NoKeywordIsUnknown(t: string)
    requires forall i :: 0 <= i < |t| ==> !('A' <= t[i] <= 'Z')
    requires 'c' !in t && 'p' !in t && 'u' !in t && 'm' !in t && 'f' !in t
    ensures FromError(OtherFailure(t)) == DownloadException(Unknown, ClassPrefix(Unknown) + t)
  {
    var e := OtherFailure(t);
    LowerNoCapitals(t);
    LacksLetter(e, "connection", 0);
    LacksLetter(e, "permission", 0);
    LacksLetter(e, "auth", 1);
    LacksLetter(e, "unauthorized", 0);
    LacksLetter(e, "limit", 2);
    LacksLetter(e, "flood", 0);
  }

  /** A message lacking one letter of a word does not mention that word. */
  lemma LacksLetter(e: Raised, word: string, j: int)
    requires 0 <= j < |word| && word[j] !in Lower(RaisedText(e))
    ensures !Mentions(e, word)
  {
    if Mentions(e, word) {
      ContainsChars(Lower(RaisedText(e)), word, j);
    }
  }

  /** The text of an invalid-state error is classified as an unknown error. */
  lemma InvalidStateIsUnknown(w: Waiter)
    ensures FromError(OtherFailure(InvalidStateText(w)))
      == DownloadException(Unknown, ClassPrefix(Unknown) + InvalidStateText(w))
  {
    NoKeywordIsUnknown(InvalidStateText(w));
  }

  /** The fields `_handle_task_completion` writes on the task record. */
  function Finish(task: TaskDef, outcome: Outcome): (r: TaskDef)
    ensures IsCompletion(r.status)
    ensures r.status == Failed <==> outcome.Errored?
    ensures outcome.Errored? ==> r.exception == Some(outcome.error) && r.result == task.result
    ensures outcome.Completed? ==> r.result == Some(outcome.path) && r.exception == task.exception
    ensures r.id == task.id && r.source == task.source && r.hasCallback == task.hasCallback
  {
    match outcome
    case Errored(e) => task.(exception := Some(e), status := Failed)
    case Completed(p) => task.(result := Some(p), status := Succeeded)
  }

  datatype ServiceStatus = ServiceStatus(
    runningCount: nat, pendingCount: nat, failedCount: nat, completedCount: nat)

  /** The number of tasks in the map with the given status. */
  function Count(tasks: map<TaskId, TaskDef>, s: TaskStatus): nat {
    |set id | id in tasks && tasks[id].status == s|
  }

  /**
    Completed tasks leave the map, so while every entry is pending or running the pending
    and running counts of `status` together count every task in the map.
  */
  lemma CountsCoverTasks(tasks: map<TaskId, TaskDef>)
    requires forall id :: id in tasks ==> !IsCompletion(tasks[id].status)
    ensures Count(tasks, Pending) + Count(tasks, Running) == |tasks|
  {
    var p := set id | id in tasks && tasks[id].status == Pending;
    var q := set id | id in tasks && tasks[id].status == Running;
    assert p * q == {};
    assert p + q == tasks.Keys;
    assert |p + q| == |p| + |q|;
  }

  /** A map holding one task counts it under its own status only. */
  lemma CountSingle(id: TaskId, t: TaskDef, s: TaskStatus)
    ensures Count(map[id := t], s) == if t.status == s then 1 else 0
  {
    var m := map[id := t];
    var q := set x | x in m && m[x].status == s;
    if t.status == s {
      assert q == {id};
    } else {
      assert q == {};
    }
  }

  /**
    Marking a pending task running moves it from the pending count to the running count
    and leaves every other status's count alone.
  */
  lemma StartMovesCounts(tasks: map<TaskId, TaskDef>, id: TaskId)
    requires id in tasks && tasks[id].status == Pending
    ensures var after := tasks[id := tasks[id].(status := Running)];
      && Count(after, Running) == Count(tasks, Running) + 1
      && Count(after, Pending) == Count(tasks, Pending) - 1
      && forall s :: s != Pending && s != Running ==> Count(after, s) == Count(tasks, s)
  {
    var after := tasks[id := tasks[id].(status := Running)];
    var p := set x | x in tasks && tasks[x].status == Pending;
    var q := set x | x in tasks && tasks[x].status == Running;
    var p' := set x | x in after && after[x].status == Pending;
    var q' := set x | x in after && after[x].status == Running;
    assert p' == p - {id};
    assert q' == q + {id};
    forall s | s != Pending && s != Running
      ensures Count(after, s) == Count(tasks, s)
    {
      var r := set x | x in tasks && tasks[x].status == s;
      var r' := set x | x in after && after[x].status == s;
      assert r' == r;
    }
  }

  // ---------------------------------------------------------------------------------
  // The download ladder

  /** `downloaded_path` and what the filesystem says about it afterwards. */
  datatype Saved = Saved(path: Option<string>, present: bool, size: int)

  /**
    What the service cannot see into, as functions: the client fetch that follows the id
    arithmetic of `resolve_message` (every error there is answered with None), the
    `download_media` call of the user client (`true`) or the bot (`false`), `shutil.move`
    (None when it succeeds), whether a bot client was given, the Twitter storage root and
    `use_cache`.
  */
  datatype TelegramEnv = TelegramEnv(
    fetch: LP.Plan -> Option<MT.Message>,
    download: (MT.Message, bool) -> Result<Saved, Raised>,
    move: (string, string) -> Option<Raised>,
    hasBot: bool,
    storageDirectory: string,
    useCache: bool)

  /**
    `fetch_message_by_link`: parse the link, work out the peer and ids, fetch. A link that
    does not parse, a private peer that is not an integer and a fetch that finds nothing
    all raise a `ValueError`.
  */
  function FetchByLink(link: string, env: TelegramEnv): (r: Result<MT.Message, Raised>)
    ensures LP.ParseTelegramLink(link).Failure? ==> r == Failure(OtherFailure(LP.ParseTelegramLink(link).error))
    ensures r.Failure? ==> r.error.OtherFailure?
  {
    match LP.ParseTelegramLink(link)
    case Failure(msg) => Failure(OtherFailure(msg))
    case Success(info) =>
      match LP.ResolvePlan(info)
      case Failure(msg) => Failure(OtherFailure(msg))
      case Success(plan) =>
        var found := if plan.NoTarget? then None else env.fetch(plan);
        if found.None? then Failure(OtherFailure("Could not resolve message for link: " + link))
        else Success(found.value)
  }

  /** The cache key of a media id. */
  function CacheKey(mediaId: int): (key: string)
    ensures StartsWith(key, "t-")
  {
    "t-" + IntToString(mediaId)
  }

  /** `get_media_if(message) or message.id`; reading an id the media does not have raises. */
  function MediaIdOf(m: MT.Message): (r: Result<int, Raised>)
    ensures MT.GetMediaIf(m.media).Failure? <==> r.Failure?
    ensures r.Success? && MT.GetMediaIf(m.media).value.Some? && MT.GetMediaIf(m.media).value.value != 0
      ==> r.value == MT.GetMediaIf(m.media).value.value
  {
    match MT.GetMediaIf(m.media)
    case Failure(e) => Failure(OtherFailure(e))
    case Success(found) => Success(if found.Some? && found.value != 0 then found.value else m.id)
  }

  /** View-once media: a truthy `ttl_seconds`. */
  predicate ViewOnce(m: MT.Message) {
    m.ttlSeconds.Some? && m.ttlSeconds.value != 0
  }

  /** Where the ladder ends: an error, or the go-ahead with the media type and cache key. */
  datatype Checked = Stop(error: Raised) | Proceed(mediaType: MT.MediaType, key: string)

  function NoMediaError(sourceText: string): Raised {
    Download(DownloadException(NotExistMedia, "消息不包含媒体或链接无效: " + sourceText))
  }

  /**
    The checks `_download_media` makes before any transfer, in order: no media, the media
    id, an unsupported type, view-once media, and only then the cache.
  */
  function CheckLadder(m: MT.Message, sourceText: string, useCache: bool, cached: set<string>): (r: Checked)
    ensures m.media.None? ==> r == Stop(NoMediaError(sourceText))
    ensures r.Proceed? ==>
      && m.media.Some? && MediaIdOf(m).Success?
      && r.mediaType == MT.FromMessage(m.flags) && MT.IsSupported(r.mediaType) && !ViewOnce(m)
      && r.key == CacheKey(MediaIdOf(m).value) && !(useCache && r.key in cached)
    ensures r.Stop? && r.error.Download? && r.error.ex.code == ExistInCache ==>
      useCache && m.media.Some? && MT.IsSupported(MT.FromMessage(m.flags)) && !ViewOnce(m)
  {
    if m.media.None? then Stop(NoMediaError(sourceText))
    else
      var mediaType := MT.FromMessage(m.flags);
      match MediaIdOf(m)
      case Failure(e) => Stop(e)
      case Success(mediaId) =>
        var key := CacheKey(mediaId);
        if !MT.IsSupported(mediaType) then
          Stop(Download(DownloadException(Unsupported,
            "不支持的媒体类型: ID=" + IntToString(mediaId) + ", 类型=MediaTypes.UNKNOWN")))
        else if ViewOnce(m) then
          Stop(Download(DownloadException(Unsupported, "这是阅后即焚媒体，不能下载")))
        else if useCache && key in cached then
          Stop(Download(DownloadException(ExistInCache, "媒体已存在于缓存中: " + key)))
        else Proceed(mediaType, key)
  }

  /**
    An unsupported type or view-once media stops the ladder before the cache is looked
    at, and with the cache switched off its contents never matter.
  */
  lemma LadderBeforeCache(m: MT.Message, sourceText: string, useCache: bool, c1: set<string>, c2: set<string>)
    requires !MT.IsSupported(MT.FromMessage(m.flags)) || ViewOnce(m) || !useCache
    ensures CheckLadder(m, sourceText, useCache, c1) == CheckLadder(m, sourceText, useCache, c2)
    ensures !useCache ==> (var r := CheckLadder(m, sourceText, useCache, c1);
      !(r.Stop? && r.error.Download? && r.error.ex.code == ExistInCache))
    ensures (!MT.IsSupported(MT.FromMessage(m.flags)) || ViewOnce(m)) ==> CheckLadder(m, sourceText, useCache, c1).Stop?
  {
  }

  /** A supported, ordinary media whose key is cached is skipped with ExistInCache. */
  lemma CachedMediaSkipped(m: MT.Message, sourceText: string, cached: set<string>)
    requires m.media.Some? && MediaIdOf(m).Success?
    requires MT.IsSupported(MT.FromMessage(m.flags)) && !ViewOnce(m)
    requires CacheKey(MediaIdOf(m).value) in cached
    ensures CheckLadder(m, sourceText, true, cached)
      == Stop(Download(DownloadException(ExistInCache, "媒体已存在于缓存中: " + CacheKey(MediaIdOf(m).value))))
  {
  }

  /** The empty-download error the transfer raises itself. */
  const EmptyDownload: DownloadException := DownloadException(Unknown, "Download failed or created empty file")

  /**
    The `try` block of `_download_media` up to the move: download through the client (or
    the bot, for a message), reject a missing or empty file, and move it to
    `<storage dir>/<key><ext>`, where the extension is that of the downloaded file.
  */
  function Transfer(m: MT.Message, viaClient: bool, env: TelegramEnv, t: MT.MediaType, key: string): (r: Result<string, Raised>)
    requires StartsWith(key, "t-")
    ensures r.Success? ==>
      var prefix := MT.StorageDir(t, env.storageDirectory) + "/" + key;
      && |r.value| >= |prefix| && r.value[..|prefix|] == prefix
      && forall j :: |prefix| <= j < |r.value| ==> r.value[j] != '/'
    ensures r.Success? ==> env.download(m, viaClient).Success?
  {
    if !viaClient && !env.hasBot then Failure(OtherFailure("'NoneType' object has no attribute 'download_media'"))
    else match env.download(m, viaClient)
      case Failure(e) => Failure(e)
      case Success(saved) =>
        if saved.path.None? || saved.path.value == "" || !saved.present || saved.size == 0 then
          Failure(Download(EmptyDownload))
        else
          var ext := Paths.SplitExt(saved.path.value).1;
          var dir := MT.StorageDir(t, env.storageDirectory);
          var target := Paths.Join(dir, key + ext);
          TargetName(dir, key, ext);
          match env.move(saved.path.value, target)
          case Some(e) => Failure(e)
          case None => Success(target)
  }

  /** The move target `<dir>/<key><ext>` begins with `<dir>/<key>`, and no '/' follows. */
  lemma TargetName(dir: string, key: string, ext: string)
    requires dir != [] && dir[|dir| - 1] != '/' && StartsWith(key, "t-")
    requires forall j :: 0 <= j < |ext| ==> ext[j] != '/'
    ensures var prefix := dir + "/" + key; var target := Paths.Join(dir, key + ext);
      && |target| >= |prefix| && target[..|prefix|] == prefix
      && forall j :: |prefix| <= j < |target| ==> target[j] != '/'
  {
    var target := Paths.Join(dir, key + ext);
    assert target == (dir + "/" + key) + ext;
    assert forall j :: |dir| + 1 + |key| <= j < |target| ==> target[j] == ext[j - |dir| - 1 - |key|];
  }

  /**
    `_download_media` without its cache write: the saved path and the cache key, or the
    error it raises. Errors of the ladder and of the link lookup are raised as they are;
    errors of the transfer are classified by `from_error` first.
  */
  function Attempt(source: Source, env: TelegramEnv, cached: set<string>): (r: Result<(string, string), Raised>)
    ensures r.Success? ==> StartsWith(r.value.1, "t-") && !(env.useCache && r.value.1 in cached)
    ensures source.MessageSource? && source.message.media.None? ==> r == Failure(NoMediaError(source.message.printed))
  {
    var fetched := match source
      case LinkSource(l) => FetchByLink(l, env)
      case MessageSource(m) => Success(m);
    match fetched
    case Failure(e) => Failure(e)
    case Success(m) =>
      match CheckLadder(m, SourceText(source), env.useCache, cached)
      case Stop(e) => Failure(e)
      case Proceed(t, key) =>
        match Transfer(m, source.LinkSource?, env, t, key)
        case Failure(e) => Failure(Download(FromError(e)))
        case Success(path) => Success((path, key))
  }

  /** The same download attempted twice with the key now cached is skipped. */
  lemma SecondAttemptSkipped(source: Source, env: TelegramEnv, cached: set<string>)
    requires env.useCache && Attempt(source, env, cached).Success?
    ensures var key := Attempt(source, env, cached).value.1;
      Attempt(source, env, cached + {key}).Failure?
  {
    var key := Attempt(source, env, cached).value.1;
    var m := match source
      case LinkSource(l) => FetchByLink(l, env).value
      case MessageSource(m) => m;
    assert CheckLadder(m, SourceText(source), true, cached).Proceed?;
    assert CheckLadder(m, SourceText(source), true, cached + {key}).Stop?;
  }

  /** `_run_task`'s outcome for a source: the in-flight check, then the download. */
  function TaskOutcome(source: Source, inFlight: set<string>, env: TelegramEnv, cached: set<string>): Outcome {
    if source.LinkSource? && source.link in inFlight then
      Errored(DownloadException(ExistInCache, "同样的任务正在下载或曾经下载过: " + source.link))
    else match Attempt(source, env, cached)
      case Success((path, _)) => Completed(path)
      case Failure(e) => Errored(FromError(e))
  }

  /** The cache key a run commits: the key of a download that went through, else none. */
  function Committed(source: Source, inFlight: set<string>, env: TelegramEnv, cached: set<string>): set<string> {
    if source.LinkSource? && source.link in inFlight then {}
    else match Attempt(source, env, cached)
      case Success((_, key)) => {key}
      case Failure(_) => {}
  }

  /**
    Whether `_run_task` handles the completion inside its `try`: after the in-flight check
    and after a download that returned. A download that raised is handled in the
    `except`, and a raise of that handling escapes to the worker.
  */
  predicate HandledInTry(source: Source, inFlight: set<string>, env: TelegramEnv, cached: set<string>) {
    (source.LinkSource? && source.link in inFlight) || Attempt(source, env, cached).Success?
  }

  /**
    Only a failed run is handled in the `except`: a completed run was handled in the
    `try`, and a run handled in the `except` commits no key.
  */
  lemma ExceptOnlyForFailures(source: Source, inFlight: set<string>, env: TelegramEnv, cached: set<string>)
    ensures TaskOutcome(source, inFlight, env, cached).Completed? ==> HandledInTry(source, inFlight, env, cached)
    ensures !HandledInTry(source, inFlight, env, cached) ==>
      TaskOutcome(source, inFlight, env, cached).Errored? && Committed(source, inFlight, env, cached) == {}
  {
  }

  /** A key is committed exactly when the run completes, so a failed run leaves the cache alone. */
  lemma CommitOnlyOnSuccess(source: Source, inFlight: set<string>, env: TelegramEnv, cached: set<string>)
    ensures Committed(source, inFlight, env, cached) != {} <==> TaskOutcome(source, inFlight, env, cached).Completed?
    ensures |Committed(source, inFlight, env, cached)| <= 1
  {
  }

  // ---------------------------------------------------------------------------------
  // The service

  class DownloadService {
    /** `_tasks`: the tasks not yet completed. */
    var tasks: map<TaskId, TaskDef>
    /** `_task_queue`: ids waiting for a worker, oldest first. */
    var queue: seq<TaskId>
    /** The `_shutdown` event. */
    var shutdown: bool
    var failedCount: nat
    var completedCount: nat
    /** `_cache`: meant to hold links being downloaded; nothing ever adds to it. */
    var inFlight: set<string>
    /** The future each submitted task's caller awaits, by task id. */
    var waiters: map<TaskId, Waiter>
    /** Every callback invocation, in order, with the task and what it was given. */
    var callbacks: seq<(TaskId, Outcome)>
    const cache: Cache.CacheManager
    const env: TelegramEnv

    /** Every task in the map is keyed by its own id, is not complete and has a waiter. */
    ghost predicate Valid()
      reads this
    {
      forall id :: id in tasks ==> tasks[id].id == id && !IsCompletion(tasks[id].status) && id in waiters
    }

    constructor (cache: Cache.CacheManager, env: TelegramEnv)
      ensures Valid()
      ensures tasks == map[] && queue == [] && !shutdown && failedCount == 0 && completedCount == 0
      ensures inFlight == {} && waiters == map[] && callbacks == []
      ensures this.cache == cache && this.env == env
    {
      tasks := map[];
      queue := [];
      shutdown := false;
      failedCount := 0;
      completedCount := 0;
      inFlight := {};
      waiters := map[];
      callbacks := [];
      this.cache := cache;
      this.env := env;
    }

    /** `status`: the pending and running tasks in the map and the lifetime counters. */
    method Status() returns (s: ServiceStatus)
      requires Valid()
      ensures s.pendingCount == Count(tasks, Pending) && s.runningCount == Count(tasks, Running)
      ensures s.pendingCount + s.runningCount == |tasks|
      ensures s.failedCount == failedCount && s.completedCount == completedCount
    {
      CountsCoverTasks(tasks);
      s := ServiceStatus(Count(tasks, Running), Count(tasks, Pending), failedCount, completedCount);
    }

    /**
      `_submit` up to awaiting the waiter: refused after shutdown; otherwise a pending task
      and its waiter are registered and the id joins the back of the queue.
    */
    method Register(taskId: TaskId, source: Source, hasCallback: bool) returns (r: Result<(), string>)
      requires Valid()
      modifies this
      ensures Valid()
      ensures shutdown == old(shutdown) && failedCount == old(failedCount) && completedCount == old(completedCount)
      ensures inFlight == old(inFlight) && callbacks == old(callbacks)
      ensures old(shutdown) ==> (r == Failure("DownloadService is shutdown")
        && tasks == old(tasks) && queue == old(queue) && waiters == old(waiters))
      ensures !old(shutdown) ==> (r.Success?
        && tasks == old(tasks)[taskId := TaskDef(taskId, source, Pending, None, None, hasCallback)]
        && waiters == old(waiters)[taskId := Waiting]
        && queue == old(queue) + [taskId])
    {
      if shutdown {
        return Failure("DownloadService is shutdown");
      }
      waiters := waiters[taskId := Waiting];
      tasks := tasks[taskId := TaskDef(taskId, source, Pending, None, None, hasCallback)];
      queue := queue + [taskId];
      r := Success(());
    }

    /**
      `submit`: draw a fresh id and register the task in the background; a refusal after
      shutdown is lost with the background task, and the id is returned either way.
    */
    method Submit(ids: IdGen.TaskIdGenerator, source: Source, hasCallback: bool) returns (taskId: TaskId)
      requires Valid() && ids.Valid()
      modifies this, ids
      ensures Valid() && ids.Valid()
      ensures taskId == TaskIdOf(ids.counter) && ids.counter == old(ids.counter) + 1
      ensures !old(shutdown) ==> taskId in tasks && tasks[taskId].status == Pending && queue == old(queue) + [taskId]
      ensures old(shutdown) ==> tasks == old(tasks) && queue == old(queue)
    {
      var n := ids.GetNextId();
      taskId := TaskIdOf(n);
      var _ := Register(taskId, source, hasCallback);
    }

    /** `submit_async`: the same with no callback, and the refusal reaches the caller. */
    method SubmitAsync(ids: IdGen.TaskIdGenerator, source: Source) returns (taskId: TaskId, r: Result<(), string>)
      requires Valid() && ids.Valid()
      modifies this, ids
      ensures Valid() && ids.Valid()
      ensures taskId == TaskIdOf(ids.counter) && ids.counter == old(ids.counter) + 1
      ensures r.Failure? <==> old(shutdown)
      ensures r.Success? ==> taskId in tasks && tasks[taskId].status == Pending && waiters[taskId] == Waiting
      ensures r.Success? ==> queue == old(queue) + [taskId]
      ensures shutdown == old(shutdown)
    {
      var n := ids.GetNextId();
      taskId := TaskIdOf(n);
      r := Register(taskId, source, false);
    }

    /**
      `wait`: the waiter of a task still in the map. A task that has completed has left
      the map, so waiting for it fails as if it never existed.
    */
    method Wait(taskId: TaskId) returns (r: Result<Waiter, string>)
      ensures taskId !in tasks ==> r == Failure("not found task by id " + taskId)
      ensures taskId in tasks && taskId !in waiters ==> r == Failure("waiter is None for task " + taskId)
      ensures taskId in tasks && taskId in waiters ==> r == Success(waiters[taskId])
    {
      if taskId !in tasks {
        return Failure("not found task by id " + taskId);
      }
      if taskId !in waiters {
        return Failure("waiter is None for task " + taskId);
      }
      r := Success(waiters[taskId]);
    }

    /** The caller awaiting a task is cancelled, and its future with it. */
    method CancelWaiter(taskId: TaskId)
      requires Valid()
      modifies this
      ensures Valid()
      ensures taskId in old(waiters) && old(waiters)[taskId] == Waiting ==> waiters == old(waiters)[taskId := Cancelled]
      ensures !(taskId in old(waiters) && old(waiters)[taskId] == Waiting) ==> waiters == old(waiters)
      ensures tasks == old(tasks) && queue == old(queue) && shutdown == old(shutdown) && callbacks == old(callbacks)
      ensures failedCount == old(failedCount) && completedCount == old(completedCount) && inFlight == old(inFlight)
    {
      if taskId in waiters && waiters[taskId] == Waiting {
        waiters := waiters[taskId := Cancelled];
      }
    }

    /**
      `_handle_task_completion`: record the outcome on the task, bump exactly one counter,
      drop the task from the map, then resolve its waiter and call its callback, whose own
      errors are swallowed. Resolving a waiter that is no longer waiting raises
      (`raised`), and then the callback is not reached.
    */
    method HandleTaskCompletion(task: TaskDef, outcome: Outcome) returns (finished: TaskDef, raised: bool)
      requires Valid()
      modifies this
      ensures Valid()
      ensures finished == Finish(task, outcome)
      ensures outcome.Errored? ==> failedCount == old(failedCount) + 1 && completedCount == old(completedCount)
      ensures outcome.Completed? ==> completedCount == old(completedCount) + 1 && failedCount == old(failedCount)
      ensures tasks == old(tasks) - {task.id}
      ensures task.id in old(waiters) && old(waiters)[task.id] == Waiting ==>
        !raised && waiters == old(waiters)[task.id := Resolved(outcome)]
      ensures task.id in old(waiters) && old(waiters)[task.id] != Waiting ==> raised && waiters == old(waiters)
      ensures task.id !in old(waiters) ==> !raised && waiters == old(waiters)
      ensures !raised && task.hasCallback ==> callbacks == old(callbacks) + [(task.id, outcome)]
      ensures raised || !task.hasCallback ==> callbacks == old(callbacks)
      ensures queue == old(queue) && shutdown == old(shutdown) && inFlight == old(inFlight)
    {
      finished := Finish(task, outcome);
      if outcome.Errored? {
        failedCount := failedCount + 1;
      } else {
        completedCount := completedCount + 1;
      }
      if task.id in tasks {
        tasks := tasks - {task.id};
      }
      raised := false;
      if task.id in waiters {
        if waiters[task.id] != Waiting {
          raised := true;
          return;
        }
        waiters := waiters[task.id := Resolved(outcome)];
      }
      if task.hasCallback {
        callbacks := callbacks + [(task.id, outcome)];
      }
    }

    /**
      `_download_media`: the attempt, and on success the key committed to the cache after
      the file is in place.
    */
    method DownloadMedia(source: Source) returns (r: Result<string, Raised>)
      modifies cache
      ensures Attempt(source, env, old(cache.keys)).Success? ==>
        var a := Attempt(source, env, old(cache.keys)).value;
        r == Success(a.0) && cache.keys == old(cache.keys) + {a.1}
        && (a.1 !in old(cache.keys) ==> cache.log == old(cache.log) + a.1 + "\n")
      ensures Attempt(source, env, old(cache.keys)).Failure? ==>
        r == Failure(Attempt(source, env, old(cache.keys)).error)
        && cache.keys == old(cache.keys) && cache.log == old(cache.log)
    {
      var a := Attempt(source, env, cache.keys);
      if a.Failure? {
        return Failure(a.error);
      }
      cache.Set(a.value.1);
      r := Success(a.value.0);
    }

    /**
      The part of `_run_task` between marking the task running and handling its
      completion: the in-flight check, then the download, whose error is classified.
    */
    method Execute(source: Source) returns (outcome: Outcome, inTry: bool)
      modifies cache
      ensures outcome == TaskOutcome(source, inFlight, env, old(cache.keys))
      ensures inTry == HandledInTry(source, inFlight, env, old(cache.keys))
      ensures cache.keys == old(cache.keys) + Committed(source, inFlight, env, old(cache.keys))
    {
      if source.LinkSource? && source.link in inFlight {
        outcome := Errored(DownloadException(ExistInCache, "同样的任务正在下载或曾经下载过: " + source.link));
        inTry := true;
      } else {
        var r := DownloadMedia(source);
        outcome := if r.Success? then Completed(r.value) else Errored(FromError(r.error));
        inTry := r.Success?;
      }
    }

    /**
      `_run_task`: an unknown id does nothing. Otherwise the task is marked running
      (`StartTask`), the download runs and the completion is handled (`FinishTask`).
      Handling raises when the waiter is no longer waiting. Inside the `try` (the in-flight
      check, a download that returned) that raise is caught, classified and handled a
      second time as a failure; after a download that raised it escapes, so the failure is
      counted once.
    */
    method RunTask(id: TaskId) returns (ran: Option<Outcome>)
      requires Valid()
      modifies this, cache
      ensures Valid()
      ensures tasks == old(tasks) - {id}
      ensures queue == old(queue) && shutdown == old(shutdown) && inFlight == old(inFlight)
      ensures id !in old(tasks) ==>
        && waiters == old(waiters) && callbacks == old(callbacks)
        && failedCount == old(failedCount) && completedCount == old(completedCount)
        && cache.keys == old(cache.keys) && cache.log == old(cache.log)
      ensures id in old(tasks) ==>
        cache.keys == old(cache.keys) + Committed(old(tasks)[id].source, inFlight, env, old(cache.keys))
      ensures ran.None? <==> id !in old(tasks)
      ensures ran.Some? ==> ran.value == TaskOutcome(old(tasks)[id].source, inFlight, env, old(cache.keys))
      ensures ran.Some? && old(waiters)[id] == Waiting ==>
        waiters == old(waiters)[id := Resolved(ran.value)]
        && callbacks == old(callbacks) + (if old(tasks)[id].hasCallback then [(id, ran.value)] else [])
      ensures ran.Some? && old(waiters)[id] == Waiting ==>
        failedCount == old(failedCount) + (if ran.value.Errored? then 1 else 0)
        && completedCount == old(completedCount) + (if ran.value.Completed? then 1 else 0)
      ensures ran.Some? && old(waiters)[id] != Waiting ==>
        waiters == old(waiters) && callbacks == old(callbacks)
        && failedCount == old(failedCount) + (if ran.value.Errored? then 1 else 0)
             + (if HandledInTry(old(tasks)[id].source, inFlight, env, old(cache.keys)) then 1 else 0)
        && completedCount == old(completedCount) + (if ran.value.Completed? then 1 else 0)
    {
      var started := StartTask(id);
      if started.None? {
        return None;
      }
      assert started.value.id == id && started.value.source == old(tasks)[id].source;
      assert started.value.hasCallback == old(tasks)[id].hasCallback;
      assert waiters == old(waiters) && tasks - {id} == old(tasks) - {id};
      var outcome := FinishTask(started.value);
      ran := Some(outcome);
    }

    /**
      The first locked block of `_run_task`: an unknown id is left alone; a known task is
      marked running and handed out, and nothing else changes. The lock is then released,
      so the task is seen running until `FinishTask` completes it.
    */
    method StartTask(id: TaskId) returns (started: Option<TaskDef>)
      requires Valid()
      modifies this`tasks
      ensures Valid()
      ensures id !in old(tasks) ==> started.None? && tasks == old(tasks)
      ensures id in old(tasks) ==>
        && started == Some(old(tasks)[id].(status := Running))
        && tasks == old(tasks)[id := started.value]
    {
      if id !in tasks {
        return None;
      }
      var task := tasks[id].(status := Running);
      tasks := tasks[id := task];
      started := Some(task);
    }

    /**
      The rest of `_run_task` for a task `StartTask` handed out: the in-flight check and
      the download run outside the lock, then the completion is handled.
    */
    method FinishTask(task: TaskDef) returns (outcome: Outcome)
      requires Valid() && task.id in tasks && tasks[task.id] == task && task.status == Running
      modifies this, cache
      ensures Valid()
      ensures tasks == old(tasks) - {task.id}
      ensures queue == old(queue) && shutdown == old(shutdown) && inFlight == old(inFlight)
      ensures cache.keys == old(cache.keys) + Committed(task.source, inFlight, env, old(cache.keys))
      ensures outcome == TaskOutcome(task.source, inFlight, env, old(cache.keys))
      ensures old(waiters)[task.id] == Waiting ==>
        waiters == old(waiters)[task.id := Resolved(outcome)]
        && callbacks == old(callbacks) + (if task.hasCallback then [(task.id, outcome)] else [])
      ensures old(waiters)[task.id] == Waiting ==>
        failedCount == old(failedCount) + (if outcome.Errored? then 1 else 0)
        && completedCount == old(completedCount) + (if outcome.Completed? then 1 else 0)
      ensures old(waiters)[task.id] != Waiting ==>
        waiters == old(waiters) && callbacks == old(callbacks)
        && failedCount == old(failedCount) + (if outcome.Errored? then 1 else 0)
             + (if HandledInTry(task.source, inFlight, env, old(cache.keys)) then 1 else 0)
        && completedCount == old(completedCount) + (if outcome.Completed? then 1 else 0)
    {
      var inTry;
      outcome, inTry := Execute(task.source);
      Complete(task, outcome, inTry);
    }

    /**
      The completion step of `_run_task`: handle the outcome. When that raises (the waiter
      was no longer waiting) the callback is never reached. If the handling ran inside the
      `try` (`inTry`), the `except` classifies the handler's own error and handles the
      completion a second time, so the failure counter moves once more. If it already ran
      in the `except`, the raise escapes to the worker and nothing more is counted.
    */
    method Complete(task: TaskDef, outcome: Outcome, inTry: bool)
      requires Valid() && task.id in waiters
      modifies this
      ensures Valid()
      ensures tasks == old(tasks) - {task.id}
      ensures queue == old(queue) && shutdown == old(shutdown) && inFlight == old(inFlight)
      ensures old(waiters)[task.id] == Waiting ==>
        waiters == old(waiters)[task.id := Resolved(outcome)]
        && callbacks == old(callbacks) + (if task.hasCallback then [(task.id, outcome)] else [])
      ensures old(waiters)[task.id] == Waiting ==>
        failedCount == old(failedCount) + (if outcome.Errored? then 1 else 0)
        && completedCount == old(completedCount) + (if outcome.Completed? then 1 else 0)
      ensures old(waiters)[task.id] != Waiting ==>
        waiters == old(waiters) && callbacks == old(callbacks)
        && failedCount == old(failedCount) + (if outcome.Errored? then 1 else 0) + (if inTry then 1 else 0)
        && completedCount == old(completedCount) + (if outcome.Completed? then 1 else 0)
    {
      var finished, raised := HandleTaskCompletion(task, outcome);
      if raised && inTry {
        HandleRaisedCompletion(finished);
      }
    }

    /**
      The `except` of `_run_task` after the handler raised: the task has already left the
      map and its waiter is done, so handling the handler's own error only counts one
      more failure.
    */
    method HandleRaisedCompletion(task: TaskDef)
      requires Valid() && task.id !in tasks && task.id in waiters && waiters[task.id] != Waiting
      modifies this
      ensures Valid()
      ensures failedCount == old(failedCount) + 1 && completedCount == old(completedCount)
      ensures tasks == old(tasks) && waiters == old(waiters) && callbacks == old(callbacks)
      ensures queue == old(queue) && shutdown == old(shutdown) && inFlight == old(inFlight)
    {
      var error := InvalidStateError(waiters[task.id]);
      var _, _ := HandleTaskCompletion(task, Errored(error));
      assert tasks == old(tasks) - {task.id} == old(tasks);
    }

    /**
      The exception `set_result` raises on a waiter that is no longer waiting, as the
      handler's `except` classifies it: an unknown error.
    */
    method InvalidStateError(w: Waiter) returns (error: DownloadException)
      ensures error == DownloadException(Unknown, ClassPrefix(Unknown) + InvalidStateText(w))
    {
      InvalidStateIsUnknown(w);
      error := FromError(OtherFailure(InvalidStateText(w)));
    }

    /**
      One turn of a worker's loop: once shutdown is set the worker stops; an empty queue
      is a timeout; otherwise the oldest id is taken and run as `RunTask` runs it, and
      `ran` is the outcome, None for an id that has already left the map.
    */
    method Step() returns (continues: bool, ran: Option<Outcome>)
      requires Valid()
      modifies this, cache
      ensures Valid()
      ensures continues <==> !old(shutdown)
      ensures shutdown == old(shutdown) && inFlight == old(inFlight)
      ensures old(shutdown) || old(queue) == [] ==>
        && ran.None? && tasks == old(tasks) && queue == old(queue) && waiters == old(waiters)
        && failedCount == old(failedCount) && completedCount == old(completedCount)
        && cache.keys == old(cache.keys) && cache.log == old(cache.log) && callbacks == old(callbacks)
      ensures !old(shutdown) && old(queue) != [] ==>
        queue == old(queue)[1..] && tasks == old(tasks) - {old(queue)[0]}
      ensures !old(shutdown) && old(queue) != [] && old(queue)[0] !in old(tasks) ==>
        && ran.None? && waiters == old(waiters) && callbacks == old(callbacks)
        && failedCount == old(failedCount) && completedCount == old(completedCount)
        && cache.keys == old(cache.keys) && cache.log == old(cache.log)
      ensures !old(shutdown) && old(queue) != [] && old(queue)[0] in old(tasks) ==>
        var id := old(queue)[0];
        var outcome := TaskOutcome(old(tasks)[id].source, inFlight, env, old(cache.keys));
        && ran == Some(outcome)
        && cache.keys == old(cache.keys) + Committed(old(tasks)[id].source, inFlight, env, old(cache.keys))
        && (old(waiters)[id] == Waiting ==>
              && waiters == old(waiters)[id := Resolved(outcome)]
              && callbacks == old(callbacks) + (if old(tasks)[id].hasCallback then [(id, outcome)] else [])
              && failedCount == old(failedCount) + (if outcome.Errored? then 1 else 0)
              && completedCount == old(completedCount) + (if outcome.Completed? then 1 else 0))
        && (old(waiters)[id] != Waiting ==>
              && waiters == old(waiters) && callbacks == old(callbacks)
              && failedCount == old(failedCount) + (if outcome.Errored? then 1 else 0)
                   + (if HandledInTry(old(tasks)[id].source, inFlight, env, old(cache.keys)) then 1 else 0)
              && completedCount == old(completedCount) + (if outcome.Completed? then 1 else 0))
    {
      ran := None;
      if shutdown {
        return false, None;
      }
      continues := true;
      if queue == [] {
        return;
      }
      var id := queue[0];
      queue := queue[1..];
      ran := RunTask(id);
    }

    /** `shutdown`: refuse new tasks; without waiting, also throw the queued ids away. */
    method Shutdown(waitForTasks: bool)
      requires Valid()
      modifies this
      ensures Valid() && shutdown
      ensures queue == if waitForTasks then old(queue) else []
      ensures tasks == old(tasks) && waiters == old(waiters) && callbacks == old(callbacks)
      ensures failedCount == old(failedCount) && completedCount == old(completedCount) && inFlight == old(inFlight)
    {
      shutdown := true;
      if !waitForTasks {
        queue := [];
      }
    }

    /**
      What `shutdown(wait_for_tasks=True)` followed by the drain in `start` evidently
      intends: workers keep taking ids until the queue is empty, so every queued task is
      run to completion, leaves the map, and the future of every caller still waiting on
      one is resolved.
    */
    method ShutdownAndDrain()
      requires Valid()
      modifies this, cache
      ensures Valid() && shutdown && queue == []
      ensures forall id :: id in old(queue) ==> id !in tasks
      ensures forall id :: id in old(queue) && id in old(tasks) && old(waiters)[id] == Waiting ==>
        id in waiters && waiters[id].Resolved?
      ensures forall id :: id in old(tasks) && id !in old(queue) ==>
        id in tasks && tasks[id] == old(tasks)[id] && waiters[id] == old(waiters)[id]
      ensures tasks.Keys <= old(tasks).Keys
    {
      Shutdown(true);
      ghost var all := queue;
      ghost var done: seq<TaskId> := [];
      while queue != []
        invariant Valid() && shutdown
        invariant all == done + queue
        invariant forall id :: id in done ==> id !in tasks
        invariant forall id :: id in done && id in old(tasks) && old(waiters)[id] == Waiting ==>
          id in waiters && waiters[id].Resolved?
        invariant forall id :: id in old(tasks) && id !in done ==>
          id in tasks && tasks[id] == old(tasks)[id] && waiters[id] == old(waiters)[id]
        invariant tasks.Keys <= old(tasks).Keys
        decreases |queue|
      {
        var id := queue[0];
        queue := queue[1..];
        done := done + [id];
        DrainOne(id);
      }
    }

    /**
      One id of the drain, run as `RunTask` runs it: the task leaves the map, a caller
      still waiting on it has its future resolved, and every other future is untouched.
    */
    method DrainOne(id: TaskId)
      requires Valid()
      modifies this, cache
      ensures Valid() && shutdown == old(shutdown) && queue == old(queue)
      ensures tasks == old(tasks) - {id}
      ensures id in old(tasks) && old(waiters)[id] == Waiting ==> id in waiters && waiters[id].Resolved?
      ensures !(id in old(tasks) && old(waiters)[id] == Waiting) ==> waiters == old(waiters)
      ensures waiters.Keys == old(waiters).Keys
      ensures forall k :: k in waiters && k != id ==> waiters[k] == old(waiters)[k]
    {
      var _ := RunTask(id);
    }
  }

  /**
    Between the two locked blocks of `_run_task` a task, whatever its source, is running:
    `status` reports it under the running count, and once it completes it is counted by exactly one of
    the lifetime counters and no longer reported.
  */
  method RunningWhileDownloading(source: Source) returns (before: ServiceStatus, during: ServiceStatus, after: ServiceStatus)
    ensures before.pendingCount == 1 && before.runningCount == 0
    ensures during.pendingCount == 0 && during.runningCount == 1
    ensures after.pendingCount == 0 && after.runningCount == 0
    ensures after.failedCount + after.completedCount == 1
  {
    var cache := new Cache.CacheManager.FromLog("", {}, "");
    var env := TelegramEnv(
      (p: LP.Plan) => None, (m: MT.Message, b: bool) => Failure(OtherFailure("")),
      (a: string, b: string) => None, true, "", false);
    var service := new DownloadService(cache, env);
    var id := TaskIdOf(1);
    var _ := service.Register(id, source, false);
    var task := TaskDef(id, source, Pending, None, None, false);
    CountSingle(id, task, Pending);
    CountSingle(id, task, Running);
    before := service.Status();
    assert before.pendingCount == 1 && before.runningCount == 0;
    var started := service.StartTask(id);
    CountSingle(id, started.value, Pending);
    CountSingle(id, started.value, Running);
    during := service.Status();
    assert during.pendingCount == 0 && during.runningCount == 1;
    assert service.waiters[id] == Waiting && service.tasks == map[id := started.value];
    var _ := service.FinishTask(started.value);
    assert service.tasks == map[];
    after := service.Status();
  }

  /**
    A caller that cancelled its wait: resolving its future raises. After a download that
    raised, that happens in the `except` and escapes, so the failure is counted once. After
    a download that returned, the completion is counted and the caught raise is counted
    as a failure too.
  */
  method CancelledCallerCounts(source: Source, env: TelegramEnv) returns (s: ServiceStatus)
    ensures Attempt(source, env, {}).Failure? ==> s.failedCount == 1 && s.completedCount == 0
    ensures Attempt(source, env, {}).Success? ==> s.failedCount == 1 && s.completedCount == 1
    ensures s.pendingCount == 0 && s.runningCount == 0
  {
    var cache := new Cache.CacheManager.FromLog("", {}, "");
    var service := new DownloadService(cache, env);
    var id := TaskIdOf(1);
    var _ := service.Register(id, source, false);
    service.CancelWaiter(id);
    assert service.waiters[id] == Cancelled && id in service.tasks && service.tasks[id].source == source;
    assert service.failedCount == 0 && service.completedCount == 0;
    assert service.inFlight == {} && service.cache.keys == {} && service.env == env;
    var _ := service.RunTask(id);
    assert service.tasks == map[];
    s := service.Status();
  }

  /**
    As written, a worker tests the shutdown flag only at the top of its loop and then
    stops taking ids. When the id is queued while no worker is parked in `get` (every
    worker busy in `_run_task`, or between a `get` time-out and the next flag test) and
    `shutdown(wait_for_tasks=True)` follows, the queued task is never run: the queue keeps
    it and its caller's waiter is never resolved. Each `Step` here is one such flag test.
  */
  method ShutdownStrandsQueue() returns (left: nat, pending: bool, waiter: Waiter)
    ensures left == 1 && pending && waiter == Waiting
  {
    var cache := new Cache.CacheManager.FromLog("", {}, "");
    var env := TelegramEnv(
      (p: LP.Plan) => None, (m: MT.Message, b: bool) => Failure(OtherFailure("")),
      (a: string, b: string) => None, true, "", false);
    var ids := new IdGen.TaskIdGenerator();
    var service := new DownloadService(cache, env);
    var id, _ := service.SubmitAsync(ids, LinkSource("https://t.me/a/1"));
    service.Shutdown(true);
    var _, _ := service.Step();
    var _, _ := service.Step();
    left := |service.queue|;
    pending := id in service.tasks && service.tasks[id].status == Pending;
    waiter := service.waiters[id];
  }
}
