# zepy download orchestration in Dafny

zepy downloads media from Telegram (through a bot and a user client) and the media of a
Twitter user's likes. This project models the bookkeeping at its core and proves properties of it:

- **Dedup cache.** An in-memory key set backed by an append-only log file that is read back line by line.
- **Task id counter.** A single shared counter.
- **Telegram download service.** This covers:
  - its task map, FIFO queue, shutdown flag and lifetime counters;
  - the error classifier;
  - the check ladder of a media download.
- **Bot media-album debounce.** Album members are gathered per group, and a timer is restarted on every arrival.
- **Bot reports.** The per-item lines and tallies of the album and link reports.
- **Telegram parsing.** The `t.me` link parser and the link-file validation.
- **Twitter side.** The paging executor, the per-item download ladder and the media-descriptor extraction.
- **Persistence.** The memoising `persisted` property over a key-value store.

Each source file has one module (`cache.dfy`, `telegram_downloader.dfy`, …). The style follows the source:

- Code that mutates objects becomes Dafny classes with `modifies` frames:
  - `CacheManager`, `TaskIdGenerator`, `DownloadService`, `MediaGroupAggregator`;
  - `ThreadedExecutor`, `TwitterLikesMediaDownloader`, `Persisted`.
- Loops become methods with invariants, proved against specification functions.
- Expression-level code becomes functions and lemmas.

Four shared helper modules model the Python library behaviour the core relies on:

- `Wrappers`: `Option` and `Result`.
- `Text`: `str.strip`, `split`, `join`, `lower`, `isdigit` and `str(int)`.
- `Url`: the parts of `urllib.parse.urlparse` and `parse_qs` that the core uses.
- `Paths`: `os.path.join`, `splitext` and `rfind`.

Everything the core does not own is a parameter of the model:

- Telethon, the Twitter OpenAPI client, `requests`, `mimetypes.guess_extension` and the filesystem are modelled as:
  - function-valued fields of an environment record (`TelegramEnv`, `World`);
  - or, for the likes endpoint, a scripted sequence of replies (`LikesEndpoint`).
- Locks are read as "the locked block is atomic".
- asyncio tasks and the thread pool run sequentially:
  - a worker turn is `DownloadService.Step`;
  - a debounce timer firing is `MediaGroupAggregator.Fire`.

## Model

| member | source | states |
|---|---|---|
| Utils.IsEmpty | app/infra/utils.py:4-11 | None is empty; a string is empty exactly when every character is whitespace; an int exactly when it is 0 (a bool exactly when False); any other value never |
| IdGen.TaskIdGenerator.constructor | app/infra/idgen.py:7 | a generator starts with counter 0 and nothing issued |
| IdGen.TaskIdGenerator.GetNextId | app/infra/idgen.py:15-19 | the counter goes up by exactly one and the id returned is the new counter; it was never issued before and exceeds every id issued before |
| IdGen.GeneratorSlot.constructor | app/infra/idgen.py:4 | the class starts with no shared instance |
| IdGen.GeneratorSlot.Instance | app/infra/idgen.py:9-13 | the first construction creates the instance with counter 0; every later construction returns that same object |
| IdGen.SharedCounter | app/infra/idgen.py:9-19 | two constructions followed by one `get_next_id` each hand out 1 and then 2: all callers share one counter, and the first id is 1 |
| Cache.LoadedKeysMembers | app/infra/cache.py:39-49 | a key is loaded exactly when it is non-empty and some line of the log strips to it |
| Cache.AppendLine | app/infra/cache.py:34-49 | non-empty content without a line break, written with its newline after a finished line, reads back as the old lines followed by exactly that one line |
| Cache.OneLine | app/infra/cache.py:34-49 | content without a line break, written with its newline, reads back as exactly that one line |
| Cache.BrokenKeyReloadsSplit | app/infra/cache.py:20-49 | `set("a\nb")` writes the two lines "a" and "b", so a reload holds "a" and "b" and not the key that was set |
| Cache.UnfinishedLineGlues | app/infra/cache.py:34-48 | a key appended to a log whose last line has no ending is glued onto that line |
| Cache.ReloadRoundTrip | app/infra/cache.py:34-49 | the log a fresh cache writes for storable keys (non-empty, no surrounding whitespace and no line break) reads back as exactly those keys, one per line, and so reloads as exactly their set |
| Cache.LoadFromFile | app/infra/cache.py:39-49 | a missing file loads as the empty set; an existing file loads as the set of stripped non-blank lines that `readlines()` gives in text mode, where `\n`, `\r` and `\r\n` all end a line |
| Cache.CacheManager.Contains | app/infra/cache.py:16-18 | true exactly when the key is in the set |
| Cache.CacheManager.Set | app/infra/cache.py:20-25 | afterwards the key is present and no key was removed; a present key changes neither the set nor the log; a new key is added alone and the log gains the key and a newline; after a finished line, a non-empty key without a line break becomes exactly one new line; a durable cache whose log ends a line stays durable for a storable key (a reload gives back its set) |
| Cache.CacheManager.SyncToFile | app/infra/cache.py:34-37 | the log gains the content followed by a newline; after a finished line, non-empty content without a line break adds exactly one line, the content |
| Cache.Open | app/infra/cache.py:10-32 | construction fails, with the source's message, exactly when the path exists and is not a regular file; otherwise the cache starts durable, with an empty log for a missing file and the file's text otherwise |
| Persistent.Load | app/infra/persistent.py:43-60 | a None stored value, or a decode that raises, yields the default; without a serializer the stored value comes back as it is |
| Persistent.ToStore | app/infra/persistent.py:62-69 | without a serializer the value is stored as given; with one, the set fails exactly when encode raises |
| Persistent.PlainRoundTrip | app/infra/persistent.py:62-73 | without a serializer, a value that is not None and is stored then loaded comes back unchanged |
| Persistent.SerializedRoundTrip | app/infra/persistent.py:62-73 | with a serializer whose decode inverts its encode on the value, the value stored then loaded comes back unchanged |
| Persistent.DefaultStorage.constructor | app/infra/persistent.py:80-83 | the storage wraps the given database, dumped as it is |
| Persistent.DefaultStorage.Get | app/infra/persistent.py:85-86 | the database's value for the key, or the database's answer for a missing key |
| Persistent.DefaultStorage.Set | app/infra/persistent.py:88-90 | the key is written and the whole database is then dumped |
| Persistent.Persisted.constructor | app/infra/persistent.py:36-37 | a property starts with no cached attribute |
| Persistent.Persisted.Get | app/infra/persistent.py:39-60 | with the cache on, the store is read only on the first access and later reads return the memoised value without touching the store; with it off, every read goes to the store; reads never change the store |
| Persistent.Persisted.Set | app/infra/persistent.py:62-73 | a raising encode fails before the store or the cache is touched; otherwise the store holds the encoded value (dumped) and, with the cache on, the attribute holds the encoded value |
| Persistent.SetThenGet | app/infra/persistent.py:62-73 | with the cache on and no serializer, a set followed by a get returns the value set and reads nothing from the store |
| TelegramMediaTypes.Subdir | app/telegram/media_types.py:31-43 | the subdirectory is images for PHOTO, videos for VIDEO, gifs for ANIMATION and audios for AUDIO and VOICE. It is unknown for UNKNOWN and documents for the rest. Each holds in both directions |
| TelegramMediaTypes.StorageDir | app/telegram/media_types.py:29-47 | the directory is longer than the base plus `telegram/` and does not end in a slash |
| TelegramMediaTypes.StorageDirParts | app/telegram/media_types.py:30-45 | the directory is the base, a slash unless the base already ends in one (the root), then `telegram/` and the subdirectory, as `Path(base) / "telegram" / subdir` prints |
| TelegramMediaTypes.StorageDirShared | app/telegram/media_types.py:29-47 | two types share a directory exactly when they share a subdirectory |
| TelegramMediaTypes.FromMessagePriority | app/telegram/media_types.py:73-88 | the type is that of the first flag present in the order photo, video, gif, video_note, audio, voice, document; it is UNKNOWN, and so unsupported, exactly when no flag is present |
| TelegramMediaTypes.FirstPresent | app/telegram/media_types.py:54-69 | the answer is a present attribute of the list, and None only when every attribute is absent |
| TelegramMediaTypes.GetMediaIfFirstPresent | app/telegram/media_types.py:50-69 | the answer is the id of the first attribute present in the order photo, document, video, audio, voice, gif, video_note; it is None when none is present; reading a missing id raises |
| TelegramInput.IsValidUrl | app/telegram/input.py:7-9 | a URL is valid exactly when both its scheme and its network location are non-empty; a `urlparse` error propagates |
| TelegramInput.CollectMeaning | app/telegram/input.py:15-23 | the lines are accepted exactly when every non-blank trimmed line is a valid URL; the result is then the set of trimmed non-blank lines, duplicates collapsed |
| TelegramInput.GetLinksForConfigureOrRaise | app/telegram/input.py:12-27 | the loop's answer equals the specification `Links` over `is_valid_url` |
| TelegramInput.ReadLinks | app/telegram/input.py:13-27 | the loop skips blank lines, stops at the first invalid line with its error, and raises when no URL was found; it equals `Links` |
| TelegramInput.LinksMeaning | app/telegram/input.py:12-27 | the file is accepted exactly when every non-blank line is a valid URL and at least one is present; the result is then exactly the set of trimmed lines |
| TelegramLinkParser.DigitQuery | app/telegram/link_parser.py:84-85 | a query value counts exactly when it is a non-empty digit string; other values are treated as absent |
| TelegramLinkParser.PeerSegments | app/telegram/link_parser.py:87-90 | a leading `c` segment marks the link private and is dropped before the segments are counted; nothing else is dropped |
| TelegramLinkParser.Shape | app/telegram/link_parser.py:92-115 | a record exists exactly for two segments with a numeric second or three with two numeric tails; it names the first segment as peer; a comment id is recorded only when no thread id is |
| TelegramLinkParser.ParseTelegramLink | app/telegram/link_parser.py:57-123 | a stripped link without the `https://t.me/` prefix is rejected; every failure is one of the parser's two messages; a success always has a peer and a non-negative message id, and never both a comment and a thread id |
| TelegramLinkParser.FromParsed | app/telegram/link_parser.py:78-121 | after `urlparse`, every failure reads "Invalid integer format in link", because the unsupported-format error is re-caught as a ValueError |
| TelegramLinkParser.PrefixedLinkParses | app/telegram/link_parser.py:59-77 | a link with the prefix always gets through `urlparse`, with host `t.me` |
| TelegramLinkParser.ParseRenderedLink | app/telegram/link_parser.py:61-115 | every documented form (`[c/]peer/[thread/]message[?thread=…\|?comment=…]`) parses to the record it spells out |
| TelegramLinkParser.ParseOfClean | app/telegram/link_parser.py:57-79 | a link without surrounding whitespace and with the prefix is parsed from its own `urlparse` |
| TelegramLinkParser.RenderedUrl | app/telegram/link_parser.py:77-79 | `urlparse` of a documented form gives host `t.me`, the joined segments as path and the query |
| TelegramLinkParser.PathParts | app/telegram/link_parser.py:79 | the non-empty parts of `/` followed by the joined segments are exactly those segments |
| TelegramLinkParser.QueryValues | app/telegram/link_parser.py:78-85 | a rendered `thread=`/`comment=` query yields exactly that id and leaves the other absent |
| TelegramLinkParser.ShapeOfSegments | app/telegram/link_parser.py:87-115 | the segments of a documented form select the record it spells out |
| TelegramLinkParser.ChannelPeer | app/telegram/link_parser.py:34-36 | a private channel p becomes the id -(1000000000000 + p), from which p is recovered |
| TelegramLinkParser.ChannelPeerInjective | app/telegram/link_parser.py:34-36 | distinct channels get distinct peers, and a channel number p >= 0 gives an id at most -10^12 |
| Text.PyInt | app/telegram/link_parser.py:35 | `int()` of a digit string is its decimal value |
| Text.DigitsOnly | app/telegram/link_parser.py:35 | a digit string needs no stripping and has no underscores to drop |
| TelegramLinkParser.ResolvePlan | app/telegram/link_parser.py:15-50 | without a peer or a (non-zero) message id there is no target. A private peer becomes the channel id and a public one stays a username. The plan fails exactly when a private peer is not an integer |
| TelegramLinkParser.ResolveTargetsCommentFirst | app/telegram/link_parser.py:33-47 | resolution asks for the comment id when a truthy one is recorded, and otherwise for the message id |
| TelegramDownloader.IsCompletion | app/telegram/downloader.py:52-53 | complete exactly for success and failure |
| TelegramDownloader.FromError | app/telegram/downloader.py:74-91 | a DownloadException is returned unchanged. Other errors are classified by fixed priority: connection, then permission, then auth/unauthorized, then limit/flood, else Unknown. The message is the code's prefix followed by the original text |
| TelegramDownloader.FromErrorIdempotent | app/telegram/downloader.py:74-77 | classifying an already classified error changes nothing |
| TelegramDownloader.UnauthorizedMentionsAuth | app/telegram/downloader.py:86 | any message containing "unauthorized" already contains "auth", so the second test of that branch never decides anything |
| TelegramDownloader.TaskIdOf | app/telegram/downloader.py:114-119 | every generated id starts with `_t`, so `_is_task_id` holds, followed by the counter value in decimal |
| TelegramDownloader.TaskIdInjective | app/telegram/downloader.py:114-115 | different counter values give different task ids |
| TelegramDownloader.Finish | app/telegram/downloader.py:282-289 | the task becomes complete; failure exactly for an error, with the exception recorded; otherwise success with the result recorded; identity fields unchanged |
| TelegramDownloader.CountsCoverTasks | app/telegram/downloader.py:162-171 | when no task in the map is complete, pending plus running counts equal the number of tasks |
| TelegramDownloader.CountSingle | app/telegram/downloader.py:162-171 | a map holding one task counts it under its own status and under no other |
| TelegramDownloader.StartMovesCounts | app/telegram/downloader.py:248-254 | marking a pending task running moves it from the pending count to the running count and leaves the other counts alone |
| TelegramDownloader.RunningWhileDownloading | app/telegram/downloader.py:243-278 | between the two locked blocks of `_run_task`, `status` reports the task as running (0 pending, 1 running). Before, it is pending. After, neither, and exactly one lifetime counter has counted it |
| TelegramDownloader.CancelledCallerCounts | app/telegram/downloader.py:256-310 | for a caller that cancelled its wait, a download that raised is counted as one failure and nothing else. A download that returned is counted as one completion plus one failure. No task is left pending or running |
| TelegramDownloader.InvalidStateIsUnknown | app/telegram/downloader.py:272-274 | the error raised by resolving a future that is no longer waiting mentions no keyword of `from_error`, so it is classified as an unknown error |
| TelegramDownloader.NoKeywordIsUnknown | app/telegram/downloader.py:272-274 | a lower-case message lacking one letter of each keyword is classified as an unknown error with the unknown prefix |
| TelegramDownloader.FetchByLink | app/telegram/link_parser.py:126-131 | a link the parser rejects fails with the parser's error, and every failure is a non-download error to be classified |
| TelegramDownloader.CacheKey | app/telegram/downloader.py:384 | every Telegram cache key starts with `t-` |
| TelegramDownloader.MediaIdOf | app/telegram/downloader.py:383 | the id fails exactly when `get_media_if` raises; a truthy media id wins over the message id |
| TelegramDownloader.CheckLadder | app/telegram/downloader.py:377-400 | a missing media stops with NotExistMedia. Going ahead implies a supported type, no view-once timer and, with the cache on, an uncached key. An ExistInCache stop needs the cache on and the key cached |
| TelegramDownloader.LadderBeforeCache | app/telegram/downloader.py:377-400 | without the cache the ladder ignores the cached keys; an unsupported or view-once media stops before any cache lookup, whatever is cached |
| TelegramDownloader.CachedMediaSkipped | app/telegram/downloader.py:398-400 | a supported ordinary media whose key is cached stops with ExistInCache and the source's message |
| TelegramDownloader.Transfer | app/telegram/downloader.py:421-440 | a saved file lies in the type's storage directory under `<key><ext>`, with no further slash, and implies the client (or bot) download succeeded |
| TelegramDownloader.TargetName | app/telegram/downloader.py:431-437 | the move target is `<dir>/<key>` followed by the downloaded file's extension |
| TelegramDownloader.Attempt | app/telegram/downloader.py:367-469 | a successful download has a `t-` key that was not cached (with the cache on); a message without media fails with NotExistMedia |
| TelegramDownloader.SecondAttemptSkipped | app/telegram/downloader.py:398-447 | once a download's key is committed, attempting the same download again is refused |
| TelegramDownloader.CommitOnlyOnSuccess | app/telegram/downloader.py:440-447 | a key is committed exactly when the run completes, and at most one key; a failed run leaves the cache alone |
| TelegramDownloader.ExceptOnlyForFailures | app/telegram/downloader.py:256-278 | a completed run was handled inside the `try`; a run handled in the `except` failed and committed no key |
| TelegramDownloader.DownloadService.constructor | app/telegram/downloader.py:132-155 | the service starts with no tasks, an empty queue, no shutdown, zero counters and an empty in-flight set |
| TelegramDownloader.DownloadService.Status | app/telegram/downloader.py:162-171 | the pending and running counts are those of the map, they add up to the map's size, and the lifetime counters are reported as they are |
| TelegramDownloader.DownloadService.Register | app/telegram/downloader.py:184-196 | after shutdown it fails with "DownloadService is shutdown" and changes neither map nor queue; otherwise it registers a pending task with a waiting future, then enqueues its id |
| TelegramDownloader.DownloadService.Submit | app/telegram/downloader.py:173-177 | the id is `_t` followed by the next counter value. Before shutdown the task is pending and last in the queue. After shutdown the refusal is swallowed and nothing is registered |
| TelegramDownloader.DownloadService.SubmitAsync | app/telegram/downloader.py:179-182 | the same id. The call fails exactly after shutdown. Otherwise the task is pending with a waiting future, and its id is last in the queue |
| TelegramDownloader.DownloadService.Wait | app/telegram/downloader.py:199-212 | an unknown id and a task without a future fail with the source's messages; otherwise the task's future is returned |
| TelegramDownloader.DownloadService.CancelWaiter | app/telegram/downloader.py:197 | cancelling the caller cancels a still-waiting future and changes nothing else |
| TelegramDownloader.DownloadService.HandleTaskCompletion | app/telegram/downloader.py:280-310 | exactly one of the failure and completion counters goes up by one. The task leaves the map before its future is resolved. A waiting future is resolved once, with the error or the result; resolving one that is not waiting raises. When the resolution did not raise, the callback is invoked once |
| TelegramDownloader.DownloadService.DownloadMedia | app/telegram/downloader.py:367-469 | the download follows `Attempt`: on success the key is committed after the move; on failure the cache is untouched |
| TelegramDownloader.DownloadService.Execute | app/telegram/downloader.py:256-270 | the outcome follows the in-flight check and then the download, and the cache gains exactly the committed key. `inTry` says whether the completion is handled inside the `try`: after the in-flight check or a download that returned, not after a download that raised |
| TelegramDownloader.DownloadService.RunTask | app/telegram/downloader.py:243-278 | an unknown id changes nothing. A known task leaves the map, its outcome is that of the in-flight check and the download, and the cache gains exactly the committed key. A waiting future is resolved with that outcome, and the matching counter moves by one. When the future was no longer waiting, no callback runs. The raise is caught and counted as one more failure only when the first handling ran inside the `try`; after a download that raised, the failure is counted once |
| TelegramDownloader.DownloadService.StartTask | app/telegram/downloader.py:248-254 | the first locked block: an unknown id changes nothing and yields None. A known task is marked running and stays in the map; nothing else changes |
| TelegramDownloader.DownloadService.FinishTask | app/telegram/downloader.py:256-278 | a running task is downloaded and completed. The map loses it, the cache gains exactly the committed key, and the future, counters and callbacks change as for `RunTask`, including the single count of a download that raised |
| TelegramDownloader.DownloadService.Complete | app/telegram/downloader.py:270-278 | a waiting future is resolved once and the callback runs. When resolving the future raises, no callback runs. If the handling ran inside the `try`, the `except` handles the completion a second time and the failure counter moves again. If it ran in the `except`, the raise escapes and nothing more is counted |
| TelegramDownloader.DownloadService.HandleRaisedCompletion | app/telegram/downloader.py:272-278 | after the handler raised, the task is already gone and its future done, so handling the classified error only counts one more failure; the map, futures and callbacks are unchanged |
| TelegramDownloader.DownloadService.InvalidStateError | app/telegram/downloader.py:272-274 | the handler's own error is classified as an unknown error carrying the invalid-state text |
| TelegramDownloader.DownloadService.Step | app/telegram/downloader.py:219-233 | once shutdown is set the worker stops. An empty queue is a timeout that changes nothing. Otherwise the oldest id leaves the queue and the map. An id already gone changes nothing else. A known id is run: its outcome is the download's, and the cache gains its committed key. A waiting future is resolved with the outcome, the callback is recorded and exactly one counter moves. A future no longer waiting is left alone; the failure is counted a second time only when the first handling ran inside the `try` |
| TelegramDownloader.DownloadService.Shutdown | app/telegram/downloader.py:344-358 | the flag is set; without waiting the queue is emptied, with waiting it is left intact; the task map is untouched |
| TelegramDownloader.DownloadService.ShutdownAndDrain | app/telegram/downloader.py:322-330 | (corrected) after shutdown the queue is drained: every queued task is run and leaves the map, and every caller still waiting on a queued task has its future resolved; tasks that were not queued keep their state and their waiters |
| TelegramDownloader.DownloadService.DrainOne | app/telegram/downloader.py:243-278 | running one drained id removes its task, resolves the future of a caller still waiting on it, and leaves every other future untouched |
| TelegramDownloader.ShutdownStrandsQueue | app/telegram/downloader.py:219 | (as written) when no worker is parked in `get` as the id is queued, and `shutdown(wait_for_tasks=True)` follows, the queued task is never taken: the queue keeps it, it stays pending and its future waits forever |
| TelegramBot.Insert | app/telegram/bot.py:211 | inserting into a list sorted by message id keeps it sorted and adds one element |
| TelegramBot.InsertPermutes | app/telegram/bot.py:211 | insertion adds exactly the new element |
| TelegramBot.SortBy | app/telegram/bot.py:211 | the result is sorted by the key and has the input's length |
| TelegramBot.SortPermutes | app/telegram/bot.py:211 | sorting is a permutation: nothing is lost or added |
| TelegramBot.SortSorted | app/telegram/bot.py:234 | sorting a list already in id order gives it back unchanged, so the second sort in `_process_media_group` changes nothing |
| TelegramBot.MediaGroupAggregator.constructor | app/telegram/bot.py:48-50 | both maps start empty |
| TelegramBot.MediaGroupAggregator.Arrive | app/telegram/bot.py:83-108 | a message without media is ignored. An ungrouped one goes to single processing. A grouped one is appended to its album, and its old timer is cancelled and replaced by a new one. Other albums are unchanged |
| TelegramBot.MediaGroupAggregator.Collect | app/telegram/bot.py:94-106 | the member is appended at the end of its album's list; the album's old timer is retired and only the new one is stored |
| TelegramBot.MediaGroupAggregator.Fire | app/telegram/bot.py:197-212 | a cancelled or unknown timer does nothing. A live timer pops its album's whole list and drops its timer entry. It then processes the members sorted by message id. A fire for an album already popped does nothing |
| TelegramBot.MediaGroupAggregator.FailAfterFire | app/telegram/bot.py:217-224 | an unexpected error after a fire removes both the album's list and its timer entry. It happens at most once per timer that fired; a second report for the same timer changes nothing |
| TelegramBot.AlbumInIdOrder | app/telegram/bot.py:83-234 | two members of an album arriving in either order are processed once, together, in id order; the first member's timer does nothing |
| TelegramBot.SortTwo | app/telegram/bot.py:211 | two messages out of id order are swapped by the sort |
| TelegramBot.CountOk | app/telegram/bot.py:150-156 | the success count never exceeds the number of items |
| TelegramBot.CountOkAll | app/telegram/bot.py:150-156 | every item counts as a success exactly when every outcome is one |
| TelegramBot.CountOkSnoc | app/telegram/bot.py:150-156 | one more outcome adds one to the success count exactly when it is a success |
| TelegramBot.Gathered | app/telegram/bot.py:139-148 | the gathered results are indexed 1..n in item order and are already sorted by index |
| TelegramBot.GroupErrorText | app/telegram/bot.py:247 | an album error is cut to at most 50 characters and always followed by "..." |
| TelegramBot.GroupErrorCut | app/telegram/bot.py:247 | the album error text is a prefix of the error followed by "..." |
| TelegramBot.LinkErrorText | app/telegram/bot.py:134 | a link error of at most 100 characters is left alone; a longer one becomes 103 characters |
| TelegramBot.LinkErrorCut | app/telegram/bot.py:134 | a long link error keeps exactly its first 100 characters, followed by "..." |
| TelegramBot.GroupReport | app/telegram/bot.py:250-298 | one line per member in index order whatever the completion order, successes plus failures equal the member count, and the reply is the lines and summary joined by newlines |
| TelegramBot.GroupLines | app/telegram/bot.py:259-267 | the loop yields the i-th member's line at position i and counts exactly the successes |
| TelegramBot.LinkReport | app/telegram/bot.py:139-185 | one line per link in link order, successes plus failures equal the number of links, and the reply joins lines and summary with blank lines |
| TelegramBot.LinkLines | app/telegram/bot.py:148-156 | the loop yields the i-th link's line at position i and counts exactly the successes |
| TelegramBot.SingleReply | app/telegram/bot.py:317-320 | the reply reports success exactly when a non-empty path came back |
| TwitterModels.FromString | app/twitter/models.py:74-80 | "photo" maps to image and "video" to video, both ways; everything else, "image" included, maps to other |
| TwitterModels.AllowDownload | app/twitter/models.py:64-71 | an image is allowed unless only-video is set, a video unless only-image is set, other never; with both flags set nothing is allowed |
| TwitterModels.StorageDir | app/twitter/models.py:49-61 | the directory is the kind's subdirectory under `Path(storage_directory) / username` |
| TwitterModels.EmptyUsernameDir | app/twitter/models.py:50-58 | an empty username adds no component, so the kind's directory sits directly in the storage directory with no doubled slash |
| TwitterModels.StorageDirsDistinct | app/twitter/models.py:50-59 | the three kinds never share a storage directory |
| TwitterModels.StorageDirEnd | app/twitter/models.py:51-59 | a kind's directory ends in its six-letter subdirectory name |
| TwitterModels.LastName | app/twitter/models.py:39 | the last non-empty, non-`.` path part: a part of the path, never `.` |
| TwitterModels.Name | app/twitter/models.py:39 | a path's name contains no slash |
| TwitterModels.Suffix | app/twitter/models.py:39 | a suffix is empty or runs from the name's last dot (neither its first nor last character) to the end |
| TwitterModels.Extension | app/twitter/models.py:31-41 | a mimetype with a known extension wins; a non-empty answer can only come from the mimetype |
| TwitterModels.ExtensionFallback | app/twitter/models.py:37-41 | without a mimetype guess, a URL path with a suffix gives None and one without gives "" |
| TwitterModels.NameOfFile | app/twitter/models.py:39 | the name of `/dir/file` is `file` |
| TwitterModels.FileUrlParse | app/twitter/models.py:37 | `https://host/dir/file?query` parses to the path `/dir/file` and the query |
| TwitterModels.SuffixedUrlHasNoExtension | app/twitter/models.py:37-41 | without a mimetype, a URL whose file name has a suffix gets no extension at all |
| TwitterModels.PhotoExtensionIsNone | app/twitter/models.py:37-41 | a photo as the API delivers it (`…/media/F1.jpg?name=orig`, no mimetype) gets the extension None |
| TwitterModels.PhotoNameSuffix | app/twitter/models.py:39 | the suffix of `F1.jpg` is `.jpg` |
| TwitterApi.MediaSource | app/api/twitter.py:79 | the media list is `extended_entities` when non-empty, else `entities`, else empty |
| TwitterApi.MediaKey | app/api/twitter.py:82 | the key is `media_key`, else `id_str`, else `str(id)`, and is never empty |
| TwitterApi.BestIndex | app/api/twitter.py:102-104 | the chosen variant is an mp4 of maximal rank (a missing bitrate ranks -1), the first such one, and none exists exactly when there is no mp4 |
| TwitterApi.NonZero | app/api/twitter.py:114 | `x or None` keeps exactly the present non-zero numbers |
| TwitterApi.Convert | app/api/twitter.py:80-125 | only image, video and photo entries pass. A photo needs a URL and gets `?name=orig` appended. A video needs an mp4 variant and takes the best one. An "image" entry passes with no URL and kind other |
| TwitterApi.Collected | app/api/twitter.py:80-127 | the output is never longer than the entry list |
| TwitterApi.CollectedFrom | app/api/twitter.py:80-127 | every descriptor comes from an entry that converts to it |
| TwitterApi.CollectedAppend | app/api/twitter.py:80-127 | extraction keeps entry order: the output of `a + b` is that of `a` followed by that of `b` |
| TwitterApi.NoAnimatedGif | app/api/twitter.py:84-101 | no "animated_gif" entry ever comes out, although a branch is written for it |
| TwitterApi.ExtractMedia | app/api/twitter.py:77-127 | the loop with its skips produces exactly the specified extraction |
| TwitterApi.FlatMapAppend | app/api/twitter.py:46-48 | flattening the per-item lists distributes over concatenation |
| TwitterApi.LikesMediasAppend | app/api/twitter.py:46-48 | the media of tweets `a + b` are those of `a` followed by those of `b` |
| TwitterApi.LikesMediasFrom | app/api/twitter.py:46-48 | every descriptor of a page belongs to one of its tweets |
| TwitterApi.GetUserLikesMedias | app/api/twitter.py:38-50 | the result concatenates the tweets' media in tweet order; the next cursor is the bottom cursor, None when absent |
| TwitterDownloader.Repeat | app/twitter/downloader.py:33 | `n` copies of one byte |
| TwitterDownloader.RepeatAdd | app/twitter/downloader.py:33-34 | runs of the same byte concatenate |
| TwitterDownloader.FakeResponse.constructor | app/twitter/downloader.py:25-28 | a response starts at position 0 |
| TwitterDownloader.FakeResponse.IterContent | app/twitter/downloader.py:30-35 | the chunks are non-empty and at most `chunk_size` long, all but the last exactly that long, and they spell out the remaining `total_size - _pos` bytes; the position ends at `total_size` |
| TwitterDownloader.LikesEndpoint.constructor | app/api/twitter.py:38-39 | the endpoint answers from its script and has had no request |
| TwitterDownloader.LikesEndpoint.GetLikes | app/api/twitter.py:38-39 | each request is recorded and answered with the next scripted reply |
| TwitterDownloader.MediaCount | app/twitter/downloader.py:72 | the requested count is clamped into [1, 2] |
| TwitterDownloader.ContentType | app/twitter/downloader.py:131 | the content type without parameters contains no `;` |
| TwitterDownloader.FinalExtension | app/twitter/downloader.py:131-134 | the final extension is never `.jpe` (normalised to `.jpg`); a truthy guess from the content type wins |
| TwitterDownloader.Fetch | app/twitter/downloader.py:116-117 | the attempt ends failed or saved with the temporary name; it fails at the request stage exactly when the URL is missing |
| TwitterDownloader.Store | app/twitter/downloader.py:117-140 | a saved item had no HTTP error, a readable body and a successful rename; a failure here is never a request failure |
| TwitterDownloader.FinalExtensionFound | app/twitter/downloader.py:130-133 | the final extension is found whenever `media.extension()` succeeds, because it only falls back to that call |
| TwitterDownloader.PlanNeverFailsAtFinalName | app/twitter/downloader.py:108-136 | no download fails while naming the final file: the temporary name already evaluated `media.extension()` successfully |
| TwitterDownloader.FilesAfterLeftover | app/twitter/downloader.py:110-112 | a leftover temporary file makes no difference to the files afterwards |
| TwitterDownloader.TypeFilterFirst | app/twitter/downloader.py:95-96 | an item the settings exclude is skipped as a type mismatch, cached or not |
| TwitterDownloader.CachedIsSkipped | app/twitter/downloader.py:98-102 | an allowed item whose `x-<id>` key is cached is skipped before any request and without touching a file |
| TwitterDownloader.SavedShape | app/twitter/downloader.py:95-140 | a saved item is an image or a video with an uncached key, fetched without HTTP error, and renamed to `x-likes-<id><ext>` |
| TwitterDownloader.SecondDownloadSkipped | app/twitter/downloader.py:98-141 | once an item is saved its key is cached, so downloading it again is a skip |
| TwitterDownloader.NoneExtensionName | app/twitter/downloader.py:108-136 | without a content-type guess, a photo whose extension is None is saved as `x-likes-<id>None` |
| TwitterDownloader.StoreFinal | app/twitter/downloader.py:131-140 | a stored response is renamed to `x-likes-<id><ext>` in the kind's directory, where `ext` is the final extension |
| TwitterDownloader.TwitterLikesMediaDownloader.constructor | app/twitter/downloader.py:53-60 | no cursor, an empty failure list, zero counters |
| TwitterDownloader.TwitterLikesMediaDownloader.GetMedias | app/twitter/downloader.py:64-88 | one request with the current cursor and the clamped count. On success it returns the page's media, stores the next cursor and counts exactly one request. On an exception it returns None and changes neither |
| TwitterDownloader.TwitterLikesMediaDownloader.Fail | app/twitter/downloader.py:152-156 | the item joins the failure list exactly once |
| TwitterDownloader.TwitterLikesMediaDownloader.DownloadMedia | app/twitter/downloader.py:91-156 | the call never raises, and every failure adds the item to the failure list once. On success the key is cached after the rename and exactly one of the image and video counters goes up. A skip or failure leaves the cache and its log alone |
| TwitterDownloader.TwitterLikesMediaDownloader.TryDownload | app/twitter/downloader.py:104-140 | the attempt follows its specification, with the files and requests it causes |
| TwitterDownloader.TwitterLikesMediaDownloader.FetchInto | app/twitter/downloader.py:110-140 | a leftover temporary file is removed, then the request and the store follow their specification |
| TwitterDownloader.TwitterLikesMediaDownloader.Request | app/twitter/downloader.py:116-140 | the GET is recorded only when a URL is present, then the response is stored |
| TwitterDownloader.TwitterLikesMediaDownloader.StoreResponse | app/twitter/downloader.py:117-140 | status and length checks, writing the temporary file and the rename follow `Store` |
| TwitterDownloader.TwitterLikesMediaDownloader.Commit | app/twitter/downloader.py:141-147 | the key is added to the cache and only the counter of the item's kind goes up |
| TwitterExecutor.PageSize | app/twitter/executor.py:31 | the page size is clamped into [1, 50] and equals the count inside that range |
| TwitterExecutor.Submissions | app/twitter/executor.py:41 | one submission per item, in item order |
| TwitterExecutor.SubmittedMediaAppend | app/twitter/executor.py:33-44 | the items submitted by two stretches of the log are those of the first, then those of the second |
| TwitterExecutor.SubmissionsContents | app/twitter/executor.py:41 | submitting a page submits exactly its items, in order |
| TwitterExecutor.TraceContents | app/twitter/executor.py:33-44 | over a whole run, the items submitted are the pages' items concatenated, and every request, including the final one, asks for the same size |
| TwitterExecutor.RoundsContents | app/twitter/executor.py:33-44 | the rounds for the pages submit exactly the pages' items and make one request per page |
| TwitterExecutor.RoundsAppend | app/twitter/executor.py:33-44 | the rounds of `a + b` are those of `a` followed by those of `b` |
| TwitterExecutor.PagesFromSnoc | app/twitter/executor.py:35-36 | a further non-empty reply extends the pages read so far |
| TwitterExecutor.RanStep | app/twitter/executor.py:33-44 | one more round keeps the run's log, submissions and requests in step with the pages read |
| TwitterExecutor.RanEnd | app/twitter/executor.py:33-44 | a request that gives no page closes the trace with that request, and the requests stay in step with the pages read |
| TwitterExecutor.ThreadedExecutor.constructor | app/twitter/executor.py:26-28 | an executor starts with an empty log |
| TwitterExecutor.ThreadedExecutor.StartDownload | app/twitter/executor.py:30-47 | each page is requested with the same clamped size. Every item of every non-empty page is submitted exactly once, in order, before the next page is requested. The loop ends at the first reply that is None or empty |
| TwitterExecutor.ThreadedExecutor.Round | app/twitter/executor.py:35-44 | one request. An exception or an empty page ends the run with nothing submitted. A non-empty page is submitted whole |
| TwitterExecutor.ThreadedExecutor.SubmitPage | app/twitter/executor.py:41-44 | every item of the page is downloaded, in order, and the log records exactly the page's submissions |
| TwitterExecutor.ThreadedExecutor.SubmitTasks | app/twitter/executor.py:50-55 | the handler runs once per argument, and result i is the handler applied to argument i |

## Left out

- Concurrency:
  - `_worker` skips `task_done()` when `_run_task` raises (a future no longer waiting), which leaves the queue's unfinished-task count too high for `join()`. That count is not modelled, so this effect is not shown.
  - asyncio tasks, the thread pool and locks are run sequentially; each locked block is one atomic step. The two locked blocks of `_run_task` are `StartTask` and `FinishTask`; between them the task is seen running, but no other coroutine is interleaved there. A worker's `Step` tests the shutdown flag and takes an id in one step, so the model cannot express a worker that is parked in `asyncio.wait_for(queue.get(), 1.0)` when the flag is set and then still receives the next id. `ShutdownStrandsQueue` therefore stands for the case where no worker is parked in `get`: all of them busy in `_run_task`, or between a `get` time-out and the next flag test.
  - interleavings between workers are not modelled.
- Time:
  - The `sleep` calls are not modelled: the 0.5 s throttles, the 1.5 s album debounce, the one-second worker timeout and the 300 s drain in `start`.
  - Elapsed times, speeds and sizes are floats inside log and reply texts. Reply durations are given as strings.
- Logging, the progress bars, the `SilentFilter` and all log messages are not modelled.
- Telethon, the Twitter OpenAPI client, `requests` and the filesystem are parameters. Their own failures appear only as the error values they may return. Calls into Telethon resolution are modelled by `ResolvePlan` and an oracle.
- `Paths.PathJoin` joins one component the way `pathlib` prints the result. It does not normalise the base itself (doubled slashes, `.` parts, a trailing slash other than the root's). The storage directory is taken to be normalised and absolute, as `resolve_path` makes it (app/infra/path.py:6-15).
- `TelegramInput.IsValidUrl`: `urlsplit` rejects only an unmatched bracket in the network location. The checks that newer Python versions add are not modelled: a bracketed host that is not an IP address (`http://[x]/`), and a network location that changes under NFKC normalisation. On those inputs the model accepts a URL that Python rejects.
- `TelegramLinkParser.ResolvePlan`: the `int()` error message quotes the text with single quotes. Python's `repr` escaping, and its choice of double quotes for text that contains a single quote, are not modelled.
- `TwitterExecutor.ThreadedExecutor.StartDownload` terminates only because `TwitterDownloader.LikesEndpoint` answers from a finite script and returns an empty page once the script is used up. The Python loop (app/twitter/executor.py:33-38) runs for as long as the API keeps returning non-empty pages, and that is not bounded.
- `os.makedirs` in the `storage_dir` methods and in `CacheManager._makedirs` always succeeds in the model. An `open` that fails inside the cache is not modelled.
- Percent-decoding (`unquote`) in `parse_qs` and in `MediaInfo.extension` is not modelled: query values and paths are taken as written.
- `str.isdigit` and `str.lower` cover ASCII only. The Unicode digits and case mappings Python also accepts are not modelled.
- `int()` is `Text.PyInt`, used by the link parser and by `TwitterDownloader.ParsesAsInt` for the `content-length` header. It covers ASCII digits with an optional sign, surrounding whitespace and single underscores between digits. Other numerals Python accepts are not covered.
- The bot's link regex, its `/start`, `/help` and `/status` handlers and `_send_reply` are not modelled. They only format or send text.
- `TwitterLikesMediaDownloader.start` and `TwitterAPI.get_user_info` are not modelled:
  - they are one user lookup followed by one `start_download` call;
  - the rest id they produce is a constructor parameter.
- `TwitterAPI.get_user_medias` and `TwitterAPI.create` are not modelled. No code in the core calls the former, and the latter only builds a client.
- `TwitterDownloader.FakeResponse.IterContent`: the model requires a positive chunk size. With `chunk_size <= 0`, the Python generator loops forever (or yields empty chunks forever).
- `TwitterExecutor.ThreadedExecutor.SubmitTasks`: the handler is a pure function of its argument. Side effects of handlers are not modelled.
- `ThreadedExecutor.shutdown` only shuts the thread pool down and is not modelled.
- The generic `Downloader` interface is modelled through its one implementation, `TwitterLikesMediaDownloader`. Its contract is "never raise; None on error, an empty list when there is no more data", which that implementation keeps.
- `persisted` serializers are modelled as functions that either return a value or raise. Exceptions other than those of the serializer are not modelled.
- `DownloadService.start`'s worker creation and `start_with_progress` are modelled only as repeated `Step` calls and by the corrected `ShutdownAndDrain`.

Reproduced quirks, kept as written:

- `DownloadService._cache` is never added to, so the in-flight check in `_run_task` never fires. Every method leaves the model's `inFlight` unchanged.
- `MediaInfo.extension` returns the URL suffix only when it is empty, and None when there is one. `TwitterModels.PhotoExtensionIsNone` shows the effect on an ordinary photo; `TwitterDownloader.NoneExtensionName` shows the resulting file name `x-likes-<id>None`.
- `extract_media` lets "image" through with no URL and drops "animated_gif" before the branch written for it.
- `persisted` caches the encoded value after a set.
- `CacheManager.set` writes any key followed by a newline. A key with a line break therefore reloads as several other keys (`Cache.BrokenKeyReloadsSplit`). A log whose last line lacks an ending gets the next key glued onto that line (`Cache.UnfinishedLineGlues`).
- The Telegram storage directory uses the Twitter settings' storage directory.

## Findings

| source | as written | input that shows it | evidently intended | confidence | as-written member | corrected member |
|---|---|---|---|---|---|---|
| app/telegram/downloader.py:219 | a worker leaves its loop as soon as the shutdown flag is set, so after `shutdown(wait_for_tasks=True)` no queued id is taken, and `start` waits 300 s on a queue nobody drains | submit one link while every worker is busy in `_run_task` (or between a worker's 1 s `get` time-out and its next flag test), then `shutdown(wait_for_tasks=True)`: each worker finishes its task, sees the flag at line 219 and leaves. The id stays queued, the task stays pending and its future never resolves. A worker already parked in `get` would still take the id | with `wait_for_tasks=True`, workers keep taking ids until the queue is empty, so every queued task completes | medium, not executed | TelegramDownloader.ShutdownStrandsQueue | TelegramDownloader.DownloadService.ShutdownAndDrain |
