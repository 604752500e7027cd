/**
  The bot front end: incoming media messages are routed to single processing or
  collected per album (media group) behind a debounce timer that every new member
  restarts; when the timer of an album elapses the album is taken out and processed in
  message-id order. Also the reports the bot sends back after an album or a batch of
  links: one line per item in item order, success and failure tallies, error texts cut
  to length.
*/
module TelegramBot {
  import opened Wrappers
  import opened Text
  import MT = TelegramMediaTypes

  // ---------------------------------------------------------------------------------
  // Stable sorting by a key (`list.sort(key=...)` and `sorted(..., key=...)`)

  predicate SortedBy<T>(s: seq<T>, key: T -> int) {
    forall i, j :: 0 <= i < j < |s| ==> key(s[i]) <= key(s[j])
  }

  /** Insert `x` into a sorted sequence before the first element whose key is not smaller. */
  function Insert<T>(x: T, t: seq<T>, key: T -> int): (r: seq<T>)
    requires SortedBy(t, key)
    ensures |r| == |t| + 1
    ensures SortedBy(r, key)
    ensures forall k :: 0 <= k < |r| ==> key(r[k]) >= key(x) || (t != [] && key(r[k]) >= key(t[0]))
  {
    if t == [] || key(x) <= key(t[0]) then [x] + t
    else
      var rest := Insert(x, t[1..], key);
      assert forall k :: 0 <= k < |rest| ==> key(t[0]) <= key(rest[k]);
      [t[0]] + rest
  }

  /** Inserting adds exactly `x`. */
  lemma {:induction false} InsertPermutes<T>(x: T, t: seq<T>, key: T -> int)
    requires SortedBy(t, key)
    ensures multiset(Insert(x, t, key)) == multiset(t) + multiset{x}
  {
    if t != [] && key(x) > key(t[0]) {
      InsertPermutes(x, t[1..], key);
      assert t == [t[0]] + t[1..];
    }
  }

  /** Insertion sort, sorted by the key. */
  function SortBy<T>(s: seq<T>, key: T -> int): (r: seq<T>)
    ensures |r| == |s|
    ensures SortedBy(r, key)
  {
    if s == [] then []
    else Insert(s[0], SortBy(s[1..], key), key)
  }

  /** Sorting neither loses nor adds an element: the result is a permutation of the input. */
  lemma {:induction false} SortPermutes<T>(s: seq<T>, key: T -> int)
    ensures multiset(SortBy(s, key)) == multiset(s)
  {
    if s != [] {
      SortPermutes(s[1..], key);
      InsertPermutes(s[0], SortBy(s[1..], key), key);
      assert s == [s[0]] + s[1..];
    }
  }

  /** Sorting what is already in order gives it back unchanged. */
  lemma {:induction false} SortSorted<T>(s: seq<T>, key: T -> int)
    requires SortedBy(s, key)
    ensures SortBy(s, key) == s
  {
    if s != [] {
      SortSorted(s[1..], key);
      assert [s[0]] + s[1..] == s;
    }
  }

  /** The message id: the key albums are sorted by. */
  function MessageId(m: MT.Message): int {
    m.id
  }

  // ---------------------------------------------------------------------------------
  // The album debounce

  /** `if message.grouped_id:` — a present, non-zero album id. */
  predicate Grouped(m: MT.Message) {
    m.groupedId.Some? && m.groupedId.value != 0
  }

  /**
    The two maps of `TelegramBotService` that collect albums, with the timers as
    numbered handles: `scheduled` remembers the album of every timer ever started,
    `retired` the timers that can no longer act (cancelled, or already elapsed) and
    `elapsed` those whose delay has run out.
  */
  class MediaGroupAggregator {
    /** `pending_media_groups`: album id to the members received so far, in arrival order. */
    var pending: map<int, seq<MT.Message>>
    /** `media_group_timers`: album id to its current timer. */
    var timers: map<int, nat>
    var scheduled: map<nat, int>
    var retired: set<nat>
    var elapsed: set<nat>
    /** Elapsed timers whose task has already run its `except` branch. */
    var failed: set<nat>
    var nextTimer: nat
    /** Messages handed to single processing, in order. */
    var singles: seq<MT.Message>
    /** Albums handed to `_process_media_group`, with their members in id order. */
    var processed: seq<(int, seq<MT.Message>)>

    /**
      Every collecting album has exactly one current timer, which is live; every album
      list is non-empty; timers are numbered in creation order.
    */
    ghost predicate Valid()
      reads this
    {
      && pending.Keys == timers.Keys
      && (forall g :: g in pending ==> pending[g] != [])
      && (forall g :: g in timers ==> timers[g] in scheduled && scheduled[timers[g]] == g && timers[g] !in retired)
      && (forall h :: h in scheduled ==> h < nextTimer)
      && failed <= elapsed && elapsed <= retired && retired <= scheduled.Keys
    }

    constructor ()
      ensures Valid()
      ensures pending == map[] && timers == map[] && scheduled == map[] && retired == {} && elapsed == {}
      ensures failed == {} && singles == [] && processed == [] && nextTimer == 0
    {
      pending := map[];
      timers := map[];
      scheduled := map[];
      retired := {};
      elapsed := {};
      failed := {};
      nextTimer := 0;
      singles := [];
      processed := [];
    }

    /**
      `_handle_media_message` with `_schedule_media_group_processing`: a message without
      media is ignored; one outside an album goes to single processing; an album member
      is appended to its album, the album's running timer is cancelled and a new timer
      becomes its only current one.
    */
    method Arrive(m: MT.Message)
      requires Valid()
      modifies this
      ensures Valid()
      ensures processed == old(processed) && elapsed == old(elapsed) && failed == old(failed)
      ensures m.media.None? ==>
        pending == old(pending) && timers == old(timers) && scheduled == old(scheduled)
        && retired == old(retired) && singles == old(singles) && nextTimer == old(nextTimer)
      ensures m.media.Some? && !Grouped(m) ==>
        singles == old(singles) + [m] && pending == old(pending) && timers == old(timers)
        && scheduled == old(scheduled) && retired == old(retired) && nextTimer == old(nextTimer)
      ensures m.media.Some? && Grouped(m) ==>
        var g := m.groupedId.value;
        && pending == old(pending)[g := (if g in old(pending) then old(pending)[g] else []) + [m]]
        && timers == old(timers)[g := old(nextTimer)]
        && scheduled == old(scheduled)[old(nextTimer) := g]
        && retired == old(retired) + (if g in old(timers) then {old(timers)[g]} else {})
        && nextTimer == old(nextTimer) + 1 && singles == old(singles)
    {
      if m.media.None? {
        return;
      }
      if !Grouped(m) {
        singles := singles + [m];
        return;
      }
      Collect(m.groupedId.value, m);
    }

    /** Append an album member and restart the album's timer. */
    method Collect(g: int, m: MT.Message)
      requires Valid()
      modifies this
      ensures Valid()
      ensures processed == old(processed) && elapsed == old(elapsed) && singles == old(singles)
      ensures failed == old(failed)
      ensures pending == old(pending)[g := (if g in old(pending) then old(pending)[g] else []) + [m]]
      ensures timers == old(timers)[g := old(nextTimer)]
      ensures scheduled == old(scheduled)[old(nextTimer) := g]
      ensures retired == old(retired) + (if g in old(timers) then {old(timers)[g]} else {})
      ensures nextTimer == old(nextTimer) + 1
    {
      var members := if g in pending then pending[g] else [];
      pending := pending[g := members + [m]];
      if g in timers {
        retired := retired + {timers[g]};
      }
      var h := nextTimer;
      assert h !in scheduled;
      nextTimer := nextTimer + 1;
      scheduled := scheduled[h := g];
      timers := timers[g := h];
    }

    /**
      The delay of timer `h` runs out. A cancelled or already elapsed timer does
      nothing. Otherwise, if its album is still collecting, the album and its timer entry
      are taken out and the members are processed in message-id order.
    */
    method Fire(h: nat)
      requires Valid()
      modifies this
      ensures Valid()
      ensures singles == old(singles) && nextTimer == old(nextTimer) && scheduled == old(scheduled)
      ensures failed == old(failed)
      ensures h !in old(scheduled) || h in old(retired) ==>
        pending == old(pending) && timers == old(timers) && retired == old(retired)
        && elapsed == old(elapsed) && processed == old(processed)
      ensures h in old(scheduled) && h !in old(retired) ==>
        retired == old(retired) + {h} && elapsed == old(elapsed) + {h}
      ensures h in old(scheduled) && h !in old(retired) && old(scheduled)[h] in old(pending) ==>
        var g := old(scheduled)[h];
        && pending == old(pending) - {g} && timers == old(timers) - {g}
        && processed == old(processed) + [(g, SortBy(old(pending)[g], MessageId))]
      ensures h in old(scheduled) && h !in old(retired) && old(scheduled)[h] !in old(pending) ==>
        pending == old(pending) && timers == old(timers) && processed == old(processed)
    {
      if h !in scheduled || h in retired {
        return;
      }
      retired := retired + {h};
      elapsed := elapsed + {h};
      var g := scheduled[h];
      if g in pending {
        var members := pending[g];
        pending := pending - {g};
        timers := timers - {g};
        if members != [] {
          processed := processed + [(g, SortBy(members, MessageId))];
        }
      }
    }

    /**
      An unexpected error in the task of an elapsed timer: the handler deletes whatever
      list and timer entry its album has at that moment, even ones a newer member
      started after the album was taken out. Each timer's task runs its `except` branch
      at most once, so a second failure of the same timer changes nothing.
    */
    method FailAfterFire(h: nat)
      requires Valid()
      modifies this
      ensures Valid()
      ensures singles == old(singles) && processed == old(processed) && nextTimer == old(nextTimer)
      ensures scheduled == old(scheduled) && retired == old(retired) && elapsed == old(elapsed)
      ensures h in old(elapsed) && h !in old(failed) ==>
        && pending == old(pending) - {old(scheduled)[h]} && timers == old(timers) - {old(scheduled)[h]}
        && failed == old(failed) + {h}
      ensures h !in old(elapsed) || h in old(failed) ==>
        pending == old(pending) && timers == old(timers) && failed == old(failed)
    {
      if h !in elapsed || h in failed {
        return;
      }
      failed := failed + {h};
      var g := scheduled[h];
      pending := pending - {g};
      timers := timers - {g};
    }
  }

  /**
    Two members of one album arriving in either order are processed once, together, in
    id order, when the second member's timer elapses; the first member's timer has been
    cancelled and does nothing.
  */
  method AlbumInIdOrder(a: MT.Message, b: MT.Message) returns (albums: seq<(int, seq<MT.Message>)>)
    requires a.media.Some? && b.media.Some? && Grouped(a) && b.groupedId == a.groupedId
    requires b.id < a.id
    ensures albums == [(a.groupedId.value, [b, a])]
  {
    var g := a.groupedId.value;
    var agg := new MediaGroupAggregator();
    agg.Arrive(a);
    assert g in agg.pending && agg.pending[g] == [a] && agg.timers[g] == 0;
    agg.Arrive(b);
    assert agg.pending[g] == [a, b] && 0 in agg.retired;
    assert 1 in agg.scheduled && agg.scheduled[1] == g && 1 !in agg.retired;
    agg.Fire(0);
    assert agg.pending[g] == [a, b] && agg.processed == [];
    agg.Fire(1);
    assert agg.processed == [(g, SortBy([a, b], MessageId))];
    agg.Fire(1);
    albums := agg.processed;
    SortTwo(a, b);
  }

  lemma SortTwo(a: MT.Message, b: MT.Message)
    requires b.id < a.id
    ensures SortBy([a, b], MessageId) == [b, a]
  {
    assert [a, b][1..] == [b];
    assert SortBy([b], MessageId) == [b] by {
      assert [b][1..] == [];
    }
    assert Insert(a, [b], MessageId) == [b] + Insert(a, [], MessageId);
  }

  // ---------------------------------------------------------------------------------
  // Reports

  /** The number of successful outcomes. */
  function CountOk(outcomes: seq<Result<string, string>>): (n: nat)
    ensures n <= |outcomes|
  {
    if outcomes == [] then 0
    else CountOk(outcomes[..|outcomes| - 1]) + (if outcomes[|outcomes| - 1].Success? then 1 else 0)
  }

  /** Every item counts as a success exactly when every outcome is one. */
  lemma {:induction false} CountOkAll(outcomes: seq<Result<string, string>>)
    ensures CountOk(outcomes) == |outcomes| <==> forall i :: 0 <= i < |outcomes| ==> outcomes[i].Success?
  {
    if outcomes != [] {
      var init := outcomes[..|outcomes| - 1];
      CountOkAll(init);
      assert forall i :: 0 <= i < |init| ==> init[i] == outcomes[i];
    }
  }

  lemma PrefixSnoc<T>(s: seq<T>, i: nat)
    requires i < |s|
    ensures s[..i + 1] == s[..i] + [s[i]]
  {
  }

  lemma CountOkSnoc(outcomes: seq<Result<string, string>>, i: nat)
    requires i < |outcomes|
    ensures CountOk(outcomes[..i + 1]) == CountOk(outcomes[..i]) + (if outcomes[i].Success? then 1 else 0)
  {
    assert outcomes[..i + 1][..i] == outcomes[..i];
  }

  /** A download result as `gather` hands it back: the 1-based item index and the outcome. */
  datatype Attempt = Attempt(index: nat, outcome: Result<string, string>)

  function AttemptIndex(a: Attempt): int {
    a.index
  }

  /** The attempts of items `1..n`, in item order, as `gather` returns them. */
  function Gathered(outcomes: seq<Result<string, string>>): (r: seq<Attempt>)
    ensures |r| == |outcomes|
    ensures forall i :: 0 <= i < |r| ==> r[i] == Attempt(i + 1, outcomes[i])
    ensures SortedBy(r, AttemptIndex)
  {
    seq(|outcomes|, i requires 0 <= i < |outcomes| => Attempt(i + 1, outcomes[i]))
  }

  /** An album member's error: always its first 50 characters and "...". */
  function GroupErrorText(e: string): (r: string)
    ensures |r| == (if |e| < 50 then |e| else 50) + 3
  {
    Take(e, 50) + "..."
  }

  /** The album error text is a prefix of the error followed by "...". */
  lemma GroupErrorCut(e: string)
    ensures var r := GroupErrorText(e); r[..|r| - 3] <= e && r[|r| - 3..] == "..."
  {
  }

  /** A link's error: left alone up to 100 characters, else its first 100 and "...". */
  function LinkErrorText(e: string): (r: string)
    ensures |e| <= 100 ==> r == e
    ensures |e| > 100 ==> |r| == 103
  {
    if |e| > 100 then Take(e, 100) + "..." else e
  }

  /** A long error keeps exactly its first 100 characters, followed by "...". */
  lemma LinkErrorCut(e: string)
    requires |e| > 100
    ensures LinkErrorText(e)[..100] == e[..100] && LinkErrorText(e)[100..] == "..."
  {
  }

  function GroupLine(index: nat, n: nat, outcome: Result<string, string>): string {
    var position := NatToString(index) + "/" + NatToString(n);
    if outcome.Success? then "✅ 媒体 " + position + " 下载成功"
    else "❌ 媒体 " + position + " 下载失败: " + GroupErrorText(outcome.error)
  }

  function GroupSummary(success: nat, failed: nat, n: nat, duration: string): string {
    "📊 媒体相册处理完成: 成功 " + NatToString(success) + "/" + NatToString(n)
    + ", 失败 " + NatToString(failed) + "/" + NatToString(n) + ", 耗时 " + duration + " 秒"
  }

  /**
    The report of `_process_media_group`, given what each member's download gave (the
    path, or `str(e)`) and the formatted duration: one line per member in member order,
    then the summary, joined by newlines.
  */
  method GroupReport(outcomes: seq<Result<string, string>>, duration: string)
    returns (lines: seq<string>, success: nat, failed: nat, reply: string)
    ensures |lines| == |outcomes|
    ensures forall i :: 0 <= i < |outcomes| ==> lines[i] == GroupLine(i + 1, |outcomes|, outcomes[i])
    ensures success == CountOk(outcomes) && success + failed == |outcomes|
    ensures reply == Join(lines + ["\n" + GroupSummary(success, failed, |outcomes|, duration)], "\n")
  {
    var results := Gathered(outcomes);
    SortSorted(results, AttemptIndex);
    var sorted := SortBy(results, AttemptIndex);
    assert sorted == results;
    lines, success, failed := GroupLines(sorted, outcomes);
    reply := Join(lines + ["\n" + GroupSummary(success, failed, |outcomes|, duration)], "\n");
  }

  /** The loop of `_process_media_group` over the attempts in item order: lines and tallies. */
  method GroupLines(attempts: seq<Attempt>, outcomes: seq<Result<string, string>>)
    returns (lines: seq<string>, success: nat, failed: nat)
    requires attempts == Gathered(outcomes)
    ensures |lines| == |outcomes|
    ensures forall i :: 0 <= i < |outcomes| ==> lines[i] == GroupLine(i + 1, |outcomes|, outcomes[i])
    ensures success == CountOk(outcomes) && success + failed == |outcomes|
  {
    var n := |outcomes|;
    ghost var expected := seq(n, j requires 0 <= j < n => GroupLine(j + 1, n, outcomes[j]));
    lines := [];
    success := 0;
    failed := 0;
    var i := 0;
    while i < n
      invariant 0 <= i <= n && lines == expected[..i]
      invariant success == CountOk(outcomes[..i]) && success + failed == i
    {
      var a := attempts[i];
      assert a.index == i + 1 && a.outcome == outcomes[i];
      CountOkSnoc(outcomes, i);
      PrefixSnoc(expected, i);
      var line := GroupLine(a.index, n, a.outcome);
      assert line == expected[i];
      if a.outcome.Success? {
        success := success + 1;
      } else {
        failed := failed + 1;
      }
      lines := lines + [line];
      i := i + 1;
    }
    assert outcomes[..n] == outcomes;
    assert expected[..n] == expected;
  }

  function LinkLine(link: string, outcome: Result<string, string>): string {
    if outcome.Success? then "✅ " + link
    else "❌ " + link + " \n⚠️ 错误: " + LinkErrorText(outcome.error)
  }

  function LinkSummary(success: nat, failed: nat, n: nat, duration: string): string {
    "📊 链接处理完成: \n成功 " + NatToString(success) + "/" + NatToString(n)
    + "\n失败 " + NatToString(failed) + "/" + NatToString(n) + "\n耗时 " + duration + " 秒"
  }

  /**
    The report of `_process_telegram_links`: one line per link in link order, then the
    summary, joined by blank lines.
  */
  method LinkReport(links: seq<string>, outcomes: seq<Result<string, string>>, duration: string)
    returns (lines: seq<string>, success: nat, failed: nat, reply: string)
    requires |outcomes| == |links|
    ensures |lines| == |links|
    ensures forall i :: 0 <= i < |links| ==> lines[i] == LinkLine(links[i], outcomes[i])
    ensures success == CountOk(outcomes) && success + failed == |links|
    ensures reply == Join(lines + ["\n" + LinkSummary(success, failed, |links|, duration)], "\n\n")
  {
    var results := Gathered(outcomes);
    SortSorted(results, AttemptIndex);
    var sorted := SortBy(results, AttemptIndex);
    assert sorted == results;
    lines, success, failed := LinkLines(links, sorted, outcomes);
    reply := Join(lines + ["\n" + LinkSummary(success, failed, |links|, duration)], "\n\n");
  }

  /** The loop of `_process_telegram_links` over the attempts in link order: lines and tallies. */
  method LinkLines(links: seq<string>, attempts: seq<Attempt>, outcomes: seq<Result<string, string>>)
    returns (lines: seq<string>, success: nat, failed: nat)
    requires |outcomes| == |links| && attempts == Gathered(outcomes)
    ensures |lines| == |links|
    ensures forall i :: 0 <= i < |links| ==> lines[i] == LinkLine(links[i], outcomes[i])
    ensures success == CountOk(outcomes) && success + failed == |links|
  {
    var n := |links|;
    ghost var expected := seq(n, j requires 0 <= j < n => LinkLine(links[j], outcomes[j]));
    lines := [];
    success := 0;
    failed := 0;
    var i := 0;
    while i < n
      invariant 0 <= i <= n && lines == expected[..i]
      invariant success == CountOk(outcomes[..i]) && success + failed == i
    {
      var a := attempts[i];
      assert a.index - 1 == i && a.outcome == outcomes[i];
      CountOkSnoc(outcomes, i);
      PrefixSnoc(expected, i);
      var line := LinkLine(links[a.index - 1], a.outcome);
      assert line == expected[i];
      if a.outcome.Success? {
        success := success + 1;
      } else {
        failed := failed + 1;
      }
      lines := lines + [line];
      i := i + 1;
    }
    assert outcomes[..n] == outcomes;
    assert expected[..n] == expected;
  }

  /** The reply of `_process_single_media`: success exactly when a (non-empty) path came back. */
  function SingleReply(path: Option<string>, duration: string): (r: string)
    ensures |r| > 0
    ensures r[0] == '✅' <==> path.Some? && path.value != ""
  {
    if path.Some? && path.value != "" then "✅ 文件下载成功\n⏱️ 耗时: " + duration + " 秒"
    else "❌ 文件下载失败\n⏱️ 耗时: " + duration + " 秒"
  }
}
