/** The per-channel export loop of the --all run (exporter.py:242-268): for
    every channel, walk one-day windows from its creation time to the clock
    reading, fetch each window's history, optionally rewrite file
    attachments, splice in the replies of every thread root, and save the
    window's batch when it is non-empty.

    The two kinds of query are answered by oracles: the outcomes, in order,
    of the successive channel_history calls and of the successive
    channel_replies calls, each as the paginator would report it. */
module Export {
  import opened Json
  import opened Paginator
  import opened Queries

  const Day := 86400

  /** One saved file: the window's records, in the directory named after the
      channel, in the file named after the window's start. */
  datatype Batch = Batch(dir: Json, day: int, messages: seq<Json>)

  /** What the run has done so far: the history queries and the replies
      queries it issued (the n-th of a kind takes the n-th answer of that
      kind's oracle), and the files it saved, all in order. */
  datatype Progress = Progress(histories: seq<Query>, replies: seq<Query>, saved: seq<Batch>)

  /** Why a run stops early: the process exits, or an oracle has no answer
      (the source would still be waiting on the network). */
  datatype Stop = Exit(why: Fatal) | NoMoreAnswers

  datatype Run<+T> = Go(value: T, at: Progress) | Halt(why: Stop, at: Progress)

  datatype Reply = Records(items: seq<Json>) | Stopped(why: Stop)

  /** The answer to the n-th query of one kind. */
  function Answer(oracle: seq<Pagination>, n: nat): Reply {
    if n >= |oracle| then Stopped(NoMoreAnswers)
    else match oracle[n]
      case Done(items, _, _, _, _) => Records(items)
      case Aborted(why) => Stopped(Exit(why))
      case Unfinished => Stopped(NoMoreAnswers)
  }

  // ---- the --skipfiles rewrite (exporter.py:254-261) ------------------------

  predicate HasFiles(m: Json) {
    m.JObj? && "files" in m.fields
  }

  /** The note appended for the first attachment, None where building it
      raises (a url_private that is not a string). */
  function FileNote(first: Record): Option<string> {
    if "url_private" !in first then Some(" _File was deleted:_ ")
    else if first["url_private"].JStr? then Some(" _This file was here:_ " + first["url_private"].s)
    else None
  }

  /** The conditions under which the rewrite of a message with "files" does
      not raise: a non-empty attachment list headed by an object, a string
      text, a note that can be built, and an "upload" entry to delete. */
  predicate Rewritable(f: Record)
    requires "files" in f
  {
    && f["files"].JArr? && |f["files"].items| > 0 && f["files"].items[0].JObj?
    && "text" in f && f["text"].JStr?
    && FileNote(f["files"].items[0].fields).Some?
    && "upload" in f
  }

  /** A message as the skip-files pass leaves it. */
  function Redact(m: Json): (r: Result<Json>)
    ensures !HasFiles(m) ==> r == Success(m)
    ensures HasFiles(m) ==> (r.Success? <==> Rewritable(m.fields))
    ensures HasFiles(m) && r.Failure? ==> r.why == Unredactable(m.fields)
    ensures HasFiles(m) && r.Success? ==>
      var f := m.fields;
      && r.value.JObj?
      && r.value.fields.Keys == f.Keys - {"files", "upload"}
      && (forall k :: k in r.value.fields && k != "text" ==> r.value.fields[k] == f[k])
      && r.value.fields["text"] == JStr(f["text"].s + FileNote(f["files"].items[0].fields).value)
  {
    if !HasFiles(m) then Success(m)
    else
      var f := m.fields;
      if !Rewritable(f) then Failure(Unredactable(f))
      else
        var text := f["text"].s + FileNote(f["files"].items[0].fields).value;
        Success(JObj(f["text" := JStr(text)] - {"files", "upload"}))
  }

  /** The rewrite when --skipfiles is given, nothing otherwise. */
  function Rewrite(m: Json, skipFiles: bool): Result<Json> {
    if skipFiles then Redact(m) else Success(m)
  }

  /** Rewriting twice changes nothing more: the result carries no "files". */
  lemma RedactIdempotent(m: Json)
    requires Redact(m).Success?
    ensures Redact(Redact(m).value) == Redact(m)
  {
  }

  /** A message with "thread_ts" and no "subtype": its replies are fetched. */
  predicate IsThreadRoot(m: Json) {
    m.JObj? && "thread_ts" in m.fields && "subtype" !in m.fields
  }

  function ThreadTs(m: Json): Json
    requires IsThreadRoot(m)
  {
    m.fields["thread_ts"]
  }

  /** The rewrite does not change which messages are thread roots, nor
      which thread they name. */
  lemma RedactKeepsThreads(m: Json)
    requires Redact(m).Success?
    ensures IsThreadRoot(Redact(m).value) == IsThreadRoot(m)
    ensures IsThreadRoot(m) ==> ThreadTs(Redact(m).value) == ThreadTs(m)
  {
  }

  // ---- one window: thread splicing (exporter.py:251-265) --------------------

  /** The loop over the first n entries of the window's batch from entry j.
      The batch starts as the copy of the history list, so rewriting entry j
      rewrites the message the history list shares with it; the replies of a
      thread root are appended behind. */
  function Splice(n: nat, j: nat, batch: seq<Json>, channelId: Json, skipFiles: bool,
                  replies: seq<Pagination>, at: Progress): Run<seq<Json>>
    requires j <= n <= |batch|
    decreases n - j
  {
    if j == n then Go(batch, at)
    else
      var m := Rewrite(batch[j], skipFiles);
      if m.Failure? then Halt(Exit(m.why), at)
      else
        var b := batch[j := m.value];
        if !IsThreadRoot(m.value) then Splice(n, j + 1, b, channelId, skipFiles, replies, at)
        else
          var at' := at.(replies := at.replies + [ChannelReplies(ThreadTs(m.value), channelId)]);
          match Answer(replies, |at.replies|)
          case Stopped(why) => Halt(why, at')
          case Records(items) => Splice(n, j + 1, b + items, channelId, skipFiles, replies, at')
  }

  method SpliceThreads(history: seq<Json>, channelId: Json, skipFiles: bool,
                       replies: seq<Pagination>, at: Progress)
    returns (r: Run<seq<Json>>)
    ensures r == Splice(|history|, 0, history, channelId, skipFiles, replies, at)
  {
    var batch := history;
    var progress := at;
    var j := 0;
    while j < |history|
      invariant j <= |history| <= |batch|
      invariant Splice(|history|, 0, history, channelId, skipFiles, replies, at)
             == Splice(|history|, j, batch, channelId, skipFiles, replies, progress)
    {
      var message := batch[j];
      if skipFiles {
        var rewritten := Redact(message);
        if rewritten.Failure? {
          return Halt(Exit(rewritten.why), progress);
        }
        message := rewritten.value;
      }
      batch := batch[j := message];
      if IsThreadRoot(message) {
        var k := |progress.replies|;
        progress := progress.(replies := progress.replies + [ChannelReplies(ThreadTs(message), channelId)]);
        match Answer(replies, k) {
          case Stopped(why) =>
            return Halt(why, progress);
          case Records(items) =>
            batch := batch + items;
        }
      }
      j := j + 1;
    }
    return Go(batch, progress);
  }

  /** The rewrite applied to every message in order; the first one it cannot
      rewrite ends the run. */
  function RedactAll(ms: seq<Json>, skipFiles: bool): Result<seq<Json>> {
    if ms == [] then Success([])
    else
      var m := Rewrite(ms[0], skipFiles);
      if m.Failure? then Failure(m.why)
      else match RedactAll(ms[1..], skipFiles)
        case Failure(why) => Failure(why)
        case Success(rest) => Success([m.value] + rest)
  }

  /** One replies query per thread root of ms, in order, duplicates kept. */
  function RootQueries(ms: seq<Json>, channelId: Json): seq<Query> {
    if ms == [] then []
    else
      (if IsThreadRoot(ms[0]) then [ChannelReplies(ThreadTs(ms[0]), channelId)] else [])
      + RootQueries(ms[1..], channelId)
  }

  /** The records the answers lo .. hi - 1 of an oracle hand back, in order. */
  function Gathered(answers: seq<Pagination>, lo: nat, hi: nat): seq<Json>
    decreases hi - lo
  {
    if lo >= hi then []
    else (if lo < |answers| && answers[lo].Done? then answers[lo].items else []) + Gathered(answers, lo + 1, hi)
  }

  /** The answers lo .. hi - 1 of an oracle exist and are all record lists. */
  ghost predicate AllDone(answers: seq<Pagination>, lo: nat, hi: nat) {
    && (lo < hi ==> hi <= |answers|)
    && forall k :: lo <= k < hi ==> answers[k].Done?
  }

  /** An answer that is a record list, followed by answers that all are. */
  lemma GatheredStep(answers: seq<Pagination>, lo: nat, hi: nat, items: seq<Json>)
    requires lo < hi
    requires Answer(answers, lo) == Records(items)
    requires AllDone(answers, lo + 1, hi)
    ensures AllDone(answers, lo, hi)
    ensures Gathered(answers, lo, hi) == items + Gathered(answers, lo + 1, hi)
  {
    assert lo < |answers| && answers[lo].Done? && answers[lo].items == items;
  }

  /** The shape of a finished splice from entry j: every message rewritten,
      one replies query per thread root, every answer consumed a list, and
      the batch the rewritten messages followed by those lists. */
  ghost predicate Shaped(n: nat, j: nat, batch: seq<Json>, channelId: Json, skipFiles: bool,
                         replies: seq<Pagination>, at: Progress, r: Run<seq<Json>>)
    requires j <= n <= |batch|
  {
    var red := RedactAll(batch[j..n], skipFiles);
    var r0 := |at.replies|;
    var r1 := |r.at.replies|;
    && r.Go? && red.Success?
    && r.at.replies == at.replies + RootQueries(red.value, channelId)
    && r.at.histories == at.histories && r.at.saved == at.saved
    && AllDone(replies, r0, r1)
    && r.value == batch[..j] + red.value + batch[n..] + Gathered(replies, r0, r1)
  }

  lemma RedactAllStep(batch: seq<Json>, j: nat, n: nat, m: Json, skipFiles: bool, tail: seq<Json>)
    requires j < n <= |batch|
    requires Rewrite(batch[j], skipFiles) == Success(m)
    requires RedactAll(batch[j + 1..n], skipFiles) == Success(tail)
    ensures RedactAll(batch[j..n], skipFiles) == Success([m] + tail)
  {
    assert batch[j..n][1..] == batch[j + 1..n];
    assert batch[j..n][0] == batch[j];
  }

  lemma RootQueriesStep(m: Json, tail: seq<Json>, channelId: Json)
    ensures RootQueries([m] + tail, channelId)
         == (if IsThreadRoot(m) then [ChannelReplies(ThreadTs(m), channelId)] else [])
            + RootQueries(tail, channelId)
  {
    assert ([m] + tail)[1..] == tail;
  }

  /** The batch after rewriting entry j and appending the replies `items`,
      seen from entry j + 1, is the batch seen from entry j. */
  lemma ConcatStep(batch: seq<Json>, j: nat, n: nat, m: Json, tail: seq<Json>, items: seq<Json>, rest: seq<Json>)
    requires j < n <= |batch|
    ensures var b := batch[j := m] + items;
      && b[j + 1..n] == batch[j + 1..n]
      && b[..j + 1] + tail + b[n..] + rest == batch[..j] + ([m] + tail) + batch[n..] + (items + rest)
  {
    var b := batch[j := m] + items;
    assert b[j + 1..n] == batch[j + 1..n];
    assert b[..j + 1] == batch[..j] + [m];
    assert b[n..] == batch[n..] + items;
  }

  /** The induction step for a message that is not a thread root. */
  lemma ShapedStepPlain(n: nat, j: nat, batch: seq<Json>, m: Json, channelId: Json, skipFiles: bool,
                        replies: seq<Pagination>, at: Progress, r: Run<seq<Json>>)
    requires j < n <= |batch|
    requires Rewrite(batch[j], skipFiles) == Success(m)
    requires !IsThreadRoot(m)
    requires Shaped(n, j + 1, batch[j := m] + [], channelId, skipFiles, replies, at, r)
    ensures Shaped(n, j, batch, channelId, skipFiles, replies, at, r)
  {
    var b := batch[j := m] + [];
    ConcatStep(batch, j, n, m, RedactAll(b[j + 1..n], skipFiles).value, [],
               Gathered(replies, |at.replies|, |r.at.replies|));
    var tail := RedactAll(batch[j + 1..n], skipFiles).value;
    RedactAllStep(batch, j, n, m, skipFiles, tail);
    RootQueriesStep(m, tail, channelId);
  }

  /** The induction step for a thread root whose replies came back. */
  lemma ShapedStepRoot(n: nat, j: nat, batch: seq<Json>, m: Json, channelId: Json, skipFiles: bool,
                       replies: seq<Pagination>, at: Progress, items: seq<Json>, r: Run<seq<Json>>)
    requires j < n <= |batch|
    requires Rewrite(batch[j], skipFiles) == Success(m)
    requires IsThreadRoot(m)
    requires Answer(replies, |at.replies|) == Records(items)
    requires Shaped(n, j + 1, batch[j := m] + items, channelId, skipFiles, replies,
                    at.(replies := at.replies + [ChannelReplies(ThreadTs(m), channelId)]), r)
    ensures Shaped(n, j, batch, channelId, skipFiles, replies, at, r)
  {
    var b := batch[j := m] + items;
    var r0 := |at.replies|;
    var r1 := |r.at.replies|;
    ConcatStep(batch, j, n, m, RedactAll(b[j + 1..n], skipFiles).value, items,
               Gathered(replies, r0 + 1, r1));
    var tail := RedactAll(batch[j + 1..n], skipFiles).value;
    RedactAllStep(batch, j, n, m, skipFiles, tail);
    RootQueriesStep(m, tail, channelId);
    assert |r.at.replies| >= r0 + 1;
    GatheredStep(replies, r0, r1, items);
  }

  lemma {:induction false} SpliceShape(n: nat, j: nat, batch: seq<Json>, channelId: Json, skipFiles: bool,
                                       replies: seq<Pagination>, at: Progress)
    requires j <= n <= |batch|
    requires Splice(n, j, batch, channelId, skipFiles, replies, at).Go?
    decreases n - j
    ensures Shaped(n, j, batch, channelId, skipFiles, replies, at,
                   Splice(n, j, batch, channelId, skipFiles, replies, at))
  {
    var r := Splice(n, j, batch, channelId, skipFiles, replies, at);
    if j == n {
      assert batch[j..n] == [];
      assert batch == batch[..j] + batch[n..];
    } else {
      var m := Rewrite(batch[j], skipFiles).value;
      if !IsThreadRoot(m) {
        assert batch[j := m] + [] == batch[j := m];
        SpliceShape(n, j + 1, batch[j := m], channelId, skipFiles, replies, at);
        ShapedStepPlain(n, j, batch, m, channelId, skipFiles, replies, at, r);
      } else {
        var at' := at.(replies := at.replies + [ChannelReplies(ThreadTs(m), channelId)]);
        var items := Answer(replies, |at.replies|).items;
        SpliceShape(n, j + 1, batch[j := m] + items, channelId, skipFiles, replies, at');
        ShapedStepRoot(n, j, batch, m, channelId, skipFiles, replies, at, items, r);
      }
    }
  }

  /** A window's batch is its history list (rewritten when files are
      skipped) followed by the replies of each thread root, in history
      order, one replies query per root: a message with a subtype asks for
      none, and a thread's root message is not removed from its replies. */
  lemma WindowBatchShape(history: seq<Json>, channelId: Json, skipFiles: bool,
                         replies: seq<Pagination>, at: Progress)
    requires Splice(|history|, 0, history, channelId, skipFiles, replies, at).Go?
    ensures var r := Splice(|history|, 0, history, channelId, skipFiles, replies, at);
      var red := RedactAll(history, skipFiles);
      var r0 := |at.replies|;
      var r1 := |r.at.replies|;
      && red.Success?
      && r.at.replies == at.replies + RootQueries(red.value, channelId)
      && AllDone(replies, r0, r1)
      && r.value == red.value + Gathered(replies, r0, r1)
  {
    SpliceShape(|history|, 0, history, channelId, skipFiles, replies, at);
    assert history[0..|history|] == history;
    assert history[..0] == [] && history[|history|..] == [];
  }

  /** Two copies of a thread root ask twice for the same replies. */
  lemma RootsNotDeduplicated(m: Json, channelId: Json)
    requires IsThreadRoot(m)
    ensures RootQueries([m, m], channelId)
         == [ChannelReplies(ThreadTs(m), channelId), ChannelReplies(ThreadTs(m), channelId)]
  {
    var q := ChannelReplies(ThreadTs(m), channelId);
    assert [m][1..] == [];
    assert RootQueries([m], channelId) == [q];
    assert [m, m][1..] == [m];
  }

  // ---- the windows of one channel (exporter.py:246-268) ---------------------

  /** The day windows from `start` while start < now: fetch, splice, save if
      non-empty, advance by one day. */
  function Windows(channelId: Json, name: Json, start: int, now: int, skipFiles: bool,
                   histories: seq<Pagination>, replies: seq<Pagination>, at: Progress): Run<()>
    decreases now - start
  {
    if start >= now then Go((), at)
    else
      var q := ChannelHistory(channelId, JStr(FloatText(start)), JStr(FloatText(start + Day)));
      var at1 := at.(histories := at.histories + [q]);
      match Answer(histories, |at.histories|)
      case Stopped(why) => Halt(why, at1)
      case Records(history) =>
        match Splice(|history|, 0, history, channelId, skipFiles, replies, at1)
        case Halt(why, at2) => Halt(why, at2)
        case Go(batch, at2) =>
          var at3 := if batch != [] then at2.(saved := at2.saved + [Batch(name, start, batch)]) else at2;
          Windows(channelId, name, start + Day, now, skipFiles, histories, replies, at3)
  }

  method ExportChannel(channelId: Json, name: Json, created: int, now: int, skipFiles: bool,
                       histories: seq<Pagination>, replies: seq<Pagination>, at: Progress)
    returns (r: Run<()>)
    ensures r == Windows(channelId, name, created, now, skipFiles, histories, replies, at)
  {
    var start := created;
    var progress := at;
    while start < now
      invariant Windows(channelId, name, created, now, skipFiles, histories, replies, at)
             == Windows(channelId, name, start, now, skipFiles, histories, replies, progress)
      decreases now - start
    {
      var end := start + Day;
      var k := |progress.histories|;
      progress := progress.(histories := progress.histories
                              + [ChannelHistory(channelId, JStr(FloatText(start)), JStr(FloatText(end)))]);
      var history: seq<Json>;
      match Answer(histories, k) {
        case Stopped(why) =>
          return Halt(why, progress);
        case Records(items) =>
          history := items;
      }
      var w := SpliceThreads(history, channelId, skipFiles, replies, progress);
      if w.Halt? {
        return Halt(w.why, w.at);
      }
      progress := w.at;
      if w.value != [] {
        progress := progress.(saved := progress.saved + [Batch(name, start, w.value)]);
      }
      start := start + Day;
    }
    return Go((), progress);
  }

  /** ceil((now - start) / 86400) when now > start, else 0. */
  function WindowCount(start: int, now: int): nat {
    if now <= start then 0 else (now - start + Day - 1) / Day
  }

  /** The history query of the window that starts at `start`. */
  function HistoryQuery(channelId: Json, start: int): Query {
    ChannelHistory(channelId, JStr(FloatText(start)), JStr(FloatText(start + Day)))
  }

  lemma WindowCountStep(start: int, now: int)
    requires start < now
    ensures WindowCount(start, now) == 1 + WindowCount(start + Day, now)
  {
    var d := now - start;
    if d <= Day {
      assert (d + Day - 1) / Day == 1;
    } else {
      assert (d + Day - 1) / Day == 1 + (d - Day + Day - 1) / Day;
    }
  }

  /** The history queries of the windows from start to now, one per day. */
  function HistoryQueries(channelId: Json, start: int, now: int): (qs: seq<Query>)
    decreases now - start
    ensures |qs| == WindowCount(start, now)
  {
    if start >= now then []
    else
      WindowCountStep(start, now);
      [HistoryQuery(channelId, start)] + HistoryQueries(channelId, start + Day, now)
  }

  /** The window count is the ceiling of the span over one day. */
  lemma WindowCountIsCeiling(start: int, now: int)
    requires start < now
    ensures (WindowCount(start, now) - 1) * Day < now - start <= WindowCount(start, now) * Day
  {
  }

  /** The k-th window starts k days after the first. */
  lemma {:induction false} HistoryQueryAt(channelId: Json, start: int, now: int, k: nat)
    requires k < WindowCount(start, now)
    decreases k
    ensures HistoryQueries(channelId, start, now)[k] == HistoryQuery(channelId, start + k * Day)
  {
    if k > 0 {
      WindowCountStep(start, now);
      var qs := HistoryQueries(channelId, start, now);
      assert qs[k] == HistoryQueries(channelId, start + Day, now)[k - 1];
      HistoryQueryAt(channelId, start + Day, now, k - 1);
      assert start + k * Day == (start + Day) + (k - 1) * Day;
    }
  }

  /** A channel created 200000 seconds before the clock reading has three
      windows, the last one only partly elapsed. */
  lemma ThreeWindows(t0: int)
    ensures WindowCount(t0, t0 + 200000) == 3
    ensures t0 + 2 * Day < t0 + 200000 < t0 + 3 * Day
  {
  }

  /** A window's query names [t, t + 86400] in text the server reads back
      as exactly those seconds. */
  lemma WindowBounds(channelId: Json, t: int)
    ensures var p := HistoryQuery(channelId, t).params;
      && "oldest" in p && p["oldest"].JStr? && ParseFloatText(p["oldest"].s) == Some(t)
      && "latest" in p && p["latest"].JStr? && ParseFloatText(p["latest"].s) == Some(t + Day)
  {
    FloatTextRoundTrip(t);
    FloatTextRoundTrip(t + Day);
  }

  /** The k-th history query of a channel names the seconds
      start + k * 86400 and start + (k + 1) * 86400. */
  lemma HistoryBounds(channelId: Json, start: int, now: int, k: nat)
    requires k < WindowCount(start, now)
    ensures var p := HistoryQueries(channelId, start, now)[k].params;
      && "oldest" in p && p["oldest"].JStr? && ParseFloatText(p["oldest"].s) == Some(start + k * Day)
      && "latest" in p && p["latest"].JStr? && ParseFloatText(p["latest"].s) == Some(start + (k + 1) * Day)
  {
    HistoryQueryAt(channelId, start, now, k);
    WindowBounds(channelId, start + k * Day);
    assert start + k * Day + Day == start + (k + 1) * Day;
  }

  /** A channel's export that runs to the end asks for exactly one history
      window per day from its creation while start < now, in order. */
  lemma {:induction false} WindowsAskEveryDay(channelId: Json, name: Json, start: int, now: int,
                                              skipFiles: bool, histories: seq<Pagination>,
                                              replies: seq<Pagination>, at: Progress)
    requires Windows(channelId, name, start, now, skipFiles, histories, replies, at).Go?
    decreases now - start
    ensures var r := Windows(channelId, name, start, now, skipFiles, histories, replies, at);
      r.at.histories == at.histories + HistoryQueries(channelId, start, now)
  {
    if start < now {
      var at1 := at.(histories := at.histories + [HistoryQuery(channelId, start)]);
      var history := Answer(histories, |at.histories|).items;
      SpliceShape(|history|, 0, history, channelId, skipFiles, replies, at1);
      var w := Splice(|history|, 0, history, channelId, skipFiles, replies, at1);
      var at3 := if w.value != [] then w.at.(saved := w.at.saved + [Batch(name, start, w.value)]) else w.at;
      WindowsAskEveryDay(channelId, name, start + Day, now, skipFiles, histories, replies, at3);
    }
  }

  predicate AllNonEmpty(saved: seq<Batch>) {
    forall k :: 0 <= k < |saved| ==> saved[k].messages != []
  }

  lemma {:induction false} SpliceKeepsSaved(n: nat, j: nat, batch: seq<Json>, channelId: Json, skipFiles: bool,
                                            replies: seq<Pagination>, at: Progress)
    requires j <= n <= |batch|
    decreases n - j
    ensures Splice(n, j, batch, channelId, skipFiles, replies, at).at.saved == at.saved
  {
    if j < n {
      var m := Rewrite(batch[j], skipFiles);
      if m.Success? {
        var b := batch[j := m.value];
        if !IsThreadRoot(m.value) {
          SpliceKeepsSaved(n, j + 1, b, channelId, skipFiles, replies, at);
        } else {
          var at' := at.(replies := at.replies + [ChannelReplies(ThreadTs(m.value), channelId)]);
          var a := Answer(replies, |at.replies|);
          if a.Records? {
            SpliceKeepsSaved(n, j + 1, b + a.items, channelId, skipFiles, replies, at');
          }
        }
      }
    }
  }

  /** Saving only appends, and only non-empty batches: whether the channel's
      export ends or stops, the files saved before are still there and
      every file it added holds at least one record. */
  lemma {:induction false} WindowsSaveNonEmpty(channelId: Json, name: Json, start: int, now: int,
                                               skipFiles: bool, histories: seq<Pagination>,
                                               replies: seq<Pagination>, at: Progress)
    decreases now - start
    ensures var r := Windows(channelId, name, start, now, skipFiles, histories, replies, at);
      && |at.saved| <= |r.at.saved| && r.at.saved[..|at.saved|] == at.saved
      && forall k :: |at.saved| <= k < |r.at.saved| ==> r.at.saved[k].messages != []
  {
    if start < now {
      var q := ChannelHistory(channelId, JStr(FloatText(start)), JStr(FloatText(start + Day)));
      var at1 := at.(histories := at.histories + [q]);
      var a := Answer(histories, |at.histories|);
      if a.Records? {
        SpliceKeepsSaved(|a.items|, 0, a.items, channelId, skipFiles, replies, at1);
        var w := Splice(|a.items|, 0, a.items, channelId, skipFiles, replies, at1);
        if w.Go? {
          var at3 := if w.value != [] then w.at.(saved := w.at.saved + [Batch(name, start, w.value)]) else w.at;
          WindowsSaveNonEmpty(channelId, name, start + Day, now, skipFiles, histories, replies, at3);
          var r := Windows(channelId, name, start + Day, now, skipFiles, histories, replies, at3);
          assert r.at.saved[..|at3.saved|] == at3.saved;
          assert at3.saved[..|at.saved|] == at.saved;
          assert r.at.saved[..|at.saved|] == r.at.saved[..|at3.saved|][..|at.saved|];
        }
      }
    }
  }

  /** The first window's batch is saved exactly when it is non-empty: then
      it is the next file, under the channel's name and the window's start;
      an empty batch saves nothing and the export goes on with the next day. */
  lemma WindowSavesItsBatch(channelId: Json, name: Json, start: int, now: int, skipFiles: bool,
                            histories: seq<Pagination>, replies: seq<Pagination>, at: Progress,
                            history: seq<Json>, batch: seq<Json>, at2: Progress)
    requires start < now
    requires Answer(histories, |at.histories|) == Records(history)
    requires Splice(|history|, 0, history, channelId, skipFiles, replies,
                    at.(histories := at.histories + [HistoryQuery(channelId, start)])) == Go(batch, at2)
    ensures var r := Windows(channelId, name, start, now, skipFiles, histories, replies, at);
      && (batch != [] ==> |at.saved| < |r.at.saved| && r.at.saved[|at.saved|] == Batch(name, start, batch))
      && (batch == [] ==> at2.saved == at.saved
                          && r == Windows(channelId, name, start + Day, now, skipFiles, histories, replies, at2))
  {
    var at1 := at.(histories := at.histories + [HistoryQuery(channelId, start)]);
    SpliceKeepsSaved(|history|, 0, history, channelId, skipFiles, replies, at1);
    if batch != [] {
      var at3 := at2.(saved := at2.saved + [Batch(name, start, batch)]);
      WindowsSaveNonEmpty(channelId, name, start + Day, now, skipFiles, histories, replies, at3);
      var r := Windows(channelId, name, start + Day, now, skipFiles, histories, replies, at3);
      assert r.at.saved[|at.saved|] == r.at.saved[..|at3.saved|][|at.saved|];
    }
  }

  /** The files saved[from..] are in directory `name`, each named after a
      window start start + k * 86400 before now, in increasing order. */
  ghost predicate InWindows(saved: seq<Batch>, from: nat, name: Json, start: int, now: int) {
    && from <= |saved|
    && (forall k :: from <= k < |saved| ==>
          && saved[k].dir == name
          && start <= saved[k].day < now
          && (saved[k].day - start) % Day == 0)
    && (forall k, l :: from <= k < l < |saved| ==> saved[k].day < saved[l].day)
  }

  /** One window's file, if any, in front of the later windows' files. */
  lemma InWindowsStep(saved: seq<Batch>, mid: seq<Batch>, before: seq<Batch>, name: Json, start: int, now: int)
    requires start < now
    requires |before| <= |mid| <= |before| + 1
    requires |mid| <= |saved| && saved[..|mid|] == mid && mid[..|before|] == before
    requires |mid| > |before| ==> mid[|before|].dir == name && mid[|before|].day == start
    requires InWindows(saved, |mid|, name, start + Day, now)
    ensures InWindows(saved, |before|, name, start, now)
  {
    forall k | |before| <= k < |saved|
      ensures saved[k].dir == name && start <= saved[k].day < now
      ensures (saved[k].day - start) % Day == 0
    {
      if k < |mid| {
        assert saved[k] == saved[..|mid|][k];
      } else {
        ShiftByDay(saved[k].day - start);
      }
    }
    forall k, l | |before| <= k < l < |saved|
      ensures saved[k].day < saved[l].day
    {
      if k < |mid| {
        assert saved[k] == saved[..|mid|][k];
      }
    }
  }

  lemma ShiftByDay(d: int)
    requires (d - Day) % Day == 0
    ensures d % Day == 0
  {
    assert d == (d - Day) + Day;
  }

  /** Files a channel's export adds are in the channel's directory, each
      named after the start of one of its windows, in window order. */
  lemma {:induction false} WindowsSaveInOrder(channelId: Json, name: Json, start: int, now: int,
                                              skipFiles: bool, histories: seq<Pagination>,
                                              replies: seq<Pagination>, at: Progress)
    decreases now - start
    ensures var r := Windows(channelId, name, start, now, skipFiles, histories, replies, at);
      InWindows(r.at.saved, |at.saved|, name, start, now)
  {
    if start < now {
      var at1 := at.(histories := at.histories + [HistoryQuery(channelId, start)]);
      var a := Answer(histories, |at.histories|);
      if a.Records? {
        SpliceKeepsSaved(|a.items|, 0, a.items, channelId, skipFiles, replies, at1);
        var w := Splice(|a.items|, 0, a.items, channelId, skipFiles, replies, at1);
        if w.Go? {
          var at3 := if w.value != [] then w.at.(saved := w.at.saved + [Batch(name, start, w.value)]) else w.at;
          WindowsSaveInOrder(channelId, name, start + Day, now, skipFiles, histories, replies, at3);
          WindowsSaveNonEmpty(channelId, name, start + Day, now, skipFiles, histories, replies, at3);
          var r := Windows(channelId, name, start + Day, now, skipFiles, histories, replies, at3);
          assert at3.saved[..|at.saved|] == at.saved;
          InWindowsStep(r.at.saved, at3.saved, at.saved, name, start, now);
        }
      }
    }
  }

  // ---- the channel loop (exporter.py:242-245) -------------------------------

  datatype Channel = Channel(id: Json, name: Json, created: int)

  /** channel["id"], channel["name"] and the creation time; a missing field
      raises, and a creation time that is not an integer is left out as
      fatal too. */
  function ChannelOf(c: Json): (r: Result<Channel>)
    ensures r.Success? <==> c.JObj? && "id" in c.fields && "name" in c.fields
                            && "created" in c.fields && c.fields["created"].JNum?
    ensures r.Success? ==> r.value == Channel(c.fields["id"], c.fields["name"], c.fields["created"].n)
    ensures r.Failure? ==> r.why == BadChannel(c)
  {
    if c.JObj? && "id" in c.fields && "name" in c.fields && "created" in c.fields && c.fields["created"].JNum?
    then Success(Channel(c.fields["id"], c.fields["name"], c.fields["created"].n))
    else Failure(BadChannel(c))
  }

  /** The channels from index j; clock[j] is the time.time() reading taken
      for channel j, in whole seconds rounded up. */
  function Channels(channels: seq<Json>, j: nat, clock: seq<int>, skipFiles: bool,
                    histories: seq<Pagination>, replies: seq<Pagination>, at: Progress): Run<()>
    requires j <= |channels| == |clock|
    decreases |channels| - j
  {
    if j == |channels| then Go((), at)
    else match ChannelOf(channels[j])
      case Failure(why) => Halt(Exit(why), at)
      case Success(c) =>
        match Windows(c.id, c.name, c.created, clock[j], skipFiles, histories, replies, at)
        case Halt(why, at') => Halt(why, at')
        case Go(_, at') => Channels(channels, j + 1, clock, skipFiles, histories, replies, at')
  }

  method ExportAll(channels: seq<Json>, clock: seq<int>, skipFiles: bool,
                   histories: seq<Pagination>, replies: seq<Pagination>)
    returns (r: Run<()>)
    requires |clock| == |channels|
    ensures r == Channels(channels, 0, clock, skipFiles, histories, replies, Progress([], [], []))
  {
    var progress := Progress([], [], []);
    for j := 0 to |channels|
      invariant Channels(channels, 0, clock, skipFiles, histories, replies, Progress([], [], []))
             == Channels(channels, j, clock, skipFiles, histories, replies, progress)
    {
      var c := ChannelOf(channels[j]);
      if c.Failure? {
        return Halt(Exit(c.why), progress);
      }
      var w := ExportChannel(c.value.id, c.value.name, c.value.created, clock[j], skipFiles,
                             histories, replies, progress);
      if w.Halt? {
        return w;
      }
      progress := w.at;
    }
    return Go((), progress);
  }

  /** The history queries of the channels from index j, in channel order. */
  function ChannelQueries(channels: seq<Json>, j: nat, clock: seq<int>): seq<Query>
    requires j <= |channels| == |clock|
    decreases |channels| - j
  {
    if j == |channels| then []
    else
      (match ChannelOf(channels[j])
       case Success(c) => HistoryQueries(c.id, c.created, clock[j])
       case Failure(_) => [])
      + ChannelQueries(channels, j + 1, clock)
  }

  /** An export that runs to the end asks for every channel's windows, one
      channel after the other in list order. */
  lemma {:induction false} ChannelsAskInOrder(channels: seq<Json>, j: nat, clock: seq<int>, skipFiles: bool,
                                              histories: seq<Pagination>, replies: seq<Pagination>,
                                              at: Progress)
    requires j <= |channels| == |clock|
    requires Channels(channels, j, clock, skipFiles, histories, replies, at).Go?
    decreases |channels| - j
    ensures Channels(channels, j, clock, skipFiles, histories, replies, at).at.histories
         == at.histories + ChannelQueries(channels, j, clock)
  {
    if j < |channels| {
      var c := ChannelOf(channels[j]).value;
      WindowsAskEveryDay(c.id, c.name, c.created, clock[j], skipFiles, histories, replies, at);
      var w := Windows(c.id, c.name, c.created, clock[j], skipFiles, histories, replies, at);
      ChannelsAskInOrder(channels, j + 1, clock, skipFiles, histories, replies, w.at);
      var qs := HistoryQueries(c.id, c.created, clock[j]);
      assert at.histories + qs + ChannelQueries(channels, j + 1, clock)
          == at.histories + (qs + ChannelQueries(channels, j + 1, clock));
    }
  }

  /** Every per-window file the whole export saves holds at least one record, whether
      the export ends or stops early. */
  lemma {:induction false} ExportSavesNonEmpty(channels: seq<Json>, j: nat, clock: seq<int>, skipFiles: bool,
                                               histories: seq<Pagination>, replies: seq<Pagination>,
                                               at: Progress)
    requires j <= |channels| == |clock|
    requires AllNonEmpty(at.saved)
    decreases |channels| - j
    ensures AllNonEmpty(Channels(channels, j, clock, skipFiles, histories, replies, at).at.saved)
  {
    if j < |channels| {
      var c := ChannelOf(channels[j]);
      if c.Success? {
        WindowsSaveNonEmpty(c.value.id, c.value.name, c.value.created, clock[j], skipFiles, histories, replies, at);
        var w := Windows(c.value.id, c.value.name, c.value.created, clock[j], skipFiles, histories, replies, at);
        assert AllNonEmpty(w.at.saved) by {
          forall k | 0 <= k < |w.at.saved| ensures w.at.saved[k].messages != [] {
            if k < |at.saved| {
              assert w.at.saved[k] == w.at.saved[..|at.saved|][k];
            }
          }
        }
        if w.Go? {
          ExportSavesNonEmpty(channels, j + 1, clock, skipFiles, histories, replies, w.at);
        }
      }
    }
  }
}
