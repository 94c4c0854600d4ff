/** A whole takeoff job: plan, run the map phase under an arbitrary scheduler, reduce
    (service/jobs/orchestrator.py, service/takeoff/pipeline_adapter.py). */
module Orchestrator {
  import opened Sequences
  import opened Planner
  import opened Extraction
  import opened Dedup
  import opened ShardProtocol

  type Partial = seq<ScheduleItem>

  datatype ReduceReport = ReduceReport(
    items: seq<ScheduleItem>, shardsMerged: nat, failedShards: seq<ShardWindow>, incomplete: bool)

  datatype JobOutcome =
    | Single(items: Result<seq<ScheduleItem>, AccessError>)
    | Sharded(windows: seq<ShardWindow>, report: ReduceReport)
    | Rejected(error: PlanError)

  /** The windows whose rows ended dead. */
  ghost function DeadSet(shards: seq<Shard>): (dead: set<nat>)
  {
    set i: nat | i < |shards| && shards[i].row.status == Dead
  }

  ghost function DeadWindows(ws: seq<ShardWindow>, dead: set<nat>): (gone: seq<ShardWindow>)
  {
    if ws == [] then []
    else
      var w := ws[|ws| - 1];
      if w.index in dead then DeadWindows(ws[..|ws| - 1], dead) + [w] else DeadWindows(ws[..|ws| - 1], dead)
  }

  lemma {:induction false} NextWindow(ws: seq<ShardWindow>, i: nat, dead: set<nat>)
    requires i < |ws|
    ensures DeadWindows(ws[..i + 1], dead)
         == if ws[i].index in dead then DeadWindows(ws[..i], dead) + [ws[i]] else DeadWindows(ws[..i], dead)
    ensures Survivors(ws[..i + 1], dead)
         == if ws[i].index in dead then Survivors(ws[..i], dead) else Survivors(ws[..i], dead) + [ws[i]]
  {
    assert ws[..i + 1][..i] == ws[..i];
  }

  /** Every window is merged or reported failed, never both: together they are the plan. */
  lemma {:induction false} MergedOrFailed(ws: seq<ShardWindow>, dead: set<nat>)
    ensures |Survivors(ws, dead)| + |DeadWindows(ws, dead)| == |ws|
    ensures multiset(Survivors(ws, dead)) + multiset(DeadWindows(ws, dead)) == multiset(ws)
  {
    if ws != [] {
      SnocSelf(ws);
      MergedOrFailed(ws[..|ws| - 1], dead);
    }
  }

  /** Rows, queue messages and partials of one sharded job. Each method is one transaction
      or queue operation; `View` is the protocol state. */
  class ShardedJob {
    const drawing: Drawing
    const windows: seq<ShardWindow>
    const maxAttempts: int
    const shardCount: nat
    var completedShards: nat
    var shards: seq<Shard>
    var reduceJobs: nat
    var partials: map<nat, Partial>

    ghost function Work(): seq<Partial> { WindowPartials(drawing, windows) }

    ghost function View(): State<Partial>
      reads this
    {
      State(maxAttempts, shardCount, completedShards, shards, reduceJobs, Work(), partials)
    }

    ghost predicate Valid()
      reads this
    {
      Inv(View()) && |windows| == shardCount && NumberedFromZero(windows)
    }

    /** plan_and_dispatch, sharded branch: all rows are committed before any message. */
    constructor (d: Drawing, ws: seq<ShardWindow>, attempts: int)
      requires |ws| >= 1 && NumberedFromZero(ws)
      ensures Valid() && drawing == d && windows == ws && maxAttempts == attempts
      ensures View() == Init(attempts, WindowPartials(d, ws))
    {
      drawing, windows, maxAttempts, shardCount := d, ws, attempts, |ws|;
      completedShards, reduceJobs, partials := 0, 0, map[];
      shards := seq(|ws|, _ => FreshShard(attempts));
      new;
      InitInv(attempts, WindowPartials(d, ws));
      assert View() == Init(attempts, WindowPartials(d, ws));
    }

    /** q.enqueue of one run_shard message. */
    method SendMessage(i: nat)
      requires Valid() && Enabled(View(), Send(i))
      modifies this
      ensures Valid() && View() == Next(old(View()), Send(i))
    {
      ghost var was := View();
      shards := shards[i := shards[i].(delivery := Waiting)];
      assert View() == Next(was, Send(i));
      StepKeepsInv(was, Send(i));
    }

    /** One shard of this job gets this row and this delivery. */
    method PutShard(i: nat, row: Row, delivery: Delivery)
      requires i < |shards|
      modifies this`shards
      ensures shards == old(shards)[i := old(shards)[i].(row := row, delivery := delivery)]
    {
      shards := shards[i := shards[i].(row := row, delivery := delivery)];
    }

    method BeginRow(i: nat)
      requires Enabled(View(), Begin(i))
      modifies this`shards
      ensures View() == Next(old(View()), Begin(i))
    {
      var row := shards[i].row.(status := Running, attempts := shards[i].row.attempts + 1);
      PutShard(i, row, Extracting(row.attempts));
    }

    /** run_shard's first transaction. */
    method StartAttempt(i: nat)
      requires Valid() && Enabled(View(), Begin(i))
      modifies this
      ensures Valid() && View() == Next(old(View()), Begin(i))
    {
      StepKeepsInv(View(), Begin(i));
      BeginRow(i);
    }

    method TryWindow(i: nat, fails: bool, wrote: bool)
      requires Enabled(View(), Upload(i)) && |windows| == shardCount
      modifies this`shards, this`partials
      ensures View() == Next(old(View()), if fails then Catch(i, wrote) else Upload(i))
    {
      if !fails || wrote {
        partials := partials[i := SerialItems(drawing, windows[i].start, windows[i].end)];
      }
      var attempt := shards[i].delivery.attempt;
      PutShard(i, shards[i].row, if fails then Caught(attempt) else Stored(attempt));
    }

    /** The try block: extract one window and upload the partial; `fails` and `wrote` are
        what the environment does to it. */
    method ExtractAndUpload(i: nat, fails: bool, wrote: bool)
      requires Valid() && Enabled(View(), Upload(i))
      modifies this
      ensures Valid()
      ensures View() == Next(old(View()), if fails then Catch(i, wrote) else Upload(i))
    {
      StepKeepsInv(View(), if fails then Catch(i, wrote) else Upload(i));
      TryWindow(i, fails, wrote);
    }

    method MarkShardSucceeded(i: nat)
      requires Valid() && Enabled(View(), MarkSucceeded(i))
      modifies this
      ensures Valid() && View() == Next(old(View()), MarkSucceeded(i))
    {
      ghost var was := View();
      var row := shards[i].row.(status := Succeeded, hasPartialKey := true);
      shards := shards[i := shards[i].(row := row, delivery := Terminal)];
      assert View() == Next(was, MarkSucceeded(i));
      StepKeepsInv(was, MarkSucceeded(i));
    }

    /** The except block: dead on the last attempt, else failed and re-raised. */
    method MarkShardFailed(i: nat)
      requires Valid() && Enabled(View(), MarkFailed(i))
      modifies this
      ensures Valid() && View() == Next(old(View()), MarkFailed(i))
    {
      ghost var was := View();
      var terminal := shards[i].delivery.attempt >= maxAttempts;
      var row := shards[i].row.(status := if terminal then Dead else Failed, hasError := true);
      shards := shards[i := shards[i].(row := row, delivery := if terminal then Terminal else Raising)];
      assert View() == Next(was, MarkFailed(i));
      StepKeepsInv(was, MarkFailed(i));
    }

    /** The queue's answer to a raised exception: redeliver while retries are left, else drop. */
    method AnswerRaise(i: nat)
      requires Enabled(View(), Redeliver(i))
      modifies this
      ensures View() == Next(old(View()), Redeliver(i))
    {
      var left := shards[i].retriesLeft;
      if left > 0 {
        shards := shards[i := shards[i].(delivery := Waiting, retriesLeft := left - 1)];
      } else {
        shards := shards[i := shards[i].(delivery := Dropped)];
      }
    }

    /** No valid job ever reaches the drop: a shard that re-raises has a retry left. */
    method RetryOrDrop(i: nat)
      requires Valid() && Enabled(View(), Redeliver(i))
      modifies this
      ensures Valid() && View() == Next(old(View()), Redeliver(i)) && shards[i].delivery.Waiting?
    {
      ghost var was := View();
      AnswerRaise(i);
      StepKeepsInv(was, Redeliver(i));
      assert ShardInv(shards[i], maxAttempts, shardCount, completedShards);
    }

    /** _finalize_shard, the atomic counter. */
    method BumpCounter(i: nat)
      requires Valid() && Enabled(View(), Bump(i))
      modifies this
      ensures Valid() && View() == Next(old(View()), Bump(i))
    {
      ghost var was := View();
      completedShards := completedShards + 1;
      shards := shards[i := shards[i].(delivery := Counted(completedShards, shardCount))];
      assert View() == Next(was, Bump(i));
      StepKeepsInv(was, Bump(i));
    }

    /** _finalize_shard, the enqueue by the worker that read the full count. */
    method TripReduce(i: nat)
      requires Valid() && Enabled(View(), Trip(i))
      modifies this
      ensures Valid() && View() == Next(old(View()), Trip(i))
    {
      ghost var was := View();
      if shards[i].delivery.finished == shards[i].delivery.total {
        reduceJobs := reduceJobs + 1;
      }
      shards := shards[i := shards[i].(delivery := Returned)];
      assert View() == Next(was, Trip(i));
      StepKeepsInv(was, Trip(i));
    }

    /** One step of worker i, whatever it is. */
    method StepWorker(i: nat, fails: bool, wrote: bool)
      requires Valid() && i < |shards| && shards[i].delivery != Returned
      modifies this
      ensures Valid()
      ensures Remaining(shards) < Remaining(old(shards))
    {
      ghost var was := View();
      assert ShardInv(shards[i], maxAttempts, shardCount, completedShards);
      match shards[i].delivery {
        case Unsent => StepDecreases(was, Send(i)); SendMessage(i);
        case Waiting => StepDecreases(was, Begin(i)); StartAttempt(i);
        case Extracting(_) =>
          StepDecreases(was, if fails then Catch(i, wrote) else Upload(i));
          ExtractAndUpload(i, fails, wrote);
        case Stored(_) => StepDecreases(was, MarkSucceeded(i)); MarkShardSucceeded(i);
        case Caught(_) => StepDecreases(was, MarkFailed(i)); MarkShardFailed(i);
        case Raising => StepDecreases(was, Redeliver(i)); RetryOrDrop(i);
        case Terminal => StepDecreases(was, Bump(i)); BumpCounter(i);
        case Counted(_, _) => StepDecreases(was, Trip(i)); TripReduce(i);
      }
    }

    /** The map phase under a scheduler that picks any unfinished worker and any failures.
        It always ends, with every row terminal and one reduce enqueued. */
    method MapPhase()
      requires Valid()
      modifies this
      ensures Valid() && AllReturned(View()) && AllTerminal(View())
      ensures reduceJobs == 1 && completedShards == shardCount
    {
      while exists i: nat :: i < |shards| && shards[i].delivery != Returned
        invariant Valid()
        decreases Remaining(shards)
      {
        var i: nat :| i < |shards| && shards[i].delivery != Returned;
        var fails: bool, wrote: bool := *, *;
        StepWorker(i, fails, wrote);
      }
      ReturnedMeansDone(View());
    }

    /** The object key of this window's own partial. */
    ghost predicate KeyFits(key: nat, w: ShardWindow)
      reads this
    {
      key in partials && partials[key] == SerialItems(drawing, w.start, w.end)
    }

    /** `keys` are the object keys of these windows' partials, in order. */
    ghost predicate KeysMatch(keys: seq<nat>, alive: seq<ShardWindow>)
      reads this
    {
      |keys| == |alive| && forall k :: 0 <= k < |keys| ==> KeyFits(keys[k], alive[k])
    }

    /** A terminal row is dead, or succeeded with its partial in the store. */
    lemma {:induction false} FinishedShard(i: nat)
      requires Valid() && AllTerminal(View()) && i < |shards|
      ensures i < |windows| && windows[i].index == i
      ensures shards[i].row.status == Dead <==> i in DeadSet(shards)
      ensures shards[i].row.status != Dead ==>
        && shards[i].row.status == Succeeded && shards[i].row.hasPartialKey && i in partials
        && partials[i] == SerialItems(drawing, windows[i].start, windows[i].end)
    {
      assert IsTerminal(shards[i].row.status);
      assert ShardInv(shards[i], maxAttempts, shardCount, completedShards);
      if shards[i].row.status == Succeeded {
        StoredPartial(i);
      }
    }

    lemma {:induction false} StoredPartial(i: nat)
      requires Valid() && i < |shards| && shards[i].row.status == Succeeded
      ensures i < |windows| && i in partials
      ensures partials[i] == SerialItems(drawing, windows[i].start, windows[i].end)
    {
      assert StoreInv(View()) && HasUploaded(shards[i]);
    }

    lemma {:induction false} KeysSnoc(keys: seq<nat>, alive: seq<ShardWindow>, key: nat, w: ShardWindow)
      requires KeysMatch(keys, alive) && KeyFits(key, w)
      ensures KeysMatch(keys + [key], alive + [w])
    {
    }

    /** Row i goes to the keys or to the failed windows. */
    lemma {:induction false} RowRead(i: nat, keys: seq<nat>, dead: set<nat>)
      requires Valid() && AllTerminal(View()) && i < |shards| && dead == DeadSet(shards)
      requires KeysMatch(keys, Survivors(windows[..i], dead))
      ensures i < |windows|
      ensures shards[i].row.status == Dead ==>
        && DeadWindows(windows[..i + 1], dead) == DeadWindows(windows[..i], dead) + [windows[i]]
        && KeysMatch(keys, Survivors(windows[..i + 1], dead))
      ensures shards[i].row.status != Dead ==>
        && shards[i].row.status == Succeeded && shards[i].row.hasPartialKey
        && DeadWindows(windows[..i + 1], dead) == DeadWindows(windows[..i], dead)
        && KeysMatch(keys + [i], Survivors(windows[..i + 1], dead))
    {
      FinishedShard(i);
      NextWindow(windows, i, dead);
      if shards[i].row.status != Dead {
        KeysSnoc(keys, Survivors(windows[..i], dead), i, windows[i]);
      }
    }

    /** reduce_job's read of the rows, in shard order. */
    method ReadRows() returns (keys: seq<nat>, failed: seq<ShardWindow>)
      requires Valid() && AllTerminal(View())
      ensures failed == DeadWindows(windows, DeadSet(shards))
      ensures KeysMatch(keys, Survivors(windows, DeadSet(shards)))
    {
      keys, failed := [], [];
      ghost var dead := DeadSet(shards);
      for i := 0 to |shards|
        invariant failed == DeadWindows(windows[..i], dead)
        invariant KeysMatch(keys, Survivors(windows[..i], dead))
      {
        RowRead(i, keys, dead);
        if shards[i].row.status == Succeeded && shards[i].row.hasPartialKey {
          keys := keys + [i];
        }
        if shards[i].row.status == Dead {
          failed := failed + [windows[i]];
        }
      }
      assert windows[..|shards|] == windows;
    }

    method LoadPartials(keys: seq<nat>, ghost alive: seq<ShardWindow>) returns (loaded: seq<Partial>)
      requires KeysMatch(keys, alive)
      ensures loaded == WindowPartials(drawing, alive)
    {
      loaded := [];
      for k := 0 to |keys|
        invariant loaded == WindowPartials(drawing, alive[..k])
      {
        assert alive[..k + 1][..k] == alive[..k];
        assert KeyFits(keys[k], alive[k]);
        loaded := loaded + [partials[keys[k]]];
      }
      assert alive[..|keys|] == alive;
    }

    /** reduce_job. It may run as soon as it is enqueued. */
    method ReduceJob() returns (report: ReduceReport)
      requires Valid() && reduceJobs == 1
      ensures ReportIsRight(report, drawing, windows, DeadSet(shards))
    {
      TriggeredMeansDone(View());
      var keys, failed := ReadRows();
      ghost var dead := DeadSet(shards);
      var loaded := LoadPartials(keys, Survivors(windows, dead));
      var merged := MergePartials(loaded);
      DeadWindowsExist(windows, dead);
      report := ReduceReport(merged, |keys|, failed, |failed| > 0);
    }
  }

  ghost predicate NumberedFromZero(ws: seq<ShardWindow>)
  {
    forall k :: 0 <= k < |ws| ==> ws[k].index == k
  }

  lemma {:induction false} DeadWindowsExist(ws: seq<ShardWindow>, dead: set<nat>)
    ensures DeadWindows(ws, dead) != [] <==> exists k :: 0 <= k < |ws| && ws[k].index in dead
  {
    if ws != [] {
      var n := |ws| - 1;
      DeadWindowsExist(ws[..n], dead);
      if k :| 0 <= k < |ws| && ws[k].index in dead {
        if k < n {
          assert ws[..n][k] == ws[k];
        }
      }
      if k :| 0 <= k < n && ws[..n][k].index in dead {
        assert ws[k] == ws[..n][k];
      }
    }
  }

  /** The artifact merges the live windows, names the dead ones, and is flagged incomplete
      exactly when there are any. */
  ghost predicate ReportIsRight(r: ReduceReport, d: Drawing, ws: seq<ShardWindow>, dead: set<nat>)
  {
    && r.items == FirstWins(Flatten(WindowPartials(d, Survivors(ws, dead))))
    && r.failedShards == DeadWindows(ws, dead)
    && r.shardsMerged == |Survivors(ws, dead)|
    && (r.incomplete <==> exists k :: 0 <= k < |ws| && ws[k].index in dead)
  }

  // ---- the serial run and the whole job ----

  /** Serial extraction takes the submitted range as it is. */
  function SerialRun(d: Drawing, lo: int, hi: int): Result<seq<ScheduleItem>, AccessError>
  {
    if lo < hi && hi > d.pageCount then Failure(PageNotInDocument) else Success(SerialItems(d, lo, hi))
  }

  /** The candidates among the first `count` pages. */
  ghost predicate AreCandidates(d: Drawing, pages: seq<int>, count: nat)
  {
    forall p :: p in pages <==> 0 <= p < count && IsCandidate(d, p)
  }

  lemma {:induction false} CandidatesNext(d: Drawing, pages: seq<int>, i: nat, shown: bool)
    requires AreCandidates(d, pages, i) && (shown <==> IsCandidate(d, i))
    ensures AreCandidates(d, if shown then pages + [i] else pages, i + 1)
  {
    if shown {
      forall p ensures p in pages + [i] <==> p in pages || p == i {
        assert (pages + [i])[|pages|] == i;
      }
    }
  }

  /** The planner's text pass over the whole file. */
  method FindCandidatePages(d: Drawing) returns (pages: seq<int>)
    ensures forall p :: p in pages <==> 0 <= p < d.pageCount && IsCandidate(d, p)
  {
    pages := [];
    for i := 0 to d.pageCount
      invariant AreCandidates(d, pages, i)
    {
      MatchedExactly(d, i, d.registry);
      var shown := Matched(d, i, d.registry) != [];
      CandidatesNext(d, pages, i, shown);
      if shown {
        pages := pages + [i];
      }
    }
  }

  /** The planner clamps the submitted end to the file. */
  function LastPage(d: Drawing, hi: int): int { if hi < d.pageCount then hi else d.pageCount }

  /** The submitted range clamped to the file. */
  function RangeOf(d: Drawing, pageRange: Option<(nat, nat)>): (int, int)
  {
    if pageRange.Some? then (pageRange.value.0, LastPage(d, pageRange.value.1)) else (0, d.pageCount)
  }

  /** The candidate pages of a range. */
  ghost function CandidatePages(d: Drawing, range: (int, int)): set<int>
  {
    set p | range.0 <= p < range.1 && IsCandidate(d, p)
  }

  /** The planner cuts a job into several windows exactly when its candidates exceed the cap. */
  lemma {:induction false} ShardsExactly(d: Drawing, ws: seq<ShardWindow>, candidates: seq<int>, cap: int, lo: int,
                                         hi: int)
    requires cap >= 1 && 0 <= lo && PlanIsRight(ws, candidates, cap, lo, LastPage(d, hi))
    requires forall p :: p in candidates <==> 0 <= p < d.pageCount && IsCandidate(d, p)
    ensures |ws| >= 2 <==> |CandidatePages(d, (lo, LastPage(d, hi)))| > cap
  {
    var last := LastPage(d, hi);
    if lo < last {
      assert CandidatePages(d, (lo, last)) == CandidatesIn(candidates, lo, last);
    } else {
      assert CandidatePages(d, (lo, last)) == {};
    }
  }

  /** plan_and_dispatch to the end of the job, for any submitted page range (or none) and any
      scheduling of the workers. */
  method RunJob(d: Drawing, pageRange: Option<(nat, nat)>, cap: int, maxAttempts: int)
    returns (outcome: JobOutcome)
    ensures outcome.Rejected? <==> cap < 1
    ensures outcome.Sharded? <==> cap >= 1 && |CandidatePages(d, RangeOf(d, pageRange))| > cap
    ensures var lo := if pageRange.Some? then pageRange.value.0 else 0;
      var hi := if pageRange.Some? then pageRange.value.1 else d.pageCount;
      match outcome
      case Single(items) =>
        && items == SerialRun(d, lo, hi)
        && (items.Failure? <==> lo < hi && hi > d.pageCount)
        && (items.Success? ==> Reads(items.value, d, PagesFrom(lo, hi)))
      case Sharded(ws, report) => ShardedOutcome(d, ws, report, cap, lo, hi)
      case Rejected(error) => error == CapBelowOne
  {
    var candidates := FindCandidatePages(d);
    var start := if pageRange.Some? then pageRange.value.0 else 0;
    var stop := if pageRange.Some? then Some(pageRange.value.1) else None;
    var planned := PlanShardWindows(candidates, d.pageCount, cap, start, stop);
    if planned.Failure? {
      return Rejected(planned.error);
    }
    var windows := planned.value;
    ghost var hi := if stop.Some? then stop.value else d.pageCount;
    ShardsExactly(d, windows, candidates, cap, start, hi);
    if |windows| <= 1 {
      SerialReads(d, start, hi);
      var items, _ := ExtractScheduleItems(d, start, if stop.Some? then stop.value else d.pageCount);
      return Single(items);
    }
    var job := new ShardedJob(d, windows, maxAttempts);
    job.MapPhase();
    var report := job.ReduceJob();
    ShardedIsRight(d, windows, report, DeadSet(job.shards), cap, candidates, start, hi);
    outcome := Sharded(windows, report);
  }

  /** What a sharded job delivers for the range [lo, hi), clamped to the document. */
  ghost predicate ShardedOutcome(d: Drawing, ws: seq<ShardWindow>, r: ReduceReport, cap: int, lo: int, hi: int)
  {
    && |ws| >= 2 && Tiles(ws, lo, LastPage(d, hi))
    && ItemsOutcome(d, ws, r, lo, hi)
    // no worker ever reads the tables of more than cap pages
    && (forall k :: 0 <= k < |ws| ==> |TablePages(d, ws[k])| <= cap)
  }

  ghost predicate ItemsOutcome(d: Drawing, ws: seq<ShardWindow>, r: ReduceReport, lo: int, hi: int)
  {
    var last := LastPage(d, hi);
    && (r.incomplete <==> r.failedShards != [])
    && r.shardsMerged + |r.failedShards| == |ws| && (exists at :: Picked(r.failedShards, ws, at))
    // the list reads the tables of exactly the pages outside the failed windows
    && Reads(r.items, d, PagesOutside(r.failedShards, lo, last))
    // no dead shard: the serial list, and the serial run itself iff the range fits the file
    && (!r.incomplete ==> r.items == SerialItems(d, lo, last))
    && (!r.incomplete ==> (Success(r.items) == SerialRun(d, lo, hi) <==> hi <= d.pageCount))
    // dead shards: exactly the keys seen only in their page ranges are missing
    && (forall key :: !HasKey(r.items, key) <==> LostKey(d, r.failedShards, lo, last, key))
  }

  /** An item of the list carries this schedule and mark. */
  ghost predicate HasKey(items: seq<ScheduleItem>, key: Key)
  {
    exists it :: it in items && it.schedule == key.schedule && it.mark == key.mark
  }

  ghost function PagesOutside(failed: seq<ShardWindow>, lo: int, hi: int): (pages: set<int>)
  {
    set p | p in PagesFrom(lo, hi) && !InWindow(failed, p)
  }

  ghost predicate LostKey(d: Drawing, failed: seq<ShardWindow>, lo: int, hi: int, key: Key)
  {
    forall p :: lo <= p < hi && Yields(d, p, key) ==> InWindow(failed, p)
  }

  ghost predicate InWindow(ws: seq<ShardWindow>, p: int)
  {
    exists k :: 0 <= k < |ws| && ws[k].start <= p < ws[k].end
  }

  /** The pages whose tables the extractor opens in this window. */
  ghost function TablePages(d: Drawing, w: ShardWindow): set<int>
  {
    set p | w.start <= p < w.end && IsCandidate(d, p)
  }

  lemma {:induction false} InWindowSnoc(ws: seq<ShardWindow>, w: ShardWindow, p: int)
    ensures InWindow(ws + [w], p) <==> InWindow(ws, p) || w.start <= p < w.end
  {
    var all := ws + [w];
    if InWindow(ws, p) {
      var k :| 0 <= k < |ws| && ws[k].start <= p < ws[k].end;
      assert all[k] == ws[k];
    }
    if w.start <= p < w.end {
      assert all[|ws|] == w;
    }
    if InWindow(all, p) {
      var k :| 0 <= k < |all| && all[k].start <= p < all[k].end;
      assert k < |ws| ==> ws[k] == all[k];
    }
  }

  lemma {:induction false} InDeadSnoc(ws: seq<ShardWindow>, w: ShardWindow, dead: set<nat>, p: int)
    ensures InDeadWindow(ws + [w], dead, p)
       <==> InDeadWindow(ws, dead, p) || (w.index in dead && w.start <= p < w.end)
  {
    var all := ws + [w];
    if InDeadWindow(ws, dead, p) {
      var k :| 0 <= k < |ws| && ws[k].index in dead && ws[k].start <= p < ws[k].end;
      assert all[k] == ws[k];
    }
    if w.index in dead && w.start <= p < w.end {
      assert all[|ws|] == w;
    }
    if InDeadWindow(all, dead, p) {
      var k :| 0 <= k < |all| && all[k].index in dead && all[k].start <= p < all[k].end;
      assert k < |ws| ==> ws[k] == all[k];
    }
  }

  /** The reported windows are the dead ones. */
  lemma {:induction false} DeadWindowPages(ws: seq<ShardWindow>, dead: set<nat>, p: int)
    ensures InWindow(DeadWindows(ws, dead), p) <==> InDeadWindow(ws, dead, p)
  {
    if ws != [] {
      var n := |ws| - 1;
      DeadWindowPages(ws[..n], dead, p);
      SnocSelf(ws);
      InDeadSnoc(ws[..n], ws[n], dead, p);
      if ws[n].index in dead {
        InWindowSnoc(DeadWindows(ws[..n], dead), ws[n], p);
      }
    }
  }

  lemma {:induction false} NoneDead(ws: seq<ShardWindow>, dead: set<nat>)
    requires forall k :: 0 <= k < |ws| ==> ws[k].index !in dead
    ensures Survivors(ws, dead) == ws
  {
    if ws != [] {
      NoneDead(ws[..|ws| - 1], dead);
      SnocSelf(ws);
    }
  }

  /** Without dead windows the report holds the serial list. */
  lemma {:induction false} CompleteIsSerial(d: Drawing, ws: seq<ShardWindow>, r: ReduceReport, dead: set<nat>,
                                            lo: int, last: int)
    requires Tiles(ws, lo, last) && ReportIsRight(r, d, ws, dead)
    ensures !r.incomplete ==> r.items == SerialItems(d, lo, last)
  {
    if !r.incomplete {
      NoneDead(ws, dead);
      FanOutIsSerial(d, ws, lo, last);
    }
  }

  lemma {:induction false} HeldKeys(xs: seq<ScheduleItem>, key: Key)
    ensures HasKey(FirstWins(xs), key) <==> key in Keys(FirstWins(xs))
  {
    var items := FirstWins(xs);
    FirstWinsDistinct(xs);
    InKeys(items, key);
    if HasKey(items, key) {
      var it :| it in items && it.schedule == key.schedule && it.mark == key.mark;
      var j :| 0 <= j < |items| && items[j] == it;
      assert items[j].mark != "" && KeyOf(items[j]) == key;
    }
  }

  lemma {:induction false} LostKeysAreDead(d: Drawing, ws: seq<ShardWindow>, r: ReduceReport, dead: set<nat>,
                                           lo: int, last: int, key: Key)
    requires Tiles(ws, lo, last) && ReportIsRight(r, d, ws, dead)
    ensures !HasKey(r.items, key) <==> LostKey(d, r.failedShards, lo, last, key)
  {
    HeldKeys(Flatten(WindowPartials(d, Survivors(ws, dead))), key);
    DegradedKeys(d, ws, lo, last, dead, key);
    forall p ensures InWindow(r.failedShards, p) <==> InDeadWindow(ws, dead, p) {
      DeadWindowPages(ws, dead, p);
    }
  }

  /** The merged list is the reading of the pages outside the reported windows. */
  lemma {:induction false} ReadsOutside(d: Drawing, ws: seq<ShardWindow>, r: ReduceReport, dead: set<nat>, lo: int,
                                        last: int)
    requires Tiles(ws, lo, last) && ReportIsRight(r, d, ws, dead)
    ensures Reads(r.items, d, PagesOutside(r.failedShards, lo, last))
  {
    DegradedReads(d, ws, lo, last, dead);
    forall p ensures InWindow(r.failedShards, p) <==> InDeadWindow(ws, dead, p) {
      DeadWindowPages(ws, dead, p);
    }
    assert PagesOutside(r.failedShards, lo, last) == LivePages(ws, lo, last, dead);
  }

  /** The positions of the dead windows. */
  ghost predicate DeadAt(ws: seq<ShardWindow>, dead: set<nat>, at: seq<int>)
  {
    forall i :: i in at <==> 0 <= i < |ws| && ws[i].index in dead
  }

  lemma {:induction false} DeadAtNext(ws: seq<ShardWindow>, w: ShardWindow, dead: set<nat>, at: seq<int>)
    requires DeadAt(ws, dead, at)
    ensures DeadAt(ws + [w], dead, if w.index in dead then at + [|ws|] else at)
  {
  }

  /** The reported windows are windows of the plan, in plan order. */
  lemma {:induction false} DeadArePicked(ws: seq<ShardWindow>, dead: set<nat>) returns (at: seq<int>)
    ensures Picked(DeadWindows(ws, dead), ws, at) && DeadAt(ws, dead, at)
  {
    if ws == [] {
      at := [];
    } else {
      var n := |ws| - 1;
      at := DeadArePicked(ws[..n], dead);
      SnocSelf(ws);
      PickedSnoc(DeadWindows(ws[..n], dead), ws[..n], at, ws[n]);
      DeadAtNext(ws[..n], ws[n], dead, at);
      at := if ws[n].index in dead then at + [n] else at;
    }
  }

  lemma {:induction false} ReportCounts(d: Drawing, ws: seq<ShardWindow>, r: ReduceReport, dead: set<nat>)
    requires ReportIsRight(r, d, ws, dead)
    ensures (r.incomplete <==> r.failedShards != []) && r.shardsMerged + |r.failedShards| == |ws|
  {
    MergedOrFailed(ws, dead);
    DeadWindowsExist(ws, dead);
  }

  /** The clamped list is what the serial run returns exactly when nothing had to be clamped. */
  lemma {:induction false} SerialRunFits(d: Drawing, lo: int, hi: int)
    requires lo < LastPage(d, hi)
    ensures Success(SerialItems(d, lo, LastPage(d, hi))) == SerialRun(d, lo, hi) <==> hi <= d.pageCount
  {
  }

  lemma {:induction false} ItemsAreRight(d: Drawing, ws: seq<ShardWindow>, r: ReduceReport, dead: set<nat>,
                                         lo: int, hi: int)
    requires Tiles(ws, lo, LastPage(d, hi)) && lo < LastPage(d, hi) && ReportIsRight(r, d, ws, dead)
    ensures ItemsOutcome(d, ws, r, lo, hi)
  {
    var last := LastPage(d, hi);
    ReportCounts(d, ws, r, dead);
    CompleteIsSerial(d, ws, r, dead, lo, last);
    SerialRunFits(d, lo, hi);
    forall key ensures !HasKey(r.items, key) <==> LostKey(d, r.failedShards, lo, last, key) {
      LostKeysAreDead(d, ws, r, dead, lo, last, key);
    }
    ReadsOutside(d, ws, r, dead, lo, last);
    var at := DeadArePicked(ws, dead);
  }

  lemma {:induction false} TablesAreCapped(d: Drawing, ws: seq<ShardWindow>, cap: int, candidates: seq<int>,
                                           lo: int, last: int, k: nat)
    requires cap >= 1 && 0 <= lo < last <= d.pageCount && k < |ws| && PlanIsRight(ws, candidates, cap, lo, last)
    requires forall p :: p in candidates <==> 0 <= p < d.pageCount && IsCandidate(d, p)
    ensures |TablePages(d, ws[k])| <= cap
  {
    assert HoldsItsShare(ws[k], candidates, cap);
    if k > 0 { EndsBefore(ws, lo, last, 0, k); }
    if k < |ws| - 1 { EndsBefore(ws, lo, last, k, |ws| - 1); }
    assert TablePages(d, ws[k]) == CandidatesIn(candidates, ws[k].start, ws[k].end);
  }

  lemma {:induction false} PlanTiles(ws: seq<ShardWindow>, candidates: seq<int>, cap: int, lo: int, last: int)
    requires cap >= 1 && ws != [] && PlanIsRight(ws, candidates, cap, lo, last)
    ensures lo < last && Tiles(ws, lo, last)
  {
  }

  lemma {:induction false} ShardedIsRight(d: Drawing, ws: seq<ShardWindow>, r: ReduceReport, dead: set<nat>, cap: int,
                                          candidates: seq<int>, lo: int, hi: int)
    requires cap >= 1 && |ws| >= 2 && 0 <= lo && PlanIsRight(ws, candidates, cap, lo, LastPage(d, hi))
    requires forall p :: p in candidates <==> 0 <= p < d.pageCount && IsCandidate(d, p)
    requires ReportIsRight(r, d, ws, dead)
    ensures ShardedOutcome(d, ws, r, cap, lo, hi)
  {
    var last := LastPage(d, hi);
    PlanTiles(ws, candidates, cap, lo, last);
    ItemsAreRight(d, ws, r, dead, lo, hi);
    forall k | 0 <= k < |ws| ensures |TablePages(d, ws[k])| <= cap {
      TablesAreCapped(d, ws, cap, candidates, lo, last, k);
    }
  }

  // ---- a range that ends past the file ----

  /** Two pages that both show a door schedule. */
  function TwoPages(): Drawing
  {
    Drawing(2, ["door"], (page: int, schema: string) => true,
            (page: int, schema: string) =>
              [ScheduleItem("door", Instance, Decimal(if page < 0 then 0 else page), None, RowCount, "", page)])
  }

  lemma {:induction false} TwoCandidates()
    ensures |CandidatePages(TwoPages(), (0, 2))| == 2
  {
    var d := TwoPages();
    assert d.matches(0, d.registry[0]) && d.matches(1, d.registry[0]);
    assert IsCandidate(d, 0) && IsCandidate(d, 1);
    assert CandidatePages(d, (0, 2)) == {0, 1};
  }

  /** Asked for three pages of that file with one candidate per window, the job is sharded and
      delivers a report, whatever the scheduling, while the serial run fails. */
  method PastTheEnd(maxAttempts: int) returns (outcome: JobOutcome)
    ensures outcome.Sharded? && SerialRun(TwoPages(), 0, 3) == Failure(PageNotInDocument)
    ensures !outcome.report.incomplete ==> outcome.report.items == SerialItems(TwoPages(), 0, 2)
  {
    TwoCandidates();
    outcome := RunJob(TwoPages(), Some((0, 3)), 1, maxAttempts);
  }
}
