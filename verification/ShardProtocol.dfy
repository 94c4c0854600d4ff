/** The map phase of a sharded job as a state machine: one step per committed transaction
    or queue operation of a worker (service/jobs/orchestrator.py). Any worker may take the
    next step, so a run is an arbitrary interleaving with an arbitrary pattern of failures.

    Failure model: an exception while downloading, extracting or uploading is caught;
    a delivery is repeated only after the worker re-raised; nothing is lost between the
    transaction that makes a shard terminal and the counter update that follows it. */
module ShardProtocol {
  import opened Sequences

  datatype ShardStatus = Queued | Running | Failed | Succeeded | Dead

  /** The takeoff_shards row. */
  datatype Row = Row(status: ShardStatus, attempts: nat, hasPartialKey: bool, hasError: bool)

  /** Where the one queue message of a shard stands. */
  datatype Delivery =
    | Unsent                               // row committed, message not enqueued yet
    | Waiting                              // message in the queue
    | Extracting(attempt: nat)             // attempt committed; inside the try block
    | Stored(attempt: nat)                 // the partial is uploaded
    | Caught(attempt: nat)                 // an exception was caught
    | Raising                              // failed status committed; the worker re-raises
    | Terminal                             // succeeded or dead committed; not counted yet
    | Counted(finished: nat, total: nat)   // what UPDATE .. RETURNING gave this worker
    | Returned
    | Dropped                              // re-raised with no retry left

  datatype Shard = Shard(row: Row, delivery: Delivery, retriesLeft: nat)

  /** `work[i]` is what extracting window i gives; `store` holds the uploaded partials. */
  datatype State<P> = State(
    maxAttempts: int, shardCount: nat, completed: nat, shards: seq<Shard>, reduceJobs: nat,
    work: seq<P>, store: map<nat, P>)

  datatype Action =
    | Send(i: nat)
    | Begin(i: nat)
    | Upload(i: nat)
    | Catch(i: nat, wrote: bool)
    | MarkSucceeded(i: nat)
    | MarkFailed(i: nat)
    | Redeliver(i: nat)
    | Bump(i: nat)
    | Trip(i: nat)

  /** RQ's retry count: max(max_shard_attempts - 1, 0). */
  function Retries(maxAttempts: int): nat {
    if maxAttempts - 1 > 0 then maxAttempts - 1 else 0
  }

  /** Total deliveries a shard can get: max(1, max_shard_attempts). */
  function MaxDeliveries(maxAttempts: int): nat { Retries(maxAttempts) + 1 }

  function FreshShard(maxAttempts: int): Shard {
    Shard(Row(Queued, 0, false, false), Unsent, Retries(maxAttempts))
  }

  function Init<P>(maxAttempts: int, work: seq<P>): State<P> {
    State(maxAttempts, |work|, 0, seq(|work|, _ => FreshShard(maxAttempts)), 0, work, map[])
  }

  predicate Enabled<P>(s: State<P>, a: Action)
  {
    a.i < |s.shards| && a.i < |s.work| &&
    var d := s.shards[a.i].delivery;
    match a
    case Send(_) => d.Unsent?
    case Begin(_) => d.Waiting?
    case Upload(_) => d.Extracting?
    case Catch(_, _) => d.Extracting?
    case MarkSucceeded(_) => d.Stored?
    case MarkFailed(_) => d.Caught?
    case Redeliver(_) => d.Raising?
    case Bump(_) => d.Terminal?
    case Trip(_) => d.Counted?
  }

  /** What the worker's step does to its own shard. */
  function ShardAfter<P>(s: State<P>, a: Action): Shard
    requires Enabled(s, a)
  {
    var sh := s.shards[a.i];
    match a
    case Send(_) => sh.(delivery := Waiting)
    case Begin(_) =>
      var n := sh.row.attempts + 1;
      sh.(row := sh.row.(status := Running, attempts := n), delivery := Extracting(n))
    case Upload(_) => sh.(delivery := Stored(sh.delivery.attempt))
    case Catch(_, _) => sh.(delivery := Caught(sh.delivery.attempt))
    case MarkSucceeded(_) => sh.(row := sh.row.(status := Succeeded, hasPartialKey := true), delivery := Terminal)
    case MarkFailed(_) =>
      var terminal := sh.delivery.attempt >= s.maxAttempts;
      sh.(row := sh.row.(status := if terminal then Dead else Failed, hasError := true),
          delivery := if terminal then Terminal else Raising)
    case Redeliver(_) =>
      if sh.retriesLeft > 0 then sh.(delivery := Waiting, retriesLeft := sh.retriesLeft - 1)
      else sh.(delivery := Dropped)
    case Bump(_) => sh.(delivery := Counted(s.completed + 1, s.shardCount))
    case Trip(_) => sh.(delivery := Returned)
  }

  function Next<P>(s: State<P>, a: Action): State<P>
    requires Enabled(s, a)
  {
    var s' := s.(shards := s.shards[a.i := ShardAfter(s, a)]);
    match a
    case Upload(i) => s'.(store := s.store[i := s.work[i]])
    case Catch(i, wrote) => if wrote then s'.(store := s.store[i := s.work[i]]) else s'
    case Bump(_) => s'.(completed := s.completed + 1)
    case Trip(i) =>
      var d := s.shards[i].delivery;
      if d.finished == d.total then s'.(reduceJobs := s.reduceJobs + 1) else s'
    case _ => s'
  }

  // ---- counting workers ----

  function IsCounted(sh: Shard): bool { sh.delivery.Counted? || sh.delivery.Returned? }

  /** This worker saw the counter reach the shard count and has yet to act on it. */
  function HoldsTicket(sh: Shard): bool { sh.delivery.Counted? && sh.delivery.finished == sh.delivery.total }

  // ---- the invariant ----

  predicate IsTerminal(status: ShardStatus) { status == Succeeded || status == Dead }

  ghost predicate ShardInv(sh: Shard, maxAttempts: int, shardCount: nat, completed: nat)
  {
    var budget := MaxDeliveries(maxAttempts);
    var row := sh.row;
    && (row.hasPartialKey <==> row.status == Succeeded)
    && match sh.delivery
       case Unsent => row == Row(Queued, 0, false, false) && sh.retriesLeft + 1 == budget
       case Waiting =>
         && row.attempts + sh.retriesLeft + 1 == budget
         && row.status == (if row.attempts == 0 then Queued else Failed)
       case Raising =>
         && row.status == Failed && row.attempts >= 1
         && row.attempts + sh.retriesLeft == budget && sh.retriesLeft > 0
       case Terminal => FinishedRow(sh, budget)
       case Counted(f, t) => FinishedRow(sh, budget) && t == shardCount && 1 <= f <= completed
       case Returned => FinishedRow(sh, budget)
       case Dropped => false
       case _ =>
         && row.status == Running
         && row.attempts == sh.delivery.attempt >= 1
         && row.attempts + sh.retriesLeft == budget
  }

  /** The row is terminal, and dead only when every delivery was used up. */
  ghost predicate FinishedRow(sh: Shard, budget: nat)
  {
    && IsTerminal(sh.row.status)
    && 1 <= sh.row.attempts <= budget
    && (sh.row.status == Dead ==> sh.row.attempts == budget)
  }

  ghost predicate StoreInv<P>(s: State<P>)
  {
    && |s.work| == |s.shards|
    && (forall i :: i in s.store ==> i < |s.work| && s.store[i] == s.work[i])
    && (forall i :: 0 <= i < |s.shards| && HasUploaded(s.shards[i]) ==> i in s.store)
  }

  ghost predicate HasUploaded(sh: Shard) { sh.delivery.Stored? || sh.row.status == Succeeded }

  ghost predicate Inv<P>(s: State<P>)
  {
    && s.shardCount == |s.shards| >= 1
    && StoreInv(s)
    && (forall i :: 0 <= i < |s.shards| ==> ShardInv(s.shards[i], s.maxAttempts, s.shardCount, s.completed))
    && s.completed == Count(s.shards, IsCounted)
    && s.reduceJobs + Count(s.shards, HoldsTicket) == (if s.completed == s.shardCount then 1 else 0)
  }

  lemma {:induction false} InitInv<P>(maxAttempts: int, work: seq<P>)
    requires |work| >= 1
    ensures Inv(Init(maxAttempts, work))
  {
    var s := Init(maxAttempts, work);
    CountNone(s.shards, IsCounted);
    CountNone(s.shards, HoldsTicket);
  }

  lemma {:induction false} StepShardInv<P>(s: State<P>, a: Action)
    requires Inv(s) && Enabled(s, a)
    ensures ShardInv(ShardAfter(s, a), s.maxAttempts, s.shardCount, Next(s, a).completed)
    ensures ShardAfter(s, a).row.attempts == s.shards[a.i].row.attempts + if a.Begin? then 1 else 0
  {
    assert ShardInv(s.shards[a.i], s.maxAttempts, s.shardCount, s.completed);
  }

  lemma {:induction false} StepKeepsInv<P>(s: State<P>, a: Action)
    requires Inv(s) && Enabled(s, a)
    ensures Inv(Next(s, a))
  {
    StepRows(s, a);
    StepCounts(s, a);
    StoreStep(s, a);
  }

  lemma {:induction false} StepRows<P>(s: State<P>, a: Action)
    requires Inv(s) && Enabled(s, a)
    ensures var s' := Next(s, a);
      forall j :: 0 <= j < |s'.shards| ==> ShardInv(s'.shards[j], s.maxAttempts, s.shardCount, s'.completed)
  {
    var s' := Next(s, a);
    StepShardInv(s, a);
    forall j | 0 <= j < |s'.shards|
      ensures ShardInv(s'.shards[j], s.maxAttempts, s.shardCount, s'.completed)
    {
      if j != a.i {
        assert s'.shards[j] == s.shards[j];
        assert ShardInv(s.shards[j], s.maxAttempts, s.shardCount, s.completed);
      }
    }
  }

  lemma {:induction false} StepCounter<P>(s: State<P>, a: Action)
    requires Inv(s) && Enabled(s, a)
    ensures Next(s, a).completed == Count(Next(s, a).shards, IsCounted)
  {
    CountUpdate(s.shards, IsCounted, a.i, ShardAfter(s, a));
  }

  /** Only the bump that fills the counter hands out a ticket, and only its trip uses it. */
  lemma {:induction false} StepTickets<P>(s: State<P>, a: Action)
    requires Inv(s) && Enabled(s, a)
    ensures Next(s, a).reduceJobs + Count(Next(s, a).shards, HoldsTicket)
         == if Next(s, a).completed == s.shardCount then 1 else 0
  {
    assert ShardInv(s.shards[a.i], s.maxAttempts, s.shardCount, s.completed);
    CountUpdate(s.shards, HoldsTicket, a.i, ShardAfter(s, a));
    CountFull(s.shards, IsCounted, a.i);
  }

  /** Conservation: the counter equals the counted workers, and the reduce jobs plus the
      workers about to enqueue one are one exactly when the counter is full. */
  lemma {:induction false} StepCounts<P>(s: State<P>, a: Action)
    requires Inv(s) && Enabled(s, a)
    ensures var s' := Next(s, a);
      && s'.completed == Count(s'.shards, IsCounted)
      && s'.reduceJobs + Count(s'.shards, HoldsTicket) == if s'.completed == s.shardCount then 1 else 0
  {
    StepCounter(s, a);
    StepTickets(s, a);
  }

  lemma {:induction false} StoreStep<P>(s: State<P>, a: Action)
    requires Inv(s) && Enabled(s, a)
    ensures StoreInv(Next(s, a))
  {
    var s' := Next(s, a);
    assert ShardInv(s.shards[a.i], s.maxAttempts, s.shardCount, s.completed);
    forall j | 0 <= j < |s'.shards| && HasUploaded(s'.shards[j]) ensures j in s'.store {
      if j != a.i {
        assert s'.shards[j] == s.shards[j];
      } else {
        assert a.Upload? || HasUploaded(s.shards[j]);
      }
    }
  }

  // ---- runs ----

  ghost predicate IsRun<P>(s: State<P>, acts: seq<Action>)
    decreases |acts|
  {
    acts == [] || (Enabled(s, acts[0]) && IsRun(Next(s, acts[0]), acts[1..]))
  }

  ghost function After<P>(s: State<P>, acts: seq<Action>): State<P>
    requires IsRun(s, acts)
    decreases |acts|
  {
    if acts == [] then s else After(Next(s, acts[0]), acts[1..])
  }

  lemma {:induction false} RunKeepsInv<P>(s: State<P>, acts: seq<Action>)
    requires Inv(s) && IsRun(s, acts)
    ensures Inv(After(s, acts))
    ensures After(s, acts).maxAttempts == s.maxAttempts && After(s, acts).shardCount == s.shardCount
    ensures After(s, acts).work == s.work
    decreases |acts|
  {
    if acts != [] {
      StepKeepsInv(s, acts[0]);
      RunKeepsInv(Next(s, acts[0]), acts[1..]);
    }
  }

  ghost predicate AllTerminal<P>(s: State<P>)
  {
    forall i :: 0 <= i < |s.shards| ==> s.shards[i].row.status == Succeeded || s.shards[i].row.status == Dead
  }

  lemma {:induction false} TriggeredMeansDone<P>(s: State<P>)
    requires Inv(s)
    ensures s.reduceJobs <= 1
    ensures s.reduceJobs == 1 ==> s.completed == s.shardCount
    ensures s.completed == s.shardCount ==> AllTerminal(s)
  {
    if s.completed == s.shardCount {
      forall i | 0 <= i < |s.shards| ensures IsTerminal(s.shards[i].row.status) {
        CountFull(s.shards, IsCounted, i);
        assert ShardInv(s.shards[i], s.maxAttempts, s.shardCount, s.completed);
      }
    }
  }

  /** In every interleaving the reduce is enqueued at most once, only when all shards are
      counted, and by then every row is succeeded or dead. */
  lemma {:induction false} ReduceIsSafe<P>(maxAttempts: int, work: seq<P>, acts: seq<Action>)
    requires |work| >= 1 && IsRun(Init(maxAttempts, work), acts)
    ensures var s := After(Init(maxAttempts, work), acts);
      && s.reduceJobs <= 1
      && (s.reduceJobs == 1 ==> s.completed == s.shardCount == |work| && AllTerminal(s))
  {
    InitInv(maxAttempts, work);
    RunKeepsInv(Init(maxAttempts, work), acts);
    TriggeredMeansDone(After(Init(maxAttempts, work), acts));
  }

  ghost predicate Quiescent<P>(s: State<P>) { forall a: Action :: !Enabled(s, a) }

  ghost predicate AllReturned<P>(s: State<P>)
  {
    forall i :: 0 <= i < |s.shards| ==> s.shards[i].delivery.Returned?
  }

  /** The next step of worker i, when it has one. */
  function NextAction<P>(s: State<P>, i: nat): Action
    requires i < |s.shards|
  {
    match s.shards[i].delivery
    case Unsent => Send(i)
    case Waiting => Begin(i)
    case Extracting(_) => Upload(i)
    case Stored(_) => MarkSucceeded(i)
    case Caught(_) => MarkFailed(i)
    case Raising => Redeliver(i)
    case Terminal => Bump(i)
    case _ => Trip(i)
  }

  /** No worker is ever stuck: what cannot move has returned. */
  lemma {:induction false} QuiescentMeansReturned<P>(s: State<P>)
    requires Inv(s) && Quiescent(s)
    ensures AllReturned(s) && s.completed == s.shardCount && s.reduceJobs == 1
  {
    forall i | 0 <= i < |s.shards| ensures s.shards[i].delivery.Returned? {
      assert ShardInv(s.shards[i], s.maxAttempts, s.shardCount, s.completed);
      assert !Enabled(s, NextAction(s, i));
    }
    ReturnedMeansDone(s);
  }

  lemma {:induction false} ReturnedMeansDone<P>(s: State<P>)
    requires Inv(s) && AllReturned(s)
    ensures s.completed == s.shardCount && s.reduceJobs == 1 && AllTerminal(s)
  {
    CountAll(s.shards, IsCounted);
    CountNone(s.shards, HoldsTicket);
    TriggeredMeansDone(s);
  }

  /** When nothing is left to do, every shard is finished within its delivery budget and the
      reduce was enqueued exactly once. */
  lemma {:induction false} MapPhaseEnds<P>(maxAttempts: int, work: seq<P>, acts: seq<Action>)
    requires |work| >= 1 && IsRun(Init(maxAttempts, work), acts)
    requires Quiescent(After(Init(maxAttempts, work), acts))
    ensures var s := After(Init(maxAttempts, work), acts);
      && s.reduceJobs == 1
      && |s.shards| == |work|
      && AllTerminal(s)
      && var budget := if maxAttempts > 1 then maxAttempts else 1;
         forall i :: 0 <= i < |work| ==>
           && Begins(acts, i) == s.shards[i].row.attempts <= budget
           && (s.shards[i].row.status == Dead ==> Begins(acts, i) == budget)
  {
    var s0 := Init(maxAttempts, work);
    InitInv(maxAttempts, work);
    RunKeepsInv(s0, acts);
    var s := After(s0, acts);
    QuiescentMeansReturned(s);
    TriggeredMeansDone(s);
    forall i | 0 <= i < |work|
      ensures Begins(acts, i) == s.shards[i].row.attempts <= MaxDeliveries(maxAttempts)
      ensures s.shards[i].row.status == Dead ==> Begins(acts, i) == MaxDeliveries(maxAttempts)
    {
      BeginsAreAttempts(s0, acts, i);
      assert ShardInv(s.shards[i], s.maxAttempts, s.shardCount, s.completed);
    }
  }

  /** How often shard i was delivered to a worker in this run. */
  ghost function Begins(acts: seq<Action>, i: nat): (n: nat)
  {
    if acts == [] then 0
    else (if acts[0] == Begin(i) then 1 else 0) + Begins(acts[1..], i)
  }

  lemma {:induction false} BeginsAreAttempts<P>(s: State<P>, acts: seq<Action>, i: nat)
    requires Inv(s) && IsRun(s, acts) && i < |s.shards|
    ensures i < |After(s, acts).shards|
    ensures After(s, acts).shards[i].row.attempts == s.shards[i].row.attempts + Begins(acts, i)
    decreases |acts|
  {
    if acts != [] {
      StepShardInv(s, acts[0]);
      StepKeepsInv(s, acts[0]);
      BeginsAreAttempts(Next(s, acts[0]), acts[1..], i);
    }
  }

  /** At any moment of any run, no shard exceeds its budget, and a failed shard always has a
      delivery to come. */
  lemma {:induction false} RetryBudget<P>(maxAttempts: int, work: seq<P>, acts: seq<Action>, i: nat)
    requires i < |work| && IsRun(Init(maxAttempts, work), acts)
    ensures var s := After(Init(maxAttempts, work), acts);
      && i < |s.shards|
      && Begins(acts, i) <= (if maxAttempts > 1 then maxAttempts else 1)
      && !s.shards[i].delivery.Dropped?
      && (s.shards[i].row.status == Failed ==>
            s.shards[i].delivery.Waiting? || (s.shards[i].delivery.Raising? && s.shards[i].retriesLeft > 0))
  {
    var s0 := Init(maxAttempts, work);
    InitInv(maxAttempts, work);
    RunKeepsInv(s0, acts);
    BeginsAreAttempts(s0, acts, i);
    var s := After(s0, acts);
    assert ShardInv(s.shards[i], s.maxAttempts, s.shardCount, s.completed);
  }

  // ---- termination of the map phase ----

  function Rank(d: Delivery): (n: nat) {
    match d
    case Unsent => 8
    case Waiting => 7
    case Extracting(_) => 6
    case Stored(_) => 5
    case Caught(_) => 5
    case Raising => 4
    case Terminal => 3
    case Counted(_, _) => 2
    case Returned => 0
    case Dropped => 0
  }

  function Weight(sh: Shard): (n: nat) { 4 * sh.retriesLeft + Rank(sh.delivery) }

  /** Steps the map phase can still take. */
  function Remaining(shards: seq<Shard>): nat { Sum(shards, Weight) }

  lemma {:induction false} StepDecreases<P>(s: State<P>, a: Action)
    requires Enabled(s, a)
    ensures Remaining(Next(s, a).shards) < Remaining(s.shards)
  {
    SumUpdate(s.shards, Weight, a.i, ShardAfter(s, a));
  }

  /** Every run is finite: its length is bounded by the shards and the retry budget. */
  lemma {:induction false} RunsAreBounded<P>(s: State<P>, acts: seq<Action>)
    requires IsRun(s, acts)
    ensures |acts| + Remaining(After(s, acts).shards) <= Remaining(s.shards)
    decreases |acts|
  {
    if acts != [] {
      StepDecreases(s, acts[0]);
      RunsAreBounded(Next(s, acts[0]), acts[1..]);
    }
  }

  lemma {:induction false} InitialBound(maxAttempts: int, n: nat)
    ensures Remaining(seq(n, _ => FreshShard(maxAttempts))) == n * (4 * Retries(maxAttempts) + 8)
  {
    if n > 0 {
      InitialBound(maxAttempts, n - 1);
      assert seq(n, _ => FreshShard(maxAttempts))[..n - 1] == seq(n - 1, _ => FreshShard(maxAttempts));
      assert n * (4 * Retries(maxAttempts) + 8)
          == (n - 1) * (4 * Retries(maxAttempts) + 8) + (4 * Retries(maxAttempts) + 8);
    }
  }

  lemma {:induction false} RunLength<P>(maxAttempts: int, work: seq<P>, acts: seq<Action>)
    requires IsRun(Init(maxAttempts, work), acts)
    ensures |acts| <= |work| * (4 * (if maxAttempts > 1 then maxAttempts else 1) + 4)
  {
    RunsAreBounded(Init(maxAttempts, work), acts);
    InitialBound(maxAttempts, |work|);
  }
}
