/** Dedupe-or-create submission under two partial unique indexes, with any interleaving of
    concurrent submits, job status changes and storage or queue failures
    (service/api/ingestions.py, service/migrations/versions/0004_dedup.py). */
module Ingestion {
  import opened Sequences

  datatype JobStatus = Queued | Running | Planning | Mapping | Reducing | Succeeded | Failed | Dead

  predicate Active(s: JobStatus) { s != Failed && s != Dead }

  datatype Request = Request(content: string, config: string, key: Option<string>)

  /** The takeoff_jobs row; `creator` is the submit that inserted it. */
  datatype Job = Job(key: Option<string>, content: string, config: string, status: JobStatus, creator: nat)

  /** Where one _submit call stands, transaction by transaction. */
  datatype Pc =
    | Finding
    | Inserting
    | Deduping(blocker: nat)      // the unique index refused the row because of this one
    | Uploading(job: nat)
    | Enqueuing(job: nat)
    | Returned(job: nat, created: bool)
    | KeyConflict                 // 409
    | Reraised                    // IntegrityError with nothing to dedupe onto
    | UploadFailed(job: nat)
    | EnqueueFailed(job: nat)

  datatype Submit = Submit(request: Request, pc: Pc)

  datatype State = State(jobs: seq<Job>, submits: seq<Submit>, uploads: set<nat>, queue: seq<nat>)

  datatype Action =
    | Find(i: nat)
    | Insert(i: nat)
    | FindAgain(i: nat)
    | Upload(i: nat, ok: bool)
    | Enqueue(i: nat, ok: bool)
    | SetStatus(j: nat, status: JobStatus)

  // ---- the queries ----

  predicate SameWork(job: Job, r: Request) { job.content == r.content && job.config == r.config }

  /** A key that is present and not empty. */
  predicate Keyed(r: Request) { r.key.Some? && r.key.value != "" }

  function FindKey(jobs: seq<Job>, key: Option<string>): (found: Option<nat>)
    ensures found.Some? ==> found.value < |jobs| && jobs[found.value].key == key
    ensures found.None? ==> forall j :: 0 <= j < |jobs| ==> jobs[j].key != key
  {
    if jobs == [] then None
    else
      var n := |jobs| - 1;
      if jobs[n].key == key then Some(n) else FindKey(jobs[..n], key)
  }

  /** The latest active job with the same content and config. */
  function FindActive(jobs: seq<Job>, r: Request): (found: Option<nat>)
    ensures found.Some? ==> found.value < |jobs| && SameWork(jobs[found.value], r) && Active(jobs[found.value].status)
    ensures found.None? ==> forall j :: 0 <= j < |jobs| ==> !(SameWork(jobs[j], r) && Active(jobs[j].status))
  {
    if jobs == [] then None
    else
      var n := |jobs| - 1;
      if SameWork(jobs[n], r) && Active(jobs[n].status) then Some(n) else FindActive(jobs[..n], r)
  }

  datatype Lookup = Found(job: nat) | Conflict | NotFound

  function FindExisting(jobs: seq<Job>, r: Request): (l: Lookup)
    ensures l.Found? ==> l.job < |jobs| && SameWork(jobs[l.job], r)
  {
    var byKey := if Keyed(r) then FindKey(jobs, r.key) else None;
    match byKey
    case Some(j) => if SameWork(jobs[j], r) then Found(j) else Conflict
    case None =>
      match FindActive(jobs, r)
      case Some(j) => Found(j)
      case None => NotFound
  }

  // ---- the two partial unique indexes ----

  ghost predicate ActiveUnique(jobs: seq<Job>)
  {
    forall a, b :: 0 <= a < b < |jobs| && Active(jobs[a].status) && Active(jobs[b].status) ==>
      jobs[a].content != jobs[b].content || jobs[a].config != jobs[b].config
  }

  ghost predicate KeyUnique(jobs: seq<Job>)
  {
    forall a, b :: 0 <= a < b < |jobs| && jobs[a].key.Some? ==> jobs[a].key != jobs[b].key
  }

  /** The row an insert of this request collides with, if any. An empty key is not NULL, so
      the index covers it. */
  function Collision(jobs: seq<Job>, r: Request): (c: Option<nat>)
    ensures c.Some? ==>
      && c.value < |jobs|
      && ((SameWork(jobs[c.value], r) && Active(jobs[c.value].status)) || (r.key.Some? && jobs[c.value].key == r.key))
  {
    var active := FindActive(jobs, r);
    if active.Some? then active
    else if r.key.Some? then FindKey(jobs, r.key) else None
  }

  /** A job of the requested content and config that has neither failed nor died. */
  predicate LiveTwin(job: Job, r: Request)
  {
    job.content == r.content && job.config == r.config && job.status != Failed && job.status != Dead
  }

  predicate SharesKey(job: Job, r: Request) { r.key.Some? && job.key == r.key }

  /** An insert is refused exactly when a live job of this work or a row under this key, which
      may be empty, is there. */
  lemma {:induction false} CollisionExactly(jobs: seq<Job>, r: Request)
    ensures Collision(jobs, r).Some?
       <==> exists j :: 0 <= j < |jobs| && (LiveTwin(jobs[j], r) || SharesKey(jobs[j], r))
  {
    var c := Collision(jobs, r);
    if c.Some? {
      assert LiveTwin(jobs[c.value], r) || SharesKey(jobs[c.value], r);
    } else {
      assert forall j :: 0 <= j < |jobs| && LiveTwin(jobs[j], r) ==> SameWork(jobs[j], r) && Active(jobs[j].status);
    }
  }

  /** This row is what a look-up should find: the row under the request's non-empty key if it is
      for this work; without one the live job of this work. */
  ghost predicate IsMatch(jobs: seq<Job>, j: nat, r: Request)
    requires j < |jobs|
  {
    if r.key.Some? && r.key.value != "" && exists k :: 0 <= k < |jobs| && jobs[k].key == r.key
    then jobs[j].key == r.key && jobs[j].content == r.content && jobs[j].config == r.config
    else LiveTwin(jobs[j], r)
  }

  lemma {:induction false} FoundExactly(jobs: seq<Job>, r: Request, j: nat)
    requires ActiveUnique(jobs) && KeyUnique(jobs)
    ensures FindExisting(jobs, r) == Found(j) <==> j < |jobs| && IsMatch(jobs, j, r)
  {
    var byKey := if Keyed(r) then FindKey(jobs, r.key) else None;
    if byKey.Some? {
      assert jobs[byKey.value].key == r.key;
      assert j < |jobs| && jobs[j].key == r.key ==> j == byKey.value;
    } else {
      var active := FindActive(jobs, r);
      assert active.Some? && j < |jobs| && LiveTwin(jobs[j], r) ==> Active(jobs[j].status) && j == active.value;
      assert j < |jobs| && LiveTwin(jobs[j], r) ==> SameWork(jobs[j], r) && Active(jobs[j].status);
    }
  }

  /** A status change the active-job index admits. */
  ghost predicate StatusAllowed(jobs: seq<Job>, j: nat, status: JobStatus)
  {
    j < |jobs| && ActiveUnique(jobs[j := jobs[j].(status := status)])
  }

  // ---- steps ----

  ghost predicate Enabled(s: State, a: Action)
  {
    match a
    case SetStatus(j, status) => StatusAllowed(s.jobs, j, status)
    case Find(i) => i < |s.submits| && s.submits[i].pc == Finding
    case Insert(i) => i < |s.submits| && s.submits[i].pc == Inserting
    case FindAgain(i) => i < |s.submits| && s.submits[i].pc.Deduping?
    case Upload(i, _) => i < |s.submits| && s.submits[i].pc.Uploading?
    case Enqueue(i, _) => i < |s.submits| && s.submits[i].pc.Enqueuing?
  }

  function Moved(s: State, i: nat, pc: Pc): State
    requires i < |s.submits|
  {
    s.(submits := s.submits[i := s.submits[i].(pc := pc)])
  }

  function AfterFind(l: Lookup, otherwise: Pc): Pc
  {
    match l
    case Found(j) => Returned(j, false)
    case Conflict => KeyConflict
    case NotFound => otherwise
  }

  function Next(s: State, a: Action): State
    requires Enabled(s, a)
  {
    match a
    case Find(i) => Moved(s, i, AfterFind(FindExisting(s.jobs, s.submits[i].request), Inserting))
    case Insert(i) =>
      var r := s.submits[i].request;
      var c := Collision(s.jobs, r);
      if c.Some? then Moved(s, i, Deduping(c.value))
      else Moved(s.(jobs := s.jobs + [Job(r.key, r.content, r.config, Queued, i)]), i, Uploading(|s.jobs|))
    case FindAgain(i) => Moved(s, i, AfterFind(FindExisting(s.jobs, s.submits[i].request), Reraised))
    case Upload(i, ok) =>
      var j := s.submits[i].pc.job;
      if ok then Moved(s.(uploads := s.uploads + {j}), i, Enqueuing(j)) else Moved(s, i, UploadFailed(j))
    case Enqueue(i, ok) =>
      var j := s.submits[i].pc.job;
      if ok then Moved(s.(queue := s.queue + [j]), i, Returned(j, true)) else Moved(s, i, EnqueueFailed(j))
    case SetStatus(j, status) => s.(jobs := s.jobs[j := s.jobs[j].(status := status)])
  }

  // ---- the invariant ----

  /** The job this submit inserted, if it got that far. */
  function Owned(pc: Pc): Option<nat>
  {
    match pc
    case Uploading(j) => Some(j)
    case Enqueuing(j) => Some(j)
    case UploadFailed(j) => Some(j)
    case EnqueueFailed(j) => Some(j)
    case Returned(j, created) => if created then Some(j) else None
    case _ => None
  }

  predicate HasUploaded(pc: Pc) { pc.Enqueuing? || pc.EnqueueFailed? || (pc.Returned? && pc.created) }

  ghost predicate SubmitInv(s: State, i: nat)
    requires i < |s.submits|
  {
    var sub := s.submits[i];
    && (Owned(sub.pc).Some? ==>
          var j := Owned(sub.pc).value;
          && j < |s.jobs| && s.jobs[j].creator == i
          && SameWork(s.jobs[j], sub.request) && s.jobs[j].key == sub.request.key)
    && (sub.pc.Returned? ==> sub.pc.job < |s.jobs| && SameWork(s.jobs[sub.pc.job], sub.request))
    && (sub.pc.Deduping? ==>
          var b := sub.pc.blocker;
          && b < |s.jobs|
          && (SameWork(s.jobs[b], sub.request) || (sub.request.key.Some? && s.jobs[b].key == sub.request.key)))
  }

  ghost predicate JobInv(s: State, j: nat)
    requires j < |s.jobs|
  {
    var c := s.jobs[j].creator;
    && c < |s.submits| && Owned(s.submits[c].pc) == Some(j)
    && (j in s.uploads <==> HasUploaded(s.submits[c].pc))
    && (j in s.queue <==> s.submits[c].pc == Returned(j, true))
  }

  ghost predicate QueueInv(s: State)
  {
    && (forall q :: 0 <= q < |s.queue| ==> s.queue[q] < |s.jobs|)
    && (forall q, r :: 0 <= q < r < |s.queue| ==> s.queue[q] != s.queue[r])
    && (forall j :: j in s.uploads ==> j < |s.jobs|)
  }

  ghost predicate Inv(s: State)
  {
    && ActiveUnique(s.jobs) && KeyUnique(s.jobs) && QueueInv(s)
    && (forall i :: 0 <= i < |s.submits| ==> SubmitInv(s, i))
    && (forall j :: 0 <= j < |s.jobs| ==> JobInv(s, j))
  }

  function Init(requests: seq<Request>): State
  {
    State([], seq(|requests|, i requires 0 <= i < |requests| => Submit(requests[i], Finding)), {}, [])
  }

  lemma {:induction false} StepIndexes(s: State, a: Action)
    requires Inv(s) && Enabled(s, a)
    ensures ActiveUnique(Next(s, a).jobs) && KeyUnique(Next(s, a).jobs)
  {
  }

  lemma {:induction false} StepQueue(s: State, a: Action)
    requires Inv(s) && Enabled(s, a)
    ensures QueueInv(Next(s, a))
  {
    if a.Enqueue? && a.ok {
      assert SubmitInv(s, a.i);
      assert JobInv(s, s.submits[a.i].pc.job);
    }
    if a.Upload? {
      assert SubmitInv(s, a.i);
    }
  }

  lemma {:induction false} StepSubmits(s: State, a: Action, i: nat)
    requires Inv(s) && Enabled(s, a) && i < |s.submits|
    ensures SubmitInv(Next(s, a), i)
  {
    assert SubmitInv(s, i);
    if a.SetStatus? || a.i != i {
      OtherSubmit(s, Next(s, a), i);
    } else if a.Insert? {
      InsertSubmit(s, i);
    } else {
      OwnSubmit(s, a);
    }
  }

  /** Rows are never removed, and only their status changes. */
  ghost predicate RowsKept(s: State, s': State)
  {
    && |s.jobs| <= |s'.jobs|
    && forall j :: 0 <= j < |s.jobs| ==> s'.jobs[j] == s.jobs[j].(status := s'.jobs[j].status)
  }

  lemma {:induction false} OtherSubmit(s: State, s': State, i: nat)
    requires i < |s.submits| == |s'.submits| && SubmitInv(s, i)
    requires s'.submits[i] == s.submits[i] && RowsKept(s, s')
    ensures SubmitInv(s', i)
  {
  }

  lemma {:induction false} InsertSubmit(s: State, i: nat)
    requires Enabled(s, Insert(i))
    ensures SubmitInv(Next(s, Insert(i)), i)
  {
  }

  lemma {:induction false} OwnSubmit(s: State, a: Action)
    requires Enabled(s, a) && !a.SetStatus? && !a.Insert? && SubmitInv(s, a.i)
    ensures SubmitInv(Next(s, a), a.i)
  {
  }

  lemma {:induction false} StepJobs(s: State, a: Action, j: nat)
    requires Inv(s) && Enabled(s, a) && j < |Next(s, a).jobs|
    ensures JobInv(Next(s, a), j)
  {
    if j < |s.jobs| {
      assert JobInv(s, j);
      if !a.SetStatus? {
        assert SubmitInv(s, a.i);
      }
    } else {
      assert a.Insert? && j == |s.jobs|;
      assert j !in s.queue by { assert forall q :: 0 <= q < |s.queue| ==> s.queue[q] < |s.jobs|; }
    }
  }

  lemma {:induction false} StepKeepsInv(s: State, a: Action)
    requires Inv(s) && Enabled(s, a)
    ensures Inv(Next(s, a))
  {
    StepIndexes(s, a);
    StepQueue(s, a);
    forall i | 0 <= i < |Next(s, a).submits| ensures SubmitInv(Next(s, a), i) { StepSubmits(s, a, i); }
    forall j | 0 <= j < |Next(s, a).jobs| ensures JobInv(Next(s, a), j) { StepJobs(s, a, j); }
  }

  // ---- runs ----

  ghost predicate IsRun(s: State, acts: seq<Action>)
    decreases |acts|
  {
    acts == [] || (Enabled(s, acts[0]) && IsRun(Next(s, acts[0]), acts[1..]))
  }

  ghost function After(s: State, acts: seq<Action>): State
    requires IsRun(s, acts)
    decreases |acts|
  {
    if acts == [] then s else After(Next(s, acts[0]), acts[1..])
  }

  lemma {:induction false} RunKeepsInv(s: State, acts: seq<Action>)
    requires Inv(s) && IsRun(s, acts)
    ensures Inv(After(s, acts))
    ensures |After(s, acts).submits| == |s.submits|
    ensures forall i :: 0 <= i < |s.submits| ==> After(s, acts).submits[i].request == s.submits[i].request
    decreases |acts|
  {
    if acts != [] {
      StepKeepsInv(s, acts[0]);
      RunKeepsInv(Next(s, acts[0]), acts[1..]);
    }
  }

  /** The job is uploaded, and the submit that inserted it is the one that reports it enqueued. */
  ghost predicate EnqueuedByCreator(s: State, j: nat)
  {
    && j < |s.jobs| && j in s.uploads
    && s.jobs[j].creator < |s.submits| && s.submits[s.jobs[j].creator].pc == Returned(j, true)
  }

  /** An insert adds the submit's row, queued, or is refused and adds none. */
  lemma {:induction false} InsertsExactly(s: State, i: nat)
    requires Enabled(s, Insert(i))
    ensures var r, s' := s.submits[i].request, Next(s, Insert(i));
      if exists j :: 0 <= j < |s.jobs| && (LiveTwin(s.jobs[j], r) || SharesKey(s.jobs[j], r))
      then s'.jobs == s.jobs && s'.submits[i].pc.Deduping?
      else s'.jobs == s.jobs + [Job(r.key, r.content, r.config, Queued, i)] && s'.submits[i].pc == Uploading(|s.jobs|)
  {
    CollisionExactly(s.jobs, s.submits[i].request);
  }

  function WorkOf(job: Job): (string, string) { (job.content, job.config) }

  predicate Over(job: Job) { job.status == Failed || job.status == Dead }

  /** What any interleaving of submits and status changes guarantees. */
  lemma {:induction false} SubmitsAreSafe(requests: seq<Request>, acts: seq<Action>)
    requires IsRun(Init(requests), acts)
    ensures var s := After(Init(requests), acts);
      // of two jobs of the same content and config one has failed or is dead; one row per key
      && (forall a, b :: 0 <= a < b < |s.jobs| && WorkOf(s.jobs[a]) == WorkOf(s.jobs[b]) ==>
            Over(s.jobs[a]) || Over(s.jobs[b]))
      && (forall a, b :: 0 <= a < b < |s.jobs| ==> s.jobs[a].key.None? || s.jobs[a].key != s.jobs[b].key)
      && ActiveUnique(s.jobs) && KeyUnique(s.jobs)
      // no job is enqueued twice, never before its upload, and only by the submit that created it
      && (forall q, r :: 0 <= q < r < |s.queue| ==> s.queue[q] != s.queue[r])
      && (forall q :: 0 <= q < |s.queue| ==> EnqueuedByCreator(s, s.queue[q]))
      && |s.submits| == |requests|
  {
    RunKeepsInv(Init(requests), acts);
    var s := After(Init(requests), acts);
    forall q | 0 <= q < |s.queue| ensures EnqueuedByCreator(s, s.queue[q]) {
      assert JobInv(s, s.queue[q]);
    }
  }

  /** An enqueue is its creator's own step, after the upload, and the first for this job. */
  lemma {:induction false} EnqueueIsCreators(requests: seq<Request>, acts: seq<Action>, i: nat, ok: bool)
    requires IsRun(Init(requests), acts) && Enabled(After(Init(requests), acts), Enqueue(i, ok))
    ensures var s := After(Init(requests), acts);
      var j := s.submits[i].pc.job;
      && j < |s.jobs| && s.jobs[j].creator == i
      && s.jobs[j].content == s.submits[i].request.content && s.jobs[j].config == s.submits[i].request.config
      && j in s.uploads && j !in s.queue
  {
    RunKeepsInv(Init(requests), acts);
    var s := After(Init(requests), acts);
    assert SubmitInv(s, i);
    assert JobInv(s, s.submits[i].pc.job);
  }

  /** A returned job is for exactly the requested content and config; the submit that
      reports it created is the one that inserted, uploaded and enqueued it. */
  lemma {:induction false} ReturnedJobMatches(requests: seq<Request>, acts: seq<Action>, i: nat)
    requires IsRun(Init(requests), acts) && i < |requests|
    ensures var s := After(Init(requests), acts);
      && i < |s.submits|
      && (s.submits[i].pc.Returned? ==>
            var j := s.submits[i].pc.job;
            && j < |s.jobs| && s.jobs[j].content == requests[i].content && s.jobs[j].config == requests[i].config
            && (s.submits[i].pc.created <==> s.jobs[j].creator == i)
            && (s.submits[i].pc.created ==> j in s.queue && j in s.uploads))
  {
    var s0 := Init(requests);
    RunKeepsInv(s0, acts);
    var s := After(s0, acts);
    assert s0.submits[i].request == requests[i];
    assert SubmitInv(s, i);
    if s.submits[i].pc.Returned? {
      assert JobInv(s, s.submits[i].pc.job);
    }
  }

  /** Two submits of the same work whose jobs are both active were given the same job. */
  lemma {:induction false} SameWorkSameJob(requests: seq<Request>, acts: seq<Action>, i: nat, k: nat)
    requires IsRun(Init(requests), acts) && i < |requests| && k < |requests|
    requires requests[i].content == requests[k].content && requests[i].config == requests[k].config
    requires var s := After(Init(requests), acts);
      && |s.submits| == |requests|
      && s.submits[i].pc.Returned? && s.submits[k].pc.Returned?
      && s.submits[i].pc.job < |s.jobs| && s.submits[k].pc.job < |s.jobs|
      && !Over(s.jobs[s.submits[i].pc.job]) && !Over(s.jobs[s.submits[k].pc.job])
    ensures var s := After(Init(requests), acts); s.submits[i].pc.job == s.submits[k].pc.job
  {
    ReturnedJobMatches(requests, acts, i);
    ReturnedJobMatches(requests, acts, k);
    SubmitsAreSafe(requests, acts);
  }

  // ---- when a refused insert is not deduped ----

  /** No live job of this work, and no row under a key that is not empty. */
  ghost predicate NothingToFind(jobs: seq<Job>, r: Request)
  {
    && (forall j :: 0 <= j < |jobs| ==> !LiveTwin(jobs[j], r))
    && (r.key.Some? && r.key.value != "" ==> forall j :: 0 <= j < |jobs| ==> jobs[j].key != r.key)
  }

  lemma {:induction false} NotFoundExactly(jobs: seq<Job>, r: Request)
    ensures FindExisting(jobs, r) == NotFound <==> NothingToFind(jobs, r)
  {
    var byKey := if Keyed(r) then FindKey(jobs, r.key) else None;
    if byKey.None? {
      var active := FindActive(jobs, r);
      assert active.Some? ==> LiveTwin(jobs[active.value], r);
      assert forall j :: 0 <= j < |jobs| && LiveTwin(jobs[j], r) ==> SameWork(jobs[j], r) && Active(jobs[j].status);
    } else {
      assert jobs[byKey.value].key == r.key;
    }
  }

  /** An insert refused by these rows has no row to dedupe onto exactly when the key is empty:
      the look-up ignores it, the index does not, and no active job of this work is there. */
  lemma {:induction false} RefusedNotFoundExactly(jobs: seq<Job>, r: Request)
    requires Collision(jobs, r).Some?
    ensures FindExisting(jobs, r) == NotFound
       <==> r.key == Some("") && forall j :: 0 <= j < |jobs| ==> !LiveTwin(jobs[j], r)
  {
    NotFoundExactly(jobs, r);
    var c := Collision(jobs, r).value;
    assert FindActive(jobs, r).None? ==> r.key.Some? && jobs[c].key == r.key;
  }

  /** The second look-up comes back empty only if the key is empty (a key the look-up ignores
      and the index does not), or the job that blocked the insert stopped being active. */
  lemma {:induction false} ReraiseMeansBlockerGone(s: State, i: nat)
    requires Inv(s) && Enabled(s, FindAgain(i))
    requires Next(s, FindAgain(i)).submits[i].pc == Reraised
    ensures var b := s.submits[i].pc.blocker;
      b < |s.jobs| && (s.submits[i].request.key == Some("") || Over(s.jobs[b]))
  {
    assert SubmitInv(s, i);
    var r := s.submits[i].request;
    var b := s.submits[i].pc.blocker;
    assert FindExisting(s.jobs, r) == NotFound;
    assert FindActive(s.jobs, r).None?;
    if Keyed(r) {
      assert FindKey(s.jobs, r.key).None?;
    }
  }

  /** In every run, the second look-up of a refused submit re-raises exactly when by then no
      active job of this work and no row under a non-empty key is there; the row that refused
      it is then either only reachable by the empty key or no longer active. */
  lemma {:induction false} ReraisedExactly(requests: seq<Request>, acts: seq<Action>, i: nat)
    requires IsRun(Init(requests), acts) && Enabled(After(Init(requests), acts), FindAgain(i))
    ensures var s := After(Init(requests), acts);
      var r := s.submits[i].request;
      && i < |requests| && r == requests[i]
      && (Next(s, FindAgain(i)).submits[i].pc == Reraised <==> NothingToFind(s.jobs, r))
      && s.submits[i].pc.blocker < |s.jobs|
      && (NothingToFind(s.jobs, r) ==>
            r.key == Some("") || Over(s.jobs[s.submits[i].pc.blocker]))
  {
    RunKeepsInv(Init(requests), acts);
    var s := After(Init(requests), acts);
    assert SubmitInv(s, i);
    assert Init(requests).submits[i].request == requests[i];
    if Next(s, FindAgain(i)).submits[i].pc == Reraised {
      ReraiseMeansBlockerGone(s, i);
    }
    NotFoundExactly(s.jobs, s.submits[i].request);
  }

  /** These steps lead from s to e. */
  ghost predicate Leads(s: State, acts: seq<Action>, e: State) { IsRun(s, acts) && After(s, acts) == e }

  lemma {:induction false} LeadsOn(s: State, a: Action, rest: seq<Action>, e: State) returns (acts: seq<Action>)
    requires Enabled(s, a) && Leads(Next(s, a), rest, e)
    ensures Leads(s, acts, e)
  {
    acts := [a] + rest;
    assert acts[1..] == rest;
  }

  /** The first submit of any request on empty tables inserts its row. */
  lemma {:induction false} FirstInserts(submits: seq<Submit>, rest: seq<Action>, e: State) returns (acts: seq<Action>)
    requires submits != [] && submits[0].pc == Finding
    requires var r := submits[0].request;
      Leads(State([Job(r.key, r.content, r.config, Queued, 0)], submits[0 := Submit(r, Uploading(0))], {}, []), rest, e)
    ensures Leads(State([], submits, {}, []), acts, e)
  {
    var r := submits[0].request;
    EmptyTable(r);
    var s0 := State([], submits, {}, []);
    var s1 := State([], submits[0 := Submit(r, Inserting)], {}, []);
    assert Next(s0, Find(0)) == s1;
    assert Next(s1, Insert(0))
        == State([Job(r.key, r.content, r.config, Queued, 0)], submits[0 := Submit(r, Uploading(0))], {}, []);
    acts := LeadsOn(s1, Insert(0), rest, e);
    acts := LeadsOn(s0, Find(0), acts, e);
  }

  lemma {:induction false} EmptyTable(r: Request)
    ensures FindExisting([], r) == NotFound && Collision([], r).None?
  {
  }

  /** What a table of one row of other work answers. */
  lemma {:induction false} OneRow(row: Job, r: Request)
    requires !SameWork(row, r)
    ensures FindExisting([row], r) == if Keyed(r) && row.key == r.key then Conflict else NotFound
    ensures Collision([row], r) == if r.key.Some? && row.key == r.key then Some(0) else None
  {
    assert [row][..0] == [];
  }

  /** A key that no row carries does not keep a submit from an active row of its work. */
  lemma {:induction false} SameWorkFound(row: Job, r: Request)
    requires SameWork(row, r) && Active(row.status) && row.key != r.key
    ensures FindExisting([row], r) == Found(0)
  {
    assert [row][..0] == [];
  }

  /** Two submits of different work under an empty key. */
  function EmptyKeys(first: Pc, second: Pc): seq<Submit>
  {
    [Submit(Request("a", "c", Some("")), first), Submit(Request("b", "c", Some("")), second)]
  }

  const EMPTY_KEY_ROW: Job := Job(Some(""), "a", "c", Queued, 0)

  lemma {:induction false} SecondReraises() returns (acts: seq<Action>)
    ensures Leads(State([EMPTY_KEY_ROW], EmptyKeys(Uploading(0), Finding), {}, []), acts,
                  State([EMPTY_KEY_ROW], EmptyKeys(Uploading(0), Reraised), {}, []))
  {
    OneRow(EMPTY_KEY_ROW, Request("b", "c", Some("")));
    var s2 := State([EMPTY_KEY_ROW], EmptyKeys(Uploading(0), Finding), {}, []);
    var s3 := State([EMPTY_KEY_ROW], EmptyKeys(Uploading(0), Inserting), {}, []);
    var s4 := State([EMPTY_KEY_ROW], EmptyKeys(Uploading(0), Deduping(0)), {}, []);
    var s5 := State([EMPTY_KEY_ROW], EmptyKeys(Uploading(0), Reraised), {}, []);
    assert Next(s2, Find(1)) == s3;
    assert Next(s3, Insert(1)) == s4;
    assert Next(s4, FindAgain(1)) == s5;
    acts := LeadsOn(s4, FindAgain(1), [], s5);
    acts := LeadsOn(s3, Insert(1), acts, s5);
    acts := LeadsOn(s2, Find(1), acts, s5);
  }

  /** One after the other: the second is refused and re-raises. */
  lemma {:induction false} EmptyKeyReraises() returns (requests: seq<Request>, acts: seq<Action>)
    ensures |requests| == 2 && requests[0].key == requests[1].key == Some("")
    ensures requests[0].content != requests[1].content
    ensures IsRun(Init(requests), acts) && |After(Init(requests), acts).submits| == 2
    ensures After(Init(requests), acts).submits[1].pc == Reraised
  {
    requests := [Request("a", "c", Some("")), Request("b", "c", Some(""))];
    acts := SecondReraises();
    assert EmptyKeys(Finding, Finding)[0 := Submit(requests[0], Uploading(0))] == EmptyKeys(Uploading(0), Finding);
    acts := FirstInserts(EmptyKeys(Finding, Finding), acts,
                         State([EMPTY_KEY_ROW], EmptyKeys(Uploading(0), Reraised), {}, []));
    assert Init(requests) == State([], EmptyKeys(Finding, Finding), {}, []);
    assert "a"[0] != "b"[0];
  }

  // ---- when a reused key is reported ----

  /** The row carries this key but is for other content or another config. */
  predicate UnderOtherWork(job: Job, r: Request)
  {
    job.key == r.key && (job.content != r.content || job.config != r.config)
  }

  /** A 409 is raised exactly when a row stored under this non-empty key is for other work. */
  lemma {:induction false} ConflictExactly(jobs: seq<Job>, r: Request)
    requires KeyUnique(jobs)
    ensures FindExisting(jobs, r) == Conflict
       <==> r.key.Some? && r.key.value != "" && exists j :: 0 <= j < |jobs| && UnderOtherWork(jobs[j], r)
  {
    if Keyed(r) {
      var found := FindKey(jobs, r.key);
      if j :| 0 <= j < |jobs| && UnderOtherWork(jobs[j], r) {
        assert found.Some? && found.value == j by {
          assert found.Some? ==> jobs[found.value].key == jobs[j].key;
        }
      }
    }
  }

  /** Submit c inserted its row under this key, with other work. */
  ghost predicate UsedForOtherWork(s: State, c: nat, r: Request)
  {
    && c < |s.submits| && Owned(s.submits[c].pc).Some?
    && s.submits[c].request.key == r.key
    && (s.submits[c].request.content != r.content || s.submits[c].request.config != r.config)
  }

  /** In every run, reuse of a key is reported exactly when a submit that inserted its own row
      used this non-empty key with other work: a key of a submit that was deduped does not count. */
  lemma {:induction false} ReuseReportedExactly(requests: seq<Request>, acts: seq<Action>, i: nat)
    requires IsRun(Init(requests), acts) && i < |requests|
    ensures var s := After(Init(requests), acts);
      FindExisting(s.jobs, requests[i]) == Conflict
      <==>
      && requests[i].key.Some? && requests[i].key.value != ""
      && exists c: nat :: UsedForOtherWork(s, c, requests[i])
  {
    RunKeepsInv(Init(requests), acts);
    var s := After(Init(requests), acts);
    var r := requests[i];
    ConflictExactly(s.jobs, r);
    if j :| 0 <= j < |s.jobs| && UnderOtherWork(s.jobs[j], r) {
      assert JobInv(s, j);
      assert SubmitInv(s, s.jobs[j].creator);
      assert UsedForOtherWork(s, s.jobs[j].creator, r);
    }
    if c: nat :| UsedForOtherWork(s, c, r) {
      assert SubmitInv(s, c);
      var j := Owned(s.submits[c].pc).value;
      assert UnderOtherWork(s.jobs[j], r);
    }
  }

  /** A submit deduped onto other work's row stores no key: the same key sent with other work
      is then not reported but inserted. */
  lemma {:induction false} DedupedKeyIsForgotten(jobs: seq<Job>, first: Request, second: Request)
    requires first.key.Some? && first.key.value != "" && second.key == first.key
    requires forall j :: 0 <= j < |jobs| ==> jobs[j].key != first.key && !LiveTwin(jobs[j], second)
    requires exists j :: 0 <= j < |jobs| && LiveTwin(jobs[j], first)
    ensures FindExisting(jobs, first).Found? && LiveTwin(jobs[FindExisting(jobs, first).job], first)
    ensures FindExisting(jobs, second) == NotFound && Collision(jobs, second).None?
  {
    NotFoundExactly(jobs, first);
    NotFoundExactly(jobs, second);
    CollisionExactly(jobs, second);
  }

  /** Three submits: work without a key, the same work under a key, other work under that key. */
  function KeyedTwice(first: Pc, second: Pc, third: Pc): seq<Submit>
  {
    [Submit(Request("a", "c", None), first), Submit(Request("a", "c", Some("k")), second),
     Submit(Request("b", "c", Some("k")), third)]
  }

  const PLAIN_ROW: Job := Job(None, "a", "c", Queued, 0)

  const KEYED_ROW: Job := Job(Some("k"), "b", "c", Queued, 2)

  /** Where the run ends. */
  function KeyForgotten(): State
  {
    State([PLAIN_ROW, KEYED_ROW], KeyedTwice(Uploading(0), Returned(0, false), Uploading(1)), {}, [])
  }

  lemma {:induction false} ThirdIsInserted() returns (acts: seq<Action>)
    ensures Leads(State([PLAIN_ROW], KeyedTwice(Uploading(0), Returned(0, false), Finding), {}, []), acts,
                  KeyForgotten())
  {
    OneRow(PLAIN_ROW, Request("b", "c", Some("k")));
    var s3 := State([PLAIN_ROW], KeyedTwice(Uploading(0), Returned(0, false), Finding), {}, []);
    var s4 := State([PLAIN_ROW], KeyedTwice(Uploading(0), Returned(0, false), Inserting), {}, []);
    assert Next(s3, Find(2)) == s4;
    assert Next(s4, Insert(2)) == KeyForgotten();
    acts := LeadsOn(s4, Insert(2), [], KeyForgotten());
    acts := LeadsOn(s3, Find(2), acts, KeyForgotten());
  }

  lemma {:induction false} SecondIsDeduped() returns (acts: seq<Action>)
    ensures Leads(State([PLAIN_ROW], KeyedTwice(Uploading(0), Finding, Finding), {}, []), acts, KeyForgotten())
  {
    acts := ThirdIsInserted();
    SameWorkFound(PLAIN_ROW, Request("a", "c", Some("k")));
    var s2 := State([PLAIN_ROW], KeyedTwice(Uploading(0), Finding, Finding), {}, []);
    assert Next(s2, Find(1)) == State([PLAIN_ROW], KeyedTwice(Uploading(0), Returned(0, false), Finding), {}, []);
    acts := LeadsOn(s2, Find(1), acts, KeyForgotten());
  }

  /** A run in which one key is used for two different works and nothing is reported: the
      submit that used it first was deduped onto a row without a key. */
  lemma {:induction false} ForgottenKeyRun() returns (requests: seq<Request>, acts: seq<Action>)
    ensures |requests| == 3 && Keyed(requests[1]) && requests[1].key == requests[2].key
    ensures requests[1].content != requests[2].content
    ensures IsRun(Init(requests), acts) && |After(Init(requests), acts).submits| == 3
    ensures After(Init(requests), acts).submits[1].pc == Returned(0, false)
    ensures After(Init(requests), acts).submits[2].pc == Uploading(1)
  {
    requests := [Request("a", "c", None), Request("a", "c", Some("k")), Request("b", "c", Some("k"))];
    acts := SecondIsDeduped();
    assert KeyedTwice(Finding, Finding, Finding)[0 := Submit(requests[0], Uploading(0))]
        == KeyedTwice(Uploading(0), Finding, Finding);
    acts := FirstInserts(KeyedTwice(Finding, Finding, Finding), acts, KeyForgotten());
    assert Init(requests) == State([], KeyedTwice(Finding, Finding, Finding), {}, []);
    assert "a"[0] != "b"[0];
  }

  // ---- whether a returned job will ever run ----

  /** The upload or the enqueue of the row this submit inserted failed. */
  predicate Stranded(pc: Pc) { pc.UploadFailed? || pc.EnqueueFailed? }

  predicate Ended(pc: Pc) { pc.Returned? || pc == KeyConflict || pc == Reraised || Stranded(pc) }

  ghost predicate AllEnded(s: State) { forall c :: 0 <= c < |s.submits| ==> Ended(s.submits[c].pc) }

  /** This step is the failing upload or enqueue of submit c. */
  predicate FailsFor(a: Action, c: nat) { a == Upload(c, false) || a == Enqueue(c, false) }

  lemma {:induction false} StepStrands(s: State, a: Action, c: nat)
    requires Enabled(s, a) && c < |s.submits|
    ensures |Next(s, a).submits| == |s.submits|
    ensures Stranded(Next(s, a).submits[c].pc) <==> Stranded(s.submits[c].pc) || FailsFor(a, c)
  {
  }

  lemma {:induction false} RunStrands(s: State, acts: seq<Action>, c: nat)
    requires IsRun(s, acts) && c < |s.submits|
    ensures c < |After(s, acts).submits|
    ensures Stranded(After(s, acts).submits[c].pc)
       <==> Stranded(s.submits[c].pc) || exists k :: 0 <= k < |acts| && FailsFor(acts[k], c)
    decreases |acts|
  {
    if acts != [] {
      StepStrands(s, acts[0], c);
      RunStrands(Next(s, acts[0]), acts[1..], c);
      if k :| 0 <= k < |acts[1..]| && FailsFor(acts[1..][k], c) {
        assert FailsFor(acts[k + 1], c);
      }
      if k :| 0 <= k < |acts| && FailsFor(acts[k], c) {
        assert k > 0 ==> acts[1..][k - 1] == acts[k];
      }
    }
  }

  /** When all submits have ended, the job a submit was given is enqueued exactly when neither
      the upload nor the enqueue of the submit that created it failed, whoever asked. */
  lemma {:induction false} RunsExactly(requests: seq<Request>, acts: seq<Action>, i: nat)
    requires IsRun(Init(requests), acts) && i < |requests|
    requires AllEnded(After(Init(requests), acts))
    ensures var s := After(Init(requests), acts);
      && i < |s.submits|
      && (s.submits[i].pc.Returned? ==>
            var j := s.submits[i].pc.job;
            && j < |s.jobs|
            && (j in s.queue <==> forall k :: 0 <= k < |acts| ==> !FailsFor(acts[k], s.jobs[j].creator)))
  {
    RunKeepsInv(Init(requests), acts);
    var s := After(Init(requests), acts);
    assert SubmitInv(s, i);
    if s.submits[i].pc.Returned? {
      var j := s.submits[i].pc.job;
      assert JobInv(s, j);
      RunStrands(Init(requests), acts, s.jobs[j].creator);
      assert Ended(s.submits[s.jobs[j].creator].pc);
    }
  }

  /** Two submits of the same work. */
  function Twins(first: Pc, second: Pc): seq<Submit>
  {
    [Submit(Request("a", "c", None), first), Submit(Request("a", "c", None), second)]
  }

  lemma {:induction false} TwinIsStranded() returns (acts: seq<Action>)
    ensures Leads(State([PLAIN_ROW], Twins(Uploading(0), Finding), {}, []), acts,
                  State([PLAIN_ROW], Twins(UploadFailed(0), Returned(0, false)), {}, []))
  {
    ActiveFound(PLAIN_ROW, Request("a", "c", None));
    var s2 := State([PLAIN_ROW], Twins(Uploading(0), Finding), {}, []);
    var s3 := State([PLAIN_ROW], Twins(UploadFailed(0), Finding), {}, []);
    var s4 := State([PLAIN_ROW], Twins(UploadFailed(0), Returned(0, false)), {}, []);
    assert Next(s2, Upload(0, false)) == s3;
    assert Next(s3, Find(1)) == s4;
    acts := LeadsOn(s3, Find(1), [], s4);
    acts := LeadsOn(s2, Upload(0, false), acts, s4);
  }

  lemma {:induction false} ActiveFound(row: Job, r: Request)
    requires SameWork(row, r) && Active(row.status) && r.key.None?
    ensures FindExisting([row], r) == Found(0)
  {
    assert [row][..0] == [];
  }

  /** A run in which a submit is given a job that nobody will ever run: the upload of the
      submit that created it failed, and the row stays active. */
  lemma {:induction false} StrandedTwinRun() returns (requests: seq<Request>, acts: seq<Action>)
    ensures |requests| == 2 && requests[0] == requests[1]
    ensures IsRun(Init(requests), acts) && |After(Init(requests), acts).submits| == 2
    ensures After(Init(requests), acts).submits[1].pc == Returned(0, false)
    ensures After(Init(requests), acts).queue == []
    ensures Ended(After(Init(requests), acts).submits[0].pc)
  {
    requests := [Request("a", "c", None), Request("a", "c", None)];
    acts := TwinIsStranded();
    assert Twins(Finding, Finding)[0 := Submit(requests[0], Uploading(0))] == Twins(Uploading(0), Finding);
    acts := FirstInserts(Twins(Finding, Finding), acts,
                         State([PLAIN_ROW], Twins(UploadFailed(0), Returned(0, false)), {}, []));
    assert Init(requests) == State([], Twins(Finding, Finding), {}, []);
  }

  // ---- the transactions of _submit on shared tables ----

  class SubmitService {
    var jobs: seq<Job>
    var submits: seq<Submit>
    var uploads: set<nat>
    var queue: seq<nat>

    ghost function View(): State
      reads this
    {
      State(jobs, submits, uploads, queue)
    }

    constructor (requests: seq<Request>)
      ensures View() == Init(requests) && Inv(View())
    {
      jobs, uploads, queue := [], {}, [];
      submits := seq(|requests|, i requires 0 <= i < |requests| => Submit(requests[i], Finding));
    }

    method MoveTo(i: nat, pc: Pc)
      requires i < |submits|
      modifies this`submits
      ensures View() == Moved(old(View()), i, pc)
    {
      submits := submits[i := submits[i].(pc := pc)];
    }

    /** The look-up, first or second; `again` after an IntegrityError. */
    method LookUp(i: nat, again: bool)
      requires Inv(View()) && Enabled(View(), if again then FindAgain(i) else Find(i))
      modifies this`submits
      ensures Inv(View()) && View() == Next(old(View()), if again then FindAgain(i) else Find(i))
    {
      StepKeepsInv(View(), if again then FindAgain(i) else Find(i));
      var existing := FindExisting(jobs, submits[i].request);
      match existing {
        case Found(j) => MoveTo(i, Returned(j, false));
        case Conflict => MoveTo(i, KeyConflict);
        case NotFound => MoveTo(i, if again then Reraised else Inserting);
      }
    }

    /** The insert; the unique indexes decide. */
    method InsertRow(i: nat)
      requires Inv(View()) && Enabled(View(), Insert(i))
      modifies this`jobs, this`submits
      ensures Inv(View()) && View() == Next(old(View()), Insert(i))
    {
      StepKeepsInv(View(), Insert(i));
      var r := submits[i].request;
      var collision := Collision(jobs, r);
      if collision.Some? {
        MoveTo(i, Deduping(collision.value));
      } else {
        jobs := jobs + [Job(r.key, r.content, r.config, Queued, i)];
        MoveTo(i, Uploading(|jobs| - 1));
      }
    }

    /** upload_fileobj for a row this submit created. */
    method UploadPdf(i: nat, ok: bool)
      requires Inv(View()) && Enabled(View(), Upload(i, ok))
      modifies this`uploads, this`submits
      ensures Inv(View()) && View() == Next(old(View()), Upload(i, ok))
    {
      StepKeepsInv(View(), Upload(i, ok));
      var j := submits[i].pc.job;
      if ok {
        uploads := uploads + {j};
        MoveTo(i, Enqueuing(j));
      } else {
        MoveTo(i, UploadFailed(j));
      }
    }

    method EnqueueJob(i: nat, ok: bool)
      requires Inv(View()) && Enabled(View(), Enqueue(i, ok))
      modifies this`queue, this`submits
      ensures Inv(View()) && View() == Next(old(View()), Enqueue(i, ok))
    {
      StepKeepsInv(View(), Enqueue(i, ok));
      var j := submits[i].pc.job;
      if ok {
        queue := queue + [j];
        MoveTo(i, Returned(j, true));
      } else {
        MoveTo(i, EnqueueFailed(j));
      }
    }
  }
}
