/** The turn loop of the agent on a shared transcript, tool registry and plan holder
    (src/harness/agent.py). Every method is proved to make the transition its specification in
    AgentRuns describes. */
module AgentLoop {
  import opened Sequences
  import opened Messages
  import opened Context
  import opened Streaming
  import opened Registry
  import opened AgentRuns
  import Plans

  // ---- one provider turn ----

  datatype TurnOutcome = Answer(response: ProviderResponse) | Interrupted(partial: Option<string>) | Broken

  ghost function OutcomeOf(stream: Stream, parse: Parser): TurnOutcome
  {
    match stream
    case Completes(events) => Answer(ResponseTo(events, parse))
    case CancelledAfter(events) => Interrupted(PartialText(events))
    case RaisesAfter(_) => Broken
  }

  /** Repair, send, collect. What goes out holds no orphan; a linked transcript goes out as it
      is. */
  method SendTurn(t: Transcript, stream: Stream, parse: Parser)
    returns (o: TurnOutcome, dropped: nat, sent: seq<Message>)
    modifies t
    ensures t.messages == sent == Sendable(old(t.messages)) && NoOrphans(sent)
    ensures dropped == OrphanCount(old(t.messages), CallSet(old(t.messages)))
    ensures Linked(old(t.messages)) ==> dropped == 0 && t.messages == old(t.messages)
    ensures o == OutcomeOf(stream, parse)
    ensures o.Answer? ==> o.response.IsFinal() != o.response.IsToolCall()
  {
    SendableIsClean(t.messages);
    ghost var cleaned;
    dropped, cleaned := t.DropOrphanToolResults();
    sent := t.messages;
    match stream {
      case Completes(events) =>
        var response := Accumulate(events, parse);
        o := Answer(response);
      case CancelledAfter(events) => o := Interrupted(PartialText(events));
      case RaisesAfter(_) => o := Broken;
    }
  }

  // ---- the state between two passes ----

  /** The working state, read off the objects that hold it. */
  ghost function Now(t: Transcript, registry: ToolRegistry, holder: Plans.PlanHolder?, nudges: nat): Loop
    reads t, registry, holder
  {
    Loop(t.messages, registry.history, Plans.HeldBy(holder), nudges)
  }

  /** The transcript and the desk once the first n calls of a batch are answered. */
  ghost predicate AnsweredUpTo(n: nat, base: seq<Message>, desk: Desk, calls: seq<ToolCallRef>,
                               outcomes: nat -> CallOutcome, now: Loop)
    requires n <= |calls|
  {
    && now.messages == base + ResultsOf(calls, outcomes, n, desk)
    && Desk(now.history, now.held) == DeskAfter(calls, outcomes, n, desk)
  }

  lemma {:induction false} NoneAnswered(start: Loop, calls: seq<ToolCallRef>, outcomes: nat -> CallOutcome)
    ensures AnsweredUpTo(0, start.messages, Desk(start.history, start.held), calls, outcomes, start)
  {
    assert start.messages + [] == start.messages;
  }

  /** The state after one call that is not cut off. */
  ghost function OneMore(now: Loop, call: ToolCallRef, o: CallOutcome): Loop
  {
    Loop(now.messages + [Message(User, [ResultOf(call, o, now.history)])], HistoryAfter(call, o, now.history),
         HeldAfter(call, o, now.history, now.held), now.nudges)
  }

  lemma {:induction false} OneMoreAnswered(n: nat, base: seq<Message>, desk: Desk, calls: seq<ToolCallRef>,
                                           outcomes: nat -> CallOutcome, now: Loop)
    requires n < |calls| && AnsweredUpTo(n, base, desk, calls, outcomes, now)
    ensures AnsweredUpTo(n + 1, base, desk, calls, outcomes, OneMore(now, calls[n], outcomes(n)))
  {
    var result := Message(User, [ResultOf(calls[n], outcomes(n), now.history)]);
    var results := ResultsOf(calls, outcomes, n, desk);
    assert base + results + [result] == base + (results + [result]);
  }

  /** One call: its result message, or the end of the batch. */
  method DispatchOne(t: Transcript, registry: ToolRegistry, holder: Plans.PlanHolder?, call: ToolCallRef,
                     o: CallOutcome, ghost nudges: nat)
    returns (finished: bool)
    requires holder != null ==> holder.Backed()
    modifies t, registry, holder
    ensures holder != null ==> holder.Backed()
    ensures finished <==> !CutsOff(call, o)
    ensures Now(t, registry, holder, nudges) ==
      if finished then OneMore(old(Now(t, registry, holder, nudges)), call, o)
      else old(Now(t, registry, holder, nudges))
  {
    var r, _ := registry.Dispatch(call, o, holder);
    if r.None? {
      return false;
    }
    t.Append(ResultMessage(r.value));
    finished := true;
  }

  /** None of the first n calls is cut off. */
  ghost predicate RunBefore(calls: seq<ToolCallRef>, outcomes: nat -> CallOutcome, n: nat)
    requires n <= |calls|
  {
    forall j :: 0 <= j < n ==> !CutsOff(calls[j], outcomes(j))
  }

  /** The batch is over: at the first call that is cut off, or with the last one answered. */
  lemma {:induction false} BatchIsOver(n: nat, start: Loop, calls: seq<ToolCallRef>, outcomes: nat -> CallOutcome,
                                       now: Loop)
    requires n <= |calls| && (n < |calls| ==> CutsOff(calls[n], outcomes(n))) && RunBefore(calls, outcomes, n)
    requires AnsweredUpTo(n, start.messages, Desk(start.history, start.held), calls, outcomes, now)
    requires now.nudges == start.nudges
    ensures Dispatched(start, calls, outcomes)
         == PassEnd(now, if n == |calls| then KeepGoing else Stop(CutReason(outcomes(n).halt), None))
  {
    assert CutAt(calls, outcomes) == n;
  }

  /** Dispatch a committed batch in arrival order, one result message per call, up to the first
      call that is cut off. */
  method DispatchCalls(t: Transcript, registry: ToolRegistry, holder: Plans.PlanHolder?, calls: seq<ToolCallRef>,
                       outcomes: nat -> CallOutcome, ghost nudges: nat)
    returns (v: Verdict)
    requires holder != null ==> holder.Backed()
    modifies t, registry, holder
    ensures holder != null ==> holder.Backed()
    ensures PassEnd(Now(t, registry, holder, nudges), v)
         == Dispatched(old(Now(t, registry, holder, nudges)), calls, outcomes)
  {
    ghost var start := Now(t, registry, holder, nudges);
    ghost var desk := Desk(start.history, start.held);
    NoneAnswered(start, calls, outcomes);
    for j := 0 to |calls|
      invariant holder != null ==> holder.Backed()
      invariant AnsweredUpTo(j, start.messages, desk, calls, outcomes, Now(t, registry, holder, nudges))
      invariant RunBefore(calls, outcomes, j)
    {
      OneMoreAnswered(j, start.messages, desk, calls, outcomes, Now(t, registry, holder, nudges));
      var finished := DispatchOne(t, registry, holder, calls[j], outcomes(j), nudges);
      if !finished {
        BatchIsOver(j, start, calls, outcomes, Now(t, registry, holder, nudges));
        return Stop(CutReason(outcomes(j).halt), None);
      }
    }
    BatchIsOver(|calls|, start, calls, outcomes, Now(t, registry, holder, nudges));
    v := KeepGoing;
  }

  /** The text of a final response, and whether the plan gate lets it through. */
  method FinishOrNudge(t: Transcript, registry: ToolRegistry, holder: Plans.PlanHolder?, text: string, nudges: nat,
                       isSpace: char -> bool)
    returns (v: Verdict, nudged: nat)
    modifies t
    ensures PassEnd(Now(t, registry, holder, nudged), v)
         == Finished(old(Now(t, registry, holder, nudges)), text, isSpace)
  {
    if holder != null && PlanOpen(holder.plan) {
      if nudges < MAX_COMPLETION_NUDGES {
        t.Append(COMPLETION_NUDGE);
        return KeepGoing, nudges + 1;
      }
      return Stop(IncompletePlan, None), nudges;
    }
    if IsBlank(text, isSpace) {
      return Stop(EmptyResponse, None), nudges;
    }
    v, nudged := Stop(AnswerGiven, Some(text)), nudges;
  }

  /** Commit a response and finish, nudge or dispatch; nothing is committed if the arguments of
      a call are no object. */
  method CommitResponse(t: Transcript, registry: ToolRegistry, holder: Plans.PlanHolder?, response: ProviderResponse,
                        outcomes: nat -> CallOutcome, nudges: nat, isSpace: char -> bool)
    returns (v: Verdict, nudged: nat)
    requires response.IsFinal() != response.IsToolCall()
    requires holder != null ==> holder.Backed()
    modifies t, registry, holder
    ensures holder != null ==> holder.Backed()
    ensures PassEnd(Now(t, registry, holder, nudged), v)
         == Committed(old(Now(t, registry, holder, nudges)), response, outcomes, isSpace)
  {
    var message := FromAssistantResponse(response);
    if message.None? {
      return Stop(ExceptionRaised, None), nudges;
    }
    t.Append(message.value);
    if response.IsFinal() {
      v, nudged := FinishOrNudge(t, registry, holder, response.text.value, nudges, isSpace);
    } else {
      v := DispatchCalls(t, registry, holder, response.toolCalls, outcomes, nudges);
      nudged := nudges;
    }
  }

  /** Flush what a cancelled stream had already said. */
  method FlushPartial(t: Transcript, partial: Option<string>)
    modifies t
    ensures t.messages == Flushed(old(t.messages), partial)
  {
    if partial.Some? {
      t.Append(AssistantText(partial.value + " [interrupted]"));
    }
  }

  /** The compaction before a request, when the snapshot is red. */
  method CompactIfRed(t: Transcript, turn: Turn, env: Environment) returns (raised: bool)
    modifies t
    ensures Compacted(t.messages, raised) == CompactedFor(old(t.messages), turn, env)
  {
    raised := false;
    if turn.red {
      var compaction, _ := CompactIfNeeded(t, turn.zone, env.enc, env.keepResults, env.keepTurns, turn.summary);
      raised := compaction.raised;
    }
  }

  /** After the stream: flush what a cancellation left, or commit the response. */
  method Conclude(t: Transcript, registry: ToolRegistry, holder: Plans.PlanHolder?, outcome: TurnOutcome, turn: Turn,
                  env: Environment, nudges: nat)
    returns (v: Verdict, nudged: nat)
    requires holder != null ==> holder.Backed()
    requires outcome == OutcomeOf(turn.stream, env.parse)
    modifies t, registry, holder
    ensures holder != null ==> holder.Backed()
    ensures PassEnd(Now(t, registry, holder, nudged), v)
         == Streamed(old(Now(t, registry, holder, nudges)), turn, env)
  {
    match outcome {
      case Interrupted(partial) =>
        FlushPartial(t, partial);
        v, nudged := Stop(CancelledInStream, None), nudges;
      case Broken =>
        v, nudged := Stop(ExceptionRaised, None), nudges;
      case Answer(response) =>
        v, nudged := CommitResponse(t, registry, holder, response, turn.calls, nudges, env.isSpace);
    }
  }

  /** One pass: deadline, compaction, one request, then finish, nudge or dispatch. */
  method Iterate(t: Transcript, registry: ToolRegistry, holder: Plans.PlanHolder?, turn: Turn, env: Environment,
                 nudges: nat)
    returns (v: Verdict, nudged: nat, dropped: nat, request: Option<seq<Message>>)
    requires holder != null ==> holder.Backed()
    modifies t, registry, holder
    ensures holder != null ==> holder.Backed()
    ensures PassEnd(Now(t, registry, holder, nudged), v) == Pass(old(Now(t, registry, holder, nudges)), turn, env)
    ensures request == RequestOf(old(Now(t, registry, holder, nudges)), turn, env)
    ensures dropped == DroppedBy(old(Now(t, registry, holder, nudges)), turn, env)
  {
    if turn.pastDeadline {
      return Stop(Deadline, None), nudges, 0, None;
    }
    var raised := CompactIfRed(t, turn, env);
    if raised {
      return Stop(ExceptionRaised, None), nudges, 0, None;
    }
    var outcome, sent;
    outcome, dropped, sent := SendTurn(t, turn.stream, env.parse);
    request := Some(sent);
    v, nudged := Conclude(t, registry, holder, outcome, turn, env, nudges);
  }

  /** The tool-stripped last turn after the budget is spent. */
  method GraceTurn(t: Transcript, stream: Stream, parse: Parser)
    returns (stop: StopReason, openCalls: nat, dropped: nat, request: seq<Message>)
    modifies t
    ensures var asked := old(t.messages) + [GRACE_NUDGE];
      && request == Sendable(asked) && dropped == OrphanCount(asked, CallSet(asked))
      && t.messages == Graced(request, stream, parse)
    ensures stop == GraceStop(stream) && openCalls == GraceCalls(stream, parse)
  {
    t.Append(GRACE_NUDGE);
    var outcome;
    outcome, dropped, request := SendTurn(t, stream, parse);
    match outcome {
      case Interrupted(partial) =>
        FlushPartial(t, partial);
        stop, openCalls := CancelledInStream, 0;
      case Broken =>
        stop, openCalls := MaxIterations, 0;
      case Answer(response) =>
        ResponseIsReference(stream.events, parse);
        var message := FromAssistantResponse(response);
        if message.None? {
          return MaxIterations, 0, dropped, request;
        }
        t.Append(message.value);
        stop, openCalls := MaxIterations, |response.toolCalls|;
    }
  }

  // ---- whole runs ----

  /** What a run has come to after n passes that kept going. */
  ghost predicate RunUpTo(n: nat, start: Loop, env: Environment, now: Loop, sent: seq<seq<Message>>, repaired: nat)
  {
    && now == LoopAt(start, env, n) && GoesOn(start, env, n)
    && sent == Requests(start, env, n) && repaired == Repairs(start, env, n)
  }

  lemma {:induction false} RunGoesOn(n: nat, start: Loop, env: Environment, sent: seq<seq<Message>>, repaired: nat,
                                     request: Option<seq<Message>>, dropped: nat)
    requires RunUpTo(n, start, env, LoopAt(start, env, n), sent, repaired)
    requires request == RequestOf(LoopAt(start, env, n), env.turns(n), env)
    requires dropped == DroppedBy(LoopAt(start, env, n), env.turns(n), env)
    ensures sent + AsList(request) == Requests(start, env, n + 1)
    ensures repaired + dropped == Repairs(start, env, n + 1)
    ensures PassAt(start, env, n).loop == LoopAt(start, env, n + 1)
    ensures PassAt(start, env, n).verdict.KeepGoing? ==> GoesOn(start, env, n + 1)
  {
  }

  /** One more pass of a run, with its request and its repairs on record. */
  method NextPass(t: Transcript, registry: ToolRegistry, holder: Plans.PlanHolder?, env: Environment, n: nat,
                  nudges: nat, before: seq<seq<Message>>, repaired: nat, ghost start: Loop)
    returns (v: Verdict, nudged: nat, sent: seq<seq<Message>>, repairs: nat)
    requires holder != null ==> holder.Backed()
    requires RunUpTo(n, start, env, Now(t, registry, holder, nudges), before, repaired)
    modifies t, registry, holder
    ensures holder != null ==> holder.Backed()
    ensures PassAt(start, env, n) == PassEnd(Now(t, registry, holder, nudged), v)
    ensures sent == Requests(start, env, n + 1) && repairs == Repairs(start, env, n + 1)
    ensures v.KeepGoing? ==> RunUpTo(n + 1, start, env, Now(t, registry, holder, nudged), sent, repairs)
  {
    var dropped, request;
    v, nudged, dropped, request := Iterate(t, registry, holder, env.turns(n), env, nudges);
    RunGoesOn(n, start, env, before, repaired, request, dropped);
    sent, repairs := before + AsList(request), repaired + dropped;
  }

  /** The turns of a run, until one stops it (None: the budget is spent). */
  method RunTurns(t: Transcript, registry: ToolRegistry, holder: Plans.PlanHolder?, env: Environment, budget: nat,
                  ghost start: Loop)
    returns (stopped: Option<Verdict>, nudges: nat, repaired: nat, sent: seq<seq<Message>>, n: nat)
    requires holder != null ==> holder.Backed()
    requires Now(t, registry, holder, 0) == start
    modifies t, registry, holder
    ensures holder != null ==> holder.Backed()
    ensures EndsAt(start, env, budget, n) && (stopped.Some? <==> n < budget)
    ensures stopped.Some? ==>
      && PassAt(start, env, n) == PassEnd(Now(t, registry, holder, nudges), stopped.value)
      && sent == Requests(start, env, n + 1) && repaired == Repairs(start, env, n + 1)
    ensures stopped.None? ==> RunUpTo(budget, start, env, Now(t, registry, holder, nudges), sent, repaired)
  {
    nudges, repaired, sent, n := 0, 0, [], 0;
    while n < budget
      invariant n <= budget
      invariant holder != null ==> holder.Backed()
      invariant RunUpTo(n, start, env, Now(t, registry, holder, nudges), sent, repaired)
    {
      var verdict;
      verdict, nudges, sent, repaired := NextPass(t, registry, holder, env, n, nudges, sent, repaired, start);
      if verdict.Stop? {
        return Some(verdict), nudges, repaired, sent, n;
      }
      n := n + 1;
    }
    stopped := None;
  }

  /** The state a run starts from. */
  ghost function StartOf(msgs: seq<Message>, userMessage: string, held: Plans.Held): Loop
  {
    Loop(msgs + [Message(User, [TextBlock(userMessage)])], [], held, 0)
  }

  lemma {:induction false} StartIsSound(msgs: seq<Message>, userMessage: string, held: Plans.Held)
    requires held.Backed()
    ensures LoopSound(StartOf(msgs, userMessage, held), PairingOf(msgs))
  {
    AddText(msgs, UserText(userMessage), PairingOf(msgs));
  }

  /** The end of a run whose budget is spent: the grace turn and its report. */
  method EndBudget(t: Transcript, ghost held: Plans.Held, ghost history: seq<CallKey>, env: Environment, budget: nat,
                   nudges: nat, before: seq<seq<Message>>, repaired: nat, ghost start: Loop)
    returns (r: RunResult, sent: seq<seq<Message>>)
    requires EndsAt(start, env, budget, budget)
    requires RunUpTo(budget, start, env, Loop(t.messages, history, held, nudges), before, repaired)
    modifies t
    ensures r == Report(start, env, budget, budget) && sent == AllRequests(start, env, budget, budget)
    ensures t.messages == Final(start, env, budget, budget).messages
    ensures held == Final(start, env, budget, budget).held
  {
    BudgetEnds(start, env, budget, Loop(t.messages, history, held, nudges));
    var stop, openCalls, dropped, request := GraceTurn(t, env.graceStream, env.parse);
    sent := before + [request];
    r := RunResult(stop, None, budget, |sent|, nudges, repaired + dropped, openCalls);
  }

  /** A run from its first pass on. */
  method RunFrom(t: Transcript, registry: ToolRegistry, holder: Plans.PlanHolder?, env: Environment, budget: nat,
                 ghost start: Loop)
    returns (r: RunResult, sent: seq<seq<Message>>, n: nat)
    requires holder != null ==> holder.Backed()
    requires Now(t, registry, holder, 0) == start
    modifies t, registry, holder
    ensures holder != null ==> holder.Backed()
    ensures EndsAt(start, env, budget, n)
    ensures r == Report(start, env, budget, n) && sent == AllRequests(start, env, budget, n)
    ensures t.messages == Final(start, env, budget, n).messages
    ensures Plans.HeldBy(holder) == Final(start, env, budget, n).held
  {
    var stopped, nudges, repaired;
    stopped, nudges, repaired, sent, n := RunTurns(t, registry, holder, env, budget, start);
    if stopped.Some? {
      var v := stopped.value;
      StoppedEnds(start, env, budget, n, Now(t, registry, holder, nudges), v);
      r := RunResult(v.reason, v.answer, if StopsEarly(v.reason) then n else n + 1, |sent|, nudges, repaired, 0);
    } else {
      r, sent := EndBudget(t, Plans.HeldBy(holder), registry.history, env, budget, nudges, sent, repaired, start);
    }
  }

  method Arun(t: Transcript, userMessage: string, holder: Plans.PlanHolder?, env: Environment, budget: nat)
    returns (r: RunResult, sent: seq<seq<Message>>, ghost n: nat)
    requires holder != null ==> holder.Backed()
    modifies t, holder
    ensures holder != null ==> holder.Backed()
    // the run is the course its start and its environment fix: where it ends, what it reports,
    // what it sends and what it leaves behind
    ensures var start := StartOf(old(t.messages), userMessage, old(Plans.HeldBy(holder)));
      && EndsAt(start, env, budget, n)
      && r == Report(start, env, budget, n) && sent == AllRequests(start, env, budget, n)
      && t.messages == Final(start, env, budget, n).messages
      && Plans.HeldBy(holder) == Final(start, env, budget, n).held
    ensures GoodEnd(r, budget, Plans.HeldBy(holder).Active(), env.isSpace, PairingOf(old(t.messages)))
    // every request that went out was free of orphans, and paired as the run began
    ensures |sent| == r.sends && RequestsSound(sent, PairingOf(old(t.messages)))
    // the transcript can be used again, paired as the run began; calls stay unanswered exactly
    // when the environment cuts one off or answers the grace turn with calls
    ensures LeftAs(t.messages,
                   LeavesOpen(StartOf(old(t.messages), userMessage, old(Plans.HeldBy(holder))), env, budget, n),
                   PairingOf(old(t.messages)))
  {
    ghost var start, p := StartOf(t.messages, userMessage, Plans.HeldBy(holder)), PairingOf(t.messages);
    StartIsSound(t.messages, userMessage, Plans.HeldBy(holder));
    t.Append(UserText(userMessage));
    var registry := new ToolRegistry();
    r, sent, n := RunFrom(t, registry, holder, env, budget, start);
    SendsAreSound(start, env, budget, n, p);
    LeavesSound(start, env, budget, n, p);
    EndsWell(start, env, budget, n, p);
  }

  // ---- environments ----

  const READ_CALL: Event := ToolCallStart(Some("call_1"), "read")

  const NULL_ARGS: Event := ToolCallDelta(Some("call_1"), "null")

  /** A stream that asks for one tool, and one whose arguments are the JSON text null. */
  const ASKS: Stream := Completes([READ_CALL])

  const ASKS_NULL: Stream := Completes([READ_CALL, NULL_ARGS])

  function JsonOf(buffer: string): Json { if buffer == "null" then OtherJson else Object(buffer) }

  /** A stream that opens call_1. */
  lemma {:induction false} OneStart()
    ensures Resolved([READ_CALL]) == [("call_1", READ_CALL)]
  {
    assert [READ_CALL][..0] == [];
    assert Run(START, []) == START && Target(START, READ_CALL) == "call_1";
    assert Resolved([]) == [];
    assert Resolved([READ_CALL]) == Resolved([]) + [("call_1", READ_CALL)];
  }

  /** What the reference reading makes of it. */
  lemma {:induction false} OneRead()
    ensures var r := [("call_1", READ_CALL)];
      FirstSeen(r) == ["call_1"] && Fragments(r, "call_1") == "" && NameOf(r, "call_1") == "read"
  {
    var r := [("call_1", READ_CALL)];
    assert r[..0] == [] && FirstSeen([]) == [] && Fragments([], "call_1") == "";
  }

  lemma {:induction false} OneCall()
    ensures CallsOf([READ_CALL], JsonOf) == [ToolCallRef("call_1", "read", NoArgs)]
  {
    OneStart();
    OneRead();
  }

  lemma {:induction false} NullStart()
    ensures Resolved([READ_CALL, NULL_ARGS]) == [("call_1", READ_CALL), ("call_1", NULL_ARGS)]
  {
    var events := [READ_CALL, NULL_ARGS];
    assert events[..1] == [READ_CALL];
    OneStart();
    assert Target(Run(START, [READ_CALL]), NULL_ARGS) == "call_1";
    assert Resolved(events) == Resolved([READ_CALL]) + [("call_1", NULL_ARGS)];
  }

  lemma {:induction false} NullRead()
    ensures var r := [("call_1", READ_CALL), ("call_1", NULL_ARGS)];
      FirstSeen(r) == ["call_1"] && Fragments(r, "call_1") == "null" && NameOf(r, "call_1") == "read"
  {
    var r := [("call_1", READ_CALL), ("call_1", NULL_ARGS)];
    assert r[..1] == [("call_1", READ_CALL)];
    OneRead();
  }

  lemma {:induction false} NullCall()
    ensures CallsOf([READ_CALL, NULL_ARGS], JsonOf) == [ToolCallRef("call_1", "read", NotAnObject("null"))]
  {
    NullStart();
    NullRead();
    assert "null" != "";
  }

  function Quiet(stream: Stream, halt: Halt): Turn
  {
    Turn(false, false, _ => Green, None, stream, _ => CallOutcome(true, true, false, halt, NoPlanTool, "", false))
  }

  function Model(stream: Stream, halt: Halt, graceStream: Stream): Environment
  {
    Environment(_ => Quiet(stream, halt), graceStream, JsonOf, s => |s|, c => c == ' ', 3, 6)
  }

  /** The start of a run on an empty transcript without a plan holder. */
  ghost function Fresh(): Loop { StartOf([], "go", Plans.NoHolder) }

  lemma {:induction false} StreamsDiffer()
    ensures ASKS != ASKS_NULL
  {
    assert |ASKS.events| != |ASKS_NULL.events|;
  }

  /** How a turn that asks for one tool ends. */
  lemma {:induction false} AskingVerdict(halt: Halt, graceStream: Stream)
    ensures var env := Model(ASKS, halt, graceStream);
      && PassAt(Fresh(), env, 0).verdict == (if halt == NoHalt then KeepGoing else Stop(CutReason(halt), None))
      && (PassOpens(Fresh(), env.turns(0), env) <==> halt != NoHalt)
  {
    var env := Model(ASKS, halt, graceStream);
    OneCall();
    var calls := CallsOf([READ_CALL], JsonOf);
    assert calls[0] == ToolCallRef("call_1", "read", NoArgs) && calls[..0] == [];
    assert CutsOff(calls[0], env.turns(0).calls(0)) <==> halt != NoHalt;
    assert CutAt(calls, env.turns(0).calls) == if halt == NoHalt then 1 else 0;
    VerdictRule(Fresh(), env.turns(0), env);
  }

  /** How a turn whose arguments are null ends. */
  lemma {:induction false} NullVerdict(halt: Halt, graceStream: Stream)
    ensures var env := Model(ASKS_NULL, halt, graceStream);
      && PassAt(Fresh(), env, 0).verdict == Stop(ExceptionRaised, None)
      && !PassOpens(Fresh(), env.turns(0), env)
  {
    var env := Model(ASKS_NULL, halt, graceStream);
    NullCall();
    assert CallsOf([READ_CALL, NULL_ARGS], JsonOf)[0].args.NotAnObject?;
    VerdictRule(Fresh(), env.turns(0), env);
  }

  lemma {:induction false} FirstVerdict(stream: Stream, halt: Halt, graceStream: Stream)
    requires stream == ASKS || stream == ASKS_NULL
    ensures var env := Model(stream, halt, graceStream);
      && PassAt(Fresh(), env, 0).verdict ==
           (if stream == ASKS_NULL then Stop(ExceptionRaised, None)
            else if halt == NoHalt then KeepGoing else Stop(CutReason(halt), None))
      && (PassOpens(LoopAt(Fresh(), env, 0), env.turns(0), env) <==> stream == ASKS && halt != NoHalt)
  {
    StreamsDiffer();
    if stream == ASKS {
      AskingVerdict(halt, graceStream);
    } else {
      NullVerdict(halt, graceStream);
    }
  }

  /** Where its run of one turn ends, and whether it leaves calls open. */
  lemma {:induction false} FirstEnd(stream: Stream, halt: Halt, graceStream: Stream, n: nat)
    requires stream == ASKS || stream == ASKS_NULL
    requires EndsAt(Fresh(), Model(stream, halt, graceStream), 1, n)
    ensures n == if stream == ASKS && halt == NoHalt then 1 else 0
    ensures LeavesOpen(Fresh(), Model(stream, halt, graceStream), 1, n)
       <==> if n == 1 then GraceCalls(graceStream, JsonOf) > 0 else stream == ASKS
  {
    FirstVerdict(stream, halt, graceStream);
    assert n == 1 ==> PassAt(Fresh(), Model(stream, halt, graceStream), 0).verdict.KeepGoing?;
  }

  lemma {:induction false} EmptyIsPaired()
    ensures PairingOf([]) == TwoWay
  {
  }

  /** A run on an empty transcript answers every call unless it leaves some open. */
  method RunFresh(env: Environment) returns (t: Transcript, r: RunResult, ghost n: nat)
    ensures EndsAt(Fresh(), env, 1, n) && r == Report(Fresh(), env, 1, n)
    ensures Answered(t.messages) <==> !LeavesOpen(Fresh(), env, 1, n)
  {
    t := new Transcript();
    EmptyIsPaired();
    var sent;
    r, sent, n := Arun(t, "go", null, env, 1);
  }

  /** One turn of that model, and what it reports. */
  method RunOnce(stream: Stream, halt: Halt, graceStream: Stream) returns (t: Transcript, r: RunResult)
    requires stream == ASKS || stream == ASKS_NULL
    ensures stream == ASKS && halt == NoHalt ==>
      && r.stop == GraceStop(graceStream) && r.graceCalls == GraceCalls(graceStream, JsonOf)
      && (Answered(t.messages) <==> r.graceCalls == 0)
    ensures stream == ASKS && halt != NoHalt ==> r.stop == CutReason(halt) && !Answered(t.messages)
    ensures stream == ASKS_NULL ==> r.stop == ExceptionRaised && Answered(t.messages)
  {
    ghost var n;
    t, r, n := RunFresh(Model(stream, halt, graceStream));
    FirstVerdict(stream, halt, graceStream);
    FirstEnd(stream, halt, graceStream, n);
    StreamsDiffer();
  }

  /** A model that asks for a tool on its one turn, and on the grace turn too. */
  method GraceLeavesCalls() returns (t: Transcript, r: RunResult)
    ensures r.stop == MaxIterations && r.graceCalls == 1 && !Answered(t.messages)
  {
    OneCall();
    t, r := RunOnce(ASKS, NoHalt, ASKS);
  }

  /** A tool that is cancelled while it runs. */
  method CancelledToolLeavesCalls() returns (t: Transcript, r: RunResult)
    ensures r.stop == CancelledInTool && !Answered(t.messages)
  {
    t, r := RunOnce(ASKS, CancelledHere, ASKS);
  }

  /** A permission check that raises. */
  method RaisingCheckLeavesCalls() returns (t: Transcript, r: RunResult)
    ensures r.stop == ExceptionRaised && !Answered(t.messages)
  {
    t, r := RunOnce(ASKS, RaisedHere, ASKS);
  }

  /** Arguments that are null: the run raises and no call is left open. */
  method NullArgumentsRaise() returns (t: Transcript, r: RunResult)
    ensures r.stop == ExceptionRaised && Answered(t.messages)
  {
    t, r := RunOnce(ASKS_NULL, NoHalt, ASKS);
  }

  /** The same in the grace turn: the exception is caught and no call is left open. */
  method NullGraceIsCaught() returns (t: Transcript, r: RunResult)
    ensures r.stop == MaxIterations && r.graceCalls == 0 && Answered(t.messages)
  {
    NullCall();
    assert !Convertible(CallsOf([READ_CALL, NULL_ARGS], JsonOf)) by {
      assert CallsOf([READ_CALL, NULL_ARGS], JsonOf)[0].args.NotAnObject?;
    }
    t, r := RunOnce(ASKS, NoHalt, ASKS_NULL);
  }
}
