/** What a run of the agent does (src/harness/agent.py), pass by pass, as functions of the
    transcript it starts from and of the environment; and what every run keeps. The model, the
    tools and the moments of cancellation are the environment: any behaviour of theirs is a run. */
module AgentRuns {
  import opened Sequences
  import opened Messages
  import opened Context
  import opened Streaming
  import opened Registry
  import Plans

  const MAX_COMPLETION_NUDGES := 2

  // ---- the environment ----

  /** How a provider's stream ends. RaisesAfter stands for whatever raises until the response is
      there, a JSON parser that fails with anything but a decode error included. */
  datatype Stream = Completes(events: seq<Event>) | CancelledAfter(events: seq<Event>) | RaisesAfter(events: seq<Event>)

  /** One turn's environment. `red` is the snapshot before it, `zone` the accountant's verdict on
      a list, `summary` the summarizer's reply (None: its call raises). */
  datatype Turn = Turn(
    pastDeadline: bool, red: bool, zone: seq<Message> -> ZoneState, summary: Option<string>,
    stream: Stream, calls: nat -> CallOutcome)

  datatype Environment = Environment(
    turns: nat -> Turn, graceStream: Stream, parse: Parser, enc: Encoder, isSpace: char -> bool,
    keepResults: nat, keepTurns: nat)

  datatype StopReason =
    | AnswerGiven | MaxIterations | Deadline | EmptyResponse | IncompletePlan
    | CancelledInStream | CancelledInTool | ExceptionRaised

  /** `sends` counts provider turns, `repaired` the orphans dropped before them, and
      `graceCalls` the tool calls of a grace turn, which are committed but never dispatched. */
  datatype RunResult = RunResult(
    stop: StopReason, answer: Option<string>, iterations: nat, sends: nat, nudges: nat, repaired: nat,
    graceCalls: nat)

  predicate IsBlank(s: string, isSpace: char -> bool) { forall i :: 0 <= i < |s| ==> isSpace(s[i]) }

  ghost predicate SaysSomething(s: string, isSpace: char -> bool) { exists i :: 0 <= i < |s| && !isSpace(s[i]) }

  // ---- what a stream gives back ----

  /** The joined text deltas; None when there was none. */
  function PartialText(events: seq<Event>): Option<string>
  {
    if events == [] then None
    else
      var front, e := PartialText(events[..|events| - 1]), events[|events| - 1];
      if !e.TextDelta? then front
      else Some((if front.Some? then front.value else "") + e.text)
  }

  /** The calls a completed stream asks for, by the reference reading. */
  ghost function CallsOf(events: seq<Event>, parse: Parser): (calls: seq<ToolCallRef>)
  {
    var res := Resolved(events);
    seq(|FirstSeen(res)|, k requires 0 <= k < |FirstSeen(res)| =>
      ToolCallRef(FirstSeen(res)[k], NameOf(res, FirstSeen(res)[k]), ArgsOf(Fragments(res, FirstSeen(res)[k]), parse)))
  }

  /** The text of a completed stream: its text deltas, joined. */
  ghost function TextOf(events: seq<Event>): string
  {
    if PartialText(events).Some? then PartialText(events).value else ""
  }

  lemma {:induction false} TextIsJoined(events: seq<Event>)
    ensures Run(START, events).text == TextOf(events)
  {
    if events != [] {
      TextIsJoined(events[..|events| - 1]);
    }
  }

  /** The response a completed stream is accumulated to. */
  ghost function ResponseTo(events: seq<Event>, parse: Parser): (r: ProviderResponse)
    ensures r.IsFinal() != r.IsToolCall()
  {
    RunInv(START, events);
    ResponseOf(Run(START, events), parse)
  }

  /** Its calls and its text, by the reference reading of the stream. */
  lemma {:induction false} ResponseIsReference(events: seq<Event>, parse: Parser)
    ensures ResponseTo(events, parse).toolCalls == CallsOf(events, parse)
    ensures ResponseTo(events, parse).text == if CallsOf(events, parse) == [] then Some(TextOf(events)) else None
  {
    RunIsReference(events);
    TextIsJoined(events);
    CallsMatch(Run(START, events).order, Run(START, events).entries, Resolved(events), parse);
    assert ResponseTo(events, parse).toolCalls == CallsOf(events, parse);
  }

  // ---- a batch of calls ----

  /** The index of the first call that is cut off; the number of calls if none is. */
  function CutAt(calls: seq<ToolCallRef>, outcomes: nat -> CallOutcome): (n: nat)
    ensures n <= |calls|
    ensures n < |calls| ==> CutsOff(calls[n], outcomes(n))
    ensures forall j :: 0 <= j < n ==> !CutsOff(calls[j], outcomes(j))
  {
    if calls == [] then 0
    else
      var last := |calls| - 1;
      var n := CutAt(calls[..last], outcomes);
      if n < last || CutsOff(calls[last], outcomes(last)) then n else last + 1
  }

  /** No call of the batch is cut off. */
  ghost predicate AllRun(calls: seq<ToolCallRef>, outcomes: nat -> CallOutcome)
  {
    forall j :: 0 <= j < |calls| ==> !CutsOff(calls[j], outcomes(j))
  }

  /** What dispatching changes besides the transcript. */
  datatype Desk = Desk(history: seq<CallKey>, held: Plans.Held)

  /** The desk after the first n calls. */
  ghost function DeskAfter(calls: seq<ToolCallRef>, outcomes: nat -> CallOutcome, n: nat, desk: Desk): Desk
    requires n <= |calls|
  {
    if n == 0 then desk
    else
      var before := DeskAfter(calls, outcomes, n - 1, desk);
      Desk(HistoryAfter(calls[n - 1], outcomes(n - 1), before.history),
           HeldAfter(calls[n - 1], outcomes(n - 1), before.history, before.held))
  }

  /** The result message of call k. */
  ghost function AnswerTo(calls: seq<ToolCallRef>, outcomes: nat -> CallOutcome, k: nat, desk: Desk): (m: Message)
    requires k < |calls|
    ensures m.role == User && Answers(m, calls[k].id)
  {
    Message(User, [ResultOf(calls[k], outcomes(k), DeskAfter(calls, outcomes, k, desk).history)])
  }

  /** The result messages of the first n calls. */
  ghost function ResultsOf(calls: seq<ToolCallRef>, outcomes: nat -> CallOutcome, n: nat,
                           desk: Desk): (results: seq<Message>)
    requires n <= |calls|
    ensures |results| == n
  {
    seq(n, k requires 0 <= k < n => AnswerTo(calls, outcomes, k, desk))
  }

  // ---- one pass ----

  /** The working state of a run between two passes. */
  datatype Loop = Loop(messages: seq<Message>, history: seq<CallKey>, held: Plans.Held, nudges: nat)

  datatype Verdict = KeepGoing | Stop(reason: StopReason, answer: Option<string>)

  datatype PassEnd = PassEnd(loop: Loop, verdict: Verdict)

  function Flushed(msgs: seq<Message>, partial: Option<string>): seq<Message>
  {
    if partial.Some? then msgs + [Message(Assistant, [TextBlock(partial.value + " [interrupted]")])] else msgs
  }

  /** Whether an active plan forbids finishing now. */
  predicate PlanOpen(plan: Option<Plans.Plan>)
  {
    plan.Some? && !plan.value.IsReadyToFinalize()
  }

  /** The plan has a step that is neither done nor blocked, or an unverified postcondition. */
  ghost predicate HasOpenWork(plan: Option<Plans.Plan>)
  {
    plan.Some? &&
      var steps, conditions := plan.value.steps, plan.value.postconditions;
      || (exists i :: 0 <= i < |steps| && steps[i].status != Plans.Done && steps[i].status != Plans.Blocked)
      || (exists i :: 0 <= i < |conditions| && !conditions[i].satisfied)
  }

  lemma {:induction false} OpenExactly(plan: Option<Plans.Plan>)
    ensures PlanOpen(plan) <==> HasOpenWork(plan)
  {
    if PlanOpen(plan) && plan.value.AllPostconditionsSatisfied() {
      var i :| 0 <= i < |plan.value.steps| && !plan.value.steps[i].IsTerminal();
      assert plan.value.steps[i].status != Plans.Done && plan.value.steps[i].status != Plans.Blocked;
    }
  }

  const COMPLETION_NUDGE: Message := UserText("not yet complete")

  /** The completion gate: an open plan is nudged while nudges are left, then fails closed; a
      blank text is no answer. */
  ghost function Finished(s: Loop, text: string, isSpace: char -> bool): PassEnd
  {
    if PlanOpen(s.held.Active()) then
      if s.nudges < MAX_COMPLETION_NUDGES
      then PassEnd(s.(messages := s.messages + [COMPLETION_NUDGE], nudges := s.nudges + 1), KeepGoing)
      else PassEnd(s, Stop(IncompletePlan, None))
    else if IsBlank(text, isSpace) then PassEnd(s, Stop(EmptyResponse, None))
    else PassEnd(s, Stop(AnswerGiven, Some(text)))
  }

  function CutReason(halt: Halt): StopReason { if halt == CancelledHere then CancelledInTool else ExceptionRaised }

  /** Dispatch a committed batch in arrival order, up to the first call that is cut off. */
  ghost function Dispatched(s: Loop, calls: seq<ToolCallRef>, outcomes: nat -> CallOutcome): PassEnd
  {
    var n, desk := CutAt(calls, outcomes), Desk(s.history, s.held);
    var after := DeskAfter(calls, outcomes, n, desk);
    PassEnd(Loop(s.messages + ResultsOf(calls, outcomes, n, desk), after.history, after.held, s.nudges),
            if n == |calls| then KeepGoing else Stop(CutReason(outcomes(n).halt), None))
  }

  /** Commit what the stream came to; a response whose arguments are no object commits nothing. */
  ghost function Committed(s: Loop, response: ProviderResponse, outcomes: nat -> CallOutcome,
                           isSpace: char -> bool): PassEnd
    requires response.IsFinal() != response.IsToolCall()
  {
    match FromAssistantResponse(response)
    case None => PassEnd(s, Stop(ExceptionRaised, None))
    case Some(m) =>
      var s' := s.(messages := s.messages + [m]);
      if response.IsFinal() then Finished(s', response.text.value, isSpace)
      else Dispatched(s', response.toolCalls, outcomes)
  }

  ghost function Streamed(s: Loop, turn: Turn, env: Environment): PassEnd
  {
    match turn.stream
    case CancelledAfter(events) =>
      PassEnd(s.(messages := Flushed(s.messages, PartialText(events))), Stop(CancelledInStream, None))
    case RaisesAfter(_) => PassEnd(s, Stop(ExceptionRaised, None))
    case Completes(events) => Committed(s, ResponseTo(events, env.parse), turn.calls, env.isSpace)
  }

  /** The compaction before a request, when the snapshot is red. */
  ghost function CompactedFor(msgs: seq<Message>, turn: Turn, env: Environment): Compacted
  {
    if turn.red then Compaction(msgs, turn.zone, env.enc, env.keepResults, env.keepTurns, turn.summary)
    else Compacted(msgs, false)
  }

  /** One pass: deadline, compaction, repair, one request, then finish, nudge or dispatch. */
  ghost function Pass(s: Loop, turn: Turn, env: Environment): PassEnd
  {
    if turn.pastDeadline then PassEnd(s, Stop(Deadline, None))
    else
      var c := CompactedFor(s.messages, turn, env);
      if c.raised then PassEnd(s.(messages := c.list), Stop(ExceptionRaised, None))
      else Streamed(s.(messages := Sendable(c.list)), turn, env)
  }

  /** The request a pass sends, if it gets that far. */
  ghost function RequestOf(s: Loop, turn: Turn, env: Environment): Option<seq<Message>>
  {
    var c := CompactedFor(s.messages, turn, env);
    if turn.pastDeadline || c.raised then None else Some(Sendable(c.list))
  }

  /** The orphans dropped before that request. */
  ghost function DroppedBy(s: Loop, turn: Turn, env: Environment): nat
  {
    var c := CompactedFor(s.messages, turn, env);
    if turn.pastDeadline || c.raised then 0 else OrphanCount(c.list, CallSet(c.list))
  }

  /** The turn cuts a call off: its stream completes with calls whose arguments are objects,
      and one of them is cancelled or raises outside the tool. */
  ghost predicate CutsInTool(turn: Turn, env: Environment)
  {
    && !turn.pastDeadline && turn.stream.Completes?
    && Convertible(CallsOf(turn.stream.events, env.parse))
    && !AllRun(CallsOf(turn.stream.events, env.parse), turn.calls)
  }

  ghost predicate PassOpens(s: Loop, turn: Turn, env: Environment)
  {
    CutsInTool(turn, env) && !CompactedFor(s.messages, turn, env).raised
  }

  // ---- the verdict of a pass, read off the environment ----

  /** What a completed stream comes to: the calls and the text by its reference reading. */
  ghost function StreamVerdict(s: Loop, calls: seq<ToolCallRef>, text: string, outcomes: nat -> CallOutcome,
                               isSpace: char -> bool): Verdict
  {
    if !Convertible(calls) then Stop(ExceptionRaised, None)
    else if calls != [] then
      if AllRun(calls, outcomes) then KeepGoing else Stop(CutReason(outcomes(CutAt(calls, outcomes)).halt), None)
    else if HasOpenWork(s.held.Active()) then
      if s.nudges < 2 then KeepGoing else Stop(IncompletePlan, None)
    else if SaysSomething(text, isSpace) then Stop(AnswerGiven, Some(text))
    else Stop(EmptyResponse, None)
  }

  /** A pass stops for these reasons and no others, each exactly when the turn gives it. */
  ghost function VerdictOf(s: Loop, turn: Turn, env: Environment): Verdict
  {
    if turn.pastDeadline then Stop(Deadline, None)
    else if CompactedFor(s.messages, turn, env).raised then Stop(ExceptionRaised, None)
    else
      match turn.stream
      case CancelledAfter(_) => Stop(CancelledInStream, None)
      case RaisesAfter(_) => Stop(ExceptionRaised, None)
      case Completes(events) =>
        StreamVerdict(s, CallsOf(events, env.parse), TextOf(events), turn.calls, env.isSpace)
  }

  lemma {:induction false} CommittedVerdict(s: Loop, r: ProviderResponse, outcomes: nat -> CallOutcome,
                                            isSpace: char -> bool)
    requires r.IsFinal() != r.IsToolCall()
    ensures Committed(s, r, outcomes, isSpace).verdict
         == StreamVerdict(s, r.toolCalls, if r.text.Some? then r.text.value else "", outcomes, isSpace)
  {
    assert AllRun(r.toolCalls, outcomes) <==> CutAt(r.toolCalls, outcomes) == |r.toolCalls|;
    OpenExactly(s.held.Active());
  }

  lemma {:induction false} StreamedVerdict(s: Loop, turn: Turn, env: Environment)
    requires turn.stream.Completes?
    ensures var events := turn.stream.events;
      Streamed(s, turn, env).verdict
      == StreamVerdict(s, CallsOf(events, env.parse), TextOf(events), turn.calls, env.isSpace)
  {
    var events := turn.stream.events;
    ResponseIsReference(events, env.parse);
    CommittedVerdict(s, ResponseTo(events, env.parse), turn.calls, env.isSpace);
  }

  lemma {:induction false} VerdictRule(s: Loop, turn: Turn, env: Environment)
    ensures Pass(s, turn, env).verdict == VerdictOf(s, turn, env)
  {
    if turn.stream.Completes? {
      StreamedVerdict(s.(messages := Sendable(CompactedFor(s.messages, turn, env).list)), turn, env);
    }
  }

  /** A pass that leaves calls open stops the run, for the reason its first cut-off call gives;
      no other pass stops as cancelled in a tool. */
  lemma {:induction false} CutStopsExactly(s: Loop, turn: Turn, env: Environment)
    ensures PassOpens(s, turn, env) ==>
      var calls := CallsOf(turn.stream.events, env.parse);
      var n := CutAt(calls, turn.calls);
      && n < |calls| && CutsOff(calls[n], turn.calls(n))
      && Pass(s, turn, env).verdict == Stop(CutReason(turn.calls(n).halt), None)
    ensures Pass(s, turn, env).verdict == Stop(CancelledInTool, None) ==> PassOpens(s, turn, env)
  {
    VerdictRule(s, turn, env);
  }

  /** A response whose arguments are no objects ends the run with nothing committed. */
  lemma {:induction false} NoObjectRaises(s: Loop, turn: Turn, env: Environment)
    requires turn.stream.Completes? && !Convertible(CallsOf(turn.stream.events, env.parse))
    requires RequestOf(s, turn, env).Some?
    ensures Pass(s, turn, env)
         == PassEnd(s.(messages := RequestOf(s, turn, env).value), Stop(ExceptionRaised, None))
  {
    ResponseIsReference(turn.stream.events, env.parse);
  }

  // ---- what a pass leaves ----

  ghost predicate HasTextDelta(events: seq<Event>) { exists k :: 0 <= k < |events| && events[k].TextDelta? }

  /** A cancelled stream leaves its joined text, marked, unless it had none. */
  lemma {:induction false} PartialExactly(events: seq<Event>)
    ensures PartialText(events).Some? <==> HasTextDelta(events)
  {
    if events != [] {
      var n := |events| - 1;
      PartialExactly(events[..n]);
      if HasTextDelta(events) && !events[n].TextDelta? {
        var k :| 0 <= k < |events| && events[k].TextDelta?;
        assert events[..n][k].TextDelta?;
      }
    }
  }

  /** The results of the first calls: one message each, on the user role, under the call's id. */
  ghost predicate ResultsFor(results: seq<Message>, calls: seq<ToolCallRef>)
  {
    && |results| <= |calls|
    && forall j :: 0 <= j < |results| ==> results[j].role == User && Answers(results[j], calls[j].id)
  }

  lemma {:induction false} ResultsAnswer(calls: seq<ToolCallRef>, outcomes: nat -> CallOutcome, n: nat, desk: Desk)
    requires n <= |calls|
    ensures ResultsFor(ResultsOf(calls, outcomes, n, desk), calls)
  {
  }

  /** Behind the request stand the response and then the results of its calls, or the nudge when
      it has none, the plan has open work and nudges are left. */
  ghost predicate Extends(left: seq<Message>, sent: seq<Message>, s: Loop, r: ProviderResponse,
                          outcomes: nat -> CallOutcome)
  {
    && |left| > |sent| && left[..|sent|] == sent && CommitsExactly(left[|sent|], r)
    && var rest := left[|sent| + 1..];
       if r.toolCalls != [] then ResultsFor(rest, r.toolCalls) && |rest| == CutAt(r.toolCalls, outcomes)
       else
         rest == if HasOpenWork(s.held.Active()) && s.nudges < 2
                 then [Message(User, [TextBlock("not yet complete")])] else []
  }

  lemma {:induction false} ExtendsBy(sent: seq<Message>, m: Message, rest: seq<Message>)
    ensures var left := sent + [m] + rest; left[..|sent|] == sent && left[|sent|] == m && left[|sent| + 1..] == rest
  {
  }

  lemma {:induction false} DispatchedLeaves(s: Loop, m: Message, r: ProviderResponse, outcomes: nat -> CallOutcome)
    requires r.toolCalls != [] && CommitsExactly(m, r)
    ensures Extends(Dispatched(s.(messages := s.messages + [m]), r.toolCalls, outcomes).loop.messages, s.messages, s,
                    r, outcomes)
  {
    var n, desk := CutAt(r.toolCalls, outcomes), Desk(s.history, s.held);
    ResultsAnswer(r.toolCalls, outcomes, n, desk);
    ExtendsBy(s.messages, m, ResultsOf(r.toolCalls, outcomes, n, desk));
  }

  lemma {:induction false} FinishedLeaves(s: Loop, m: Message, r: ProviderResponse, text: string,
                                          outcomes: nat -> CallOutcome, isSpace: char -> bool)
    requires r.toolCalls == [] && CommitsExactly(m, r)
    ensures Extends(Finished(s.(messages := s.messages + [m]), text, isSpace).loop.messages, s.messages, s, r, outcomes)
  {
    OpenExactly(s.held.Active());
    ExtendsBy(s.messages, m, []);
    ExtendsBy(s.messages, m, [COMPLETION_NUDGE]);
  }

  lemma {:induction false} CommittedLeaves(s: Loop, r: ProviderResponse, outcomes: nat -> CallOutcome,
                                           isSpace: char -> bool)
    requires r.IsFinal() != r.IsToolCall() && Convertible(r.toolCalls)
    ensures Extends(Committed(s, r, outcomes, isSpace).loop.messages, s.messages, s, r, outcomes)
  {
    var m := FromAssistantResponse(r).value;
    CommittedCalls(r);
    if r.IsFinal() {
      FinishedLeaves(s, m, r, r.text.value, outcomes, isSpace);
    } else {
      DispatchedLeaves(s, m, r, outcomes);
    }
  }

  /** What a pass that gets to its request leaves in the transcript, read off its stream. */
  lemma {:induction false} PassLeaves(s: Loop, turn: Turn, env: Environment)
    requires RequestOf(s, turn, env).Some?
    ensures var sent, left := RequestOf(s, turn, env).value, Pass(s, turn, env).loop.messages;
      match turn.stream
      case CancelledAfter(events) =>
        left == if HasTextDelta(events) then sent + [Message(Assistant, [TextBlock(TextOf(events) + " [interrupted]")])]
                else sent
      case RaisesAfter(_) => left == sent
      case Completes(events) =>
        if Convertible(CallsOf(events, env.parse))
        then Extends(left, sent, s, ResponseTo(events, env.parse), turn.calls)
        else left == sent
  {
    match turn.stream {
      case CancelledAfter(events) =>
        PartialExactly(events);
      case RaisesAfter(_) =>
      case Completes(events) =>
        ResponseIsReference(events, env.parse);
        if Convertible(CallsOf(events, env.parse)) {
          CommittedLeaves(s.(messages := RequestOf(s, turn, env).value), ResponseTo(events, env.parse), turn.calls,
                          env.isSpace);
        }
    }
  }

  // ---- what the transcript keeps ----

  /** How much of the pairing of calls and results a run starts with. */
  datatype Pairing = Unpaired | OneWay | TwoWay

  /** OneWay: the list starts with a plain message and every result has its call. TwoWay:
      every call is answered as well. Unpaired promises nothing. */
  ghost predicate Paired(msgs: seq<Message>, p: Pairing)
  {
    && (p != Unpaired ==> Opens(msgs) && Linked(msgs))
    && (p == TwoWay ==> Answered(msgs))
  }

  /** The same, and not empty. */
  ghost predicate Sound(msgs: seq<Message>, p: Pairing) { Paired(msgs, p) && (p != Unpaired ==> msgs != []) }

  /** The most a list has. */
  ghost function PairingOf(msgs: seq<Message>): (p: Pairing)
    ensures Paired(msgs, p)
  {
    if !(Opens(msgs) && Linked(msgs)) then Unpaired else if Answered(msgs) then TwoWay else OneWay
  }

  /** What is left when calls stay unanswered. */
  function Loosened(p: Pairing): Pairing { if p == TwoWay then OneWay else p }

  /** Where a pass or a run leaves the transcript. */
  ghost predicate LeftAs(msgs: seq<Message>, openCalls: bool, p: Pairing)
  {
    if openCalls then Sound(msgs, Loosened(p)) && !Answered(msgs) else Sound(msgs, p)
  }

  /** Neither a call nor a result. */
  ghost predicate Plain(m: Message) { !HasToolResult(m) && IdsOf(m) == [] }

  lemma {:induction false} AddPlain(msgs: seq<Message>, m: Message, p: Pairing)
    requires Plain(m) && Paired(msgs, p)
    ensures Sound(msgs + [m], p)
  {
    if p != Unpaired {
      AppendPlain(msgs, m);
      assert msgs == [] ==> msgs + [m] == [m];
    }
    if p == TwoWay {
      AppendAnswered(msgs, [m]);
    }
  }

  lemma {:induction false} AddText(msgs: seq<Message>, m: Message, p: Pairing)
    requires |m.blocks| == 1 && m.blocks[0].TextBlock? && Paired(msgs, p)
    ensures Sound(msgs + [m], p)
  {
    TextIsPlain(m);
    AddPlain(msgs, m, p);
  }

  // ---- batches keep it ----

  lemma {:induction false} AnswersIsPlainCall(m: Message, id: string)
    requires Answers(m, id)
    ensures IdsOf(m) == [] && HasToolResult(m)
  {
    assert m.blocks[..0] == [] && CallIds(m.blocks[..0]) == [];
    assert m.blocks[0].ToolResult?;
  }

  /** A committed batch with all its results is paired both ways. */
  lemma {:induction false} BatchAnswered(base: seq<Message>, m: Message, results: seq<Message>, calls: seq<ToolCallRef>)
    requires Answered(base) && IdsOf(m) == Ids(calls)
    requires ResultsFor(results, calls) && |results| == |calls|
    ensures Answered(base + ([m] + results))
  {
    var batch := [m] + results;
    forall k | 0 <= k < |batch| ensures AnsweredAt(batch, k) {
      if k == 0 {
        forall j | 0 <= j < |calls| ensures Answers(batch[k + 1 + j], Ids(calls)[j]) {
          assert batch[k + 1 + j] == results[j];
        }
      } else {
        assert batch[k] == results[k - 1];
        AnswersIsPlainCall(batch[k], calls[k - 1].id);
      }
    }
    AppendAnswered(base, batch);
  }

  /** A batch cut short leaves its message unanswered. */
  lemma {:induction false} OpenBatch(base: seq<Message>, m: Message, results: seq<Message>, calls: seq<ToolCallRef>)
    requires IdsOf(m) == Ids(calls) && |results| < |calls|
    ensures !Answered(base + ([m] + results))
  {
    var all := base + ([m] + results);
    assert all[|base|] == m;
    assert !AnsweredAt(all, |base|);
  }

  /** A message with calls, as from_assistant_response commits it. */
  ghost predicate Commits(m: Message, calls: seq<ToolCallRef>)
  {
    IdsOf(m) == Ids(calls) && m.role == Assistant && !HasToolResult(m)
  }

  /** The message and the results of its first calls. */
  ghost predicate BatchSoFar(base: seq<Message>, m: Message, results: seq<Message>, calls: seq<ToolCallRef>)
  {
    var msgs := base + ([m] + results);
    ResultsFor(results, calls) && Linked(msgs) && Owner(msgs, |msgs| - 1) == |base|
  }

  lemma {:induction false} BatchBegins(base: seq<Message>, m: Message, calls: seq<ToolCallRef>)
    requires Linked(base) && Commits(m, calls)
    ensures BatchSoFar(base, m, [], calls)
  {
    AppendPlain(base, m);
    assert base + ([m] + []) == base + [m];
  }

  /** One more result extends the batch. */
  lemma {:induction false} NextResult(base: seq<Message>, m: Message, results: seq<Message>, calls: seq<ToolCallRef>,
                                      r: Block)
    requires Commits(m, calls) && |results| < |calls| && BatchSoFar(base, m, results, calls)
    requires r.ToolResult? && r.callId == calls[|results|].id
    ensures BatchSoFar(base, m, results + [ResultMessage(r)], calls)
  {
    var msgs := base + ([m] + results);
    assert calls[|results|].id == Ids(calls)[|results|];
    assert msgs[|base|] == m;
    AppendResult(msgs, r, |base|);
    assert msgs + [ResultMessage(r)] == base + ([m] + (results + [ResultMessage(r)]));
  }

  lemma {:induction false} BatchIsLinked(base: seq<Message>, m: Message, calls: seq<ToolCallRef>,
                                         results: seq<Message>)
    requires Linked(base) && Commits(m, calls) && ResultsFor(results, calls)
    ensures BatchSoFar(base, m, results, calls)
  {
    if results == [] {
      BatchBegins(base, m, calls);
    } else {
      var n := |results| - 1;
      BatchIsLinked(base, m, calls, results[..n]);
      NextResult(base, m, results[..n], calls, results[n].blocks[0]);
      assert results[n] == ResultMessage(results[n].blocks[0]);
      SnocSelf(results);
    }
  }

  /** A committed batch, dispatched up to n, keeps the transcript; it is paired both ways
      exactly when no call is missing. */
  lemma {:induction false} BatchIsSound(base: seq<Message>, m: Message, calls: seq<ToolCallRef>,
                                        outcomes: nat -> CallOutcome, n: nat, desk: Desk, p: Pairing)
    requires Sound(base, p) && Commits(m, calls) && n <= |calls|
    ensures LeftAs(base + [m] + ResultsOf(calls, outcomes, n, desk), n < |calls|, p)
  {
    var results := ResultsOf(calls, outcomes, n, desk);
    assert base + [m] + results == base + ([m] + results);
    ResultsAnswer(calls, outcomes, n, desk);
    if p != Unpaired {
      BatchIsLinked(base, m, calls, results);
      assert (base + ([m] + results))[0] == base[0];
    }
    if n < |calls| {
      OpenBatch(base, m, results, calls);
    } else if p == TwoWay {
      BatchAnswered(base, m, results, calls);
    }
  }

  lemma {:induction false} DeskKeepsBacked(calls: seq<ToolCallRef>, outcomes: nat -> CallOutcome, n: nat, desk: Desk)
    requires n <= |calls| && desk.held.Backed()
    ensures DeskAfter(calls, outcomes, n, desk).held.Backed()
  {
    if n > 0 {
      DeskKeepsBacked(calls, outcomes, n - 1, desk);
      EffectKeepsBacked(DeskAfter(calls, outcomes, n - 1, desk).held, outcomes(n - 1).effect);
    }
  }

  // ---- passes keep it ----

  /** Between two passes: paired as the run began, nudges within budget, the plan backed. */
  ghost predicate LoopSound(s: Loop, p: Pairing)
  {
    Sound(s.messages, p) && s.nudges <= MAX_COMPLETION_NUDGES && s.held.Backed()
  }

  lemma {:induction false} CompactedIsSound(msgs: seq<Message>, turn: Turn, env: Environment, p: Pairing)
    requires Sound(msgs, p)
    ensures Sound(CompactedFor(msgs, turn, env).list, p)
  {
    if turn.red {
      CompactionKeepsPairing(msgs, turn.zone, env.enc, env.keepResults, env.keepTurns, turn.summary);
    }
  }

  /** A repair drops nothing from a linked list and leaves no orphan in any. */
  lemma {:induction false} SendableIsPaired(msgs: seq<Message>, p: Pairing)
    requires Paired(msgs, p)
    ensures Paired(Sendable(msgs), p) && NoOrphans(Sendable(msgs))
    ensures p != Unpaired ==> Sendable(msgs) == msgs && OrphanCount(msgs, CallSet(msgs)) == 0
  {
    SendableIsClean(msgs);
  }

  lemma {:induction false} FinishedIsSound(s: Loop, m: Message, text: string, isSpace: char -> bool, p: Pairing)
    requires Paired(s.messages, p) && s.nudges <= MAX_COMPLETION_NUDGES && s.held.Backed() && Plain(m)
    ensures LoopSound(Finished(s.(messages := s.messages + [m]), text, isSpace).loop, p)
  {
    AddPlain(s.messages, m, p);
    AddText(s.messages + [m], COMPLETION_NUDGE, p);
  }

  lemma {:induction false} DispatchedIsSound(s: Loop, m: Message, calls: seq<ToolCallRef>,
                                             outcomes: nat -> CallOutcome, p: Pairing)
    requires LoopSound(s, p) && Commits(m, calls)
    ensures var e := Dispatched(s.(messages := s.messages + [m]), calls, outcomes);
      && LeftAs(e.loop.messages, !AllRun(calls, outcomes), p)
      && e.loop.nudges == s.nudges && e.loop.held.Backed()
  {
    var n, desk := CutAt(calls, outcomes), Desk(s.history, s.held);
    BatchIsSound(s.messages, m, calls, outcomes, n, desk, p);
    DeskKeepsBacked(calls, outcomes, n, desk);
  }

  lemma {:induction false} CommittedIsSound(s: Loop, r: ProviderResponse, outcomes: nat -> CallOutcome,
                                            isSpace: char -> bool, p: Pairing)
    requires LoopSound(s, p) && r.IsFinal() != r.IsToolCall()
    ensures var e := Committed(s, r, outcomes, isSpace);
      && LeftAs(e.loop.messages, Convertible(r.toolCalls) && !AllRun(r.toolCalls, outcomes), p)
      && e.loop.nudges <= MAX_COMPLETION_NUDGES && e.loop.held.Backed()
  {
    CommittedCalls(r);
    if Convertible(r.toolCalls) {
      var m := FromAssistantResponse(r).value;
      if r.IsFinal() {
        FinishedIsSound(s, m, r.text.value, isSpace, p);
      } else {
        DispatchedIsSound(s, m, r.toolCalls, outcomes, p);
      }
    }
  }

  lemma {:induction false} StreamedIsSound(s: Loop, turn: Turn, env: Environment, p: Pairing)
    requires LoopSound(s, p) && !turn.pastDeadline
    ensures var e := Streamed(s, turn, env);
      && LeftAs(e.loop.messages, CutsInTool(turn, env), p)
      && e.loop.nudges <= MAX_COMPLETION_NUDGES && e.loop.held.Backed()
  {
    match turn.stream {
      case Completes(events) =>
        ResponseIsReference(events, env.parse);
        CommittedIsSound(s, ResponseTo(events, env.parse), turn.calls, env.isSpace, p);
      case CancelledAfter(events) =>
        if PartialText(events).Some? {
          AddText(s.messages, AssistantText(PartialText(events).value + " [interrupted]"), p);
        }
      case RaisesAfter(_) =>
    }
  }

  /** The request of a pass has no orphan, is paired as the run began, and is then the
      transcript itself. */
  lemma {:induction false} RequestIsSound(s: Loop, turn: Turn, env: Environment, p: Pairing)
    requires Sound(s.messages, p)
    ensures RequestOf(s, turn, env).Some? ==>
      NoOrphans(RequestOf(s, turn, env).value) && Sound(RequestOf(s, turn, env).value, p)
    ensures p != Unpaired ==> DroppedBy(s, turn, env) == 0
  {
    CompactedIsSound(s.messages, turn, env, p);
    SendableIsPaired(CompactedFor(s.messages, turn, env).list, p);
  }

  /** One pass keeps everything, except that it leaves calls unanswered exactly when the turn
      cuts one off. */
  lemma {:induction false} PassIsSound(s: Loop, turn: Turn, env: Environment, p: Pairing)
    requires LoopSound(s, p)
    ensures var e := Pass(s, turn, env);
      && LeftAs(e.loop.messages, PassOpens(s, turn, env), p)
      && e.loop.nudges <= MAX_COMPLETION_NUDGES && e.loop.held.Backed()
      && (e.verdict.KeepGoing? ==> LoopSound(e.loop, p))
  {
    var c := CompactedFor(s.messages, turn, env);
    CompactedIsSound(s.messages, turn, env, p);
    SendableIsPaired(c.list, p);
    VerdictRule(s, turn, env);
    if !turn.pastDeadline && !c.raised {
      StreamedIsSound(s.(messages := Sendable(c.list)), turn, env, p);
    }
  }

  // ---- what a verdict stands on ----

  /** An answer is a text and comes with a plan proven complete, if there is one; an open plan
      ends a run only when the nudges are spent. */
  ghost predicate VerdictStands(e: PassEnd, isSpace: char -> bool)
  {
    var plan := e.loop.held.Active();
    e.verdict.Stop? ==>
      && (e.verdict.answer.Some? <==> e.verdict.reason == AnswerGiven)
      && (e.verdict.reason == AnswerGiven ==> SaysSomething(e.verdict.answer.value, isSpace))
      && (e.verdict.reason == AnswerGiven || e.verdict.reason == EmptyResponse ==>
            plan.Some? ==> Plans.ProvenComplete(plan.value))
      && (e.verdict.reason == IncompletePlan ==> e.loop.nudges >= MAX_COMPLETION_NUDGES && HasOpenWork(plan))
      && e.verdict.reason != MaxIterations
  }

  lemma {:induction false} FinishedStands(s: Loop, text: string, isSpace: char -> bool)
    requires s.held.Backed()
    ensures VerdictStands(Finished(s, text, isSpace), isSpace)
  {
    var plan := s.held.Active();
    OpenExactly(plan);
    if plan.Some? {
      Plans.ReadyIsProven(plan.value);
    }
  }

  /** A batch or a broken response leaves nothing to answer for. */
  lemma {:induction false} CommittedStands(s: Loop, r: ProviderResponse, outcomes: nat -> CallOutcome,
                                           isSpace: char -> bool)
    requires s.held.Backed() && r.IsFinal() != r.IsToolCall()
    ensures VerdictStands(Committed(s, r, outcomes, isSpace), isSpace)
  {
    var m := FromAssistantResponse(r);
    if m.Some? && r.IsFinal() {
      FinishedStands(s.(messages := s.messages + [m.value]), r.text.value, isSpace);
    }
  }

  lemma {:induction false} PassStands(s: Loop, turn: Turn, env: Environment)
    requires s.held.Backed()
    ensures VerdictStands(Pass(s, turn, env), env.isSpace)
  {
    if turn.stream.Completes? {
      var s' := s.(messages := Sendable(CompactedFor(s.messages, turn, env).list));
      CommittedStands(s', ResponseTo(turn.stream.events, env.parse), turn.calls, env.isSpace);
    }
  }

  // ---- whole runs ----

  /** The state when pass n starts, if the run gets there. */
  ghost function LoopAt(start: Loop, env: Environment, n: nat): Loop
  {
    if n == 0 then start else Pass(LoopAt(start, env, n - 1), env.turns(n - 1), env).loop
  }

  ghost function PassAt(start: Loop, env: Environment, n: nat): PassEnd
  {
    Pass(LoopAt(start, env, n), env.turns(n), env)
  }

  /** The first n passes keep going. */
  ghost predicate GoesOn(start: Loop, env: Environment, n: nat)
  {
    forall i :: 0 <= i < n ==> PassAt(start, env, i).verdict.KeepGoing?
  }

  /** Pass n stops the run, or n is the budget and the grace turn follows. */
  ghost predicate EndsAt(start: Loop, env: Environment, budget: nat, n: nat)
  {
    n <= budget && GoesOn(start, env, n) && (n < budget ==> PassAt(start, env, n).verdict.Stop?)
  }

  /** A run has one end. */
  lemma {:induction false} EndIsUnique(start: Loop, env: Environment, budget: nat, n: nat, m: nat)
    requires EndsAt(start, env, budget, n) && EndsAt(start, env, budget, m)
    ensures n == m
  {
  }

  lemma {:induction false} LoopStaysSound(start: Loop, env: Environment, n: nat, p: Pairing)
    requires LoopSound(start, p) && GoesOn(start, env, n)
    ensures LoopSound(LoopAt(start, env, n), p)
  {
    if n > 0 {
      LoopStaysSound(start, env, n - 1, p);
      PassIsSound(LoopAt(start, env, n - 1), env.turns(n - 1), env, p);
      assert PassAt(start, env, n - 1).verdict.KeepGoing?;
    }
  }

  function AsList<T>(o: Option<T>): (list: seq<T>)
    ensures |list| == if o.Some? then 1 else 0
  {
    if o.Some? then [o.value] else []
  }

  /** What the first n indices give, in order. */
  ghost function Collect<T>(f: nat -> Option<T>, n: nat): (list: seq<T>)
  {
    if n == 0 then [] else Collect(f, n - 1) + AsList(f(n - 1))
  }

  ghost function Total(f: nat -> nat, n: nat): nat { if n == 0 then 0 else Total(f, n - 1) + f(n - 1) }

  /** The requests of the passes of a run, by pass. */
  ghost function RequestsBy(start: Loop, env: Environment): nat -> Option<seq<Message>>
  {
    (i: nat) => RequestOf(LoopAt(start, env, i), env.turns(i), env)
  }

  /** The orphans dropped before them. */
  ghost function RepairsBy(start: Loop, env: Environment): nat -> nat
  {
    (i: nat) => DroppedBy(LoopAt(start, env, i), env.turns(i), env)
  }

  /** The requests of the first n passes. */
  ghost function Requests(start: Loop, env: Environment, n: nat): (sent: seq<seq<Message>>)
  {
    Collect(RequestsBy(start, env), n)
  }

  ghost function Repairs(start: Loop, env: Environment, n: nat): nat { Total(RepairsBy(start, env), n) }

  /** Every request that went out was sound and without orphans. */
  ghost predicate RequestsSound(sent: seq<seq<Message>>, p: Pairing)
  {
    forall k :: 0 <= k < |sent| ==> NoOrphans(sent[k]) && Sound(sent[k], p)
  }

  lemma {:induction false} MoreRequests(before: seq<seq<Message>>, request: seq<Message>, p: Pairing)
    requires RequestsSound(before, p) && NoOrphans(request) && Sound(request, p)
    ensures RequestsSound(before + [request], p)
  {
    var sent := before + [request];
    forall k | 0 <= k < |sent| ensures NoOrphans(sent[k]) && Sound(sent[k], p) {
      if k < |before| { assert sent[k] == before[k]; }
    }
  }

  ghost predicate AllSound(f: nat -> Option<seq<Message>>, n: nat, p: Pairing)
  {
    forall i :: 0 <= i < n ==> f(i).Some? ==> NoOrphans(f(i).value) && Sound(f(i).value, p)
  }

  lemma {:induction false} CollectSound(f: nat -> Option<seq<Message>>, n: nat, p: Pairing)
    requires AllSound(f, n, p)
    ensures RequestsSound(Collect(f, n), p)
  {
    if n > 0 {
      CollectSound(f, n - 1, p);
      if f(n - 1).Some? {
        MoreRequests(Collect(f, n - 1), f(n - 1).value, p);
      }
    }
  }

  lemma {:induction false} CollectCount<T>(f: nat -> Option<T>, n: nat)
    ensures |Collect(f, n)| <= n
    ensures (forall i :: 0 <= i < n ==> f(i).Some?) ==> |Collect(f, n)| == n
  {
    if n > 0 {
      CollectCount(f, n - 1);
    }
  }

  lemma {:induction false} TotalZero(f: nat -> nat, n: nat)
    requires forall i :: 0 <= i < n ==> f(i) == 0
    ensures Total(f, n) == 0
  {
    if n > 0 {
      TotalZero(f, n - 1);
    }
  }

  lemma {:induction false} GoesOnBefore(start: Loop, env: Environment, n: nat, i: nat)
    requires GoesOn(start, env, n) && i <= n
    ensures GoesOn(start, env, i)
  {
  }

  /** The requests of a run up to and including the pass that stops it. */
  lemma {:induction false} RequestsAreSound(start: Loop, env: Environment, n: nat, p: Pairing)
    requires LoopSound(start, p) && (n > 0 ==> GoesOn(start, env, n - 1))
    ensures RequestsSound(Requests(start, env, n), p) && |Requests(start, env, n)| <= n
    ensures p != Unpaired ==> Repairs(start, env, n) == 0
  {
    forall i | 0 <= i < n
      ensures var r := RequestsBy(start, env)(i); r.Some? ==> NoOrphans(r.value) && Sound(r.value, p)
      ensures p != Unpaired ==> RepairsBy(start, env)(i) == 0
    {
      GoesOnBefore(start, env, n - 1, i);
      LoopStaysSound(start, env, i, p);
      RequestIsSound(LoopAt(start, env, i), env.turns(i), env, p);
    }
    CollectSound(RequestsBy(start, env), n, p);
    CollectCount(RequestsBy(start, env), n);
    if p != Unpaired {
      TotalZero(RepairsBy(start, env), n);
    }
  }

  /** A pass that keeps going has sent a request. */
  lemma {:induction false} GoingOnSends(s: Loop, turn: Turn, env: Environment)
    requires Pass(s, turn, env).verdict.KeepGoing?
    ensures RequestOf(s, turn, env).Some?
  {
  }

  /** Passes that keep going send one request each. */
  lemma {:induction false} OneRequestEach(start: Loop, env: Environment, n: nat)
    requires GoesOn(start, env, n)
    ensures |Requests(start, env, n)| == n
  {
    forall i | 0 <= i < n ensures RequestsBy(start, env)(i).Some? {
      assert PassAt(start, env, i).verdict.KeepGoing?;
      GoingOnSends(LoopAt(start, env, i), env.turns(i), env);
    }
    CollectCount(RequestsBy(start, env), n);
  }

  // ---- the grace turn ----

  const GRACE_NUDGE: Message := UserText("You have reached your step budget")

  /** The calls a grace turn's reply commits: none when their arguments are no objects. */
  ghost function GraceCalls(stream: Stream, parse: Parser): nat
  {
    if stream.Completes? && Convertible(CallsOf(stream.events, parse)) then |CallsOf(stream.events, parse)| else 0
  }

  function GraceStop(stream: Stream): StopReason
  {
    if stream.CancelledAfter? then CancelledInStream else MaxIterations
  }

  /** What the tool-stripped last turn makes of the list it sent; its exceptions are caught. */
  ghost function Graced(msgs: seq<Message>, stream: Stream, parse: Parser): seq<Message>
  {
    match stream
    case CancelledAfter(events) => Flushed(msgs, PartialText(events))
    case RaisesAfter(_) => msgs
    case Completes(events) =>
      match FromAssistantResponse(ResponseTo(events, parse))
      case None => msgs
      case Some(m) => msgs + [m]
  }

  lemma {:induction false} GracedIsSound(msgs: seq<Message>, stream: Stream, parse: Parser, p: Pairing)
    requires Sound(msgs, p)
    ensures LeftAs(Graced(msgs, stream, parse), GraceCalls(stream, parse) > 0, p)
  {
    match stream {
      case CancelledAfter(events) =>
        if PartialText(events).Some? {
          AddText(msgs, AssistantText(PartialText(events).value + " [interrupted]"), p);
        }
      case RaisesAfter(_) =>
      case Completes(events) =>
        var r := ResponseTo(events, parse);
        ResponseIsReference(events, parse);
        CommittedCalls(r);
        if Convertible(r.toolCalls) {
          var m := FromAssistantResponse(r).value;
          if r.toolCalls == [] {
            AddPlain(msgs, m, p);
          } else {
            BatchIsSound(msgs, m, r.toolCalls, _ => CallOutcome(true, true, false, NoHalt, NoPlanTool, "", false), 0,
                         Desk([], Plans.NoHolder), p);
            assert msgs + [m] + [] == msgs + [m];
          }
        }
    }
  }

  // ---- how a run ends ----

  /** A stop that comes before the pass has used its iteration. */
  predicate StopsEarly(reason: StopReason)
  {
    reason == Deadline || reason == ExceptionRaised || reason == CancelledInStream
  }

  ghost function GraceRequest(start: Loop, env: Environment, budget: nat): seq<Message>
  {
    Sendable(LoopAt(start, env, budget).messages + [GRACE_NUDGE])
  }

  /** Everything the run sends. */
  ghost function AllRequests(start: Loop, env: Environment, budget: nat, n: nat): seq<seq<Message>>
  {
    if n < budget then Requests(start, env, n + 1)
    else Requests(start, env, budget) + [GraceRequest(start, env, budget)]
  }

  /** The state the run leaves. */
  ghost function Final(start: Loop, env: Environment, budget: nat, n: nat): Loop
  {
    if n < budget then PassAt(start, env, n).loop
    else
      LoopAt(start, env, budget).(
        messages := Graced(GraceRequest(start, env, budget), env.graceStream, env.parse))
  }

  /** What it reports. */
  ghost function Report(start: Loop, env: Environment, budget: nat, n: nat): RunResult
    requires EndsAt(start, env, budget, n)
  {
    var sends, nudges := |AllRequests(start, env, budget, n)|, Final(start, env, budget, n).nudges;
    if n < budget then
      var v := PassAt(start, env, n).verdict;
      RunResult(v.reason, v.answer, if StopsEarly(v.reason) then n else n + 1, sends, nudges,
                Repairs(start, env, n + 1), 0)
    else
      var asked := LoopAt(start, env, budget).messages + [GRACE_NUDGE];
      RunResult(GraceStop(env.graceStream), None, budget, sends, nudges,
                Repairs(start, env, budget) + OrphanCount(asked, CallSet(asked)),
                GraceCalls(env.graceStream, env.parse))
  }

  /** Calls are left open: the turn the run stops on cuts one off, or the budget is spent and
      the grace stream completes with calls whose arguments are objects. */
  ghost predicate LeavesOpen(start: Loop, env: Environment, budget: nat, n: nat)
  {
    if n < budget then PassOpens(LoopAt(start, env, n), env.turns(n), env)
    else GraceCalls(env.graceStream, env.parse) > 0
  }

  /** What every ending of a run guarantees. */
  ghost predicate GoodEnd(r: RunResult, budget: nat, plan: Option<Plans.Plan>, isSpace: char -> bool, p: Pairing)
  {
    && r.iterations <= budget
    && r.sends <= budget + 1
    && r.nudges <= 2
    && (p != Unpaired ==> r.repaired == 0)
    && (r.answer.Some? <==> r.stop == AnswerGiven)
    && (r.stop == AnswerGiven ==>
          && SaysSomething(r.answer.value, isSpace)
          && (plan.Some? ==> Plans.ProvenComplete(plan.value)))
    && (r.stop == EmptyResponse ==> plan.Some? ==> Plans.ProvenComplete(plan.value))
    && (r.stop == IncompletePlan ==> r.nudges == 2 && HasOpenWork(plan))
    && (r.stop == MaxIterations ==> r.iterations == budget)
  }

  lemma {:induction false} GraceIsSound(start: Loop, env: Environment, budget: nat, p: Pairing)
    requires LoopSound(start, p) && GoesOn(start, env, budget)
    ensures NoOrphans(GraceRequest(start, env, budget)) && Sound(GraceRequest(start, env, budget), p)
    ensures var asked := LoopAt(start, env, budget).messages + [GRACE_NUDGE];
      p != Unpaired ==> OrphanCount(asked, CallSet(asked)) == 0
  {
    LoopStaysSound(start, env, budget, p);
    var s := LoopAt(start, env, budget);
    AddText(s.messages, GRACE_NUDGE, p);
    SendableIsPaired(s.messages + [GRACE_NUDGE], p);
  }

  /** Every request a run sends is sound. */
  lemma {:induction false} SendsAreSound(start: Loop, env: Environment, budget: nat, n: nat, p: Pairing)
    requires LoopSound(start, p) && EndsAt(start, env, budget, n)
    ensures RequestsSound(AllRequests(start, env, budget, n), p)
    ensures |AllRequests(start, env, budget, n)| <= budget + 1
  {
    if n < budget {
      RequestsAreSound(start, env, n + 1, p);
    } else {
      RequestsAreSound(start, env, budget, p);
      GraceIsSound(start, env, budget, p);
      MoreRequests(Requests(start, env, budget), GraceRequest(start, env, budget), p);
    }
  }

  /** A run leaves the transcript usable, and paired as it began except exactly when calls are
      left open. */
  lemma {:induction false} LeavesSound(start: Loop, env: Environment, budget: nat, n: nat, p: Pairing)
    requires LoopSound(start, p) && EndsAt(start, env, budget, n)
    ensures LeftAs(Final(start, env, budget, n).messages, LeavesOpen(start, env, budget, n), p)
  {
    LoopStaysSound(start, env, n, p);
    if n < budget {
      PassIsSound(LoopAt(start, env, n), env.turns(n), env, p);
    } else {
      GraceIsSound(start, env, budget, p);
      GracedIsSound(GraceRequest(start, env, budget), env.graceStream, env.parse, p);
    }
  }

  /** What a stopped run reports. */
  lemma {:induction false} StoppedEnds(start: Loop, env: Environment, budget: nat, n: nat, now: Loop, v: Verdict)
    requires EndsAt(start, env, budget, n) && n < budget && PassAt(start, env, n) == PassEnd(now, v)
    ensures Final(start, env, budget, n) == now && AllRequests(start, env, budget, n) == Requests(start, env, n + 1)
    ensures Report(start, env, budget, n)
         == RunResult(v.reason, v.answer,
                      if v.reason == Deadline || v.reason == CancelledInStream || v.reason == ExceptionRaised then n
                      else n + 1,
                      |Requests(start, env, n + 1)|, now.nudges, Repairs(start, env, n + 1), 0)
  {
  }

  /** What a run whose budget is spent reports. */
  lemma {:induction false} BudgetEnds(start: Loop, env: Environment, budget: nat, now: Loop)
    requires EndsAt(start, env, budget, budget) && LoopAt(start, env, budget) == now
    ensures var asked := now.messages + [GRACE_NUDGE];
      var sent := Requests(start, env, budget) + [Sendable(asked)];
      && Final(start, env, budget, budget)
         == now.(messages := Graced(Sendable(asked), env.graceStream, env.parse))
      && AllRequests(start, env, budget, budget) == sent
      && Report(start, env, budget, budget)
         == RunResult(GraceStop(env.graceStream), None, budget, |sent|, now.nudges,
                      Repairs(start, env, budget) + OrphanCount(asked, CallSet(asked)),
                      GraceCalls(env.graceStream, env.parse))
  {
  }

  /** Any pass of a run that gets there stands on what its verdict claims. */
  lemma {:induction false} PassAtStands(start: Loop, env: Environment, n: nat, p: Pairing)
    requires LoopSound(start, p) && GoesOn(start, env, n)
    ensures var e := PassAt(start, env, n);
      e.loop.nudges <= MAX_COMPLETION_NUDGES && e.loop.held.Backed() && VerdictStands(e, env.isSpace)
  {
    LoopStaysSound(start, env, n, p);
    PassIsSound(LoopAt(start, env, n), env.turns(n), env, p);
    PassStands(LoopAt(start, env, n), env.turns(n), env);
  }

  lemma {:induction false} StopIsGood(e: PassEnd, budget: nat, n: nat, sends: nat, repaired: nat,
                                      isSpace: char -> bool, p: Pairing)
    requires e.verdict.Stop? && VerdictStands(e, isSpace) && e.loop.nudges <= MAX_COMPLETION_NUDGES
    requires n < budget && sends <= n + 1 && (p != Unpaired ==> repaired == 0)
    ensures GoodEnd(RunResult(e.verdict.reason, e.verdict.answer, if StopsEarly(e.verdict.reason) then n else n + 1,
                              sends, e.loop.nudges, repaired, 0),
                    budget, e.loop.held.Active(), isSpace, p)
  {
  }

  lemma {:induction false} StoppedEndsWell(start: Loop, env: Environment, budget: nat, n: nat, p: Pairing)
    requires LoopSound(start, p) && EndsAt(start, env, budget, n) && n < budget
    ensures GoodEnd(Report(start, env, budget, n), budget, Final(start, env, budget, n).held.Active(), env.isSpace, p)
    ensures Final(start, env, budget, n).held.Backed()
  {
    var e := PassAt(start, env, n);
    RequestsAreSound(start, env, n + 1, p);
    PassAtStands(start, env, n, p);
    StoppedEnds(start, env, budget, n, e.loop, e.verdict);
    StopIsGood(e, budget, n, |Requests(start, env, n + 1)|, Repairs(start, env, n + 1), env.isSpace, p);
  }

  lemma {:induction false} BudgetEndsWell(start: Loop, env: Environment, budget: nat, p: Pairing)
    requires LoopSound(start, p) && EndsAt(start, env, budget, budget)
    ensures GoodEnd(Report(start, env, budget, budget), budget, Final(start, env, budget, budget).held.Active(),
                    env.isSpace, p)
    ensures Final(start, env, budget, budget).held.Backed()
  {
    RequestsAreSound(start, env, budget, p);
    GraceIsSound(start, env, budget, p);
    LoopStaysSound(start, env, budget, p);
    SendsAreSound(start, env, budget, budget, p);
    BudgetEnds(start, env, budget, LoopAt(start, env, budget));
  }

  lemma {:induction false} EndsWell(start: Loop, env: Environment, budget: nat, n: nat, p: Pairing)
    requires LoopSound(start, p) && EndsAt(start, env, budget, n)
    ensures GoodEnd(Report(start, env, budget, n), budget, Final(start, env, budget, n).held.Active(), env.isSpace, p)
    ensures Final(start, env, budget, n).held.Backed()
  {
    if n < budget {
      StoppedEndsWell(start, env, budget, n, p);
    } else {
      BudgetEndsWell(start, env, budget, p);
    }
  }
}
