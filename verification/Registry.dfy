/** The tool registry a turn dispatches through: the checks before a call runs, the loop guard
    and the plan tools' effects (src/harness/tools/registry.py). */
module Registry {
  import opened Sequences
  import opened Messages
  import opened Streaming
  import Plans

  const MAX_REPEAT_CALLS := 3
  const HISTORY_LIMIT := 100

  datatype PlanTool =
    | NoPlanTool
    | CreatePlan(objective: string, steps: seq<string>, postconditions: seq<string>)
    | UpdateStep(number: int, status: string, evidence: string, notes: string)
    | VerifyPostcondition(postcondition: int, proof: string)

  /** How a call can end without a result: the run is cancelled inside it, or something raises
      outside the handler that turns a tool's exception into a result (the validator, the
      permission check or the recording of the call). */
  datatype Halt = NoHalt | CancelledHere | RaisedHere

  /** What one dispatched call meets: registry verdicts, a halt, the tool's effect. */
  datatype CallOutcome = CallOutcome(
    known: bool, valid: bool, denied: bool, halt: Halt, effect: PlanTool, content: string, raises: bool)

  datatype CallKey = CallKey(name: string, args: string)

  function DumpOf(args: Args): string {
    match args
    case NoArgs => "{}"
    case Parsed(json) => json
    case MalformedJson(raw) => raw
    case NotAnObject(raw) => raw
  }

  /** The history after one more call, kept to its last hundred entries. */
  function Recorded(history: seq<CallKey>, key: CallKey): (h: seq<CallKey>)
  {
    var all := history + [key];
    if |all| > HISTORY_LIMIT then all[|all| - HISTORY_LIMIT..] else all
  }

  function CountOf(history: seq<CallKey>, key: CallKey): (n: nat)
    ensures n <= |history|
  {
    if history == [] then 0
    else CountOf(history[1..], key) + if history[0] == key then 1 else 0
  }

  predicate LoopDetected(history: seq<CallKey>, key: CallKey)
  {
    var recent := if |history| > MAX_REPEAT_CALLS then history[|history| - MAX_REPEAT_CALLS..] else history;
    CountOf(recent, key) >= MAX_REPEAT_CALLS
  }

  /** After recording, the guard fires exactly when the two calls before were the same call. */
  lemma {:induction false} GuardFiresExactly(history: seq<CallKey>, key: CallKey)
    ensures LoopDetected(Recorded(history, key), key)
       <==> |history| >= 2 && history[|history| - 1] == key && history[|history| - 2] == key
  {
    var h := Recorded(history, key);
    var recent := if |h| > MAX_REPEAT_CALLS then h[|h| - MAX_REPEAT_CALLS..] else h;
    if |history| >= 2 {
      var a, b := history[|history| - 2], history[|history| - 1];
      assert recent == [a, b, key];
      assert recent[1..] == [b, key] && [b, key][1..] == [key] && [key][1..] == [];
      assert CountOf([key], key) == 1;
      assert CountOf([b, key], key) == CountOf([key], key) + if b == key then 1 else 0;
    }
  }

  /** The call passed every check that comes before the loop guard. */
  predicate Admitted(call: ToolCallRef, o: CallOutcome)
  {
    o.known && !call.args.MalformedJson? && o.valid && o.halt == NoHalt && !o.denied
  }

  /** The run ends inside this call: it got past the checks that can only answer. */
  predicate CutsOff(call: ToolCallRef, o: CallOutcome)
  {
    o.known && !call.args.MalformedJson? && o.valid && o.halt != NoHalt
  }

  function KeyOf(call: ToolCallRef): CallKey { CallKey(call.name, DumpOf(call.args)) }

  /** The tool body is reached. */
  predicate Reached(call: ToolCallRef, o: CallOutcome, history: seq<CallKey>)
  {
    Admitted(call, o) && !LoopDetected(Recorded(history, KeyOf(call)), KeyOf(call))
  }

  /** The arguments of a call that can be recorded, as JSON text. */
  ghost predicate HasText(args: Args, text: string)
  {
    (args == NoArgs && text == "{}") || args == Parsed(text)
  }

  /** When a tool runs: it is known, its arguments are an object and valid, the call is allowed,
      and it is not the third in a row with this name and these arguments. */
  lemma {:induction false} ReachedExactly(call: ToolCallRef, o: CallOutcome, history: seq<CallKey>, text: string)
    requires HasText(call.args, text)
    ensures Reached(call, o, history) <==>
      && o.known && o.valid && !o.denied && o.halt == NoHalt
      && !(|history| >= 2 && history[|history| - 1] == CallKey(call.name, text)
           && history[|history| - 2] == CallKey(call.name, text))
  {
    GuardFiresExactly(history, KeyOf(call));
  }

  function HistoryAfter(call: ToolCallRef, o: CallOutcome, history: seq<CallKey>): seq<CallKey>
  {
    if Admitted(call, o) then Recorded(history, KeyOf(call)) else history
  }

  /** What is recorded: the call's name and arguments, behind at most the ninety-nine calls
      recorded last. */
  lemma {:induction false} RecordedExactly(call: ToolCallRef, o: CallOutcome, history: seq<CallKey>, text: string)
    requires HasText(call.args, text) && |history| <= 100
    ensures HistoryAfter(call, o, history) ==
      if !(o.known && o.valid && !o.denied && o.halt == NoHalt) then history
      else (if |history| == 100 then history[1..] else history) + [CallKey(call.name, text)]
  {
    assert KeyOf(call) == CallKey(call.name, text);
    if |history| == 100 {
      assert (history + [KeyOf(call)])[1..] == history[1..] + [KeyOf(call)];
    }
  }

  /** What a tool that ran did to the plan. */
  function EffectOn(held: Plans.Held, e: PlanTool): Plans.Held
  {
    if held.NoHolder? then held
    else
      match e
      case NoPlanTool => held
      case CreatePlan(objective, steps, postconditions) =>
        Plans.Holding(Some(Plans.NewPlan(objective, steps, postconditions)))
      case UpdateStep(number, status, evidence, notes) =>
        Plans.Holding(Plans.AfterUpdate(held.plan, number, status, evidence, notes))
      case VerifyPostcondition(number, proof) => Plans.Holding(Plans.AfterVerify(held.plan, number, proof))
  }

  function HeldAfter(call: ToolCallRef, o: CallOutcome, history: seq<CallKey>, held: Plans.Held): Plans.Held
  {
    if Reached(call, o, history) then EffectOn(held, o.effect) else held
  }

  /** The answer to a call that is not cut off. */
  function ResultOf(call: ToolCallRef, o: CallOutcome, history: seq<CallKey>): (r: Block)
    ensures r.ToolResult? && r.callId == call.id
    ensures !Reached(call, o, history) ==> r.isError
    ensures Reached(call, o, history) ==> r.content == o.content && r.isError == o.raises
  {
    if !o.known then ToolResult(call.id, "unknown tool", true)
    else if call.args.MalformedJson? then ToolResult(call.id, "arguments were not valid JSON", true)
    else if !o.valid then ToolResult(call.id, "invalid arguments", true)
    else if o.denied then ToolResult(call.id, "permission denied", true)
    else if !Reached(call, o, history) then ToolResult(call.id, "tool-call loop detected", true)
    else ToolResult(call.id, o.content, o.raises)
  }

  /** No plan tool leaves a plan without the evidence it claims. */
  lemma {:induction false} EffectKeepsBacked(held: Plans.Held, e: PlanTool)
    requires held.Backed()
    ensures EffectOn(held, e).Backed()
  {
  }

  class ToolRegistry {
    var history: seq<CallKey>

    constructor ()
      ensures history == []
    {
      history := [];
    }

    /** One call: refused, blocked as a loop, cut off (None), or run; always one result block
        for this call otherwise. */
    method Dispatch(call: ToolCallRef, o: CallOutcome, holder: Plans.PlanHolder?)
      returns (r: Option<Block>, ran: bool)
      requires holder != null ==> holder.Backed()
      modifies this, holder
      ensures holder != null ==> holder.Backed()
      ensures r.None? <==> CutsOff(call, o)
      ensures r.Some? ==> r.value == ResultOf(call, o, old(history))
      ensures ran <==> Reached(call, o, old(history))
      ensures history == HistoryAfter(call, o, old(history))
      ensures Plans.HeldBy(holder) == HeldAfter(call, o, old(history), old(Plans.HeldBy(holder)))
    {
      ran := false;
      if !o.known {
        return Some(ToolResult(call.id, "unknown tool", true)), false;
      }
      if call.args.MalformedJson? {
        return Some(ToolResult(call.id, "arguments were not valid JSON", true)), false;
      }
      if !o.valid {
        return Some(ToolResult(call.id, "invalid arguments", true)), false;
      }
      if o.halt != NoHalt {
        return None, false;
      }
      if o.denied {
        return Some(ToolResult(call.id, "permission denied", true)), false;
      }
      var key := CallKey(call.name, DumpOf(call.args));
      history := Recorded(history, key);
      if LoopDetected(history, key) {
        return Some(ToolResult(call.id, "tool-call loop detected", true)), false;
      }
      ran := true;
      if holder != null {
        match o.effect {
          case NoPlanTool =>
          case CreatePlan(objective, steps, postconditions) => holder.PlanCreate(objective, steps, postconditions);
          case UpdateStep(number, status, evidence, notes) =>
            var _ := holder.StepUpdate(number, status, evidence, notes);
          case VerifyPostcondition(number, proof) => var _ := holder.PostconditionVerify(number, proof);
        }
      }
      r := Some(ToolResult(call.id, o.content, o.raises));
    }
  }
}
