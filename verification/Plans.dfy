/** The durable plan and the tools that edit it in place (src/harness/plans/model.py,
    src/harness/plans/tools.py). */
module Plans {
  import opened Sequences

  datatype StepStatus = Pending | InProgress | Done | Blocked

  datatype Step = Step(id: string, description: string, status: StepStatus, evidence: Option<string>, notes: string)
  {
    predicate IsTerminal() { status == Done || status == Blocked }
  }

  datatype Postcondition = Postcondition(description: string, satisfied: bool, evidence: Option<string>)

  datatype Plan = Plan(objective: string, steps: seq<Step>, postconditions: seq<Postcondition>)
  {
    predicate AllStepsTerminal() { forall i :: 0 <= i < |steps| ==> steps[i].IsTerminal() }

    predicate AllPostconditionsSatisfied()
    {
      forall i :: 0 <= i < |postconditions| ==> postconditions[i].satisfied
    }

    predicate IsReadyToFinalize() { AllStepsTerminal() && AllPostconditionsSatisfied() }
  }

  /** A step is done, a postcondition verified, only with evidence on record. */
  ghost predicate EvidenceBacked(p: Plan)
  {
    && (forall i :: 0 <= i < |p.steps| && p.steps[i].status == Done ==> p.steps[i].evidence !in [None, Some("")])
    && (forall i :: 0 <= i < |p.postconditions| && p.postconditions[i].satisfied ==>
          p.postconditions[i].evidence !in [None, Some("")])
  }

  /** Every step is blocked or done with evidence, every postcondition verified with evidence. */
  ghost predicate ProvenComplete(p: Plan)
  {
    && (forall i :: 0 <= i < |p.steps| ==>
          p.steps[i].status == Blocked || (p.steps[i].status == Done && p.steps[i].evidence !in [None, Some("")]))
    && (forall i :: 0 <= i < |p.postconditions| ==>
          p.postconditions[i].satisfied && p.postconditions[i].evidence !in [None, Some("")])
  }

  lemma {:induction false} ReadyIsProven(p: Plan)
    requires EvidenceBacked(p)
    ensures p.IsReadyToFinalize() <==> ProvenComplete(p)
  {
    if ProvenComplete(p) {
      forall i | 0 <= i < |p.steps| ensures p.steps[i].IsTerminal() {
        assert p.steps[i].status == Blocked || p.steps[i].status == Done;
      }
    }
    if p.IsReadyToFinalize() {
      assert forall i :: 0 <= i < |p.steps| ==> p.steps[i].IsTerminal();
    }
  }

  function ParseStatus(s: string): Option<StepStatus>
  {
    if s == "pending" then Some(Pending)
    else if s == "in_progress" then Some(InProgress)
    else if s == "done" then Some(Done)
    else if s == "blocked" then Some(Blocked)
    else None
  }

  /** The four words a step status is written as, and no others. */
  lemma {:induction false} StatusWords(s: string)
    ensures ParseStatus(s) == Some(Pending) <==> s == "pending"
    ensures ParseStatus(s) == Some(InProgress) <==> s == "in_progress"
    ensures ParseStatus(s) == Some(Done) <==> s == "done"
    ensures ParseStatus(s) == Some(Blocked) <==> s == "blocked"
    ensures ParseStatus(s).None? <==> s !in ["pending", "in_progress", "done", "blocked"]
  {
    assert "pending"[0] != "in_progress"[0] && "done"[0] != "blocked"[0];
    assert "pending"[0] != "done"[0] && "pending"[0] != "blocked"[0];
    assert "in_progress"[0] != "done"[0] && "in_progress"[0] != "blocked"[0];
  }

  datatype Reply = Accepted | NoActivePlan | OutOfRange | InvalidStatus | NeedsEvidence

  // ---- what the plan tools do to a plan ----

  function NewPlan(objective: string, steps: seq<string>, postconditions: seq<string>): Plan
  {
    Plan(objective,
         seq(|steps|, i requires 0 <= i < |steps| => Step("s" + Decimal(i), steps[i], Pending, None, "")),
         seq(|postconditions|, i requires 0 <= i < |postconditions| => Postcondition(postconditions[i], false, None)))
  }

  function UpdateReply(plan: Option<Plan>, number: int, status: string, evidence: string): Reply
  {
    if plan.None? then NoActivePlan
    else if number < 1 || number > |plan.value.steps| then OutOfRange
    else if ParseStatus(status).None? then InvalidStatus
    else if ParseStatus(status).value == Done && evidence == "" then NeedsEvidence
    else Accepted
  }

  function AfterUpdate(plan: Option<Plan>, number: int, status: string, evidence: string, notes: string): Option<Plan>
  {
    if UpdateReply(plan, number, status, evidence) != Accepted then plan
    else
      var s := plan.value.steps[number - 1];
      var updated := Step(s.id, s.description, ParseStatus(status).value,
                          if evidence == "" then None else Some(evidence), notes);
      Some(plan.value.(steps := plan.value.steps[number - 1 := updated]))
  }

  function VerifyReply(plan: Option<Plan>, number: int, evidence: string): Reply
  {
    if plan.None? then NoActivePlan
    else if number < 1 || number > |plan.value.postconditions| then OutOfRange
    else if evidence == "" then NeedsEvidence
    else Accepted
  }

  function AfterVerify(plan: Option<Plan>, number: int, evidence: string): Option<Plan>
  {
    if VerifyReply(plan, number, evidence) != Accepted then plan
    else
      var pc := plan.value.postconditions[number - 1];
      Some(plan.value.(postconditions :=
        plan.value.postconditions[number - 1 := Postcondition(pc.description, true, Some(evidence))]))
  }

  /** What a run holds: no plan holder, or one with or without a plan. */
  datatype Held = NoHolder | Holding(plan: Option<Plan>)
  {
    function Active(): Option<Plan> { if NoHolder? then None else plan }

    ghost predicate Backed() { Active().Some? ==> EvidenceBacked(Active().value) }
  }

  function HeldBy(holder: PlanHolder?): Held
    reads holder
  {
    if holder == null then NoHolder else Holding(holder.plan)
  }

  class PlanHolder {
    var plan: Option<Plan>

    constructor ()
      ensures plan == None
    {
      plan := None;
    }

    ghost predicate Backed()
      reads this
    {
      plan.Some? ==> EvidenceBacked(plan.value)
    }

    /** Create or replace the plan: nothing in a new plan is done or verified. */
    method PlanCreate(objective: string, steps: seq<string>, postconditions: seq<string>)
      modifies this
      ensures Backed() && plan.Some? && plan.value.objective == objective
      ensures |plan.value.steps| == |steps| && |plan.value.postconditions| == |postconditions|
      ensures forall i :: 0 <= i < |steps| ==>
        plan.value.steps[i] == Step("s" + Decimal(i), steps[i], Pending, None, "")
      ensures forall i :: 0 <= i < |postconditions| ==>
        plan.value.postconditions[i] == Postcondition(postconditions[i], false, None)
      ensures plan.value.IsReadyToFinalize() <==> steps == [] && postconditions == []
      ensures plan == Some(NewPlan(objective, steps, postconditions))
    {
      plan := Some(NewPlan(objective, steps, postconditions));
      if steps != [] {
        assert !plan.value.steps[0].IsTerminal();
      }
      if postconditions != [] {
        assert !plan.value.postconditions[0].satisfied;
      }
    }

    method StepUpdate(number: int, status: string, evidence: string, notes: string) returns (reply: Reply)
      requires Backed()
      modifies this
      ensures Backed()
      ensures reply ==
        if old(plan).None? then NoActivePlan
        else if number < 1 || number > |old(plan).value.steps| then OutOfRange
        else if ParseStatus(status).None? then InvalidStatus
        else if ParseStatus(status).value == Done && evidence == "" then NeedsEvidence
        else Accepted
      ensures reply != Accepted ==> plan == old(plan)
      ensures reply == Accepted ==>
        && plan.Some?
        && plan.value.objective == old(plan).value.objective
        && plan.value.postconditions == old(plan).value.postconditions
        && |plan.value.steps| == |old(plan).value.steps|
        && forall i :: 0 <= i < |plan.value.steps| ==>
             var was := old(plan).value.steps[i];
             plan.value.steps[i] ==
               if i + 1 == number
               then Step(was.id, was.description, ParseStatus(status).value,
                         if evidence == "" then None else Some(evidence), notes)
               else was
      ensures plan == AfterUpdate(old(plan), number, status, evidence, notes)
    {
      if plan.None? { return NoActivePlan; }
      var p := plan.value;
      if number < 1 || number > |p.steps| { return OutOfRange; }
      var newStatus := ParseStatus(status);
      if newStatus.None? { return InvalidStatus; }
      if newStatus.value == Done && evidence == "" { return NeedsEvidence; }
      var s := p.steps[number - 1];
      var updated := Step(s.id, s.description, newStatus.value, if evidence == "" then None else Some(evidence), notes);
      plan := Some(p.(steps := p.steps[number - 1 := updated]));
      reply := Accepted;
    }

    method PostconditionVerify(number: int, evidence: string) returns (reply: Reply)
      requires Backed()
      modifies this
      ensures Backed()
      ensures reply ==
        if old(plan).None? then NoActivePlan
        else if number < 1 || number > |old(plan).value.postconditions| then OutOfRange
        else if evidence == "" then NeedsEvidence
        else Accepted
      ensures reply != Accepted ==> plan == old(plan)
      ensures reply == Accepted ==>
        && plan.Some?
        && plan.value.objective == old(plan).value.objective
        && plan.value.steps == old(plan).value.steps
        && |plan.value.postconditions| == |old(plan).value.postconditions|
        && forall i :: 0 <= i < |plan.value.postconditions| ==>
             plan.value.postconditions[i] ==
               if i + 1 == number
               then Postcondition(old(plan).value.postconditions[i].description, true, Some(evidence))
               else old(plan).value.postconditions[i]
      ensures plan == AfterVerify(old(plan), number, evidence)
    {
      if plan.None? { return NoActivePlan; }
      var p := plan.value;
      if number < 1 || number > |p.postconditions| { return OutOfRange; }
      if evidence == "" { return NeedsEvidence; }
      var pc := p.postconditions[number - 1];
      plan := Some(p.(postconditions :=
        p.postconditions[number - 1 := Postcondition(pc.description, true, Some(evidence))]));
      reply := Accepted;
    }
  }
}
