/** A batch of sibling sub-agents: a semaphore bounds how many run, a spawn budget bounds how
    many ever start, and a shared write gate serializes every tool that is not pure-read
    (src/harness/subagents/parallel.py, spawner.py, src/harness/tools/registry.py). One step
    is whatever a coroutine does between two awaits that can block. */
module Subagents {
  import opened Sequences

  datatype Outcome = Completed | StoppedOnBound | BudgetExceeded | NoToolsMatch | Raised

  /** A catalog tool and the side effects it declares. */
  datatype Tool = Tool(name: string, effects: set<string>)

  /** What a sub-agent is allowed to use, and the tools its model asks for. */
  datatype Spec = Spec(allowed: set<string>, asks: seq<string>)

  /** What one sub-agent works with: its narrowed catalog, and what it asks for. */
  datatype Work = Work(tools: seq<Tool>, asks: seq<string>)

  // ---- catalog narrowing ----

  const DELEGATION_TOOLS: set<string> := {"spawn_subagent", "spawn_parallel_subagents"}

  predicate MayUse(tool: Tool, allowed: set<string>) { tool.name in allowed && tool.name !in DELEGATION_TOOLS }

  /** `a` is `b` with some entries left out. */
  ghost predicate IsSubsequence(a: seq<Tool>, b: seq<Tool>)
  {
    if a == [] then true
    else b != [] && ((a[0] == b[0] && IsSubsequence(a[1..], b[1..])) || IsSubsequence(a, b[1..]))
  }

  /** The catalog a sub-agent gets: what it is allowed, in catalog order, never a delegation
      tool. */
  function Narrow(catalog: seq<Tool>, allowed: set<string>): (tools: seq<Tool>)
    ensures IsSubsequence(tools, catalog)
    ensures forall t :: multiset(tools)[t] == if MayUse(t, allowed) then multiset(catalog)[t] else 0
  {
    if catalog == [] then []
    else
      var rest := Narrow(catalog[1..], allowed);
      assert catalog == [catalog[0]] + catalog[1..];
      if MayUse(catalog[0], allowed) then
        assert ([catalog[0]] + rest)[1..] == rest;
        [catalog[0]] + rest
      else rest
  }

  function WorkOf(catalog: seq<Tool>, spec: Spec): Work { Work(Narrow(catalog, spec.allowed), spec.asks) }

  function Works(catalog: seq<Tool>, specs: seq<Spec>): (works: seq<Work>)
    ensures |works| == |specs| && forall i :: 0 <= i < |specs| ==> works[i] == WorkOf(catalog, specs[i])
  {
    seq(|specs|, i requires 0 <= i < |specs| => WorkOf(catalog, specs[i]))
  }

  /** The tool of this name; None: the registry answers that it does not know it. */
  function ToolNamed(tools: seq<Tool>, name: string): (t: Option<Tool>)
    ensures t.Some? ==> t.value in tools && t.value.name == name
    ensures t.None? ==> forall tool :: tool in tools ==> tool.name != name
  {
    if tools == [] then None
    else if tools[0].name == name then Some(tools[0])
    else ToolNamed(tools[1..], name)
  }

  // ---- the steps of a batch ----

  datatype Pc =
    | Waiting               // at the semaphore
    | Admitted              // semaphore held, budget not checked
    | Thinking(next: nat)   // between tool calls
    | AtGate(call: nat)     // wants the write gate
    | InTool(call: nat)     // inside a tool body
    | Leaving(outcome: Outcome)
    | Finished(outcome: Outcome)

  datatype Agent = Agent(work: Work, pc: Pc)

  datatype State = State(
    maxParallel: nat, budget: nat, spawned: nat, permits: nat, gate: Option<nat>, agents: seq<Agent>)

  datatype Action =
    | Acquire(i: nat)
    | Spawn(i: nat)
    | Call(i: nat, admitted: bool)   // false: the registry refuses it with an error result
    | TakeGate(i: nat)
    | Return(i: nat)
    | Stop(i: nat, outcome: Outcome)
    | Release(i: nat)

  /** The gate fails closed: only a declared, pure {read} effect set skips it. */
  predicate ReadOnly(effects: set<string>) { effects != {} && effects <= {"read"} }

  /** The tool behind call k of an agent, if it has one of that name. */
  function Asked(w: Work, k: nat): Option<Tool> { if k < |w.asks| then ToolNamed(w.tools, w.asks[k]) else None }

  /** A call of a tool the agent has, and one that is not pure-read. */
  predicate NeedsGate(w: Work, k: nat) { Asked(w, k).Some? && !ReadOnly(Asked(w, k).value.effects) }

  predicate Mutates(a: Agent) { a.pc.InTool? && NeedsGate(a.work, a.pc.call) }

  predicate HoldsPermit(a: Agent) { !a.pc.Waiting? && !a.pc.Finished? }

  predicate Enabled(s: State, a: Action)
  {
    a.i < |s.agents| &&
    var pc := s.agents[a.i].pc;
    match a
    case Acquire(_) => pc.Waiting? && s.permits > 0
    case Spawn(_) => pc.Admitted?
    case Call(_, _) => pc.Thinking? && pc.next < |s.agents[a.i].work.asks|
    case TakeGate(_) => pc.AtGate? && s.gate.None?
    case Return(_) => pc.InTool?
    case Stop(_, outcome) => pc.Thinking? && (outcome == Completed || outcome == StoppedOnBound || outcome == Raised)
    case Release(_) => pc.Leaving?
  }

  function PcAfter(s: State, a: Action): Pc
    requires Enabled(s, a)
  {
    var agent := s.agents[a.i];
    match a
    case Acquire(_) => Admitted
    case Spawn(_) =>
      if s.spawned >= s.budget then Leaving(BudgetExceeded)
      else if agent.work.tools == [] then Leaving(NoToolsMatch)
      else Thinking(0)
    case Call(_, admitted) =>
      var k := agent.pc.next;
      if !admitted || Asked(agent.work, k).None? then Thinking(k + 1)
      else if NeedsGate(agent.work, k) then AtGate(k)
      else InTool(k)
    case TakeGate(_) => InTool(agent.pc.call)
    case Return(_) => Thinking(agent.pc.call + 1)
    case Stop(_, outcome) => Leaving(outcome)
    case Release(_) => Finished(agent.pc.outcome)
  }

  function Next(s: State, a: Action): State
    requires Enabled(s, a)
  {
    var s' := s.(agents := s.agents[a.i := s.agents[a.i].(pc := PcAfter(s, a))]);
    match a
    case Acquire(_) => s'.(permits := s.permits - 1)
    case Spawn(_) => if s.spawned >= s.budget then s' else s'.(spawned := s.spawned + 1)
    case TakeGate(i) => s'.(gate := Some(i))
    case Return(i) => if Mutates(s.agents[i]) then s'.(gate := None) else s'
    case Release(_) => s'.(permits := s.permits + 1)
    case _ => s'
  }

  function Init(maxParallel: nat, budget: nat, spawned: nat, works: seq<Work>): State
  {
    State(maxParallel, budget, spawned, maxParallel, None,
          seq(|works|, i requires 0 <= i < |works| => Agent(works[i], Waiting)))
  }

  /** The agent was let past the budget check. */
  predicate WasSpawned(a: Agent)
  {
    match a.pc
    case Waiting => false
    case Admitted => false
    case Leaving(o) => o != BudgetExceeded
    case Finished(o) => o != BudgetExceeded
    case _ => true
  }

  predicate WasRefused(a: Agent)
  {
    a.pc == Leaving(BudgetExceeded) || a.pc == Finished(BudgetExceeded)
  }

  ghost predicate AgentInv(s: State, i: nat)
    requires i < |s.agents|
  {
    var a := s.agents[i];
    && (a.pc.AtGate? ==> NeedsGate(a.work, a.pc.call))
    && (a.pc.InTool? ==> Asked(a.work, a.pc.call).Some?)
    && (s.gate == Some(i) <==> Mutates(a))
  }

  /** `spawned0` is the session's spawn count when the batch began. */
  ghost predicate Inv(s: State, spawned0: nat)
  {
    && s.permits + Count(s.agents, HoldsPermit) == s.maxParallel
    && s.spawned == spawned0 + Count(s.agents, WasSpawned)
    && (spawned0 <= s.budget ==> s.spawned <= s.budget)
    && (Count(s.agents, WasRefused) > 0 ==> s.spawned >= s.budget)
    && (s.gate.Some? ==> s.gate.value < |s.agents|)
    && (forall i :: 0 <= i < |s.agents| ==> AgentInv(s, i))
  }

  lemma {:induction false} InitInv(maxParallel: nat, budget: nat, spawned: nat, works: seq<Work>)
    ensures Inv(Init(maxParallel, budget, spawned, works), spawned)
  {
    var s := Init(maxParallel, budget, spawned, works);
    CountNone(s.agents, HoldsPermit);
    CountNone(s.agents, WasSpawned);
    CountNone(s.agents, WasRefused);
  }

  lemma {:induction false} StepCounts(s: State, a: Action, spawned0: nat)
    requires Inv(s, spawned0) && Enabled(s, a)
    ensures var s' := Next(s, a);
      && s'.permits + Count(s'.agents, HoldsPermit) == s'.maxParallel
      && s'.spawned == spawned0 + Count(s'.agents, WasSpawned)
      && (spawned0 <= s'.budget ==> s'.spawned <= s'.budget)
      && (Count(s'.agents, WasRefused) > 0 ==> s'.spawned >= s'.budget)
  {
    StepPermits(s, a, spawned0);
    StepSpawned(s, a, spawned0);
    StepRefused(s, a, spawned0);
  }

  lemma {:induction false} StepPermits(s: State, a: Action, spawned0: nat)
    requires Inv(s, spawned0) && Enabled(s, a)
    ensures var s' := Next(s, a); s'.permits + Count(s'.agents, HoldsPermit) == s'.maxParallel
  {
    CountUpdate(s.agents, HoldsPermit, a.i, s.agents[a.i].(pc := PcAfter(s, a)));
  }

  lemma {:induction false} StepSpawned(s: State, a: Action, spawned0: nat)
    requires Inv(s, spawned0) && Enabled(s, a)
    ensures var s' := Next(s, a);
      && s'.spawned == spawned0 + Count(s'.agents, WasSpawned)
      && (spawned0 <= s'.budget ==> s'.spawned <= s'.budget)
  {
    CountUpdate(s.agents, WasSpawned, a.i, s.agents[a.i].(pc := PcAfter(s, a)));
  }

  lemma {:induction false} StepRefused(s: State, a: Action, spawned0: nat)
    requires Inv(s, spawned0) && Enabled(s, a)
    ensures var s' := Next(s, a); Count(s'.agents, WasRefused) > 0 ==> s'.spawned >= s'.budget
  {
    CountUpdate(s.agents, WasRefused, a.i, s.agents[a.i].(pc := PcAfter(s, a)));
  }

  lemma {:induction false} StepAgents(s: State, a: Action, spawned0: nat, j: nat)
    requires Inv(s, spawned0) && Enabled(s, a) && j < |s.agents|
    ensures AgentInv(Next(s, a), j)
  {
    assert AgentInv(s, a.i) && AgentInv(s, j);
    if j != a.i {
      assert Next(s, a).agents[j] == s.agents[j];
    }
  }

  lemma {:induction false} StepKeepsInv(s: State, a: Action, spawned0: nat)
    requires Inv(s, spawned0) && Enabled(s, a)
    ensures Inv(Next(s, a), spawned0)
  {
    StepCounts(s, a, spawned0);
    forall j | 0 <= j < |Next(s, a).agents| ensures AgentInv(Next(s, a), j) { StepAgents(s, a, spawned0, j); }
  }

  lemma {:induction false} StepKeepsWork(s: State, a: Action)
    requires Enabled(s, a)
    ensures |Next(s, a).agents| == |s.agents|
    ensures forall j :: 0 <= j < |s.agents| ==> Next(s, a).agents[j].work == s.agents[j].work
  {
  }

  // ---- runs ----

  ghost predicate IsRun(s: State, acts: seq<Action>)
    decreases |acts|
  {
    acts == [] || (Enabled(s, acts[0]) && IsRun(Next(s, acts[0]), acts[1..]))
  }

  ghost function After(s: State, acts: seq<Action>): State
    requires IsRun(s, acts)
    decreases |acts|
  {
    if acts == [] then s else After(Next(s, acts[0]), acts[1..])
  }

  lemma {:induction false} RunKeepsInv(s: State, acts: seq<Action>, spawned0: nat)
    requires Inv(s, spawned0) && IsRun(s, acts)
    ensures var e := After(s, acts);
      && Inv(e, spawned0) && e.maxParallel == s.maxParallel && e.budget == s.budget && |e.agents| == |s.agents|
      && forall i :: 0 <= i < |s.agents| ==> e.agents[i].work == s.agents[i].work
    decreases |acts|
  {
    if acts != [] {
      StepKeepsInv(s, acts[0], spawned0);
      StepKeepsWork(s, acts[0]);
      RunKeepsInv(Next(s, acts[0]), acts[1..], spawned0);
    }
  }

  /** At every moment of every interleaving. */
  lemma {:induction false} BatchIsSafe(maxParallel: nat, budget: nat, spawned: nat, works: seq<Work>, acts: seq<Action>)
    requires spawned <= budget && IsRun(Init(maxParallel, budget, spawned, works), acts)
    ensures var s := After(Init(maxParallel, budget, spawned, works), acts);
      && Count(s.agents, HoldsPermit) <= maxParallel
      && Count(s.agents, WasSpawned) <= budget - spawned
      && forall i, j :: 0 <= i < |s.agents| && 0 <= j < |s.agents| && Mutates(s.agents[i]) && Mutates(s.agents[j])
           ==> i == j
  {
    var s0 := Init(maxParallel, budget, spawned, works);
    InitInv(maxParallel, budget, spawned, works);
    RunKeepsInv(s0, acts, spawned);
    var s := After(s0, acts);
    forall i, j | 0 <= i < |s.agents| && 0 <= j < |s.agents| && Mutates(s.agents[i]) && Mutates(s.agents[j])
      ensures i == j
    {
      assert AgentInv(s, i) && AgentInv(s, j);
    }
  }

  // ---- who runs beside whom ----

  /** Agent a is inside the body of a tool of this declared effect set. */
  ghost predicate RunsTool(a: Agent, effects: set<string>)
  {
    && a.pc.InTool? && a.pc.call < |a.work.asks|
    && exists t :: t in a.work.tools && t.name == a.work.asks[a.pc.call] && t.effects == effects
  }

  /** The tools of a catalog have different names, as a registry demands. */
  ghost predicate DistinctNames(tools: seq<Tool>)
  {
    forall i, j :: 0 <= i < j < |tools| ==> tools[i].name != tools[j].name
  }

  lemma {:induction false} RunsWriting(a: Agent, effects: set<string>)
    requires RunsTool(a, effects) && effects != {"read"} && DistinctNames(a.work.tools)
    ensures Mutates(a)
  {
    var t :| t in a.work.tools && t.name == a.work.asks[a.pc.call] && t.effects == effects;
    var found := ToolNamed(a.work.tools, a.work.asks[a.pc.call]);
    assert found.value == t;
  }

  /** In every interleaving at most one sub-agent is inside a tool that declares anything but
      exactly the effect "read", nothing included. */
  lemma {:induction false} OneWriterAtATime(maxParallel: nat, budget: nat, spawned: nat, works: seq<Work>,
                                            acts: seq<Action>, i: nat, j: nat, e: set<string>, f: set<string>)
    requires IsRun(Init(maxParallel, budget, spawned, works), acts)
    requires forall k :: 0 <= k < |works| ==> DistinctNames(works[k].tools)
    requires var s := After(Init(maxParallel, budget, spawned, works), acts);
      i < |s.agents| && j < |s.agents| && RunsTool(s.agents[i], e) && RunsTool(s.agents[j], f)
    requires e != {"read"} && f != {"read"}
    ensures i == j
  {
    var s0 := Init(maxParallel, budget, spawned, works);
    InitInv(maxParallel, budget, spawned, works);
    RunKeepsInv(s0, acts, spawned);
    var s := After(s0, acts);
    assert s0.agents[i].work == works[i] && s0.agents[j].work == works[j];
    RunsWriting(s.agents[i], e);
    RunsWriting(s.agents[j], f);
    assert AgentInv(s, i) && AgentInv(s, j);
  }

  /** Where a call goes: answered at once when refused or unknown, straight into the body of a
      tool that declares exactly "read", to the gate for any other. */
  lemma {:induction false} CallGoes(s: State, i: nat, admitted: bool, t: Tool)
    requires Enabled(s, Call(i, admitted)) && DistinctNames(s.agents[i].work.tools)
    ensures var a := s.agents[i];
      var name := a.work.asks[a.pc.next];
      var pc := Next(s, Call(i, admitted)).agents[i].pc;
      && (!admitted || (forall u :: u in a.work.tools ==> u.name != name) ==> pc == Thinking(a.pc.next + 1))
      && (admitted && t in a.work.tools && t.name == name ==>
            pc == if t.effects == {"read"} then InTool(a.pc.next) else AtGate(a.pc.next))
  {
    var a := s.agents[i];
    var found := ToolNamed(a.work.tools, a.work.asks[a.pc.next]);
    if t in a.work.tools && t.name == a.work.asks[a.pc.next] {
      assert found.value == t;
    }
  }

  /** How many calls agent i has made in this run. */
  ghost function CallsBy(acts: seq<Action>, i: nat): (n: nat)
  {
    if acts == [] then 0 else CallsBy(acts[1..], i) + if acts[0].Call? && acts[0].i == i then 1 else 0
  }

  /** The calls made on the way to this point; Leaving and Finished do not say. */
  function Made(pc: Pc): (n: Option<nat>)
  {
    match pc
    case Thinking(k) => Some(k)
    case AtGate(k) => Some(k + 1)
    case InTool(k) => Some(k + 1)
    case Leaving(_) => None
    case Finished(_) => None
    case _ => Some(0)
  }

  lemma {:induction false} StepMakes(s: State, a: Action, i: nat)
    requires Enabled(s, a) && i < |s.agents| && Made(Next(s, a).agents[i].pc).Some?
    ensures Made(s.agents[i].pc).Some?
    ensures Made(Next(s, a).agents[i].pc).value == Made(s.agents[i].pc).value + if a.Call? && a.i == i then 1 else 0
  {
  }

  lemma {:induction false} LeftStays(s: State, acts: seq<Action>, i: nat)
    requires IsRun(s, acts) && i < |s.agents| && Made(s.agents[i].pc).None?
    ensures i < |After(s, acts).agents| && Made(After(s, acts).agents[i].pc).None?
    decreases |acts|
  {
    if acts != [] {
      LeftStays(Next(s, acts[0]), acts[1..], i);
    }
  }

  /** A sub-agent makes its calls one by one in the order it asks for them: between calls it
      has made the first `next`, and at the gate or in a body it has made this one last. */
  lemma {:induction false} CallsInOrder(s: State, acts: seq<Action>, i: nat)
    requires IsRun(s, acts) && i < |s.agents| && Made(s.agents[i].pc).Some?
    ensures i < |After(s, acts).agents|
    ensures var made, pc := Made(s.agents[i].pc).value + CallsBy(acts, i), After(s, acts).agents[i].pc;
      && (pc.Thinking? ==> pc.next == made)
      && (pc.AtGate? ==> pc.call == made - 1) && (pc.InTool? ==> pc.call == made - 1)
    decreases |acts|
  {
    if acts != [] {
      var next := Next(s, acts[0]);
      if Made(next.agents[i].pc).Some? {
        StepMakes(s, acts[0], i);
        CallsInOrder(next, acts[1..], i);
      } else {
        LeftStays(next, acts[1..], i);
      }
    }
  }

  // ---- who may call what ----

  lemma {:induction false} NarrowMembers(catalog: seq<Tool>, allowed: set<string>, t: Tool)
    ensures t in Narrow(catalog, allowed) <==> t in catalog && MayUse(t, allowed)
  {
    var tools := Narrow(catalog, allowed);
    assert t in tools <==> multiset(tools)[t] > 0;
    assert t in catalog <==> multiset(catalog)[t] > 0;
  }

  /** At every moment of every batch, a call at the gate or in a tool body is one of an allowed
      catalog tool and never of a delegation tool: no sub-agent spawns, so the holder of the
      gate never waits for a second one. */
  lemma {:induction false} NeverDelegates(maxParallel: nat, budget: nat, spawned: nat, catalog: seq<Tool>,
                                          specs: seq<Spec>, acts: seq<Action>, i: nat)
    requires IsRun(Init(maxParallel, budget, spawned, Works(catalog, specs)), acts) && i < |specs|
    ensures var s := After(Init(maxParallel, budget, spawned, Works(catalog, specs)), acts);
      && i < |s.agents|
      && (s.agents[i].pc.AtGate? || s.agents[i].pc.InTool? ==>
            var k := s.agents[i].pc.call;
            && k < |specs[i].asks|
            && specs[i].asks[k] in specs[i].allowed && specs[i].asks[k] !in DELEGATION_TOOLS
            && exists t :: t in catalog && t.name == specs[i].asks[k])
  {
    var s0 := Init(maxParallel, budget, spawned, Works(catalog, specs));
    InitInv(maxParallel, budget, spawned, Works(catalog, specs));
    RunKeepsInv(s0, acts, spawned);
    var s := After(s0, acts);
    assert s0.agents[i].work == WorkOf(catalog, specs[i]);
    assert AgentInv(s, i);
    if s.agents[i].pc.AtGate? || s.agents[i].pc.InTool? {
      NarrowMembers(catalog, specs[i].allowed, Asked(s.agents[i].work, s.agents[i].pc.call).value);
    }
  }

  /** A sub-agent is refused for want of tools exactly when no allowed tool of the catalog is
      left after the delegation tools are stripped. */
  lemma {:induction false} NoToolsExactly(catalog: seq<Tool>, spec: Spec)
    ensures WorkOf(catalog, spec).tools == [] <==> forall t :: t in catalog ==> !MayUse(t, spec.allowed)
  {
    forall t ensures t in Narrow(catalog, spec.allowed) <==> t in catalog && MayUse(t, spec.allowed) {
      NarrowMembers(catalog, spec.allowed, t);
    }
    if WorkOf(catalog, spec).tools != [] {
      assert WorkOf(catalog, spec).tools[0] in Narrow(catalog, spec.allowed);
    }
  }

  // ---- no deadlock ----

  ghost predicate Stuck(s: State) { forall a: Action :: !Enabled(s, a) }

  ghost predicate AllFinished(s: State)
  {
    forall i :: 0 <= i < |s.agents| ==> s.agents[i].pc.Finished?
  }

  /** A step agent i can take if neither the semaphore nor the gate blocks it. */
  function Wish(s: State, i: nat): Action
    requires i < |s.agents|
  {
    var a := s.agents[i];
    match a.pc
    case Waiting => Acquire(i)
    case Admitted => Spawn(i)
    case Thinking(k) => if k < |a.work.asks| then Call(i, true) else Stop(i, Completed)
    case AtGate(_) => TakeGate(i)
    case InTool(_) => Return(i)
    case Leaving(_) => Release(i)
    case Finished(_) => Release(i)
  }

  /** Whoever holds the gate can always leave it. */
  lemma {:induction false} HolderMoves(s: State, spawned0: nat)
    requires Inv(s, spawned0) && s.gate.Some?
    ensures s.gate.value < |s.agents| && Enabled(s, Wish(s, s.gate.value))
  {
    assert AgentInv(s, s.gate.value);
  }

  /** If no agent can do what it wishes, all have finished. */
  lemma {:induction false} NobodyMoves(s: State, spawned0: nat)
    requires Inv(s, spawned0) && s.maxParallel >= 1
    requires forall i :: 0 <= i < |s.agents| ==> !Enabled(s, Wish(s, i))
    ensures AllFinished(s)
  {
    if s.gate.Some? {
      HolderMoves(s, spawned0);
    }
    forall i | 0 <= i < |s.agents| ensures s.agents[i].pc.Finished? || (s.agents[i].pc.Waiting? && s.permits == 0) {
      assert !Enabled(s, Wish(s, i));
    }
    if !AllFinished(s) {
      CountNone(s.agents, HoldsPermit);
    }
  }

  /** A batch is stuck before everyone finished exactly when the semaphore admits nobody. */
  lemma {:induction false} StuckExactly(s: State, spawned0: nat)
    requires Inv(s, spawned0)
    ensures Stuck(s) ==>
      AllFinished(s) || (s.maxParallel == 0 && exists i :: 0 <= i < |s.agents| && s.agents[i].pc.Waiting?)
    ensures s.maxParallel == 0 ==> Stuck(s)
  {
    if Stuck(s) && s.maxParallel >= 1 {
      NobodyMoves(s, spawned0);
    }
    if Stuck(s) && s.maxParallel == 0 {
      forall i | 0 <= i < |s.agents| ensures s.agents[i].pc.Waiting? || s.agents[i].pc.Finished? {
        NobodyCounted(s.agents, HoldsPermit, i);
      }
    }
    if s.maxParallel == 0 {
      forall a: Action | a.i < |s.agents| ensures !Enabled(s, a) {
        NobodyCounted(s.agents, HoldsPermit, a.i);
      }
    }
  }

  /** One sub-agent and a semaphore that admits nobody: stuck before it starts. */
  lemma {:induction false} NoPermitsStuck() returns (s: State)
    ensures s.maxParallel == 0 && |s.agents| == 1 && s == Init(0, 5, 0, [s.agents[0].work])
    ensures Stuck(s) && !AllFinished(s)
  {
    var work := Work([Tool("read_page", {"read"})], ["read_page"]);
    s := Init(0, 5, 0, [work]);
    assert s.agents[0].pc == Waiting;
    InitInv(0, 5, 0, [work]);
    StuckExactly(s, 0);
  }

  lemma {:induction false} NobodyCounted(agents: seq<Agent>, p: Agent -> bool, i: nat)
    requires i < |agents| && Count(agents, p) == 0
    ensures !p(agents[i])
  {
    if i < |agents| - 1 {
      NobodyCounted(agents[..|agents| - 1], p, i);
    }
  }

  // ---- termination ----

  function Weight(a: Agent): (n: nat)
  {
    var calls := |a.work.asks|;
    match a.pc
    case Waiting => 3 * calls + 5
    case Admitted => 3 * calls + 4
    case Thinking(k) => 3 * (if k <= calls then calls - k else 0) + 2
    case AtGate(k) => 3 * (if k < calls then calls - k - 1 else 0) + 4
    case InTool(k) => 3 * (if k < calls then calls - k - 1 else 0) + 3
    case Leaving(_) => 1
    case Finished(_) => 0
  }

  function Remaining(agents: seq<Agent>): nat { Sum(agents, Weight) }

  lemma {:induction false} StepLightens(s: State, a: Action, spawned0: nat)
    requires Inv(s, spawned0) && Enabled(s, a)
    ensures Weight(s.agents[a.i].(pc := PcAfter(s, a))) < Weight(s.agents[a.i])
  {
    assert AgentInv(s, a.i);
  }

  lemma {:induction false} StepDecreases(s: State, a: Action, spawned0: nat)
    requires Inv(s, spawned0) && Enabled(s, a)
    ensures Remaining(Next(s, a).agents) < Remaining(s.agents)
  {
    StepLightens(s, a, spawned0);
    SumUpdate(s.agents, Weight, a.i, s.agents[a.i].(pc := PcAfter(s, a)));
  }

  /** Every run of a batch is finite. */
  lemma {:induction false} RunsAreBounded(s: State, acts: seq<Action>, spawned0: nat)
    requires Inv(s, spawned0) && IsRun(s, acts)
    ensures |acts| + Remaining(After(s, acts).agents) <= Remaining(s.agents)
    decreases |acts|
  {
    if acts != [] {
      StepDecreases(s, acts[0], spawned0);
      StepKeepsInv(s, acts[0], spawned0);
      RunsAreBounded(Next(s, acts[0]), acts[1..], spawned0);
    }
  }

  // ---- results ----

  datatype SubagentResult = SubagentResult(index: nat, error: Option<Outcome>)

  /** The result of spec i says how agent i ended. */
  predicate ResultOf(r: SubagentResult, i: nat, a: Agent)
  {
    r.index == i && a.pc.Finished? && r.error == if a.pc.outcome == Completed then None else Some(a.pc.outcome)
  }

  /** gather: one result per spec, in spec order; a failure becomes its own error result. */
  function Results(s: State): (r: seq<SubagentResult>)
    requires forall i :: 0 <= i < |s.agents| ==> s.agents[i].pc.Finished?
    ensures |r| == |s.agents| && forall i :: 0 <= i < |r| ==> ResultOf(r[i], i, s.agents[i])
  {
    seq(|s.agents|, i requires 0 <= i < |s.agents| =>
      SubagentResult(i, if s.agents[i].pc.outcome == Completed then None else Some(s.agents[i].pc.outcome)))
  }

  /** The outcome an agent's loop has come to, if it has ended. */
  function Fate(pc: Pc): Option<Outcome>
  {
    match pc
    case Leaving(o) => Some(o)
    case Finished(o) => Some(o)
    case _ => None
  }

  /** What this step decides about agent i: only a step of its own can. */
  function Decision(s: State, a: Action, i: nat): Option<Outcome>
    requires Enabled(s, a)
  {
    if a.i != i then None
    else
      match a
      case Stop(_, outcome) => Some(outcome)
      case Spawn(_) =>
        if s.spawned >= s.budget then Some(BudgetExceeded)
        else if s.agents[i].work.tools == [] then Some(NoToolsMatch)
        else None
      case _ => None
  }

  /** The first decision about agent i along a run. */
  ghost function OwnOutcome(s: State, acts: seq<Action>, i: nat): Option<Outcome>
    requires IsRun(s, acts)
    decreases |acts|
  {
    if acts == [] then None
    else if Decision(s, acts[0], i).Some? then Decision(s, acts[0], i)
    else OwnOutcome(Next(s, acts[0]), acts[1..], i)
  }

  lemma {:induction false} StepFate(s: State, a: Action, i: nat)
    requires Enabled(s, a) && i < |s.agents|
    ensures Fate(Next(s, a).agents[i].pc)
         == if Fate(s.agents[i].pc).Some? then Fate(s.agents[i].pc) else Decision(s, a, i)
    ensures s.agents[i].pc.Finished? ==> Next(s, a).agents[i].pc == s.agents[i].pc
  {
  }

  /** An outcome once fixed stays fixed under every later step, and before that only the
      agent's own steps fix it. */
  lemma {:induction false} FateIsOwn(s: State, acts: seq<Action>, i: nat)
    requires IsRun(s, acts) && i < |s.agents|
    ensures |After(s, acts).agents| == |s.agents|
    ensures Fate(After(s, acts).agents[i].pc)
         == if Fate(s.agents[i].pc).Some? then Fate(s.agents[i].pc) else OwnOutcome(s, acts, i)
    ensures s.agents[i].pc.Finished? ==> After(s, acts).agents[i].pc == s.agents[i].pc
    decreases |acts|
  {
    if acts != [] {
      StepFate(s, acts[0], i);
      FateIsOwn(Next(s, acts[0]), acts[1..], i);
    }
  }

  /** When everybody has finished, result i is what agent i's own steps decided. */
  lemma {:induction false} ResultIsOwn(maxParallel: nat, budget: nat, spawned: nat, works: seq<Work>, acts: seq<Action>,
                                       i: nat)
    requires IsRun(Init(maxParallel, budget, spawned, works), acts) && i < |works|
    requires AllFinished(After(Init(maxParallel, budget, spawned, works), acts))
    ensures var s0 := Init(maxParallel, budget, spawned, works);
      var own := OwnOutcome(s0, acts, i);
      && |After(s0, acts).agents| == |works| && own.Some?
      && Results(After(s0, acts))[i] == SubagentResult(i, if own.value == Completed then None else own)
  {
    FateIsOwn(Init(maxParallel, budget, spawned, works), acts, i);
  }

  // ---- siblings do not interfere ----

  /** The steps of agent i. */
  ghost function OwnSteps(acts: seq<Action>, i: nat): (own: seq<Action>)
  {
    if acts == [] then []
    else if acts[0].i == i then [acts[0]] + OwnSteps(acts[1..], i)
    else OwnSteps(acts[1..], i)
  }

  ghost function FirstStop(own: seq<Action>): Option<Outcome>
  {
    if own == [] then None else if own[0].Stop? then Some(own[0].outcome) else FirstStop(own[1..])
  }

  /** The outcome an agent's own steps come to, given the budget's verdict on it. */
  ghost function LocalOutcome(own: seq<Action>, refused: bool, hasTools: bool): Option<Outcome>
  {
    if own == [] then None
    else
      match own[0]
      case Stop(_, outcome) => Some(outcome)
      case Spawn(_) =>
        if refused then Some(BudgetExceeded) else if !hasTools then Some(NoToolsMatch) else FirstStop(own[1..])
      case _ => LocalOutcome(own[1..], refused, hasTools)
  }

  /** Whether the spawn budget was used up when agent i asked. */
  ghost predicate Refused(s: State, acts: seq<Action>, i: nat)
    requires IsRun(s, acts)
    decreases |acts|
  {
    acts != [] && if acts[0] == Spawn(i) then s.spawned >= s.budget else Refused(Next(s, acts[0]), acts[1..], i)
  }

  predicate PastBudget(pc: Pc) { !pc.Waiting? && !pc.Admitted? }

  lemma {:induction false} AfterBudget(s: State, acts: seq<Action>, i: nat)
    requires IsRun(s, acts) && i < |s.agents| && PastBudget(s.agents[i].pc)
    ensures OwnOutcome(s, acts, i) == FirstStop(OwnSteps(acts, i))
    decreases |acts|
  {
    if acts != [] {
      AfterBudget(Next(s, acts[0]), acts[1..], i);
      FirstOwn(acts, i);
    }
  }

  lemma {:induction false} FirstOwn(acts: seq<Action>, i: nat)
    requires acts != []
    ensures acts[0].i == i ==>
      OwnSteps(acts, i) != [] && OwnSteps(acts, i)[0] == acts[0] && OwnSteps(acts, i)[1..] == OwnSteps(acts[1..], i)
    ensures acts[0].i != i ==> OwnSteps(acts, i) == OwnSteps(acts[1..], i)
  {
  }

  /** Between two steps of its own, nothing the siblings do reaches agent i but the budget. */
  lemma {:induction false} OutcomeIsLocal(s: State, acts: seq<Action>, i: nat)
    requires IsRun(s, acts) && i < |s.agents| && !PastBudget(s.agents[i].pc)
    ensures OwnOutcome(s, acts, i) == LocalOutcome(OwnSteps(acts, i), Refused(s, acts, i), s.agents[i].work.tools != [])
    decreases |acts|
  {
    if acts != [] {
      var next := Next(s, acts[0]);
      FirstOwn(acts, i);
      if PastBudget(next.agents[i].pc) {
        AfterBudget(next, acts[1..], i);
      } else {
        OutcomeIsLocal(next, acts[1..], i);
      }
    }
  }

  /** One failure never touches another's result: in two batches with any other siblings and
      any interleaving, the same steps and the same budget verdict give the same result. */
  lemma {:induction false} ResultIsIsolated(s1: State, acts1: seq<Action>, s2: State, acts2: seq<Action>, i: nat)
    requires IsRun(s1, acts1) && IsRun(s2, acts2) && i < |s1.agents| && i < |s2.agents|
    requires s1.agents[i] == s2.agents[i] && s1.agents[i].pc == Waiting
    requires OwnSteps(acts1, i) == OwnSteps(acts2, i) && Refused(s1, acts1, i) == Refused(s2, acts2, i)
    requires AllFinished(After(s1, acts1)) && AllFinished(After(s2, acts2))
    ensures i < |After(s1, acts1).agents| && i < |After(s2, acts2).agents|
    ensures Results(After(s1, acts1))[i] == Results(After(s2, acts2))[i]
  {
    OutcomeIsLocal(s1, acts1, i);
    OutcomeIsLocal(s2, acts2, i);
    FateIsOwn(s1, acts1, i);
    FateIsOwn(s2, acts2, i);
  }

  lemma {:induction false} CountsPartition(agents: seq<Agent>)
    requires forall i :: 0 <= i < |agents| ==> agents[i].pc.Finished?
    ensures Count(agents, WasSpawned) + Count(agents, WasRefused) == |agents|
  {
    if agents != [] {
      CountsPartition(agents[..|agents| - 1]);
    }
  }

  /** When nothing can move any more (and the semaphore admits anyone at all), everybody has a
      result, and exactly as many specs were refused as exceed the budget. */
  lemma {:induction false} BatchEnds(maxParallel: nat, budget: nat, spawned: nat, works: seq<Work>, acts: seq<Action>)
    requires maxParallel >= 1 && spawned <= budget
    requires IsRun(Init(maxParallel, budget, spawned, works), acts)
    requires Stuck(After(Init(maxParallel, budget, spawned, works), acts))
    ensures var s := After(Init(maxParallel, budget, spawned, works), acts);
      && |s.agents| == |works| && AllFinished(s)
      && |Results(s)| == |works|
      && (forall i :: 0 <= i < |works| ==> Results(s)[i].index == i)
      && Count(s.agents, WasSpawned) == (if |works| <= budget - spawned then |works| else budget - spawned)
      && Count(s.agents, WasRefused) == |works| - Count(s.agents, WasSpawned)
  {
    var s0 := Init(maxParallel, budget, spawned, works);
    InitInv(maxParallel, budget, spawned, works);
    RunKeepsInv(s0, acts, spawned);
    StuckExactly(After(s0, acts), spawned);
    CountsPartition(After(s0, acts).agents);
  }

  // ---- the shared objects ----

  class ParallelSpawner {
    const maxParallel: nat
    const budget: nat
    var spawned: nat
    var permits: nat
    var gate: Option<nat>
    var agents: seq<Agent>

    ghost function View(): State
      reads this
    {
      State(maxParallel, budget, spawned, permits, gate, agents)
    }

    constructor (parallel: nat, sessionBudget: nat, already: nat, catalog: seq<Tool>, specs: seq<Spec>)
      ensures maxParallel == parallel && budget == sessionBudget
      ensures View() == Init(parallel, sessionBudget, already, Works(catalog, specs)) && Inv(View(), already)
    {
      var works := Works(catalog, specs);
      maxParallel, budget, spawned, permits, gate := parallel, sessionBudget, already, parallel, None;
      agents := seq(|works|, i requires 0 <= i < |works| => Agent(works[i], Waiting));
      new;
      InitInv(parallel, sessionBudget, already, works);
    }

    method SetPc(i: nat, pc: Pc)
      requires i < |agents|
      modifies this`agents
      ensures agents == old(agents)[i := old(agents)[i].(pc := pc)]
    {
      agents := agents[i := agents[i].(pc := pc)];
    }

    /** async with sem */
    method AcquirePermit(i: nat, ghost spawned0: nat)
      requires Inv(View(), spawned0) && Enabled(View(), Acquire(i))
      modifies this
      ensures Inv(View(), spawned0) && View() == Next(old(View()), Acquire(i))
    {
      StepKeepsInv(View(), Acquire(i), spawned0);
      permits := permits - 1;
      SetPc(i, Admitted);
    }

    /** The budget check and increment, with no await between them. */
    method CheckBudget(i: nat, ghost spawned0: nat)
      requires Inv(View(), spawned0) && Enabled(View(), Spawn(i))
      modifies this
      ensures Inv(View(), spawned0) && View() == Next(old(View()), Spawn(i))
    {
      ghost var was := View();
      if spawned >= budget {
        SetPc(i, Leaving(BudgetExceeded));
      } else {
        spawned := spawned + 1;
        SetPc(i, if agents[i].work.tools != [] then Thinking(0) else Leaving(NoToolsMatch));
      }
      assert View() == Next(was, Spawn(i));
      StepKeepsInv(was, Spawn(i), spawned0);
    }

    /** Registry dispatch up to the gate decision. */
    method StartCall(i: nat, admitted: bool, ghost spawned0: nat)
      requires Inv(View(), spawned0) && Enabled(View(), Call(i, admitted))
      modifies this
      ensures Inv(View(), spawned0) && View() == Next(old(View()), Call(i, admitted))
    {
      StepKeepsInv(View(), Call(i, admitted), spawned0);
      var k := agents[i].pc.next;
      var tool := ToolNamed(agents[i].work.tools, agents[i].work.asks[k]);
      if !admitted || tool.None? {
        SetPc(i, Thinking(k + 1));
      } else {
        SetPc(i, if ReadOnly(tool.value.effects) then InTool(k) else AtGate(k));
      }
    }

    /** async with write_gate */
    method EnterGate(i: nat, ghost spawned0: nat)
      requires Inv(View(), spawned0) && Enabled(View(), TakeGate(i))
      modifies this
      ensures Inv(View(), spawned0) && View() == Next(old(View()), TakeGate(i))
    {
      StepKeepsInv(View(), TakeGate(i), spawned0);
      gate := Some(i);
      SetPc(i, InTool(agents[i].pc.call));
    }

    /** The tool body returned or raised; either way the dispatch has a result. */
    method LeaveTool(i: nat, ghost spawned0: nat)
      requires Inv(View(), spawned0) && Enabled(View(), Return(i))
      modifies this
      ensures Inv(View(), spawned0) && View() == Next(old(View()), Return(i))
    {
      StepKeepsInv(View(), Return(i), spawned0);
      if Mutates(agents[i]) {
        gate := None;
      }
      SetPc(i, Thinking(agents[i].pc.call + 1));
    }

    /** The sub-agent's own loop ended. */
    method StopAgent(i: nat, outcome: Outcome, ghost spawned0: nat)
      requires Inv(View(), spawned0) && Enabled(View(), Stop(i, outcome))
      modifies this
      ensures Inv(View(), spawned0) && View() == Next(old(View()), Stop(i, outcome))
    {
      StepKeepsInv(View(), Stop(i, outcome), spawned0);
      SetPc(i, Leaving(outcome));
    }

    /** Leaving the semaphore. */
    method ReleasePermit(i: nat, ghost spawned0: nat)
      requires Inv(View(), spawned0) && Enabled(View(), Release(i))
      modifies this
      ensures Inv(View(), spawned0) && View() == Next(old(View()), Release(i))
    {
      StepKeepsInv(View(), Release(i), spawned0);
      permits := permits + 1;
      SetPc(i, Finished(agents[i].pc.outcome));
    }

    method Step(a: Action, ghost spawned0: nat)
      requires Inv(View(), spawned0) && Enabled(View(), a)
      modifies this
      ensures Inv(View(), spawned0) && View() == Next(old(View()), a)
    {
      match a {
        case Acquire(i) => AcquirePermit(i, spawned0);
        case Spawn(i) => CheckBudget(i, spawned0);
        case Call(i, admitted) => StartCall(i, admitted, spawned0);
        case TakeGate(i) => EnterGate(i, spawned0);
        case Return(i) => LeaveTool(i, spawned0);
        case Stop(i, outcome) => StopAgent(i, outcome, spawned0);
        case Release(i) => ReleasePermit(i, spawned0);
      }
    }

    predicate CanMove(i: nat)
      reads this
    {
      i < |agents| && Enabled(State(maxParallel, budget, spawned, permits, gate, agents),
                              Wish(State(maxParallel, budget, spawned, permits, gate, agents), i))
    }

    /** What agent i does next: what it wishes, unless its loop gives up between two calls or
        the registry refuses its call. */
    function Move(i: nat, giveUp: bool, bound: bool, admitted: bool): Action
      requires i < |agents|
      reads this
    {
      var pc := agents[i].pc;
      if pc.Thinking? && giveUp then Stop(i, if bound then StoppedOnBound else Raised)
      else if pc.Thinking? && pc.next < |agents[i].work.asks| then Call(i, admitted)
      else Wish(State(maxParallel, budget, spawned, permits, gate, agents), i)
    }

    /** Agent i takes that step, and the work that remains shrinks. */
    method MoveOne(i: nat, giveUp: bool, bound: bool, admitted: bool, ghost spawned0: nat)
      requires Inv(View(), spawned0) && CanMove(i)
      modifies this
      ensures Inv(View(), spawned0) && Remaining(agents) < Remaining(old(agents))
      ensures |agents| == |old(agents)|
      ensures forall j :: 0 <= j < |agents| ==> agents[j].work == old(agents)[j].work
    {
      var a := Move(i, giveUp, bound, admitted);
      MoveEnabled(i, giveUp, bound, admitted);
      StepKeepsWork(View(), a);
      StepDecreases(View(), a, spawned0);
      Step(a, spawned0);
    }

    lemma {:induction false} MoveEnabled(i: nat, giveUp: bool, bound: bool, admitted: bool)
      requires CanMove(i)
      ensures Enabled(View(), Move(i, giveUp, bound, admitted))
    {
    }

    /** spawn_all under any scheduling: it ends, with one result per spec in spec order, and
        refuses exactly the specs the session budget does not cover. */
    method SpawnAll() returns (results: seq<SubagentResult>)
      requires maxParallel >= 1 && spawned <= budget && Inv(View(), spawned)
      modifies this
      ensures |results| == |agents| == |old(agents)|
      ensures forall i :: 0 <= i < |agents| ==> agents[i].work == old(agents)[i].work
      ensures forall i :: 0 <= i < |results| ==> ResultOf(results[i], i, agents[i])
      ensures spawned == old(spawned) + Count(agents, WasSpawned)
      ensures Count(agents, WasSpawned) ==
        if |agents| <= budget - old(spawned) then |agents| else budget - old(spawned)
    {
      ghost var spawned0 := spawned;
      ghost var works := agents;
      while exists i: nat :: i < |agents| && CanMove(i)
        invariant Inv(View(), spawned0) && |agents| == |works|
        invariant forall i :: 0 <= i < |agents| ==> agents[i].work == works[i].work
        decreases Remaining(agents)
      {
        var i: nat :| i < |agents| && CanMove(i);
        var giveUp: bool, bound: bool, admitted: bool := *, *, *;
        MoveOne(i, giveUp, bound, admitted, spawned0);
      }
      forall i | 0 <= i < |agents| ensures !Enabled(View(), Wish(View(), i)) { assert !CanMove(i); }
      NobodyMoves(View(), spawned0);
      CountsPartition(agents);
      results := Results(State(maxParallel, budget, spawned, permits, gate, agents));
    }
  }
}
