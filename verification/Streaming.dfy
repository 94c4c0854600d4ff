/** Collecting a provider's event stream into one response with batched tool calls
    (src/harness/providers/base.py). JSON parsing is a given function. */
module Streaming {
  import opened Sequences
  import opened Messages

  datatype Usage = Usage(input: nat, output: nat, reasoning: nat, cacheRead: nat, cacheCreation: nat, metadata: string)

  /** Stream events; an id of None or "" is a missing id. */
  datatype Event =
    | TextDelta(text: string)
    | ReasoningDelta(text: string)
    | ToolCallStart(id: Option<string>, name: string)
    | ToolCallDelta(id: Option<string>, fragment: string)
    | Completed(usage: Usage)

  datatype ToolCallRef = ToolCallRef(id: string, name: string, args: Args)

  datatype ProviderResponse = ProviderResponse(
    text: Option<string>, toolCalls: seq<ToolCallRef>, reasoningText: Option<string>, usage: Usage)
  {
    predicate IsToolCall() { |toolCalls| > 0 }

    predicate IsFinal() { text.Some? && |toolCalls| == 0 }
  }

  datatype Entry = Entry(name: string, buffer: string)

  /** The local variables of the loop. */
  datatype Acc = Acc(
    text: string, reasoning: Option<string>, entries: map<string, Entry>, order: seq<string>,
    lastOpened: Option<string>, orphans: nat, usage: Usage)

  const NO_USAGE: Usage := Usage(0, 0, 0, 0, 0, "")

  const START: Acc := Acc("", None, map[], [], None, 0, NO_USAGE)

  predicate Missing(id: Option<string>) { id.None? || id.value == "" }

  function OrphanId(n: nat): string { "_orphan_" + Decimal(n) }

  /** The call a tool event is about. */
  function Target(s: Acc, e: Event): (id: string)
    requires e.ToolCallStart? || e.ToolCallDelta?
  {
    if !Missing(e.id) then e.id.value
    else if e.ToolCallDelta? && s.lastOpened.Some? then s.lastOpened.value
    else OrphanId(s.orphans)
  }

  function Step(s: Acc, e: Event): Acc
  {
    match e
    case TextDelta(t) => s.(text := s.text + t)
    case ReasoningDelta(t) =>
      s.(reasoning := Some(if s.reasoning.Some? then s.reasoning.value + t else t))
    case ToolCallStart(i, n) =>
      var id := Target(s, e);
      var s1 := s.(lastOpened := Some(id), orphans := if Missing(i) then s.orphans + 1 else s.orphans);
      if id in s.entries then s1.(entries := s.entries[id := s.entries[id].(name := n)])
      else s1.(entries := s.entries[id := Entry(n, "")], order := s.order + [id])
    case ToolCallDelta(i, frag) =>
      var id := Target(s, e);
      var s1 := s.(orphans := if Missing(i) && s.lastOpened.None? then s.orphans + 1 else s.orphans);
      if id in s.entries then s1.(entries := s.entries[id := s.entries[id].(buffer := s.entries[id].buffer + frag)])
      else s1.(entries := s.entries[id := Entry("", frag)], order := s.order + [id], lastOpened := Some(id))
    case Completed(u) => s.(usage := u)
  }

  function Run(s: Acc, events: seq<Event>): Acc
  {
    if events == [] then s else Step(Run(s, events[..|events| - 1]), events[|events| - 1])
  }

  /** What a buffer parses to: an object (or a list of pairs, which converts to one), other
      JSON such as null or a number, or no JSON. */
  datatype Json = Object(text: string) | OtherJson | NoJson

  type Parser = string -> Json

  function ArgsOf(buffer: string, parse: Parser): Args
  {
    if buffer == "" then NoArgs
    else match parse(buffer)
      case Object(text) => Parsed(text)
      case OtherJson => NotAnObject(buffer)
      case NoJson => MalformedJson(buffer)
  }

  /** The arguments of a call, read off its buffer. */
  ghost predicate ArgsRead(args: Args, buffer: string, parse: Parser)
  {
    && (args == NoArgs <==> buffer == "")
    && (buffer != "" && parse(buffer).Object? ==> args == Parsed(parse(buffer).text))
    && (buffer != "" && parse(buffer) == NoJson ==> args == MalformedJson(buffer))
    && (buffer != "" && parse(buffer) == OtherJson ==> args == NotAnObject(buffer))
  }

  function Calls(order: seq<string>, entries: map<string, Entry>, parse: Parser): (calls: seq<ToolCallRef>)
    requires forall id :: id in order ==> id in entries
    ensures |calls| == |order|
    ensures forall k :: 0 <= k < |order| ==>
      calls[k] == ToolCallRef(order[k], entries[order[k]].name, ArgsOf(entries[order[k]].buffer, parse))
  {
    if order == [] then []
    else
      var n := |order| - 1;
      Calls(order[..n], entries, parse)
        + [ToolCallRef(order[n], entries[order[n]].name, ArgsOf(entries[order[n]].buffer, parse))]
  }

  ghost predicate AccInv(s: Acc)
  {
    && (forall i, j :: 0 <= i < j < |s.order| ==> s.order[i] != s.order[j])
    && (forall id :: id in s.order <==> id in s.entries)
    && (s.lastOpened.Some? ==> s.lastOpened.value in s.entries)
    && (s.lastOpened.None? ==> s.order == [])
  }

  lemma {:induction false} RunInv(s: Acc, events: seq<Event>)
    requires AccInv(s)
    ensures AccInv(Run(s, events))
  {
    if events != [] {
      RunInv(s, events[..|events| - 1]);
      StepInv(Run(s, events[..|events| - 1]), events[|events| - 1]);
    }
  }

  lemma {:induction false} StepInv(s: Acc, e: Event)
    requires AccInv(s)
    ensures AccInv(Step(s, e))
  {
    var s' := Step(s, e);
    if s'.order != s.order {
      var id := Target(s, e);
      assert s'.order == s.order + [id];
      assert forall x :: x in s'.order <==> x in s.order || x == id;
    }
  }

  // ---- the reference reading of a stream ----

  /** The tool events of the stream with the call each is resolved to. */
  ghost function Resolved(events: seq<Event>): (r: seq<(string, Event)>)
  {
    if events == [] then []
    else
      var n := |events| - 1;
      var e := events[n];
      if e.ToolCallStart? || e.ToolCallDelta? then Resolved(events[..n]) + [(Target(Run(START, events[..n]), e), e)]
      else Resolved(events[..n])
  }

  /** Call ids in the order the stream first mentions them. */
  ghost function FirstSeen(r: seq<(string, Event)>): (ids: seq<string>)
  {
    if r == [] then []
    else
      var front := FirstSeen(r[..|r| - 1]);
      var id := r[|r| - 1].0;
      if id in front then front else front + [id]
  }

  /** All fragments resolved to a call, concatenated in arrival order. */
  ghost function Fragments(r: seq<(string, Event)>, id: string): (buffer: string)
  {
    if r == [] then ""
    else
      var front := Fragments(r[..|r| - 1], id);
      var (to, e) := r[|r| - 1];
      if to == id && e.ToolCallDelta? then front + e.fragment else front
  }

  /** The name of the latest start of a call, "" when none came. */
  ghost function NameOf(r: seq<(string, Event)>, id: string): (name: string)
  {
    if r == [] then ""
    else
      var (to, e) := r[|r| - 1];
      if to == id && e.ToolCallStart? then e.name else NameOf(r[..|r| - 1], id)
  }

  lemma {:induction false} Unseen(r: seq<(string, Event)>, id: string)
    requires id !in FirstSeen(r)
    ensures Fragments(r, id) == "" && NameOf(r, id) == ""
  {
    if r != [] {
      Unseen(r[..|r| - 1], id);
    }
  }

  ghost predicate Matches(s: Acc, r: seq<(string, Event)>)
  {
    && s.order == FirstSeen(r)
    && forall id :: id in s.entries ==> EntryMatches(s.entries[id], r, id)
  }

  ghost predicate EntryMatches(entry: Entry, r: seq<(string, Event)>, id: string)
  {
    entry.name == NameOf(r, id) && entry.buffer == Fragments(r, id)
  }

  lemma {:induction false} StepMatches(s: Acc, r: seq<(string, Event)>, e: Event)
    requires AccInv(s) && Matches(s, r) && (e.ToolCallStart? || e.ToolCallDelta?)
    ensures Matches(Step(s, e), r + [(Target(s, e), e)])
  {
    var to, s' := Target(s, e), Step(s, e);
    var r' := r + [(to, e)];
    assert r'[..|r|] == r && r'[|r|] == (to, e);
    if to !in s.entries {
      Unseen(r, to);
    }
    forall id | id in s'.entries ensures EntryMatches(s'.entries[id], r', id) {
      if id != to {
        assert id in s.entries && EntryMatches(s.entries[id], r, id);
      } else if to in s.entries {
        assert EntryMatches(s.entries[to], r, to);
      }
    }
  }

  /** The collected calls are the reference reading: ids in first-seen order, each buffer the
      fragments resolved to it. */
  lemma {:induction false} RunIsReference(events: seq<Event>)
    ensures AccInv(Run(START, events)) && Matches(Run(START, events), Resolved(events))
  {
    RunInv(START, events);
    if events != [] {
      var n := |events| - 1;
      var e := events[n];
      RunIsReference(events[..n]);
      if e.ToolCallStart? || e.ToolCallDelta? {
        StepMatches(Run(START, events[..n]), Resolved(events[..n]), e);
      }
    }
  }

  /** The call opened last: by a start, or by the first fragment that mentions it. */
  ghost function LatestOpener(r: seq<(string, Event)>): (id: Option<string>)
  {
    if r == [] then None
    else
      var (to, e) := r[|r| - 1];
      if e.ToolCallStart? || to !in FirstSeen(r[..|r| - 1]) then Some(to) else LatestOpener(r[..|r| - 1])
  }

  /** Ids made up so far: for starts without an id, and for a fragment before anything opened. */
  ghost function Minted(r: seq<(string, Event)>): (n: nat)
  {
    if r == [] then 0
    else
      var e := r[|r| - 1].1;
      Minted(r[..|r| - 1])
        + if (e.ToolCallStart? || (e.ToolCallDelta? && |r| == 1)) && (e.id == None || e.id == Some("")) then 1 else 0
  }

  /** Ids made up for different numbers differ. */
  lemma {:induction false} OrphanIdsDiffer(m: nat, n: nat)
    requires OrphanId(m) == OrphanId(n)
    ensures m == n
  {
    DecimalReads(m);
    DecimalReads(n);
    assert Decimal(m) == OrphanId(m)[|"_orphan_"|..] == OrphanId(n)[|"_orphan_"|..] == Decimal(n);
  }

  /** How an event is resolved, read off the resolved events before it: its own id; else, for
      a fragment, the call opened last; else the next made-up id. */
  lemma {:induction false} ResolutionRule(events: seq<Event>, e: Event)
    requires e.ToolCallStart? || e.ToolCallDelta?
    ensures var r := Resolved(events);
      Target(Run(START, events), e) ==
        if e.id != None && e.id != Some("") then e.id.value
        else if e.ToolCallDelta? && LatestOpener(r).Some? then LatestOpener(r).value
        else "_orphan_" + Decimal(Minted(r))
  {
    OpenersMatch(events);
  }

  ghost predicate OpenersOk(s: Acc, r: seq<(string, Event)>)
  {
    s.lastOpened == LatestOpener(r) && s.orphans == Minted(r) && (s.lastOpened.None? <==> r == [])
  }

  lemma {:induction false} OpenerSnoc(r: seq<(string, Event)>, to: string, e: Event)
    ensures LatestOpener(r + [(to, e)]) == if e.ToolCallStart? || to !in FirstSeen(r) then Some(to) else LatestOpener(r)
    ensures Minted(r + [(to, e)]) == Minted(r)
      + if (e.ToolCallStart? || (e.ToolCallDelta? && r == [])) && (e.id == None || e.id == Some("")) then 1 else 0
  {
    var r' := r + [(to, e)];
    assert r'[..|r|] == r && r'[|r|] == (to, e);
  }

  lemma {:induction false} OpenerStep(s: Acc, r: seq<(string, Event)>, e: Event)
    requires AccInv(s) && s.order == FirstSeen(r) && OpenersOk(s, r) && (e.ToolCallStart? || e.ToolCallDelta?)
    ensures OpenersOk(Step(s, e), r + [(Target(s, e), e)])
  {
    OpenerSnoc(r, Target(s, e), e);
    assert Missing(e.id) <==> e.id == None || e.id == Some("");
    assert Target(s, e) in s.order <==> Target(s, e) in s.entries;
  }

  lemma {:induction false} OpenersMatch(events: seq<Event>)
    ensures OpenersOk(Run(START, events), Resolved(events))
  {
    if events != [] {
      var n := |events| - 1;
      OpenersMatch(events[..n]);
      RunIsReference(events[..n]);
      if events[n].ToolCallStart? || events[n].ToolCallDelta? {
        OpenerStep(Run(START, events[..n]), Resolved(events[..n]), events[n]);
      }
    }
  }

  /** Nothing is lost: the fragments of all calls together are as long as those received. */
  lemma {:induction false} FragmentsConserved(events: seq<Event>)
    ensures Buffered(Run(START, events).order, Run(START, events).entries) == Received(events)
  {
    RunInv(START, events);
    if events != [] {
      var n := |events| - 1;
      var s, e := Run(START, events[..n]), events[n];
      FragmentsConserved(events[..n]);
      RunInv(START, events[..n]);
      if e.ToolCallStart? || e.ToolCallDelta? {
        BufferedStep(s, e);
      }
    }
  }

  ghost function Received(events: seq<Event>): (n: nat)
  {
    if events == [] then 0
    else
      var e := events[|events| - 1];
      Received(events[..|events| - 1]) + if e.ToolCallDelta? then |e.fragment| else 0
  }

  ghost function Buffered(order: seq<string>, entries: map<string, Entry>): (n: nat)
  {
    if order == [] then 0
    else
      var id := order[|order| - 1];
      Buffered(order[..|order| - 1], entries) + if id in entries then |entries[id].buffer| else 0
  }

  lemma {:induction false} BufferedStep(s: Acc, e: Event)
    requires AccInv(s) && (e.ToolCallStart? || e.ToolCallDelta?)
    ensures Buffered(Step(s, e).order, Step(s, e).entries)
         == Buffered(s.order, s.entries) + if e.ToolCallDelta? then |e.fragment| else 0
  {
    var id, s' := Target(s, e), Step(s, e);
    var entry := s'.entries[id];
    assert s'.entries == s.entries[id := entry];
    if id in s.entries {
      var k :| 0 <= k < |s.order| && s.order[k] == id;
      BufferedUpdate(s.order, s.entries, k, entry);
    } else {
      BufferedOther(s.order, s.entries, id, entry);
      BufferedSnoc(s.order, id, s'.entries);
    }
  }

  lemma {:induction false} BufferedSnoc(order: seq<string>, id: string, entries: map<string, Entry>)
    ensures Buffered(order + [id], entries)
         == Buffered(order, entries) + if id in entries then |entries[id].buffer| else 0
  {
    assert (order + [id])[..|order|] == order;
  }

  lemma {:induction false} BufferedOther(order: seq<string>, entries: map<string, Entry>, id: string, v: Entry)
    requires id !in order
    ensures Buffered(order, entries[id := v]) == Buffered(order, entries)
  {
    if order != [] {
      assert order[|order| - 1] in order;
      assert id !in order[..|order| - 1];
      BufferedOther(order[..|order| - 1], entries, id, v);
    }
  }

  lemma {:induction false} BufferedUpdate(order: seq<string>, entries: map<string, Entry>, k: nat, v: Entry)
    requires k < |order| && order[k] in entries
    requires forall i, j :: 0 <= i < j < |order| ==> order[i] != order[j]
    ensures Buffered(order, entries[order[k] := v]) + |entries[order[k]].buffer|
         == Buffered(order, entries) + |v.buffer|
  {
    var n := |order| - 1;
    if k == n {
      BufferedOther(order[..n], entries, order[n], v);
    } else {
      BufferedUpdate(order[..n], entries, k, v);
    }
  }

  // ---- order of arrival ----

  lemma {:induction false} RunConcat(s: Acc, a: seq<Event>, b: seq<Event>)
    ensures Run(s, a + b) == Run(Run(s, a), b)
  {
    if b == [] {
      assert a + b == a;
    } else {
      Snoc(a, b);
      RunConcat(s, a, b[..|b| - 1]);
      assert (a + b)[..|a + b| - 1] == a + b[..|b| - 1];
    }
  }

  lemma {:induction false} DeltasCommute(s: Acc, e: Event, f: Event)
    requires AccInv(s) && e.ToolCallDelta? && f.ToolCallDelta?
    requires Target(s, e) != Target(s, f) && Target(s, e) in s.entries && Target(s, f) in s.entries
    ensures Step(Step(s, e), f) == Step(Step(s, f), e)
  {
    assert Step(Step(s, e), f).entries == Step(Step(s, f), e).entries;
  }

  /** Fragments resolved to two different calls that are already open may arrive in either
      order, whether they name their call or fall back to the one opened last. */
  lemma {:induction false} SwapDeltas(before: seq<Event>, e: Event, f: Event, rest: seq<Event>)
    requires e.ToolCallDelta? && f.ToolCallDelta?
    requires Target(Run(START, before), e) != Target(Run(START, before), f)
    requires Target(Run(START, before), e) in FirstSeen(Resolved(before))
    requires Target(Run(START, before), f) in FirstSeen(Resolved(before))
    ensures Run(START, before + [e, f] + rest) == Run(START, before + [f, e] + rest)
  {
    var s := Run(START, before);
    RunIsReference(before);
    RunConcat(START, before + [e, f], rest);
    RunConcat(START, before + [f, e], rest);
    RunConcat(START, before, [e, f]);
    RunConcat(START, before, [f, e]);
    TwoSteps(s, e, f);
    TwoSteps(s, f, e);
    DeltasCommute(s, e, f);
  }

  lemma {:induction false} TwoSteps(s: Acc, e: Event, f: Event)
    ensures Run(s, [e, f]) == Step(Step(s, e), f)
  {
    assert [e, f][..1] == [e] && [e][..0] == [];
    assert Run(s, [e]) == Step(Run(s, []), e);
  }

  // ---- the loop ----

  function ResponseOf(s: Acc, parse: Parser): (r: ProviderResponse)
    requires forall id :: id in s.order ==> id in s.entries
    ensures r.IsFinal() != r.IsToolCall()
  {
    var calls := Calls(s.order, s.entries, parse);
    ProviderResponse(if |calls| > 0 then None else Some(s.text), calls, s.reasoning, s.usage)
  }

  /** The calls read off the loop's variables are the reference reading. */
  lemma {:induction false} CallsMatch(order: seq<string>, entries: map<string, Entry>, r: seq<(string, Event)>,
                                      parse: Parser)
    requires forall id :: id in order <==> id in entries
    requires order == FirstSeen(r) && forall id :: id in entries ==> EntryMatches(entries[id], r, id)
    ensures var calls := Calls(order, entries, parse);
      forall k :: 0 <= k < |calls| ==>
        var id := FirstSeen(r)[k];
        calls[k] == ToolCallRef(id, NameOf(r, id), ArgsOf(Fragments(r, id), parse))
  {
    var calls := Calls(order, entries, parse);
    forall k | 0 <= k < |calls|
      ensures calls[k]
           == ToolCallRef(FirstSeen(r)[k], NameOf(r, FirstSeen(r)[k]), ArgsOf(Fragments(r, FirstSeen(r)[k]), parse))
    {
      assert order[k] in order && EntryMatches(entries[order[k]], r, order[k]);
    }
  }

  /** A call by the reference reading: its id, its latest name, and what its fragments parse to. */
  ghost predicate CallReads(call: ToolCallRef, id: string, r: seq<(string, Event)>, parse: Parser)
  {
    && call.id == id && call.name == NameOf(r, id) && ArgsRead(call.args, Fragments(r, id), parse)
    && call.args == ArgsOf(Fragments(r, id), parse)
  }

  /** One call per id, in the order the stream first mentions them. */
  ghost predicate CallsRead(calls: seq<ToolCallRef>, r: seq<(string, Event)>, parse: Parser)
  {
    && |calls| == |FirstSeen(r)|
    && (forall k :: 0 <= k < |calls| ==> CallReads(calls[k], FirstSeen(r)[k], r, parse))
    && forall i, j :: 0 <= i < j < |calls| ==> calls[i].id != calls[j].id
  }

  lemma {:induction false} ResponseReads(events: seq<Event>, parse: Parser)
    ensures AccInv(Run(START, events))
    ensures CallsRead(ResponseOf(Run(START, events), parse).toolCalls, Resolved(events), parse)
  {
    var s, r := Run(START, events), Resolved(events);
    RunIsReference(events);
    CallsMatch(s.order, s.entries, r, parse);
    var calls := Calls(s.order, s.entries, parse);
    forall k | 0 <= k < |calls| ensures CallReads(calls[k], FirstSeen(r)[k], r, parse) {
      assert calls[k] == ToolCallRef(FirstSeen(r)[k], NameOf(r, FirstSeen(r)[k]),
                                     ArgsOf(Fragments(r, FirstSeen(r)[k]), parse));
    }
  }

  method Accumulate(events: seq<Event>, parse: Parser) returns (r: ProviderResponse)
    ensures AccInv(Run(START, events)) && r == ResponseOf(Run(START, events), parse)
    ensures r.IsFinal() != r.IsToolCall()
    ensures CallsRead(r.toolCalls, Resolved(events), parse)
  {
    var text: string := "";
    var reasoning: Option<string> := None;
    var entries: map<string, Entry> := map[];
    var order: seq<string> := [];
    var lastOpened: Option<string> := None;
    var orphans: nat := 0;
    var usage := NO_USAGE;
    for k := 0 to |events|
      invariant Acc(text, reasoning, entries, order, lastOpened, orphans, usage) == Run(START, events[..k])
    {
      assert events[..k + 1][..k] == events[..k];
      ghost var next := Step(Run(START, events[..k]), events[k]);
      match events[k] {
        case TextDelta(t) =>
          text := text + t;
        case ReasoningDelta(t) =>
          reasoning := Some(if reasoning.Some? then reasoning.value + t else t);
        case ToolCallStart(i, n) =>
          var id := if Missing(i) then OrphanId(orphans) else i.value;
          if Missing(i) {
            orphans := orphans + 1;
          }
          if id !in entries {
            entries := entries[id := Entry(n, "")];
            order := order + [id];
          } else {
            entries := entries[id := entries[id].(name := n)];
          }
          lastOpened := Some(id);
        case ToolCallDelta(i, frag) =>
          var target := if Missing(i) then lastOpened else i;
          if target.None? {
            target := Some(OrphanId(orphans));
            orphans := orphans + 1;
          }
          var id := target.value;
          if id !in entries {
            entries := entries[id := Entry("", "")];
            order := order + [id];
            lastOpened := target;
          }
          entries := entries[id := entries[id].(buffer := entries[id].buffer + frag)];
          assert "" + frag == frag;
          assert entries == next.entries;
        case Completed(u) =>
          usage := u;
      }
    }
    assert events[..|events|] == events;
    ResponseReads(events, parse);
    var calls := Calls(order, entries, parse);
    if |calls| > 0 {
      return ProviderResponse(None, calls, reasoning, usage);
    }
    r := ProviderResponse(Some(text), [], reasoning, usage);
  }

  // ---- committing a response to the transcript ----

  function CallBlocks(calls: seq<ToolCallRef>): (blocks: seq<Block>)
  {
    if calls == [] then []
    else
      var c := calls[|calls| - 1];
      CallBlocks(calls[..|calls| - 1]) + [ToolCall(c.id, c.name, c.args)]
  }

  function Ids(calls: seq<ToolCallRef>): (ids: seq<string>)
    ensures |ids| == |calls| && forall k :: 0 <= k < |calls| ==> ids[k] == calls[k].id
  {
    seq(|calls|, k requires 0 <= k < |calls| => calls[k].id)
  }

  /** dict(call.args) works for every call. */
  predicate Convertible(calls: seq<ToolCallRef>) { forall k :: 0 <= k < |calls| ==> !calls[k].args.NotAnObject? }

  function AssistantMessage(r: ProviderResponse): (m: Message)
  {
    Message(Assistant,
      if |r.toolCalls| > 0 then ReasoningBlocks(r) + CallBlocks(r.toolCalls)
      else ReasoningBlocks(r) + [TextBlock(if r.text.Some? then r.text.value else "")])
  }

  /** None: a TypeError, because the arguments of some call are JSON but no object. */
  function FromAssistantResponse(r: ProviderResponse): (m: Option<Message>)
  {
    if Convertible(r.toolCalls) then Some(AssistantMessage(r)) else None
  }

  lemma {:induction false} CallBlocksIds(head: seq<Block>, calls: seq<ToolCallRef>)
    requires CallIds(head) == []
    ensures CallIds(head + CallBlocks(calls)) == Ids(calls)
  {
    if calls == [] {
      assert head + CallBlocks(calls) == head;
      assert Ids(calls) == [];
    } else {
      var n := |calls| - 1;
      var front := head + CallBlocks(calls[..n]);
      var last := ToolCall(calls[n].id, calls[n].name, calls[n].args);
      CallBlocksIds(head, calls[..n]);
      assert head + CallBlocks(calls) == front + [last];
      assert (front + [last])[..|front|] == front;
      assert Ids(calls) == Ids(calls[..n]) + [calls[n].id];
    }
  }

  /** The call blocks of a committed message: one per call, in order, with its id, name and
      arguments. */
  lemma {:induction false} CallBlocksRead(calls: seq<ToolCallRef>)
    ensures |CallBlocks(calls)| == |calls|
    ensures forall k :: 0 <= k < |calls| ==> CallBlocks(calls)[k] == ToolCall(calls[k].id, calls[k].name, calls[k].args)
  {
    if calls != [] {
      CallBlocksRead(calls[..|calls| - 1]);
    }
  }

  function ReasoningBlocks(r: ProviderResponse): (head: seq<Block>)
    ensures CallIds(head) == [] && forall i :: 0 <= i < |head| ==> head[i].ReasoningBlock?
  {
    if (r.reasoningText.Some? && r.reasoningText.value != "") || r.usage.metadata != "" then
      var block := ReasoningBlock(if r.reasoningText.Some? then r.reasoningText.value else "");
      assert [block][..0] == [] && CallIds([block][..0]) == [];
      [block]
    else []
  }

  lemma {:induction false} CommittedHasNoResult(r: ProviderResponse)
    ensures !HasToolResult(AssistantMessage(r))
  {
    CallBlocksRead(r.toolCalls);
  }

  /** The message holds one block of reasoning if the response has any, then exactly the calls,
      or the text if there is none. */
  ghost predicate CommitsExactly(m: Message, r: ProviderResponse)
  {
    var n := if r.toolCalls == [] then 1 else |r.toolCalls|;
    var head := if (r.reasoningText.Some? && r.reasoningText.value != "") || r.usage.metadata != "" then 1 else 0;
    && m.role == Assistant && |m.blocks| == head + n
    && (head == 1 ==> m.blocks[0] == ReasoningBlock(if r.reasoningText.Some? then r.reasoningText.value else ""))
    && (r.toolCalls == [] ==> m.blocks[head] == TextBlock(if r.text.Some? then r.text.value else ""))
    && forall k :: 0 <= k < |r.toolCalls| ==>
         m.blocks[head + k] == ToolCall(r.toolCalls[k].id, r.toolCalls[k].name, r.toolCalls[k].args)
  }

  /** Block k behind the reasoning is call k. */
  lemma {:induction false} CallBlockAt(head: seq<Block>, calls: seq<ToolCallRef>, k: nat)
    requires k < |calls|
    ensures |CallBlocks(calls)| == |calls|
    ensures (head + CallBlocks(calls))[|head| + k] == ToolCall(calls[k].id, calls[k].name, calls[k].args)
  {
    CallBlocksRead(calls);
  }

  lemma {:induction false} CallsCommitted(r: ProviderResponse)
    requires r.toolCalls != []
    ensures CommitsExactly(AssistantMessage(r), r)
  {
    var head, blocks, calls := ReasoningBlocks(r), AssistantMessage(r).blocks, r.toolCalls;
    assert head != [] ==> blocks[0] == head[0];
    CallBlockAt(head, calls, 0);
    forall k | 0 <= k < |calls| ensures blocks[|head| + k] == ToolCall(calls[k].id, calls[k].name, calls[k].args) {
      CallBlockAt(head, calls, k);
    }
  }

  lemma {:induction false} TextIds(head: seq<Block>, text: string)
    requires CallIds(head) == []
    ensures CallIds(head + [TextBlock(text)]) == []
  {
    assert (head + [TextBlock(text)])[..|head|] == head;
  }

  lemma {:induction false} TextCommitted(r: ProviderResponse)
    requires r.toolCalls == []
    ensures CommitsExactly(AssistantMessage(r), r) && IdsOf(AssistantMessage(r)) == Ids(r.toolCalls)
  {
    var head, blocks := ReasoningBlocks(r), AssistantMessage(r).blocks;
    TextIds(head, if r.text.Some? then r.text.value else "");
    assert Ids(r.toolCalls) == [];
    assert head != [] ==> blocks[0] == head[0];
  }

  /** There is a message to commit exactly when every call's arguments are an object, and it
      carries exactly the response's reasoning and its calls or its text, in order, and no
      result. */
  lemma {:induction false} CommittedCalls(r: ProviderResponse)
    ensures FromAssistantResponse(r).Some?
       <==> forall k :: 0 <= k < |r.toolCalls| ==> !r.toolCalls[k].args.NotAnObject?
    ensures FromAssistantResponse(r).Some? ==>
      var m := FromAssistantResponse(r).value;
      CommitsExactly(m, r) && IdsOf(m) == Ids(r.toolCalls) && !HasToolResult(m)
  {
    CommittedHasNoResult(r);
    if r.toolCalls == [] {
      TextCommitted(r);
    } else {
      CallsCommitted(r);
      CallBlocksIds(ReasoningBlocks(r), r.toolCalls);
    }
  }
}
