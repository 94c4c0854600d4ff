/** Conversation messages and what it means for a transcript to be sendable
    (src/harness/messages.py). */
module Messages {
  import opened Sequences

  datatype Role = User | Assistant | System

  /** Tool arguments: none, a JSON object, a buffer kept under the marker key because it is
      not JSON (or an object that carries that key itself), or JSON of which no dict can be
      made. The last kind never gets into a message. */
  datatype Args = NoArgs | Parsed(json: string) | MalformedJson(raw: string) | NotAnObject(raw: string)

  datatype Block =
    | TextBlock(text: string)
    | ToolCall(id: string, name: string, args: Args)
    | ToolResult(callId: string, content: string, isError: bool)
    | ReasoningBlock(text: string)

  datatype Message = Message(role: Role, blocks: seq<Block>)

  function UserText(text: string): Message { Message(User, [TextBlock(text)]) }

  function AssistantText(text: string): Message { Message(Assistant, [TextBlock(text)]) }

  /** Results ride on the user role, one message per result. */
  function ResultMessage(result: Block): Message { Message(User, [result]) }

  predicate HasToolResult(m: Message)
  {
    exists i :: 0 <= i < |m.blocks| && m.blocks[i].ToolResult?
  }

  /** The ids of the calls a message makes, in order. */
  function CallIds(blocks: seq<Block>): (ids: seq<string>)
  {
    if blocks == [] then []
    else
      var last := blocks[|blocks| - 1];
      CallIds(blocks[..|blocks| - 1]) + if last.ToolCall? then [last.id] else []
  }

  function IdsOf(m: Message): (ids: seq<string>) { CallIds(m.blocks) }

  lemma {:induction false} InCallIds(blocks: seq<Block>, id: string)
    ensures id in CallIds(blocks)
       <==> exists i :: 0 <= i < |blocks| && blocks[i].ToolCall? && blocks[i].id == id
  {
    if blocks != [] {
      var n := |blocks| - 1;
      InCallIds(blocks[..n], id);
      if i :| 0 <= i < n && blocks[..n][i].ToolCall? && blocks[..n][i].id == id {
        assert blocks[i] == blocks[..n][i];
      }
      if i :| 0 <= i < |blocks| && blocks[i].ToolCall? && blocks[i].id == id {
        if i < n { assert blocks[..n][i] == blocks[i]; }
      }
    }
  }

  // ---- the pairing of calls and results ----

  /** The message before the unbroken run of result messages that ends at k (-1: none). */
  ghost function Owner(msgs: seq<Message>, k: nat): (a: int)
    requires k < |msgs|
    ensures -1 <= a <= k
  {
    if !HasToolResult(msgs[k]) then k
    else if k == 0 then -1
    else Owner(msgs, k - 1)
  }

  /** What Owner finds: a plain message with nothing but results up to k behind it. */
  lemma {:induction false} OwnerIsRunStart(msgs: seq<Message>, k: nat)
    requires k < |msgs|
    ensures Owner(msgs, k) >= 0 ==> !HasToolResult(msgs[Owner(msgs, k)])
    ensures forall j :: Owner(msgs, k) < j <= k ==> HasToolResult(msgs[j])
  {
    if HasToolResult(msgs[k]) && k > 0 {
      OwnerIsRunStart(msgs, k - 1);
    }
  }

  /** Every result of message k answers a call of the assistant message its run follows. */
  ghost predicate LinkedAt(msgs: seq<Message>, k: nat)
    requires k < |msgs|
  {
    HasToolResult(msgs[k]) ==>
      var a := Owner(msgs, k);
      && a >= 0
      && msgs[a].role == Assistant
      && ResultsAmong(msgs[k], IdsOf(msgs[a]))
  }

  /** Every result of the message answers one of these calls. */
  predicate ResultsAmong(m: Message, ids: seq<string>)
  {
    forall i :: 0 <= i < |m.blocks| && m.blocks[i].ToolResult? ==> m.blocks[i].callId in ids
  }

  ghost predicate Linked(msgs: seq<Message>)
  {
    forall k :: 0 <= k < |msgs| ==> LinkedAt(msgs, k)
  }

  /** The calls of message k are answered, one message each and in order, right after it. */
  ghost predicate AnsweredAt(msgs: seq<Message>, k: nat)
    requires k < |msgs|
  {
    var ids := IdsOf(msgs[k]);
    ids == [] || (k + |ids| < |msgs| && forall j :: 0 <= j < |ids| ==> Answers(msgs[k + 1 + j], ids[j]))
  }

  predicate Answers(m: Message, id: string)
  {
    |m.blocks| == 1 && m.blocks[0].ToolResult? && m.blocks[0].callId == id
  }

  ghost predicate Answered(msgs: seq<Message>)
  {
    forall k :: 0 <= k < |msgs| ==> AnsweredAt(msgs, k)
  }

  /** Starts with a message that makes no call and carries no result. */
  ghost predicate Opens(msgs: seq<Message>)
  {
    msgs != [] ==> !HasToolResult(msgs[0]) && IdsOf(msgs[0]) == []
  }

  lemma {:induction false} OwnerOfPrefix(msgs: seq<Message>, more: seq<Message>, k: nat)
    requires k < |msgs|
    ensures Owner(msgs + more, k) == Owner(msgs, k)
  {
    if HasToolResult(msgs[k]) && k > 0 {
      OwnerOfPrefix(msgs, more, k - 1);
    }
  }

  lemma {:induction false} LinkedPrefix(msgs: seq<Message>, more: seq<Message>)
    requires Linked(msgs)
    ensures forall k :: 0 <= k < |msgs| ==> LinkedAt(msgs + more, k)
  {
    forall k | 0 <= k < |msgs| ensures LinkedAt(msgs + more, k) {
      assert LinkedAt(msgs, k);
      OwnerOfPrefix(msgs, more, k);
    }
  }

  lemma {:induction false} AppendPlain(msgs: seq<Message>, m: Message)
    requires Linked(msgs) && !HasToolResult(m)
    ensures Linked(msgs + [m])
  {
    LinkedPrefix(msgs, [m]);
    assert LinkedAt(msgs + [m], |msgs|);
  }

  /** Appending a result whose call sits in the message the current run follows. */
  lemma {:induction false} AppendResult(msgs: seq<Message>, r: Block, a: nat)
    requires Linked(msgs) && r.ToolResult? && msgs != []
    requires Owner(msgs, |msgs| - 1) == a
    requires msgs[a].role == Assistant && r.callId in IdsOf(msgs[a])
    ensures Linked(msgs + [ResultMessage(r)])
    ensures Owner(msgs + [ResultMessage(r)], |msgs|) == a
  {
    var all := msgs + [ResultMessage(r)];
    OwnerOfPrefix(msgs, [ResultMessage(r)], |msgs| - 1);
    LinkedPrefix(msgs, [ResultMessage(r)]);
    var n := |msgs|;
    assert all[n] == ResultMessage(r) && all[a] == msgs[a];
    ResultLinks(all, r, a, n);
    LinkedFromParts(all, n);
  }

  lemma {:induction false} LinkedFromParts(all: seq<Message>, n: nat)
    requires |all| == n + 1 && LinkedAt(all, n)
    requires forall k :: 0 <= k < n ==> LinkedAt(all, k)
    ensures Linked(all)
  {
    forall k | 0 <= k < |all| ensures LinkedAt(all, k) {
      assert k < n || k == n;
    }
  }

  lemma {:induction false} ResultLinks(all: seq<Message>, r: Block, a: nat, n: nat)
    requires 1 <= n < |all| && all[n] == ResultMessage(r) && r.ToolResult?
    requires Owner(all, n - 1) == a
    requires all[a].role == Assistant && r.callId in IdsOf(all[a])
    ensures LinkedAt(all, n) && Owner(all, n) == a
  {
    var m := all[n];
    assert m.blocks == [r];
    assert HasToolResult(m) by { assert m.blocks[0].ToolResult?; }
  }

  /** A plain message ends no batch: what was answered stays answered. */
  lemma {:induction false} AppendAnswered(msgs: seq<Message>, more: seq<Message>)
    requires Answered(msgs)
    requires forall k :: 0 <= k < |more| ==> AnsweredAt(more, k)
    ensures Answered(msgs + more)
  {
    var all := msgs + more;
    forall k | 0 <= k < |all| ensures AnsweredAt(all, k) {
      if k < |msgs| {
        assert AnsweredAt(msgs, k);
      } else {
        var k' := k - |msgs|;
        assert AnsweredAt(more, k');
        var ids := IdsOf(all[k]);
        if ids != [] {
          forall j | 0 <= j < |ids| ensures Answers(all[k + 1 + j], ids[j]) {
            assert all[k + 1 + j] == more[k' + 1 + j];
          }
        }
      }
    }
  }

  // ---- the three in-place edits on message lists ----

  /** Same blocks up to the content of tool results. */
  predicate SameBlock(b: Block, c: Block)
  {
    b == c || (b.ToolResult? && c.ToolResult? && b.callId == c.callId && b.isError == c.isError)
  }

  ghost predicate SameShape(m: Message, n: Message)
  {
    && m.role == n.role && |m.blocks| == |n.blocks|
    && forall i :: 0 <= i < |m.blocks| ==> SameBlock(m.blocks[i], n.blocks[i])
  }

  ghost predicate SameShapes(a: seq<Message>, b: seq<Message>)
  {
    |a| == |b| && forall k :: 0 <= k < |a| ==> SameShape(a[k], b[k])
  }

  lemma {:induction false} SameIds(b: seq<Block>, c: seq<Block>)
    requires |b| == |c| && forall i :: 0 <= i < |b| ==> SameBlock(b[i], c[i])
    ensures CallIds(b) == CallIds(c)
  {
    if b != [] {
      SameIds(b[..|b| - 1], c[..|c| - 1]);
    }
  }

  lemma {:induction false} ShapeFacts(m: Message, n: Message)
    requires SameShape(m, n)
    ensures HasToolResult(m) <==> HasToolResult(n)
    ensures IdsOf(m) == IdsOf(n)
  {
    SameIds(m.blocks, n.blocks);
    if HasToolResult(m) {
      var i :| 0 <= i < |m.blocks| && m.blocks[i].ToolResult?;
      assert n.blocks[i].ToolResult?;
    }
    if HasToolResult(n) {
      var i :| 0 <= i < |n.blocks| && n.blocks[i].ToolResult?;
      assert m.blocks[i].ToolResult?;
    }
  }

  lemma {:induction false} OwnerSameShape(a: seq<Message>, b: seq<Message>, k: nat)
    requires SameShapes(a, b) && k < |a|
    ensures Owner(a, k) == Owner(b, k)
  {
    ShapeFacts(a[k], b[k]);
    if HasToolResult(a[k]) && k > 0 {
      OwnerSameShape(a, b, k - 1);
    }
  }

  /** Editing only result contents keeps every pairing. */
  lemma {:induction false} ShapeKeepsPairing(a: seq<Message>, b: seq<Message>)
    requires SameShapes(a, b)
    ensures Linked(a) ==> Linked(b)
    ensures Answered(a) ==> Answered(b)
    ensures Opens(a) ==> Opens(b)
  {
    if a != [] { ShapeFacts(a[0], b[0]); }
    forall k | 0 <= k < |a| ensures LinkedAt(a, k) ==> LinkedAt(b, k) {
      ShapeFacts(a[k], b[k]);
      OwnerSameShape(a, b, k);
      if Owner(a, k) >= 0 { ShapeFacts(a[Owner(a, k)], b[Owner(a, k)]); }
      forall i | 0 <= i < |b[k].blocks| && b[k].blocks[i].ToolResult?
        ensures a[k].blocks[i].ToolResult? && a[k].blocks[i].callId == b[k].blocks[i].callId
      {
        assert SameBlock(a[k].blocks[i], b[k].blocks[i]);
      }
    }
    forall k | 0 <= k < |a| ensures AnsweredAt(a, k) ==> AnsweredAt(b, k) {
      AnsweredShape(a, b, k);
    }
    assert Linked(a) ==> forall k :: 0 <= k < |a| ==> LinkedAt(a, k);
  }

  lemma {:induction false} AnsweredShape(a: seq<Message>, b: seq<Message>, k: nat)
    requires SameShapes(a, b) && k < |a|
    ensures AnsweredAt(a, k) ==> AnsweredAt(b, k)
  {
    ShapeFacts(a[k], b[k]);
    var ids := IdsOf(a[k]);
    if AnsweredAt(a, k) && ids != [] {
      forall j | 0 <= j < |ids| ensures Answers(b[k + 1 + j], ids[j]) {
        assert Answers(a[k + 1 + j], ids[j]);
        assert SameShape(a[k + 1 + j], b[k + 1 + j]);
        assert SameBlock(a[k + 1 + j].blocks[0], b[k + 1 + j].blocks[0]);
      }
    }
  }

  /** Cutting before a message that carries no result keeps every pairing of what stays. */
  lemma {:induction false} CutKeepsPairing(msgs: seq<Message>, summary: Message, cut: nat)
    requires 1 <= cut < |msgs| && !HasToolResult(msgs[cut])
    requires !HasToolResult(msgs[0]) && IdsOf(msgs[0]) == []
    requires !HasToolResult(summary) && IdsOf(summary) == []
    ensures Linked(msgs) ==> Linked([msgs[0], summary] + msgs[cut..])
    ensures Answered(msgs) ==> Answered([msgs[0], summary] + msgs[cut..])
  {
    var out := [msgs[0], summary] + msgs[cut..];
    forall k | 0 <= k < |out|
      ensures Linked(msgs) ==> LinkedAt(out, k)
      ensures Answered(msgs) ==> AnsweredAt(out, k)
    {
      if k >= 2 {
        var k' := cut + k - 2;
        assert out[k] == msgs[k'];
        OwnerAfterCut(msgs, out, cut, k);
        if Linked(msgs) { assert LinkedAt(msgs, k'); }
        if Answered(msgs) {
          assert AnsweredAt(msgs, k');
          var ids := IdsOf(out[k]);
          if ids != [] {
            forall j | 0 <= j < |ids| ensures Answers(out[k + 1 + j], ids[j]) {
              assert out[k + 1 + j] == msgs[k' + 1 + j];
            }
          }
        }
      }
    }
  }

  lemma {:induction false} OwnerAfterCut(msgs: seq<Message>, out: seq<Message>, cut: nat, k: nat)
    requires 1 <= cut < |msgs| && !HasToolResult(msgs[cut])
    requires |out| == 2 + |msgs| - cut && 2 <= k < |out|
    requires forall i :: 2 <= i < |out| ==> out[i] == msgs[cut + i - 2]
    ensures Owner(msgs, cut + k - 2) >= cut && Owner(out, k) == Owner(msgs, cut + k - 2) - cut + 2
  {
    if HasToolResult(out[k]) {
      assert out[2] == msgs[cut];
      OwnerAfterCut(msgs, out, cut, k - 1);
    }
  }

  // ---- orphans ----

  ghost predicate IsOrphan(msgs: seq<Message>, b: Block)
  {
    b.ToolResult? && forall k :: 0 <= k < |msgs| ==> b.callId !in IdsOf(msgs[k])
  }

  /** Linked results are never orphans. */
  lemma {:induction false} LinkedHasNoOrphan(msgs: seq<Message>)
    requires Linked(msgs)
    ensures forall k, i :: 0 <= k < |msgs| && 0 <= i < |msgs[k].blocks| ==> !IsOrphan(msgs, msgs[k].blocks[i])
  {
    forall k, i | 0 <= k < |msgs| && 0 <= i < |msgs[k].blocks| && msgs[k].blocks[i].ToolResult?
      ensures !IsOrphan(msgs, msgs[k].blocks[i])
    {
      assert LinkedAt(msgs, k);
    }
  }
}
