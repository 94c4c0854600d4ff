/** The in-place edits of a transcript that keep it inside the context window: masking old
    tool results, dropping orphans, summarizing a prefix, and the compactor that stages
    them (src/harness/context/masking.py, summarizer.py, compactor.py). */
module Context {
  import opened Sequences
  import opened Messages

  const ELIDED_PREFIX: string := "[tool_result elided"

  predicate IsElided(content: string) { ELIDED_PREFIX <= content }

  function Elided(callId: string, tokens: nat): (s: string)
    ensures IsElided(s)
  {
    ELIDED_PREFIX + "; call_id=" + callId + "; original_tokens=" + Decimal(tokens) + "]"
  }

  /** A token counter: the encoder is a given function. */
  type Encoder = string -> nat

  /** How many of the oldest results are masked. */
  function MaskCount(results: nat, keepRecent: nat): (n: nat)
    ensures n <= results
  {
    if results <= keepRecent || keepRecent == 0 then 0 else results - keepRecent
  }

  /** One masked block; an elided result is left as it is. */
  function MaskBlock(b: Block, enc: Encoder): (c: Block)
    requires b.ToolResult?
    ensures c.ToolResult? && SameBlock(b, c) && IsElided(c.content)
  {
    if IsElided(b.content) then b else b.(content := Elided(b.callId, enc(b.content)))
  }

  datatype Place = Place(mi: nat, bi: nat)

  /** Where the tool results of one message stand, in order. */
  function PlacesIn(blocks: seq<Block>, mi: nat): (ps: seq<Place>)
    ensures forall p :: p in ps <==> p.mi == mi && p.bi < |blocks| && blocks[p.bi].ToolResult?
    ensures forall i, j :: 0 <= i < j < |ps| ==> ps[i].bi < ps[j].bi
  {
    if blocks == [] then []
    else
      var n := |blocks| - 1;
      var front := PlacesIn(blocks[..n], mi);
      assert forall p :: p in front ==> blocks[..n][p.bi] == blocks[p.bi];
      assert forall i :: 0 <= i < |front| ==> front[i] in front;
      if blocks[n].ToolResult? then front + [Place(mi, n)] else front
  }

  /** Where all tool results stand, in conversation order. */
  function Places(msgs: seq<Message>): (ps: seq<Place>)
    ensures forall p :: p in ps <==> IsResultPlace(msgs, p)
    ensures forall i, j :: 0 <= i < j < |ps| ==> Before(ps[i], ps[j])
  {
    if msgs == [] then []
    else
      var n := |msgs| - 1;
      var front, last := Places(msgs[..n]), PlacesIn(msgs[n].blocks, n);
      assert forall p :: p in front <==> IsResultPlace(msgs, p) && p.mi < n;
      assert forall i :: 0 <= i < |front| ==> front[i] in front;
      assert forall i :: 0 <= i < |last| ==> last[i] in last;
      front + last
  }

  predicate IsResultPlace(msgs: seq<Message>, p: Place)
  {
    p.mi < |msgs| && p.bi < |msgs[p.mi].blocks| && msgs[p.mi].blocks[p.bi].ToolResult?
  }

  /** Conversation order. */
  predicate Before(p: Place, q: Place) { p.mi < q.mi || (p.mi == q.mi && p.bi < q.bi) }

  function PutBlock(msgs: seq<Message>, p: Place, b: Block): (r: seq<Message>)
    requires IsResultPlace(msgs, p)
    ensures |r| == |msgs|
  {
    var m := msgs[p.mi];
    msgs[p.mi := m.(blocks := m.blocks[p.bi := b])]
  }

  /** Block i of message k is masked if its place is done, else untouched. */
  ghost predicate MaskedAt(before: seq<Message>, after: seq<Message>, done: seq<Place>, k: nat, i: nat, enc: Encoder)
    requires k < |before| == |after| && i < |before[k].blocks| == |after[k].blocks|
  {
    var b := before[k].blocks[i];
    after[k].blocks[i] == if Place(k, i) in done && b.ToolResult? then MaskBlock(b, enc) else b
  }

  /** `after` is `before` with exactly the results at `done` masked. */
  ghost predicate Masked(before: seq<Message>, after: seq<Message>, done: seq<Place>, enc: Encoder)
  {
    && SameShapes(before, after)
    && forall k, i :: 0 <= k < |before| && 0 <= i < |before[k].blocks| ==> MaskedAt(before, after, done, k, i, enc)
  }

  /** The next place to mask still holds the original block. */
  lemma {:induction false} PlaceUntouched(before: seq<Message>, msgs: seq<Message>, places: seq<Place>, r: nat,
                                          enc: Encoder)
    requires places == Places(before) && r < |places| && Masked(before, msgs, places[..r], enc)
    ensures IsResultPlace(before, places[r]) && IsResultPlace(msgs, places[r])
    ensures msgs[places[r].mi].blocks[places[r].bi] == before[places[r].mi].blocks[places[r].bi]
  {
    var p := places[r];
    assert p in places;
    assert p !in places[..r] by {
      forall j | 0 <= j < r ensures places[j] != p { assert Before(places[j], places[r]); }
    }
    assert SameShape(before[p.mi], msgs[p.mi]);
    assert MaskedAt(before, msgs, places[..r], p.mi, p.bi, enc);
    assert Place(p.mi, p.bi) == p;
  }

  lemma {:induction false} MaskedNext(before: seq<Message>, msgs: seq<Message>, done: seq<Place>, p: Place,
                                      enc: Encoder)
    requires Masked(before, msgs, done, enc)
    requires IsResultPlace(before, p) && IsResultPlace(msgs, p)
    requires msgs[p.mi].blocks[p.bi] == before[p.mi].blocks[p.bi]
    ensures Masked(before, PutBlock(msgs, p, MaskBlock(msgs[p.mi].blocks[p.bi], enc)), done + [p], enc)
  {
    var next := PutBlock(msgs, p, MaskBlock(msgs[p.mi].blocks[p.bi], enc));
    forall k | 0 <= k < |before| ensures SameShape(before[k], next[k]) {
      assert SameShape(before[k], msgs[k]);
    }
    forall k, i | 0 <= k < |before| && 0 <= i < |before[k].blocks|
      ensures MaskedAt(before, next, done + [p], k, i, enc)
    {
      assert SameShape(before[k], msgs[k]) && SameShape(before[k], next[k]);
      assert MaskedAt(before, msgs, done, k, i, enc);
      PlaceInSnoc(done, p, Place(k, i));
    }
  }

  lemma {:induction false} PlaceInSnoc(done: seq<Place>, p: Place, q: Place)
    ensures q in done + [p] <==> q in done || q == p
  {
  }

  // ---- token conservation ----

  function BlockTokens(b: Block, enc: Encoder): nat { if b.ToolResult? then enc(b.content) else 0 }

  function MessageTokens(blocks: seq<Block>, enc: Encoder): (n: nat)
  {
    if blocks == [] then 0 else MessageTokens(blocks[..|blocks| - 1], enc) + BlockTokens(blocks[|blocks| - 1], enc)
  }

  /** Tokens held by tool results. */
  function ResultTokens(msgs: seq<Message>, enc: Encoder): (n: nat)
  {
    if msgs == [] then 0
    else ResultTokens(msgs[..|msgs| - 1], enc) + MessageTokens(msgs[|msgs| - 1].blocks, enc)
  }

  lemma {:induction false} MessageTokensPut(blocks: seq<Block>, i: nat, b: Block, enc: Encoder)
    requires i < |blocks|
    ensures MessageTokens(blocks[i := b], enc) + BlockTokens(blocks[i], enc)
         == MessageTokens(blocks, enc) + BlockTokens(b, enc)
  {
    var n := |blocks| - 1;
    if i == n {
      assert blocks[i := b][..n] == blocks[..n];
    } else {
      MessageTokensPut(blocks[..n], i, b, enc);
      assert blocks[i := b][..n] == blocks[..n][i := b];
    }
  }

  lemma {:induction false} ResultTokensPut(msgs: seq<Message>, k: nat, m: Message, enc: Encoder)
    requires k < |msgs|
    ensures ResultTokens(msgs[k := m], enc) + MessageTokens(msgs[k].blocks, enc)
         == ResultTokens(msgs, enc) + MessageTokens(m.blocks, enc)
  {
    var n := |msgs| - 1;
    if k == n {
      assert msgs[k := m][..n] == msgs[..n];
    } else {
      ResultTokensPut(msgs[..n], k, m, enc);
      assert msgs[k := m][..n] == msgs[..n][k := m];
    }
  }

  // ---- what masking amounts to ----

  lemma {:induction false} PlacesInSame(b: seq<Block>, c: seq<Block>, mi: nat)
    requires |b| == |c| && forall i :: 0 <= i < |b| ==> SameBlock(b[i], c[i])
    ensures PlacesIn(b, mi) == PlacesIn(c, mi)
  {
    if b != [] {
      PlacesInSame(b[..|b| - 1], c[..|c| - 1], mi);
    }
  }

  lemma {:induction false} PlacesSame(a: seq<Message>, b: seq<Message>)
    requires SameShapes(a, b)
    ensures Places(a) == Places(b)
  {
    if a != [] {
      var n := |a| - 1;
      PlacesSame(a[..n], b[..n]);
      PlacesInSame(a[n].blocks, b[n].blocks, n);
    }
  }

  /** Masking a second time changes nothing. */
  lemma {:induction false} MaskIdempotent(a: seq<Message>, b: seq<Message>, c: seq<Message>, count: nat, enc: Encoder)
    requires count <= |Places(a)| && Masked(a, b, Places(a)[..count], enc)
    requires count <= |Places(b)| && Masked(b, c, Places(b)[..count], enc)
    ensures c == b
  {
    PlacesSame(a, b);
    var done := Places(a)[..count];
    forall k | 0 <= k < |a| ensures c[k] == b[k] {
      assert SameShape(a[k], b[k]) && SameShape(b[k], c[k]);
      forall i | 0 <= i < |a[k].blocks| ensures c[k].blocks[i] == b[k].blocks[i] {
        assert MaskedAt(a, b, done, k, i, enc) && MaskedAt(b, c, done, k, i, enc);
        assert SameBlock(a[k].blocks[i], b[k].blocks[i]);
      }
      assert c[k].blocks == b[k].blocks;
    }
  }

  ghost predicate ElidedAt(msgs: seq<Message>, p: Place)
    requires IsResultPlace(msgs, p)
  {
    IsElided(msgs[p.mi].blocks[p.bi].content)
  }

  /** All results but the most recent `keep` are elided. */
  ghost predicate OlderElided(msgs: seq<Message>, keep: nat)
  {
    var places := Places(msgs);
    forall r :: 0 <= r < |places| - keep ==> ElidedAt(msgs, places[r])
  }

  /** Masking elides all but the most recent `keep` results exactly when keep is at least 1
      or there was nothing left to elide: a slice ending at -0 is empty. */
  lemma {:induction false} MaskedOlderExactly(a: seq<Message>, b: seq<Message>, keep: nat, enc: Encoder)
    requires Masked(a, b, Places(a)[..MaskCount(|Places(a)|, keep)], enc)
    ensures OlderElided(b, keep) <==> keep >= 1 || OlderElided(a, 0)
  {
    PlacesSame(a, b);
    var places := Places(a);
    var done := places[..MaskCount(|places|, keep)];
    forall r | 0 <= r < |places|
      ensures IsResultPlace(a, places[r]) && IsResultPlace(b, places[r])
      ensures r < |done| ==> ElidedAt(b, places[r])
      ensures keep == 0 ==> (ElidedAt(b, places[r]) <==> ElidedAt(a, places[r]))
    {
      var p := places[r];
      assert p in places;
      assert SameShape(a[p.mi], b[p.mi]);
      assert MaskedAt(a, b, done, p.mi, p.bi, enc);
      assert Place(p.mi, p.bi) == p;
      if r < |done| {
        assert done[r] == p;
      }
    }
  }

  /** The list with exactly the results at `done` masked. */
  ghost function MaskList(msgs: seq<Message>, done: seq<Place>, enc: Encoder): (r: seq<Message>)
  {
    seq(|msgs|, k requires 0 <= k < |msgs| => msgs[k].(blocks := MaskBlocks(msgs[k].blocks, k, done, enc)))
  }

  ghost function MaskBlocks(blocks: seq<Block>, k: nat, done: seq<Place>, enc: Encoder): (r: seq<Block>)
  {
    seq(|blocks|, i requires 0 <= i < |blocks| =>
      if Place(k, i) in done && blocks[i].ToolResult? then MaskBlock(blocks[i], enc) else blocks[i])
  }

  /** Masking has one outcome. */
  lemma {:induction false} MaskedIsList(before: seq<Message>, after: seq<Message>, done: seq<Place>, enc: Encoder)
    requires Masked(before, after, done, enc)
    ensures after == MaskList(before, done, enc)
  {
    forall k | 0 <= k < |before| ensures after[k] == MaskList(before, done, enc)[k] {
      assert SameShape(before[k], after[k]);
      forall i | 0 <= i < |before[k].blocks|
        ensures after[k].blocks[i] == MaskBlocks(before[k].blocks, k, done, enc)[i]
      {
        assert MaskedAt(before, after, done, k, i, enc);
      }
      assert after[k].blocks == MaskBlocks(before[k].blocks, k, done, enc);
    }
  }

  /** A result as masking leaves it: the marker with its call and its size in place of its
      content, unless it carries the marker already. */
  ghost predicate ElidedFrom(b: Block, c: Block, enc: Encoder)
    requires b.ToolResult?
  {
    if "[tool_result elided" <= b.content then c == b
    else
      c == ToolResult(b.callId, "[tool_result elided; call_id=" + b.callId + "; original_tokens="
                                  + Decimal(enc(b.content)) + "]", b.isError)
  }

  /** Result r of the list, in conversation order. */
  function ResultAt(msgs: seq<Message>, p: Place): Block
    requires IsResultPlace(msgs, p)
  {
    msgs[p.mi].blocks[p.bi]
  }

  ghost predicate ResultMasked(before: seq<Message>, after: seq<Message>, p: Place, older: bool, enc: Encoder)
  {
    && IsResultPlace(before, p) && IsResultPlace(after, p)
    && (older ==> ElidedFrom(ResultAt(before, p), ResultAt(after, p), enc))
    && (!older ==> ResultAt(after, p) == ResultAt(before, p))
  }

  /** All but the `keep` most recent results are elided, these and everything else stay; a keep
      of 0 leaves the whole list. */
  ghost predicate OlderAreElided(before: seq<Message>, after: seq<Message>, keep: nat, enc: Encoder)
  {
    var places := Places(before);
    && SameShapes(before, after)
    && (keep == 0 ==> after == before)
    && (keep >= 1 ==>
          forall r :: 0 <= r < |places| ==> ResultMasked(before, after, places[r], r < |places| - keep, enc))
  }

  lemma {:induction false} MaskingElidesOlder(before: seq<Message>, after: seq<Message>, keep: nat, enc: Encoder)
    requires Masked(before, after, Places(before)[..MaskCount(|Places(before)|, keep)], enc)
    ensures OlderAreElided(before, after, keep, enc)
  {
    var places := Places(before);
    var done := places[..MaskCount(|places|, keep)];
    if keep == 0 {
      assert done == [];
      NothingMasked(before, after, enc);
    } else {
      forall r | 0 <= r < |places|
        ensures ResultMasked(before, after, places[r], r < |places| - keep, enc)
      {
        PlaceMasked(before, after, |done|, r, enc);
      }
    }
  }

  lemma {:induction false} BlockElided(b: Block, enc: Encoder)
    requires b.ToolResult?
    ensures ElidedFrom(b, MaskBlock(b, enc), enc)
  {
    assert ELIDED_PREFIX + "; call_id=" == "[tool_result elided; call_id=";
  }

  lemma {:induction false} PlaceMasked(before: seq<Message>, after: seq<Message>, n: nat, r: nat, enc: Encoder)
    requires n <= |Places(before)| && r < |Places(before)| && Masked(before, after, Places(before)[..n], enc)
    ensures ResultMasked(before, after, Places(before)[r], r < n, enc)
  {
    var places := Places(before);
    var p := places[r];
    assert p in places;
    assert SameShape(before[p.mi], after[p.mi]);
    assert MaskedAt(before, after, places[..n], p.mi, p.bi, enc);
    assert Place(p.mi, p.bi) == p;
    BlockElided(ResultAt(before, p), enc);
    if r < n {
      assert places[..n][r] == p;
    } else {
      forall j | 0 <= j < n ensures places[..n][j] != p { assert Before(places[j], places[r]); }
    }
  }

  lemma {:induction false} NothingMasked(before: seq<Message>, after: seq<Message>, enc: Encoder)
    requires Masked(before, after, [], enc)
    ensures after == before
  {
    forall k | 0 <= k < |before| ensures after[k] == before[k] {
      assert SameShape(before[k], after[k]);
      forall i | 0 <= i < |before[k].blocks| ensures after[k].blocks[i] == before[k].blocks[i] {
        assert MaskedAt(before, after, [], k, i, enc);
      }
      assert after[k].blocks == before[k].blocks;
    }
  }

  // ---- dropping orphans ----

  function CallSet(msgs: seq<Message>): (ids: set<string>)
    ensures forall id :: id in ids <==> exists k :: 0 <= k < |msgs| && id in IdsOf(msgs[k])
  {
    if msgs == [] then {}
    else
      var n := |msgs| - 1;
      var front := CallSet(msgs[..n]);
      assert forall k :: 0 <= k < n ==> msgs[..n][k] == msgs[k];
      front + set id | id in IdsOf(msgs[n])
  }

  predicate Kept(b: Block, ids: set<string>) { b.ToolResult? ==> b.callId in ids }

  function KeepBlocks(blocks: seq<Block>, ids: set<string>): (r: seq<Block>)
    ensures forall b :: b in r <==> b in blocks && Kept(b, ids)
    ensures |r| <= |blocks| && (|r| == |blocks| ==> r == blocks)
  {
    if blocks == [] then []
    else
      var n := |blocks| - 1;
      var front := KeepBlocks(blocks[..n], ids);
      assert forall b :: b in blocks <==> b in blocks[..n] || b == blocks[n];
      if Kept(blocks[n], ids) then front + [blocks[n]] else front
  }

  /** The list without orphan results and without messages that held nothing else. */
  function Repaired(msgs: seq<Message>, ids: set<string>): (r: seq<Message>)
  {
    if msgs == [] then []
    else
      var m := msgs[|msgs| - 1];
      var blocks := KeepBlocks(m.blocks, ids);
      Repaired(msgs[..|msgs| - 1], ids) + if blocks == [] then [] else [m.(blocks := blocks)]
  }

  function OrphanCount(msgs: seq<Message>, ids: set<string>): (n: nat)
  {
    if msgs == [] then 0
    else
      var m := msgs[|msgs| - 1];
      OrphanCount(msgs[..|msgs| - 1], ids) + (|m.blocks| - |KeepBlocks(m.blocks, ids)|)
  }

  ghost predicate NoOrphans(msgs: seq<Message>)
  {
    forall k, i :: 0 <= k < |msgs| && 0 <= i < |msgs[k].blocks| ==> !IsOrphan(msgs, msgs[k].blocks[i])
  }

  ghost predicate AllKept(blocks: seq<Block>, ids: set<string>)
  {
    forall i :: 0 <= i < |blocks| ==> Kept(blocks[i], ids)
  }

  lemma {:induction false} KeepsAllExactly(blocks: seq<Block>, ids: set<string>)
    ensures |KeepBlocks(blocks, ids)| == |blocks| <==> AllKept(blocks, ids)
  {
    var kept := KeepBlocks(blocks, ids);
    if |kept| == |blocks| {
      forall i | 0 <= i < |blocks| ensures Kept(blocks[i], ids) {
        assert blocks[i] in kept;
      }
    }
    if AllKept(blocks, ids) {
      KeepAll(blocks, ids);
    }
  }

  ghost predicate NoneDropped(msgs: seq<Message>, ids: set<string>)
  {
    forall k :: 0 <= k < |msgs| ==> AllKept(msgs[k].blocks, ids)
  }

  lemma {:induction false} NoneDroppedSnoc(msgs: seq<Message>, m: Message, ids: set<string>)
    ensures NoneDropped(msgs + [m], ids) <==> NoneDropped(msgs, ids) && AllKept(m.blocks, ids)
  {
    var all := msgs + [m];
    assert all[|msgs|] == m;
    if NoneDropped(all, ids) {
      forall k | 0 <= k < |msgs| ensures AllKept(msgs[k].blocks, ids) { assert AllKept(all[k].blocks, ids); }
    }
  }

  lemma {:induction false} OrphanCountZero(msgs: seq<Message>, ids: set<string>)
    ensures OrphanCount(msgs, ids) == 0 <==> NoneDropped(msgs, ids)
  {
    if msgs != [] {
      var n := |msgs| - 1;
      OrphanCountZero(msgs[..n], ids);
      KeepsAllExactly(msgs[n].blocks, ids);
      SnocSelf(msgs);
      NoneDroppedSnoc(msgs[..n], msgs[n], ids);
    }
  }

  lemma {:induction false} KeepAll(blocks: seq<Block>, ids: set<string>)
    requires forall i :: 0 <= i < |blocks| ==> Kept(blocks[i], ids)
    ensures KeepBlocks(blocks, ids) == blocks
  {
    if blocks != [] {
      KeepAll(blocks[..|blocks| - 1], ids);
      SnocSelf(blocks);
    }
  }

  /** Nothing is dropped exactly when the transcript holds no orphan. */
  lemma {:induction false} OrphansCounted(msgs: seq<Message>)
    ensures OrphanCount(msgs, CallSet(msgs)) == 0 <==> NoOrphans(msgs)
  {
    var ids := CallSet(msgs);
    OrphanCountZero(msgs, ids);
    forall k, i | 0 <= k < |msgs| && 0 <= i < |msgs[k].blocks|
      ensures Kept(msgs[k].blocks[i], ids) <==> !IsOrphan(msgs, msgs[k].blocks[i])
    {
    }
    if NoOrphans(msgs) {
      forall k | 0 <= k < |msgs| ensures AllKept(msgs[k].blocks, ids) {
      }
    }
    if NoneDropped(msgs, ids) {
      forall k, i | 0 <= k < |msgs| && 0 <= i < |msgs[k].blocks| ensures !IsOrphan(msgs, msgs[k].blocks[i]) {
        assert AllKept(msgs[k].blocks, ids);
      }
    }
  }

  lemma {:induction false} KeepSnoc(a: seq<Block>, b: Block, ids: set<string>)
    ensures KeepBlocks(a + [b], ids) == if Kept(b, ids) then KeepBlocks(a, ids) + [b] else KeepBlocks(a, ids)
  {
    assert (a + [b])[..|a|] == a && (a + [b])[|a|] == b;
  }

  /** The repair works block by block and message by message: order and multiplicity stay. */
  lemma {:induction false} KeepConcat(a: seq<Block>, b: seq<Block>, ids: set<string>)
    ensures KeepBlocks(a + b, ids) == KeepBlocks(a, ids) + KeepBlocks(b, ids)
  {
    if b == [] {
      assert a + b == a;
    } else {
      var n := |b| - 1;
      KeepConcat(a, b[..n], ids);
      KeepSnoc(a + b[..n], b[n], ids);
      KeepSnoc(b[..n], b[n], ids);
      Snoc(a, b);
      SnocSelf(b);
    }
  }

  lemma {:induction false} RepairedSnoc(msgs: seq<Message>, m: Message, ids: set<string>)
    ensures Repaired(msgs + [m], ids) == Repaired(msgs, ids) + Repaired([m], ids)
  {
    assert (msgs + [m])[..|msgs|] == msgs;
    assert [m][..0] == [];
  }

  lemma {:induction false} RepairedConcat(a: seq<Message>, b: seq<Message>, ids: set<string>)
    ensures Repaired(a + b, ids) == Repaired(a, ids) + Repaired(b, ids)
  {
    if b == [] {
      assert a + b == a;
    } else {
      var n := |b| - 1;
      RepairedConcat(a, b[..n], ids);
      RepairedSnoc(a + b[..n], b[n], ids);
      RepairedSnoc(b[..n], b[n], ids);
      Snoc(a, b);
      SnocSelf(b);
      Assoc(Repaired(a, ids), Repaired(b[..n], ids), Repaired([b[n]], ids));
    }
  }

  lemma {:induction false} KeepCalls(blocks: seq<Block>, ids: set<string>)
    ensures CallIds(KeepBlocks(blocks, ids)) == CallIds(blocks)
  {
    if blocks != [] {
      var n := |blocks| - 1;
      KeepCalls(blocks[..n], ids);
      var front := KeepBlocks(blocks[..n], ids);
      if Kept(blocks[n], ids) {
        assert (front + [blocks[n]])[..|front|] == front;
      }
    }
  }

  lemma {:induction false} RepairedKeeps(msgs: seq<Message>, ids: set<string>)
    ensures CallSet(Repaired(msgs, ids)) == CallSet(msgs)
    ensures forall m, b :: m in Repaired(msgs, ids) && b in m.blocks ==> Kept(b, ids)
  {
    if msgs != [] {
      var n := |msgs| - 1;
      var m := msgs[n];
      var front, blocks := Repaired(msgs[..n], ids), KeepBlocks(m.blocks, ids);
      RepairedKeeps(msgs[..n], ids);
      KeepCalls(m.blocks, ids);
      if blocks == [] {
        assert Repaired(msgs, ids) == front;
      } else {
        var all := front + [m.(blocks := blocks)];
        assert Repaired(msgs, ids) == all && all[..|front|] == front;
      }
    }
  }

  /** What is kept of a message: whatever is no result, and the results of these calls, in order. */
  lemma {:induction false} KeepFilters(blocks: seq<Block>, ids: set<string>)
    ensures Filtered(KeepBlocks(blocks, ids), blocks, (b: Block) => b.ToolResult? ==> b.callId in ids)
  {
    if blocks == [] {
      FilteredNone((b: Block) => b.ToolResult? ==> b.callId in ids);
    } else {
      var n := |blocks| - 1;
      KeepFilters(blocks[..n], ids);
      FilteredSnoc(KeepBlocks(blocks[..n], ids), blocks[..n], (b: Block) => b.ToolResult? ==> b.callId in ids,
                   blocks[n]);
      SnocSelf(blocks);
    }
  }

  /** m without the results of other calls. */
  ghost predicate CleanedOf(c: Message, m: Message, ids: set<string>)
  {
    c.role == m.role && Filtered(c.blocks, m.blocks, (b: Block) => b.ToolResult? ==> b.callId in ids)
  }

  ghost predicate AllCleaned(cleaned: seq<Message>, msgs: seq<Message>, ids: set<string>)
  {
    |cleaned| == |msgs| && forall k :: 0 <= k < |msgs| ==> CleanedOf(cleaned[k], msgs[k], ids)
  }

  predicate HoldsBlocks(m: Message) { m.blocks != [] }

  lemma {:induction false} OneMoreCleaned(cleaned: seq<Message>, msgs: seq<Message>, c: Message, m: Message,
                                          ids: set<string>)
    requires AllCleaned(cleaned, msgs, ids) && CleanedOf(c, m, ids)
    ensures AllCleaned(cleaned + [c], msgs + [m], ids)
  {
  }

  lemma {:induction false} RepairedNext(msgs: seq<Message>, m: Message, c: Message, ids: set<string>)
    requires c == m.(blocks := KeepBlocks(m.blocks, ids))
    ensures CleanedOf(c, m, ids)
    ensures Repaired(msgs + [m], ids) == if HoldsBlocks(c) then Repaired(msgs, ids) + [c] else Repaired(msgs, ids)
  {
    KeepFilters(m.blocks, ids);
    assert (msgs + [m])[..|msgs|] == msgs;
  }

  /** The repair cleans every message and leaves those that still hold a block, in order. */
  lemma {:induction false} RepairedFilters(msgs: seq<Message>, ids: set<string>) returns (cleaned: seq<Message>)
    ensures AllCleaned(cleaned, msgs, ids) && Filtered(Repaired(msgs, ids), cleaned, HoldsBlocks)
  {
    if msgs == [] {
      cleaned := [];
      FilteredNone(HoldsBlocks);
    } else {
      var n := |msgs| - 1;
      var front := RepairedFilters(msgs[..n], ids);
      var last := msgs[n].(blocks := KeepBlocks(msgs[n].blocks, ids));
      cleaned := front + [last];
      SnocSelf(msgs);
      RepairedNext(msgs[..n], msgs[n], last, ids);
      OneMoreCleaned(front, msgs[..n], last, msgs[n], ids);
      FilteredSnoc(Repaired(msgs[..n], ids), front, HoldsBlocks, last);
    }
  }

  /** After the repair no orphan is left. */
  lemma {:induction false} RepairedHasNoOrphan(msgs: seq<Message>)
    ensures NoOrphans(Repaired(msgs, CallSet(msgs)))
  {
    var r := Repaired(msgs, CallSet(msgs));
    RepairedKeeps(msgs, CallSet(msgs));
    forall k, i | 0 <= k < |r| && 0 <= i < |r[k].blocks| ensures !IsOrphan(r, r[k].blocks[i]) {
      assert r[k] in r && r[k].blocks[i] in r[k].blocks;
      assert Kept(r[k].blocks[i], CallSet(r));
    }
  }

  /** What a turn sends: the list itself, or the repaired one if it holds an orphan. */
  function Sendable(msgs: seq<Message>): (r: seq<Message>)
  {
    if OrphanCount(msgs, CallSet(msgs)) == 0 then msgs else Repaired(msgs, CallSet(msgs))
  }

  lemma {:induction false} SendableIsClean(msgs: seq<Message>)
    ensures NoOrphans(Sendable(msgs))
    ensures Linked(msgs) ==> Sendable(msgs) == msgs && OrphanCount(msgs, CallSet(msgs)) == 0
  {
    OrphansCounted(msgs);
    RepairedHasNoOrphan(msgs);
    if Linked(msgs) {
      LinkedHasNoOrphan(msgs);
    }
  }

  // ---- the summarizer's cut ----

  /** The last position at or before `from` (but not before 1) that carries no result. */
  function SnapCut(msgs: seq<Message>, from: nat): (cut: nat)
    requires 1 <= from < |msgs|
    ensures 1 <= cut <= from
    ensures cut > 1 ==> !HasToolResult(msgs[cut])
    ensures forall j :: cut < j <= from ==> HasToolResult(msgs[j])
  {
    if from == 1 || !HasToolResult(msgs[from]) then from else SnapCut(msgs, from - 1)
  }

  datatype SummaryOutcome =
    | NothingToSummarize
    | TurnsReplaced(count: nat)
    | ProviderRaised
    | CutOutOfRange       // keep_recent_turns == 0 indexes past the list

  /** What a summarization of this list comes to. */
  function SummaryFate(msgs: seq<Message>, keepRecentTurns: nat, reply: Option<string>): (o: SummaryOutcome)
    ensures o.TurnsReplaced? ==> reply.Some? && 1 <= o.count < |msgs| - keepRecentTurns
  {
    if |msgs| <= keepRecentTurns + 1 then NothingToSummarize
    else if keepRecentTurns == 0 then CutOutOfRange
    else
      var cut := SnapCut(msgs, |msgs| - keepRecentTurns);
      if cut == 1 then NothingToSummarize
      else if reply.None? then ProviderRaised
      else TurnsReplaced(cut - 1)
  }

  predicate Fails(o: SummaryOutcome) { o == ProviderRaised || o == CutOutOfRange }

  function SummaryMessage(turns: nat, reply: string): Message
  {
    UserText("[session summary \U{2014} " + Decimal(turns) + " turns replaced]\n" +
             if reply == "" then "(empty summary)" else reply)
  }

  /** A user message that says how many turns it stands for and carries the reply, or a
      placeholder for an empty one. */
  ghost predicate Summarizes(m: Message, turns: nat, reply: string)
  {
    && m.role == User && |m.blocks| == 1 && m.blocks[0].TextBlock?
    && (reply != "" ==>
          m.blocks[0].text == "[session summary \U{2014} " + Decimal(turns) + " turns replaced]\n" + reply)
    && (reply == "" ==>
          m.blocks[0].text == "[session summary \U{2014} " + Decimal(turns) + " turns replaced]\n(empty summary)")
  }

  lemma {:induction false} SummaryReads(turns: nat, reply: string)
    ensures Summarizes(SummaryMessage(turns, reply), turns, reply)
  {
    if reply == "" {
      assert "\n" == ['\n'] && " turns replaced]\n" + "(empty summary)" == " turns replaced]\n(empty summary)";
    }
  }

  lemma {:induction false} SummaryIsPlain(turns: nat, reply: string)
    ensures !HasToolResult(SummaryMessage(turns, reply)) && IdsOf(SummaryMessage(turns, reply)) == []
  {
    TextIsPlain(SummaryMessage(turns, reply));
  }

  lemma {:induction false} TextIsPlain(m: Message)
    requires |m.blocks| == 1 && m.blocks[0].TextBlock?
    ensures !HasToolResult(m) && IdsOf(m) == []
  {
    assert m.blocks[..0] == [];
    assert CallIds(m.blocks[..0]) == [];
  }

  datatype ZoneState = Green | Yellow | Red

  class Transcript {
    var messages: seq<Message>

    constructor ()
      ensures messages == []
    {
      messages := [];
    }

    method Append(m: Message)
      modifies this
      ensures messages == old(messages) + [m]
    {
      messages := messages + [m];
    }

    /** The places of the results of one message. */
    method CollectIn(mi: nat) returns (results: seq<Place>)
      requires mi < |messages|
      ensures results == PlacesIn(messages[mi].blocks, mi)
    {
      results := [];
      var blocks := messages[mi].blocks;
      for bi := 0 to |blocks|
        invariant results == PlacesIn(blocks[..bi], mi)
      {
        assert blocks[..bi + 1][..bi] == blocks[..bi];
        if blocks[bi].ToolResult? {
          results := results + [Place(mi, bi)];
        }
      }
      assert blocks[..|blocks|] == blocks;
    }

    /** Collect the places of all results, message by message, block by block. */
    method CollectResults() returns (results: seq<Place>)
      ensures results == Places(messages)
    {
      results := [];
      for mi := 0 to |messages|
        invariant results == Places(messages[..mi])
      {
        assert messages[..mi + 1][..mi] == messages[..mi];
        var here := CollectIn(mi);
        results := results + here;
      }
      assert messages[..|messages|] == messages;
    }

    /** Mask one place; returns the tokens it frees. */
    method MaskPlace(p: Place, ghost before: seq<Message>, ghost places: seq<Place>, ghost r: nat, enc: Encoder)
      returns (gained: int)
      requires places == Places(before) && r < |places| && p == places[r]
      requires Masked(before, messages, places[..r], enc)
      modifies this
      ensures Masked(before, messages, places[..r + 1], enc)
      ensures gained == ResultTokens(old(messages), enc) - ResultTokens(messages, enc)
    {
      PlaceUntouched(before, messages, places, r, enc);
      MaskedNext(before, messages, places[..r], p, enc);
      assert places[..r + 1] == places[..r] + [p];
      var block := messages[p.mi].blocks[p.bi];
      if IsElided(block.content) {
        assert messages[p.mi].blocks[p.bi := block] == messages[p.mi].blocks;
        assert PutBlock(messages, p, block) == messages;
        return 0;
      }
      var tokens := enc(block.content);
      var newBlock := block.(content := Elided(block.callId, tokens));
      var m := messages[p.mi];
      MessageTokensPut(m.blocks, p.bi, newBlock, enc);
      ResultTokensPut(messages, p.mi, m.(blocks := m.blocks[p.bi := newBlock]), enc);
      messages := PutBlock(messages, p, newBlock);
      gained := tokens - enc(newBlock.content);
    }

    /** Mask all but the most recent `keepRecent` results; a slice end of -0 is 0, so
        keepRecent == 0 masks nothing. */
    method MaskOlderResults(keepRecent: nat, enc: Encoder) returns (freed: int)
      modifies this
      ensures var places := Places(old(messages));
        Masked(old(messages), messages, places[..MaskCount(|places|, keepRecent)], enc)
      ensures OlderAreElided(old(messages), messages, keepRecent, enc)
      ensures freed == ResultTokens(old(messages), enc) - ResultTokens(messages, enc)
      ensures Linked(old(messages)) ==> Linked(messages)
      ensures Answered(old(messages)) ==> Answered(messages)
      ensures Opens(old(messages)) ==> Opens(messages)
    {
      var results := CollectResults();
      ghost var before := messages;
      freed := 0;
      if |results| <= keepRecent {
        MaskingElidesOlder(before, messages, keepRecent, enc);
        return;
      }
      var limit := MaskCount(|results|, keepRecent);
      for r := 0 to limit
        invariant before == old(messages) && results == Places(before)
        invariant Masked(before, messages, results[..r], enc)
        invariant freed == ResultTokens(before, enc) - ResultTokens(messages, enc)
      {
        var p := results[r];
        assert p in results;
        var gained := MaskPlace(p, before, results, r, enc);
        freed := freed + gained;
      }
      ShapeKeepsPairing(before, messages);
      MaskingElidesOlder(before, messages, keepRecent, enc);
    }

    /** Remove every result whose call is gone; untouched when there is none. */
    method DropOrphanToolResults() returns (dropped: nat, ghost cleaned: seq<Message>)
      modifies this
      ensures dropped == OrphanCount(old(messages), CallSet(old(messages)))
      ensures dropped == 0 <==> NoOrphans(old(messages))
      ensures messages == if dropped == 0 then old(messages) else Repaired(old(messages), CallSet(old(messages)))
      ensures NoOrphans(messages)
      ensures var ids := CallSet(old(messages));
        AllCleaned(cleaned, old(messages), ids) && (dropped > 0 ==> Filtered(messages, cleaned, HoldsBlocks))
    {
      var callIds := CallSet(messages);
      cleaned := RepairedFilters(messages, callIds);
      var kept;
      kept, dropped := KeepLinked(callIds);
      OrphansCounted(messages);
      RepairedHasNoOrphan(messages);
      if dropped > 0 {
        messages := kept;
      }
    }

    /** What is left without the results whose call is not among these. */
    method KeepLinked(callIds: set<string>) returns (kept: seq<Message>, dropped: nat)
      ensures kept == Repaired(messages, callIds) && dropped == OrphanCount(messages, callIds)
    {
      kept, dropped := [], 0;
      for k := 0 to |messages|
        invariant kept == Repaired(messages[..k], callIds)
        invariant dropped == OrphanCount(messages[..k], callIds)
      {
        var m := messages[k];
        var blocks := KeepBlocks(m.blocks, callIds);
        assert messages[..k + 1][..k] == messages[..k];
        dropped := dropped + |m.blocks| - |blocks|;
        if blocks == [] {
          continue;
        }
        kept := kept + [if |blocks| == |m.blocks| then m else m.(blocks := blocks)];
      }
      assert messages[..|messages|] == messages;
    }

    /** Replace the turns between the first message and the last `keepRecentTurns` by one
        summary. `reply` is the provider's text (None: the call raised). */
    method SummarizePrefix(keepRecentTurns: nat, reply: Option<string>) returns (outcome: SummaryOutcome)
      modifies this
      ensures outcome == SummaryFate(old(messages), keepRecentTurns, reply)
      ensures outcome.TurnsReplaced? ==>
        var cut := outcome.count + 1;
        && cut <= |old(messages)| - keepRecentTurns
        && messages == [old(messages)[0], SummaryMessage(outcome.count, reply.value)] + old(messages)[cut..]
        && Summarizes(messages[1], outcome.count, reply.value)
      ensures !outcome.TurnsReplaced? ==> messages == old(messages)
      ensures Opens(old(messages)) ==> Opens(messages)
      ensures Opens(old(messages)) && Linked(old(messages)) ==> Linked(messages)
      ensures Opens(old(messages)) && Answered(old(messages)) ==> Answered(messages)
    {
      if |messages| <= keepRecentTurns + 1 {
        return NothingToSummarize;
      }
      var prefixEnd := |messages| - keepRecentTurns;
      if prefixEnd == |messages| {
        return CutOutOfRange;
      }
      while prefixEnd > 1 && HasToolResult(messages[prefixEnd])
        invariant 1 <= prefixEnd <= |messages| - keepRecentTurns
        invariant SnapCut(messages, prefixEnd) == SnapCut(messages, |messages| - keepRecentTurns)
      {
        prefixEnd := prefixEnd - 1;
      }
      if prefixEnd == 1 {
        return NothingToSummarize;
      }
      if reply.None? {
        return ProviderRaised;
      }
      var summary := SummaryMessage(prefixEnd - 1, reply.value);
      SummaryIsPlain(prefixEnd - 1, reply.value);
      SummaryReads(prefixEnd - 1, reply.value);
      if Opens(messages) {
        CutKeepsPairing(messages, summary, prefixEnd);
      }
      messages := messages[..1] + [summary] + messages[prefixEnd..];
      assert messages == [old(messages)[0], summary] + old(messages)[prefixEnd..];
      outcome := TurnsReplaced(prefixEnd - 1);
    }
  }

  // ---- the two limits at which the slices go wrong ----

  /** A list with one result that is not elided. */
  function OneResult(): seq<Message> { [ResultMessage(ToolResult("call_1", "42 doors", false))] }

  lemma {:induction false} OneResultStands()
    ensures !OlderElided(OneResult(), 0)
  {
    var msgs := OneResult();
    var places := Places(msgs);
    assert IsResultPlace(msgs, Place(0, 0)) && Place(0, 0) in places;
    var r :| 0 <= r < |places| && places[r] == Place(0, 0);
    assert ELIDED_PREFIX[0] != "42 doors"[0];
    assert !ElidedAt(msgs, places[r]);
  }

  method MaskNone(t: Transcript, enc: Encoder) returns (freed: int)
    modifies t
    ensures Masked(old(t.messages), t.messages, [], enc)
    ensures freed == ResultTokens(old(t.messages), enc) - ResultTokens(t.messages, enc)
  {
    freed := t.MaskOlderResults(0, enc);
    assert Places(old(t.messages))[..0] == [];
  }

  /** Keeping no recent result masks none. */
  method KeepNoResultMasksNothing(enc: Encoder) returns (t: Transcript, freed: int)
    ensures freed == 0 && t.messages == OneResult() && !OlderElided(t.messages, 0)
  {
    t := new Transcript();
    t.Append(OneResult()[0]);
    assert t.messages == OneResult();
    freed := MaskNone(t, enc);
    NothingMasked(OneResult(), t.messages, enc);
    OneResultStands();
  }

  /** Keeping no recent turn fails on every list of two messages or more. */
  lemma {:induction false} CutFailsExactly(msgs: seq<Message>, keepRecentTurns: nat, reply: Option<string>)
    ensures SummaryFate(msgs, keepRecentTurns, reply) == CutOutOfRange <==> keepRecentTurns == 0 && |msgs| >= 2
  {
  }

  method KeepNoTurnFails(reply: Option<string>) returns (t: Transcript, outcome: SummaryOutcome)
    ensures outcome == CutOutOfRange && |t.messages| == 2
  {
    t := new Transcript();
    t.Append(UserText("count the doors"));
    t.Append(AssistantText("42"));
    outcome := t.SummarizePrefix(0, reply);
  }

  // ---- the compactor ----

  datatype CompactionResult = CompactionResult(
    tokensFreed: int, turnsReplaced: nat, finalState: ZoneState, raised: bool)

  /** An edit that leaves whatever pairing of calls and results there was. */
  ghost predicate KeepsPairing(a: seq<Message>, b: seq<Message>)
  {
    && (Opens(a) ==> Opens(b))
    && (Opens(a) && Linked(a) ==> Linked(b))
    && (Opens(a) && Answered(a) ==> Answered(b))
  }

  /** The list a compaction leaves, and whether the summarizer raised. */
  datatype Compacted = Compacted(list: seq<Message>, raised: bool)

  ghost function Compaction(msgs: seq<Message>, zone: seq<Message> -> ZoneState, enc: Encoder, keepResults: nat,
                            keepTurns: nat, reply: Option<string>): Compacted
  {
    if zone(msgs) != Red then Compacted(msgs, false)
    else
      var masked := OlderMasked(msgs, keepResults, enc);
      if zone(masked) != Red then Compacted(masked, false) else Summarized(masked, keepTurns, reply)
  }

  /** The list with all but the most recent `keepResults` results masked. */
  ghost function OlderMasked(msgs: seq<Message>, keepResults: nat, enc: Encoder): seq<Message>
  {
    MaskList(msgs, Places(msgs)[..MaskCount(|Places(msgs)|, keepResults)], enc)
  }

  lemma {:induction false} MaskedIsOlder(before: seq<Message>, after: seq<Message>, keepResults: nat, enc: Encoder)
    requires Masked(before, after, Places(before)[..MaskCount(|Places(before)|, keepResults)], enc)
    ensures after == OlderMasked(before, keepResults, enc)
  {
    MaskedIsList(before, after, Places(before)[..MaskCount(|Places(before)|, keepResults)], enc);
  }

  ghost function Summarized(masked: seq<Message>, keepTurns: nat, reply: Option<string>): Compacted
  {
    match SummaryFate(masked, keepTurns, reply)
    case TurnsReplaced(n) => Compacted([masked[0], SummaryMessage(n, reply.value)] + masked[n + 1..], false)
    case NothingToSummarize => Compacted(masked, false)
    case _ => Compacted(masked, true)
  }

  lemma {:induction false} MaskListShape(msgs: seq<Message>, done: seq<Place>, enc: Encoder)
    ensures SameShapes(msgs, MaskList(msgs, done, enc))
  {
    forall k | 0 <= k < |msgs| ensures SameShape(msgs[k], MaskList(msgs, done, enc)[k]) {
      forall i | 0 <= i < |msgs[k].blocks|
        ensures SameBlock(msgs[k].blocks[i], MaskBlocks(msgs[k].blocks, k, done, enc)[i])
      {
      }
    }
  }

  lemma {:induction false} SummarizedKeepsPairing(msgs: seq<Message>, keepTurns: nat, reply: Option<string>)
    ensures KeepsPairing(msgs, Summarized(msgs, keepTurns, reply).list)
  {
    var fate := SummaryFate(msgs, keepTurns, reply);
    if fate.TurnsReplaced? && Opens(msgs) {
      SummaryIsPlain(fate.count, reply.value);
      CutKeepsPairing(msgs, SummaryMessage(fate.count, reply.value), fate.count + 1);
    }
  }

  /** No stage of a compaction breaks a pairing, and none empties a list. */
  lemma {:induction false} CompactionKeepsPairing(msgs: seq<Message>, zone: seq<Message> -> ZoneState, enc: Encoder,
                                                  keepResults: nat, keepTurns: nat, reply: Option<string>)
    ensures KeepsPairing(msgs, Compaction(msgs, zone, enc, keepResults, keepTurns, reply).list)
    ensures msgs != [] ==> Compaction(msgs, zone, enc, keepResults, keepTurns, reply).list != []
  {
    var masked := OlderMasked(msgs, keepResults, enc);
    MaskListShape(msgs, Places(msgs)[..MaskCount(|Places(msgs)|, keepResults)], enc);
    ShapeKeepsPairing(msgs, masked);
    SummarizedKeepsPairing(masked, keepTurns, reply);
  }

  /** When a compaction raises: the list is red and stays red when masked, there is a prefix
      to summarize, and the provider fails or no turn is to be kept. */
  lemma {:induction false} CompactionRaisesExactly(msgs: seq<Message>, zone: seq<Message> -> ZoneState, enc: Encoder,
                                                   keepResults: nat, keepTurns: nat, reply: Option<string>)
    ensures var masked := OlderMasked(msgs, keepResults, enc);
      Compaction(msgs, zone, enc, keepResults, keepTurns, reply).raised
      <==> && zone(msgs) == Red && zone(masked) == Red && |msgs| > keepTurns + 1
           && (keepTurns == 0 || (reply.None? && SnapCut(masked, |msgs| - keepTurns) > 1))
  {
  }

  /** The second stage, for a list that masking left red. */
  method SummarizeStage(t: Transcript, keepTurns: nat, reply: Option<string>) returns (turns: nat, raised: bool)
    modifies t
    ensures var fate := SummaryFate(old(t.messages), keepTurns, reply);
      && raised == Fails(fate)
      && turns == if fate.TurnsReplaced? then fate.count else 0
    ensures turns == 0 ==> t.messages == old(t.messages)
    ensures turns > 0 ==>
      && reply.Some? && turns < |old(t.messages)|
      && t.messages == [old(t.messages)[0], SummaryMessage(turns, reply.value)] + old(t.messages)[turns + 1..]
    ensures Compacted(t.messages, raised) == Summarized(old(t.messages), keepTurns, reply)
    ensures KeepsPairing(old(t.messages), t.messages)
  {
    var summary := t.SummarizePrefix(keepTurns, reply);
    turns := if summary.TurnsReplaced? then summary.count else 0;
    raised := summary == ProviderRaised || summary == CutOutOfRange;
  }

  /** Mask first; summarize only if that leaves the context red. `zone` is the accountant's
      verdict on a message list, `masked` the list after the first stage. */
  method CompactIfNeeded(t: Transcript, zone: seq<Message> -> ZoneState, enc: Encoder, keepResults: nat,
                         keepTurns: nat, reply: Option<string>)
    returns (result: CompactionResult, ghost masked: seq<Message>)
    modifies t
    ensures zone(old(t.messages)) != Red ==>
      t.messages == old(t.messages) && result == CompactionResult(0, 0, zone(t.messages), false)
    ensures zone(old(t.messages)) == Red ==>
      var places := Places(old(t.messages));
      && Masked(old(t.messages), masked, places[..MaskCount(|places|, keepResults)], enc)
      && OlderAreElided(old(t.messages), masked, keepResults, enc)
      && result.tokensFreed == ResultTokens(old(t.messages), enc) - ResultTokens(masked, enc)
      && (zone(masked) != Red ==> result.turnsReplaced == 0 && !result.raised)
    ensures result.turnsReplaced == 0 ==> t.messages == masked
    ensures result.turnsReplaced > 0 ==>
      && reply.Some? && result.turnsReplaced < |masked|
      && t.messages == [masked[0], SummaryMessage(result.turnsReplaced, reply.value)]
                         + masked[result.turnsReplaced + 1..]
    ensures result.turnsReplaced ==
      if zone(old(t.messages)) == Red && zone(masked) == Red && SummaryFate(masked, keepTurns, reply).TurnsReplaced?
      then SummaryFate(masked, keepTurns, reply).count else 0
    ensures !result.raised ==> result.finalState == zone(t.messages)
    ensures result.raised <==>
      zone(old(t.messages)) == Red && zone(masked) == Red && Fails(SummaryFate(masked, keepTurns, reply))
    ensures old(t.messages) != [] ==> t.messages != []
    ensures Compacted(t.messages, result.raised)
         == Compaction(old(t.messages), zone, enc, keepResults, keepTurns, reply)
    ensures KeepsPairing(old(t.messages), t.messages)
  {
    masked := t.messages;
    result := CompactionResult(0, 0, zone(t.messages), false);
    if result.finalState != Red {
      return;
    }
    var freed := t.MaskOlderResults(keepResults, enc);
    masked := t.messages;
    MaskedIsOlder(old(t.messages), masked, keepResults, enc);
    result := result.(tokensFreed := freed, finalState := zone(t.messages));
    if result.finalState != Red {
      return;
    }
    var turns, raised := SummarizeStage(t, keepTurns, reply);
    result := result.(turnsReplaced := turns, raised := raised);
    if raised {
      return;
    }
    result := result.(finalState := zone(t.messages));
  }
}
