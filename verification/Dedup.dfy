/** Schedule items, their first-wins deduplication by (schedule, mark), and the reduce that
    merges the partial lists of several windows (src/takeoff/quantity_schedules.py,
    service/takeoff/reduce.py). */
module Dedup {
  import opened Sequences

  datatype Shape = Instance | Catalog

  datatype Basis = RowCount | QtyColumn | UnknownPlanCount

  datatype ScheduleItem = ScheduleItem(
    schedule: string, shape: Shape, mark: string, quantity: Option<real>, basis: Basis,
    description: string, pageIndex: int)

  datatype Key = Key(schedule: string, mark: string)

  function KeyOf(it: ScheduleItem): Key { Key(it.schedule, it.mark) }

  // ---- first-wins deduplication ----

  /** Entry k carries a mark and no earlier entry has its key. */
  predicate IsFirst(xs: seq<ScheduleItem>, k: nat)
    requires k < |xs|
  {
    xs[k].mark != "" && forall j :: 0 <= j < k ==> KeyOf(xs[j]) != KeyOf(xs[k])
  }

  function FirstWins(xs: seq<ScheduleItem>): (r: seq<ScheduleItem>)
  {
    if xs == [] then []
    else
      var n := |xs| - 1;
      FirstWins(xs[..n]) + if IsFirst(xs, n) then [xs[n]] else []
  }

  /** What is kept: in order, exactly the marked entries with no earlier entry of their schedule
      and mark. */
  lemma {:induction false} FirstWinsPicks(xs: seq<ScheduleItem>) returns (at: seq<int>)
    ensures Picked(FirstWins(xs), xs, at)
    ensures forall i :: i in at <==> 0 <= i < |xs| && FirstOfItsKind(xs, i)
  {
    if xs == [] {
      at := [];
    } else {
      var n := |xs| - 1;
      at := FirstWinsPicks(xs[..n]);
      SnocSelf(xs);
      PickedSnoc(FirstWins(xs[..n]), xs[..n], at, xs[n]);
      forall i | 0 <= i < n ensures FirstOfItsKind(xs[..n], i) <==> FirstOfItsKind(xs, i) {
        FirstOfPrefix(xs, n, i);
      }
      at := if IsFirst(xs, n) then at + [n] else at;
    }
  }

  /** Entry i carries a mark, and no earlier one has its schedule and its mark. */
  ghost predicate FirstOfItsKind(xs: seq<ScheduleItem>, i: int)
    requires 0 <= i < |xs|
  {
    xs[i].mark != "" && forall j :: 0 <= j < i ==> xs[j].schedule != xs[i].schedule || xs[j].mark != xs[i].mark
  }

  lemma {:induction false} FirstOfPrefix(xs: seq<ScheduleItem>, n: nat, i: nat)
    requires i < n <= |xs|
    ensures FirstOfItsKind(xs[..n], i) <==> FirstOfItsKind(xs, i)
  {
  }

  /** The keys of the marked entries. */
  ghost function Keys(xs: seq<ScheduleItem>): (ks: set<Key>)
  {
    if xs == [] then {}
    else
      var n := |xs| - 1;
      Keys(xs[..n]) + if xs[n].mark != "" then {KeyOf(xs[n])} else {}
  }

  lemma {:induction false} InKeys(xs: seq<ScheduleItem>, key: Key)
    ensures key in Keys(xs) <==> exists j :: 0 <= j < |xs| && xs[j].mark != "" && KeyOf(xs[j]) == key
  {
    if xs != [] {
      var n := |xs| - 1;
      InKeys(xs[..n], key);
      if key in Keys(xs[..n]) {
        var j :| 0 <= j < n && xs[..n][j].mark != "" && KeyOf(xs[..n][j]) == key;
        assert xs[j] == xs[..n][j];
      }
      if j :| 0 <= j < |xs| && xs[j].mark != "" && KeyOf(xs[j]) == key {
        if j < n {
          assert xs[..n][j] == xs[j];
        }
      }
    }
  }

  lemma {:induction false} FirstWinsStep(xs: seq<ScheduleItem>, it: ScheduleItem)
    ensures FirstWins(xs + [it])
         == if it.mark != "" && KeyOf(it) !in Keys(xs) then FirstWins(xs) + [it] else FirstWins(xs)
    ensures Keys(xs + [it]) == Keys(xs) + if it.mark != "" then {KeyOf(it)} else {}
  {
    var all := xs + [it];
    assert all[..|xs|] == xs && all[|xs|] == it;
    InKeys(xs, KeyOf(it));
    if it.mark != "" {
      if KeyOf(it) in Keys(xs) {
        var j :| 0 <= j < |xs| && xs[j].mark != "" && KeyOf(xs[j]) == KeyOf(it);
        assert all[j] == xs[j];
      } else {
        assert forall j :: 0 <= j < |xs| ==> all[j] == xs[j];
      }
    }
  }

  /** Deduplication loses no key. */
  lemma {:induction false} FirstWinsKeys(xs: seq<ScheduleItem>)
    ensures Keys(FirstWins(xs)) == Keys(xs)
  {
    if xs != [] {
      var n := |xs| - 1;
      FirstWinsKeys(xs[..n]);
      FirstWinsStep(xs[..n], xs[n]);
      SnocSelf(xs);
      FirstWinsStep(FirstWins(xs[..n]), xs[n]);
    }
  }

  ghost predicate DistinctKeys(xs: seq<ScheduleItem>)
  {
    forall i, j :: 0 <= i < j < |xs| ==> KeyOf(xs[i]) != KeyOf(xs[j])
  }

  /** Deduplication keeps each key in one marked entry of the input. */
  lemma {:induction false} FirstWinsDistinct(xs: seq<ScheduleItem>)
    ensures DistinctKeys(FirstWins(xs))
    ensures forall it :: it in FirstWins(xs) ==> it in xs && it.mark != ""
  {
    if xs != [] {
      var n := |xs| - 1;
      FirstWinsDistinct(xs[..n]);
      FirstWinsKeys(xs[..n]);
      FirstWinsStep(xs[..n], xs[n]);
      SnocSelf(xs);
      var prev := FirstWins(xs[..n]);
      if xs[n].mark != "" && KeyOf(xs[n]) !in Keys(xs[..n]) {
        NewKey(prev, xs[n]);
      } else {
        assert FirstWins(xs) == prev;
      }
    }
  }

  lemma {:induction false} NewKey(prev: seq<ScheduleItem>, it: ScheduleItem)
    requires (forall x :: x in prev ==> x.mark != "") && KeyOf(it) !in Keys(prev)
    ensures forall i :: 0 <= i < |prev| ==> KeyOf(prev[i]) != KeyOf(it)
  {
    InKeys(prev, KeyOf(it));
    forall i | 0 <= i < |prev| ensures KeyOf(prev[i]) != KeyOf(it) {
      assert prev[i] in prev;
    }
  }

  lemma {:induction false} KeysOfConcat(a: seq<ScheduleItem>, b: seq<ScheduleItem>)
    ensures Keys(a + b) == Keys(a) + Keys(b)
  {
    if b == [] {
      assert a + b == a;
    } else {
      var n := |b| - 1;
      KeysOfConcat(a, b[..n]);
      assert (a + b)[..|a + b| - 1] == a + b[..n];
    }
  }

  /** Lists that deduplicate alike go on deduplicating alike. */
  lemma {:induction false} AppendCongruence(p: seq<ScheduleItem>, q: seq<ScheduleItem>, b: seq<ScheduleItem>)
    requires FirstWins(p) == FirstWins(q) && Keys(p) == Keys(q)
    ensures FirstWins(p + b) == FirstWins(q + b)
    ensures Keys(p + b) == Keys(q + b)
  {
    if b == [] {
      assert p + b == p && q + b == q;
    } else {
      var n := |b| - 1;
      AppendCongruence(p, q, b[..n]);
      FirstWinsStep(p + b[..n], b[n]);
      FirstWinsStep(q + b[..n], b[n]);
      Snoc(p, b);
      Snoc(q, b);
    }
  }

  lemma {:induction false} DedupIdempotent(a: seq<ScheduleItem>)
    ensures FirstWins(FirstWins(a)) == FirstWins(a)
  {
    if a != [] {
      var n := |a| - 1;
      DedupIdempotent(a[..n]);
      FirstWinsKeys(a[..n]);
      FirstWinsStep(a[..n], a[n]);
      SnocSelf(a);
      FirstWinsStep(FirstWins(a[..n]), a[n]);
    }
  }

  /** Deduplicating a prefix first changes nothing. */
  lemma {:induction false} DedupPrefix(a: seq<ScheduleItem>, b: seq<ScheduleItem>)
    ensures FirstWins(FirstWins(a) + b) == FirstWins(a + b)
  {
    DedupIdempotent(a);
    FirstWinsKeys(a);
    AppendCongruence(FirstWins(a), a, b);
  }

  /** Deduplicating a suffix first changes nothing. */
  lemma {:induction false} DedupSuffix(a: seq<ScheduleItem>, b: seq<ScheduleItem>)
    ensures FirstWins(a + FirstWins(b)) == FirstWins(a + b)
  {
    if b == [] {
      assert a + FirstWins(b) == a + b;
    } else {
      var n := |b| - 1;
      DedupSuffix(a, b[..n]);
      SuffixStep(a, b[..n], b[n]);
      SnocSelf(b);
      Snoc(a, b);
    }
  }

  lemma {:induction false} SuffixStep(a: seq<ScheduleItem>, b: seq<ScheduleItem>, it: ScheduleItem)
    requires FirstWins(a + FirstWins(b)) == FirstWins(a + b)
    ensures FirstWins(a + FirstWins(b + [it])) == FirstWins(a + b + [it])
  {
    FirstWinsStep(b, it);
    KeysOfConcat(a, b);
    if it.mark != "" && KeyOf(it) !in Keys(b) {
      SuffixKeeps(a, b, FirstWins(b), it);
    } else {
      FirstWinsStep(a + b, it);
    }
  }

  lemma {:induction false} SuffixKeeps(a: seq<ScheduleItem>, b: seq<ScheduleItem>, kept: seq<ScheduleItem>,
                                       it: ScheduleItem)
    requires kept == FirstWins(b) && FirstWins(a + kept) == FirstWins(a + b)
    ensures FirstWins(a + (kept + [it])) == FirstWins(a + b + [it])
  {
    assert Keys(a + kept) == Keys(a + b) by {
      FirstWinsKeys(b);
      KeysOfConcat(a, kept);
      KeysOfConcat(a, b);
    }
    AppendCongruence(a + kept, a + b, [it]);
    assert a + kept + [it] == a + (kept + [it]);
  }

  /** The inner loop of both the extractor and the reduce: feed one list through the
      `seen` set. `fed` is everything fed before. */
  method AbsorbList(part: seq<ScheduleItem>, seen0: set<Key>, items0: seq<ScheduleItem>,
                    ghost fed: seq<ScheduleItem>)
    returns (seen: set<Key>, items: seq<ScheduleItem>)
    requires items0 == FirstWins(fed) && seen0 == Keys(fed)
    ensures items == FirstWins(fed + part) && seen == Keys(fed + part)
  {
    seen, items := seen0, items0;
    ghost var done := fed;
    for t := 0 to |part|
      invariant done == fed + part[..t]
      invariant items == FirstWins(done) && seen == Keys(done)
    {
      var it := part[t];
      FirstWinsStep(done, it);
      TakeSnoc(fed, part, t);
      done := done + [it];
      if it.mark == "" || KeyOf(it) in seen {
        continue;
      }
      seen := seen + {KeyOf(it)};
      items := items + [it];
    }
    assert part[..|part|] == part;
  }

  // ---- the reduce ----

  method MergePartials(partials: seq<seq<ScheduleItem>>) returns (out: seq<ScheduleItem>)
    ensures out == FirstWins(Flatten(partials))
  {
    var seen: set<Key> := {};
    out := [];
    for k := 0 to |partials|
      invariant out == FirstWins(Flatten(partials[..k])) && seen == Keys(Flatten(partials[..k]))
    {
      seen, out := AbsorbList(partials[k], seen, out, Flatten(partials[..k]));
      assert partials[..k + 1][..k] == partials[..k];
    }
    assert partials[..|partials|] == partials;
  }
}
