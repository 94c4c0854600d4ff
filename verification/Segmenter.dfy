/** Segmenting one file's pages into typed regions: absorption of stray runs in place, then
    a tiling into regions with front matter marked (src/pipeline/segmenter.py). */
module Segmenter {
  import opened Sequences

  datatype Kind = Drawings | Manual | FrontMatter

  /** start and end are inclusive list positions. */
  datatype Run = Run(kind: Kind, start: nat, end: nat)
  {
    function Length(): int { end - start + 1 }
  }

  // ---- run-length encoding ----

  /** Append one label: it extends the last run or opens a new one. */
  function Extend(runs: seq<Run>, kind: Kind, pos: nat): (r: seq<Run>)
  {
    if runs != [] && runs[|runs| - 1].kind == kind
    then runs[..|runs| - 1] + [runs[|runs| - 1].(end := pos)]
    else runs + [Run(kind, pos, pos)]
  }

  function Runs(kinds: seq<Kind>): (r: seq<Run>)
    ensures RunsCover(r, kinds)
  {
    if kinds == [] then []
    else
      var n := |kinds| - 1;
      var front := Runs(kinds[..n]);
      ExtendCovers(front, kinds[..n], kinds[n]);
      assert kinds[..n] + [kinds[n]] == kinds;
      Extend(front, kinds[n], n)
  }

  ghost predicate Uniform(kinds: seq<Kind>, run: Run)
  {
    run.start <= run.end < |kinds| && forall p :: run.start <= p <= run.end ==> kinds[p] == run.kind
  }

  /** Run j + 1 starts right after run j, with another kind. */
  ghost predicate Meets(r: seq<Run>, j: nat)
    requires j < |r| - 1
  {
    r[j + 1].start == r[j].end + 1 && r[j].kind != r[j + 1].kind
  }

  /** The maximal runs of equal labels, in order, covering every position. */
  ghost predicate RunsCover(r: seq<Run>, kinds: seq<Kind>)
  {
    && (r == [] <==> kinds == [])
    && (r != [] ==> r[0].start == 0 && r[|r| - 1].end == |kinds| - 1)
    && (forall j :: 0 <= j < |r| ==> Uniform(kinds, r[j]))
    && (forall j :: 0 <= j < |r| - 1 ==> Meets(r, j))
  }

  lemma {:induction false} ExtendCovers(r: seq<Run>, kinds: seq<Kind>, k: Kind)
    requires RunsCover(r, kinds)
    ensures RunsCover(Extend(r, k, |kinds|), kinds + [k])
  {
    var out, all := Extend(r, k, |kinds|), kinds + [k];
    forall j | 0 <= j < |out| ensures Uniform(all, out[j]) {
      if j < |r| { assert Uniform(kinds, r[j]); }
    }
    forall j | 0 <= j < |out| - 1 ensures Meets(out, j) {
      if j < |r| - 1 { assert Meets(r, j); }
    }
  }

  /** The loop form of the encoding (itertools.groupby with running positions). */
  method EncodeRuns(kinds: seq<Kind>) returns (r: seq<Run>)
    ensures r == Runs(kinds)
  {
    r := [];
    for pos := 0 to |kinds|
      invariant r == Runs(kinds[..pos])
    {
      assert kinds[..pos + 1][..pos] == kinds[..pos];
      r := Extend(r, kinds[pos], pos);
    }
    assert kinds[..|kinds|] == kinds;
  }

  /** Two encodings of the same labels agree run by run. */
  lemma {:induction false} CoverUnique(a: seq<Run>, b: seq<Run>, kinds: seq<Kind>, j: nat)
    requires RunsCover(a, kinds) && RunsCover(b, kinds) && j < |a|
    ensures j < |b| && a[j] == b[j]
  {
    if j > 0 {
      CoverUnique(a, b, kinds, j - 1);
      EndIsBoundary(a, kinds, j - 1);
      EndIsBoundary(b, kinds, j - 1);
      assert Meets(a, j - 1) && Meets(b, j - 1);
    }
    assert Uniform(kinds, a[j]) && Uniform(kinds, b[j]);
    EndIsBoundary(a, kinds, j);
    EndIsBoundary(b, kinds, j);
    assert kinds[a[j].start] == a[j].kind == b[j].kind;
    SameInRun(kinds, b[j], a[j].end);
    SameInRun(kinds, a[j], b[j].end);
  }

  lemma {:induction false} SameInRun(kinds: seq<Kind>, run: Run, p: nat)
    requires Uniform(kinds, run)
    ensures run.start <= p < run.end ==> kinds[p] == kinds[p + 1]
  {
  }

  lemma {:induction false} EndIsBoundary(a: seq<Run>, kinds: seq<Kind>, j: nat)
    requires RunsCover(a, kinds) && j < |a|
    ensures a[j].end < |kinds| - 1 ==> kinds[a[j].end + 1] != kinds[a[j].end]
    ensures j == |a| - 1 <==> a[j].end == |kinds| - 1
  {
    assert Uniform(kinds, a[j]);
    if j < |a| - 1 {
      assert Meets(a, j) && Uniform(kinds, a[j + 1]);
    }
  }

  lemma {:induction false} EncodingUnique(a: seq<Run>, b: seq<Run>, kinds: seq<Kind>)
    requires RunsCover(a, kinds) && RunsCover(b, kinds)
    ensures a == b
  {
    forall j | 0 <= j < |a| ensures j < |b| && a[j] == b[j] { CoverUnique(a, b, kinds, j); }
    forall j | 0 <= j < |b| ensures j < |a| && a[j] == b[j] { CoverUnique(b, a, kinds, j); }
  }

  // ---- absorbing strays ----

  /** Run j is short, inside, and its neighbours agree. */
  predicate IsStray(r: seq<Run>, j: int, minRun: int)
  {
    0 < j < |r| - 1 && r[j].Length() < minRun && r[j - 1].kind == r[j + 1].kind && r[j - 1].kind != r[j].kind
  }

  function Relabel(kinds: seq<Kind>, run: Run, k: Kind): (out: seq<Kind>)
    ensures |out| == |kinds|
    ensures forall p :: 0 <= p < |kinds| ==> out[p] == if run.start <= p <= run.end then k else kinds[p]
  {
    seq(|kinds|, p requires 0 <= p < |kinds| => if run.start <= p <= run.end then k else kinds[p])
  }

  /** The runs after absorbing run j: it and its neighbours become one. */
  function Absorbed(r: seq<Run>, j: nat): (out: seq<Run>)
    requires 0 < j < |r| - 1
  {
    r[..j - 1] + [Run(r[j - 1].kind, r[j - 1].start, r[j + 1].end)] + r[j + 2..]
  }

  /** Absorption takes exactly two runs away. */
  lemma {:induction false} AbsorbRuns(kinds: seq<Kind>, j: int, minRun: int)
    requires IsStray(Runs(kinds), j, minRun)
    ensures var r := Runs(kinds);
      Runs(Relabel(kinds, r[j], r[j - 1].kind)) == Absorbed(r, j)
    ensures |Absorbed(Runs(kinds), j)| == |Runs(kinds)| - 2
  {
    var r := Runs(kinds);
    var next := Relabel(kinds, r[j], r[j - 1].kind);
    var out := Absorbed(r, j);
    AbsorbedUniform(kinds, j);
    AbsorbedMeets(kinds, j);
    assert Meets(r, j - 1) && Meets(r, j);
    assert Uniform(kinds, r[0]) && Uniform(kinds, r[|r| - 1]);
    EncodingUnique(Runs(next), out, next);
  }

  lemma {:induction false} AbsorbedUniform(kinds: seq<Kind>, j: nat)
    requires 0 < j < |Runs(kinds)| - 1
    requires var r := Runs(kinds); r[j - 1].kind == r[j + 1].kind
    ensures var r := Runs(kinds);
      var next, out := Relabel(kinds, r[j], r[j - 1].kind), Absorbed(r, j);
      forall i :: 0 <= i < |out| ==> Uniform(next, out[i])
  {
    var r := Runs(kinds);
    var next, out := Relabel(kinds, r[j], r[j - 1].kind), Absorbed(r, j);
    forall i | 0 <= i < |out| ensures Uniform(next, out[i]) {
      if i < j - 1 {
        assert out[i] == r[i] && Uniform(kinds, r[i]);
        RunsApart(r, kinds, i, j);
      } else if i == j - 1 {
        assert Uniform(kinds, r[j - 1]) && Uniform(kinds, r[j]) && Uniform(kinds, r[j + 1]);
        assert Meets(r, j - 1) && Meets(r, j);
      } else {
        assert out[i] == r[i + 2] && Uniform(kinds, r[i + 2]);
        RunsApart(r, kinds, j, i + 2);
      }
    }
  }

  lemma {:induction false} AbsorbedMeets(kinds: seq<Kind>, j: nat)
    requires 0 < j < |Runs(kinds)| - 1
    requires var r := Runs(kinds); r[j - 1].kind == r[j + 1].kind
    ensures var out := Absorbed(Runs(kinds), j); forall i :: 0 <= i < |out| - 1 ==> Meets(out, i)
  {
    var r := Runs(kinds);
    var out := Absorbed(r, j);
    forall i | 0 <= i < |out| - 1 ensures Meets(out, i) {
      if i < j - 1 {
        assert Meets(r, i);
      } else {
        assert Meets(r, i + 2);
      }
    }
  }

  lemma {:induction false} RunsApart(r: seq<Run>, kinds: seq<Kind>, i: nat, j: nat)
    requires RunsCover(r, kinds) && i < j < |r|
    ensures r[i].end < r[j].start
  {
    assert Meets(r, j - 1);
    if i < j - 1 {
      RunsApart(r, kinds, i, j - 1);
      assert Uniform(kinds, r[j - 1]);
    }
  }

  // ---- what absorption keeps ----

  /** Positions a to b hold at least minRun equal labels. */
  ghost predicate LongBlock(kinds: seq<Kind>, a: int, b: int, minRun: int)
  {
    0 <= a <= b < |kinds| && b - a + 1 >= minRun && forall p :: a <= p <= b ==> kinds[p] == kinds[a]
  }

  /** All blocks of at least minRun equal labels keep their label. */
  ghost predicate KeepsLongBlocks(before: seq<Kind>, after: seq<Kind>, minRun: int)
    requires |before| == |after|
  {
    forall a, b :: LongBlock(before, a, b, minRun) ==> forall p :: a <= p <= b ==> after[p] == before[p]
  }

  ghost predicate KeepsEnds(before: seq<Kind>, after: seq<Kind>)
    requires |before| == |after|
  {
    before != [] ==> after[0] == before[0] && after[|after| - 1] == before[|before| - 1]
  }

  lemma {:induction false} AbsorbKeeps(kinds: seq<Kind>, j: int, minRun: int)
    requires IsStray(Runs(kinds), j, minRun)
    ensures var next := Relabel(kinds, Runs(kinds)[j], Runs(kinds)[j - 1].kind);
      KeepsEnds(kinds, next) && KeepsLongBlocks(kinds, next, minRun)
  {
    var r := Runs(kinds);
    var next := Relabel(kinds, r[j], r[j - 1].kind);
    assert Meets(r, j - 1) && Meets(r, j);
    assert Uniform(kinds, r[j - 1]) && Uniform(kinds, r[j]) && Uniform(kinds, r[j + 1]);
    forall a, b | LongBlock(kinds, a, b, minRun) ensures forall p :: a <= p <= b ==> next[p] == kinds[p] {
      BlockApart(kinds, r[j - 1], r[j], r[j + 1], a, b, minRun);
    }
  }

  /** A long block never touches a stray. */
  lemma {:induction false} BlockApart(kinds: seq<Kind>, left: Run, stray: Run, right: Run, a: int, b: int, minRun: int)
    requires Uniform(kinds, left) && Uniform(kinds, stray) && Uniform(kinds, right)
    requires left.end + 1 == stray.start && stray.end + 1 == right.start
    requires left.kind != stray.kind && right.kind != stray.kind && stray.Length() < minRun
    requires LongBlock(kinds, a, b, minRun)
    ensures b < stray.start || stray.end < a
  {
    assert kinds[stray.start - 1] == left.kind && kinds[stray.start] == stray.kind;
    assert kinds[stray.end] == stray.kind && kinds[stray.end + 1] == right.kind;
    SameInBlock(kinds, a, b, stray.start - 1, minRun);
    SameInBlock(kinds, a, b, stray.end, minRun);
  }

  lemma {:induction false} SameInBlock(kinds: seq<Kind>, a: int, b: int, p: int, minRun: int)
    requires LongBlock(kinds, a, b, minRun)
    ensures a <= p < b ==> kinds[p] == kinds[p + 1]
  {
  }

  lemma {:induction false} KeepsTransitive(a: seq<Kind>, b: seq<Kind>, c: seq<Kind>, minRun: int)
    requires |a| == |b| == |c|
    requires KeepsEnds(a, b) && KeepsEnds(b, c)
    requires KeepsLongBlocks(a, b, minRun) && KeepsLongBlocks(b, c, minRun)
    ensures KeepsEnds(a, c) && KeepsLongBlocks(a, c, minRun)
  {
    forall x, y | LongBlock(a, x, y, minRun) ensures forall p :: x <= p <= y ==> c[p] == a[p] {
      assert forall p :: x <= p <= y ==> b[p] == a[p];
      assert LongBlock(b, x, y, minRun);
    }
  }

  predicate NoStray(kinds: seq<Kind>, minRun: int)
  {
    forall j :: 0 < j < |Runs(kinds)| - 1 ==> !IsStray(Runs(kinds), j, minRun)
  }

  /** No label is invented. */
  ghost predicate LabelsFrom(before: seq<Kind>, now: seq<Kind>)
  {
    forall p :: 0 <= p < |now| ==> now[p] in before
  }

  /** What any number of absorptions keeps. */
  ghost predicate Kept(before: seq<Kind>, now: seq<Kind>, minRun: int)
  {
    && |now| == |before|
    && KeepsEnds(before, now)
    && KeepsLongBlocks(before, now, minRun)
    && LabelsFrom(before, now)
    && |Runs(now)| <= |Runs(before)| && |Runs(now)| % 2 == |Runs(before)| % 2
  }

  lemma {:induction false} AbsorbStep(before: seq<Kind>, was: seq<Kind>, j: int, minRun: int)
    requires Kept(before, was, minRun) && IsStray(Runs(was), j, minRun)
    ensures var next := Relabel(was, Runs(was)[j], Runs(was)[j - 1].kind);
      Kept(before, next, minRun) && |Runs(next)| == |Runs(was)| - 2
  {
    var next := Relabel(was, Runs(was)[j], Runs(was)[j - 1].kind);
    AbsorbRuns(was, j, minRun);
    AbsorbKeeps(was, j, minRun);
    AbsorbLabels(was, next, j, minRun);
    KeptOnward(before, was, next, minRun);
  }

  lemma {:induction false} KeptOnward(before: seq<Kind>, was: seq<Kind>, next: seq<Kind>, minRun: int)
    requires Kept(before, was, minRun) && |next| == |was|
    requires KeepsEnds(was, next) && KeepsLongBlocks(was, next, minRun)
    requires LabelsFrom(was, next) && |Runs(next)| == |Runs(was)| - 2
    ensures Kept(before, next, minRun)
  {
    KeepsTransitive(before, was, next, minRun);
    forall p | 0 <= p < |next| ensures next[p] in before {
      var q :| 0 <= q < |was| && was[q] == next[p];
    }
  }

  lemma {:induction false} AbsorbLabels(was: seq<Kind>, next: seq<Kind>, j: int, minRun: int)
    requires IsStray(Runs(was), j, minRun)
    requires next == Relabel(was, Runs(was)[j], Runs(was)[j - 1].kind)
    ensures LabelsFrom(was, next)
  {
    var left := Runs(was)[j - 1];
    assert Uniform(was, left);
    assert left.kind == was[left.start];
    forall p | 0 <= p < |next| ensures next[p] in was {
      assert next[p] == was[p] || next[p] == was[left.start];
    }
  }

  /** The first stray run at or after j, or -1. */
  function FirstStray(runs: seq<Run>, j: nat, minRun: int): (found: int)
    ensures found != -1 ==> IsStray(runs, found, minRun)
    ensures found == -1 ==> forall i :: 0 < i < |runs| - 1 && j <= i ==> !IsStray(runs, i, minRun)
    ensures found != -1 ==> forall i :: 0 < i < found && j <= i ==> !IsStray(runs, i, minRun)
    decreases |runs| - j
  {
    if j >= |runs| then -1
    else if IsStray(runs, j, minRun) then j
    else FirstStray(runs, j + 1, minRun)
  }

  /** The labels once no stray is left, absorbing the first stray each time. */
  function Settled(kinds: seq<Kind>, minRun: int): (out: seq<Kind>)
    ensures |out| == |kinds|
    decreases |Runs(kinds)|
  {
    var j := FirstStray(Runs(kinds), 1, minRun);
    if j == -1 then kinds
    else
      AbsorbRuns(kinds, j, minRun);
      Settled(Relabel(kinds, Runs(kinds)[j], Runs(kinds)[j - 1].kind), minRun)
  }

  lemma {:induction false} KeptSelf(kinds: seq<Kind>, minRun: int)
    ensures Kept(kinds, kinds, minRun)
  {
  }

  /** What absorption promises, for all labels: no stray is left, and everything that had to
      stay stayed. */
  lemma {:induction false} SettledIsRight(before: seq<Kind>, was: seq<Kind>, minRun: int)
    requires Kept(before, was, minRun)
    ensures Kept(before, Settled(was, minRun), minRun) && NoStray(Settled(was, minRun), minRun)
    decreases |Runs(was)|
  {
    var j := FirstStray(Runs(was), 1, minRun);
    if j != -1 {
      AbsorbStep(before, was, j, minRun);
      SettledIsRight(before, Relabel(was, Runs(was)[j], Runs(was)[j - 1].kind), minRun);
    }
  }

  method FindStray(runs: seq<Run>, minRun: int) returns (found: int)
    ensures found == FirstStray(runs, 1, minRun)
  {
    var j := 1;
    while j < |runs| - 1
      invariant 1 <= j
      invariant FirstStray(runs, j, minRun) == FirstStray(runs, 1, minRun)
    {
      if IsStray(runs, j, minRun) {
        return j;
      }
      j := j + 1;
    }
    found := -1;
  }

  /** _absorb_strays: relabels the list in place until no stray is left. */
  method AbsorbStrays(kinds: array<Kind>, minRun: int)
    modifies kinds
    ensures kinds[..] == Settled(old(kinds[..]), minRun)
  {
    var changed := true;
    while changed
      invariant Settled(kinds[..], minRun) == Settled(old(kinds[..]), minRun)
      invariant !changed ==> FirstStray(Runs(kinds[..]), 1, minRun) == -1
      decreases |Runs(kinds[..])|, if changed then 1 else 0
    {
      changed := false;
      var runs := EncodeRuns(kinds[..]);
      var j := FindStray(runs, minRun);
      if j != -1 {
        AbsorbRuns(kinds[..], j, minRun);
        StrayInRange(kinds[..], j, minRun);
        RelabelRun(kinds, runs[j], runs[j - 1].kind);
        changed := true;
      }
    }
  }

  lemma {:induction false} StrayInRange(kinds: seq<Kind>, j: int, minRun: int)
    requires IsStray(Runs(kinds), j, minRun)
    ensures Runs(kinds)[j].start <= Runs(kinds)[j].end < |kinds|
  {
    assert Uniform(kinds, Runs(kinds)[j]);
  }

  method RelabelRun(kinds: array<Kind>, run: Run, k: Kind)
    requires run.start <= run.end < kinds.Length
    modifies kinds
    ensures kinds[..] == Relabel(old(kinds[..]), run, k)
  {
    ghost var was := kinds[..];
    for pos := run.start to run.end + 1
      invariant forall p :: 0 <= p < kinds.Length ==> kinds[p] == if run.start <= p < pos then k else was[p]
    {
      kinds[pos] := k;
    }
    assert forall p :: 0 <= p < kinds.Length ==> kinds[..][p] == Relabel(was, run, k)[p];
  }

  /** With two kinds of page, every interior run that is left has at least minRun pages. */
  lemma {:induction false} NoShortInterior(kinds: seq<Kind>, minRun: int, j: nat)
    requires NoStray(kinds, minRun) && 0 < j < |Runs(kinds)| - 1
    requires forall p :: 0 <= p < |kinds| ==> kinds[p] != FrontMatter
    ensures Runs(kinds)[j].Length() >= minRun
  {
    var r := Runs(kinds);
    assert Meets(r, j - 1) && Meets(r, j);
    assert Uniform(kinds, r[j - 1]) && Uniform(kinds, r[j]) && Uniform(kinds, r[j + 1]);
    assert kinds[r[j - 1].start] == r[j - 1].kind && kinds[r[j].start] == r[j].kind
        && kinds[r[j + 1].start] == r[j + 1].kind;
    assert !IsStray(r, j, minRun);
  }

  // ---- regions ----

  datatype PageProfile = PageProfile(pageIndex: nat, large: bool, manualAnchor: bool)

  /** pageStart and pageEnd are inclusive page indices. */
  datatype Region = Region(kind: Kind, pageStart: nat, pageEnd: nat, confidence: real)
  {
    function PageCount(): int { pageEnd - pageStart + 1 }
  }

  type Rounding = real -> real

  function ProvisionalKind(p: PageProfile): (k: Kind)
    ensures k != FrontMatter
  {
    if p.large then Drawings else Manual
  }

  predicate SortedByIndex(s: seq<PageProfile>)
  {
    forall i, j :: 0 <= i < j < |s| ==> s[i].pageIndex <= s[j].pageIndex
  }

  function InsertProfile(p: PageProfile, s: seq<PageProfile>): (r: seq<PageProfile>)
    ensures forall q :: q in r <==> q == p || q in s
  {
    if s == [] || p.pageIndex <= s[0].pageIndex then [p] + s
    else
      assert forall q :: q in s <==> q == s[0] || q in s[1..];
      [s[0]] + InsertProfile(p, s[1..])
  }

  /** sorted(profiles, key=page_index) */
  function SortProfiles(ps: seq<PageProfile>): (r: seq<PageProfile>)
  {
    if ps == [] then [] else InsertProfile(ps[0], SortProfiles(ps[1..]))
  }

  lemma {:induction false} InsertSorts(p: PageProfile, s: seq<PageProfile>)
    requires SortedByIndex(s)
    ensures SortedByIndex(InsertProfile(p, s))
  {
    if s != [] && p.pageIndex > s[0].pageIndex {
      var rest := InsertProfile(p, s[1..]);
      InsertSorts(p, s[1..]);
      forall i | 0 <= i < |rest| ensures s[0].pageIndex <= rest[i].pageIndex {
        assert rest[i] in rest;
        if rest[i] != p {
          var k :| 0 <= k < |s[1..]| && s[1..][k] == rest[i];
          assert s[k + 1] == rest[i];
        }
      }
    }
  }

  lemma {:induction false} SortSorts(ps: seq<PageProfile>)
    ensures SortedByIndex(SortProfiles(ps))
  {
    if ps != [] {
      SortSorts(ps[1..]);
      InsertSorts(ps[0], SortProfiles(ps[1..]));
    }
  }

  lemma {:induction false} InsertKeeps(p: PageProfile, s: seq<PageProfile>)
    ensures multiset(InsertProfile(p, s)) == multiset(s) + multiset{p}
  {
    if s != [] && p.pageIndex > s[0].pageIndex {
      InsertKeeps(p, s[1..]);
      assert s == [s[0]] + s[1..];
    }
  }

  /** Sorting loses and invents no page. */
  lemma {:induction false} SortKeeps(ps: seq<PageProfile>)
    ensures multiset(SortProfiles(ps)) == multiset(ps)
  {
    if ps != [] {
      SortKeeps(ps[1..]);
      InsertKeeps(ps[0], SortProfiles(ps[1..]));
      assert ps == [ps[0]] + ps[1..];
    }
  }

  /** The pages of one index, in list order. */
  function OfIndex(ps: seq<PageProfile>, i: nat): (same: seq<PageProfile>)
    ensures forall p :: p in same <==> p in ps && p.pageIndex == i
  {
    if ps == [] then []
    else
      assert forall p :: p in ps <==> p == ps[0] || p in ps[1..];
      if ps[0].pageIndex == i then [ps[0]] + OfIndex(ps[1..], i) else OfIndex(ps[1..], i)
  }

  lemma {:induction false} InsertStable(p: PageProfile, s: seq<PageProfile>, i: nat)
    requires SortedByIndex(s)
    ensures OfIndex(InsertProfile(p, s), i) == if p.pageIndex == i then [p] + OfIndex(s, i) else OfIndex(s, i)
  {
    if s == [] || p.pageIndex <= s[0].pageIndex {
      assert ([p] + s)[1..] == s;
    } else {
      InsertStable(p, s[1..], i);
      assert ([s[0]] + InsertProfile(p, s[1..]))[1..] == InsertProfile(p, s[1..]);
      if p.pageIndex == i {
        forall q | q in s ensures q.pageIndex >= s[0].pageIndex {
          var k :| 0 <= k < |s| && s[k] == q;
        }
      }
    }
  }

  /** Pages of one index keep their order. */
  lemma {:induction false} SortStable(ps: seq<PageProfile>, i: nat)
    ensures OfIndex(SortProfiles(ps), i) == OfIndex(ps, i)
  {
    if ps != [] {
      SortSorts(ps[1..]);
      SortStable(ps[1..], i);
      InsertStable(ps[0], SortProfiles(ps[1..]), i);
    }
  }

  function Provisional(ps: seq<PageProfile>): (kinds: seq<Kind>)
    ensures |kinds| == |ps| && forall p :: 0 <= p < |kinds| ==> kinds[p] != FrontMatter
  {
    seq(|ps|, i requires 0 <= i < |ps| => ProvisionalKind(ps[i]))
  }

  function PureCount(ps: seq<PageProfile>, k: Kind): (n: nat)
    ensures n <= |ps|
  {
    if ps == [] then 0
    else PureCount(ps[..|ps| - 1], k) + if ProvisionalKind(ps[|ps| - 1]) == k then 1 else 0
  }

  function Fraction(part: nat, whole: nat): (q: real)
    requires part <= whole && whole > 0
    ensures 0.0 <= q <= 1.0
  {
    part as real / whole as real
  }

  /** {p.page_index: p}; of several pages with one index the last one stays. */
  function ByIndex(ps: seq<PageProfile>): (m: map<nat, PageProfile>)
    ensures forall i :: i in m ==> m[i] in ps && m[i].pageIndex == i
    ensures forall p :: p in ps ==> p.pageIndex in m
  {
    if ps == [] then map[]
    else
      var n := |ps| - 1;
      assert forall p :: p in ps <==> p in ps[..n] || p == ps[n];
      ByIndex(ps[..n])[ps[n].pageIndex := ps[n]]
  }

  /** No page behind k has its index. */
  ghost predicate IsLastWith(ps: seq<PageProfile>, k: nat)
  {
    k < |ps| && forall j :: k < j < |ps| ==> ps[j].pageIndex != ps[k].pageIndex
  }

  lemma {:induction false} LastOfFront(ps: seq<PageProfile>, k: nat)
    requires IsLastWith(ps, k) && k < |ps| - 1
    ensures IsLastWith(ps[..|ps| - 1], k) && ps[|ps| - 1].pageIndex != ps[k].pageIndex
  {
  }

  /** Of several pages with one index, the look-up table holds the last. */
  lemma {:induction false} ByIndexLast(ps: seq<PageProfile>, k: nat)
    requires IsLastWith(ps, k)
    ensures ps[k] in ps && ByIndex(ps)[ps[k].pageIndex] == ps[k]
  {
    var n := |ps| - 1;
    if k < n {
      LastOfFront(ps, k);
      ByIndexLast(ps[..n], k);
      assert ps[..n][k] == ps[k];
    }
  }

  /** The region of one run: its confidence is the share of pages that had its label from the
      start. */
  function RegionOf(ps: seq<PageProfile>, run: Run, round: Rounding): Region
    requires run.start <= run.end < |ps|
  {
    var pages := ps[run.start..run.end + 1];
    Region(run.kind, ps[run.start].pageIndex, ps[run.end].pageIndex,
           round(Fraction(PureCount(pages, run.kind), |pages|)))
  }

  predicate RunsInside(runs: seq<Run>, n: nat) { forall j :: 0 <= j < |runs| ==> runs[j].start <= runs[j].end < n }

  function Cut(ps: seq<PageProfile>, runs: seq<Run>, round: Rounding): (rs: seq<Region>)
    requires RunsInside(runs, |ps|)
    ensures |rs| == |runs|
  {
    seq(|runs|, j requires 0 <= j < |runs| => RegionOf(ps, runs[j], round))
  }

  lemma {:induction false} RunsAreInside(kinds: seq<Kind>)
    ensures RunsInside(Runs(kinds), |kinds|)
  {
    forall j | 0 <= j < |Runs(kinds)| ensures Runs(kinds)[j].start <= Runs(kinds)[j].end < |kinds| {
      assert Uniform(kinds, Runs(kinds)[j]);
    }
  }

  method CutRegions(ps: seq<PageProfile>, runs: seq<Run>, round: Rounding) returns (rs: seq<Region>)
    requires RunsInside(runs, |ps|)
    ensures rs == Cut(ps, runs, round)
  {
    rs := [];
    for j := 0 to |runs|
      invariant |rs| == j && forall i :: 0 <= i < j ==> rs[i] == RegionOf(ps, runs[i], round)
    {
      rs := rs + [RegionOf(ps, runs[j], round)];
    }
  }

  // ---- front matter ----

  /** A manual region too short to stand without an anchor: its pages are looked up. */
  predicate IsShort(r: Region, minRun: int) { r.kind == Manual && r.PageCount() < minRun }

  ghost predicate PagesKnown(r: Region, byIndex: map<nat, PageProfile>)
  {
    forall i :: r.pageStart <= i <= r.pageEnd ==> i in byIndex
  }

  ghost predicate HasAnchor(r: Region, byIndex: map<nat, PageProfile>)
  {
    exists i :: r.pageStart <= i <= r.pageEnd && i in byIndex && byIndex[i].manualAnchor
  }

  /** Whether some page of the region holds a manual anchor; None: a page is missing. */
  method AnyAnchor(r: Region, byIndex: map<nat, PageProfile>) returns (found: Option<bool>)
    ensures found.None? <==> !PagesKnown(r, byIndex)
    ensures found.Some? ==> (found.value <==> HasAnchor(r, byIndex))
  {
    var pages: seq<PageProfile> := [];
    var i := r.pageStart;
    while i <= r.pageEnd
      invariant r.pageStart <= i && (i <= r.pageEnd + 1 || i == r.pageStart)
      invariant |pages| == i - r.pageStart
      invariant forall k :: r.pageStart <= k < i ==> k in byIndex && pages[k - r.pageStart] == byIndex[k]
    {
      if i !in byIndex {
        return None;
      }
      pages := pages + [byIndex[i]];
      i := i + 1;
    }
    for k := 0 to |pages|
      invariant forall j :: 0 <= j < k ==> !pages[j].manualAnchor
    {
      if pages[k].manualAnchor {
        assert byIndex[r.pageStart + k] == pages[k];
        return Some(true);
      }
    }
    assert forall j :: r.pageStart <= j <= r.pageEnd ==> byIndex[j] == pages[j - r.pageStart];
    found := Some(false);
  }

  predicate IsBoundary(j: int, n: nat) { 0 <= j < n && (j == 0 || j == n - 1) }

  /** A short manual region at an end becomes front matter unless it holds an anchor. */
  ghost function Marked(r: Region, byIndex: map<nat, PageProfile>, minRun: int, boundary: bool): Region
  {
    if boundary && IsShort(r, minRun) && !HasAnchor(r, byIndex) then r.(kind := FrontMatter) else r
  }

  /** The look-up fails on a short manual region at an end whose index range has a gap. */
  ghost predicate LacksPage(rs: seq<Region>, byIndex: map<nat, PageProfile>, minRun: int)
  {
    exists j :: IsBoundary(j, |rs|) && IsShort(rs[j], minRun) && !PagesKnown(rs[j], byIndex)
  }

  ghost predicate AllMarked(rs: seq<Region>, cut: seq<Region>, byIndex: map<nat, PageProfile>, minRun: int)
  {
    && |rs| == |cut|
    && forall j :: 0 <= j < |rs| ==> rs[j] == Marked(cut[j], byIndex, minRun, IsBoundary(j, |rs|))
  }

  /** _mark_front_matter on the first and the last region; None: a KeyError. */
  method MarkFrontMatter(regions: seq<Region>, byIndex: map<nat, PageProfile>, minRun: int)
    returns (marked: Option<seq<Region>>)
    ensures marked.None? <==> LacksPage(regions, byIndex, minRun)
    ensures marked.Some? ==> AllMarked(marked.value, regions, byIndex, minRun)
  {
    var rs := regions;
    if rs == [] { return Some([]); }
    var boundary := if |rs| == 1 then [0] else [0, |rs| - 1];
    assert forall j :: IsBoundary(j, |rs|) <==> j in boundary;
    for b := 0 to |boundary|
      invariant |rs| == |regions|
      invariant forall j :: 0 <= j < |rs| ==>
        rs[j] == Marked(regions[j], byIndex, minRun, j in boundary[..b])
      invariant forall j :: j in boundary[..b] ==> !IsShort(regions[j], minRun) || PagesKnown(regions[j], byIndex)
    {
      var k := boundary[b];
      assert k !in boundary[..b] && boundary[..b + 1] == boundary[..b] + [k];
      if rs[k].kind == Manual && rs[k].PageCount() < minRun {
        var anchored := AnyAnchor(rs[k], byIndex);
        if anchored.None? {
          assert IsBoundary(k, |regions|) && IsShort(regions[k], minRun) && !PagesKnown(regions[k], byIndex);
          return None;
        }
        if !anchored.value {
          rs := rs[k := rs[k].(kind := FrontMatter)];
        }
      }
    }
    assert boundary[..|boundary|] == boundary;
    marked := Some(rs);
  }

  // ---- the labels and the cut ----

  datatype SegmentError = MissingPage

  /** The labels of one file's sorted pages after absorption. */
  function Labels(ps: seq<PageProfile>, minRun: int): (kinds: seq<Kind>)
    ensures |kinds| == |ps|
  {
    Settled(Provisional(ps), minRun)
  }

  /** The regions before front matter is marked. */
  function CutOf(ps: seq<PageProfile>, minRun: int, round: Rounding): (cut: seq<Region>)
  {
    RunsAreInside(Labels(ps, minRun));
    Cut(ps, Runs(Labels(ps, minRun)), round)
  }

  // ---- what the regions are, for any pages ----

  /** The kind a region was cut with. */
  function BaseKind(r: Region): Kind { if r.kind == FrontMatter then Manual else r.kind }

  lemma {:induction false} NoFrontLabels(ps: seq<PageProfile>, minRun: int)
    ensures LabelsFrom(Provisional(ps), Labels(ps, minRun)) && NoStray(Labels(ps, minRun), minRun)
    ensures forall p :: 0 <= p < |ps| ==> Labels(ps, minRun)[p] != FrontMatter
  {
    KeptSelf(Provisional(ps), minRun);
    SettledIsRight(Provisional(ps), Provisional(ps), minRun);
  }

  lemma {:induction false} RunKinds(ps: seq<PageProfile>, minRun: int, j: nat)
    requires j < |Runs(Labels(ps, minRun))|
    ensures Runs(Labels(ps, minRun))[j].kind != FrontMatter
    ensures 0 < j < |Runs(Labels(ps, minRun))| - 1 ==> Runs(Labels(ps, minRun))[j].Length() >= minRun
  {
    var labels := Labels(ps, minRun);
    NoFrontLabels(ps, minRun);
    assert Uniform(labels, Runs(labels)[j]);
    assert labels[Runs(labels)[j].start] == Runs(labels)[j].kind;
    if 0 < j < |Runs(labels)| - 1 {
      NoShortInterior(labels, minRun, j);
    }
  }

  /** Front matter sits at an end, is short and holds no anchor; no short anchorless manual
      region stays at an end. */
  ghost predicate RegionIsRight(r: Region, byIndex: map<nat, PageProfile>, minRun: int, boundary: bool)
  {
    && (r.kind == FrontMatter ==> boundary && r.pageEnd - r.pageStart + 1 < minRun && !HasAnchor(r, byIndex))
    && (boundary && r.kind == Manual ==> r.pageEnd - r.pageStart + 1 >= minRun || HasAnchor(r, byIndex))
  }

  /** Runs that cover the labels, carry no front matter and are long inside. */
  ghost predicate SettledRuns(runs: seq<Run>, labels: seq<Kind>, minRun: int)
  {
    && RunsCover(runs, labels)
    && (forall j :: 0 <= j < |runs| ==> runs[j].kind != FrontMatter)
    && (forall j :: 0 < j < |runs| - 1 ==> runs[j].Length() >= minRun)
  }

  lemma {:induction false} LabelsSettled(ps: seq<PageProfile>, minRun: int)
    ensures SettledRuns(Runs(Labels(ps, minRun)), Labels(ps, minRun), minRun)
  {
    forall j | 0 <= j < |Runs(Labels(ps, minRun))|
      ensures Runs(Labels(ps, minRun))[j].kind != FrontMatter
      ensures 0 < j < |Runs(Labels(ps, minRun))| - 1 ==> Runs(Labels(ps, minRun))[j].Length() >= minRun
    {
      RunKinds(ps, minRun, j);
    }
  }

  /** Region r stands for this run: its kind, its first and last page. */
  ghost predicate StandsFor(r: Region, run: Run, ps: seq<PageProfile>)
  {
    && run.start <= run.end < |ps|
    && BaseKind(r) == run.kind
    && r.pageStart == ps[run.start].pageIndex <= r.pageEnd == ps[run.end].pageIndex
  }

  lemma {:induction false} MarkedStandsFor(ps: seq<PageProfile>, run: Run, round: Rounding,
                                           byIndex: map<nat, PageProfile>, minRun: int, boundary: bool)
    requires SortedByIndex(ps) && run.start <= run.end < |ps| && run.kind != FrontMatter
    ensures var r := Marked(RegionOf(ps, run, round), byIndex, minRun, boundary);
      StandsFor(r, run, ps) && RegionIsRight(r, byIndex, minRun, boundary)
  {
    var r := RegionOf(ps, run, round);
    assert HasAnchor(r.(kind := FrontMatter), byIndex) <==> HasAnchor(r, byIndex);
    if run.start < run.end {
      assert ps[run.start].pageIndex <= ps[run.end].pageIndex;
    }
  }

  lemma {:induction false} MarkedAreRuns(ps: seq<PageProfile>, runs: seq<Run>, round: Rounding, rs: seq<Region>,
                                         byIndex: map<nat, PageProfile>, minRun: int, j: nat)
    requires SortedByIndex(ps) && RunsInside(runs, |ps|) && j < |runs| && runs[j].kind != FrontMatter
    requires AllMarked(rs, Cut(ps, runs, round), byIndex, minRun)
    ensures |rs| == |runs| && StandsFor(rs[j], runs[j], ps)
    ensures RegionIsRight(rs[j], byIndex, minRun, IsBoundary(j, |rs|))
  {
    assert Cut(ps, runs, round)[j] == RegionOf(ps, runs[j], round);
    MarkedStandsFor(ps, runs[j], round, byIndex, minRun, IsBoundary(j, |rs|));
  }

  /** With gaps and repeated indices allowed: regions are the runs in order, each with its
      kind and its first and last page, and interior runs hold at least minRun pages. */
  lemma {:induction false} RegionsAreRuns(ps: seq<PageProfile>, minRun: int, round: Rounding, rs: seq<Region>, j: nat)
    requires SortedByIndex(ps) && j < |rs| && AllMarked(rs, CutOf(ps, minRun, round), ByIndex(ps), minRun)
    ensures var runs := Runs(Labels(ps, minRun));
      && |rs| == |runs| && StandsFor(rs[j], runs[j], ps)
      && (0 < j < |rs| - 1 ==> runs[j].Length() >= minRun)
    ensures RegionIsRight(rs[j], ByIndex(ps), minRun, IsBoundary(j, |rs|))
  {
    RunsAreInside(Labels(ps, minRun));
    RunKinds(ps, minRun, j);
    MarkedAreRuns(ps, Runs(Labels(ps, minRun)), round, rs, ByIndex(ps), minRun, j);
  }

  // ---- consecutive pages ----

  /** Page indices without gaps or repeats. */
  predicate Consecutive(ps: seq<PageProfile>)
  {
    forall i :: 0 <= i < |ps| ==> ps[i].pageIndex == ps[0].pageIndex + i
  }

  /** The next region starts on the next page, with another kind. */
  ghost predicate Follows(rs: seq<Region>, j: nat)
    requires j < |rs| - 1
  {
    rs[j + 1].pageStart == rs[j].pageEnd + 1 && rs[j].kind != rs[j + 1].kind
  }

  /** The regions tile the pages in order. */
  ghost predicate TilesPages(rs: seq<Region>, ps: seq<PageProfile>)
  {
    && (rs == [] <==> ps == [])
    && (rs != [] ==> rs[0].pageStart == ps[0].pageIndex && rs[|rs| - 1].pageEnd == ps[|ps| - 1].pageIndex)
    && (forall j :: 0 <= j < |rs| ==> rs[j].pageStart <= rs[j].pageEnd)
    && (forall j :: 0 <= j < |rs| - 1 ==> Follows(rs, j))
  }

  /** Every page of the region carries its label, and inside the file it is long. */
  ghost predicate RegionReadsLabels(r: Region, ps: seq<PageProfile>, labels: seq<Kind>, minRun: int, boundary: bool)
    requires |labels| == |ps|
  {
    && (forall i :: 0 <= i < |ps| && r.pageStart <= ps[i].pageIndex <= r.pageEnd ==> labels[i] == BaseKind(r))
    && (!boundary ==> r.pageEnd - r.pageStart + 1 >= minRun)
  }

  /** No look-up can fail. */
  lemma {:induction false} ConsecutiveNeverFails(ps: seq<PageProfile>, minRun: int, round: Rounding)
    requires Consecutive(ps)
    ensures !LacksPage(CutOf(ps, minRun, round), ByIndex(ps), minRun)
  {
    RunsAreInside(Labels(ps, minRun));
    var cut := CutOf(ps, minRun, round);
    forall j | 0 <= j < |cut| ensures PagesKnown(cut[j], ByIndex(ps)) {
      var run := Runs(Labels(ps, minRun))[j];
      assert cut[j] == RegionOf(ps, run, round);
      forall i | cut[j].pageStart <= i <= cut[j].pageEnd ensures i in ByIndex(ps) {
        assert ps[i - ps[0].pageIndex].pageIndex == i && ps[i - ps[0].pageIndex] in ps;
      }
    }
  }

  lemma {:induction false} ConsecutiveSorted(ps: seq<PageProfile>)
    requires Consecutive(ps)
    ensures SortedByIndex(ps)
  {
    forall i, j | 0 <= i < j < |ps| ensures ps[i].pageIndex <= ps[j].pageIndex {
      assert ps[i].pageIndex == ps[0].pageIndex + i && ps[j].pageIndex == ps[0].pageIndex + j;
    }
  }

  lemma {:induction false} ReadsLabels(ps: seq<PageProfile>, labels: seq<Kind>, run: Run, r: Region, minRun: int,
                                       boundary: bool)
    requires |labels| == |ps| && Consecutive(ps) && Uniform(labels, run) && StandsFor(r, run, ps)
    requires !boundary ==> run.Length() >= minRun
    ensures RegionReadsLabels(r, ps, labels, minRun, boundary)
  {
    assert ps[run.start].pageIndex == ps[0].pageIndex + run.start;
    assert ps[run.end].pageIndex == ps[0].pageIndex + run.end;
    forall i | 0 <= i < |ps| && r.pageStart <= ps[i].pageIndex <= r.pageEnd ensures labels[i] == run.kind {
      assert ps[i].pageIndex == ps[0].pageIndex + i;
    }
  }

  lemma {:induction false} RegionFollows(ps: seq<PageProfile>, runs: seq<Run>, rs: seq<Region>, j: nat)
    requires Consecutive(ps) && |rs| == |runs| && j < |rs| - 1 && Meets(runs, j)
    requires StandsFor(rs[j], runs[j], ps) && StandsFor(rs[j + 1], runs[j + 1], ps)
    ensures Follows(rs, j)
  {
    assert ps[runs[j].end].pageIndex == ps[0].pageIndex + runs[j].end;
    assert ps[runs[j + 1].start].pageIndex == ps[0].pageIndex + runs[j + 1].start;
    assert BaseKind(rs[j]) != BaseKind(rs[j + 1]);
  }

  lemma {:induction false} StandingTiles(ps: seq<PageProfile>, labels: seq<Kind>, runs: seq<Run>, rs: seq<Region>)
    requires |labels| == |ps| && Consecutive(ps) && RunsCover(runs, labels) && |rs| == |runs|
    requires forall j :: 0 <= j < |rs| ==> StandsFor(rs[j], runs[j], ps)
    ensures TilesPages(rs, ps)
  {
    forall j | 0 <= j < |rs| ensures rs[j].pageStart <= rs[j].pageEnd { assert StandsFor(rs[j], runs[j], ps); }
    forall j | 0 <= j < |rs| - 1 ensures Follows(rs, j) { RegionFollows(ps, runs, rs, j); }
    if rs != [] {
      assert StandsFor(rs[0], runs[0], ps) && StandsFor(rs[|rs| - 1], runs[|rs| - 1], ps);
    }
  }

  lemma {:induction false} ConsecutiveRegions(ps: seq<PageProfile>, labels: seq<Kind>, runs: seq<Run>, round: Rounding,
                                              rs: seq<Region>, byIndex: map<nat, PageProfile>, minRun: int)
    requires |labels| == |ps| && Consecutive(ps) && SettledRuns(runs, labels, minRun) && RunsInside(runs, |ps|)
    requires AllMarked(rs, Cut(ps, runs, round), byIndex, minRun)
    ensures TilesPages(rs, ps)
    ensures forall j :: 0 <= j < |rs| ==>
      && RegionReadsLabels(rs[j], ps, labels, minRun, IsBoundary(j, |rs|))
      && RegionIsRight(rs[j], byIndex, minRun, IsBoundary(j, |rs|))
  {
    ConsecutiveSorted(ps);
    forall j | 0 <= j < |rs|
      ensures StandsFor(rs[j], runs[j], ps)
      ensures RegionReadsLabels(rs[j], ps, labels, minRun, IsBoundary(j, |rs|))
      ensures RegionIsRight(rs[j], byIndex, minRun, IsBoundary(j, |rs|))
    {
      MarkedAreRuns(ps, runs, round, rs, byIndex, minRun, j);
      ReadsLabels(ps, labels, runs[j], rs[j], minRun, IsBoundary(j, |rs|));
    }
    StandingTiles(ps, labels, runs, rs);
  }

  /** The regions of consecutive pages tile them in order, neighbours differ, every page has
      its region's label, and every region but the first and last is long. */
  lemma {:induction false} ConsecutivePages(ps: seq<PageProfile>, minRun: int, round: Rounding, rs: seq<Region>)
    requires Consecutive(ps) && AllMarked(rs, CutOf(ps, minRun, round), ByIndex(ps), minRun)
    ensures TilesPages(rs, ps)
    ensures forall j :: 0 <= j < |rs| ==>
      && RegionReadsLabels(rs[j], ps, Labels(ps, minRun), minRun, IsBoundary(j, |rs|))
      && RegionIsRight(rs[j], ByIndex(ps), minRun, IsBoundary(j, |rs|))
  {
    RunsAreInside(Labels(ps, minRun));
    LabelsSettled(ps, minRun);
    ConsecutiveRegions(ps, Labels(ps, minRun), Runs(Labels(ps, minRun)), round, rs, ByIndex(ps), minRun);
  }

  // ---- what a file's regions say of its pages ----

  /** The run that holds position p. */
  lemma {:induction false} RunOf(runs: seq<Run>, labels: seq<Kind>, p: nat) returns (j: nat)
    requires RunsCover(runs, labels) && p < |labels|
    ensures j < |runs| && runs[j].start <= p <= runs[j].end
  {
    j := 0;
    while runs[j].end < p
      invariant j < |runs| && runs[j].start <= p
      decreases |runs| - j
    {
      assert Meets(runs, j);
      j := j + 1;
    }
  }

  /** A block of equal labels lies in one run. */
  lemma {:induction false} RunHolds(runs: seq<Run>, labels: seq<Kind>, a: nat, b: nat) returns (j: nat)
    requires RunsCover(runs, labels) && a <= b < |labels|
    requires forall p :: a <= p <= b ==> labels[p] == labels[a]
    ensures j < |runs| && runs[j].start <= a && b <= runs[j].end && runs[j].kind == labels[a]
  {
    j := RunOf(runs, labels, a);
    EndIsBoundary(runs, labels, j);
    assert Uniform(labels, runs[j]);
  }

  /** A block of at least minRun large pages, or of at least minRun others. */
  ghost predicate LargeBlock(ps: seq<PageProfile>, a: int, b: int, minRun: int)
  {
    0 <= a <= b < |ps| && b - a + 1 >= minRun && forall p :: a <= p <= b ==> ps[p].large == ps[a].large
  }

  /** One region spans these pages, and is a drawings region exactly when they are large. */
  ghost predicate HeldByOne(rs: seq<Region>, ps: seq<PageProfile>, a: int, b: int)
    requires 0 <= a <= b < |ps|
  {
    exists j :: 0 <= j < |rs| && rs[j].pageStart <= ps[a].pageIndex && ps[b].pageIndex <= rs[j].pageEnd
      && (rs[j].kind == Drawings <==> ps[a].large)
  }

  lemma {:induction false} LabelledBlock(ps: seq<PageProfile>, minRun: int, a: nat, b: nat)
    requires a <= b < |ps| && (LargeBlock(ps, a, b, minRun) || a == b == 0 || a == b == |ps| - 1)
    ensures forall p :: a <= p <= b ==> Labels(ps, minRun)[p] == Provisional(ps)[a]
  {
    var before := Provisional(ps);
    KeptSelf(before, minRun);
    SettledIsRight(before, before, minRun);
    if LargeBlock(ps, a, b, minRun) {
      assert LongBlock(before, a, b, minRun);
    }
  }

  lemma {:induction false} RegionHolds(ps: seq<PageProfile>, run: Run, r: Region, a: nat, b: nat)
    requires Consecutive(ps) && StandsFor(r, run, ps) && run.start <= a <= b <= run.end
    requires run.kind == ProvisionalKind(ps[a])
    ensures r.pageStart <= ps[a].pageIndex && ps[b].pageIndex <= r.pageEnd
    ensures r.kind == Drawings <==> ps[a].large
  {
    assert ps[run.start].pageIndex == ps[0].pageIndex + run.start;
    assert ps[run.end].pageIndex == ps[0].pageIndex + run.end;
    assert ps[a].pageIndex == ps[0].pageIndex + a && ps[b].pageIndex == ps[0].pageIndex + b;
  }

  /** A block that keeps its label lies in one run. */
  lemma {:induction false} BlockInRun(ps: seq<PageProfile>, minRun: int, a: nat, b: nat) returns (j: nat)
    requires a <= b < |ps| && (LargeBlock(ps, a, b, minRun) || a == b == 0 || a == b == |ps| - 1)
    ensures var runs := Runs(Labels(ps, minRun));
      j < |runs| && runs[j].start <= a && b <= runs[j].end && runs[j].kind == ProvisionalKind(ps[a])
  {
    LabelledBlock(ps, minRun, a, b);
    RunsAreInside(Labels(ps, minRun));
    j := RunHolds(Runs(Labels(ps, minRun)), Labels(ps, minRun), a, b);
  }

  /** So it lies in one region, of the kind its pages show. */
  lemma {:induction false} BlockHeld(ps: seq<PageProfile>, minRun: int, round: Rounding, rs: seq<Region>, a: nat,
                                     b: nat)
    requires Consecutive(ps) && AllMarked(rs, CutOf(ps, minRun, round), ByIndex(ps), minRun)
    requires a <= b < |ps| && (LargeBlock(ps, a, b, minRun) || a == b == 0 || a == b == |ps| - 1)
    ensures HeldByOne(rs, ps, a, b)
  {
    ConsecutiveSorted(ps);
    var j := BlockInRun(ps, minRun, a, b);
    assert |rs| == |Runs(Labels(ps, minRun))|;
    RegionsAreRuns(ps, minRun, round, rs, j);
    RegionHolds(ps, Runs(Labels(ps, minRun))[j], rs[j], a, b);
  }

  /** The rounded share of the region's pages that are large, for drawings, or are not. */
  ghost predicate ConfidenceIsShare(r: Region, ps: seq<PageProfile>, round: Rounding)
  {
    exists a, b :: 0 <= a <= b < |ps| && ps[a].pageIndex == r.pageStart && ps[b].pageIndex == r.pageEnd
      && r.confidence == ShareOf(ps, a, b, r.kind == Drawings, round)
  }

  ghost function ShareOf(ps: seq<PageProfile>, a: int, b: int, large: bool, round: Rounding): real
    requires 0 <= a <= b < |ps|
  {
    round(Count(ps[a..b + 1], (p: PageProfile) => p.large == large) as real / (b - a + 1) as real)
  }

  lemma {:induction false} PureIsCount(ps: seq<PageProfile>, k: Kind)
    requires k != FrontMatter
    ensures PureCount(ps, k) == Count(ps, (p: PageProfile) => p.large == (k == Drawings))
  {
    if ps != [] {
      PureIsCount(ps[..|ps| - 1], k);
    }
  }

  lemma {:induction false} RegionShare(ps: seq<PageProfile>, run: Run, round: Rounding)
    requires run.start <= run.end < |ps| && run.kind != FrontMatter
    ensures RegionOf(ps, run, round).confidence == ShareOf(ps, run.start, run.end, run.kind == Drawings, round)
  {
    PureIsCount(ps[run.start..run.end + 1], run.kind);
  }

  lemma {:induction false} MarkedShare(ps: seq<PageProfile>, minRun: int, round: Rounding, rs: seq<Region>, j: nat)
    requires SortedByIndex(ps) && j < |rs| && AllMarked(rs, CutOf(ps, minRun, round), ByIndex(ps), minRun)
    ensures ConfidenceIsShare(rs[j], ps, round)
  {
    RunsAreInside(Labels(ps, minRun));
    RunKinds(ps, minRun, j);
    var run := Runs(Labels(ps, minRun))[j];
    assert CutOf(ps, minRun, round)[j] == RegionOf(ps, run, round);
    RegionShare(ps, run, round);
    assert rs[j].confidence == ShareOf(ps, run.start, run.end, rs[j].kind == Drawings, round);
  }

  /** What the regions of consecutive pages say of the pages alone: they tile them in order;
      every block of at least minRun pages that are all large, or all not, lies in one region of
      its kind, and so do the first and the last page; regions inside hold at least minRun
      pages; front matter and confidence are as the pages have it. */
  ghost predicate FileIsRight(rs: seq<Region>, ps: seq<PageProfile>, minRun: int, round: Rounding)
  {
    && TilesPages(rs, ps)
    && (forall a, b :: LargeBlock(ps, a, b, minRun) ==> HeldByOne(rs, ps, a, b))
    && (ps != [] ==> HeldByOne(rs, ps, 0, 0) && HeldByOne(rs, ps, |ps| - 1, |ps| - 1))
    && (forall j :: 0 <= j < |rs| ==> RegionShows(rs[j], ps, minRun, round, IsBoundary(j, |rs|)))
  }

  ghost predicate RegionShows(r: Region, ps: seq<PageProfile>, minRun: int, round: Rounding, boundary: bool)
  {
    && (!boundary ==> r.pageEnd - r.pageStart + 1 >= minRun)
    && RegionIsRight(r, ByIndex(ps), minRun, boundary) && ConfidenceIsShare(r, ps, round)
  }

  lemma {:induction false} BlocksHeld(ps: seq<PageProfile>, minRun: int, round: Rounding, rs: seq<Region>)
    requires Consecutive(ps) && AllMarked(rs, CutOf(ps, minRun, round), ByIndex(ps), minRun)
    ensures forall a, b :: LargeBlock(ps, a, b, minRun) ==> HeldByOne(rs, ps, a, b)
    ensures ps != [] ==> HeldByOne(rs, ps, 0, 0) && HeldByOne(rs, ps, |ps| - 1, |ps| - 1)
  {
    forall a, b | LargeBlock(ps, a, b, minRun) ensures HeldByOne(rs, ps, a, b) {
      BlockHeld(ps, minRun, round, rs, a, b);
    }
    if ps != [] {
      BlockHeld(ps, minRun, round, rs, 0, 0);
      BlockHeld(ps, minRun, round, rs, |ps| - 1, |ps| - 1);
    }
  }

  lemma {:induction false} ConsecutiveIsRight(ps: seq<PageProfile>, minRun: int, round: Rounding, rs: seq<Region>)
    requires Consecutive(ps) && AllMarked(rs, CutOf(ps, minRun, round), ByIndex(ps), minRun)
    ensures FileIsRight(rs, ps, minRun, round)
  {
    ConsecutivePages(ps, minRun, round, rs);
    ConsecutiveSorted(ps);
    BlocksHeld(ps, minRun, round, rs);
    forall j | 0 <= j < |rs| ensures RegionShows(rs[j], ps, minRun, round, IsBoundary(j, |rs|)) {
      MarkedShare(ps, minRun, round, rs, j);
      assert RegionReadsLabels(rs[j], ps, Labels(ps, minRun), minRun, IsBoundary(j, |rs|));
    }
  }

  // ---- the whole file ----

  /** One region per run of the settled labels, front matter marked; a KeyError exactly when a
      page that has to be looked up is missing. */
  method SegmentFile(profiles: seq<PageProfile>, minRun: int, round: Rounding)
    returns (r: Result<seq<Region>, SegmentError>)
    ensures var ps := SortProfiles(profiles);
      && (r.Failure? <==> LacksPage(CutOf(ps, minRun, round), ByIndex(ps), minRun))
      && (r.Success? ==> AllMarked(r.value, CutOf(ps, minRun, round), ByIndex(ps), minRun))
      && (Consecutive(ps) ==> r.Success? && FileIsRight(r.value, ps, minRun, round))
  {
    var ps := SortProfiles(profiles);
    if ps == [] {
      ConsecutiveIsRight(ps, minRun, round, []);
      return Success([]);
    }
    var byIndex := ByIndex(ps);
    var kinds := new Kind[|ps|](i requires 0 <= i < |ps| => ProvisionalKind(ps[i]));
    assert kinds[..] == Provisional(ps);
    AbsorbStrays(kinds, minRun);
    var runs := EncodeRuns(kinds[..]);
    RunsAreInside(kinds[..]);
    var cut := CutRegions(ps, runs, round);
    var marked := MarkFrontMatter(cut, byIndex, minRun);
    r := if marked.Some? then Success(marked.value) else Failure(MissingPage);
    if Consecutive(ps) {
      ConsecutiveNeverFails(ps, minRun, round);
      ConsecutiveIsRight(ps, minRun, round, r.value);
    }
  }

  /** Two pages with a gap between their indices. */
  function Gapped(): seq<PageProfile> { [PageProfile(0, false, false), PageProfile(2, false, false)] }

  lemma {:induction false} SortGapped()
    ensures SortProfiles(Gapped()) == Gapped()
  {
    var ps := Gapped();
    assert ps[1..] == [ps[1]] && [ps[1]][1..] == [];
    assert SortProfiles([ps[1]]) == InsertProfile(ps[1], SortProfiles([])) == [ps[1]];
  }

  lemma {:induction false} OneRun()
    ensures Runs([Manual, Manual]) == [Run(Manual, 0, 1)]
  {
    var labels, only := [Manual, Manual], [Run(Manual, 0, 1)];
    assert RunsCover(only, labels);
    EncodingUnique(only, Runs(labels), labels);
  }

  lemma {:induction false} GappedRuns()
    ensures Runs(Labels(Gapped(), 4)) == [Run(Manual, 0, 1)]
  {
    assert Provisional(Gapped()) == [Manual, Manual];
    OneRun();
  }

  lemma {:induction false} GappedLacksPage(round: Rounding)
    ensures LacksPage(CutOf(Gapped(), 4, round), ByIndex(Gapped()), 4)
  {
    var ps := Gapped();
    GappedRuns();
    var cut := CutOf(ps, 4, round);
    assert |cut| == 1 && cut[0] == RegionOf(ps, Run(Manual, 0, 1), round);
    var byIndex := ByIndex(ps);
    assert 1 !in byIndex;
    assert !PagesKnown(cut[0], byIndex) by {
      assert cut[0].pageStart <= 1 <= cut[0].pageEnd;
    }
    assert IsBoundary(0, |cut|) && IsShort(cut[0], 4);
  }

  /** Segmenting those two pages raises: page 1 is looked up and is not there. */
  method GapRaises(round: Rounding) returns (r: Result<seq<Region>, SegmentError>)
    ensures r.Failure?
  {
    SortGapped();
    GappedLacksPage(round);
    r := SegmentFile(Gapped(), 4, round);
  }
}
