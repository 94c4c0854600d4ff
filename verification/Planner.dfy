/** Shard planning: cutting a page range into windows that hold a bounded number of
    candidate pages each (service/takeoff/planner.py). */
module Planner {
  import opened Sequences

  datatype ShardWindow = ShardWindow(index: nat, start: int, end: int, candidateCount: nat)

  datatype PlanError = NegativeTotal | CapBelowOne

  /** The windows cut [lo, hi) into non-empty pieces, in page order, numbered from 0. */
  ghost predicate Tiles(ws: seq<ShardWindow>, lo: int, hi: int)
  {
    && |ws| > 0
    && ws[0].start == lo
    && ws[|ws| - 1].end == hi
    && (forall k :: 0 <= k < |ws| ==> ws[k].index == k && ws[k].start < ws[k].end)
    && (forall k :: 0 <= k < |ws| - 1 ==> Adjacent(ws, k))
  }

  ghost predicate Adjacent(ws: seq<ShardWindow>, k: nat)
    requires k < |ws| - 1
  {
    ws[k].end == ws[k + 1].start
  }

  /** The distinct candidate pages inside [lo, hi). */
  ghost function CandidatesIn(pages: seq<int>, lo: int, hi: int): (s: set<int>)
  {
    set p | p in pages && lo <= p < hi
  }

  function Clip(pages: seq<int>, lo: int, hi: int): (r: seq<int>)
    ensures forall p :: p in r <==> p in pages && lo <= p < hi
  {
    if pages == [] then []
    else
      var rest := Clip(pages[1..], lo, hi);
      assert forall p :: p in pages <==> p == pages[0] || p in pages[1..];
      if lo <= pages[0] < hi then [pages[0]] + rest else rest
  }

  function LowerEdge(pageStart: int): int {
    if pageStart > 0 then pageStart else 0
  }

  function UpperEdge(total: int, pageEnd: Option<int>): int {
    if pageEnd.Some? && pageEnd.value < total then pageEnd.value else total
  }

  function CountIn(cands: seq<int>, a: int, b: int): (n: nat)
    ensures n <= |cands|
  {
    if cands == [] then 0
    else
      var last := |cands| - 1;
      CountIn(cands[..last], a, b) + if a <= cands[last] < b then 1 else 0
  }

  /** In an ascending list, the pages of [a, b) are the block cands[i..j]. */
  lemma {:induction false} CountBlock(cands: seq<int>, a: int, b: int, i: nat, j: nat)
    requires Ascending(cands) && i <= j <= |cands|
    requires forall k :: 0 <= k < i ==> cands[k] < a
    requires forall k :: i <= k < j ==> a <= cands[k] < b
    requires forall k :: j <= k < |cands| ==> b <= cands[k]
    ensures CountIn(cands, a, b) == j - i
  {
    if cands != [] {
      var last := |cands| - 1;
      CountBlock(cands[..last], a, b, if i <= last then i else last, if j <= last then j else last);
    }
  }

  /** The sum the planner takes over its list is the number of distinct candidates in range. */
  lemma {:induction false} CountIsCardinality(cands: seq<int>, pages: seq<int>, lo: int, hi: int, a: int, b: int)
    requires Ascending(cands)
    requires forall p :: p in cands <==> p in pages && lo <= p < hi
    requires lo <= a && b <= hi
    ensures CountIn(cands, a, b) == |CandidatesIn(pages, a, b)|
  {
    CountIsCard(cands, a, b);
    assert CandidatesIn(pages, a, b) == CandidatesIn(cands, a, b);
  }

  lemma {:induction false} CountIsCard(cands: seq<int>, a: int, b: int)
    requires Ascending(cands)
    ensures CountIn(cands, a, b) == |CandidatesIn(cands, a, b)|
  {
    if cands != [] {
      var last := |cands| - 1;
      var front := cands[..last];
      CountIsCard(front, a, b);
      SnocSelf(cands);
      CandidatesSnoc(front, cands[last], a, b);
    }
  }

  lemma {:induction false} CandidatesSnoc(front: seq<int>, c: int, a: int, b: int)
    requires c !in front
    ensures |CandidatesIn(front + [c], a, b)| == |CandidatesIn(front, a, b)| + if a <= c < b then 1 else 0
  {
    if a <= c < b {
      assert CandidatesIn(front + [c], a, b) == CandidatesIn(front, a, b) + {c};
    } else {
      assert CandidatesIn(front + [c], a, b) == CandidatesIn(front, a, b);
    }
  }

  function TotalCandidates(ws: seq<ShardWindow>): (n: nat)
  {
    if ws == [] then 0 else TotalCandidates(ws[..|ws| - 1]) + ws[|ws| - 1].candidateCount
  }

  /** `cuts[j]` lies right after the (j+1)-th full block of `cap` candidates; `at[j]` is
      where block j starts in the candidate list. */
  ghost predicate CutsAfterFullBlocks(cuts: seq<int>, at: seq<int>, cands: seq<int>, cap: int)
  {
    && |at| == |cuts| + 1
    && at[0] == 0
    && (forall j :: 0 <= j < |at| ==> 0 <= at[j] <= |cands|)
    && (forall j :: 0 <= j < |cuts| ==> FullBlockAt(cuts, at, cands, cap, j))
  }

  ghost predicate FullBlockAt(cuts: seq<int>, at: seq<int>, cands: seq<int>, cap: int, j: nat)
    requires j < |cuts| && |at| == |cuts| + 1
  {
    && at[j + 1] == at[j] + cap
    && 0 < at[j + 1] <= |cands|
    && cuts[j] == cands[at[j + 1] - 1] + 1
  }

  method CutBoundaries(cands: seq<int>, cap: int) returns (cuts: seq<int>, ghost at: seq<int>)
    requires cap >= 1 && Ascending(cands)
    ensures CutsAfterFullBlocks(cuts, at, cands, cap)
    ensures |cands| - at[|cuts|] < cap
    ensures |cuts| == |cands| / cap && forall j :: 0 <= j < |cuts| ==> cuts[j] - 1 in cands
  {
    cuts, at := [], [0];
    var count := 0;
    for i := 0 to |cands|
      invariant 0 <= count < cap
      invariant CutsAfterFullBlocks(cuts, at, cands, cap)
      invariant i == at[|cuts|] + count
    {
      count := count + 1;
      if count == cap {
        ghost var cuts0, at0 := cuts, at;
        cuts, at := cuts + [cands[i] + 1], at + [i + 1];
        assert forall j :: 0 <= j < |cuts0| && FullBlockAt(cuts0, at0, cands, cap, j)
                 ==> FullBlockAt(cuts, at, cands, cap, j);
        count := 0;
      }
    }
    CutCount(cuts, at, cands, cap);
  }

  lemma {:induction false} Scale(d: int, cap: int)
    requires cap >= 1
    ensures d >= 1 ==> d * cap >= cap
    ensures d <= -1 ==> d * cap <= -cap
  {
  }

  lemma {:induction false} DivisionUnique(n: int, cap: int, q: int, r: int)
    requires cap >= 1 && 0 <= r < cap && n == q * cap + r
    ensures n / cap == q
  {
    var d := n / cap - q;
    assert n == (n / cap) * cap + n % cap;
    assert d * cap == r - n % cap;
    Scale(d, cap);
  }

  lemma {:induction false} BlockStart(cuts: seq<int>, at: seq<int>, cands: seq<int>, cap: int, j: nat)
    requires CutsAfterFullBlocks(cuts, at, cands, cap) && j < |at|
    ensures at[j] == j * cap
  {
    if j > 0 {
      BlockStart(cuts, at, cands, cap, j - 1);
      assert FullBlockAt(cuts, at, cands, cap, j - 1);
      assert j * cap == (j - 1) * cap + cap;
    }
  }

  lemma {:induction false} CutCount(cuts: seq<int>, at: seq<int>, cands: seq<int>, cap: int)
    requires cap >= 1 && CutsAfterFullBlocks(cuts, at, cands, cap) && |cands| - at[|cuts|] < cap
    ensures |cuts| == |cands| / cap && forall j :: 0 <= j < |cuts| ==> cuts[j] - 1 in cands
  {
    BlockStart(cuts, at, cands, cap, |cuts|);
    DivisionUnique(|cands|, cap, |cuts|, |cands| - at[|cuts|]);
    forall j | 0 <= j < |cuts| ensures cuts[j] - 1 in cands {
      assert FullBlockAt(cuts, at, cands, cap, j);
    }
  }

  /** The j-th edge of the cut: lo, then the boundaries, then hi. */
  function Edge(cuts: seq<int>, lo: int, hi: int, j: nat): int
  {
    if j == 0 then lo else if j <= |cuts| then cuts[j - 1] else hi
  }

  ghost predicate AllWithin(cands: seq<int>, lo: int, hi: int)
  {
    forall k :: 0 <= k < |cands| ==> lo <= cands[k] < hi
  }

  /** Candidates before block j lie below edge j, the others at or above it. */
  lemma {:induction false} EdgeSplits(cands: seq<int>, cuts: seq<int>, at: seq<int>, cap: int, lo: int, hi: int, j: nat)
    requires cap >= 1 && Ascending(cands) && lo < hi && AllWithin(cands, lo, hi)
    requires CutsAfterFullBlocks(cuts, at, cands, cap) && j <= |cuts|
    ensures lo <= Edge(cuts, lo, hi, j) <= hi
    ensures forall k :: 0 <= k < at[j] ==> cands[k] < Edge(cuts, lo, hi, j)
    ensures forall k :: at[j] <= k < |cands| ==> Edge(cuts, lo, hi, j) <= cands[k]
  {
    if j > 0 {
      assert FullBlockAt(cuts, at, cands, cap, j - 1);
    }
  }

  /** Between consecutive edges lies exactly one block of candidates. */
  lemma {:induction false} BlockCount(cands: seq<int>, cuts: seq<int>, at: seq<int>, cap: int, lo: int, hi: int, j: nat)
    requires cap >= 1 && Ascending(cands) && lo < hi && AllWithin(cands, lo, hi)
    requires CutsAfterFullBlocks(cuts, at, cands, cap) && j <= |cuts|
    ensures CountIn(cands, Edge(cuts, lo, hi, j), Edge(cuts, lo, hi, j + 1))
         == if j < |cuts| then cap else |cands| - at[j]
    ensures lo <= Edge(cuts, lo, hi, j) <= Edge(cuts, lo, hi, j + 1) <= hi
    ensures j < |cuts| ==>
      Edge(cuts, lo, hi, j) < Edge(cuts, lo, hi, j + 1) && Edge(cuts, lo, hi, j + 1) - 1 in cands
  {
    EdgeSplits(cands, cuts, at, cap, lo, hi, j);
    if j < |cuts| {
      EdgeSplits(cands, cuts, at, cap, lo, hi, j + 1);
      assert FullBlockAt(cuts, at, cands, cap, j);
      assert Edge(cuts, lo, hi, j) <= cands[at[j + 1] - 1];
      CountBlock(cands, Edge(cuts, lo, hi, j), Edge(cuts, lo, hi, j + 1), at[j], at[j + 1]);
    } else {
      CountBlock(cands, Edge(cuts, lo, hi, j), hi, at[j], |cands|);
    }
  }

  lemma {:induction false} FullBlock(n: nat, cap: int)
    requires cap >= 1
    ensures 0 <= (n / cap) * cap <= n
    ensures n >= cap ==> n / cap >= 1 && (n / cap) * cap >= cap
  {
    assert n == (n / cap) * cap + n % cap;
    if n >= cap {
      assert n / cap >= 1;
      Scale(n / cap, cap);
    }
  }

  /** How many of n candidates the full blocks of `cap` hold. */
  ghost function FullBlocks(n: nat, cap: int): (full: nat)
    requires cap >= 1
    ensures full <= n && (n >= cap ==> full >= cap)
  {
    FullBlock(n, cap);
    (n / cap) * cap
  }

  /** Where the last full block of `cap` candidates ends (the last boundary cut). */
  ghost function LastBoundary(pages: seq<int>, cap: int, lo: int, hi: int): int
    requires cap >= 1 && |SortedDistinct(Clip(pages, lo, hi))| >= cap
  {
    var cands := SortedDistinct(Clip(pages, lo, hi));
    cands[FullBlocks(|cands|, cap) - 1] + 1
  }

  /** The window counts its own distinct candidates and never more than `cap`. */
  ghost predicate HoldsItsShare(w: ShardWindow, pages: seq<int>, cap: int)
  {
    w.candidateCount == |CandidatesIn(pages, w.start, w.end)| <= cap
  }

  /** The window is cut right after its `cap`-th candidate. */
  ghost predicate IsFull(w: ShardWindow, pages: seq<int>, cap: int)
  {
    w.candidateCount == cap && w.end - 1 in pages
  }

  /** Every window holds its share, and all but the last are full. */
  ghost predicate SharesRight(ws: seq<ShardWindow>, pages: seq<int>, cap: int)
  {
    && (forall k :: 0 <= k < |ws| ==> HoldsItsShare(ws[k], pages, cap))
    && (forall k :: 0 <= k < |ws| - 1 ==> IsFull(ws[k], pages, cap))
  }

  /** What the planner promises of its windows over [lo, hi). */
  ghost predicate PlanIsRight(ws: seq<ShardWindow>, pages: seq<int>, cap: int, lo: int, hi: int)
    requires cap >= 1
  {
    if lo >= hi then ws == []
    else
      var n := |CandidatesIn(pages, lo, hi)|;
      && Tiles(ws, lo, hi)
      && SharesRight(ws, pages, cap)
      && TotalCandidates(ws) == n
      && (|ws| == 1 <==> n <= cap)
      && n == |SortedDistinct(Clip(pages, lo, hi))|
      && (n > cap ==> |ws| == n / cap + if LastBoundary(pages, cap, lo, hi) < hi then 1 else 0)
  }

  /** The windows between the edges lo, cuts.., hi, dropping an empty tail. */
  method WindowsBetween(cands: seq<int>, cuts: seq<int>, ghost at: seq<int>, cap: int, lo: int, hi: int)
    returns (windows: seq<ShardWindow>)
    requires cap >= 1 && Ascending(cands) && lo < hi && AllWithin(cands, lo, hi)
    requires CutsAfterFullBlocks(cuts, at, cands, cap)
    ensures AllWindowsRight(windows, cands, cuts, at, cap, lo, hi)
    ensures TotalCandidates(windows) == |cands|
  {
    var edges := [lo] + cuts + [hi];
    windows := [];
    for j := 0 to |edges| - 1
      invariant |windows| == if j <= |cuts| then j else |cuts| + if Edge(cuts, lo, hi, |cuts|) < hi then 1 else 0
      invariant forall k :: 0 <= k < |windows| ==> WindowRight(windows[k], cands, cuts, at, cap, lo, hi, k)
      invariant TotalCandidates(windows) == if j <= |cuts| then at[j] else |cands|
    {
      BlockCount(cands, cuts, at, cap, lo, hi, j);
      var start, end := edges[j], edges[j + 1];
      assert start == Edge(cuts, lo, hi, j) && end == Edge(cuts, lo, hi, j + 1);
      if j < |cuts| {
        assert FullBlockAt(cuts, at, cands, cap, j);
      }
      if start < end {
        var n := CountIn(cands, start, end);
        ghost var before := windows;
        windows := windows + [ShardWindow(|windows|, start, end, n)];
        assert windows[..|windows| - 1] == before;
      } else {
        EmptyBlock(cands, start, end);
      }
    }
  }

  lemma {:induction false} EmptyBlock(cands: seq<int>, a: int, b: int)
    requires b <= a
    ensures CountIn(cands, a, b) == 0
  {
    if cands != [] {
      EmptyBlock(cands[..|cands| - 1], a, b);
    }
  }

  ghost predicate WindowRight(w: ShardWindow, cands: seq<int>, cuts: seq<int>, at: seq<int>,
                              cap: int, lo: int, hi: int, k: nat)
    requires k <= |cuts| && |at| == |cuts| + 1
  {
    && w.index == k
    && lo <= w.start < w.end <= hi
    && w.start == Edge(cuts, lo, hi, k)
    && w.end == Edge(cuts, lo, hi, k + 1)
    && w.candidateCount == CountIn(cands, w.start, w.end)
    && w.candidateCount == (if k < |cuts| then cap else |cands| - at[k])
    && (k < |cuts| ==> w.end - 1 in cands)
  }

  /** The page range a job covers and the candidate pages inside it decide the plan. */
  method PlanShardWindows(candidatePages: seq<int>, totalPages: int, cap: int,
                          pageStart: int, pageEnd: Option<int>)
    returns (r: Result<seq<ShardWindow>, PlanError>)
    ensures totalPages < 0 ==> r == Failure(NegativeTotal)
    ensures totalPages >= 0 && cap < 1 ==> r == Failure(CapBelowOne)
    ensures totalPages >= 0 && cap >= 1 ==>
      var lo := if pageStart >= 0 then pageStart else 0;
      var hi := if pageEnd.Some? && pageEnd.value <= totalPages then pageEnd.value else totalPages;
      r.Success? && PlanIsRight(r.value, candidatePages, cap, lo, hi)
  {
    if totalPages < 0 { return Failure(NegativeTotal); }
    if cap < 1 { return Failure(CapBelowOne); }
    var lo := LowerEdge(pageStart);
    var hi := UpperEdge(totalPages, pageEnd);
    if lo >= hi { return Success([]); }
    var cands := SortedDistinct(Clip(candidatePages, lo, hi));
    assert AllWithin(cands, lo, hi) by {
      forall k | 0 <= k < |cands| ensures lo <= cands[k] < hi { assert cands[k] in cands; }
    }
    if |cands| <= cap {
      var only := [ShardWindow(0, lo, hi, |cands|)];
      SinglePlan(only, cands, candidatePages, cap, lo, hi);
      return Success(only);
    }
    var cuts, at := CutBoundaries(cands, cap);
    var windows := WindowsBetween(cands, cuts, at, cap, lo, hi);
    ShardedPlan(windows, cands, cuts, at, candidatePages, cap, lo, hi);
    r := Success(windows);
  }

  lemma {:induction false} SinglePlan(ws: seq<ShardWindow>, cands: seq<int>, pages: seq<int>, cap: int, lo: int,
                                      hi: int)
    requires cap >= 1 && lo < hi
    requires cands == SortedDistinct(Clip(pages, lo, hi)) && |cands| <= cap
    requires ws == [ShardWindow(0, lo, hi, |cands|)]
    ensures PlanIsRight(ws, pages, cap, lo, hi)
  {
    AllCounted(cands, pages, lo, hi);
    assert ws[..0] == [];
    assert TotalCandidates(ws) == |cands|;
  }

  lemma {:induction false} AllCounted(cands: seq<int>, pages: seq<int>, lo: int, hi: int)
    requires cands == SortedDistinct(Clip(pages, lo, hi))
    ensures |cands| == |CandidatesIn(pages, lo, hi)|
  {
    AscendingCard(cands);
    assert CandidatesIn(pages, lo, hi) == set p | p in cands;
  }

  /** All windows as built: one per full block and one for a non-empty tail. */
  ghost predicate AllWindowsRight(ws: seq<ShardWindow>, cands: seq<int>, cuts: seq<int>, at: seq<int>,
                                  cap: int, lo: int, hi: int)
    requires |at| == |cuts| + 1
  {
    && |ws| == |cuts| + (if Edge(cuts, lo, hi, |cuts|) < hi then 1 else 0)
    && forall k :: 0 <= k < |ws| ==> WindowRight(ws[k], cands, cuts, at, cap, lo, hi, k)
  }

  lemma {:induction false} BuiltWindowsTile(ws: seq<ShardWindow>, cands: seq<int>, cuts: seq<int>, at: seq<int>,
                         cap: int, lo: int, hi: int)
    requires |at| == |cuts| + 1 && |cuts| >= 1 && Edge(cuts, lo, hi, |cuts|) <= hi
    requires AllWindowsRight(ws, cands, cuts, at, cap, lo, hi)
    ensures Tiles(ws, lo, hi)
  {
    assert WindowRight(ws[0], cands, cuts, at, cap, lo, hi, 0);
    assert WindowRight(ws[|ws| - 1], cands, cuts, at, cap, lo, hi, |ws| - 1);
    forall k | 0 <= k < |ws| - 1 ensures Adjacent(ws, k) {
      assert WindowRight(ws[k], cands, cuts, at, cap, lo, hi, k);
      assert WindowRight(ws[k + 1], cands, cuts, at, cap, lo, hi, k + 1);
    }
  }

  lemma {:induction false} BuiltWindowShare(ws: seq<ShardWindow>, cands: seq<int>, cuts: seq<int>, at: seq<int>,
                         pages: seq<int>, cap: int, lo: int, hi: int, k: nat)
    requires |at| == |cuts| + 1 && AllWindowsRight(ws, cands, cuts, at, cap, lo, hi) && k < |ws|
    requires Ascending(cands) && forall p :: p in cands <==> p in pages && lo <= p < hi
    requires |cands| - at[|cuts|] < cap
    ensures HoldsItsShare(ws[k], pages, cap)
    ensures k < |ws| - 1 ==> IsFull(ws[k], pages, cap)
  {
    assert WindowRight(ws[k], cands, cuts, at, cap, lo, hi, k);
    CountIsCardinality(cands, pages, lo, hi, ws[k].start, ws[k].end);
  }

  lemma {:induction false} ShardedPlan(ws: seq<ShardWindow>, cands: seq<int>, cuts: seq<int>, at: seq<int>,
                    pages: seq<int>, cap: int, lo: int, hi: int)
    requires cap >= 1 && lo < hi && AllWithin(cands, lo, hi)
    requires cands == SortedDistinct(Clip(pages, lo, hi)) && |cands| > cap
    requires CutsAfterFullBlocks(cuts, at, cands, cap) && |cands| - at[|cuts|] < cap
    requires AllWindowsRight(ws, cands, cuts, at, cap, lo, hi)
    requires TotalCandidates(ws) == |cands|
    ensures PlanIsRight(ws, pages, cap, lo, hi)
  {
    AllCounted(cands, pages, lo, hi);
    forall k | 0 <= k < |ws|
      ensures HoldsItsShare(ws[k], pages, cap)
      ensures k < |ws| - 1 ==> IsFull(ws[k], pages, cap)
    {
      BuiltWindowShare(ws, cands, cuts, at, pages, cap, lo, hi, k);
    }
    LastCut(cands, cuts, at, pages, cap, lo, hi);
    BuiltWindowsTile(ws, cands, cuts, at, cap, lo, hi);
  }

  lemma {:induction false} BlocksBehind(cuts: seq<int>, at: seq<int>, cands: seq<int>, cap: int)
    requires cap >= 1 && CutsAfterFullBlocks(cuts, at, cands, cap) && |cands| - at[|cuts|] < cap
    ensures |cuts| == |cands| / cap && at[|cuts|] == FullBlocks(|cands|, cap)
    ensures |cands| >= cap ==> |cuts| >= 1
  {
    CutCount(cuts, at, cands, cap);
    BlockStart(cuts, at, cands, cap, |cuts|);
    FullBlock(|cands|, cap);
  }

  lemma {:induction false} LastCut(cands: seq<int>, cuts: seq<int>, at: seq<int>, pages: seq<int>, cap: int, lo: int,
                                   hi: int)
    requires cap >= 1 && lo < hi && AllWithin(cands, lo, hi)
    requires cands == SortedDistinct(Clip(pages, lo, hi)) && |cands| > cap
    requires CutsAfterFullBlocks(cuts, at, cands, cap) && |cands| - at[|cuts|] < cap
    ensures |cuts| == |cands| / cap && |cuts| >= 1
    ensures Edge(cuts, lo, hi, |cuts|) == LastBoundary(pages, cap, lo, hi) <= hi
    ensures |cuts| == 1 ==> Edge(cuts, lo, hi, 1) < hi
  {
    BlocksBehind(cuts, at, cands, cap);
    LastEdge(cuts, at, cands, cap, lo, hi);
  }

  lemma {:induction false} LastEdge(cuts: seq<int>, at: seq<int>, cands: seq<int>, cap: int, lo: int, hi: int)
    requires cap >= 1 && AllWithin(cands, lo, hi) && Ascending(cands) && |cands| > cap && |cuts| >= 1
    requires CutsAfterFullBlocks(cuts, at, cands, cap)
    ensures 0 < at[|cuts|] <= |cands|
    ensures Edge(cuts, lo, hi, |cuts|) == cands[at[|cuts|] - 1] + 1 <= hi
    ensures |cuts| == 1 ==> Edge(cuts, lo, hi, 1) < hi
  {
    assert FullBlockAt(cuts, at, cands, cap, |cuts| - 1);
    if |cuts| == 1 {
      assert cuts[0] <= cands[cap] < hi;
    }
  }

  /** The promise leaves no freedom: two right plans for the same range are equal. */
  lemma {:induction false} PlanUnique(ws: seq<ShardWindow>, vs: seq<ShardWindow>, pages: seq<int>, cap: int, lo: int,
                                      hi: int)
    requires cap >= 1
    requires PlanIsRight(ws, pages, cap, lo, hi) && PlanIsRight(vs, pages, cap, lo, hi)
    ensures ws == vs
  {
    if lo < hi {
      forall k | 0 <= k < |ws| ensures ws[k] == vs[k] {
        WindowUnique(ws, vs, pages, cap, lo, hi, k);
      }
    }
  }

  lemma {:induction false} WindowUnique(ws: seq<ShardWindow>, vs: seq<ShardWindow>, pages: seq<int>,
                                        cap: int, lo: int, hi: int, k: nat)
    requires Tiles(ws, lo, hi) && SharesRight(ws, pages, cap) && Tiles(vs, lo, hi) && SharesRight(vs, pages, cap)
    requires lo < hi && k < |ws| == |vs|
    ensures ws[k] == vs[k]
  {
    if k > 0 {
      WindowUnique(ws, vs, pages, cap, lo, hi, k - 1);
      assert Adjacent(ws, k - 1) && Adjacent(vs, k - 1);
    }
    assert ws[k].start == vs[k].start;
    assert HoldsItsShare(ws[k], pages, cap) && HoldsItsShare(vs[k], pages, cap);
    if k < |ws| - 1 {
      assert IsFull(ws[k], pages, cap) && IsFull(vs[k], pages, cap);
      FullEndUnique(ws[k], vs[k], pages, cap);
    }
  }

  lemma {:induction false} FullEndUnique(w: ShardWindow, v: ShardWindow, pages: seq<int>, cap: int)
    requires w.start == v.start && w.start < w.end && v.start < v.end
    requires HoldsItsShare(w, pages, cap) && HoldsItsShare(v, pages, cap)
    requires IsFull(w, pages, cap) && IsFull(v, pages, cap)
    ensures w.end == v.end
  {
    if w.end < v.end {
      LaterEndHoldsMore(pages, w.start, w.end, v.end);
    } else if v.end < w.end {
      LaterEndHoldsMore(pages, w.start, v.end, w.end);
    }
  }

  lemma {:induction false} LaterEndHoldsMore(pages: seq<int>, a: int, b: int, c: int)
    requires a < b < c && c - 1 in pages
    ensures |CandidatesIn(pages, a, b)| < |CandidatesIn(pages, a, c)|
  {
    var small, large := CandidatesIn(pages, a, b), CandidatesIn(pages, a, c);
    assert c - 1 in large - small;
    assert large == small + (large - small);
  }
}
