/** Schedule extraction over a page range, serially and window by window, and the equality of
    both routes (src/takeoff/quantity_schedules.py). Page text and table parsing are given
    functions. */
module Extraction {
  import opened Sequences
  import opened Planner
  import opened Dedup

  /** A readable drawings file: which schema titles each page shows and what its tables
      parse to under a schema. */
  datatype Drawing = Drawing(
    pageCount: nat,
    registry: seq<string>,
    matches: (int, string) -> bool,
    parse: (int, string) -> seq<ScheduleItem>)

  datatype AccessError = PageNotInDocument

  // ---- the serial extractor ----

  /** The schemas of the registry whose title a page shows, in registry order. */
  function Matched(d: Drawing, i: int, schemas: seq<string>): (r: seq<string>)
  {
    if schemas == [] then []
    else
      var last := schemas[|schemas| - 1];
      var front := Matched(d, i, schemas[..|schemas| - 1]);
      if d.matches(i, last) then front + [last] else front
  }

  function Parsed(d: Drawing, i: int, schemas: seq<string>): (r: seq<ScheduleItem>)
  {
    if schemas == [] then []
    else Parsed(d, i, schemas[..|schemas| - 1]) + d.parse(i, schemas[|schemas| - 1])
  }

  /** All entries page i yields, before deduplication. */
  function PageYield(d: Drawing, i: int): (r: seq<ScheduleItem>)
  {
    Parsed(d, i, Matched(d, i, d.registry))
  }

  /** Some schema of the registry has its title on page i. */
  predicate IsCandidate(d: Drawing, i: int) { exists k :: 0 <= k < |d.registry| && d.matches(i, d.registry[k]) }

  /** The text gate keeps exactly the schemas whose title the page shows, in registry order. */
  lemma {:induction false} MatchedExactly(d: Drawing, i: int, schemas: seq<string>)
    ensures Filtered(Matched(d, i, schemas), schemas, s => d.matches(i, s))
    ensures Matched(d, i, schemas) != [] <==> exists k :: 0 <= k < |schemas| && d.matches(i, schemas[k])
  {
    if schemas == [] {
      FilteredNone((s: string) => d.matches(i, s));
    } else {
      var n := |schemas| - 1;
      MatchedExactly(d, i, schemas[..n]);
      SnocSelf(schemas);
      FilteredSnoc(Matched(d, i, schemas[..n]), schemas[..n], s => d.matches(i, s), schemas[n]);
      if k :| 0 <= k < |schemas| && d.matches(i, schemas[k]) {
        assert k < n ==> schemas[..n][k] == schemas[k];
      }
      if k :| 0 <= k < n && d.matches(i, schemas[..n][k]) {
        assert d.matches(i, schemas[k]);
      }
    }
  }

  /** The whole-document page order: entries of pages lo..hi. */
  function Stream(d: Drawing, lo: int, hi: int): (r: seq<ScheduleItem>)
    decreases hi - lo
  {
    if hi <= lo then [] else Stream(d, lo, hi - 1) + PageYield(d, hi - 1)
  }

  /** What serial extraction over [lo, hi) amounts to. */
  function SerialItems(d: Drawing, lo: int, hi: int): (r: seq<ScheduleItem>)
  {
    FirstWins(Stream(d, lo, hi))
  }

  // ---- what the item list holds ----

  /** Where a table entry stands: page, position of the schema in the registry, row. */
  datatype Spot = Spot(page: int, schema: int, row: int)

  /** A row of a table that a page of these shows under its own title. */
  ghost predicate IsSpot(d: Drawing, pages: set<int>, s: Spot)
  {
    && s.page in pages
    && 0 <= s.schema < |d.registry| && d.matches(s.page, d.registry[s.schema])
    && 0 <= s.row < |d.parse(s.page, d.registry[s.schema])|
  }

  function EntryAt(d: Drawing, s: Spot): ScheduleItem
    requires 0 <= s.schema < |d.registry| && 0 <= s.row < |d.parse(s.page, d.registry[s.schema])|
  {
    d.parse(s.page, d.registry[s.schema])[s.row]
  }

  /** By page, on a page by registry order, in a schema's tables by row. */
  predicate Earlier(s: Spot, t: Spot)
  {
    s.page < t.page || (s.page == t.page && (s.schema < t.schema || (s.schema == t.schema && s.row < t.row)))
  }

  ghost predicate InOrder(spots: seq<Spot>) { forall i, j :: 0 <= i < j < |spots| ==> Earlier(spots[i], spots[j]) }

  /** The entry carries a mark, and no earlier one of these pages has its schedule and mark. */
  ghost predicate IsFirstSpot(d: Drawing, pages: set<int>, s: Spot)
  {
    && IsSpot(d, pages, s) && EntryAt(d, s).mark != ""
    && forall t :: IsSpot(d, pages, t) && Earlier(t, s) ==>
         EntryAt(d, t).schedule != EntryAt(d, s).schedule || EntryAt(d, t).mark != EntryAt(d, s).mark
  }

  ghost predicate ReadsAt(items: seq<ScheduleItem>, d: Drawing, pages: set<int>, at: seq<Spot>)
  {
    && |at| == |items| && InOrder(at)
    && (forall k :: 0 <= k < |at| ==> IsSpot(d, pages, at[k]) && items[k] == EntryAt(d, at[k]))
    && (forall s :: s in at <==> IsFirstSpot(d, pages, s))
  }

  /** The list holds, in reading order, exactly the first marked entry of every (schedule, mark)
      that the tables of these pages show. */
  ghost predicate Reads(items: seq<ScheduleItem>, d: Drawing, pages: set<int>)
  {
    exists at :: ReadsAt(items, d, pages, at)
  }

  function PagesFrom(lo: int, hi: int): (pages: set<int>)
    ensures forall p :: p in pages <==> lo <= p < hi
    decreases hi - lo
  {
    if hi <= lo then {} else PagesFrom(lo, hi - 1) + {hi - 1}
  }

  /** The spots in order, entry by entry. */
  ghost predicate Enumerates(spots: seq<Spot>, stream: seq<ScheduleItem>, d: Drawing, pages: set<int>)
  {
    && |spots| == |stream| && InOrder(spots)
    && (forall k :: 0 <= k < |spots| ==> IsSpot(d, pages, spots[k]) && stream[k] == EntryAt(d, spots[k]))
    && (forall s :: IsSpot(d, pages, s) ==> s in spots)
  }

  lemma {:induction false} FirstSpots(spots: seq<Spot>, stream: seq<ScheduleItem>, d: Drawing, pages: set<int>, i: nat)
    requires Enumerates(spots, stream, d, pages) && i < |spots|
    ensures FirstOfItsKind(stream, i) <==> IsFirstSpot(d, pages, spots[i])
  {
    if FirstOfItsKind(stream, i) {
      forall t | IsSpot(d, pages, t) && Earlier(t, spots[i])
        ensures EntryAt(d, t).schedule != EntryAt(d, spots[i]).schedule
             || EntryAt(d, t).mark != EntryAt(d, spots[i]).mark
      {
        var j :| 0 <= j < |spots| && spots[j] == t;
        assert j < i;
      }
    }
    if IsFirstSpot(d, pages, spots[i]) {
      forall j | 0 <= j < i ensures stream[j].schedule != stream[i].schedule || stream[j].mark != stream[i].mark {
        assert Earlier(spots[j], spots[i]) && IsSpot(d, pages, spots[j]);
      }
    }
  }

  lemma {:induction false} FirstsAreRead(spots: seq<Spot>, stream: seq<ScheduleItem>, d: Drawing, pages: set<int>)
    requires Enumerates(spots, stream, d, pages)
    ensures Reads(FirstWins(stream), d, pages)
  {
    var kept := FirstWinsPicks(stream);
    var at := seq(|kept|, k requires 0 <= k < |kept| => spots[kept[k]]);
    forall s ensures s in at <==> IsFirstSpot(d, pages, s) {
      if s in at {
        var k :| 0 <= k < |at| && at[k] == s;
        assert kept[k] in kept;
        FirstSpots(spots, stream, d, pages, kept[k]);
      }
      if IsFirstSpot(d, pages, s) {
        var i :| 0 <= i < |spots| && spots[i] == s;
        FirstSpots(spots, stream, d, pages, i);
        var k :| 0 <= k < |kept| && kept[k] == i;
        assert at[k] == s;
      }
    }
    assert ReadsAt(FirstWins(stream), d, pages, at);
  }

  /** The spots of one page under the first m schemas. */
  ghost function PageSpots(d: Drawing, p: int, m: nat): (spots: seq<Spot>)
    requires m <= |d.registry|
  {
    if m == 0 then []
    else if !d.matches(p, d.registry[m - 1]) then PageSpots(d, p, m - 1)
    else PageSpots(d, p, m - 1) + seq(|d.parse(p, d.registry[m - 1])|, r => Spot(p, m - 1, r))
  }

  lemma {:induction false} PageSpotsAre(d: Drawing, p: int, m: nat)
    requires m <= |d.registry|
    ensures forall s :: s in PageSpots(d, p, m) <==> IsSpot(d, {p}, s) && s.schema < m
    ensures InOrder(PageSpots(d, p, m))
  {
    if m > 0 {
      PageSpotsAre(d, p, m - 1);
      if d.matches(p, d.registry[m - 1]) {
        var rows := seq(|d.parse(p, d.registry[m - 1])|, r => Spot(p, m - 1, r));
        forall s ensures s in rows <==> IsSpot(d, {p}, s) && s.schema == m - 1 {
          if IsSpot(d, {p}, s) && s.schema == m - 1 { assert rows[s.row] == s; }
        }
        OrderedConcat(PageSpots(d, p, m - 1), rows);
      }
    }
  }

  lemma {:induction false} OrderedConcat(a: seq<Spot>, b: seq<Spot>)
    requires InOrder(a) && InOrder(b) && forall s, t :: s in a && t in b ==> Earlier(s, t)
    ensures InOrder(a + b) && forall s :: s in a + b <==> s in a || s in b
  {
    forall i, j | 0 <= i < j < |a + b| ensures Earlier((a + b)[i], (a + b)[j]) {
      if i < |a| <= j { assert a[i] in a && b[j - |a|] in b; }
    }
  }

  /** The entries at these spots are this list. */
  ghost predicate EntriesAre(d: Drawing, spots: seq<Spot>, list: seq<ScheduleItem>)
  {
    && |spots| == |list|
    && forall k :: 0 <= k < |spots| ==>
         var s := spots[k];
         && 0 <= s.schema < |d.registry| && 0 <= s.row < |d.parse(s.page, d.registry[s.schema])|
         && list[k] == EntryAt(d, s)
  }

  lemma {:induction false} PageEntries(d: Drawing, p: int, m: nat)
    requires m <= |d.registry|
    ensures EntriesAre(d, PageSpots(d, p, m), Parsed(d, p, Matched(d, p, d.registry[..m])))
  {
    if m > 0 {
      PageEntries(d, p, m - 1);
      var front, last := Matched(d, p, d.registry[..m - 1]), d.registry[m - 1];
      assert d.registry[..m][..m - 1] == d.registry[..m - 1];
      if d.matches(p, last) {
        assert (front + [last])[..|front|] == front;
        assert Parsed(d, p, front + [last]) == Parsed(d, p, front) + d.parse(p, last);
      }
    }
  }

  /** The spots of the pages of [lo, hi). */
  ghost function RangeSpots(d: Drawing, lo: int, hi: int): (spots: seq<Spot>)
    decreases hi - lo
  {
    if hi <= lo then [] else RangeSpots(d, lo, hi - 1) + PageSpots(d, hi - 1, |d.registry|)
  }

  lemma {:induction false} RangeSpotsAre(d: Drawing, lo: int, hi: int)
    ensures forall s :: s in RangeSpots(d, lo, hi) <==> IsSpot(d, PagesFrom(lo, hi), s)
    ensures InOrder(RangeSpots(d, lo, hi))
    decreases hi - lo
  {
    if lo < hi {
      RangeSpotsAre(d, lo, hi - 1);
      PageSpotsAre(d, hi - 1, |d.registry|);
      OrderedConcat(RangeSpots(d, lo, hi - 1), PageSpots(d, hi - 1, |d.registry|));
    }
  }

  lemma {:induction false} RangeEntries(d: Drawing, lo: int, hi: int)
    ensures EntriesAre(d, RangeSpots(d, lo, hi), Stream(d, lo, hi))
    decreases hi - lo
  {
    if lo < hi {
      RangeEntries(d, lo, hi - 1);
      PageEntries(d, hi - 1, |d.registry|);
      assert d.registry[..|d.registry|] == d.registry;
    }
  }

  /** What serial extraction gives back, said of the tables alone. */
  lemma {:induction false} SerialReads(d: Drawing, lo: int, hi: int)
    ensures Reads(SerialItems(d, lo, hi), d, PagesFrom(lo, hi))
  {
    RangeSpotsAre(d, lo, hi);
    RangeEntries(d, lo, hi);
    SpotsEnumerate(RangeSpots(d, lo, hi), Stream(d, lo, hi), d, PagesFrom(lo, hi));
    FirstsAreRead(RangeSpots(d, lo, hi), Stream(d, lo, hi), d, PagesFrom(lo, hi));
  }

  lemma {:induction false} SpotsEnumerate(spots: seq<Spot>, stream: seq<ScheduleItem>, d: Drawing, pages: set<int>)
    requires InOrder(spots) && EntriesAre(d, spots, stream)
    requires forall s :: s in spots <==> IsSpot(d, pages, s)
    ensures Enumerates(spots, stream, d, pages)
  {
    forall k | 0 <= k < |spots| ensures IsSpot(d, pages, spots[k]) { assert spots[k] in spots; }
  }

  /** The schemas of the registry whose title page p shows, in registry order. */
  ghost predicate ShownOn(d: Drawing, p: int, schemas: seq<string>)
  {
    Filtered(schemas, d.registry, s => d.matches(p, s))
  }

  lemma {:induction false} CandidatesMatch(d: Drawing)
    ensures forall p :: IsCandidate(d, p) <==> Matched(d, p, d.registry) != []
  {
    forall p ensures IsCandidate(d, p) <==> Matched(d, p, d.registry) != [] {
      MatchedExactly(d, p, d.registry);
    }
  }

  lemma {:induction false} MatchedAreShown(d: Drawing, order: seq<int>, candidates: map<int, seq<string>>)
    requires forall p :: p in order ==> p in candidates && candidates[p] == Matched(d, p, d.registry)
    ensures forall p :: p in order ==> ShownOn(d, p, candidates[p])
  {
    forall p | p in order ensures ShownOn(d, p, candidates[p]) {
      MatchedExactly(d, p, d.registry);
    }
  }

  /** The text pass: which pages of [lo, hi) are candidates for which schemas. */
  method FindCandidates(d: Drawing, lo: int, hi: int)
    returns (r: Result<map<int, seq<string>>, AccessError>, order: seq<int>)
    requires 0 <= lo
    ensures r.Failure? <==> lo < hi && hi > d.pageCount
    ensures lo >= hi ==> order == []
    ensures r.Success? ==>
      && Ascending(order)
      && (forall p :: p in order <==> lo <= p < hi && IsCandidate(d, p))
      && (forall p :: p in order ==> p in r.value && r.value[p] == Matched(d, p, d.registry))
      && (forall p :: p in order ==> ShownOn(d, p, r.value[p]))
  {
    var candidates: map<int, seq<string>> := map[];
    var found: seq<int> := [];
    var i := lo;
    while i < hi
      invariant lo <= i && (i <= hi || i == lo)
      invariant lo < i ==> i <= d.pageCount
      invariant i == lo ==> found == []
      invariant forall p :: p in found <==> lo <= p < i && Matched(d, p, d.registry) != []
      invariant forall p :: p in found ==> p in candidates && candidates[p] == Matched(d, p, d.registry)
    {
      if i >= d.pageCount {
        return Failure(PageNotInDocument), [];
      }
      var matched := Matched(d, i, d.registry);
      if matched != [] {
        candidates := candidates[i := matched];
        found := found + [i];
      }
      i := i + 1;
    }
    order := SortedDistinct(found);
    MatchedAreShown(d, order, candidates);
    CandidatesMatch(d);
    r := Success(candidates);
  }

  lemma {:induction false} ParsedNext(d: Drawing, page: int, schemas: seq<string>, s: nat, fed0: seq<ScheduleItem>)
    requires s < |schemas|
    ensures fed0 + Parsed(d, page, schemas[..s + 1]) == fed0 + Parsed(d, page, schemas[..s]) + d.parse(page, schemas[s])
  {
    assert schemas[..s + 1][..s] == schemas[..s];
  }

  /** One page's tables, schema by schema, fed to the global `seen` set. */
  method AbsorbPage(d: Drawing, page: int, schemas: seq<string>, seen0: set<Key>, items0: seq<ScheduleItem>,
                    ghost fed0: seq<ScheduleItem>)
    returns (seen: set<Key>, items: seq<ScheduleItem>)
    requires items0 == FirstWins(fed0) && seen0 == Keys(fed0)
    ensures items == FirstWins(fed0 + Parsed(d, page, schemas))
    ensures seen == Keys(fed0 + Parsed(d, page, schemas))
  {
    seen, items := seen0, items0;
    ghost var fed := fed0;
    assert fed0 + Parsed(d, page, schemas[..0]) == fed0;
    for s := 0 to |schemas|
      invariant fed == fed0 + Parsed(d, page, schemas[..s])
      invariant items == FirstWins(fed) && seen == Keys(fed)
    {
      var parsed := d.parse(page, schemas[s]);
      seen, items := AbsorbList(parsed, seen, items, fed);
      ParsedNext(d, page, schemas, s, fed0);
      fed := fed + parsed;
    }
    assert schemas[..|schemas|] == schemas;
  }

  /** Both passes of the extractor. `scans` lists the pages whose tables were read. */
  method ExtractScheduleItems(d: Drawing, lo: int, hi: int)
    returns (r: Result<seq<ScheduleItem>, AccessError>, scans: seq<int>)
    requires 0 <= lo
    ensures lo < hi && hi > d.pageCount ==> r == Failure(PageNotInDocument)
    ensures lo >= hi || hi <= d.pageCount ==> r == Success(SerialItems(d, lo, hi))
    ensures r.Success? ==> Reads(r.value, d, PagesFrom(lo, hi))
    ensures r.Success? ==> Ascending(scans) && forall p :: p in scans <==> lo <= p < hi && IsCandidate(d, p)
  {
    var found, order := FindCandidates(d, lo, hi);
    if found.Failure? {
      return Failure(PageNotInDocument), [];
    }
    var items;
    items, scans := ScanTables(d, lo, hi, order, found.value);
    SerialReads(d, lo, hi);
    r := Success(items);
  }

  /** The candidate set `order` is exactly what the text pass found. */
  ghost predicate IsCandidateList(d: Drawing, lo: int, hi: int, order: seq<int>)
  {
    Ascending(order) && forall p :: p in order <==> lo <= p < hi && IsCandidate(d, p)
  }

  /** The table pass over the candidate pages, in page order. */
  method ScanTables(d: Drawing, lo: int, hi: int, order: seq<int>, candidates: map<int, seq<string>>)
    returns (items: seq<ScheduleItem>, scans: seq<int>)
    requires IsCandidateList(d, lo, hi, order)
    requires forall p :: p in order ==> p in candidates && candidates[p] == Matched(d, p, d.registry)
    ensures items == SerialItems(d, lo, hi) && scans == order
  {
    var seen: set<Key> := {};
    items, scans := [], [];
    ghost var fed: seq<ScheduleItem> := [];
    for k := 0 to |order|
      invariant fed == Stream(d, lo, Scanned(lo, order, k))
      invariant items == FirstWins(fed) && seen == Keys(fed)
      invariant scans == order[..k]
    {
      var page := order[k];
      assert page in order;
      scans := scans + [page];
      seen, items := AbsorbPage(d, page, candidates[page], seen, items, fed);
      PageScanned(d, lo, hi, order, k);
      fed := fed + PageYield(d, page);
    }
    AllScanned(d, lo, hi, order);
    assert order[..|order|] == order;
  }

  /** Where the table pass stands after k candidate pages. */
  ghost function Scanned(lo: int, order: seq<int>, k: nat): int
    requires k <= |order|
  {
    if k == 0 then lo else order[k - 1] + 1
  }

  lemma {:induction false} PageScanned(d: Drawing, lo: int, hi: int, order: seq<int>, k: nat)
    requires IsCandidateList(d, lo, hi, order) && k < |order|
    ensures Stream(d, lo, Scanned(lo, order, k + 1)) == Stream(d, lo, Scanned(lo, order, k)) + PageYield(d, order[k])
  {
    assert order[k] in order;
    ScannedInRange(d, lo, hi, order, k);
    ScannedInRange(d, lo, hi, order, k + 1);
    SkipTo(d, lo, hi, order, k, Scanned(lo, order, k), order[k]);
    StreamNext(d, lo, order[k]);
  }

  lemma {:induction false} AllScanned(d: Drawing, lo: int, hi: int, order: seq<int>)
    requires IsCandidateList(d, lo, hi, order)
    ensures Stream(d, lo, Scanned(lo, order, |order|)) == Stream(d, lo, hi)
  {
    if lo < hi {
      ScannedInRange(d, lo, hi, order, |order|);
      SkipTo(d, lo, hi, order, |order|, Scanned(lo, order, |order|), hi);
    } else {
      HeadIn(order);
    }
  }

  lemma {:induction false} ScannedInRange(d: Drawing, lo: int, hi: int, order: seq<int>, k: nat)
    requires IsCandidateList(d, lo, hi, order) && k <= |order| && (lo < hi || k > 0)
    ensures lo <= Scanned(lo, order, k) <= hi
  {
    if k > 0 {
      assert order[k - 1] in order;
    }
  }

  lemma {:induction false} StreamNext(d: Drawing, lo: int, page: int)
    requires lo <= page
    ensures Stream(d, lo, page + 1) == Stream(d, lo, page) + PageYield(d, page)
  {
  }

  /** From one candidate to the next, the page order does not grow. */
  lemma {:induction false} SkipTo(d: Drawing, lo: int, hi: int, order: seq<int>, k: nat, upTo: int, page: int)
    requires IsCandidateList(d, lo, hi, order) && k <= |order|
    requires lo <= upTo && upTo == if k == 0 then lo else order[k - 1] + 1
    requires page == if k < |order| then order[k] else hi
    requires upTo <= hi
    ensures upTo <= page && Stream(d, lo, page) == Stream(d, lo, upTo)
  {
    if k < |order| {
      assert order[k] in order;
    }
    forall p | upTo <= p < page ensures !IsCandidate(d, p) {
      NotBetween(order, k, p);
    }
    StreamGap(d, lo, upTo, page);
  }

  lemma {:induction false} NotBetween(order: seq<int>, k: nat, p: int)
    requires Ascending(order) && k <= |order|
    requires k > 0 ==> order[k - 1] < p
    requires k < |order| ==> p < order[k]
    ensures p !in order
  {
  }

  /** Pages that are no candidates yield nothing. */
  lemma {:induction false} StreamGap(d: Drawing, lo: int, upTo: int, page: int)
    requires lo <= upTo <= page
    requires forall p :: upTo <= p < page ==> !IsCandidate(d, p)
    ensures Stream(d, lo, page) == Stream(d, lo, upTo)
    decreases page - upTo
  {
    if upTo < page {
      StreamGap(d, lo, upTo, page - 1);
      assert !IsCandidate(d, page - 1);
      MatchedExactly(d, page - 1, d.registry);
      assert PageYield(d, page - 1) == [];
    }
  }

  // ---- fan-out preserves meaning ----

  lemma {:induction false} StreamSplit(d: Drawing, lo: int, mid: int, hi: int)
    requires lo <= mid <= hi
    ensures Stream(d, lo, hi) == Stream(d, lo, mid) + Stream(d, mid, hi)
    decreases hi - mid
  {
    if mid < hi {
      StreamSplit(d, lo, mid, hi - 1);
    }
  }

  /** One list per window: what its worker extracts on its own. */
  ghost function WindowPartials(d: Drawing, ws: seq<ShardWindow>): (parts: seq<seq<ScheduleItem>>)
    ensures |parts| == |ws|
    ensures forall k {:trigger parts[k]} :: 0 <= k < |ws| ==> parts[k] == SerialItems(d, ws[k].start, ws[k].end)
  {
    if ws == [] then []
    else WindowPartials(d, ws[..|ws| - 1]) + [SerialItems(d, ws[|ws| - 1].start, ws[|ws| - 1].end)]
  }

  /** The undeduplicated entries of the windows, in window order. */
  ghost function WindowStream(d: Drawing, ws: seq<ShardWindow>): (s: seq<ScheduleItem>)
  {
    if ws == [] then []
    else WindowStream(d, ws[..|ws| - 1]) + Stream(d, ws[|ws| - 1].start, ws[|ws| - 1].end)
  }

  /** Deduplicating inside the windows first is invisible after the reduce, for any windows. */
  lemma {:induction false} MergeForgetsWindows(d: Drawing, ws: seq<ShardWindow>)
    ensures FirstWins(Flatten(WindowPartials(d, ws))) == FirstWins(WindowStream(d, ws))
  {
    if ws != [] {
      var n := |ws| - 1;
      var front := ws[..n];
      MergeForgetsWindows(d, front);
      var last := Stream(d, ws[n].start, ws[n].end);
      var merged := Flatten(WindowPartials(d, front));
      var parts := WindowPartials(d, ws);
      assert parts == WindowPartials(d, front) + [FirstWins(last)];
      assert parts[..|parts| - 1] == WindowPartials(d, front);
      assert Flatten(WindowPartials(d, ws)) == merged + FirstWins(last);
      DedupSuffix(merged, last);
      DedupPrefix(merged, last);
      DedupPrefix(WindowStream(d, front), last);
    }
  }

  lemma {:induction false} WindowStreamPrefix(d: Drawing, ws: seq<ShardWindow>, lo: int, hi: int, n: nat)
    requires Tiles(ws, lo, hi) && 0 < n <= |ws|
    ensures lo < ws[n - 1].end && WindowStream(d, ws[..n]) == Stream(d, lo, ws[n - 1].end)
  {
    assert ws[..n][..n - 1] == ws[..n - 1];
    if n > 1 {
      WindowStreamPrefix(d, ws, lo, hi, n - 1);
      assert Adjacent(ws, n - 2);
      StreamSplit(d, lo, ws[n - 1].start, ws[n - 1].end);
    } else {
      assert WindowStream(d, ws[..0]) == [];
    }
  }

  /** Extracting each window of a tiling on its own and merging in window order gives the
      item list of the serial extractor over the whole range. */
  lemma {:induction false} FanOutIsSerial(d: Drawing, ws: seq<ShardWindow>, lo: int, hi: int)
    requires Tiles(ws, lo, hi)
    ensures FirstWins(Flatten(WindowPartials(d, ws))) == SerialItems(d, lo, hi)
  {
    MergeForgetsWindows(d, ws);
    WindowStreamPrefix(d, ws, lo, hi, |ws|);
    assert ws[..|ws|] == ws;
  }

  // ---- what dead windows cost ----

  /** Page p shows the title of a schema of the registry, and a marked row of its tables carries
      this schedule and mark. */
  ghost predicate Yields(d: Drawing, p: int, key: Key)
  {
    exists schema, it ::
      && schema in d.registry && d.matches(p, schema) && it in d.parse(p, schema)
      && it.mark != "" && it.schedule == key.schedule && it.mark == key.mark
  }

  ghost function Survivors(ws: seq<ShardWindow>, dead: set<nat>): (alive: seq<ShardWindow>)
  {
    if ws == [] then []
    else
      var w := ws[|ws| - 1];
      if w.index in dead then Survivors(ws[..|ws| - 1], dead) else Survivors(ws[..|ws| - 1], dead) + [w]
  }

  /** The entries of a page and where they stand. */
  lemma {:induction false} PageReads(d: Drawing, p: int)
    ensures var page, spots := PageYield(d, p), PageSpots(d, p, |d.registry|);
      && |page| == |spots|
      && (forall k :: 0 <= k < |spots| ==> IsSpot(d, {p}, spots[k]) && page[k] == EntryAt(d, spots[k]))
      && (forall s :: IsSpot(d, {p}, s) ==> s in spots)
  {
    var spots := PageSpots(d, p, |d.registry|);
    PageSpotsAre(d, p, |d.registry|);
    PageEntries(d, p, |d.registry|);
    assert d.registry[..|d.registry|] == d.registry;
    forall k | 0 <= k < |spots| ensures IsSpot(d, {p}, spots[k]) { assert spots[k] in spots; }
  }

  lemma {:induction false} YieldedIsKey(d: Drawing, p: int, key: Key, schema: string, it: ScheduleItem)
    requires schema in d.registry && d.matches(p, schema) && it in d.parse(p, schema)
    requires it.mark != "" && it.schedule == key.schedule && it.mark == key.mark
    ensures key in Keys(PageYield(d, p))
  {
    PageReads(d, p);
    var page, spots := PageYield(d, p), PageSpots(d, p, |d.registry|);
    var j :| 0 <= j < |d.registry| && d.registry[j] == schema;
    var row :| 0 <= row < |d.parse(p, schema)| && d.parse(p, schema)[row] == it;
    assert IsSpot(d, {p}, Spot(p, j, row));
    var k :| 0 <= k < |spots| && spots[k] == Spot(p, j, row);
    InKeys(page, key);
    assert page[k] == it;
  }

  lemma {:induction false} YieldsIsKey(d: Drawing, p: int, key: Key)
    ensures Yields(d, p, key) <==> key in Keys(PageYield(d, p))
  {
    if Yields(d, p, key) {
      var schema, it :| schema in d.registry && d.matches(p, schema) && it in d.parse(p, schema)
        && it.mark != "" && it.schedule == key.schedule && it.mark == key.mark;
      YieldedIsKey(d, p, key, schema, it);
    }
    if key in Keys(PageYield(d, p)) {
      PageReads(d, p);
      InKeys(PageYield(d, p), key);
      var page, spots := PageYield(d, p), PageSpots(d, p, |d.registry|);
      var k :| 0 <= k < |page| && page[k].mark != "" && KeyOf(page[k]) == key;
      assert d.registry[spots[k].schema] in d.registry && page[k] in d.parse(p, d.registry[spots[k].schema]);
    }
  }

  /** Some page of [lo, hi) yields the key. */
  ghost predicate YieldedIn(d: Drawing, lo: int, hi: int, key: Key)
  {
    exists p :: lo <= p < hi && Yields(d, p, key)
  }

  lemma {:induction false} YieldedNext(d: Drawing, lo: int, hi: int, key: Key)
    requires lo < hi
    ensures YieldedIn(d, lo, hi, key) <==> YieldedIn(d, lo, hi - 1, key) || Yields(d, hi - 1, key)
  {
  }

  lemma {:induction false} StreamKeys(d: Drawing, lo: int, hi: int, key: Key)
    ensures key in Keys(Stream(d, lo, hi)) <==> YieldedIn(d, lo, hi, key)
    decreases hi - lo
  {
    if lo < hi {
      StreamKeys(d, lo, hi - 1, key);
      KeysOfConcat(Stream(d, lo, hi - 1), PageYield(d, hi - 1));
      YieldsIsKey(d, hi - 1, key);
      YieldedNext(d, lo, hi, key);
    }
  }

  /** Page p belongs to a window that is still alive. */
  ghost predicate InLiveWindow(ws: seq<ShardWindow>, dead: set<nat>, p: int)
  {
    exists k :: 0 <= k < |ws| && ws[k].index !in dead && ws[k].start <= p < ws[k].end
  }

  /** Page p belongs to a dead window. */
  ghost predicate InDeadWindow(ws: seq<ShardWindow>, dead: set<nat>, p: int)
  {
    exists k :: 0 <= k < |ws| && ws[k].index in dead && ws[k].start <= p < ws[k].end
  }

  /** Some page of a live window yields the key. */
  ghost predicate Survives(d: Drawing, ws: seq<ShardWindow>, dead: set<nat>, key: Key)
  {
    exists p :: InLiveWindow(ws, dead, p) && Yields(d, p, key)
  }

  lemma {:induction false} LiveSnoc(ws: seq<ShardWindow>, w: ShardWindow, dead: set<nat>, p: int)
    ensures InLiveWindow(ws + [w], dead, p)
       <==> InLiveWindow(ws, dead, p) || (w.index !in dead && w.start <= p < w.end)
  {
    var all := ws + [w];
    if InLiveWindow(ws, dead, p) {
      var k :| 0 <= k < |ws| && ws[k].index !in dead && ws[k].start <= p < ws[k].end;
      assert all[k] == ws[k];
    }
    if w.index !in dead && w.start <= p < w.end {
      assert all[|ws|] == w;
    }
    if InLiveWindow(all, dead, p) {
      var k :| 0 <= k < |all| && all[k].index !in dead && all[k].start <= p < all[k].end;
      assert k < |ws| ==> ws[k] == all[k];
    }
  }

  lemma {:induction false} SurvivesSnoc(d: Drawing, ws: seq<ShardWindow>, w: ShardWindow, dead: set<nat>, key: Key)
    ensures Survives(d, ws + [w], dead, key)
       <==> Survives(d, ws, dead, key) || (w.index !in dead && YieldedIn(d, w.start, w.end, key))
  {
    forall p
      ensures InLiveWindow(ws + [w], dead, p)
         <==> InLiveWindow(ws, dead, p) || (w.index !in dead && w.start <= p < w.end)
    {
      LiveSnoc(ws, w, dead, p);
    }
  }

  lemma {:induction false} SurvivorKeys(d: Drawing, ws: seq<ShardWindow>, dead: set<nat>, key: Key)
    ensures key in Keys(WindowStream(d, Survivors(ws, dead))) <==> Survives(d, ws, dead, key)
  {
    if ws != [] {
      var n := |ws| - 1;
      var front, w := ws[..n], ws[n];
      SurvivorKeys(d, front, dead, key);
      SnocSelf(ws);
      SurvivesSnoc(d, front, w, dead, key);
      if w.index !in dead {
        var alive := Survivors(front, dead);
        assert (alive + [w])[..|alive|] == alive;
        StreamKeys(d, w.start, w.end, key);
        KeysOfConcat(WindowStream(d, alive), Stream(d, w.start, w.end));
      } else {
        assert Survivors(ws, dead) == Survivors(front, dead);
      }
    }
  }

  /** Degradation loses exactly what it says: a key is missing from the merged list iff every
      page of the job's range that yields it lies in a dead window. */
  lemma {:induction false} DegradedKeys(d: Drawing, ws: seq<ShardWindow>, lo: int, hi: int, dead: set<nat>, key: Key)
    requires Tiles(ws, lo, hi)
    ensures key !in Keys(FirstWins(Flatten(WindowPartials(d, Survivors(ws, dead)))))
       <==> forall p :: lo <= p < hi && Yields(d, p, key) ==> InDeadWindow(ws, dead, p)
  {
    MergeForgetsWindows(d, Survivors(ws, dead));
    FirstWinsKeys(WindowStream(d, Survivors(ws, dead)));
    SurvivorKeys(d, ws, dead, key);
    forall p
      ensures InLiveWindow(ws, dead, p) <==> lo <= p < hi && !InDeadWindow(ws, dead, p)
    {
      OneWindowPerPage(ws, lo, hi, dead, p);
    }
  }

  lemma {:induction false} OneWindowPerPage(ws: seq<ShardWindow>, lo: int, hi: int, dead: set<nat>, p: int)
    requires Tiles(ws, lo, hi)
    ensures InLiveWindow(ws, dead, p) <==> lo <= p < hi && !InDeadWindow(ws, dead, p)
  {
    if lo <= p < hi {
      var k := WindowOf(ws, lo, hi, p);
      forall j | 0 <= j < |ws| && ws[j].start <= p < ws[j].end ensures j == k {
        if j < k { EndsBefore(ws, lo, hi, j, k); }
        if k < j { EndsBefore(ws, lo, hi, k, j); }
      }
    }
    if k :| 0 <= k < |ws| && ws[k].index !in dead && ws[k].start <= p < ws[k].end {
      if k > 0 { EndsBefore(ws, lo, hi, 0, k); }
      if k < |ws| - 1 { EndsBefore(ws, lo, hi, k, |ws| - 1); }
    }
  }

  lemma {:induction false} EndsBefore(ws: seq<ShardWindow>, lo: int, hi: int, j: nat, k: nat)
    requires Tiles(ws, lo, hi) && j < k < |ws|
    ensures ws[j].end <= ws[k].start
  {
    assert Adjacent(ws, k - 1);
    if j < k - 1 {
      EndsBefore(ws, lo, hi, j, k - 1);
    }
  }

  lemma {:induction false} WindowOf(ws: seq<ShardWindow>, lo: int, hi: int, p: int) returns (k: nat)
    requires Tiles(ws, lo, hi) && lo <= p < hi
    ensures k < |ws| && ws[k].start <= p < ws[k].end
  {
    k := 0;
    while ws[k].end <= p
      invariant k < |ws| && ws[k].start <= p
      decreases |ws| - k
    {
      assert Adjacent(ws, k);
      k := k + 1;
    }
  }

  // ---- what a degraded job reads ----

  /** The pages of [lo, hi) outside the dead windows. */
  ghost function LivePages(ws: seq<ShardWindow>, lo: int, hi: int, dead: set<nat>): (pages: set<int>)
  {
    set p | p in PagesFrom(lo, hi) && !InDeadWindow(ws, dead, p)
  }

  /** The spots of the live windows, in window order. */
  ghost function LiveSpots(d: Drawing, ws: seq<ShardWindow>, dead: set<nat>): (spots: seq<Spot>)
  {
    if ws == [] then []
    else
      var w, front := ws[|ws| - 1], LiveSpots(d, ws[..|ws| - 1], dead);
      if w.index in dead then front else front + RangeSpots(d, w.start, w.end)
  }

  ghost predicate WindowsApart(ws: seq<ShardWindow>) { forall i, j :: 0 <= i < j < |ws| ==> ws[i].end <= ws[j].start }

  lemma {:induction false} IsLiveSpot(d: Drawing, ws: seq<ShardWindow>, dead: set<nat>, s: Spot)
    ensures s in LiveSpots(d, ws, dead) <==> IsSpot(d, {s.page}, s) && InLiveWindow(ws, dead, s.page)
  {
    if ws != [] {
      var n := |ws| - 1;
      IsLiveSpot(d, ws[..n], dead, s);
      SnocSelf(ws);
      LiveSnoc(ws[..n], ws[n], dead, s.page);
      RangeSpotsAre(d, ws[n].start, ws[n].end);
    }
  }

  lemma {:induction false} LiveIsEarlier(d: Drawing, ws: seq<ShardWindow>, dead: set<nat>, s: Spot, t: Spot)
    requires WindowsApart(ws) && ws != []
    requires s in LiveSpots(d, ws[..|ws| - 1], dead) && t.page >= ws[|ws| - 1].start
    ensures Earlier(s, t)
  {
    var n := |ws| - 1;
    IsLiveSpot(d, ws[..n], dead, s);
    var k :| 0 <= k < n && ws[..n][k].index !in dead && ws[..n][k].start <= s.page < ws[..n][k].end;
    assert ws[k].end <= ws[n].start;
  }

  lemma {:induction false} LiveOrdered(d: Drawing, ws: seq<ShardWindow>, dead: set<nat>)
    requires WindowsApart(ws)
    ensures InOrder(LiveSpots(d, ws, dead))
  {
    if ws != [] {
      var n := |ws| - 1;
      LiveOrdered(d, ws[..n], dead);
      var front, last := LiveSpots(d, ws[..n], dead), RangeSpots(d, ws[n].start, ws[n].end);
      RangeSpotsAre(d, ws[n].start, ws[n].end);
      forall s, t | s in front && t in last ensures Earlier(s, t) { LiveIsEarlier(d, ws, dead, s, t); }
      OrderedConcat(front, last);
    }
  }

  lemma {:induction false} LiveEntries(d: Drawing, ws: seq<ShardWindow>, dead: set<nat>)
    ensures EntriesAre(d, LiveSpots(d, ws, dead), WindowStream(d, Survivors(ws, dead)))
  {
    if ws != [] {
      var n := |ws| - 1;
      LiveEntries(d, ws[..n], dead);
      if ws[n].index !in dead {
        RangeEntries(d, ws[n].start, ws[n].end);
        var alive := Survivors(ws[..n], dead);
        assert (alive + [ws[n]])[..|alive|] == alive;
      }
    }
  }

  /** What is merged when some windows are dead, said of the tables alone: exactly the first
      marked entry of every (schedule, mark) on the pages outside the dead windows. */
  lemma {:induction false} DegradedReads(d: Drawing, ws: seq<ShardWindow>, lo: int, hi: int, dead: set<nat>)
    requires Tiles(ws, lo, hi)
    ensures Reads(FirstWins(Flatten(WindowPartials(d, Survivors(ws, dead)))), d, LivePages(ws, lo, hi, dead))
  {
    forall i, j | 0 <= i < j < |ws| ensures ws[i].end <= ws[j].start { EndsBefore(ws, lo, hi, i, j); }
    LiveOrdered(d, ws, dead);
    LiveEntries(d, ws, dead);
    MergeForgetsWindows(d, Survivors(ws, dead));
    var spots, pages := LiveSpots(d, ws, dead), LivePages(ws, lo, hi, dead);
    forall s ensures s in spots <==> IsSpot(d, pages, s) {
      IsLiveSpot(d, ws, dead, s);
      OneWindowPerPage(ws, lo, hi, dead, s.page);
    }
    SpotsEnumerate(spots, WindowStream(d, Survivors(ws, dead)), d, pages);
    FirstsAreRead(spots, WindowStream(d, Survivors(ws, dead)), d, pages);
  }
}
