/** The artifact's rollups, the summary's flags and the client's reconciliation, which must
    agree with the queries (src/takeoff/quantity_schedules.py,
    src/takeoff/build_schedule_items.py, service/api/query.py, src/takeoff_agent/reconcile.py). */
module Rollups {
  import opened Sequences
  import opened Extraction
  import opened Dedup
  import opened Planner
  import opened AreaHarvest
  import opened QueryApi
  import Ingestion

  // ---- rollups ----

  datatype Summary = Summary(totalItems: nat, bySchedule: map<string, nat>, byBasis: map<Basis, nat>,
                             knownQuantity: real, countPending: nat)

  function CountWhere(items: seq<ScheduleItem>, f: ItemFilter): (n: nat)
  {
    if items == [] then 0
    else CountWhere(items[..|items| - 1], f) + if Passes(f, items[|items| - 1]) then 1 else 0
  }

  function KnownQuantity(items: seq<ScheduleItem>): (q: real)
  {
    if items == [] then 0.0
    else
      var it := items[|items| - 1];
      KnownQuantity(items[..|items| - 1]) + if it.quantity.Some? then it.quantity.value else 0.0
  }

  function OfSchedule(s: string): ItemFilter { NO_FILTER.(schedule := Some(s)) }

  function OfBasis(b: Basis): ItemFilter { NO_FILTER.(basis := Some(b)) }

  ghost predicate CountsSchedules(m: map<string, nat>, items: seq<ScheduleItem>)
  {
    forall s :: CountWhere(items, OfSchedule(s)) == if s in m then m[s] else 0
  }

  ghost predicate CountsBases(m: map<Basis, nat>, items: seq<ScheduleItem>)
  {
    forall b :: CountWhere(items, OfBasis(b)) == if b in m then m[b] else 0
  }

  /** The rollups of an item list; the quantity is rounded by the given rounding. */
  ghost predicate Summarizes(s: Summary, items: seq<ScheduleItem>, round: Rounding)
  {
    && s.totalItems == |items|
    && CountsSchedules(s.bySchedule, items) && CountsBases(s.byBasis, items)
    && s.knownQuantity == round(KnownQuantity(items))
    && s.countPending == CountWhere(items, OfBasis(UnknownPlanCount))
  }

  method Summarize(items: seq<ScheduleItem>, round: Rounding) returns (s: Summary)
    ensures Summarizes(s, items, round)
  {
    var bySchedule: map<string, nat>, byBasis: map<Basis, nat>, known := map[], map[], 0.0;
    for k := 0 to |items|
      invariant CountsSchedules(bySchedule, items[..k]) && CountsBases(byBasis, items[..k])
      invariant known == KnownQuantity(items[..k])
    {
      var it := items[k];
      assert items[..k + 1][..k] == items[..k];
      bySchedule := bySchedule[it.schedule := 1 + if it.schedule in bySchedule then bySchedule[it.schedule] else 0];
      byBasis := byBasis[it.basis := 1 + if it.basis in byBasis then byBasis[it.basis] else 0];
      known := known + if it.quantity.Some? then it.quantity.value else 0.0;
    }
    assert items[..|items|] == items;
    s := Summary(|items|, bySchedule, byBasis, round(known),
                 if UnknownPlanCount in byBasis then byBasis[UnknownPlanCount] else 0);
  }

  lemma {:induction false} WantedCount(jobId: nat, items: seq<ScheduleItem>, f: ItemFilter)
    ensures |Wanted(jobId, items, ItemsWhere(f))| == CountWhere(items, f)
  {
    if items != [] {
      WantedCount(jobId, items[..|items| - 1], f);
    }
  }

  /** The self-consistency invariant: every rollup of the summary is the total a query with
      that filter reports. */
  lemma {:induction false} SummaryAgreesWithQueries(rows: seq<Row<ScheduleItem>>, jobId: nat, items: seq<ScheduleItem>,
                                                    s: Summary, round: Rounding)
    requires Holds(rows, jobId, items) && Summarizes(s, items, round)
    ensures s.totalItems == |Select(rows, jobId, ItemsWhere(NO_FILTER))|
    ensures forall name :: name in s.bySchedule ==>
      s.bySchedule[name] == |Select(rows, jobId, ItemsWhere(OfSchedule(name)))|
    ensures forall name :: name !in s.bySchedule ==> Select(rows, jobId, ItemsWhere(OfSchedule(name))) == []
    ensures forall b :: b in s.byBasis ==> s.byBasis[b] == |Select(rows, jobId, ItemsWhere(OfBasis(b)))|
    ensures s.countPending == |Select(rows, jobId, ItemsWhere(OfBasis(UnknownPlanCount)))|
  {
    forall f: ItemFilter ensures |Select(rows, jobId, ItemsWhere(f))| == CountWhere(items, f) {
      SelectionIsArtifactOrder(rows, jobId, items, ItemsWhere(f));
      WantedCount(jobId, items, f);
    }
    CountAllItems(items);
  }

  lemma {:induction false} CountAllItems(items: seq<ScheduleItem>)
    ensures CountWhere(items, NO_FILTER) == |items|
  {
    if items != [] {
      CountAllItems(items[..|items| - 1]);
    }
  }

  // ---- the summary's flags ----

  /** The room marks of the finish schedule, as the builder collects them. */
  function FinishRooms(items: seq<ScheduleItem>): (rooms: set<string>)
  {
    set it | it in items && it.schedule == "finish" :: it.mark
  }

  function AreaRooms(areas: seq<RoomArea>): (rooms: set<string>)
  {
    set a | a in areas :: a.room
  }

  // ---- the fixture counts ----

  datatype SheetCount = SheetCount(page: nat, count: nat)

  /** One symbol's candidate total, and the sheets it was counted on, in counting order. */
  datatype SymbolCounts = SymbolCounts(candidateTotal: nat, sheets: seq<SheetCount>)

  datatype CountSummary = CountSummary(
    symbolsCounted: nat, instanceSheets: seq<int>, bySymbol: map<string, SymbolCounts>)

  function TotalOf(counts: seq<FixtureCount>, symbol: string): (n: nat)
  {
    if counts == [] then 0
    else
      var c := counts[|counts| - 1];
      TotalOf(counts[..|counts| - 1], symbol) + if c.symbol == symbol then c.count else 0
  }

  function SheetsOf(counts: seq<FixtureCount>, symbol: string): (sheets: seq<SheetCount>)
  {
    if counts == [] then []
    else
      var c := counts[|counts| - 1];
      var front := SheetsOf(counts[..|counts| - 1], symbol);
      if c.symbol == symbol then front + [SheetCount(c.sheetPage, c.count)] else front
  }

  predicate Counted(counts: seq<FixtureCount>, symbol: string)
  {
    exists k :: 0 <= k < |counts| && counts[k].symbol == symbol
  }

  ghost predicate GroupsSymbols(m: map<string, SymbolCounts>, counts: seq<FixtureCount>)
  {
    && (forall symbol :: symbol in m <==> Counted(counts, symbol))
    && (forall symbol :: symbol in m ==> m[symbol] == SymbolCounts(TotalOf(counts, symbol), SheetsOf(counts, symbol)))
  }

  ghost predicate SummarizesCounts(s: CountSummary, counts: seq<FixtureCount>)
  {
    && GroupsSymbols(s.bySymbol, counts) && s.symbolsCounted == |s.bySymbol|
    && Ascending(s.instanceSheets)
    && forall page :: page in s.instanceSheets <==> exists k :: 0 <= k < |counts| && counts[k].sheetPage == page
  }

  lemma {:induction false} NotCounted(counts: seq<FixtureCount>, symbol: string)
    requires !Counted(counts, symbol)
    ensures TotalOf(counts, symbol) == 0 && SheetsOf(counts, symbol) == []
  {
    if counts != [] {
      var n := |counts| - 1;
      assert !Counted(counts[..n], symbol) by {
        assert forall k :: 0 <= k < n ==> counts[..n][k] == counts[k];
      }
      NotCounted(counts[..n], symbol);
    }
  }

  lemma {:induction false} GroupNext(m: map<string, SymbolCounts>, counts: seq<FixtureCount>, k: nat)
    requires k < |counts| && GroupsSymbols(m, counts[..k])
    ensures var c := counts[k];
      var was := if c.symbol in m then m[c.symbol] else SymbolCounts(0, []);
      GroupsSymbols(m[c.symbol := SymbolCounts(was.candidateTotal + c.count,
                                               was.sheets + [SheetCount(c.sheetPage, c.count)])],
                    counts[..k + 1])
  {
    var c, next := counts[k], counts[..k + 1];
    assert next[..k] == counts[..k] && next[k] == c;
    if c.symbol !in m {
      NotCounted(counts[..k], c.symbol);
    }
    forall symbol ensures Counted(next, symbol) <==> Counted(counts[..k], symbol) || symbol == c.symbol {
      if i :| 0 <= i < k && counts[..k][i].symbol == symbol { assert next[i].symbol == symbol; }
      if i :| 0 <= i < |next| && next[i].symbol == symbol { assert i < k ==> counts[..k][i].symbol == symbol; }
    }
  }

  method SummarizeCounts(counts: seq<FixtureCount>) returns (s: CountSummary)
    ensures SummarizesCounts(s, counts)
  {
    var bySymbol: map<string, SymbolCounts>, pages: seq<int> := map[], [];
    for k := 0 to |counts|
      invariant GroupsSymbols(bySymbol, counts[..k])
      invariant |pages| == k && forall i :: 0 <= i < k ==> pages[i] == counts[i].sheetPage
    {
      var c := counts[k];
      GroupNext(bySymbol, counts, k);
      var was := if c.symbol in bySymbol then bySymbol[c.symbol] else SymbolCounts(0, []);
      bySymbol := bySymbol[c.symbol := SymbolCounts(was.candidateTotal + c.count,
                                                    was.sheets + [SheetCount(c.sheetPage, c.count)])];
      pages := pages + [c.sheetPage];
    }
    assert counts[..|counts|] == counts;
    forall page ensures page in pages <==> exists k :: 0 <= k < |counts| && counts[k].sheetPage == page {
      if k :| 0 <= k < |counts| && counts[k].sheetPage == page { assert pages[k] == page; }
    }
    s := CountSummary(|bySymbol|, SortedDistinct(pages), bySymbol);
  }

  function RowTotal(rows: seq<Row<FixtureCount>>): (n: nat)
  {
    if rows == [] then 0 else RowTotal(rows[..|rows| - 1]) + rows[|rows| - 1].item.count
  }

  lemma {:induction false} WantedSymbol(jobId: nat, counts: seq<FixtureCount>, symbol: string)
    ensures var rows := Wanted(jobId, counts, CountsWhere(Some(symbol), None, None));
      RowTotal(rows) == TotalOf(counts, symbol) && |rows| == |SheetsOf(counts, symbol)|
  {
    if counts != [] {
      var n := |counts| - 1;
      WantedSymbol(jobId, counts[..n], symbol);
      var front := Wanted(jobId, counts[..n], CountsWhere(Some(symbol), None, None));
      assert (front + [Row(jobId, n, counts[n])])[..|front|] == front;
    }
  }

  /** The per-symbol summary agrees with a query on that symbol: it names exactly the symbols
      with rows, their total, and one sheet entry per row. */
  lemma {:induction false} CountsAgreeWithQueries(rows: seq<Row<FixtureCount>>, jobId: nat, counts: seq<FixtureCount>,
                                                  s: CountSummary, symbol: string)
    requires Holds(rows, jobId, counts) && SummarizesCounts(s, counts)
    ensures var selected := Select(rows, jobId, CountsWhere(Some(symbol), None, None));
      && (symbol in s.bySymbol <==> selected != [])
      && (symbol in s.bySymbol ==>
            s.bySymbol[symbol].candidateTotal == RowTotal(selected) && |s.bySymbol[symbol].sheets| == |selected|)
  {
    var passes := CountsWhere(Some(symbol), None, None);
    SelectionIsArtifactOrder(rows, jobId, counts, passes);
    WantedSymbol(jobId, counts, symbol);
    var selected := Select(rows, jobId, passes);
    if k :| 0 <= k < |counts| && counts[k].symbol == symbol {
      assert Row(jobId, k, counts[k]) in selected;
    }
    if selected != [] {
      assert selected[0] in selected;
      assert counts[selected[0].ordinal].symbol == symbol;
    }
  }

  // ---- the assembled artifact ----

  datatype AreaCoverage = AreaCoverage(finishRooms: nat, roomsWithArea: nat, coverage: real)

  /** The report with its summary, its area coverage and its fixture-count summary. */
  datatype Artifact = Artifact(report: Report, summary: Summary, area: AreaCoverage, counts: CountSummary)

  /** How many finish rooms got an area, and their rounded share (0 without finish rooms). */
  ghost predicate Covers(c: AreaCoverage, report: Report, round: Rounding)
  {
    var rooms := FinishRooms(report.items);
    && c.finishRooms == |rooms| && c.roomsWithArea == |AreaRooms(report.areas) * rooms|
    && c.coverage == if c.finishRooms == 0 then 0.0 else round(c.roomsWithArea as real / c.finishRooms as real)
  }

  ghost predicate Assembled(a: Artifact, report: Report, round: Rounding)
  {
    && a.report == report && Summarizes(a.summary, report.items, round)
    && Covers(a.area, report, round) && SummarizesCounts(a.counts, report.counts)
  }

  /** Never more covered rooms than finish rooms; the share is 1 only if all are covered. */
  lemma {:induction false} CoverageIsShare(c: AreaCoverage, report: Report, round: Rounding)
    requires Covers(c, report, round)
    ensures c.roomsWithArea <= c.finishRooms
    ensures c.roomsWithArea == c.finishRooms <==> FinishRooms(report.items) <= AreaRooms(report.areas)
  {
    var rooms, both := FinishRooms(report.items), AreaRooms(report.areas) * FinishRooms(report.items);
    assert rooms == both + (rooms - both);
    if |both| == |rooms| {
      assert rooms - both == {};
    }
    if rooms <= AreaRooms(report.areas) {
      assert both == rooms;
    }
  }

  method Assemble(report: Report, round: Rounding) returns (a: Artifact)
    ensures Assembled(a, report, round)
  {
    var summary := Summarize(report.items, round);
    var counts := SummarizeCounts(report.counts);
    var rooms := FinishRooms(report.items);
    var n, covered := |rooms|, |AreaRooms(report.areas) * rooms|;
    a := Artifact(report, summary,
                  AreaCoverage(n, covered, if n == 0 then 0.0 else round(covered as real / n as real)), counts);
  }

  // ---- the summary endpoint ----

  datatype Flags = Flags(countPending: nat, unverified: nat, roomsWithoutArea: int)

  datatype SummaryOut = SummaryOut(
    incomplete: bool, failedShards: seq<ShardWindow>, schemaVersion: nat, summary: Summary, area: AreaCoverage,
    counts: CountSummary, flags: Flags)

  /** get_summary: the artifact's own rollups, the manifest's failed shards, and flags of which
      one is counted over the rows. */
  method GetSummary(job: Option<JobInfo>, a: Artifact, counts: seq<Row<FixtureCount>>, jobId: nat)
    returns (r: Result<SummaryOut, ApiError>)
    ensures Gate(job).Some? ==> r == Failure(Gate(job).value)
    ensures Gate(job).None? ==>
      var flags := Flags(a.summary.countPending, |Select(counts, jobId, CountsWhere(None, Some(false), None))|,
                         a.area.finishRooms - a.area.roomsWithArea);
      r == Success(SummaryOut(job.value.incomplete, job.value.failedShards, job.value.schemaVersion, a.summary, a.area,
                              a.counts, flags))
  {
    if job.None? {
      return Failure(JobNotFound);
    }
    if job.value.status != Ingestion.Succeeded {
      return Failure(JobNotReady);
    }
    var unverified := |Select(counts, jobId, CountsWhere(None, Some(false), None))|;
    var flags := Flags(a.summary.countPending, unverified, a.area.finishRooms - a.area.roomsWithArea);
    r := Success(SummaryOut(job.value.incomplete, job.value.failedShards, job.value.schemaVersion, a.summary, a.area,
                            a.counts, flags));
  }

  // ---- the client's reconciliation ----

  /** The finish rooms the client sees in the fetched rows. */
  function FetchedFinishRooms(rows: seq<Row<ScheduleItem>>): (rooms: set<string>)
  {
    set r | r in rows && r.item.schedule == "finish" && r.item.mark != "" :: r.item.mark
  }

  function FetchedAreaRooms(rows: seq<Row<RoomArea>>): (rooms: set<string>)
  {
    set r | r in rows :: r.item.room
  }

  function FetchedUnverified(rows: seq<Row<FixtureCount>>): (n: nat)
  {
    if rows == [] then 0
    else FetchedUnverified(rows[..|rows| - 1]) + if rows[|rows| - 1].item.verified then 0 else 1
  }

  lemma {:induction false} SameFinishRooms(jobId: nat, items: seq<ScheduleItem>)
    requires forall it :: it in items ==> it.mark != ""
    ensures FetchedFinishRooms(Project(jobId, items)) == FinishRooms(items)
  {
    var rows := Project(jobId, items);
    forall mark | mark in FetchedFinishRooms(rows) ensures mark in FinishRooms(items) {
      var r :| r in rows && r.item.schedule == "finish" && r.item.mark == mark;
      assert r.item in items;
    }
    forall mark | mark in FinishRooms(items) ensures mark in FetchedFinishRooms(rows) {
      var it :| it in items && it.schedule == "finish" && it.mark == mark;
      var k :| 0 <= k < |items| && items[k] == it;
      assert rows[k] in rows && rows[k].item == it;
    }
  }

  lemma {:induction false} SameAreaRooms(jobId: nat, areas: seq<RoomArea>)
    ensures FetchedAreaRooms(Project(jobId, areas)) == AreaRooms(areas)
  {
    var rows := Project(jobId, areas);
    forall room | room in FetchedAreaRooms(rows) ensures room in AreaRooms(areas) {
      var r :| r in rows && r.item.room == room;
      assert r.item in areas;
    }
    forall room | room in AreaRooms(areas) ensures room in FetchedAreaRooms(rows) {
      var a :| a in areas && a.room == room;
      var k :| 0 <= k < |areas| && areas[k] == a;
      assert rows[k] in rows && rows[k].item == a;
    }
  }

  lemma {:induction false} SameUnverified(jobId: nat, counts: seq<FixtureCount>)
    ensures FetchedUnverified(Project(jobId, counts)) == |Wanted(jobId, counts, CountsWhere(None, Some(false), None))|
  {
    if counts != [] {
      var n := |counts| - 1;
      SameUnverified(jobId, counts[..n]);
      assert Project(jobId, counts)[..n] == Project(jobId, counts[..n]);
    }
  }

  /** Every flag of the summary equals what the client works out from the fetched rows; the
      area gap because the extractor keeps no item without a mark. */
  lemma {:induction false} FlagsAgree(jobId: nat, fed: seq<ScheduleItem>, report: Report, a: Artifact,
                                      counts: seq<Row<FixtureCount>>, round: Rounding)
    requires report.items == FirstWins(fed) && Assembled(a, report, round) && Holds(counts, jobId, report.counts)
    ensures a.area.finishRooms - a.area.roomsWithArea
         == |FetchedFinishRooms(Project(jobId, report.items)) - FetchedAreaRooms(Project(jobId, report.areas))|
    ensures |Select(counts, jobId, CountsWhere(None, Some(false), None))|
         == FetchedUnverified(Project(jobId, report.counts))
  {
    FirstWinsDistinct(fed);
    SameFinishRooms(jobId, report.items);
    SameAreaRooms(jobId, report.areas);
    var rooms, areaRooms := FinishRooms(report.items), AreaRooms(report.areas);
    assert rooms == (rooms - areaRooms) + (areaRooms * rooms);
    SelectionIsArtifactOrder(counts, jobId, report.counts, CountsWhere(None, Some(false), None));
    SameUnverified(jobId, report.counts);
  }
}
