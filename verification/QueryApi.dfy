/** Artifact, rows and queries: the projection of a report into three entity tables, the
    filtered and paged reads, and the client's page loop (service/takeoff/projection.py,
    service/api/query.py, src/takeoff_agent/reconcile.py). */
module QueryApi {
  import opened Sequences
  import opened Extraction
  import opened Dedup
  import opened Planner
  import opened AreaHarvest
  import Ingestion

  datatype FixtureCount = FixtureCount(symbol: string, sheetPage: nat, count: nat, confidence: real, verified: bool)

  /** The entity lists of a report. */
  datatype Report = Report(items: seq<ScheduleItem>, areas: seq<RoomArea>, counts: seq<FixtureCount>)

  /** A row of one of the three entity tables. */
  datatype Row<+T> = Row(jobId: nat, ordinal: nat, item: T)

  // ---- filters ----

  datatype ItemFilter = ItemFilter(
    schedule: Option<string>, mark: Option<string>, basis: Option<Basis>, shape: Option<Shape>)

  const NO_FILTER: ItemFilter := ItemFilter(None, None, None, None)

  predicate Passes(f: ItemFilter, it: ScheduleItem)
  {
    && (f.schedule.Some? ==> it.schedule == f.schedule.value)
    && (f.mark.Some? ==> it.mark == f.mark.value)
    && (f.basis.Some? ==> it.basis == f.basis.value)
    && (f.shape.Some? ==> it.shape == f.shape.value)
  }

  /** The WHERE clause of get_items. */
  function ItemsWhere(f: ItemFilter): ScheduleItem -> bool { it => Passes(f, it) }

  /** The WHERE clause of get_fixture_counts. */
  function CountsWhere(symbol: Option<string>, verified: Option<bool>,
                       minConfidence: Option<real>): FixtureCount -> bool
  {
    (c: FixtureCount) =>
      && (symbol.Some? ==> c.symbol == symbol.value)
      && (verified.Some? ==> c.verified == verified.value)
      && (minConfidence.Some? ==> c.confidence >= minConfidence.value)
  }

  /** The WHERE clause of get_room_areas. */
  function AreasWhere(room: Option<string>, minConfidence: Option<real>): RoomArea -> bool
  {
    (a: RoomArea) =>
      (room.Some? ==> a.room == room.value) && (minConfidence.Some? ==> a.confidence >= minConfidence.value)
  }

  predicate Everything<T>(item: T) { true }

  // ---- projection ----

  /** enumerate(report["items"]) as rows. */
  function Project<T(!new)>(jobId: nat, items: seq<T>): (rows: seq<Row<T>>)
    ensures |rows| == |items|
    ensures forall k :: 0 <= k < |items| ==> rows[k] == Row(jobId, k, items[k])
  {
    seq(|items|, k requires 0 <= k < |items| => Row(jobId, k, items[k]))
  }

  function OtherJobs<T(!new)>(rows: seq<Row<T>>, jobId: nat): (rest: seq<Row<T>>)
    ensures forall r :: r in rest <==> r in rows && r.jobId != jobId
  {
    if rows == [] then []
    else
      var last := rows[|rows| - 1];
      var front := OtherJobs(rows[..|rows| - 1], jobId);
      assert forall r :: r in rows <==> r in rows[..|rows| - 1] || r == last;
      if last.jobId == jobId then front else front + [last]
  }

  lemma {:induction false} OtherJobsOfProjection<T(!new)>(rest: seq<Row<T>>, added: seq<Row<T>>, jobId: nat)
    requires forall k :: 0 <= k < |added| ==> added[k].jobId == jobId
    requires OtherJobs(rest, jobId) == rest
    ensures OtherJobs(rest + added, jobId) == rest
  {
    if added == [] {
      assert rest + added == rest;
    } else {
      var all := rest + added;
      assert all[..|all| - 1] == rest + added[..|added| - 1];
      OtherJobsOfProjection(rest, added[..|added| - 1], jobId);
    }
  }

  lemma {:induction false} OtherJobsTwice<T(!new)>(rows: seq<Row<T>>, jobId: nat)
    ensures OtherJobs(OtherJobs(rows, jobId), jobId) == OtherJobs(rows, jobId)
  {
    if rows != [] {
      var front := OtherJobs(rows[..|rows| - 1], jobId);
      OtherJobsTwice(rows[..|rows| - 1], jobId);
      if rows[|rows| - 1].jobId != jobId {
        assert (front + [rows[|rows| - 1]])[..|front|] == front;
      }
    }
  }

  /** The rows of this job are exactly the projection of its items, in whatever physical
      order the table keeps them. */
  ghost predicate Holds<T(!new)>(rows: seq<Row<T>>, jobId: nat, items: seq<T>)
  {
    && (forall r :: r in rows && r.jobId == jobId ==> r.ordinal < |items| && r.item == items[r.ordinal])
    && (forall k :: 0 <= k < |items| ==> Row(jobId, k, items[k]) in rows)
    && (forall i, j :: 0 <= i < j < |rows| && rows[i].jobId == jobId ==> rows[i] != rows[j])
  }

  /** One table after a shred: the job's old rows are gone, its new ones are there, and the
      other jobs' rows are as they were. */
  ghost predicate Replaced<T(!new)>(before: seq<Row<T>>, after: seq<Row<T>>, jobId: nat, items: seq<T>)
  {
    && after == OtherJobs(before, jobId) + Project(jobId, items)
    && Holds(after, jobId, items)
    && forall r: Row<T> :: r.jobId != jobId ==> (r in after <==> r in before)
  }

  /** Delete the job's rows from one table, insert the projection. */
  method Replace<T(!new)>(rows: seq<Row<T>>, jobId: nat, items: seq<T>) returns (after: seq<Row<T>>)
    ensures Replaced(rows, after, jobId, items)
  {
    var rest, projected := OtherJobs(rows, jobId), Project(jobId, items);
    after := rest + projected;
    assert forall r :: r in after <==> r in rest || r in projected;
    forall k | 0 <= k < |items| ensures Row(jobId, k, items[k]) in after {
      assert projected[k] in projected;
    }
    assert forall i :: 0 <= i < |rest| ==> rest[i] in rest;
  }

  /** Replacing twice is replacing once. */
  lemma {:induction false} ReplacedTwice<T(!new)>(before: seq<Row<T>>, once: seq<Row<T>>, twice: seq<Row<T>>,
                                                  jobId: nat, items: seq<T>)
    requires Replaced(before, once, jobId, items) && Replaced(once, twice, jobId, items)
    ensures twice == once
  {
    OtherJobsTwice(before, jobId);
    OtherJobsOfProjection(OtherJobs(before, jobId), Project(jobId, items), jobId);
  }

  datatype RowCounts = RowCounts(items: nat, areas: nat, counts: nat)

  class EntityTables {
    var items: seq<Row<ScheduleItem>>
    var areas: seq<Row<RoomArea>>
    var counts: seq<Row<FixtureCount>>

    /** The tables hold exactly this report for the job. */
    ghost predicate Shows(jobId: nat, report: Report)
      reads this
    {
      Holds(items, jobId, report.items) && Holds(areas, jobId, report.areas) && Holds(counts, jobId, report.counts)
    }

    /** shred_entities: all three tables, in the caller's transaction. */
    method ShredEntities(jobId: nat, report: Report) returns (added: RowCounts)
      modifies this
      ensures Replaced(old(items), items, jobId, report.items)
      ensures Replaced(old(areas), areas, jobId, report.areas)
      ensures Replaced(old(counts), counts, jobId, report.counts)
      ensures Shows(jobId, report)
      ensures added == RowCounts(|report.items|, |report.areas|, |report.counts|)
    {
      items := Replace(items, jobId, report.items);
      areas := Replace(areas, jobId, report.areas);
      counts := Replace(counts, jobId, report.counts);
      added := RowCounts(|report.items|, |report.areas|, |report.counts|);
    }

    /** Shredding the same report a second time changes nothing. */
    method ShredAgain(jobId: nat, report: Report)
      modifies this
      ensures Replaced(old(items), items, jobId, report.items)
      ensures Replaced(old(areas), areas, jobId, report.areas)
      ensures Replaced(old(counts), counts, jobId, report.counts)
    {
      var _ := ShredEntities(jobId, report);
      ghost var items1, areas1, counts1 := items, areas, counts;
      var _ := ShredEntities(jobId, report);
      ReplacedTwice(old(items), items1, items, jobId, report.items);
      ReplacedTwice(old(areas), areas1, areas, jobId, report.areas);
      ReplacedTwice(old(counts), counts1, counts, jobId, report.counts);
    }
  }

  // ---- the filtered, ordered read ----

  function InsertByOrdinal<T(!new)>(r: Row<T>, s: seq<Row<T>>): (t: seq<Row<T>>)
    ensures forall x :: x in t <==> x == r || x in s
  {
    if s == [] || r.ordinal <= s[0].ordinal then [r] + s
    else
      assert forall x :: x in s <==> x == s[0] || x in s[1..];
      [s[0]] + InsertByOrdinal(r, s[1..])
  }

  /** SELECT .. WHERE job and filters ORDER BY ordinal */
  function Select<T(!new)>(rows: seq<Row<T>>, jobId: nat, passes: T -> bool): (t: seq<Row<T>>)
    ensures forall x :: x in t <==> x in rows && x.jobId == jobId && passes(x.item)
  {
    if rows == [] then []
    else
      var rest := Select(rows[1..], jobId, passes);
      assert forall x :: x in rows <==> x == rows[0] || x in rows[1..];
      if rows[0].jobId == jobId && passes(rows[0].item) then InsertByOrdinal(rows[0], rest) else rest
  }

  /** The rows of the artifact's items that pass, in artifact order. */
  function Wanted<T(!new)>(jobId: nat, items: seq<T>, passes: T -> bool): (t: seq<Row<T>>)
    ensures forall x :: x in t <==>
      x.jobId == jobId && x.ordinal < |items| && x.item == items[x.ordinal] && passes(x.item)
    ensures OrdinalsAscend(t)
  {
    if items == [] then []
    else
      var n := |items| - 1;
      var front := Wanted(jobId, items[..n], passes);
      assert forall i :: 0 <= i < |front| ==> front[i] in front && front[i].ordinal < n;
      assert forall x :: x in front ==> items[x.ordinal] == items[..n][x.ordinal];
      if passes(items[n]) then front + [Row(jobId, n, items[n])] else front
  }

  ghost predicate OrdinalsAscend<T(!new)>(t: seq<Row<T>>)
  {
    forall i, j :: 0 <= i < j < |t| ==> t[i].ordinal < t[j].ordinal
  }

  ghost predicate DistinctOrdinals<T(!new)>(rows: seq<Row<T>>, jobId: nat)
  {
    forall i, j :: 0 <= i < j < |rows| && rows[i].jobId == rows[j].jobId == jobId ==> rows[i].ordinal != rows[j].ordinal
  }

  lemma {:induction false} InsertAscends<T(!new)>(r: Row<T>, s: seq<Row<T>>)
    requires OrdinalsAscend(s) && forall x :: x in s ==> x.ordinal != r.ordinal
    ensures OrdinalsAscend(InsertByOrdinal(r, s))
  {
    if s != [] {
      assert s[0] in s;
      if r.ordinal > s[0].ordinal {
        var tail := s[1..];
        forall i | 0 <= i < |tail| ensures s[0].ordinal < tail[i].ordinal && tail[i] in s {
          assert tail[i] == s[i + 1];
        }
        InsertAscends(r, tail);
        var rest := InsertByOrdinal(r, tail);
        forall i | 0 <= i < |rest| ensures s[0].ordinal < rest[i].ordinal {
          assert rest[i] in rest;
        }
      }
    }
  }

  lemma {:induction false} SelectAscends<T(!new)>(rows: seq<Row<T>>, jobId: nat, passes: T -> bool)
    requires DistinctOrdinals(rows, jobId)
    ensures OrdinalsAscend(Select(rows, jobId, passes))
  {
    if rows != [] {
      SelectAscends(rows[1..], jobId, passes);
      var rest := Select(rows[1..], jobId, passes);
      if rows[0].jobId == jobId && passes(rows[0].item) {
        forall x | x in rest ensures x.ordinal != rows[0].ordinal {
          var k :| 0 <= k < |rows[1..]| && rows[1..][k] == x;
          assert rows[k + 1] == x;
        }
        InsertAscends(rows[0], rest);
      }
    }
  }

  /** Two lists with ascending ordinals and the same members are the same list. */
  lemma {:induction false} AscendingSame<T(!new)>(a: seq<Row<T>>, b: seq<Row<T>>)
    requires OrdinalsAscend(a) && OrdinalsAscend(b)
    requires forall x :: x in a <==> x in b
    ensures a == b
  {
    if |b| > 0 { assert b[0] in b && b[0] in a; }
    if |a| > 0 { assert a[0] in a && a[0] in b; }
    if |a| > 0 && |b| > 0 {
      var i :| 0 <= i < |a| && a[i] == b[0];
      var j :| 0 <= j < |b| && b[j] == a[0];
      assert a[0] == b[0];
      forall x ensures x in a[1..] <==> x in b[1..] {
        assert x in a <==> x == a[0] || x in a[1..];
        assert x in b <==> x == b[0] || x in b[1..];
      }
      AscendingSame(a[1..], b[1..]);
    }
  }

  /** Whatever order the table keeps its rows in, a query reads the artifact's items that pass
      the filter, in artifact order. */
  lemma {:induction false} SelectionIsArtifactOrder<T(!new)>(rows: seq<Row<T>>, jobId: nat, items: seq<T>,
                                                      passes: T -> bool)
    requires Holds(rows, jobId, items)
    ensures Select(rows, jobId, passes) == Wanted(jobId, items, passes)
  {
    forall i, j | 0 <= i < j < |rows| && rows[i].jobId == jobId && rows[j].jobId == jobId
      ensures rows[i].ordinal != rows[j].ordinal
    {
      assert rows[i] in rows && rows[j] in rows && rows[i] != rows[j];
    }
    SelectAscends(rows, jobId, passes);
    var want := Wanted(jobId, items, passes);
    forall x ensures x in Select(rows, jobId, passes) <==> x in want {
      if x in want {
        assert x == Row(jobId, x.ordinal, items[x.ordinal]);
      }
    }
    AscendingSame(Select(rows, jobId, passes), want);
  }

  // ---- pages ----

  const MAX_PAGE_SIZE := 500

  datatype ApiError = JobNotFound | JobNotReady | InvalidPage | InvalidPageSize

  /** What a query reads of the job's row and its manifest. */
  datatype JobInfo = JobInfo(
    status: Ingestion.JobStatus, incomplete: bool, failedShards: seq<ShardWindow>, schemaVersion: nat)

  datatype Page<+T> = Page(
    data: seq<Row<T>>, page: int, pageSize: int, total: nat, totalPages: nat, incomplete: bool, schemaVersion: nat)

  function TotalPages(total: nat, pageSize: int): (n: nat)
    requires pageSize >= 1
  {
    (total + pageSize - 1) / pageSize
  }

  /** Rows [offset, offset + limit) of the ordered selection. */
  function Slice<T>(all: seq<Row<T>>, offset: nat, limit: nat): (s: seq<Row<T>>)
  {
    var a := if offset <= |all| then offset else |all|;
    var b := if offset + limit <= |all| then offset + limit else |all|;
    all[a..b]
  }

  /** Why a job cannot be queried, if it cannot. */
  function Gate(job: Option<JobInfo>): Option<ApiError>
  {
    if job.None? then Some(JobNotFound)
    else if job.value.status != Ingestion.Succeeded then Some(JobNotReady)
    else None
  }

  function PageError(page: int, pageSize: int): Option<ApiError>
  {
    if page < 1 then Some(InvalidPage)
    else if !(1 <= pageSize <= MAX_PAGE_SIZE) then Some(InvalidPageSize)
    else None
  }

  lemma {:induction false} OffsetIsNat(k: int, pageSize: int)
    requires k >= 0 && pageSize >= 1
    ensures k * pageSize >= 0
  {
  }

  /** get_items, get_fixture_counts and get_room_areas differ only in table and filter. */
  method GetRows<T(!new)>(job: Option<JobInfo>, rows: seq<Row<T>>, jobId: nat, passes: T -> bool, page: int,
                          pageSize: int)
    returns (r: Result<Page<T>, ApiError>)
    ensures Gate(job).Some? ==> r == Failure(Gate(job).value)
    ensures Gate(job).None? && PageError(page, pageSize).Some? ==> r == Failure(PageError(page, pageSize).value)
    ensures Gate(job).None? && PageError(page, pageSize).None? ==>
      var all := Select(rows, jobId, passes);
      && (page - 1) * pageSize >= 0
      && r == Success(Page(Slice(all, (page - 1) * pageSize, pageSize), page, pageSize, |all|,
                           TotalPages(|all|, pageSize), job.value.incomplete, job.value.schemaVersion))
  {
    if job.None? {
      return Failure(JobNotFound);
    }
    if job.value.status != Ingestion.Succeeded {
      return Failure(JobNotReady);
    }
    if page < 1 {
      return Failure(InvalidPage);
    }
    if !(1 <= pageSize <= MAX_PAGE_SIZE) {
      return Failure(InvalidPageSize);
    }
    var all := Select(rows, jobId, passes);
    OffsetIsNat(page - 1, pageSize);
    var offset: nat := (page - 1) * pageSize;
    r := Success(Page(Slice(all, offset, pageSize), page, pageSize, |all|, TotalPages(|all|, pageSize),
                      job.value.incomplete, job.value.schemaVersion));
  }

  lemma {:induction false} MulMonotone(a: int, b: int, c: int)
    requires a <= b && c >= 1
    ensures a * c <= b * c
  {
    var d := b - a;
    assert b * c == a * c + d * c;
    OffsetIsNat(d, c);
  }

  /** Page p is the last one exactly when p full pages cover everything. */
  lemma {:induction false} LastPage(p: int, total: nat, pageSize: int)
    requires p >= 1 && pageSize >= 1
    ensures p >= TotalPages(total, pageSize) <==> p * pageSize >= total
  {
    var q := TotalPages(total, pageSize);
    var rem := (total + pageSize - 1) % pageSize;
    assert total + pageSize - 1 == q * pageSize + rem;
    if p >= q {
      MulMonotone(q, p, pageSize);
    } else {
      MulMonotone(p, q - 1, pageSize);
      assert (q - 1) * pageSize == q * pageSize - pageSize;
    }
  }

  // ---- the three endpoints ----

  ghost predicate ByOrdinal<T(!new)>(all: seq<Row<T>>)
  {
    forall i, j :: 0 <= i < j < |all| ==> all[i].ordinal <= all[j].ordinal
  }

  /** How often a row is in a selection: as often as in the table if it is this job's and
      passes, else never. */
  ghost predicate CountsRight<T(!new)>(all: seq<Row<T>>, rows: seq<Row<T>>, jobId: nat, passes: T -> bool, x: Row<T>)
  {
    multiset(all)[x] == if x.jobId == jobId && passes(x.item) then multiset(rows)[x] else 0
  }

  /** `all` holds exactly this job's rows that pass, each as often as the table does, by
      ordinal. */
  ghost predicate Selects<T(!new)>(all: seq<Row<T>>, rows: seq<Row<T>>, jobId: nat, passes: T -> bool)
  {
    ByOrdinal(all) && forall x :: CountsRight(all, rows, jobId, passes, x)
  }

  lemma {:induction false} InsertAdds<T(!new)>(r: Row<T>, s: seq<Row<T>>)
    ensures multiset(InsertByOrdinal(r, s)) == multiset(s) + multiset{r}
  {
    if s != [] && r.ordinal > s[0].ordinal {
      InsertAdds(r, s[1..]);
      assert s == [s[0]] + s[1..];
    }
  }

  lemma {:induction false} AheadOfAll<T(!new)>(h: Row<T>, t: seq<Row<T>>)
    requires ByOrdinal(t) && forall x :: x in t ==> h.ordinal <= x.ordinal
    ensures ByOrdinal([h] + t)
  {
    forall i, j | 0 <= i < j < |t| + 1 ensures ([h] + t)[i].ordinal <= ([h] + t)[j].ordinal {
      assert t[j - 1] in t;
    }
  }

  lemma {:induction false} InsertKeepsOrder<T(!new)>(r: Row<T>, s: seq<Row<T>>)
    requires ByOrdinal(s)
    ensures ByOrdinal(InsertByOrdinal(r, s))
  {
    if s == [] {
    } else if r.ordinal > s[0].ordinal {
      var tail := s[1..];
      InsertKeepsOrder(r, tail);
      InsertAdds(r, tail);
      forall x | x in InsertByOrdinal(r, tail) ensures s[0].ordinal <= x.ordinal {
        assert x in multiset(tail) + multiset{r};
        assert x in tail || x == r;
      }
      AheadOfAll(s[0], InsertByOrdinal(r, tail));
    } else {
      AheadOfAll(r, s);
    }
  }

  lemma {:induction false} SelectCounts<T(!new)>(rows: seq<Row<T>>, jobId: nat, passes: T -> bool, x: Row<T>)
    ensures CountsRight(Select(rows, jobId, passes), rows, jobId, passes, x)
  {
    if rows != [] {
      assert rows == [rows[0]] + rows[1..];
      SelectCounts(rows[1..], jobId, passes, x);
      InsertAdds(rows[0], Select(rows[1..], jobId, passes));
    }
  }

  lemma {:induction false} SelectOrdered<T(!new)>(rows: seq<Row<T>>, jobId: nat, passes: T -> bool)
    ensures ByOrdinal(Select(rows, jobId, passes))
  {
    if rows != [] {
      SelectOrdered(rows[1..], jobId, passes);
      InsertKeepsOrder(rows[0], Select(rows[1..], jobId, passes));
    }
  }

  lemma {:induction false} SelectSelects<T(!new)>(rows: seq<Row<T>>, jobId: nat, passes: T -> bool)
    ensures Selects(Select(rows, jobId, passes), rows, jobId, passes)
  {
    SelectOrdered(rows, jobId, passes);
    forall x ensures CountsRight(Select(rows, jobId, passes), rows, jobId, passes, x) {
      SelectCounts(rows, jobId, passes, x);
    }
  }

  /** Page `page` of what is selected, and how many pages of that size it fills. */
  ghost predicate PageShows<T(!new)>(p: Page<T>, rows: seq<Row<T>>, jobId: nat, passes: T -> bool, page: int,
                                     pageSize: int)
  {
    exists all ::
      && Selects(all, rows, jobId, passes) && p.total == |all| && p.page == page && p.pageSize == pageSize
      && (forall n: nat :: p.totalPages <= n <==> n * pageSize >= |all|)
      && (forall k :: 0 <= k < |p.data| ==>
            0 <= (page - 1) * pageSize + k < |all| && p.data[k] == all[(page - 1) * pageSize + k])
      && |p.data| <= pageSize && (|p.data| == pageSize || (page - 1) * pageSize + |p.data| >= |all|)
  }

  lemma {:induction false} SamePasses<T(!new)>(all: seq<Row<T>>, rows: seq<Row<T>>, jobId: nat, f: T -> bool,
                                               g: T -> bool)
    requires Selects(all, rows, jobId, f) && forall x :: f(x) <==> g(x)
    ensures Selects(all, rows, jobId, g)
  {
    forall x ensures CountsRight(all, rows, jobId, g, x) {
      assert CountsRight(all, rows, jobId, f, x);
      assert f(x.item) <==> g(x.item);
    }
  }

  /** n pages hold everything exactly when they are at least as many as reported. */
  lemma {:induction false} PagesCover(n: nat, total: nat, pageSize: int)
    requires pageSize >= 1
    ensures TotalPages(total, pageSize) <= n <==> n * pageSize >= total
  {
    if n >= 1 {
      LastPage(n, total, pageSize);
    } else {
      assert TotalPages(total, pageSize) <= 0 <==> total == 0 by {
        var q := TotalPages(total, pageSize);
        assert total + pageSize - 1 == q * pageSize + (total + pageSize - 1) % pageSize;
        if total > 0 && q <= 0 { MulMonotone(q, 0, pageSize); }
        if total == 0 && q >= 1 { MulMonotone(1, q, pageSize); }
      }
    }
  }

  lemma {:induction false} SlicePages<T(!new)>(all: seq<Row<T>>, p: Page<T>, rows: seq<Row<T>>, jobId: nat,
                                               passes: T -> bool, page: int, pageSize: int)
    requires page >= 1 && pageSize >= 1 && (page - 1) * pageSize >= 0 && Selects(all, rows, jobId, passes)
    requires p.data == Slice(all, (page - 1) * pageSize, pageSize) && p.page == page && p.pageSize == pageSize
    requires p.total == |all| && p.totalPages == TotalPages(|all|, pageSize)
    ensures PageShows(p, rows, jobId, passes, page, pageSize)
  {
    forall n: nat ensures p.totalPages <= n <==> n * pageSize >= |all| {
      PagesCover(n, |all|, pageSize);
    }
  }

  /** A slice of what `passes` selects is a page of what an equal condition asks for. */
  lemma {:induction false} SliceShows<T(!new)>(p: Page<T>, rows: seq<Row<T>>, jobId: nat, passes: T -> bool,
                                               asked: T -> bool, page: int, pageSize: int)
    requires page >= 1 && pageSize >= 1 && (page - 1) * pageSize >= 0 && forall x :: passes(x) <==> asked(x)
    requires var all := Select(rows, jobId, passes);
      && p.data == Slice(all, (page - 1) * pageSize, pageSize) && p.page == page && p.pageSize == pageSize
      && p.total == |all| && p.totalPages == TotalPages(|all|, pageSize)
    ensures PageShows(p, rows, jobId, asked, page, pageSize)
  {
    var all := Select(rows, jobId, passes);
    SelectSelects(rows, jobId, passes);
    SamePasses(all, rows, jobId, passes, asked);
    SlicePages(all, p, rows, jobId, asked, page, pageSize);
  }

  method GetItems(job: Option<JobInfo>, rows: seq<Row<ScheduleItem>>, jobId: nat, f: ItemFilter, page: int,
                  pageSize: int)
    returns (r: Result<Page<ScheduleItem>, ApiError>)
    ensures r.Success? ==>
      PageShows(r.value, rows, jobId,
                (it: ScheduleItem) =>
                  && (f.schedule.Some? ==> it.schedule == f.schedule.value)
                  && (f.mark.Some? ==> it.mark == f.mark.value)
                  && (f.basis.Some? ==> it.basis == f.basis.value)
                  && (f.shape.Some? ==> it.shape == f.shape.value),
                page, pageSize)
    ensures r.Success? <==> Gate(job).None? && PageError(page, pageSize).None?
  {
    r := GetRows(job, rows, jobId, ItemsWhere(f), page, pageSize);
    if r.Success? {
      SliceShows(r.value, rows, jobId, ItemsWhere(f),
                 (it: ScheduleItem) =>
                   && (f.schedule.Some? ==> it.schedule == f.schedule.value)
                   && (f.mark.Some? ==> it.mark == f.mark.value)
                   && (f.basis.Some? ==> it.basis == f.basis.value)
                   && (f.shape.Some? ==> it.shape == f.shape.value),
                 page, pageSize);
    }
  }

  method GetFixtureCounts(job: Option<JobInfo>, rows: seq<Row<FixtureCount>>, jobId: nat, symbol: Option<string>,
                          verified: Option<bool>, minConfidence: Option<real>, page: int, pageSize: int)
    returns (r: Result<Page<FixtureCount>, ApiError>)
    ensures r.Success? ==>
      PageShows(r.value, rows, jobId,
                (c: FixtureCount) =>
                  && (symbol.Some? ==> c.symbol == symbol.value)
                  && (verified.Some? ==> c.verified == verified.value)
                  && (minConfidence.Some? ==> minConfidence.value <= c.confidence),
                page, pageSize)
    ensures r.Success? <==> Gate(job).None? && PageError(page, pageSize).None?
  {
    r := GetRows(job, rows, jobId, CountsWhere(symbol, verified, minConfidence), page, pageSize);
    if r.Success? {
      SliceShows(r.value, rows, jobId, CountsWhere(symbol, verified, minConfidence),
                 (c: FixtureCount) =>
                   && (symbol.Some? ==> c.symbol == symbol.value)
                   && (verified.Some? ==> c.verified == verified.value)
                   && (minConfidence.Some? ==> minConfidence.value <= c.confidence),
                 page, pageSize);
    }
  }

  method GetRoomAreas(job: Option<JobInfo>, rows: seq<Row<RoomArea>>, jobId: nat, room: Option<string>,
                      minConfidence: Option<real>, page: int, pageSize: int)
    returns (r: Result<Page<RoomArea>, ApiError>)
    ensures r.Success? ==>
      PageShows(r.value, rows, jobId,
                (a: RoomArea) =>
                  && (room.Some? ==> a.room == room.value)
                  && (minConfidence.Some? ==> minConfidence.value <= a.confidence),
                page, pageSize)
    ensures r.Success? <==> Gate(job).None? && PageError(page, pageSize).None?
  {
    r := GetRows(job, rows, jobId, AreasWhere(room, minConfidence), page, pageSize);
    if r.Success? {
      SliceShows(r.value, rows, jobId, AreasWhere(room, minConfidence),
                 (a: RoomArea) =>
                   && (room.Some? ==> a.room == room.value)
                   && (minConfidence.Some? ==> minConfidence.value <= a.confidence),
                 page, pageSize);
    }
  }

  // ---- the client's page loop ----

  /** The first `count` rows, or all of them. */
  function Upto<T(!new)>(all: seq<Row<T>>, count: nat): (s: seq<Row<T>>)
  {
    if count <= |all| then all[..count] else all
  }

  lemma {:induction false} NextSlice<T(!new)>(all: seq<Row<T>>, offset: nat, limit: nat)
    ensures Upto(all, offset) + Slice(all, offset, limit) == Upto(all, offset + limit)
  {
  }

  lemma {:induction false} WantedAll<T(!new)>(jobId: nat, items: seq<T>)
    ensures Wanted(jobId, items, Everything) == Project(jobId, items)
  {
    var a, b := Wanted(jobId, items, Everything), Project(jobId, items);
    forall x ensures x in a <==> x in b {
      if x in a {
        assert x == b[x.ordinal];
      }
    }
    AscendingSame(a, b);
  }

  /** Reading page `page` behind `offset` rows. */
  lemma {:induction false} PageRead<T(!new)>(want: seq<Row<T>>, page: int, pageSize: int, offset: nat)
    requires page >= 1 && pageSize >= 1 && offset == (page - 1) * pageSize
    ensures page >= TotalPages(|want|, pageSize) <==> offset + pageSize >= |want|
    ensures Upto(want, offset) + Slice(want, offset, pageSize) == Upto(want, offset + pageSize)
    ensures page >= TotalPages(|want|, pageSize) ==> Upto(want, offset + pageSize) == want
    ensures page * pageSize == offset + pageSize
  {
    assert want[..|want|] == want;
    assert page * pageSize == (page - 1) * pageSize + pageSize;
    LastPage(page, |want|, pageSize);
    NextSlice(want, offset, pageSize);
  }

  /** _fetch_pages: the client's loop returns every row once, in artifact order. */
  method FetchPages<T(!new)>(job: Option<JobInfo>, rows: seq<Row<T>>, jobId: nat, ghost items: seq<T>, pageSize: int)
    returns (r: Result<seq<Row<T>>, ApiError>)
    requires Holds(rows, jobId, items)
    ensures r == if Gate(job).Some? then Failure(Gate(job).value)
                 else if PageError(1, pageSize).Some? then Failure(InvalidPageSize)
                 else Success(Project(jobId, items))
  {
    SelectionIsArtifactOrder(rows, jobId, items, Everything);
    WantedAll(jobId, items);
    ghost var want := Project(jobId, items);
    ghost var offset: nat := 0;
    var all: seq<Row<T>> := [];
    var page := 1;
    while true
      invariant page >= 1 && offset == (page - 1) * pageSize
      invariant page > 1 ==> Gate(job).None? && PageError(page, pageSize).None? && offset < |want|
      invariant all == Upto(want, offset)
      decreases |want| - offset
    {
      var answer := GetRows(job, rows, jobId, Everything, page, pageSize);
      if answer.Failure? {
        return Failure(answer.error);
      }
      PageRead(want, page, pageSize, offset);
      all := all + answer.value.data;
      if page >= answer.value.totalPages {
        break;
      }
      page, offset := page + 1, offset + pageSize;
    }
    r := Success(all);
  }
}
