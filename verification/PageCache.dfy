/** The shared, memoized view of one open PDF (src/access/page.py, src/access/document.py).
    What a page operation produces (or that it fails) is a given, deterministic function. */
module PageCache {
  import opened Sequences

  type Value = string

  datatype Op = GetText(kind: string) | GetDrawings | Tables | Render(dpi: nat)

  /** What each operation yields on each page; None: it raises. */
  type Source = (nat, Op) -> Option<Value>

  /** The value a failing call degrades to, in the shape its callers expect. */
  function Default(op: Op): Value
  {
    match op
    case GetText(kind) => if kind == "dict" || kind == "rawdict" then "{}" else if kind == "words" then "[]" else ""
    case Render(_) => ""
    case _ => "[]"
  }

  function OpName(op: Op): string
  {
    match op
    case GetText(_) => "get_text"
    case GetDrawings => "get_drawings"
    case Tables => "tables"
    case Render(_) => "render"
  }

  /** The value a caller sees who opens the file just for this call. */
  function Direct(source: Source, page: nat, op: Op): Value
  {
    match source(page, op)
    case Some(v) => v
    case None => Default(op)
  }

  /** What a failing call gives: no marks, no objects or no bytes, whichever its callers iterate. */
  lemma {:induction false} DegradesTo(source: Source, page: nat, op: Op)
    requires source(page, op).None?
    ensures op in [GetText("dict"), GetText("rawdict")] ==> Direct(source, page, op) == "{}"
    ensures op in [GetText("words"), GetDrawings, Tables] ==> Direct(source, page, op) == "[]"
    ensures op.Render? || (op.GetText? && op.kind !in ["dict", "rawdict", "words"]) ==> Direct(source, page, op) == ""
  {
    assert "words"[0] != "dict"[0] && "words"[0] != "rawdict"[0];
  }

  datatype Call = Call(page: nat, op: Op)

  datatype FailureRecord = FailureRecord(page: nat, op: string)

  /** One record per failing production, in order, under the operation's name. */
  function RecordsOf(source: Source, produced: seq<Call>): (r: seq<FailureRecord>)
  {
    if produced == [] then []
    else
      var c := produced[|produced| - 1];
      var front := RecordsOf(source, produced[..|produced| - 1]);
      var name := if c.op.GetText? then "get_text" else if c.op.GetDrawings? then "get_drawings"
                  else if c.op.Tables? then "tables" else "render";
      if source(c.page, c.op).None? then front + [FailureRecord(c.page, name)] else front
  }

  lemma {:induction false} RecordsSnoc(source: Source, produced: seq<Call>, c: Call)
    ensures RecordsOf(source, produced + [c]) ==
      if source(c.page, c.op).None? then RecordsOf(source, produced) + [FailureRecord(c.page, OpName(c.op))]
      else RecordsOf(source, produced)
  {
    assert (produced + [c])[..|produced|] == produced;
  }

  class Page {
    const index: nat
    var memo: map<Op, Value>

    constructor (i: nat)
      ensures index == i && memo == map[]
    {
      index, memo := i, map[];
    }
  }

  class Document {
    const source: Source
    const pageCount: nat
    const renderDpi: nat
    var pages: map<nat, Page>
    var failures: seq<FailureRecord>
    ghost var produced: seq<Call>

    ghost predicate PageValid(i: nat)
      requires i in pages
      reads this, pages[i]
    {
      && pages[i].index == i < pageCount
      && (forall op :: op in pages[i].memo ==> pages[i].memo[op] == Direct(source, i, op))
      && (forall op :: op in pages[i].memo <==> Call(i, op) in produced)
    }

    ghost predicate Valid()
      reads this, pages.Values
    {
      && (forall i :: i in pages ==> PageValid(i))
      && (forall c :: c in produced ==> c.page in pages)
      && (forall q, r :: 0 <= q < r < |produced| ==> produced[q] != produced[r])
      && failures == RecordsOf(source, produced)
    }

    constructor (s: Source, count: nat, dpi: nat)
      ensures Valid() && source == s && pageCount == count && renderDpi == dpi
      ensures pages == map[] && produced == [] && failures == []
    {
      source, pageCount, renderDpi := s, count, dpi;
      pages, failures, produced := map[], [], [];
    }

    /** Document.page: the same Page object for the same index, every time. */
    method GetPage(i: nat) returns (p: Page)
      requires Valid() && i < pageCount
      modifies this`pages
      ensures Valid() && i in pages && p == pages[i]
      ensures i in old(pages) ==> pages == old(pages)
      ensures i !in old(pages) ==> fresh(p) && pages == old(pages)[i := p]
    {
      if i !in pages {
        var page := new Page(i);
        pages := pages[i := page];
      }
      p := pages[i];
    }

    /** Page._cached with Document._safe: produce at most once, degrade and record on failure. */
    method Cached(p: Page, op: Op) returns (v: Value)
      requires Valid() && p.index in pages && pages[p.index] == p
      modifies p`memo, this`failures, this`produced
      ensures Valid() && v == Direct(source, p.index, op)
      ensures produced ==
        if Call(p.index, op) in old(produced) then old(produced) else old(produced) + [Call(p.index, op)]
    {
      assert PageValid(p.index);
      if op !in p.memo {
        RecordsSnoc(source, produced, Call(p.index, op));
        produced := produced + [Call(p.index, op)];
        match source(p.index, op) {
          case Some(value) =>
            p.memo := p.memo[op := value];
          case None =>
            failures := failures + [FailureRecord(p.index, OpName(op))];
            p.memo := p.memo[op := Default(op)];
        }
        forall i | i in pages ensures PageValid(i) {
          assert i != p.index ==> pages[i] != p by { assert old(PageValid(i)); }
        }
      }
      v := p.memo[op];
    }

    /** One consumer call: fetch the shared page, then read through its memo. */
    method Read(c: Call) returns (v: Option<Value>)
      requires Valid()
      modifies this, pages.Values
      ensures Valid() && fresh(pages.Values - old(pages.Values))
      ensures v == if c.page < pageCount then Some(Direct(source, c.page, c.op)) else None
      ensures produced ==
        if c.page >= pageCount || c in old(produced) then old(produced) else old(produced) + [c]
    {
      if c.page >= pageCount {
        return None;
      }
      var p := GetPage(c.page);
      assert PageValid(c.page);
      var value := Cached(p, c.op);
      v := Some(value);
    }

    /** render_png: no dpi (or 0) means the run's configured dpi. */
    method RenderPng(page: nat, dpi: Option<nat>) returns (v: Option<Value>)
      requires Valid()
      modifies this, pages.Values
      ensures Valid() && fresh(pages.Values - old(pages.Values))
      ensures page < pageCount ==>
        v == Some(Direct(source, page, Render(if dpi.Some? && dpi.value != 0 then dpi.value else renderDpi)))
    {
      v := Read(Call(page, Render(if dpi.Some? && dpi.value != 0 then dpi.value else renderDpi)));
    }

    /** Any sequence of calls by any consumers on this one document: every answer is the one a
        separate open would give, and each (page, operation, argument) is produced once. */
    method ReadAll(calls: seq<Call>) returns (vs: seq<Option<Value>>)
      requires Valid() && produced == []
      modifies this, pages.Values
      ensures Valid() && vs == Answers(source, pageCount, calls)
      ensures produced == FirstCalls(pageCount, calls)
      ensures failures == RecordsOf(source, FirstCalls(pageCount, calls))
    {
      vs := [];
      for k := 0 to |calls|
        invariant Valid() && fresh(pages.Values - old(pages.Values))
        invariant vs == Answers(source, pageCount, calls[..k])
        invariant produced == FirstCalls(pageCount, calls[..k])
      {
        assert calls[..k + 1][..k] == calls[..k];
        var v := Read(calls[k]);
        vs := vs + [v];
      }
      assert calls[..|calls|] == calls;
    }
  }

  function Answers(source: Source, pageCount: nat, calls: seq<Call>): (vs: seq<Option<Value>>)
  {
    if calls == [] then []
    else
      var c := calls[|calls| - 1];
      Answers(source, pageCount, calls[..|calls| - 1])
        + [if c.page < pageCount then Some(Direct(source, c.page, c.op)) else None]
  }

  /** The distinct in-range calls, in order of first use. */
  function FirstCalls(pageCount: nat, calls: seq<Call>): (firsts: seq<Call>)
  {
    if calls == [] then []
    else
      var c := calls[|calls| - 1];
      var front := FirstCalls(pageCount, calls[..|calls| - 1]);
      if c.page >= pageCount || c in front then front else front + [c]
  }

  /** The same calls, each on its own freshly opened document. */
  method ReadSeparately(source: Source, pageCount: nat, dpi: nat, calls: seq<Call>) returns (vs: seq<Option<Value>>)
    ensures vs == Answers(source, pageCount, calls)
  {
    vs := [];
    for k := 0 to |calls|
      invariant vs == Answers(source, pageCount, calls[..k])
    {
      assert calls[..k + 1][..k] == calls[..k];
      var doc := new Document(source, pageCount, dpi);
      var v := doc.Read(calls[k]);
      vs := vs + [v];
    }
    assert calls[..|calls|] == calls;
  }

  /** Each failing call leaves exactly one record, each other call none. */
  lemma {:induction false} OneRecordPerFailure(source: Source, pageCount: nat, calls: seq<Call>)
    ensures |RecordsOf(source, FirstCalls(pageCount, calls))|
         == |set c | c in calls && c.page < pageCount && source(c.page, c.op).None?|
  {
    if calls != [] {
      var n := |calls| - 1;
      var c := calls[n];
      var front := FirstCalls(pageCount, calls[..n]);
      OneRecordPerFailure(source, pageCount, calls[..n]);
      FirstCallsAre(pageCount, calls[..n], c);
      var was := set x | x in calls[..n] && x.page < pageCount && source(x.page, x.op).None?;
      var now := set x | x in calls && x.page < pageCount && source(x.page, x.op).None?;
      assert forall x :: x in calls <==> x in calls[..n] || x == c;
      if c.page < pageCount && c !in calls[..n] {
        assert (front + [c])[..|front|] == front;
        if source(c.page, c.op).None? {
          assert now == was + {c};
        } else {
          assert now == was;
        }
      } else {
        assert now == was;
      }
    }
  }

  lemma {:induction false} FirstCallsAre(pageCount: nat, calls: seq<Call>, c: Call)
    ensures c in FirstCalls(pageCount, calls) <==> c in calls && c.page < pageCount
  {
    if calls != [] {
      FirstCallsAre(pageCount, calls[..|calls| - 1], c);
      SnocSelf(calls);
    }
  }
}
