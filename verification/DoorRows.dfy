/** Selecting door rows and splitting a row that merged several doors
    (src/pipeline/phase2_schedule_parser.py). Cell cleaning, the mark grammars and what counts
    as whitespace are given functions; tokens are what str.split() gives. */
module DoorRows {
  import opened Sequences

  /** A table cell as extracted; None is an empty cell. */
  type Cell = Option<string>

  type Cleaner = Cell -> string

  /** Which characters are whitespace. */
  type Space = char -> bool

  predicate IsToken(sp: Space, t: string) { t != "" && forall i :: 0 <= i < |t| ==> !sp(t[i]) }

  predicate AllTokens(sp: Space, ts: seq<string>) { forall i :: 0 <= i < |ts| ==> IsToken(sp, ts[i]) }

  /** str.split() */
  function Tokens(sp: Space, s: string): (ts: seq<string>)
    ensures AllTokens(sp, ts)
    ensures s != "" && !sp(s[|s| - 1]) ==> ts != []
  {
    if s == "" then []
    else
      var n := |s| - 1;
      var front := Tokens(sp, s[..n]);
      if sp(s[n]) then front
      else if n > 0 && !sp(s[n - 1]) then front[..|front| - 1] + [front[|front| - 1] + [s[n]]]
      else front + [[s[n]]]
  }

  /** " ".join() */
  function Join(ts: seq<string>): (s: string)
  {
    if ts == [] then ""
    else if |ts| == 1 then ts[0]
    else Join(ts[..|ts| - 1]) + " " + ts[|ts| - 1]
  }

  /** One more character. */
  lemma {:induction false} TokensStep(sp: Space, s: string, c: char)
    ensures Tokens(sp, s + [c]) ==
      if sp(c) then Tokens(sp, s)
      else if s != "" && !sp(s[|s| - 1]) then
        var front := Tokens(sp, s);
        front[..|front| - 1] + [front[|front| - 1] + [c]]
      else Tokens(sp, s) + [[c]]
  {
    var all := s + [c];
    assert all[..|s|] == s && all[|s|] == c;
  }

  /** A token behind a separator (or at the start) is a token of its own. */
  lemma {:induction false} TokenBehind(sp: Space, a: string, t: string)
    requires IsToken(sp, t) && (a == "" || sp(a[|a| - 1]))
    ensures Tokens(sp, a + t) == Tokens(sp, a) + [t]
  {
    var n := |t| - 1;
    SnocSelf(t);
    Snoc(a, t);
    if n == 0 {
      TokensStep(sp, a, t[0]);
      assert a + t[..0] == a;
    } else {
      TokenBehind(sp, a, t[..n]);
      TokensStep(sp, a + t[..n], t[n]);
    }
  }

  lemma {:induction false} SpaceBehind(sp: Space, a: string)
    requires sp(' ')
    ensures Tokens(sp, a + " ") == Tokens(sp, a)
  {
    assert (a + " ")[..|a|] == a;
  }

  lemma {:induction false} JoinSnoc(front: seq<string>, t: string)
    ensures Join(front + [t]) == if front == [] then t else Join(front) + " " + t
  {
    assert (front + [t])[..|front|] == front;
  }

  lemma {:induction false} SplitSnoc(sp: Space, front: seq<string>, t: string)
    requires sp(' ') && IsToken(sp, t) && Tokens(sp, Join(front)) == front
    ensures Tokens(sp, Join(front + [t])) == front + [t]
  {
    JoinSnoc(front, t);
    if front == [] {
      TokenBehind(sp, "", t);
      assert "" + t == t;
    } else {
      SpaceBehind(sp, Join(front));
      TokenBehind(sp, Join(front) + " ", t);
    }
  }

  lemma {:induction false} TokensSlice(sp: Space, ts: seq<string>, a: nat, b: nat)
    requires AllTokens(sp, ts) && a <= b <= |ts|
    ensures AllTokens(sp, ts[a..b])
  {
    forall i | 0 <= i < b - a ensures IsToken(sp, ts[a..b][i]) { assert IsToken(sp, ts[a + i]); }
  }

  /** Splitting undoes joining. */
  lemma {:induction false} SplitJoin(sp: Space, ts: seq<string>)
    requires sp(' ')
    requires AllTokens(sp, ts)
    ensures Tokens(sp, Join(ts)) == ts
  {
    if ts != [] {
      var n := |ts| - 1;
      assert ts[..n] == ts[0..n];
      TokensSlice(sp, ts, 0, n);
      SplitJoin(sp, ts[..n]);
      assert IsToken(sp, ts[n]);
      SplitSnoc(sp, ts[..n], ts[n]);
      SnocSelf(ts);
    }
  }

  // ---- splitting a merged row ----

  /** One column's values for n doors. */
  function ColumnParts(sp: Space, text: string, n: nat): (parts: seq<string>)
    requires n >= 1
    ensures |parts| == n
  {
    var toks := Tokens(sp, text);
    if toks != [] && |toks| % n == 0 then
      var k := |toks| / n;
      EvenSplit(|toks|, n);
      EvenGroups(k, n);
      Parts(toks, k, n)
    else [text] + seq(n - 1, _ => "")
  }

  lemma {:induction false} EvenSplit(total: nat, n: nat)
    requires n >= 1 && total % n == 0
    ensures (total / n) * n == total
  {
    assert total == (total / n) * n + total % n;
  }

  /** `total` tokens are n groups of k. */
  predicate Groups(k: nat, n: nat, total: nat)
    decreases n
  {
    if n == 0 then total == 0 else k <= total && Groups(k, n - 1, total - k)
  }

  lemma {:induction false} EvenGroups(k: nat, n: nat)
    ensures Groups(k, n, k * n)
    decreases n
  {
    if n > 0 {
      EvenGroups(k, n - 1);
      assert k * n == k * (n - 1) + k;
    }
  }

  /** n consecutive groups of k tokens, each joined. */
  function Parts(toks: seq<string>, k: nat, n: nat): (parts: seq<string>)
    requires Groups(k, n, |toks|)
    ensures |parts| == n
    decreases n
  {
    if n == 0 then []
    else Parts(toks[..|toks| - k], k, n - 1) + [Join(toks[|toks| - k..])]
  }

  /** The tokens of several cell values, in order. */
  function AllTokensOf(sp: Space, parts: seq<string>): (ts: seq<string>)
  {
    if parts == [] then [] else AllTokensOf(sp, parts[..|parts| - 1]) + Tokens(sp, parts[|parts| - 1])
  }

  lemma {:induction false} TokensOfSnoc(sp: Space, parts: seq<string>, last: string)
    ensures AllTokensOf(sp, parts + [last]) == AllTokensOf(sp, parts) + Tokens(sp, last)
  {
    assert (parts + [last])[..|parts|] == parts;
  }

  lemma {:induction false} OneMorePart(sp: Space, parts: seq<string>, front: seq<string>, group: seq<string>)
    requires sp(' ') && AllTokensOf(sp, parts) == front && AllTokens(sp, group)
    ensures AllTokensOf(sp, parts + [Join(group)]) == front + group
  {
    SplitJoin(sp, group);
    TokensOfSnoc(sp, parts, Join(group));
  }

  lemma {:induction false} CutTokens(sp: Space, toks: seq<string>, cut: nat)
    requires AllTokens(sp, toks) && cut <= |toks|
    ensures AllTokens(sp, toks[..cut]) && AllTokens(sp, toks[cut..]) && toks[..cut] + toks[cut..] == toks
  {
    TokensSlice(sp, toks, 0, cut);
    TokensSlice(sp, toks, cut, |toks|);
    assert toks[..cut] == toks[0..cut] && toks[cut..] == toks[cut..|toks|];
  }

  lemma {:induction false} PartsConserve(sp: Space, toks: seq<string>, k: nat, n: nat)
    requires sp(' ')
    requires AllTokens(sp, toks) && Groups(k, n, |toks|)
    ensures AllTokensOf(sp, Parts(toks, k, n)) == toks
    decreases n
  {
    if n > 0 {
      var cut := |toks| - k;
      CutTokens(sp, toks, cut);
      PartsConserve(sp, toks[..cut], k, n - 1);
      OneMorePart(sp, Parts(toks[..cut], k, n - 1), toks[..cut], toks[cut..]);
    }
  }

  lemma {:induction false} BlanksHaveNoTokens(sp: Space, text: string, n: nat)
    requires n >= 1
    ensures AllTokensOf(sp, [text] + seq(n - 1, _ => "")) == Tokens(sp, text)
  {
    var all := [text] + seq(n - 1, _ => "");
    if n == 1 {
      assert all == [text] && all[..0] == [];
    } else {
      BlanksHaveNoTokens(sp, text, n - 1);
      assert all[..n - 1] == [text] + seq(n - 2, _ => "");
    }
  }

  /** Splitting a cell conserves its tokens, whether or not they divide evenly. */
  lemma {:induction false} ColumnConserves(sp: Space, text: string, n: nat)
    requires sp(' ')
    requires n >= 1
    ensures AllTokensOf(sp, ColumnParts(sp, text, n)) == Tokens(sp, text)
  {
    var toks := Tokens(sp, text);
    if toks != [] && |toks| % n == 0 {
      EvenSplit(|toks|, n);
      EvenGroups(|toks| / n, n);
      PartsConserve(sp, toks, |toks| / n, n);
    } else {
      BlanksHaveNoTokens(sp, text, n);
    }
  }

  lemma {:induction false} PartsAreEven(sp: Space, toks: seq<string>, k: nat, n: nat, r: nat)
    requires sp(' ')
    requires AllTokens(sp, toks) && Groups(k, n, |toks|) && r < n
    ensures |Tokens(sp, Parts(toks, k, n)[r])| == k
    decreases n
  {
    var cut := |toks| - k;
    if r < n - 1 {
      PartsAreEven(sp, toks[..cut], k, n - 1, r);
    } else {
      SplitJoin(sp, toks[cut..]);
    }
  }

  /** Tokens that divide evenly are shared evenly; otherwise the first door takes the cell. */
  lemma {:induction false} EvenShare(sp: Space, text: string, n: nat, r: nat)
    requires sp(' ')
    requires r < n
    ensures var toks := Tokens(sp, text);
      if toks != [] && |toks| % n == 0 then |Tokens(sp, ColumnParts(sp, text, n)[r])| == |toks| / n
      else ColumnParts(sp, text, n)[r] == if r == 0 then text else ""
  {
    var toks := Tokens(sp, text);
    if toks != [] && |toks| % n == 0 {
      EvenSplit(|toks|, n);
      EvenGroups(|toks| / n, n);
      PartsAreEven(sp, toks, |toks| / n, n, r);
    }
  }

  lemma {:induction false} SingleParts(toks: seq<string>, r: nat)
    requires r < |toks|
    ensures Groups(1, |toks|, |toks|) && Parts(toks, 1, |toks|)[r] == toks[r]
  {
    EvenGroups(1, |toks|);
    var n := |toks| - 1;
    if r < n {
      SingleParts(toks[..n], r);
    } else {
      assert toks[n..] == [toks[n]];
    }
  }

  /** The mark column splits into its tokens. */
  lemma {:induction false} MarkColumn(sp: Space, text: string)
    requires Tokens(sp, text) != []
    ensures ColumnParts(sp, text, |Tokens(sp, text)|) == Tokens(sp, text)
  {
    var toks := Tokens(sp, text);
    assert |toks| % |toks| == 0 && |toks| / |toks| == 1;
    EvenGroups(1, |toks|);
    forall r | 0 <= r < |toks| ensures Parts(toks, 1, |toks|)[r] == toks[r] { SingleParts(toks, r); }
  }

  /** Column c of the rows reads these values from top to bottom. */
  ghost predicate ColumnReads(rows: seq<seq<Cell>>, c: nat, parts: seq<string>)
  {
    |rows| == |parts| && forall r :: 0 <= r < |rows| ==> c < |rows[r]| && rows[r][c] == Some(parts[r])
  }

  /** N rows of the same width; row r carries the r-th mark; every column is the split of its
      cell and keeps its tokens. */
  ghost predicate ExpansionIsRight(sp: Space, rows: seq<seq<Cell>>, row: seq<Cell>, markCol: nat, clean: Cleaner)
    requires markCol < |row|
  {
    var marks := Tokens(sp, clean(row[markCol]));
    && |rows| == |marks| >= 1
    && (forall r :: 0 <= r < |rows| ==> |rows[r]| == |row| && rows[r][markCol] == Some(marks[r]))
    && (forall c :: 0 <= c < |row| ==> ColumnIsSplit(sp, rows, row, c, clean))
  }

  ghost predicate ColumnIsSplit(sp: Space, rows: seq<seq<Cell>>, row: seq<Cell>, c: nat, clean: Cleaner)
    requires c < |row| && |rows| >= 1
  {
    var parts := ColumnParts(sp, clean(row[c]), |rows|);
    ColumnReads(rows, c, parts) && AllTokensOf(sp, parts) == Tokens(sp, clean(row[c]))
  }

  /** The split of every cell of a row into n values. */
  ghost predicate ColumnsSplit(sp: Space, perCol: seq<seq<string>>, row: seq<Cell>, n: nat, clean: Cleaner)
  {
    && n >= 1 && |perCol| == |row|
    && forall c :: 0 <= c < |row| ==> |perCol[c]| == n && perCol[c] == ColumnParts(sp, clean(row[c]), n)
  }

  method SplitColumns(sp: Space, row: seq<Cell>, n: nat, clean: Cleaner) returns (perCol: seq<seq<string>>)
    requires n >= 1
    ensures ColumnsSplit(sp, perCol, row, n, clean)
  {
    perCol := [];
    for c := 0 to |row|
      invariant |perCol| == c
      invariant forall i :: 0 <= i < c ==> |perCol[i]| == n && perCol[i] == ColumnParts(sp, clean(row[i]), n)
    {
      perCol := perCol + [ColumnParts(sp, clean(row[c]), n)];
    }
  }

  ghost predicate RowsRead(rows: seq<seq<Cell>>, perCol: seq<seq<string>>, n: nat)
  {
    && |rows| == n
    && (forall r :: 0 <= r < n ==> |rows[r]| == |perCol|)
    && (forall c :: 0 <= c < |perCol| ==> ColumnReads(rows, c, perCol[c]))
  }

  /** The n rows whose column c reads perCol[c]. */
  method RowsFrom(perCol: seq<seq<string>>, n: nat) returns (rows: seq<seq<Cell>>)
    requires forall c :: 0 <= c < |perCol| ==> |perCol[c]| == n
    ensures RowsRead(rows, perCol, n)
  {
    rows := [];
    for r := 0 to n
      invariant |rows| == r
      invariant forall i :: 0 <= i < r ==> |rows[i]| == |perCol|
      invariant forall i, c :: 0 <= i < r && 0 <= c < |perCol| ==> rows[i][c] == Some(perCol[c][i])
    {
      rows := rows + [seq(|perCol|, c requires 0 <= c < |perCol| => Some(perCol[c][r]))];
    }
  }

  /** Every column's values hold its cell's tokens. */
  ghost predicate TokensKept(sp: Space, perCol: seq<seq<string>>, row: seq<Cell>, clean: Cleaner)
    requires |perCol| == |row|
  {
    forall c :: 0 <= c < |row| ==> AllTokensOf(sp, perCol[c]) == Tokens(sp, clean(row[c]))
  }

  lemma {:induction false} SplitsKeepTokens(sp: Space, perCol: seq<seq<string>>, row: seq<Cell>, n: nat,
                                            clean: Cleaner)
    requires sp(' ') && ColumnsSplit(sp, perCol, row, n, clean)
    ensures TokensKept(sp, perCol, row, clean)
  {
    forall c | 0 <= c < |row| ensures AllTokensOf(sp, perCol[c]) == Tokens(sp, clean(row[c])) {
      ColumnConserves(sp, clean(row[c]), n);
    }
  }

  method ExpandMerged(sp: Space, row: seq<Cell>, markCol: nat, clean: Cleaner) returns (rows: seq<seq<Cell>>)
    requires sp(' ')
    requires markCol < |row| && Tokens(sp, clean(row[markCol])) != []
    ensures ExpansionIsRight(sp, rows, row, markCol, clean)
  {
    var n := |Tokens(sp, clean(row[markCol]))|;
    var perCol := SplitColumns(sp, row, n, clean);
    rows := RowsFrom(perCol, n);
    MarkColumn(sp, clean(row[markCol]));
    SplitsKeepTokens(sp, perCol, row, n, clean);
    assert ColumnReads(rows, markCol, perCol[markCol]);
    forall c | 0 <= c < |row| ensures ColumnIsSplit(sp, rows, row, c, clean) {
      assert ColumnReads(rows, c, perCol[c]);
    }
  }

  // ---- selecting rows ----

  type Grammar = string -> bool

  /** The cell packs several mark tokens. */
  predicate IsMerged(sp: Space, text: string, isToken: Grammar)
  {
    |Tokens(sp, text)| >= 2 && forall i :: 0 <= i < |Tokens(sp, text)| ==> isToken(Tokens(sp, text)[i])
  }

  /** The marks one table row contributes. */
  function AcceptedMarks(sp: Space, row: seq<Cell>, markCol: nat, isMark: Grammar, isToken: Grammar,
                         clean: Cleaner): (ms: seq<string>)
  {
    var text := if markCol < |row| then clean(row[markCol]) else "";
    if IsMerged(sp, text, isToken) then Tokens(sp, text)
    else if text != "" && isMark(text) then [text]
    else []
  }

  function MarksOf(sp: Space, table: seq<seq<Cell>>, markCol: nat, isMark: Grammar, isToken: Grammar,
                   clean: Cleaner): (ms: seq<string>)
  {
    if table == [] then []
    else
      MarksOf(sp, table[..|table| - 1], markCol, isMark, isToken, clean)
        + AcceptedMarks(sp, table[|table| - 1], markCol, isMark, isToken, clean)
  }

  lemma {:induction false} MarksNext(sp: Space, table: seq<seq<Cell>>, k: nat, markCol: nat, isMark: Grammar,
                                     isToken: Grammar, clean: Cleaner)
    requires k < |table|
    ensures MarksOf(sp, table[..k + 1], markCol, isMark, isToken, clean)
         == MarksOf(sp, table[..k], markCol, isMark, isToken, clean)
              + AcceptedMarks(sp, table[k], markCol, isMark, isToken, clean)
  {
    assert table[..k + 1][..k] == table[..k];
  }

  /** Cleaning a single token leaves it alone. */
  ghost predicate KeepsTokens(sp: Space, clean: Cleaner) { forall t: string :: IsToken(sp, t) ==> clean(Some(t)) == t }

  /** Row i of `out` carries mark i. */
  ghost predicate Carry(out: seq<seq<Cell>>, marks: seq<string>, markCol: nat, clean: Cleaner)
  {
    && |out| == |marks|
    && forall i :: 0 <= i < |out| ==> markCol < |out[i]| && clean(out[i][markCol]) == marks[i]
  }

  lemma {:induction false} CarryConcat(a: seq<seq<Cell>>, b: seq<seq<Cell>>, ms: seq<string>, ns: seq<string>,
                                       markCol: nat, clean: Cleaner)
    requires Carry(a, ms, markCol, clean) && Carry(b, ns, markCol, clean)
    ensures Carry(a + b, ms + ns, markCol, clean)
  {
  }

  /** A merged row is expanded, a row with one mark passes as it is, any other is dropped. */
  ghost predicate ComeFrom(sp: Space, rows: seq<seq<Cell>>, row: seq<Cell>, markCol: nat, isMark: Grammar,
                           isToken: Grammar, clean: Cleaner)
  {
    var text := if markCol < |row| then clean(row[markCol]) else "";
    var words := Tokens(sp, text);
    if |words| >= 2 && forall i :: 0 <= i < |words| ==> isToken(words[i])
    then markCol < |row| && ExpansionIsRight(sp, rows, row, markCol, clean)
    else rows == if text != "" && isMark(text) then [row] else []
  }

  /** What one table row turns into. */
  method RowsOf(sp: Space, row: seq<Cell>, markCol: nat, isMark: Grammar, isToken: Grammar, clean: Cleaner)
    returns (rows: seq<seq<Cell>>)
    requires sp(' ')
    requires KeepsTokens(sp, clean)
    ensures Carry(rows, AcceptedMarks(sp, row, markCol, isMark, isToken, clean), markCol, clean)
    ensures ComeFrom(sp, rows, row, markCol, isMark, isToken, clean)
  {
    var text := if markCol < |row| then clean(row[markCol]) else "";
    if IsMerged(sp, text, isToken) {
      rows := ExpandMerged(sp, row, markCol, clean);
    } else if text != "" && isMark(text) {
      rows := [row];
    } else {
      rows := [];
    }
  }

  /** Part k comes from table row k. */
  ghost predicate AllComeFrom(sp: Space, parts: seq<seq<seq<Cell>>>, table: seq<seq<Cell>>, markCol: nat,
                              isMark: Grammar, isToken: Grammar, clean: Cleaner)
  {
    && |parts| == |table|
    && forall k :: 0 <= k < |table| ==> ComeFrom(sp, parts[k], table[k], markCol, isMark, isToken, clean)
  }

  lemma {:induction false} OneMoreRow(sp: Space, parts: seq<seq<seq<Cell>>>, table: seq<seq<Cell>>, k: nat,
                                      rows: seq<seq<Cell>>, markCol: nat, isMark: Grammar, isToken: Grammar,
                                      clean: Cleaner)
    requires k < |table| && AllComeFrom(sp, parts, table[..k], markCol, isMark, isToken, clean)
    requires ComeFrom(sp, rows, table[k], markCol, isMark, isToken, clean)
    ensures AllComeFrom(sp, parts + [rows], table[..k + 1], markCol, isMark, isToken, clean)
  {
    forall i | 0 <= i < k + 1
      ensures ComeFrom(sp, (parts + [rows])[i], table[..k + 1][i], markCol, isMark, isToken, clean)
    {
      if i < k { assert ComeFrom(sp, parts[i], table[..k][i], markCol, isMark, isToken, clean); }
    }
  }

  /** The selection from these table rows. */
  ghost predicate SelectedUpTo(sp: Space, out: seq<seq<Cell>>, parts: seq<seq<seq<Cell>>>, table: seq<seq<Cell>>,
                               markCol: nat, isMark: Grammar, isToken: Grammar, clean: Cleaner)
  {
    && Carry(out, MarksOf(sp, table, markCol, isMark, isToken, clean), markCol, clean)
    && out == Flatten(parts) && AllComeFrom(sp, parts, table, markCol, isMark, isToken, clean)
  }

  lemma {:induction false} SelectMore(sp: Space, out: seq<seq<Cell>>, parts: seq<seq<seq<Cell>>>,
                                      table: seq<seq<Cell>>, k: nat, rows: seq<seq<Cell>>, markCol: nat,
                                      isMark: Grammar, isToken: Grammar, clean: Cleaner)
    requires k < |table| && SelectedUpTo(sp, out, parts, table[..k], markCol, isMark, isToken, clean)
    requires Carry(rows, AcceptedMarks(sp, table[k], markCol, isMark, isToken, clean), markCol, clean)
    requires ComeFrom(sp, rows, table[k], markCol, isMark, isToken, clean)
    ensures SelectedUpTo(sp, out + rows, parts + [rows], table[..k + 1], markCol, isMark, isToken, clean)
  {
    MarksNext(sp, table, k, markCol, isMark, isToken, clean);
    CarryConcat(out, rows, MarksOf(sp, table[..k], markCol, isMark, isToken, clean),
                AcceptedMarks(sp, table[k], markCol, isMark, isToken, clean), markCol, clean);
    FlattenSnoc(parts, rows);
    OneMoreRow(sp, parts, table, k, rows, markCol, isMark, isToken, clean);
  }

  /** One row per accepted mark token, in table order. */
  method SelectDoorRows(sp: Space, table: seq<seq<Cell>>, markCol: nat, isMark: Grammar, isToken: Grammar,
                        clean: Cleaner)
    returns (out: seq<seq<Cell>>, ghost parts: seq<seq<seq<Cell>>>)
    requires sp(' ')
    requires KeepsTokens(sp, clean)
    ensures Carry(out, MarksOf(sp, table, markCol, isMark, isToken, clean), markCol, clean)
    ensures out == Flatten(parts) && AllComeFrom(sp, parts, table, markCol, isMark, isToken, clean)
  {
    out, parts := [], [];
    for k := 0 to |table|
      invariant SelectedUpTo(sp, out, parts, table[..k], markCol, isMark, isToken, clean)
    {
      var rows := RowsOf(sp, table[k], markCol, isMark, isToken, clean);
      SelectMore(sp, out, parts, table, k, rows, markCol, isMark, isToken, clean);
      out, parts := out + rows, parts + [rows];
    }
    assert table[..|table|] == table;
  }

  const MIN_BUILTIN_MARKS := 5

  /** The built-in grammar if it applies often enough, else the discovered one. */
  method SelectDoorRowsAuto(sp: Space, table: seq<seq<Cell>>, markCol: nat, builtinMark: Grammar, builtinToken: Grammar,
                            looksLikeMark: Grammar, clean: Cleaner)
    returns (out: seq<seq<Cell>>, ghost parts: seq<seq<seq<Cell>>>)
    requires sp(' ')
    requires KeepsTokens(sp, clean)
    ensures var builtin := MarksOf(sp, table, markCol, builtinMark, builtinToken, clean);
      var marks := if |builtin| >= 5 then builtin
                   else MarksOf(sp, table, markCol, looksLikeMark, looksLikeMark, clean);
      Carry(out, marks, markCol, clean)
    ensures var enough := |MarksOf(sp, table, markCol, builtinMark, builtinToken, clean)| >= 5;
      var isMark := if enough then builtinMark else looksLikeMark;
      var isToken := if enough then builtinToken else looksLikeMark;
      out == Flatten(parts) && AllComeFrom(sp, parts, table, markCol, isMark, isToken, clean)
  {
    out, parts := SelectDoorRows(sp, table, markCol, builtinMark, builtinToken, clean);
    if |out| < MIN_BUILTIN_MARKS {
      out, parts := SelectDoorRows(sp, table, markCol, looksLikeMark, looksLikeMark, clean);
    }
  }
}
