/** Sequence and option vocabulary shared by the models: flattening, the built-in
    `sorted` of the source (a stable sort by a numeric key) and `sorted(set(...))`. */
module Sequences {

  datatype Option<+T> = None | Some(value: T)

  datatype Result<+T, +E> = Success(value: T) | Failure(error: E)

  function Decimal(n: nat): (s: string)
  {
    var digit := [('0' as int + n % 10) as char];
    if n < 10 then digit else Decimal(n / 10) + digit
  }

  predicate IsDigit(c: char) { '0' <= c <= '9' }

  /** The number a string of digits is read as. */
  function ValueOf(s: string): (n: int)
    requires forall i :: 0 <= i < |s| ==> IsDigit(s[i])
  {
    if s == "" then 0 else 10 * ValueOf(s[..|s| - 1]) + (s[|s| - 1] as int - '0' as int)
  }

  /** A numeral is digits that read as the number, without a leading zero; so different numbers
      have different numerals. */
  lemma {:induction false} DecimalReads(n: nat)
    ensures Decimal(n) != "" && (n > 0 ==> Decimal(n)[0] != '0')
    ensures forall i :: 0 <= i < |Decimal(n)| ==> IsDigit(Decimal(n)[i])
    ensures ValueOf(Decimal(n)) == n
  {
    var digit := [('0' as int + n % 10) as char];
    if n >= 10 {
      DecimalReads(n / 10);
      assert (Decimal(n / 10) + digit)[..|Decimal(n)| - 1] == Decimal(n / 10);
    } else {
      assert digit[..0] == "";
    }
  }

  function Flatten<T>(parts: seq<seq<T>>): (all: seq<T>)
  {
    if parts == [] then [] else Flatten(parts[..|parts| - 1]) + parts[|parts| - 1]
  }

  lemma {:induction false} Snoc<T>(p: seq<T>, b: seq<T>)
    requires b != []
    ensures p + b == p + b[..|b| - 1] + [b[|b| - 1]]
  {
  }

  lemma {:induction false} TakeSnoc<T>(p: seq<T>, b: seq<T>, t: nat)
    requires t < |b|
    ensures p + b[..t + 1] == p + b[..t] + [b[t]]
  {
  }

  lemma {:induction false} SnocSelf<T>(b: seq<T>)
    requires b != []
    ensures b == b[..|b| - 1] + [b[|b| - 1]]
  {
  }

  lemma {:induction false} Assoc<T>(a: seq<T>, b: seq<T>, c: seq<T>)
    ensures a + b + c == a + (b + c)
  {
  }

  lemma {:induction false} FlattenSnoc<T>(parts: seq<seq<T>>, last: seq<T>)
    ensures Flatten(parts + [last]) == Flatten(parts) + last
  {
    assert (parts + [last])[..|parts|] == parts;
  }

  lemma {:induction false} HeadIn<T>(s: seq<T>)
    ensures s != [] ==> s[0] in s
  {
  }

  lemma {:induction false} FlattenConcat<T>(a: seq<seq<T>>, b: seq<seq<T>>)
    ensures Flatten(a + b) == Flatten(a) + Flatten(b)
  {
    if b == [] {
      assert a + b == a;
    } else {
      var front := b[..|b| - 1];
      assert (a + b)[..|a + b| - 1] == a + front;
      FlattenConcat(a, front);
    }
  }

  lemma {:induction false} InFlatten<T>(parts: seq<seq<T>>, x: T)
    ensures x in Flatten(parts) <==> exists k :: 0 <= k < |parts| && x in parts[k]
  {
    if parts != [] {
      var n := |parts| - 1;
      InFlatten(parts[..n], x);
      if x in Flatten(parts) {
        if x in parts[n] {
        } else {
          var k :| 0 <= k < n && x in parts[..n][k];
          assert x in parts[k];
        }
      }
      if k :| 0 <= k < |parts| && x in parts[k] {
        if k < n {
          assert x in parts[..n][k];
        }
      }
    }
  }

  // ---- counting ----

  function Count<T>(s: seq<T>, p: T -> bool): (n: nat)
    ensures n <= |s|
  {
    if s == [] then 0
    else Count(s[..|s| - 1], p) + if p(s[|s| - 1]) then 1 else 0
  }

  lemma {:induction false} CountUpdate<T>(s: seq<T>, p: T -> bool, i: nat, v: T)
    requires i < |s|
    ensures Count(s[i := v], p) + (if p(s[i]) then 1 else 0)
         == Count(s, p) + (if p(v) then 1 else 0)
  {
    var n := |s| - 1;
    if i == n {
      assert s[i := v][..n] == s[..n];
    } else {
      CountUpdate(s[..n], p, i, v);
      assert s[i := v][..n] == s[..n][i := v];
    }
  }

  /** A full count means every element satisfies p. */
  lemma {:induction false} CountFull<T>(s: seq<T>, p: T -> bool, i: nat)
    requires i < |s|
    ensures Count(s, p) == |s| ==> p(s[i])
  {
    var n := |s| - 1;
    if i < n && Count(s, p) == |s| {
      CountFull(s[..n], p, i);
    }
  }

  lemma {:induction false} CountAll<T>(s: seq<T>, p: T -> bool)
    requires forall i :: 0 <= i < |s| ==> p(s[i])
    ensures Count(s, p) == |s|
  {
    if s != [] {
      CountAll(s[..|s| - 1], p);
    }
  }

  lemma {:induction false} CountNone<T>(s: seq<T>, p: T -> bool)
    requires forall i :: 0 <= i < |s| ==> !p(s[i])
    ensures Count(s, p) == 0
  {
    if s != [] {
      CountNone(s[..|s| - 1], p);
    }
  }

  // ---- summing ----

  function Sum<T>(s: seq<T>, weight: T -> nat): (n: nat)
  {
    if s == [] then 0 else Sum(s[..|s| - 1], weight) + weight(s[|s| - 1])
  }

  lemma {:induction false} SumUpdate<T>(s: seq<T>, weight: T -> nat, i: nat, v: T)
    requires i < |s|
    ensures Sum(s[i := v], weight) + weight(s[i]) == Sum(s, weight) + weight(v)
  {
    var n := |s| - 1;
    if i == n {
      assert s[i := v][..n] == s[..n];
    } else {
      SumUpdate(s[..n], weight, i, v);
      assert s[i := v][..n] == s[..n][i := v];
    }
  }

  // ---- sorted(set(xs)) over page numbers ----

  ghost predicate Ascending(s: seq<int>)
  {
    forall i, j :: 0 <= i < j < |s| ==> s[i] < s[j]
  }

  lemma {:induction false} AscendingBelow(head: int, x: int, tail: seq<int>, rest: seq<int>)
    requires head < x && Ascending([head] + tail) && Ascending(rest)
    requires forall p :: p in rest <==> p == x || p in tail
    ensures Ascending([head] + rest)
  {
    forall i | 0 <= i < |rest| ensures head < rest[i] {
      assert rest[i] in rest;
      if rest[i] != x {
        var k :| 0 <= k < |tail| && tail[k] == rest[i];
        assert ([head] + tail)[0] < ([head] + tail)[k + 1] == rest[i];
      }
    }
  }

  // ---- sub-lists ----

  /** `kept` holds the entries of `xs` at the positions `at`, in their order. */
  ghost predicate Picked<T>(kept: seq<T>, xs: seq<T>, at: seq<int>)
  {
    && |kept| == |at| && Ascending(at)
    && forall k :: 0 <= k < |at| ==> 0 <= at[k] < |xs| && kept[k] == xs[at[k]]
  }

  /** `kept` is `xs` without the entries that do not pass, order and multiplicity included. */
  ghost predicate Filtered<T>(kept: seq<T>, xs: seq<T>, passes: T -> bool)
  {
    exists at :: Picked(kept, xs, at) && forall i :: i in at <==> 0 <= i < |xs| && passes(xs[i])
  }

  lemma {:induction false} PickedSnoc<T>(kept: seq<T>, xs: seq<T>, at: seq<int>, x: T)
    requires Picked(kept, xs, at)
    ensures Picked(kept, xs + [x], at) && Picked(kept + [x], xs + [x], at + [|xs|])
    ensures forall i :: i in at + [|xs|] <==> i in at || i == |xs|
    ensures |xs| !in at
  {
  }

  /** One more entry at the end: kept iff it passes. */
  lemma {:induction false} FilteredSnoc<T>(kept: seq<T>, xs: seq<T>, passes: T -> bool, x: T)
    requires Filtered(kept, xs, passes)
    ensures Filtered(if passes(x) then kept + [x] else kept, xs + [x], passes)
  {
    var at :| Picked(kept, xs, at) && forall i :: i in at <==> 0 <= i < |xs| && passes(xs[i]);
    PickedSnoc(kept, xs, at, x);
    var at', all := if passes(x) then at + [|xs|] else at, xs + [x];
    forall i ensures i in at' <==> 0 <= i < |all| && passes(all[i]) {
      assert 0 <= i < |xs| ==> all[i] == xs[i];
    }
  }

  lemma {:induction false} FilteredNone<T>(passes: T -> bool)
    ensures Filtered([], [], passes)
  {
    var xs: seq<T>, at: seq<int> := [], [];
    assert Picked(xs, xs, at);
  }

  function InsertDistinct(x: int, s: seq<int>): (r: seq<int>)
    requires Ascending(s)
    ensures Ascending(r)
    ensures forall p :: p in r <==> p == x || p in s
  {
    if s == [] then [x]
    else if x < s[0] then [x] + s
    else if x == s[0] then s
    else
      var rest := InsertDistinct(x, s[1..]);
      assert forall p :: p in s <==> p == s[0] || p in s[1..];
      assert [s[0]] + s[1..] == s;
      AscendingBelow(s[0], x, s[1..], rest);
      [s[0]] + rest
  }

  /** The distinct values of `xs`, ascending. */
  function SortedDistinct(xs: seq<int>): (r: seq<int>)
    ensures Ascending(r)
    ensures forall p :: p in r <==> p in xs
  {
    if xs == [] then [] else InsertDistinct(xs[0], SortedDistinct(xs[1..]))
  }

  /** An ascending sequence is determined by its elements. */
  lemma {:induction false} AscendingUnique(a: seq<int>, b: seq<int>)
    requires Ascending(a) && Ascending(b)
    requires forall p :: p in a <==> p in b
    ensures a == b
  {
    if |b| > 0 { assert b[0] in b; }
    if |a| > 0 { assert a[0] in a && a[0] in b; }
    if |a| > 0 && |b| > 0 {
      assert a[0] in a && b[0] in b;
      var i :| 0 <= i < |a| && a[i] == b[0];
      var j :| 0 <= j < |b| && b[j] == a[0];
      assert a[0] == b[0];
      forall p ensures p in a[1..] <==> p in b[1..] {
        assert p in a <==> p == a[0] || p in a[1..];
        assert p in b <==> p == b[0] || p in b[1..];
      }
      AscendingUnique(a[1..], b[1..]);
    }
  }

  lemma {:induction false} AscendingCard(s: seq<int>)
    requires Ascending(s)
    ensures |set p | p in s| == |s|
  {
    if s != [] {
      var front := s[..|s| - 1];
      AscendingCard(front);
      var last := s[|s| - 1];
      assert (set p | p in s) == (set p | p in front) + {last};
      assert last !in front;
    }
  }
}
