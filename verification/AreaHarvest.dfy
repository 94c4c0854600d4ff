/** Binding printed area labels to rooms: each label goes to its nearest room, each room keeps
    its closest label (src/takeoff/area_harvest.py). The distance and the rounding are given
    functions. */
module AreaHarvest {
  import opened Sequences

  datatype RoomToken = RoomToken(room: string, x: real, y: real)

  datatype Label = Label(area: real, x: real, y: real)

  type Metric = (RoomToken, Label) -> real

  /** A label bound to its nearest room; `tag` is its position in the label list. */
  datatype Pair = Pair(dist: real, room: string, area: real, tag: nat)

  // ---- the nearest room of a label ----

  /** Room token k is the first closest one within reach. */
  ghost predicate IsNearest(rooms: seq<RoomToken>, l: Label, k: int, maxDist: real, metric: Metric)
  {
    && 0 <= k < |rooms| && metric(rooms[k], l) <= maxDist
    && (forall j :: 0 <= j < |rooms| ==> metric(rooms[k], l) <= metric(rooms[j], l))
    && (forall j :: 0 <= j < k ==> metric(rooms[k], l) < metric(rooms[j], l))
  }

  /** The inner loop over the rooms. */
  method NearestRoom(rooms: seq<RoomToken>, l: Label, maxDist: real, metric: Metric) returns (best: Option<nat>)
    ensures best.Some? ==> IsNearest(rooms, l, best.value, maxDist, metric)
    ensures best.None? ==> forall j :: 0 <= j < |rooms| ==> metric(rooms[j], l) > maxDist
  {
    best := None;
    for k := 0 to |rooms|
      invariant best.Some? ==> best.value < k && metric(rooms[best.value], l) <= maxDist
      invariant best.Some? ==>
        && (forall j :: 0 <= j < k ==> metric(rooms[best.value], l) <= metric(rooms[j], l))
        && (forall j :: 0 <= j < best.value ==> metric(rooms[best.value], l) < metric(rooms[j], l))
      invariant best.None? ==> forall j :: 0 <= j < k ==> metric(rooms[j], l) > maxDist
    {
      var d := metric(rooms[k], l);
      if d <= maxDist && (best.None? || d < metric(rooms[best.value], l)) {
        best := Some(k);
      }
    }
  }

  /** Label i is small enough to be a room's and room token k is its nearest. */
  ghost predicate BindsTo(rooms: seq<RoomToken>, labels: seq<Label>, i: int, k: int, maxDist: real, maxSf: real,
                          metric: Metric)
  {
    0 <= i < |labels| && labels[i].area <= maxSf && IsNearest(rooms, labels[i], k, maxDist, metric)
  }

  /** The binding of label i to room token k. */
  function PairOf(rooms: seq<RoomToken>, labels: seq<Label>, i: int, k: int, metric: Metric): Pair
    requires 0 <= i < |labels| && 0 <= k < |rooms|
  {
    Pair(metric(rooms[k], labels[i]), rooms[k].room, labels[i].area, i)
  }

  /** The pair says which room its label binds to, and how far. */
  ghost predicate PairIsRight(p: Pair, rooms: seq<RoomToken>, labels: seq<Label>, maxDist: real, maxSf: real,
                              metric: Metric)
  {
    exists k :: BindsTo(rooms, labels, p.tag, k, maxDist, maxSf, metric) && p.dist == metric(rooms[k], labels[p.tag])
      && p.room == rooms[k].room && p.area == labels[p.tag].area
  }

  predicate HasTag(pairs: seq<Pair>, i: int) { exists q :: 0 <= q < |pairs| && pairs[q].tag == i }

  ghost predicate PairsAreRight(pairs: seq<Pair>, rooms: seq<RoomToken>, labels: seq<Label>, maxDist: real,
                                maxSf: real, metric: Metric)
  {
    && (forall q :: 0 <= q < |pairs| ==> PairIsRight(pairs[q], rooms, labels, maxDist, maxSf, metric))
    && (forall i, k :: BindsTo(rooms, labels, i, k, maxDist, maxSf, metric) ==>
          HasTag(pairs, i))
  }

  ghost predicate LabelsAscend(pairs: seq<Pair>)
  {
    forall q, r :: 0 <= q < r < |pairs| ==> pairs[q].tag < pairs[r].tag
  }

  /** The bindings of the first n labels. */
  ghost predicate BoundUpTo(pairs: seq<Pair>, rooms: seq<RoomToken>, labels: seq<Label>, n: int, maxDist: real,
                            maxSf: real, metric: Metric)
  {
    && LabelsAscend(pairs)
    && (forall q :: 0 <= q < |pairs| ==>
          pairs[q].tag < n && PairIsRight(pairs[q], rooms, labels, maxDist, maxSf, metric))
    && (forall j, k :: j < n && BindsTo(rooms, labels, j, k, maxDist, maxSf, metric) ==> HasTag(pairs, j))
  }

  lemma {:induction false} BindOne(pairs: seq<Pair>, rooms: seq<RoomToken>, labels: seq<Label>, i: nat, k: int,
                                   maxDist: real, maxSf: real, metric: Metric)
    requires BoundUpTo(pairs, rooms, labels, i, maxDist, maxSf, metric)
    requires BindsTo(rooms, labels, i, k, maxDist, maxSf, metric)
    ensures BoundUpTo(pairs + [PairOf(rooms, labels, i, k, metric)], rooms, labels, i + 1, maxDist, maxSf, metric)
  {
    var p := PairOf(rooms, labels, i, k, metric);
    var all := pairs + [p];
    assert PairIsRight(p, rooms, labels, maxDist, maxSf, metric);
    forall j, k' | j < i + 1 && BindsTo(rooms, labels, j, k', maxDist, maxSf, metric) ensures HasTag(all, j) {
      if j < i {
        assert HasTag(pairs, j);
        var q :| 0 <= q < |pairs| && pairs[q].tag == j;
        assert all[q].tag == j;
      } else {
        assert all[|pairs|].tag == j;
      }
    }
  }

  method BindLabels(rooms: seq<RoomToken>, labels: seq<Label>, maxDist: real, maxSf: real, metric: Metric)
    returns (pairs: seq<Pair>)
    ensures PairsAreRight(pairs, rooms, labels, maxDist, maxSf, metric)
    ensures LabelsAscend(pairs)
  {
    pairs := [];
    for i := 0 to |labels|
      invariant BoundUpTo(pairs, rooms, labels, i, maxDist, maxSf, metric)
    {
      if labels[i].area <= maxSf {
        var best := NearestRoom(rooms, labels[i], maxDist, metric);
        if best.Some? {
          var k := best.value;
          BindOne(pairs, rooms, labels, i, k, maxDist, maxSf, metric);
          pairs := pairs + [PairOf(rooms, labels, i, k, metric)];
        }
      }
    }
  }

  // ---- pairs.sort(key=distance), stable ----

  /** Closer first; of equally close ones, the earlier label first. */
  predicate Closer(p: Pair, q: Pair) { p.dist < q.dist || (p.dist == q.dist && p.tag < q.tag) }

  ghost predicate Ordered(pairs: seq<Pair>)
  {
    forall q, r :: 0 <= q < r < |pairs| ==> Closer(pairs[q], pairs[r])
  }

  function InsertByDistance(p: Pair, s: seq<Pair>): (r: seq<Pair>)
    ensures forall x :: x in r <==> x == p || x in s
    ensures Ordered(s) && (forall x :: x in s ==> p.tag < x.tag) ==> Ordered(r)
  {
    if s == [] || p.dist <= s[0].dist then
      assert forall i :: 0 <= i < |s| ==> s[i] in s;
      [p] + s
    else
      var rest := InsertByDistance(p, s[1..]);
      assert forall x :: x in s <==> x == s[0] || x in s[1..];
      assert forall i :: 0 <= i < |s[1..]| ==> s[1..][i] == s[i + 1];
      assert forall i :: 0 <= i < |rest| ==> rest[i] in rest;
      [s[0]] + rest
  }

  function SortByDistance(pairs: seq<Pair>): (r: seq<Pair>)
    ensures forall x :: x in r <==> x in pairs
  {
    if pairs == [] then []
    else
      assert forall x :: x in pairs <==> x == pairs[0] || x in pairs[1..];
      InsertByDistance(pairs[0], SortByDistance(pairs[1..]))
  }

  lemma {:induction false} SortOrders(pairs: seq<Pair>)
    requires LabelsAscend(pairs)
    ensures Ordered(SortByDistance(pairs))
  {
    if pairs != [] {
      SortOrders(pairs[1..]);
    }
  }

  // ---- the greedy pass ----

  /** The room that label i binds to has an entry, from this label or a closer one. */
  ghost predicate Served(out: seq<Pair>, rooms: seq<RoomToken>, labels: seq<Label>, i: int, k: int, metric: Metric)
    requires 0 <= i < |labels| && 0 <= k < |rooms|
  {
    exists q :: 0 <= q < |out| && out[q].room == rooms[k].room
      && (out[q].dist < metric(rooms[k], labels[i]) || (out[q].dist == metric(rooms[k], labels[i]) && out[q].tag <= i))
  }

  /** Another room, another label, and farther (or as far and a later label). */
  predicate Apart(p: Pair, q: Pair)
  {
    p.room != q.room && p.tag != q.tag && (p.dist < q.dist || (p.dist == q.dist && p.tag < q.tag))
  }

  /** One area per contested room, from the closest label that binds to it; no label serves
      two rooms; closest first. */
  ghost predicate JoinIsRight(out: seq<Pair>, rooms: seq<RoomToken>, labels: seq<Label>, maxDist: real, maxSf: real,
                              metric: Metric)
  {
    && (forall q :: 0 <= q < |out| ==> PairIsRight(out[q], rooms, labels, maxDist, maxSf, metric))
    && (forall i, k :: BindsTo(rooms, labels, i, k, maxDist, maxSf, metric) ==>
          Served(out, rooms, labels, i, k, metric))
    && AllApart(out)
  }

  /** `out` keeps, in order, the first pair of every room in `pairs`. */
  ghost predicate FirstPerRoom(out: seq<Pair>, pairs: seq<Pair>)
  {
    && Ordered(out)
    && (forall q :: 0 <= q < |out| ==> out[q] in pairs)
    && (forall q, r :: 0 <= q < r < |out| ==> out[q].room != out[r].room)
    && (forall x :: x in pairs ==> Represented(out, x))
  }

  /** Some kept pair of the same room is this one or closer. */
  ghost predicate Represented(out: seq<Pair>, x: Pair)
  {
    exists q :: 0 <= q < |out| && out[q].room == x.room && (out[q] == x || Closer(out[q], x))
  }

  method KeepFirstPerRoom(pairs: seq<Pair>) returns (out: seq<Pair>)
    requires Ordered(pairs)
    ensures FirstPerRoom(out, pairs)
  {
    var used: set<string> := {};
    out := [];
    for k := 0 to |pairs|
      invariant FirstPerRoom(out, pairs[..k])
      invariant forall room :: room in used <==> exists q :: 0 <= q < |out| && out[q].room == room
    {
      var p := pairs[k];
      assert pairs[..k + 1] == pairs[..k] + [p];
      assert forall x :: x in pairs[..k] ==> Closer(x, p);
      if p.room in used {
        SkipKeeps(out, pairs[..k], p);
      } else {
        TakeKeeps(out, pairs[..k], p);
        ghost var before := out;
        used := used + {p.room};
        out := out + [p];
        assert out[|before|] == p;
        assert forall q :: 0 <= q < |before| ==> out[q] == before[q];
      }
    }
    assert pairs[..|pairs|] == pairs;
  }

  /** A pair whose room is taken: the entry that took it is closer. */
  lemma {:induction false} SkipKeeps(out: seq<Pair>, done: seq<Pair>, p: Pair)
    requires FirstPerRoom(out, done) && forall x :: x in done ==> Closer(x, p)
    requires exists q :: 0 <= q < |out| && out[q].room == p.room
    ensures FirstPerRoom(out, done + [p])
  {
    var q :| 0 <= q < |out| && out[q].room == p.room;
    assert out[q] in done;
    assert Represented(out, p);
  }

  lemma {:induction false} TakeKeeps(out: seq<Pair>, done: seq<Pair>, p: Pair)
    requires FirstPerRoom(out, done) && forall x :: x in done ==> Closer(x, p)
    requires forall q :: 0 <= q < |out| ==> out[q].room != p.room
    ensures FirstPerRoom(out + [p], done + [p])
  {
    var longer := out + [p];
    forall q | 0 <= q < |out| ensures Closer(longer[q], p) { assert out[q] in done; }
    forall x | x in done + [p] ensures Represented(longer, x) {
      if x in done {
        StillRepresented(out, x, p);
      } else {
        assert longer[|out|] == x;
      }
    }
  }

  lemma {:induction false} StillRepresented(out: seq<Pair>, x: Pair, p: Pair)
    requires Represented(out, x)
    ensures Represented(out + [p], x)
  {
    var q :| 0 <= q < |out| && out[q].room == x.room && (out[q] == x || Closer(out[q], x));
    assert (out + [p])[q] == out[q];
  }

  lemma {:induction false} NearestUnique(rooms: seq<RoomToken>, l: Label, a: int, b: int, maxDist: real, metric: Metric)
    requires IsNearest(rooms, l, a, maxDist, metric) && IsNearest(rooms, l, b, maxDist, metric)
    ensures a == b
  {
  }

  /** Every binding of a label is one of the pairs. */
  lemma {:induction false} BindingIsPair(bound: seq<Pair>, rooms: seq<RoomToken>, labels: seq<Label>, i: int, k: int,
                                         maxDist: real, maxSf: real, metric: Metric)
    requires PairsAreRight(bound, rooms, labels, maxDist, maxSf, metric)
    requires BindsTo(rooms, labels, i, k, maxDist, maxSf, metric)
    ensures PairOf(rooms, labels, i, k, metric) in bound
  {
    assert HasTag(bound, i);
    var q :| 0 <= q < |bound| && bound[q].tag == i;
    assert PairIsRight(bound[q], rooms, labels, maxDist, maxSf, metric);
    var k' :| BindsTo(rooms, labels, bound[q].tag, k', maxDist, maxSf, metric)
      && bound[q] == PairOf(rooms, labels, bound[q].tag, k', metric);
    NearestUnique(rooms, labels[i], k, k', maxDist, metric);
    assert bound[q] in bound;
  }

  /** A label has one binding. */
  lemma {:induction false} OnePairPerLabel(p: Pair, q: Pair, rooms: seq<RoomToken>, labels: seq<Label>, maxDist: real,
                                           maxSf: real, metric: Metric)
    requires PairIsRight(p, rooms, labels, maxDist, maxSf, metric)
    requires PairIsRight(q, rooms, labels, maxDist, maxSf, metric)
    ensures p.tag == q.tag ==> p == q
  {
    if p.tag == q.tag {
      var a :| BindsTo(rooms, labels, p.tag, a, maxDist, maxSf, metric) && p == PairOf(rooms, labels, p.tag, a, metric);
      var b :| BindsTo(rooms, labels, q.tag, b, maxDist, maxSf, metric) && q == PairOf(rooms, labels, q.tag, b, metric);
      NearestUnique(rooms, labels[p.tag], a, b, maxDist, metric);
    }
  }

  lemma {:induction false} JoinedIsRight(out: seq<Pair>, bound: seq<Pair>, pairs: seq<Pair>, rooms: seq<RoomToken>,
                                         labels: seq<Label>, maxDist: real, maxSf: real, metric: Metric)
    requires PairsAreRight(bound, rooms, labels, maxDist, maxSf, metric)
    requires forall x :: x in pairs <==> x in bound
    requires FirstPerRoom(out, pairs)
    ensures JoinIsRight(out, rooms, labels, maxDist, maxSf, metric)
  {
    forall q | 0 <= q < |out| ensures PairIsRight(out[q], rooms, labels, maxDist, maxSf, metric) {
      assert out[q] in pairs && out[q] in bound;
    }
    forall i, k | BindsTo(rooms, labels, i, k, maxDist, maxSf, metric)
      ensures Served(out, rooms, labels, i, k, metric)
    {
      BindingIsPair(bound, rooms, labels, i, k, maxDist, maxSf, metric);
    }
    forall q, r | 0 <= q < r < |out| ensures Apart(out[q], out[r]) {
      OnePairPerLabel(out[q], out[r], rooms, labels, maxDist, maxSf, metric);
      assert Closer(out[q], out[r]);
    }
  }

  ghost predicate AllApart(a: seq<Pair>) { forall q, r :: 0 <= q < r < |a| ==> Apart(a[q], a[r]) }

  lemma {:induction false} OnePerRoom(a: seq<Pair>, p: nat, q: nat)
    requires AllApart(a) && p < |a| && q < |a|
    ensures p != q ==> a[p].room != a[q].room
  {
    assert p < q ==> Apart(a[p], a[q]);
    assert q < p ==> Apart(a[q], a[p]);
  }

  /** If each list represents the entries of the other, an entry of one is in the other. */
  lemma {:induction false} SharedEntry(a: seq<Pair>, b: seq<Pair>, x: Pair)
    requires AllApart(a) && x in a && Represented(b, x)
    requires forall r :: 0 <= r < |b| ==> Represented(a, b[r])
    ensures x in b
  {
    var r :| 0 <= r < |b| && b[r].room == x.room && (b[r] == x || Closer(b[r], x));
    assert Represented(a, b[r]);
    var q :| 0 <= q < |a| && a[q].room == b[r].room && (a[q] == b[r] || Closer(a[q], b[r]));
    var p :| 0 <= p < |a| && a[p] == x;
    OnePerRoom(a, p, q);
  }

  lemma {:induction false} EntryRepresented(a: seq<Pair>, b: seq<Pair>, rooms: seq<RoomToken>, labels: seq<Label>,
                                            maxDist: real, maxSf: real, metric: Metric, x: Pair)
    requires JoinIsRight(a, rooms, labels, maxDist, maxSf, metric)
    requires JoinIsRight(b, rooms, labels, maxDist, maxSf, metric)
    requires x in a
    ensures Represented(b, x)
  {
    assert PairIsRight(x, rooms, labels, maxDist, maxSf, metric);
    var k :| BindsTo(rooms, labels, x.tag, k, maxDist, maxSf, metric) && x == PairOf(rooms, labels, x.tag, k, metric);
    assert Served(b, rooms, labels, x.tag, k, metric);
    var q :| 0 <= q < |b| && b[q].room == x.room
      && (b[q].dist < x.dist || (b[q].dist == x.dist && b[q].tag <= x.tag));
    if b[q].tag == x.tag {
      OnePairPerLabel(b[q], x, rooms, labels, maxDist, maxSf, metric);
    }
    assert b[q] == x || Closer(b[q], x);
  }

  /** The promise leaves no freedom: two right joins of the same page are the same list. */
  lemma {:induction false} JoinUnique(a: seq<Pair>, b: seq<Pair>, rooms: seq<RoomToken>, labels: seq<Label>,
                                      maxDist: real, maxSf: real, metric: Metric)
    requires JoinIsRight(a, rooms, labels, maxDist, maxSf, metric)
    requires JoinIsRight(b, rooms, labels, maxDist, maxSf, metric)
    ensures a == b
  {
    forall r | 0 <= r < |a| ensures Represented(b, a[r]) {
      EntryRepresented(a, b, rooms, labels, maxDist, maxSf, metric, a[r]);
    }
    forall r | 0 <= r < |b| ensures Represented(a, b[r]) {
      EntryRepresented(b, a, rooms, labels, maxDist, maxSf, metric, b[r]);
    }
    forall x ensures x in a <==> x in b {
      if x in a { SharedEntry(a, b, x); }
      if x in b { SharedEntry(b, a, x); }
    }
    ApartOrdered(a);
    ApartOrdered(b);
    OrderedUnique(a, b);
  }

  lemma {:induction false} ApartOrdered(a: seq<Pair>)
    requires AllApart(a)
    ensures Ordered(a)
  {
    forall q, r | 0 <= q < r < |a| ensures Closer(a[q], a[r]) { assert Apart(a[q], a[r]); }
  }

  lemma {:induction false} OrderedUnique(a: seq<Pair>, b: seq<Pair>)
    requires Ordered(a) && Ordered(b) && forall x :: x in a <==> x in b
    ensures a == b
  {
    HeadIn(a);
    HeadIn(b);
    if a != [] && b != [] {
      var i :| 0 <= i < |a| && a[i] == b[0];
      var j :| 0 <= j < |b| && b[j] == a[0];
      assert a[0] == b[0];
      forall x ensures x in a[1..] <==> x in b[1..] {
        assert x in a <==> x == a[0] || x in a[1..];
        assert x in b <==> x == b[0] || x in b[1..];
      }
      OrderedUnique(a[1..], b[1..]);
    }
  }

  /** The entries are exactly the rooms some kept label binds to, each once. */
  lemma {:induction false} OneAreaPerRoom(out: seq<Pair>, rooms: seq<RoomToken>, labels: seq<Label>, maxDist: real,
                                          maxSf: real, metric: Metric, room: string)
    requires JoinIsRight(out, rooms, labels, maxDist, maxSf, metric)
    ensures (exists q :: 0 <= q < |out| && out[q].room == room)
       <==> (exists i, k :: BindsTo(rooms, labels, i, k, maxDist, maxSf, metric) && rooms[k].room == room)
    ensures forall q, r :: 0 <= q < |out| && 0 <= r < |out| && out[q].room == out[r].room ==> q == r
  {
    if q :| 0 <= q < |out| && out[q].room == room {
      assert PairIsRight(out[q], rooms, labels, maxDist, maxSf, metric);
      var k :| BindsTo(rooms, labels, out[q].tag, k, maxDist, maxSf, metric)
        && out[q] == PairOf(rooms, labels, out[q].tag, k, metric);
    }
    if i, k :| BindsTo(rooms, labels, i, k, maxDist, maxSf, metric) && rooms[k].room == room {
      assert Served(out, rooms, labels, i, k, metric);
    }
  }

  // ---- the harvested areas ----

  type Rounding = real -> real

  datatype RoomArea = RoomArea(room: string, area: real, confidence: real)

  /** Dividing by a max_dist of 0 raises; it takes a label right on a room token. */
  datatype JoinError = DivisionByZero

  /** The entry of a kept pair: its confidence falls off linearly with the distance. */
  function AreaOf(p: Pair, maxDist: real, round: Rounding): RoomArea
    requires maxDist != 0.0
  {
    var c := round(1.0 - p.dist / maxDist);
    RoomArea(p.room, p.area, if c > 0.0 then c else 0.0)
  }

  function AreasOf(kept: seq<Pair>, maxDist: real, round: Rounding): (areas: seq<RoomArea>)
    requires maxDist != 0.0 || kept == []
    ensures |areas| == |kept|
  {
    seq(|kept|, k requires 0 <= k < |kept| => AreaOf(kept[k], maxDist, round))
  }

  function Built(kept: seq<Pair>, maxDist: real, round: Rounding): Result<seq<RoomArea>, JoinError>
  {
    if maxDist == 0.0 && kept != [] then Failure(DivisionByZero) else Success(AreasOf(kept, maxDist, round))
  }

  /** The greedy join before the entries are built. */
  method JoinPairs(rooms: seq<RoomToken>, labels: seq<Label>, maxDist: real, maxSf: real, metric: Metric)
    returns (kept: seq<Pair>)
    ensures JoinIsRight(kept, rooms, labels, maxDist, maxSf, metric)
  {
    var bound := BindLabels(rooms, labels, maxDist, maxSf, metric);
    SortOrders(bound);
    var pairs := SortByDistance(bound);
    kept := KeepFirstPerRoom(pairs);
    JoinedIsRight(kept, bound, pairs, rooms, labels, maxDist, maxSf, metric);
  }

  /** Some label small enough for a room has a room within reach; at a reach of 0 that is a
      label printed right on a room token. */
  ghost predicate SomeLabelBinds(rooms: seq<RoomToken>, labels: seq<Label>, maxDist: real, maxSf: real,
                                 metric: Metric)
  {
    exists i, k :: BindsTo(rooms, labels, i, k, maxDist, maxSf, metric)
  }

  /** Something is kept exactly when some label binds. */
  lemma {:induction false} KeptExactly(kept: seq<Pair>, rooms: seq<RoomToken>, labels: seq<Label>, maxDist: real,
                                       maxSf: real, metric: Metric)
    requires JoinIsRight(kept, rooms, labels, maxDist, maxSf, metric)
    ensures kept != [] <==> SomeLabelBinds(rooms, labels, maxDist, maxSf, metric)
  {
    if kept != [] {
      assert PairIsRight(kept[0], rooms, labels, maxDist, maxSf, metric);
    }
    if i, k :| BindsTo(rooms, labels, i, k, maxDist, maxSf, metric) {
      assert Served(kept, rooms, labels, i, k, metric);
    }
  }

  /** One entry per kept pair, with its room, its area and a confidence that falls linearly from
      1 at distance 0 to 0 at max_dist, rounded, and is never negative. */
  ghost predicate Lists(areas: seq<RoomArea>, kept: seq<Pair>, maxDist: real, round: Rounding)
  {
    && |areas| == |kept| && (maxDist == 0.0 ==> areas == [])
    && forall q :: 0 <= q < |areas| && maxDist != 0.0 ==>
         var share := round(1.0 - kept[q].dist / maxDist);
         && areas[q].room == kept[q].room && areas[q].area == kept[q].area
         && (share >= 0.0 ==> areas[q].confidence == share) && (share < 0.0 ==> areas[q].confidence == 0.0)
  }

  method BuildAreas(kept: seq<Pair>, maxDist: real, round: Rounding) returns (r: Result<seq<RoomArea>, JoinError>)
    ensures r == Built(kept, maxDist, round)
    ensures r.Success? ==> Lists(r.value, kept, maxDist, round)
  {
    if maxDist == 0.0 && kept != [] {
      return Failure(DivisionByZero);
    }
    var out: seq<RoomArea> := [];
    for k := 0 to |kept|
      invariant out == AreasOf(kept[..k], maxDist, round)
    {
      out := out + [AreaOf(kept[k], maxDist, round)];
    }
    assert kept[..|kept|] == kept;
    r := Success(out);
  }

  method JoinAreas(rooms: seq<RoomToken>, labels: seq<Label>, maxDist: real, maxSf: real, metric: Metric,
                   round: Rounding)
    returns (r: Result<seq<RoomArea>, JoinError>)
    ensures exists kept :: JoinIsRight(kept, rooms, labels, maxDist, maxSf, metric) && r == Built(kept, maxDist, round)
    ensures r.Success? ==>
      exists kept :: JoinIsRight(kept, rooms, labels, maxDist, maxSf, metric) && Lists(r.value, kept, maxDist, round)
    ensures r.Failure? <==> maxDist == 0.0 && SomeLabelBinds(rooms, labels, maxDist, maxSf, metric)
  {
    var kept := JoinPairs(rooms, labels, maxDist, maxSf, metric);
    KeptExactly(kept, rooms, labels, maxDist, maxSf, metric);
    r := BuildAreas(kept, maxDist, round);
  }

  /** One label printed right on one room token. */
  method ZeroDistanceFails(round: Rounding) returns (r: Result<seq<RoomArea>, JoinError>)
    ensures r == Failure(DivisionByZero)
  {
    var rooms, labels := [RoomToken("101", 4.0, 2.0)], [Label(120.0, 4.0, 2.0)];
    var metric: Metric := (t: RoomToken, l: Label) => (t.x - l.x) * (t.x - l.x) + (t.y - l.y) * (t.y - l.y);
    assert IsNearest(rooms, labels[0], 0, 0.0, metric);
    assert BindsTo(rooms, labels, 0, 0, 0.0, 20000.0, metric);
    r := JoinAreas(rooms, labels, 0.0, 20000.0, metric, round);
  }

  ghost predicate Monotone(round: Rounding) { forall x, y :: x <= y ==> round(x) <= round(y) }

  lemma {:induction false} FartherIsLess(p: Pair, q: Pair, maxDist: real, round: Rounding)
    requires maxDist > 0.0 && Monotone(round) && p.dist <= q.dist
    ensures AreaOf(p, maxDist, round).confidence >= AreaOf(q, maxDist, round).confidence
  {
    QuotientGrows(p.dist, q.dist, maxDist);
  }

  lemma {:induction false} QuotientGrows(a: real, b: real, d: real)
    requires a <= b && d > 0.0
    ensures a / d <= b / d
  {
    assert (b - a) / d >= 0.0;
    assert a / d + (b - a) / d == b / d;
  }

  lemma {:induction false} ConfidenceIsShare(p: Pair, maxDist: real, round: Rounding)
    requires maxDist > 0.0 && Monotone(round) && p.dist >= 0.0 && round(1.0) <= 1.0
    ensures 0.0 <= AreaOf(p, maxDist, round).confidence <= 1.0
  {
    QuotientGrows(0.0, p.dist, maxDist);
  }

  lemma {:induction false} CloserFirst(kept: seq<Pair>, q: nat, r: nat)
    requires AllApart(kept) && q < r < |kept|
    ensures kept[q].dist <= kept[r].dist
  {
    assert Apart(kept[q], kept[r]);
  }

  /** Confidences never rise along the list, and for a rounding that is exact at 0 and 1 they
      lie between 0 and 1. */
  lemma {:induction false} ConfidenceFalls(kept: seq<Pair>, rooms: seq<RoomToken>, labels: seq<Label>, maxDist: real,
                                           maxSf: real, metric: Metric, round: Rounding)
    requires JoinIsRight(kept, rooms, labels, maxDist, maxSf, metric) && maxDist > 0.0 && Monotone(round)
    ensures forall q, r :: 0 <= q < r < |kept| ==>
      AreasOf(kept, maxDist, round)[q].confidence >= AreasOf(kept, maxDist, round)[r].confidence
    ensures round(1.0) <= 1.0 && (forall q :: 0 <= q < |kept| ==> kept[q].dist >= 0.0) ==>
      forall q :: 0 <= q < |kept| ==> 0.0 <= AreasOf(kept, maxDist, round)[q].confidence <= 1.0
  {
    forall q, r | 0 <= q < r < |kept|
      ensures AreasOf(kept, maxDist, round)[q].confidence >= AreasOf(kept, maxDist, round)[r].confidence
    {
      CloserFirst(kept, q, r);
      FartherIsLess(kept[q], kept[r], maxDist, round);
    }
    forall q | 0 <= q < |kept| && kept[q].dist >= 0.0 && round(1.0) <= 1.0
      ensures 0.0 <= AreasOf(kept, maxDist, round)[q].confidence <= 1.0
    {
      ConfidenceIsShare(kept[q], maxDist, round);
    }
  }
}
