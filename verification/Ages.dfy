/** Oldest first: what the start-time order of replicas means for mesh ranks and for the
    choice of a weight source. */
module Ages {
  import opened Types
  import opened Fleet
  import opened Protocol

  type Order = (Arrival, Arrival) -> bool

  // ---- stable sorting ------------------------------------------------------

  ghost predicate Preorder(before: Order) {
    && (forall x, y :: before(x, y) || before(y, x))
    && (forall x, y, z :: before(x, y) && before(y, z) ==> before(x, z))
  }

  ghost predicate Sorted(r: seq<Arrival>, before: Order) {
    forall i, j :: 0 <= i < j < |r| ==> before(r[i], r[j])
  }

  /** `x` stands somewhere in front of `y`. */
  ghost predicate Ahead<T>(r: seq<T>, x: T, y: T) {
    exists u, v :: 0 <= u < v < |r| && r[u] == x && r[v] == y
  }

  lemma Transitive(sorted: seq<Arrival>, before: Order, x: Arrival)
    requires Preorder(before) && Sorted(sorted, before) && (sorted == [] || before(sorted[|sorted| - 1], x))
    ensures forall i :: 0 <= i < |sorted| ==> before(sorted[i], x)
  {
    forall i | 0 <= i < |sorted| ensures before(sorted[i], x) {
      if i < |sorted| - 1 { assert before(sorted[i], sorted[|sorted| - 1]); }
    }
  }

  /** An insertion splits the list: what may stay in front, and what must go behind. */
  lemma {:induction false} InsertCut(sorted: seq<Arrival>, x: Arrival, before: Order) returns (cut: nat)
    requires Preorder(before) && Sorted(sorted, before)
    ensures cut <= |sorted| && InsertStable(sorted, x, before) == sorted[..cut] + [x] + sorted[cut..]
    ensures forall i :: 0 <= i < cut ==> before(sorted[i], x)
    ensures forall i :: cut <= i < |sorted| ==> !before(sorted[i], x)
    ensures Sorted(InsertStable(sorted, x, before), before)
  {
    hide Preorder;
    var m := |sorted| - 1;
    if sorted == [] || before(sorted[m], x) {
      Transitive(sorted, before, x);
      cut := |sorted|;
      assert sorted[cut..] == [] && sorted[..cut] == sorted;
    } else {
      cut := InsertCut(sorted[..m], x, before);
      assert sorted[..m][..cut] == sorted[..cut];
      assert sorted[..m][cut..] + [sorted[m]] == sorted[cut..];
    }
    SortedAround(sorted, cut, x, before);
  }

  lemma SortedAround(sorted: seq<Arrival>, cut: nat, x: Arrival, before: Order)
    requires Preorder(before) && Sorted(sorted, before) && cut <= |sorted|
    requires forall i :: 0 <= i < cut ==> before(sorted[i], x)
    requires forall i :: cut <= i < |sorted| ==> !before(sorted[i], x)
    ensures Sorted(sorted[..cut] + [x] + sorted[cut..], before)
  {
    var r := sorted[..cut] + [x] + sorted[cut..];
    forall i, j | 0 <= i < j < |r| ensures before(r[i], r[j]) {
      assert r[i] == if i < cut then sorted[i] else if i == cut then x else sorted[i - 1];
      assert r[j] == if j < cut then sorted[j] else if j == cut then x else sorted[j - 1];
    }
  }

  lemma AheadInserted(sorted: seq<Arrival>, cut: nat, x: Arrival, y: Arrival, z: Arrival)
    requires cut <= |sorted| && Ahead(sorted, y, z)
    ensures Ahead(sorted[..cut] + [x] + sorted[cut..], y, z)
  {
    var u, v :| 0 <= u < v < |sorted| && sorted[u] == y && sorted[v] == z;
    var r := sorted[..cut] + [x] + sorted[cut..];
    var a, b := if u < cut then u else u + 1, if v < cut then v else v + 1;
    assert a < b && r[a] == y && r[b] == z;
  }

  lemma {:induction false} StableSorted(a: seq<Arrival>, before: Order)
    requires Preorder(before)
    ensures Sorted(StableSort(a, before), before)
  {
    if a != [] {
      StableSorted(a[..|a| - 1], before);
      var _ := InsertCut(StableSort(a[..|a| - 1], before), a[|a| - 1], before);
    }
  }

  /** The element inserted last, against one that was there. */
  lemma {:induction false} LastOrder(s: seq<Arrival>, x: Arrival, before: Order, o: Arrival)
    requires Preorder(before) && Sorted(s, before) && o in s
    ensures Ahead(InsertStable(s, x, before), o, x) || Ahead(InsertStable(s, x, before), x, o)
    ensures before(o, x) ==> Ahead(InsertStable(s, x, before), o, x)
    ensures !before(o, x) ==> Ahead(InsertStable(s, x, before), x, o)
  {
    hide Preorder, Sorted;
    var cut := InsertCut(s, x, before);
    var r := s[..cut] + [x] + s[cut..];
    var k :| 0 <= k < |s| && s[k] == o;
    assert r[cut] == x;
    if k < cut { assert r[k] == o; } else { assert r[k + 1] == o; }
  }

  lemma {:induction false} EarlierOrder(s: seq<Arrival>, x: Arrival, before: Order, y: Arrival, z: Arrival)
    requires Preorder(before) && Sorted(s, before) && Ahead(s, y, z)
    ensures Ahead(InsertStable(s, x, before), y, z)
  {
    hide Preorder, Sorted, Ahead;
    var cut := InsertCut(s, x, before);
    AheadInserted(s, cut, x, y, z);
  }

  /** Elements come out in order, and equal ones as they came in. */
  lemma {:induction false} StableOrder(a: seq<Arrival>, before: Order, p: nat, q: nat)
    requires Preorder(before) && p < |a| && q < |a| && p != q
    requires before(a[p], a[q]) && (p < q || !before(a[q], a[p]))
    ensures Ahead(StableSort(a, before), a[p], a[q])
  {
    hide Preorder, Sorted, Ahead, InsertStable;
    var m := |a| - 1;
    var s := StableSort(a[..m], before);
    StableSorted(a[..m], before);
    if p < m && q < m {
      StableOrder(a[..m], before, p, q);
      EarlierOrder(s, a[m], before, a[p], a[q]);
    } else {
      var o := if p == m then q else p;
      SortPermutes(a[..m], before);
      SameElements(s, a[..m]);
      assert a[o] == a[..m][o];
      LastOrder(s, a[m], before, a[o]);
    }
  }

  lemma StartsPreorder()
    ensures Preorder(StartsBefore)
  {
  }

  // ---- names ---------------------------------------------------------------

  lemma {:induction false} NameTotal(a: string, b: string)
    ensures NameLe(a, b) || NameLe(b, a)
    ensures NameLe(a, b) && NameLe(b, a) ==> a == b
  {
    if a != [] && b != [] && a[0] == b[0] {
      NameTotal(a[1..], b[1..]);
      assert a == [a[0]] + a[1..] && b == [b[0]] + b[1..];
    }
  }

  lemma {:induction false} NameTransitive(a: string, b: string, c: string)
    requires NameLe(a, b) && NameLe(b, c)
    ensures NameLe(a, c)
  {
    if a != [] && a[0] == b[0] && b[0] == c[0] { NameTransitive(a[1..], b[1..], c[1..]); }
  }

  lemma NamedPreorder()
    ensures Preorder(NamedBefore)
  {
    forall x: Arrival, y: Arrival ensures NamedBefore(x, y) || NamedBefore(y, x) { NameTotal(x.0.text, y.0.text); }
    forall x: Arrival, y: Arrival, z: Arrival | NamedBefore(x, y) && NamedBefore(y, z) ensures NamedBefore(x, z) {
      NameTransitive(x.0.text, y.0.text, z.0.text);
    }
  }

  // ---- replicas by age -----------------------------------------------------

  /** Replica i started before replica j, or at the same time and registered first. */
  predicate Older(rs: seq<Replica>, i: nat, j: nat)
    requires i < |rs| && j < |rs|
  {
    rs[i].startTime < rs[j].startTime || (rs[i].startTime == rs[j].startTime && i < j)
  }

  /** Replica i started before replica j, or at the same time and comes first by name. */
  predicate OlderByName(rs: seq<Replica>, i: nat, j: nat)
    requires i < |rs| && j < |rs|
  {
    rs[i].startTime < rs[j].startTime
    || (rs[i].startTime == rs[j].startTime && rs[i].name != rs[j].name && NameLe(rs[i].name.text, rs[j].name.text))
  }

  lemma FirstsAhead(a: seq<Arrival>, x: Arrival, y: Arrival)
    requires Ahead(a, x, y)
    ensures Ahead(Firsts(a), x.0, y.0)
  {
    var u, v :| 0 <= u < v < |a| && a[u] == x && a[v] == y;
    assert Firsts(a)[u] == x.0 && Firsts(a)[v] == y.0;
  }

  lemma OlderAhead(rs: seq<Replica>, i: nat, j: nat)
    requires i < |rs| && j < |rs| && i != j && Older(rs, i, j)
    ensures Ahead(ByStart(rs), rs[i].name, rs[j].name)
  {
    var a := Arrivals(rs);
    StartsPreorder();
    StableOrder(a, StartsBefore, i, j);
    FirstsAhead(StableSort(a, StartsBefore), a[i], a[j]);
  }

  lemma OlderByNameAhead(rs: seq<Replica>, i: nat, j: nat)
    requires i < |rs| && j < |rs| && i != j && OlderByName(rs, i, j)
    ensures Ahead(ByNameThenStart(rs), rs[i].name, rs[j].name)
  {
    var a := Arrivals(rs);
    var b := StableSort(a, NamedBefore);
    NamedPreorder();
    StartsPreorder();
    SortPermutes(a, NamedBefore);
    SameElements(a, b);
    var p, q;
    if rs[i].startTime == rs[j].startTime {
      NameTotal(rs[i].name.text, rs[j].name.text);
      StableOrder(a, NamedBefore, i, j);
      p, q :| 0 <= p < q < |b| && b[p] == a[i] && b[q] == a[j];
    } else {
      assert a[i] in b && a[j] in b;
      p :| 0 <= p < |b| && b[p] == a[i];
      q :| 0 <= q < |b| && b[q] == a[j];
    }
    StableOrder(b, StartsBefore, p, q);
    FirstsAhead(StableSort(b, StartsBefore), a[i], a[j]);
  }

  lemma {:induction false} AheadIndex(ns: seq<Name>, x: Name, y: Name)
    requires Distinct(ns) && Ahead(ns, x, y)
    ensures x in ns && y in ns && IndexOf(ns, x) < IndexOf(ns, y)
  {
    var u, v :| 0 <= u < v < |ns| && ns[u] == x && ns[v] == y;
    IndexOfAt(ns, u);
    IndexOfAt(ns, v);
  }

  /** The start-time order is by age, registration breaking ties. */
  lemma {:induction false} ByStartIsByAge(rs: seq<Replica>, i: nat, j: nat)
    requires Distinct(Names(rs)) && i < |rs| && j < |rs| && i != j
    ensures rs[i].name in ByStart(rs) && rs[j].name in ByStart(rs)
    ensures IndexOf(ByStart(rs), rs[i].name) < IndexOf(ByStart(rs), rs[j].name) <==> Older(rs, i, j)
  {
    hide ByStart, IndexOf;
    ByStartDistinct(rs);
    if Older(rs, i, j) { OlderAhead(rs, i, j); AheadIndex(ByStart(rs), rs[i].name, rs[j].name); }
    else { OlderAhead(rs, j, i); AheadIndex(ByStart(rs), rs[j].name, rs[i].name); }
  }

  /** The first of the order is older than everyone else. */
  lemma {:induction false} FirstIsOldest(rs: seq<Replica>) returns (i: nat)
    requires Distinct(Names(rs)) && rs != []
    ensures i < |rs| && ByStart(rs)[0] == rs[i].name
    ensures forall j :: 0 <= j < |rs| && j != i ==> Older(rs, i, j)
  {
    hide ByStart, IndexOf;
    var order := ByStart(rs);
    assert order[0] in order;
    i :| 0 <= i < |rs| && rs[i].name == order[0];
    ByStartDistinct(rs);
    IndexOfAt(order, 0);
    forall j | 0 <= j < |rs| && j != i ensures Older(rs, i, j) {
      ByStartIsByAge(rs, i, j);
      NamesApart(rs, i, j);
    }
  }

  lemma NamesApart(rs: seq<Replica>, i: nat, j: nat)
    requires Distinct(Names(rs)) && i < |rs| && j < |rs| && i != j
    ensures rs[i].name != rs[j].name
  {
    if i < j { NamesDiffer(rs, i, j); } else { NamesDiffer(rs, j, i); }
  }

  // ---- the oldest replica that holds weights -------------------------------

  lemma {:induction false} FirstLoadedAhead(rs: seq<Replica>, order: seq<Name>, n: Name)
    requires FirstLoaded(rs, order).Some? && n in order && Has(rs, n) && Get(rs, n).loaded
    ensures n == FirstLoaded(rs, order).value || Ahead(order, FirstLoaded(rs, order).value, n)
  {
    hide Get, Has;
    var f := FirstLoaded(rs, order).value;
    if Has(rs, order[0]) && Get(rs, order[0]).loaded {
      if n != f {
        var v :| 0 <= v < |order| && order[v] == n;
        assert order[0] == f;
      }
    } else {
      var v :| 0 <= v < |order| && order[v] == n;
      assert order[1..][v - 1] == n;
      FirstLoadedAhead(rs, order[1..], n);
      if n != f {
        var a, b :| 0 <= a < b < |order[1..]| && order[1..][a] == f && order[1..][b] == n;
        assert order[a + 1] == f && order[b + 1] == n;
      }
    }
  }

  lemma {:induction false} AheadOnce<T>(r: seq<T>, x: T, y: T)
    requires Distinct(r) && Ahead(r, x, y)
    ensures !Ahead(r, y, x)
  {
    var u, v :| 0 <= u < v < |r| && r[u] == x && r[v] == y;
    forall a, b | 0 <= a < b < |r| ensures !(r[a] == y && r[b] == x) {
      assert b < u ==> r[b] != r[u];
      assert v < a ==> r[v] != r[a];
    }
  }

  /** A weight source chosen by age is the oldest replica that holds weights; it is found iff there is one. */
  lemma {:induction false} SourceIsOldest(rs: seq<Replica>, j: nat)
    requires Distinct(Names(rs)) && j < |rs| && rs[j].loaded
    ensures var src := FirstLoaded(rs, ByStart(rs));
            src.Some? && (src.value != rs[j].name ==> exists i :: 0 <= i < |rs| && rs[i].name == src.value && rs[i].loaded && Older(rs, i, j))
  {
    hide ByStart, Get;
    var order := ByStart(rs);
    GetAt(rs, j);
    assert rs[j].name in order;
    var src := FirstLoaded(rs, order);
    assert src.Some?;
    FirstLoadedAhead(rs, order, rs[j].name);
    if src.value != rs[j].name {
      var i :| 0 <= i < |rs| && rs[i].name == src.value;
      GetAt(rs, i);
      ByStartDistinct(rs);
      AheadOnce(order, rs[i].name, rs[j].name);
      if !Older(rs, i, j) { OlderAhead(rs, j, i); }
    }
  }

  lemma ByNameDistinct(rs: seq<Replica>)
    requires Distinct(Names(rs))
    ensures Distinct(ByNameThenStart(rs))
  {
    var a := Arrivals(rs);
    var b := StableSort(a, NamedBefore);
    assert Firsts(a) == Names(rs);
    SortPermutes(a, NamedBefore);
    SortPermutes(b, StartsBefore);
    PermutedDistinct(a, StableSort(b, StartsBefore));
  }

  /** The same for the order that breaks ties by name. */
  lemma {:induction false} SourceIsOldestByName(rs: seq<Replica>, j: nat)
    requires Distinct(Names(rs)) && j < |rs| && rs[j].loaded
    ensures var src := FirstLoaded(rs, ByNameThenStart(rs));
            src.Some? && (src.value != rs[j].name ==> exists i :: 0 <= i < |rs| && rs[i].name == src.value && rs[i].loaded && OlderByName(rs, i, j))
  {
    hide ByNameThenStart, Get;
    var order := ByNameThenStart(rs);
    GetAt(rs, j);
    assert rs[j].name in order;
    var src := FirstLoaded(rs, order);
    assert src.Some?;
    FirstLoadedAhead(rs, order, rs[j].name);
    if src.value != rs[j].name {
      var i :| 0 <= i < |rs| && rs[i].name == src.value;
      GetAt(rs, i);
      ByNameDistinct(rs);
      AheadOnce(order, rs[i].name, rs[j].name);
      NameTotal(rs[i].name.text, rs[j].name.text);
      if !OlderByName(rs, i, j) { OlderByNameAhead(rs, j, i); }
    }
  }

  // ---- meshes --------------------------------------------------------------

  /** Mesh ranks 0, 1, ... from the oldest: `rank(i)` belongs to replica i. */
  ghost predicate RankedByAge(rs: seq<Replica>, rank: seq<int>) {
    && |rank| == |rs|
    && (forall i :: 0 <= i < |rs| ==> 0 <= rank[i] < |rs|)
    && (forall i, j :: 0 <= i < |rs| && 0 <= j < |rs| && i != j ==> (rank[i] < rank[j] <==> Older(rs, i, j)))
  }

  function Ranks(rs: seq<Replica>): (r: seq<int>)
    ensures |r| == |rs| && forall i :: 0 <= i < |rs| ==> r[i] == rs[i].meshRank
  {
    seq(|rs|, i requires 0 <= i < |rs| => rs[i].meshRank)
  }

  /** The positions in the start-time order are ranks by age. */
  lemma {:induction false} IndexIsByAge(rs: seq<Replica>, rank: seq<int>)
    requires Distinct(Names(rs)) && |rank| == |rs|
    requires forall i :: 0 <= i < |rs| ==> rs[i].name in ByStart(rs) && rank[i] == IndexOf(ByStart(rs), rs[i].name)
    ensures RankedByAge(rs, rank)
  {
    hide ByStart, IndexOf, Distinct, Names;
    forall i: nat, j: nat | i < |rs| && j < |rs| && i != j ensures rank[i] < rank[j] <==> Older(rs, i, j) {
      ByStartIsByAge(rs, i, j);
    }
  }

  /** Only ranks change. */
  predicate Renumbered(rs: seq<Replica>, qs: seq<Replica>) {
    |qs| == |rs| && forall i :: 0 <= i < |rs| ==> qs[i] == rs[i].(meshRank := qs[i].meshRank)
  }

  lemma NamedInOrder(rs: seq<Replica>)
    ensures forall i :: 0 <= i < |rs| ==> rs[i].name in ByStart(rs)
  {
    hide ByStart;
    forall i | 0 <= i < |rs| ensures rs[i].name in ByStart(rs) { assert Has(rs, rs[i].name); }
  }

  /** Every member is told the mesh: the members by rank. */
  ghost predicate MeshTold(a: seq<Entry>, b: seq<Entry>, rs: seq<Replica>, rank: seq<int>)
    requires |rank| == |rs|
  {
    exists order ::
      && |order| == |rs| && (forall i :: 0 <= i < |rs| ==> 0 <= rank[i] < |rs| && order[rank[i]] == rs[i].name)
      && |b| == |a| + |rs| && b[..|a|] == a
      && forall k :: 0 <= k < |rs| ==> b[|a| + k] == Sent(order[k], BuildMesh(order))
  }

  lemma {:induction false} BroadcastTells(a: seq<Entry>, rs: seq<Replica>, rank: seq<int>)
    requires |rank| == |rs|
    requires forall i :: 0 <= i < |rs| ==> rs[i].name in ByStart(rs) && rank[i] == IndexOf(ByStart(rs), rs[i].name)
    ensures MeshTold(a, a + Broadcast(ByStart(rs), BuildMesh(ByStart(rs))), rs, rank)
  {
    hide ByStart;
    var order := ByStart(rs);
    assert |order| == |rs|;
    var b := a + Broadcast(order, BuildMesh(order));
    assert forall k :: 0 <= k < |rs| ==> b[|a| + k] == Sent(order[k], BuildMesh(order));
  }

  /** Rebuilding the policy mesh numbers all replicas from the oldest, and the command each of
      them gets lists the members by rank. */
  lemma {:induction false} PolicyMeshIsByAge(s: State)
    requires Distinct(Names(s.crew.replicas))
    ensures var t := RebuildPolicyMesh(s);
            && Renumbered(s.crew.replicas, t.crew.replicas)
            && RankedByAge(s.crew.replicas, Ranks(t.crew.replicas))
            && MeshTold(s.log, t.log, s.crew.replicas, Ranks(t.crew.replicas))
  {
    hide ByStart, IndexOf, Rearranged, RecomputeTotal, Broadcast, Distinct, Names, RankedByAge, MeshTold;
    var rs := s.crew.replicas;
    NamedInOrder(rs);
    IndexIsByAge(rs, Ranks(Rank(rs, ByStart(rs))));
    BroadcastTells(s.log, rs, Ranks(Rank(rs, ByStart(rs))));
  }

  function RankOf(rs: seq<Replica>, n: Name): int { if Has(rs, n) then Get(rs, n).meshRank else -1 }

  /** The ranks that the members of a mesh have among all replicas. */
  function MemberRanks(rs: seq<Replica>, members: seq<Replica>): (r: seq<int>)
    ensures |r| == |members| && forall k :: 0 <= k < |members| ==> r[k] == RankOf(rs, members[k].name)
  {
    seq(|members|, k requires 0 <= k < |members| => RankOf(rs, members[k].name))
  }

  lemma {:induction false} RankedMember(rs: seq<Replica>, order: seq<Name>, n: Name)
    requires Distinct(Names(rs)) && Has(rs, n)
    ensures RankOf(Rank(rs, order), n) == if n in order then IndexOf(order, n) else RankOf(rs, n)
  {
    hide Get, IndexOf, Rank, Distinct, Names;
    var i :| 0 <= i < |rs| && rs[i].name == n;
    NamesRanked(rs, order);
    GetAt(rs, i);
    var qs := Rank(rs, order);
    RankAt(rs, order, i);
    GetAt(qs, i);
  }

  lemma RankAt(rs: seq<Replica>, order: seq<Name>, i: nat)
    requires i < |rs|
    ensures var qs := Rank(rs, order);
            i < |qs| && qs[i].name == rs[i].name
            && qs[i].meshRank == if rs[i].name in order then IndexOf(order, rs[i].name) else rs[i].meshRank
  {
  }

  /** Rebuilding the rollout mesh numbers exactly its members, from the oldest. */
  lemma {:induction false} RolloutMeshIsByAge(y: Sync, members: seq<Replica>)
    requires Distinct(Names(y.rollouts)) && Distinct(Names(members))
    requires forall k :: 0 <= k < |members| ==> Has(y.rollouts, members[k].name)
    ensures var t := RebuildRolloutMesh(y, members);
            && Renumbered(y.rollouts, t.rollouts)
            && RankedByAge(members, MemberRanks(t.rollouts, members))
            && MeshTold(y.log, t.log, members, MemberRanks(t.rollouts, members))
            && forall i :: 0 <= i < |y.rollouts| && !Has(members, y.rollouts[i].name) ==> t.rollouts[i] == y.rollouts[i]
  {
    hide ByStart, IndexOf, Broadcast, Distinct, Names, RankedByAge, RankOf, MeshTold;
    var order := ByStart(members);
    NamedInOrder(members);
    var t := RebuildRolloutMesh(y, members);
    forall k | 0 <= k < |members| ensures RankOf(t.rollouts, members[k].name) == IndexOf(order, members[k].name) {
      RankedMember(y.rollouts, order, members[k].name);
    }
    IndexIsByAge(members, MemberRanks(t.rollouts, members));
    BroadcastTells(y.log, members, MemberRanks(t.rollouts, members));
  }
}
