/** Lists of replicas in registration order, and the order by start time that
    every mesh and every choice of a weight source uses. */
module Fleet {
  import opened Types

  type Arrival = (Name, int)

  function Names(rs: seq<Replica>): (ns: seq<Name>)
    ensures |ns| == |rs|
    ensures forall i :: 0 <= i < |rs| ==> ns[i] == rs[i].name
  {
    seq(|rs|, i requires 0 <= i < |rs| => rs[i].name)
  }

  ghost predicate Distinct<T>(s: seq<T>) {
    forall i, j :: 0 <= i < j < |s| ==> s[i] != s[j]
  }

  /** Python's `name in replicas`. */
  predicate Has(rs: seq<Replica>, n: Name) {
    exists i :: 0 <= i < |rs| && rs[i].name == n
  }

  lemma HasIffNamed(rs: seq<Replica>, n: Name)
    ensures Has(rs, n) <==> n in Names(rs)
  {
    if Has(rs, n) {
      var i :| 0 <= i < |rs| && rs[i].name == n;
      assert Names(rs)[i] == n;
    }
  }

  /** The replica called `n`. */
  function Get(rs: seq<Replica>, n: Name): (r: Replica)
    requires Has(rs, n)
    ensures r in rs && r.name == n
  {
    if rs[0].name == n then rs[0] else Get(rs[1..], n)
  }

  lemma {:induction false} GetAt(rs: seq<Replica>, i: nat)
    requires i < |rs| && Distinct(Names(rs))
    ensures Has(rs, rs[i].name) && Get(rs, rs[i].name) == rs[i]
  {
    hide Get, Distinct, Names;
    var r := Get(rs, rs[i].name);
    var j :| 0 <= j < |rs| && rs[j] == r;
    if i < j { NamesDiffer(rs, i, j); } else if j < i { NamesDiffer(rs, j, i); }
  }

  lemma NamesDiffer(rs: seq<Replica>, i: nat, j: nat)
    requires Distinct(Names(rs)) && i < j < |rs|
    ensures rs[i].name != rs[j].name
  {
    assert Names(rs)[i] != Names(rs)[j];
  }

  function Without(rs: seq<Replica>, n: Name): seq<Replica> {
    if rs == [] then []
    else if rs[0].name == n then Without(rs[1..], n)
    else [rs[0]] + Without(rs[1..], n)
  }

  lemma {:induction false} WithoutMembers(rs: seq<Replica>, n: Name)
    ensures forall x :: x in Without(rs, n) <==> x in rs && x.name != n
  {
    if rs != [] {
      WithoutMembers(rs[1..], n);
      assert forall x :: x in rs <==> x == rs[0] || x in rs[1..];
    }
  }

  lemma {:induction false} WithoutDistinct(rs: seq<Replica>, n: Name)
    requires Distinct(Names(rs))
    ensures Distinct(Names(Without(rs, n)))
  {
    if rs != [] {
      assert Names(rs)[1..] == Names(rs[1..]);
      WithoutDistinct(rs[1..], n);
      var w := Without(rs[1..], n);
      WithoutMembers(rs[1..], n);
      forall j | 0 <= j < |w| ensures w[j].name != rs[0].name {
        assert w[j] in rs[1..];
        var q :| 0 <= q < |rs[1..]| && rs[1..][q] == w[j];
        assert Names(rs)[0] != Names(rs)[q + 1];
      }
    }
  }

  /** Marks the named replicas as holding weights. */
  function Load(rs: seq<Replica>, ns: seq<Name>): (r: seq<Replica>)
    ensures |r| == |rs|
    ensures forall i :: 0 <= i < |rs| ==> r[i] == rs[i].(loaded := rs[i].loaded || rs[i].name in ns)
    ensures forall n :: Has(r, n) <==> Has(rs, n)
  {
    seq(|rs|, i requires 0 <= i < |rs| => rs[i].(loaded := rs[i].loaded || rs[i].name in ns))
  }

  function EndReplica(rs: seq<Replica>, n: Name): (r: seq<Replica>)
    ensures |r| == |rs|
    ensures forall i :: 0 <= i < |rs| ==> r[i] == rs[i].(ended := rs[i].ended || rs[i].name == n)
  {
    seq(|rs|, i requires 0 <= i < |rs| => rs[i].(ended := rs[i].ended || rs[i].name == n))
  }

  function IndexOf(ns: seq<Name>, n: Name): (i: nat)
    requires n in ns
    ensures i < |ns| && ns[i] == n
    ensures forall j :: 0 <= j < i ==> ns[j] != n
  {
    if ns[0] == n then 0 else 1 + IndexOf(ns[1..], n)
  }

  lemma {:induction false} IndexOfAt(ns: seq<Name>, i: nat)
    requires i < |ns| && Distinct(ns)
    ensures ns[i] in ns && IndexOf(ns, ns[i]) == i
  {
  }

  /** BuildMeshCommand.trigger: the members are renumbered by position. */
  function Rank(rs: seq<Replica>, members: seq<Name>): (r: seq<Replica>)
    ensures |r| == |rs|
    ensures forall i :: 0 <= i < |rs| ==>
              r[i] == if rs[i].name in members then rs[i].(meshRank := IndexOf(members, rs[i].name)) else rs[i]
  {
    seq(|rs|, i requires 0 <= i < |rs| =>
      if rs[i].name in members then rs[i].(meshRank := IndexOf(members, rs[i].name)) else rs[i])
  }

  lemma NamesLoaded(rs: seq<Replica>, ns: seq<Name>)
    ensures Names(Load(rs, ns)) == Names(rs)
  {
  }

  lemma NamesRanked(rs: seq<Replica>, members: seq<Name>)
    ensures Names(Rank(rs, members)) == Names(rs)
    ensures forall i :: 0 <= i < |rs| ==> Rank(rs, members)[i].loaded == rs[i].loaded
  {
  }

  function Arrivals(rs: seq<Replica>): (a: seq<Arrival>)
    ensures |a| == |rs|
    ensures forall i :: 0 <= i < |rs| ==> a[i] == (rs[i].name, rs[i].startTime)
  {
    seq(|rs|, i requires 0 <= i < |rs| => (rs[i].name, rs[i].startTime))
  }

  function Firsts(a: seq<Arrival>): (ns: seq<Name>)
    ensures |ns| == |a|
    ensures forall i :: 0 <= i < |a| ==> ns[i] == a[i].0
  {
    seq(|a|, i requires 0 <= i < |a| => a[i].0)
  }

  /** `before(x, y)`: an element y arriving after x keeps its place behind x. */
  function InsertStable(sorted: seq<Arrival>, x: Arrival, before: (Arrival, Arrival) -> bool): (r: seq<Arrival>)
    ensures |r| == |sorted| + 1
  {
    if sorted == [] || before(sorted[|sorted| - 1], x) then sorted + [x]
    else InsertStable(sorted[..|sorted| - 1], x, before) + [sorted[|sorted| - 1]]
  }

  /** Python's stable `sorted`. */
  function StableSort(a: seq<Arrival>, before: (Arrival, Arrival) -> bool): (r: seq<Arrival>)
    ensures |r| == |a|
  {
    if a == [] then []
    else InsertStable(StableSort(a[..|a| - 1], before), a[|a| - 1], before)
  }

  lemma {:induction false} InsertPermutes(sorted: seq<Arrival>, x: Arrival, before: (Arrival, Arrival) -> bool)
    ensures multiset(InsertStable(sorted, x, before)) == multiset(sorted) + multiset{x}
  {
    if sorted != [] {
      assert sorted == sorted[..|sorted| - 1] + [sorted[|sorted| - 1]];
      InsertPermutes(sorted[..|sorted| - 1], x, before);
    }
  }

  lemma {:induction false} SortPermutes(a: seq<Arrival>, before: (Arrival, Arrival) -> bool)
    ensures multiset(StableSort(a, before)) == multiset(a)
  {
    if a != [] {
      assert a == a[..|a| - 1] + [a[|a| - 1]];
      SortPermutes(a[..|a| - 1], before);
      InsertPermutes(StableSort(a[..|a| - 1], before), a[|a| - 1], before);
    }
  }

  predicate StartsBefore(x: Arrival, y: Arrival) { x.1 <= y.1 }

  predicate NameLe(a: string, b: string) {
    a == [] || (b != [] && (a[0] < b[0] || (a[0] == b[0] && NameLe(a[1..], b[1..]))))
  }

  predicate NamedBefore(x: Arrival, y: Arrival) { NameLe(x.0.text, y.0.text) }

  lemma SameElements<T>(a: seq<T>, b: seq<T>)
    requires multiset(a) == multiset(b)
    ensures forall x :: x in a <==> x in b
  {
    forall x ensures x in a <==> x in b {
      assert x in a <==> x in multiset(a);
      assert x in b <==> x in multiset(b);
    }
  }

  lemma CountOne(a: seq<Arrival>, x: Arrival)
    requires Distinct(Firsts(a))
    ensures multiset(a)[x] <= 1
  {
    if a != [] {
      var m := |a| - 1;
      assert a == a[..m] + [a[m]];
      assert Firsts(a[..m]) == Firsts(a)[..m];
      CountOne(a[..m], x);
      if a[m] == x {
        forall i | 0 <= i < m ensures a[..m][i] != x { assert Firsts(a)[i] != Firsts(a)[m]; }
        assert x !in a[..m];
      }
    }
  }

  /** Reordering keeps the names... */
  lemma PermutedNames(a: seq<Arrival>, b: seq<Arrival>)
    requires multiset(a) == multiset(b)
    ensures forall n :: n in Firsts(a) <==> n in Firsts(b)
  {
    SameElements(a, b);
    forall n ensures n in Firsts(a) <==> n in Firsts(b) {
      if n in Firsts(a) {
        var i :| 0 <= i < |a| && a[i].0 == n;
        assert a[i] in b;
        var j :| 0 <= j < |b| && b[j] == a[i];
        assert Firsts(b)[j] == n;
      }
      if n in Firsts(b) {
        var i :| 0 <= i < |b| && b[i].0 == n;
        assert b[i] in a;
        var j :| 0 <= j < |a| && a[j] == b[i];
        assert Firsts(a)[j] == n;
      }
    }
  }

  /** ...and keeps them distinct. */
  lemma PermutedDistinct(a: seq<Arrival>, b: seq<Arrival>)
    requires multiset(a) == multiset(b) && Distinct(Firsts(a))
    ensures Distinct(Firsts(b))
  {
    SameElements(a, b);
    forall i, j | 0 <= i < j < |b| ensures Firsts(b)[i] != Firsts(b)[j] {
      if b[i].0 == b[j].0 {
        assert b[i] in a && b[j] in a;
        var p :| 0 <= p < |a| && a[p] == b[i];
        var q :| 0 <= q < |a| && a[q] == b[j];
        assert Firsts(a)[p] == Firsts(a)[q];
        assert p == q;
        CountOne(a, b[i]);
        TwiceCounted(b, i, j);
        assert false;
      }
    }
  }

  lemma TwiceCounted<T>(b: seq<T>, i: nat, j: nat)
    requires i < j < |b| && b[i] == b[j]
    ensures multiset(b)[b[i]] >= 2
  {
    assert b == b[..j] + [b[j]] + b[j + 1..];
    assert b[..j][i] == b[i];
    assert b[i] in multiset(b[..j]);
  }

  lemma SortedNamesAre(rs: seq<Replica>, a: seq<Arrival>)
    requires multiset(a) == multiset(Arrivals(rs))
    ensures forall n :: n in Firsts(a) <==> Has(rs, n)
  {
    PermutedNames(Arrivals(rs), a);
    assert Firsts(Arrivals(rs)) == Names(rs);
    forall n ensures n in Firsts(a) <==> Has(rs, n) { HasIffNamed(rs, n); }
  }

  /** Names of the replicas, oldest first. */
  function ByStart(rs: seq<Replica>): (ns: seq<Name>)
    ensures |ns| == |rs|
    ensures forall n :: n in ns <==> Has(rs, n)
  {
    var a := StableSort(Arrivals(rs), StartsBefore);
    SortPermutes(Arrivals(rs), StartsBefore);
    SortedNamesAre(rs, a);
    Firsts(a)
  }

  /** The same, with ties broken by name: iteration over a manager is by name. */
  function ByNameThenStart(rs: seq<Replica>): (ns: seq<Name>)
    ensures |ns| == |rs|
    ensures forall n :: n in ns <==> Has(rs, n)
  {
    var b := StableSort(Arrivals(rs), NamedBefore);
    var a := StableSort(b, StartsBefore);
    SortPermutes(Arrivals(rs), NamedBefore);
    SortPermutes(b, StartsBefore);
    SortedNamesAre(rs, a);
    Firsts(a)
  }

  /** The start-time order lists each replica once. */
  lemma ByStartDistinct(rs: seq<Replica>)
    requires Distinct(Names(rs))
    ensures Distinct(ByStart(rs))
  {
    assert Firsts(Arrivals(rs)) == Names(rs);
    SortPermutes(Arrivals(rs), StartsBefore);
    PermutedDistinct(Arrivals(rs), StableSort(Arrivals(rs), StartsBefore));
  }

  /** The first replica, in the given order, that holds weights. */
  function FirstLoaded(rs: seq<Replica>, order: seq<Name>): (r: Option<Name>)
    ensures r.Some? ==> r.value in order && Has(rs, r.value) && Get(rs, r.value).loaded
    ensures r.None? ==> forall n :: n in order && Has(rs, n) ==> !Get(rs, n).loaded
  {
    if order == [] then None
    else if Has(rs, order[0]) && Get(rs, order[0]).loaded then Some(order[0])
    else FirstLoaded(rs, order[1..])
  }

  function InMesh(rs: seq<Replica>): seq<Replica> {
    if rs == [] then []
    else (if rs[0].meshRank >= 0 then [rs[0]] else []) + InMesh(rs[1..])
  }

  function Broadcast(to: seq<Name>, cmd: Command): (es: seq<Entry>)
    ensures |es| == |to|
    ensures forall i :: 0 <= i < |to| ==> es[i] == Sent(to[i], cmd)
  {
    seq(|to|, i requires 0 <= i < |to| => Sent(to[i], cmd))
  }
}
