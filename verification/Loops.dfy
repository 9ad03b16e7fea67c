/** One more turn of each loop of the controller, in terms of what the loop computes. */
module Loops {
  import opened Arith
  import opened Types
  import opened Fleet
  import opened Protocol

  lemma TurnIndex(i: nat, j: nat, n: nat)
    requires j < n
    ensures (i * n + j) % n == j
  {
    var q := i * n + j;
    assert n * i <= q < n * (i + 1) by { assert n * (i + 1) == n * i + n; }
    DivUnique(q, n, i);
    assert q == n * (q / n) + q % n;
  }

  /** The item at position i*n + j goes to replica j. */
  lemma FeedSharedTurn(q: seq<Rollout>, to: seq<Name>, step: int, i: nat, j: nat)
    requires j < |to| && i * |to| + j < |q|
    ensures FeedShared(q[..i * |to| + j + 1], to, step) ==
            FeedShared(q[..i * |to| + j], to, step) + [Fed(to[j], q[i * |to| + j], step)]
  {
    TurnIndex(i, j, |to|);
  }

  lemma TailsAtLeast(qs: seq<seq<Rollout>>, batch: nat)
    requires EachAtLeast(qs, batch) && qs != []
    ensures EachAtLeast(qs[1..], batch)
  {
    assert forall i :: 0 <= i < |qs[1..]| ==> qs[1..][i] == qs[i + 1];
  }

  /** Rank k is fed after the ranks before it. */
  lemma {:induction false} FeedRanksTurn(qs: seq<seq<Rollout>>, to: seq<Name>, batch: nat, step: int, k: nat)
    requires k < |to| <= |qs| && EachAtLeast(qs, batch)
    ensures FeedRanks(qs, to[..k + 1], batch, step) ==
            FeedRanks(qs, to[..k], batch, step) + FeedOne(qs[k], to[k], batch, step)
    decreases k
  {
    TailsAtLeast(qs, batch);
    if k == 0 {
      assert to[..1][1..] == [];
      assert FeedRanks(qs, to[..1], batch, step) == FeedOne(qs[0], to[0], batch, step) + [];
    } else {
      FeedRanksTurn(qs[1..], to[1..], batch, step, k - 1);
      assert to[..k + 1][1..] == to[1..][..k] && to[..k][1..] == to[1..][..k - 1];
    }
  }

  lemma {:induction false} ResidueTurn(rs: seq<Rollout>, x: Rollout, n: nat, r: nat)
    requires n > 0
    ensures Residue(rs + [x], n, r) == Residue(rs, n, r) + (if InClass(x, n, r) then [x] else [])
  {
    hide InClass;
    if rs == [] { assert (rs + [x])[1..] == []; }
    else {
      assert (rs + [x])[1..] == rs[1..] + [x];
      ResidueTurn(rs[1..], x, n, r);
      var head: seq<Rollout> := if InClass(rs[0], n, r) then [rs[0]] else [];
      var last: seq<Rollout> := if InClass(x, n, r) then [x] else [];
      assert Residue(rs + [x], n, r) == head + Residue(rs[1..] + [x], n, r);
      assert head + (Residue(rs[1..], n, r) + last) == (head + Residue(rs[1..], n, r)) + last;
    }
  }

  lemma {:induction false} ConcatTurn(qs: seq<seq<Rollout>>, q: seq<Rollout>)
    ensures Concat(qs + [q]) == Concat(qs) + q
  {
    if qs == [] { assert (qs + [q])[1..] == []; }
    else {
      assert (qs + [q])[1..] == qs[1..] + [q];
      ConcatTurn(qs[1..], q);
    }
  }

  lemma {:induction false} TotalLengthTurn(qs: seq<seq<Rollout>>, q: seq<Rollout>)
    ensures TotalLength(qs + [q]) == TotalLength(qs) + |q|
  {
    if qs == [] { assert (qs + [q])[1..] == []; }
    else {
      assert (qs + [q])[1..] == qs[1..] + [q];
      TotalLengthTurn(qs[1..], q);
    }
  }

  /** The filter looks at one more rollout. */
  lemma {:induction false} AcceptedTurn(s: State, rs: seq<Rollout>, x: Rollout, from: nat)
    ensures Accepted(s, rs + [x], from) ==
            Accepted(s, rs, from) + (if Acceptable(s, x, from + |rs|) then [x] else [])
  {
    hide Acceptable;
    if rs == [] {
      assert (rs + [x])[1..] == [];
    } else {
      assert (rs + [x])[1..] == rs[1..] + [x];
      AcceptedTurn(s, rs[1..], x, from + 1);
    }
  }

  lemma BroadcastTurn(to: seq<Name>, cmd: Command, k: nat)
    requires k < |to|
    ensures Broadcast(to[..k + 1], cmd) == Broadcast(to[..k], cmd) + [Sent(to[k], cmd)]
  {
  }

  lemma {:induction false} ReachableTurn(rs: seq<Replica>, ns: seq<Name>, n: Name)
    ensures Reachable(rs, ns + [n]) ==
            Reachable(rs, ns) + (if Has(rs, n) && Get(rs, n).meshRank >= 0 then [n] else [])
  {
    if ns == [] { assert (ns + [n])[1..] == []; }
    else {
      assert (ns + [n])[1..] == ns[1..] + [n];
      ReachableTurn(rs, ns[1..], n);
    }
  }

  /** Marking replicas as loaded does not change who is reachable. */
  lemma {:induction false} ReachableLoaded(rs: seq<Replica>, who: seq<Name>, n: Name)
    requires Distinct(Names(rs))
    ensures Has(Load(rs, who), n) == Has(rs, n)
    ensures Has(rs, n) ==> Get(Load(rs, who), n).meshRank == Get(rs, n).meshRank
  {
    if Has(rs, n) {
      var i :| 0 <= i < |rs| && rs[i].name == n;
      GetAt(rs, i);
      assert Names(Load(rs, who)) == Names(rs);
      GetAt(Load(rs, who), i);
    }
  }

  lemma LoadTurn(rs: seq<Replica>, who: seq<Name>, n: Name)
    ensures Load(Load(rs, who), [n]) == Load(rs, who + [n])
  {
  }

  lemma RankTurn(rs: seq<Replica>, order: seq<Name>, k: nat)
    requires k < |order| && Distinct(order)
    ensures Rank(rs, order[..k + 1]) == SetRank(Rank(rs, order[..k]), order[k], k)
  {
    var a, b := Rank(rs, order[..k + 1]), SetRank(Rank(rs, order[..k]), order[k], k);
    forall i | 0 <= i < |rs| ensures a[i] == b[i] {
      var n := rs[i].name;
      if n in order[..k + 1] {
        var p :| 0 <= p <= k && order[p] == n;
        IndexOfAt(order[..k + 1], p);
        if p < k { assert order[..k][p] == n; IndexOfAt(order[..k], p); }
      }
    }
  }

  /** `replica.status.mesh_rank = rank` */
  function SetRank(rs: seq<Replica>, n: Name, rank: nat): (r: seq<Replica>)
    ensures |r| == |rs|
    ensures forall i :: 0 <= i < |rs| ==> r[i] == if rs[i].name == n then rs[i].(meshRank := rank) else rs[i]
  {
    seq(|rs|, i requires 0 <= i < |rs| => if rs[i].name == n then rs[i].(meshRank := rank) else rs[i])
  }

  lemma SetAllTurn(status: map<Name, PolicyStatus>, ns: seq<Name>, v: PolicyStatus, k: nat)
    requires k < |ns|
    ensures SetAll(status, ns[..k + 1], v) == SetAll(status, ns[..k], v)[ns[k] := v]
  {
  }

  lemma NamesEnded(rs: seq<Replica>, n: Name)
    ensures Names(EndReplica(rs, n)) == Names(rs)
  {
  }

  lemma NamesAppended(rs: seq<Replica>, r: Replica)
    requires Distinct(Names(rs)) && !Has(rs, r.name)
    ensures Distinct(Names(rs + [r])) && Has(rs + [r], r.name)
  {
    HasIffNamed(rs, r.name);
    assert Names(rs + [r]) == Names(rs) + [r.name];
    assert (rs + [r])[|rs|].name == r.name;
  }

  /** The filter reads the step, the queues and the crew, not the weights or the log. */
  lemma {:induction false} AcceptedFrame(s: State, t: State, rs: seq<Rollout>, from: nat)
    requires t.cfg == s.cfg && t.at == s.at && t.queues == s.queues && t.crew == s.crew
    ensures Accepted(t, rs, from) == Accepted(s, rs, from)
  {
    hide Pending;
    if rs != [] { AcceptedFrame(s, t, rs[1..], from + 1); }
  }

  lemma {:induction false} MaxVersionTurn(v: int, rs: seq<Rollout>, k: nat)
    requires k < |rs|
    ensures MaxVersion(v, rs[..k + 1]) == Max(MaxVersion(v, rs[..k]), rs[k].version)
  {
    assert rs[..k + 1][..k] == rs[..k];
  }

  lemma ReportsTurn(rs: seq<Rollout>, k: nat)
    requires k < |rs|
    ensures Reports(rs[..k + 1]) == Reports(rs[..k]) + [Reported(rs[k].version)]
  {
  }

  /** Reading stops at the first version above the step. */
  lemma {:induction false} ReadCountIs(rs: seq<Rollout>, step: int, k: nat)
    requires k <= |rs| && (forall i :: 0 <= i < k ==> rs[i].version <= step) && (k < |rs| ==> rs[k].version > step)
    ensures ReadCount(rs, step) == k
  {
    if k > 0 { ReadCountIs(rs[1..], step, k - 1); }
  }

  lemma PutKeepsQueues(s: State, r: Rollout)
    requires CanPut(s)
    ensures CanPut(Put(s, r)) && Put(s, r).cfg == s.cfg
  {
    hide Idle, Finished, Enough, Feed, SetAll, Names, Broadcast;
  }

  /** The search for a version with room moves on. */
  lemma NextVersionTurn(tags: map<int, nat>, v: int, cap: nat)
    requires v in tags && tags[v] >= cap
    ensures NextVersion(tags, v, cap) == NextVersion(tags, v + 1, cap) && |From(tags, v + 1)| < |From(tags, v)|
  {
    assert From(tags, v) == From(tags, v + 1) + {v};
  }

  /** One more prompt is tagged after the others. */
  lemma {:induction false} TagAllTurn(tags: map<int, nat>, v: int, cap: nat, m: nat, last: int)
    requires last == if m == 0 then v else TagAll(tags, v, cap, m).versions[m - 1]
    ensures var t := TagAll(tags, v, cap, m);
            var w := NextVersion(t.tags, last, cap);
            TagAll(tags, v, cap, m + 1) == Tagging(t.tags[w := TagCount(t.tags, w) + 1], t.versions + [w])
    decreases m
  {
    hide NextVersion, TagCount, TagAll;
    var w := NextVersion(tags, v, cap);
    var next := tags[w := TagCount(tags, w) + 1];
    TagAllFirst(tags, v, cap, m);
    if m > 0 {
      TagAllFirst(tags, v, cap, m - 1);
      var rest := TagAll(next, w, cap, m - 1);
      assert last == if m == 1 then w else rest.versions[m - 2];
      TagAllTurn(next, w, cap, m - 1, last);
      var x := NextVersion(rest.tags, last, cap);
      assert [w] + (rest.versions + [x]) == ([w] + rest.versions) + [x];
    } else {
      TagAllNone(tags, v, cap);
      TagAllNone(next, w, cap);
    }
  }

  lemma {:induction false} TagAllFirst(tags: map<int, nat>, v: int, cap: nat, m: nat)
    ensures var w := NextVersion(tags, v, cap);
            var rest := TagAll(tags[w := TagCount(tags, w) + 1], w, cap, m);
            TagAll(tags, v, cap, m + 1) == Tagging(rest.tags, [w] + rest.versions)
  {
    hide NextVersion, TagCount;
  }

  lemma {:induction false} TagAllNone(tags: map<int, nat>, v: int, cap: nat)
    ensures TagAll(tags, v, cap, 0) == Tagging(tags, [])
  {
  }

  lemma {:induction false} SurvivorsAre(rs: seq<Replica>, participants: set<Name>)
    ensures forall x :: x in SafeSurvivors(rs, participants) <==> x in rs && (!x.ended || x.name in participants)
  {
    if rs != [] {
      SurvivorsAre(rs[1..], participants);
      assert forall x :: x in rs <==> x == rs[0] || x in rs[1..];
    }
  }

  lemma {:induction false} SurvivorsDistinct(rs: seq<Replica>, participants: set<Name>)
    requires Distinct(Names(rs))
    ensures Distinct(Names(SafeSurvivors(rs, participants)))
  {
    if rs != [] {
      assert Names(rs)[1..] == Names(rs[1..]);
      SurvivorsDistinct(rs[1..], participants);
      SurvivorsAre(rs[1..], participants);
      var w := SafeSurvivors(rs[1..], participants);
      forall j | 0 <= j < |w| ensures w[j].name != rs[0].name {
        assert w[j] in rs[1..];
        var q :| 0 <= q < |rs[1..]| && rs[1..][q] == w[j];
        assert Names(rs)[0] != Names(rs)[q + 1];
      }
    }
  }
}
