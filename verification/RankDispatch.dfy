/** Dispatch by mesh rank: which rollouts a queue holds, how mesh ranks are given
    out, and which replica a rollout reaches. */
module RankDispatch {
  import opened Types
  import opened Fleet
  import opened Protocol
  import opened Logs
  import opened Runs
  import opened Shutdown
  import opened Lockstep
  import Ages

  // ---- queues by residue class ---------------------------------------------

  predicate OfClass(q: seq<Rollout>, n: nat, r: nat) {
    forall x :: x in q ==> n > 0 && x.promptIdx % n == r
  }

  /** Queue r holds the rollouts whose prompt index is r modulo the number of queues. */
  predicate Residues(qs: seq<seq<Rollout>>) {
    forall r :: 0 <= r < |qs| ==> OfClass(qs[r], |qs|, r)
  }

  lemma {:induction false} ResidueClass(rs: seq<Rollout>, n: nat, r: nat)
    requires n > 0
    ensures OfClass(Residue(rs, n, r), n, r)
  {
    if rs != [] { ResidueClass(rs[1..], n, r); }
  }

  lemma {:induction false} InsertMembers(q: seq<Rollout>, x: Rollout)
    ensures forall y :: y in InsertByPrompt(q, x) ==> y in q || y == x
  {
    if q != [] { InsertMembers(q[..|q| - 1], x); }
  }

  lemma {:induction false} SortMembers(q: seq<Rollout>)
    ensures forall y :: y in SortByPrompt(q) ==> y in q
  {
    if q != [] {
      var m := |q| - 1;
      SortMembers(q[..m]);
      InsertMembers(SortByPrompt(q[..m]), q[m]);
    }
  }

  /** By prompt index; rollouts of one prompt as they came. */
  ghost predicate ByPrompt(q: seq<Rollout>) { forall i, j :: 0 <= i < j < |q| ==> q[i].promptIdx <= q[j].promptIdx }

  function OfPrompt(q: seq<Rollout>, p: nat): seq<Rollout> {
    if q == [] then [] else OfPrompt(q[..|q| - 1], p) + (if q[|q| - 1].promptIdx == p then [q[|q| - 1]] else [])
  }

  lemma {:induction false} OfPromptNext(q: seq<Rollout>, x: Rollout, p: nat)
    ensures OfPrompt(q + [x], p) == OfPrompt(q, p) + (if x.promptIdx == p then [x] else [])
  {
    assert (q + [x])[..|q|] == q;
  }

  lemma {:induction false} InsertInOrder(q: seq<Rollout>, x: Rollout)
    requires ByPrompt(q)
    ensures ByPrompt(InsertByPrompt(q, x))
    ensures multiset(InsertByPrompt(q, x)) == multiset(q) + multiset{x}
  {
    var m := |q| - 1;
    if q != [] && q[m].promptIdx > x.promptIdx {
      InsertInOrder(q[..m], x);
      InsertMembers(q[..m], x);
      var r := InsertByPrompt(q[..m], x);
      assert q == q[..m] + [q[m]];
      forall i | 0 <= i < |r| ensures r[i].promptIdx <= q[m].promptIdx { assert r[i] in r; }
    }
  }

  lemma {:induction false} InsertKeepsPrompt(q: seq<Rollout>, x: Rollout, p: nat)
    ensures OfPrompt(InsertByPrompt(q, x), p) == OfPrompt(q + [x], p)
  {
    hide OfPrompt;
    var m := |q| - 1;
    if q != [] && q[m].promptIdx > x.promptIdx {
      InsertKeepsPrompt(q[..m], x, p);
      OfPromptNext(InsertByPrompt(q[..m], x), q[m], p);
      OfPromptNext(q[..m], x, p);
      OfPromptNext(q[..m], q[m], p);
      OfPromptNext(q, x, p);
      assert q == q[..m] + [q[m]];
    }
  }

  /** The hand-out order of a queue: by prompt index, rollouts of one prompt as they came in. */
  lemma {:induction false} SortedByPrompt(q: seq<Rollout>, p: nat)
    ensures ByPrompt(SortByPrompt(q)) && multiset(SortByPrompt(q)) == multiset(q)
    ensures OfPrompt(SortByPrompt(q), p) == OfPrompt(q, p)
  {
    hide InsertByPrompt, ByPrompt;
    if q != [] {
      var m := |q| - 1;
      SortedByPrompt(q[..m], p);
      var s := SortByPrompt(q[..m]);
      InsertInOrder(s, q[m]);
      InsertKeepsPrompt(s, q[m], p);
      OfPromptNext(s, q[m], p);
      assert q == q[..m] + [q[m]];
    } else { assert ByPrompt([]) by { NothingByPrompt(); } }
  }

  lemma NothingByPrompt()
    ensures ByPrompt([])
  {
  }

  lemma RearrangedResidues(cfg: Config, q: Queues, n: nat)
    requires Residues(q.perRank)
    ensures Residues(Rearranged(cfg, q, n).perRank)
    ensures cfg.rankInMesh && n > 0 ==> |Rearranged(cfg, q, n).perRank| == n
  {
    if cfg.rankInMesh && n > 0 {
      forall r | 0 <= r < n ensures OfClass(Rearranged(cfg, q, n).perRank[r], n, r) {
        ResidueClass(Concat(q.perRank), n, r);
      }
    }
  }

  lemma TakenResidues(cfg: Config, q: Queues, n: nat)
    requires Residues(q.perRank) && Enough(cfg, q, n) && RanksCovered(cfg, q, n)
    ensures Residues(Taken(cfg, q, n).perRank) && |Taken(cfg, q, n).perRank| == |q.perRank|
  {
    if cfg.rankInMesh {
      var t := Taken(cfg, q, n).perRank;
      forall r | 0 <= r < |t| ensures OfClass(t[r], |t|, r) {
        assert OfClass(q.perRank[r], |q.perRank|, r);
        SortMembers(q.perRank[r]);
      }
    }
  }

  lemma EnqueuedResidues(cfg: Config, q: Queues, r: Rollout)
    requires Residues(q.perRank) && (cfg.rankInMesh ==> q.perRank != [])
    ensures Residues(Enqueued(cfg, q, r).perRank) && |Enqueued(cfg, q, r).perRank| == |q.perRank|
  {
    forall i | 0 <= i < |q.perRank| ensures OfClass(Enqueued(cfg, q, r).perRank[i], |q.perRank|, i) {
      assert OfClass(q.perRank[i], |q.perRank|, i);
    }
  }

  /** Putting one item in front of a queue. */
  lemma {:induction false} ConcatPush(qs: seq<seq<Rollout>>, i: nat, x: Rollout)
    requires i < |qs|
    ensures multiset(Concat(qs[i := [x] + qs[i]])) == multiset(Concat(qs)) + multiset{x}
  {
    var p := qs[i := [x] + qs[i]];
    if i == 0 { assert p[1..] == qs[1..]; }
    else {
      assert p[1..] == qs[1..][i - 1 := [x] + qs[1..][i - 1]];
      ConcatPush(qs[1..], i - 1, x);
    }
  }

  lemma {:induction false} ConcatEmpty(qs: seq<seq<Rollout>>)
    requires forall i :: 0 <= i < |qs| ==> qs[i] == []
    ensures Concat(qs) == []
  {
    if qs != [] { ConcatEmpty(qs[1..]); }
  }

  lemma {:induction false} ResidueStep(rs: seq<Rollout>, n: nat, r: nat, t: nat)
    requires n > 0 && rs != [] && t == rs[0].promptIdx % n
    ensures Residue(rs, n, r) == if r == t then [rs[0]] + Residue(rs[1..], n, r) else Residue(rs[1..], n, r)
  {
  }

  lemma {:induction false} ResiduesPartition(rs: seq<Rollout>, n: nat, qs: seq<seq<Rollout>>)
    requires n > 0 && |qs| == n
    requires forall r :: 0 <= r < n ==> qs[r] == Residue(rs, n, r)
    ensures multiset(Concat(qs)) == multiset(rs)
  {
    hide Concat;
    if rs == [] { ConcatEmpty(qs); }
    else {
      hide Residue;
      var t := rs[0].promptIdx % n;
      var rest := qs[t := Residue(rs[1..], n, t)];
      forall r | 0 <= r < n ensures rest[r] == Residue(rs[1..], n, r) { ResidueStep(rs, n, r, t); }
      ResiduesPartition(rs[1..], n, rest);
      ResidueStep(rs, n, t, t);
      assert qs == rest[t := [rs[0]] + rest[t]];
      ConcatPush(rest, t, rs[0]);
      assert rs == [rs[0]] + rs[1..];
    }
  }

  /** A rebuild loses and invents no rollout. */
  lemma RebuildKeepsRollouts(cfg: Config, q: Queues, n: nat)
    ensures multiset(Concat(Rearranged(cfg, q, n).perRank)) == multiset(Concat(q.perRank))
  {
    if cfg.rankInMesh && n > 0 { ResiduesPartition(Concat(q.perRank), n, Rearranged(cfg, q, n).perRank); }
  }

  // ---- ranks ---------------------------------------------------------------

  /** The replicas in the mesh are numbered by age. */
  predicate Numbered(rs: seq<Replica>) {
    var order := ByStart(InMesh(rs));
    forall i :: 0 <= i < |rs| && rs[i].meshRank >= 0 ==>
      rs[i].name in order && rs[i].meshRank == IndexOf(order, rs[i].name)
  }

  /** The mesh has as many ranks as there are queues. */
  predicate Fitted(cfg: Config, rs: seq<Replica>, q: Queues) {
    Numbered(rs) && (cfg.rankInMesh && InMesh(rs) != [] ==> |q.perRank| == |InMesh(rs)|)
  }

  lemma {:induction false} WholeMesh(rs: seq<Replica>)
    requires forall i :: 0 <= i < |rs| ==> rs[i].meshRank >= 0
    ensures InMesh(rs) == rs
  {
    if rs != [] { WholeMesh(rs[1..]); }
  }

  lemma {:induction false} InMeshAppend(rs: seq<Replica>, r: Replica)
    requires r.meshRank < 0
    ensures InMesh(rs + [r]) == InMesh(rs)
  {
    if rs == [] { assert (rs + [r])[1..] == []; }
    else { assert (rs + [r])[1..] == rs[1..] + [r]; InMeshAppend(rs[1..], r); }
  }

  lemma {:induction false} InMeshWithout(rs: seq<Replica>, name: Name)
    requires forall i :: 0 <= i < |rs| && rs[i].name == name ==> rs[i].meshRank < 0
    ensures InMesh(Without(rs, name)) == InMesh(rs)
  {
    if rs != [] {
      InMeshWithout(rs[1..], name);
      if rs[0].name != name {
        var w := Without(rs[1..], name);
        assert ([rs[0]] + w)[1..] == w;
      }
    }
  }

  /** Replicas that differ at most in their marks. */
  predicate SameMesh(rs: seq<Replica>, qs: seq<Replica>) {
    |rs| == |qs| && forall i :: 0 <= i < |rs| ==>
      qs[i].name == rs[i].name && qs[i].startTime == rs[i].startTime && qs[i].meshRank == rs[i].meshRank
  }

  lemma {:induction false} SameInMesh(rs: seq<Replica>, qs: seq<Replica>)
    requires SameMesh(rs, qs)
    ensures |InMesh(rs)| == |InMesh(qs)| && Arrivals(InMesh(rs)) == Arrivals(InMesh(qs))
  {
    if rs != [] {
      SameInMesh(rs[1..], qs[1..]);
      assert forall i :: 0 <= i < |InMesh(rs[1..])| ==>
               Arrivals(InMesh(rs[1..]))[i] == Arrivals(InMesh(qs[1..]))[i];
    }
  }

  lemma SameFitted(cfg: Config, rs: seq<Replica>, qs: seq<Replica>, q: Queues)
    requires Fitted(cfg, rs, q) && SameMesh(rs, qs)
    ensures Fitted(cfg, qs, q)
  {
    SameInMesh(rs, qs);
    assert ByStart(InMesh(rs)) == ByStart(InMesh(qs)) by { SameOrder(InMesh(rs), InMesh(qs)); }
  }

  lemma SameOrder(rs: seq<Replica>, qs: seq<Replica>)
    requires Arrivals(rs) == Arrivals(qs)
    ensures ByStart(rs) == ByStart(qs)
  {
  }

  /** Rebuilding numbers everyone. */
  lemma RankNumbers(rs: seq<Replica>)
    ensures var qs := Rank(rs, ByStart(rs)); Numbered(qs) && InMesh(qs) == qs
  {
    var qs := Rank(rs, ByStart(rs));
    forall i | 0 <= i < |rs| ensures rs[i].name in ByStart(rs) && qs[i].meshRank >= 0 { assert Has(rs, rs[i].name); }
    WholeMesh(qs);
    assert Arrivals(qs) == Arrivals(rs);
    SameOrder(rs, qs);
  }

  // ---- the invariant -------------------------------------------------------

  predicate Active(status: map<Name, PolicyStatus>, n: Name) { n in status && status[n] != Uninitialized }

  /** A replica that has ever been ready is in the mesh. */
  predicate ActiveInMesh(crew: Crew) {
    forall i :: 0 <= i < |crew.replicas| && Active(crew.status, crew.replicas[i].name) ==> crew.replicas[i].meshRank >= 0
  }

  predicate MeshSound(s: State) {
    && Residues(s.queues.perRank)
    && ActiveInMesh(s.crew)
    && (Stepping(s) ==> Fitted(s.cfg, s.crew.replicas, s.queues))
  }

  /** Nobody becomes active. */
  predicate NoneWakes(a: map<Name, PolicyStatus>, b: map<Name, PolicyStatus>) {
    forall n :: n in b && Active(b, n) ==> Active(a, n)
  }

  /** Rollouts handed out in the extension of `a` to `b` reach the rank of their residue. */
  predicate FedByRank(rs: seq<Replica>, a: seq<Entry>, b: seq<Entry>) {
    && |a| <= |b| && b[..|a|] == a
    && forall k :: |a| <= k < |b| && b[k].Fed? ==>
         Has(rs, b[k].to) && b[k].rollout.promptIdx % |rs| == Get(rs, b[k].to).meshRank
  }

  /** What an operation other than registration does to meshes and queues. */
  predicate Tended(s: State, t: State) {
    && t.cfg == s.cfg
    && t.crew.replicas == s.crew.replicas
    && |t.queues.perRank| == |s.queues.perRank|
    && Residues(t.queues.perRank)
    && NoneWakes(s.crew.status, t.crew.status)
    && (s.cfg.rankInMesh ==> FedByRank(s.crew.replicas, s.log, t.log))
    && (Stepping(t) ==> Stepping(s))
  }

  lemma TendedSound(s: State, t: State)
    requires MeshSound(s) && Tended(s, t)
    ensures MeshSound(t)
  {
    hide Residues, Numbered, Stepping, FedByRank;
  }

  lemma TendedTransitive(s: State, t: State, u: State)
    requires Tended(s, t) && Tended(t, u)
    ensures Tended(s, u)
  {
    hide Residues, Stepping, Get, Has;
    if s.cfg.rankInMesh {
      assert u.log[..|s.log|] == u.log[..|t.log|][..|s.log|];
      forall k | |s.log| <= k < |u.log| && u.log[k].Fed?
        ensures Has(s.crew.replicas, u.log[k].to)
        ensures u.log[k].rollout.promptIdx % |s.crew.replicas| == Get(s.crew.replicas, u.log[k].to).meshRank
      {
        if k < |t.log| { assert u.log[k] == u.log[..|t.log|][k]; }
      }
    }
  }

  /** An extension that feeds nobody. */
  predicate Unfed(a: seq<Entry>, b: seq<Entry>) {
    |a| <= |b| && b[..|a|] == a && forall k :: |a| <= k < |b| ==> !b[k].Fed?
  }

  // ---- dispatching ---------------------------------------------------------

  /** Everyone in an idle crew is in the mesh, so the ranks are the positions by age. */
  lemma IdleMesh(s: State)
    requires MeshSound(s) && InStep(s) && Idle(s.crew) && Stepping(s)
    ensures InMesh(s.crew.replicas) == s.crew.replicas
    ensures forall i :: 0 <= i < |s.crew.replicas| ==> s.crew.replicas[i].meshRank >= 0
  {
    hide Residues, Numbered, Stepping, Distinct, AllBusy;
    var rs := s.crew.replicas;
    forall i | 0 <= i < |rs| ensures rs[i].meshRank >= 0 {
      assert Names(rs)[i] in NameSet(rs);
      assert rs[i].name in s.crew.status;
    }
    WholeMesh(rs);
  }

  /** The entry feeds the replica at the position of the rollout's residue. */
  predicate AtResidue(e: Entry, all: seq<Name>, n: nat) {
    e.Fed? && n > 0 && e.rollout.promptIdx % n < |all| && e.to == all[e.rollout.promptIdx % n]
  }

  lemma {:induction false} FeedRanksClass(
    qs: seq<seq<Rollout>>, to: seq<Name>, batch: nat, step: int, all: seq<Name>, n: nat, base: nat)
    requires |to| <= |qs| && EachAtLeast(qs, batch) && base + |to| <= |all| && all[base..base + |to|] == to
    requires forall i :: 0 <= i < |qs| ==> OfClass(qs[i], n, base + i)
    ensures forall e :: e in FeedRanks(qs, to, batch, step) ==> AtResidue(e, all, n)
    decreases |to|
  {
    if to != [] {
      assert forall i :: 0 <= i < |qs[1..]| ==> qs[1..][i] == qs[i + 1];
      FeedRanksClass(qs[1..], to[1..], batch, step, all, n, base + 1);
      assert to[0] == all[base];
      FeedOneClass(qs[0], to[0], batch, step, all, n, base);
    }
  }

  lemma FeedOneClass(q: seq<Rollout>, to: Name, batch: nat, step: int, all: seq<Name>, n: nat, base: nat)
    requires batch <= |q| && base < |all| && all[base] == to && OfClass(q, n, base)
    ensures forall e :: e in FeedOne(q, to, batch, step) ==> AtResidue(e, all, n)
  {
    SortMembers(q);
    var es := FeedOne(q, to, batch, step);
    forall e | e in es ensures AtResidue(e, all, n) {
      var j :| 0 <= j < |es| && es[j] == e;
      assert SortByPrompt(q)[j] in SortByPrompt(q);
    }
  }

  /** The rank of the replica at position r of the age order is r. */
  lemma {:induction false} RankOfPosition(rs: seq<Replica>, r: nat)
    requires Distinct(Names(rs)) && Numbered(rs) && InMesh(rs) == rs && r < |rs|
    requires forall i :: 0 <= i < |rs| ==> rs[i].meshRank >= 0
    ensures Has(rs, ByStart(rs)[r]) && Get(rs, ByStart(rs)[r]).meshRank == r
  {
    hide ByStart, InMesh, Get, IndexOf, Distinct, Names;
    var order := ByStart(rs);
    assert order[r] in order;
    var i :| 0 <= i < |rs| && rs[i].name == order[r];
    GetAt(rs, i);
    ByStartDistinct(rs);
    IndexOfAt(order, r);
  }

  lemma FeedByRank(s: State)
    requires MeshSound(s) && InStep(s) && CanDispatch(s) && !Closed(s.closing) && s.cfg.rankInMesh
    ensures FedByRank(s.crew.replicas, s.log, s.log + Feed(s.cfg, s.queues, s.crew.replicas, s.at.step + 1))
  {
    hide ByStart, InMesh, AllBusy, Idle, FeedRanks, Distinct, Numbered;
    IdleMesh(s);
    var rs := s.crew.replicas;
    var order := ByStart(rs);
    assert order[0..0 + |order|] == order;
    FeedRanksClass(s.queues.perRank, order, s.cfg.batch, s.at.step + 1, order, |rs|, 0);
    var fed := Feed(s.cfg, s.queues, rs, s.at.step + 1);
    var b := s.log + fed;
    assert b[..|s.log|] == s.log;
    forall k | |s.log| <= k < |b| && b[k].Fed?
      ensures Has(rs, b[k].to) && b[k].rollout.promptIdx % |rs| == Get(rs, b[k].to).meshRank
    {
      assert b[k] == fed[k - |s.log|] && b[k] in fed;
      RankOfPosition(rs, b[k].rollout.promptIdx % |rs|);
    }
  }

  lemma WakesNobody(crew: Crew, v: PolicyStatus)
    requires Roster(crew) && Idle(crew)
    ensures NoneWakes(crew.status, SetAll(crew.status, Names(crew.replicas), v))
  {
    hide Distinct;
    forall n | n in Names(crew.replicas) ensures n in crew.status { assert n in NameSet(crew.replicas); }
  }

  lemma DispatchTended(s: State)
    requires MeshSound(s) && Sound(s) && InStep(s) && CanDispatch(s) && !Closed(s.closing)
    ensures Tended(s, Dispatch(s))
  {
    hide Sound, Idle, Enough, RanksCovered, Taken, Feed, SetAll, Names, Get, Has, Distinct, AllBusy, Residues, NoneWakes,
         ActiveInMesh, Fitted;
    TakenResidues(s.cfg, s.queues, |s.crew.replicas|);
    WakesNobody(s.crew, Running);
    DispatchKept(s);
    if s.cfg.rankInMesh {
      FeedByRank(s);
      var b := s.log + Feed(s.cfg, s.queues, s.crew.replicas, s.at.step + 1);
      UnfedByRank(s.crew.replicas, s.log, b, Dispatch(s).log);
    }
  }

  lemma UnfedByRank(rs: seq<Replica>, a: seq<Entry>, b: seq<Entry>, c: seq<Entry>)
    requires FedByRank(rs, a, b) && Unfed(b, c)
    ensures FedByRank(rs, a, c)
  {
    hide Get, Has;
    assert c[..|a|] == c[..|b|][..|a|];
    forall k | |a| <= k < |c| && c[k].Fed?
      ensures Has(rs, c[k].to) && c[k].rollout.promptIdx % |rs| == Get(rs, c[k].to).meshRank
    {
      assert c[k] == c[..|b|][k];
    }
  }

  /** An operation that leaves crew and queues alone and feeds nobody. */
  lemma PlainTended(s: State, t: State)
    requires MeshSound(s) && t.cfg == s.cfg && t.crew.replicas == s.crew.replicas
    requires t.queues.perRank == s.queues.perRank || t.queues == Emptied(s.cfg, s.queues)
    requires NoneWakes(s.crew.status, t.crew.status) && Unfed(s.log, t.log) && (Stepping(t) ==> Stepping(s))
    ensures Tended(s, t)
  {
    hide Stepping, NoneWakes, ActiveInMesh, Fitted, Get, Has;
  }

  lemma StillStepping(s: State, t: State)
    requires Later(s, t)
    ensures Stepping(t) ==> Stepping(s)
  {
  }

  lemma SameStatus(a: map<Name, PolicyStatus>)
    ensures NoneWakes(a, a)
  {
  }

  lemma ConcludeTended(s: State)
    requires MeshSound(s) && Sound(s) && InStep(s) && s.closing.draining && !Closed(s.closing) && Idle(s.crew)
    ensures Tended(s, Conclude(s))
  {
    hide MeshSound, Sound, Idle, Settle, Pending, Emptied, SetAll, Names, RealTerminalAcked, NoneWakes, Distinct, AllBusy,
         Stepping;
    WakesNobody(s.crew, Running);
    SameStatus(s.crew.status);
    ConcludeKept(s);
    StillStepping(s, Conclude(s));
    PlainTended(s, Conclude(s));
  }

  lemma DrainTended(s: State)
    requires MeshSound(s) && Sound(s) && InStep(s)
    ensures Tended(s, FinishDraining(s))
  {
    hide MeshSound, InStep, CanDispatch, Dispatch, Idle, AllEnded, Settle, Pending, Emptied, Conclude, NoneWakes,
         Tended, RealCommandsBounded;
    SameStatus(s.crew.status);
    if AllEnded(s.gens) {
      var e := EnterDraining(s);
      PlainTended(s, e);
      TendedSound(s, e);
      DrainEntered(s);
      if Closed(e.closing) { PlainTended(e, Cleanup(e)); }
      else if !Idle(e.crew) { PlainTended(e, e); }
      else if e.at.step < Horizon(e.closing, e.at) && CanDispatch(e) { DispatchTended(e); }
      else { ConcludeTended(e); }
      TendedTransitive(s, e, Drain(e));
    } else { PlainTended(s, s); }
  }

  lemma DrainEntered(s: State)
    requires Sound(s) && InStep(s)
    ensures Sound(EnterDraining(s)) && InStep(EnterDraining(s))
  {
    hide Pending, RealCommandsBounded, Roster, AllBusy;
  }

  lemma StepDoneTended(s: State, step: int, total: int)
    requires MeshSound(s) && Sound(s) && InStep(s) && AllIn(s.crew.status, {Reduced})
    ensures Tended(s, StepDone(s, step, total))
  {
    hide MeshSound, Sound, InStep, SettleStep, Resume, FinishDraining, CanDispatch, Dispatch, AllIn, Tended, NoneWakes,
         Emptied, Closed;
    var a := SettleStep(s, step, total);
    SettleStepFrame(s, step, total);
    SettleStepKept(s, step, total);
    StillStepping(s, a);
    SameStatus(s.crew.status);
    PlainTended(s, a);
    TendedSound(s, a);
    UndisturbedInStep(s, a);
    var c := Resume(a, step);
    ResumeTended(a, step);
    TendedSound(a, c);
    TendedTransitive(s, a, c);
    ResumeInStep(a, step);
    ResumeKept(a, step);
    if c.closing.draining { DrainTended(c); TendedTransitive(s, c, FinishDraining(c)); }
    else if CanDispatch(c) {
      ResumeOpen(a, step);
      DispatchTended(c);
      TendedTransitive(s, c, Dispatch(c));
    }
  }

  lemma ResumeKept(s: State, step: int)
    requires Sound(s)
    ensures Sound(Resume(s, step)) && Later(s, Resume(s, step))
  {
    hide Resume, Pending, Serviced, RealCommandsBounded, NoNewStep;
    ResumeFrame(s, step);
    ServicedNoStep(s.log, Resume(s, step).log);
    InertKept(s, Resume(s, step));
  }

  lemma ResumeTended(s: State, step: int)
    requires MeshSound(s) && Sound(s) && InStep(s) && AllIn(s.crew.status, {Reduced})
    ensures Tended(s, Resume(s, step))
  {
    hide MeshSound, Sound, Resume, SetAll, Names, NoneWakes, Distinct, AllBusy, Stepping;
    var t := Resume(s, step);
    ResumeFrame(s, step);
    WakesNobody(s.crew, Ready);
    ResumeKept(s, step);
    StillStepping(s, t);
    assert Unfed(s.log, t.log);
    PlainTended(s, t);
  }

  lemma AckTended(s: State, name: Name, step: int, total: int)
    requires MeshSound(s) && Sound(s) && InStep(s) && Orderly(s, Acking(name, step, total))
    ensures Tended(s, TrainAck(s, name, step, total).state)
  {
    hide MeshSound, Sound, StepDone, Has, Outstanding, Tended, Distinct, AllBusy, Later, Overdrawn, TakeRecord;
    SameStatus(s.crew.status);
    if !Has(s.crew.replicas, name) { PlainTended(s, s); }
    else {
      StatusOf(s.crew, name);
      RunningInitialised(s, name);
      var t := s.(crew := SetStatus(s.crew, name, Reduced), log := s.log + [Acked(name, step, total)]);
      assert NoneWakes(s.crew.status, t.crew.status);
      AckKept(s, name, step, total);
      StillStepping(s, TrainAck(s, name, step, total).state);
      PlainTended(s, t);
      if IsCompletionAck(s.closing, name, step) { PlainTended(s, TrainAck(s, name, step, total).state); }
      else if AllIn(t.crew.status, {Reduced}) {
        TendedSound(s, t);
        AckedBusy(s.log, s.crew.status, name, step, total, WorkStep(s));
        assert InStep(t);
        AckedSound(s, t);
        TakeRecordFrame(t, step);
        if Overdrawn(t.ledger, step) { PlainTended(s, TakeRecord(t, step)); }
        else {
          StepDoneTended(t, step, total);
          TendedTransitive(s, t, StepDone(t, step, total));
        }
      }
    }
  }

  lemma AckedSound(s: State, t: State)
    requires Sound(s) && t.cfg == s.cfg && t.closing == s.closing && t.at == s.at && t.queues == s.queues
    requires |t.log| == |s.log| + 1 && t.log[..|s.log|] == s.log && t.log[|s.log|].Acked?
    ensures Sound(t)
  {
    hide Pending, RealCommandsBounded;
    assert Inert(s, t);
    InertKept(s, t);
  }

  lemma {:induction false} PutAllTended(s: State, rs: seq<Rollout>)
    requires MeshSound(s) && Sound(s) && InStep(s) && !Closed(s.closing)
    ensures Tended(s, PutAll(s, rs))
    decreases rs
  {
    hide MeshSound, InStep, CanDispatch, Dispatch, Enqueued, NoneWakes, Tended, RealCommandsBounded, Pending, Stepping;
    SameStatus(s.crew.status);
    if rs == [] || !CanPut(s) { PlainTended(s, s); }
    else {
      var e := s.(queues := Enqueued(s.cfg, s.queues, rs[0]));
      assert Tended(s, e) by { EnqueueTended(s, rs[0]); }
      TendedSound(s, e);
      UndisturbedInStep(s, e);
      assert Sound(e);
      var t := Put(s, rs[0]);
      if CanDispatch(e) {
        DispatchTended(e);
        TendedTransitive(s, e, t);
        DispatchInStep(e);
        DispatchKeepsClosing(e);
        DispatchKept(e);
      }
      TendedSound(s, t);
      PutAllTended(t, rs[1..]);
      TendedTransitive(s, t, PutAll(s, rs));
    }
  }

  lemma EnqueueTended(s: State, r: Rollout)
    requires MeshSound(s) && CanPut(s)
    ensures Tended(s, s.(queues := Enqueued(s.cfg, s.queues, r)))
  {
    hide Enqueued, ActiveInMesh, Fitted, Residues, Get, Has;
    EnqueuedResidues(s.cfg, s.queues, r);
  }

  lemma PostTended(s: State, p: Post)
    requires MeshSound(s) && Sound(s) && InStep(s)
    ensures Tended(s, PostRollouts(s, p).state)
  {
    hide MeshSound, InStep, SettleDiscard, Settle, ReadCount, Accepted, MaxVersion, PutAll, NoneWakes, Tended,
         RealCommandsBounded, Pending, Stepping, Names;
    SameStatus(s.crew.status);
    var d := Intake(s, p);
    if Closed(d.closing) || ReadCount(p.rollouts, d.at.step) < |p.rollouts| {
      PostKept(s, p);
      StillStepping(s, PostRollouts(s, p).state);
      PlainTended(s, PostRollouts(s, p).state);
    } else {
      var a := Adopt(d, p.rollouts);
      var good := Accepted(a, p.rollouts, 0);
      var f := Drop(a, |p.rollouts| - |good|);
      IntakeRecords(s, p);
      SettleRecords(a.ledger, |p.rollouts| - |good|);
      assert Undisturbed(s, f);
      UndisturbedInStep(s, f);
      assert Inert(s, f);
      InertKept(s, f);
      StillStepping(s, f);
      PlainTended(s, f);
      TendedSound(s, f);
      PutAllTended(f, good);
      TendedTransitive(s, f, PutAll(f, good));
    }
  }

  lemma EndTended(s: State, name: Name, rank: Option<int>, stays: bool)
    requires MeshSound(s) && Sound(s) && InStep(s)
    ensures Tended(s, RolloutEnd(s, name, rank, stays))
  {
    hide MeshSound, InStep, EndReport, EndsReplica, FinishDraining, NoneWakes, Tended, RealCommandsBounded, Pending, Names;
    var t := s.(gens := EndReport(s.gens, name, rank, stays));
    SameStatus(s.crew.status);
    PlainTended(s, t);
    if EndsReplica(s.gens, name, rank) {
      TendedSound(s, t);
      UndisturbedInStep(s, t);
      DrainTended(t);
      var u := FinishDraining(t);
      TendedSound(t, u);
      SameStatus(u.crew.status);
      PlainTended(u, RolloutEnd(s, name, rank, stays));
      TendedTransitive(s, t, u);
      TendedTransitive(s, u, RolloutEnd(s, name, rank, stays));
    }
  }

  lemma OthersTended(s: State, e: Event)
    requires MeshSound(s) && Sound(s) && (e.Fetching? || e.RolloutUp? || e.RolloutDown? || e.Tick?)
    ensures Tended(s, Apply(s, e))
  {
    hide MeshSound, Fetch, RegisterRollout, UnregisterRollout, MonitorTick, Stepping, RealCommandsBounded, Pending, Sound;
    StepKept(s, e);
    StillStepping(s, Apply(s, e));
    OthersLeaveMeshAlone(s, e);
    SameStatus(s.crew.status);
    PlainTended(s, Apply(s, e));
  }

  lemma OthersLeaveMeshAlone(s: State, e: Event)
    requires e.Fetching? || e.RolloutUp? || e.RolloutDown? || e.Tick?
    ensures var t := Apply(s, e);
            t.cfg == s.cfg && t.crew == s.crew && t.queues == s.queues && Unfed(s.log, t.log)
  {
    hide FetchTags, HardThrottled, RegisterRollout, UnregisterRollout, ShouldStop, Names;
    match e
    case Fetching(_, _, _) =>
    case RolloutUp(name, now, rs) => RolloutUpUnfed(s, name, now, rs);
    case RolloutDown(name) => UnregisterRolloutFrame(s, name);
    case Tick =>
  }

  lemma RolloutUpUnfed(s: State, name: Name, now: int, rs: set<int>)
    ensures var t := RegisterRollout(s, name, now, rs).state;
            t.cfg == s.cfg && t.crew == s.crew && t.queues == s.queues && Unfed(s.log, t.log)
  {
    hide RegisterRollout, Has;
    if Has(s.gens.replicas, name) { RolloutKnown(s, name, now, rs); }
    else {
      RegisterRolloutFrame(s, name, now, rs);
      var t := RegisterRollout(s, name, now, rs).state;
      var j := s.log + [RolloutJoined(name)];
      assert t.log[..|s.log|] == t.log[..|j|][..|s.log|];
      assert t.log[|s.log|] == t.log[..|j|][|s.log|] == RolloutJoined(name);
    }
  }

  // ---- registration --------------------------------------------------------

  /** Rebuilding over all replicas makes mesh and queues fit. */
  lemma RebuildFits(s: State)
    requires Residues(s.queues.perRank)
    ensures var t := RebuildPolicyMesh(s);
            && Residues(t.queues.perRank)
            && Fitted(s.cfg, t.crew.replicas, t.queues)
            && forall i :: 0 <= i < |t.crew.replicas| ==> t.crew.replicas[i].meshRank >= 0
  {
    hide ByStart, Numbered, Residues, Rearranged, RecomputeTotal, Broadcast, InMesh;
    RankNumbers(s.crew.replicas);
    RearrangedResidues(s.cfg, s.queues, |s.crew.replicas|);
    var rs := s.crew.replicas;
    forall i | 0 <= i < |rs| ensures rs[i].name in ByStart(rs) { assert Has(rs, rs[i].name); }
  }

  lemma LoadSameMesh(rs: seq<Replica>, ns: seq<Name>)
    ensures SameMesh(rs, Load(rs, ns))
  {
  }

  lemma AddMesh(s: State, name: Name, now: int)
    requires MeshSound(s) && !Has(s.crew.replicas, name)
    ensures MeshSound(AddPolicy(s, name, now))
  {
    hide Residues, ByStart, InMesh;
    InMeshAppend(s.crew.replicas, Replica(name, now, false, -1, false, {}));
  }

  lemma FirstPolicyMesh(s: State, name: Name)
    requires MeshSound(s)
    ensures MeshSound(FirstPolicy(s, name))
  {
    hide Residues, FirstPolicy, Fitted, Serviced;
    FirstPolicyFrame(s, name);
    LoadSameMesh(s.crew.replicas, [name]);
    if Stepping(s) { SameFitted(s.cfg, s.crew.replicas, Load(s.crew.replicas, [name]), s.queues); }
  }

  lemma JoinMesh(s: State, name: Name)
    requires MeshSound(s)
    ensures MeshSound(JoinPolicyMesh(s, name).state)
  {
    hide Residues, RebuildPolicyMesh, Fitted, FirstLoaded, ByStart, Load;
    RebuildFits(s);
    RebuildFrame(s);
    var m := RebuildPolicyMesh(s);
    LoadSameMesh(m.crew.replicas, [name]);
    SameFitted(s.cfg, m.crew.replicas, Load(m.crew.replicas, [name]), m.queues);
  }

  lemma InitMesh(s: State)
    requires MeshSound(s)
    ensures MeshSound(InitPolicyMesh(s).state)
  {
    hide Residues, RebuildPolicyMesh, Fitted, FirstLoaded, ByStart, Load, SetAll, Names, Broadcast;
    var i := s.(crew := s.crew.(initDone := true));
    RebuildFits(i);
    RebuildFrame(i);
    var m := RebuildPolicyMesh(i);
    LoadSameMesh(m.crew.replicas, Names(m.crew.replicas));
    SameFitted(s.cfg, m.crew.replicas, Load(m.crew.replicas, Names(m.crew.replicas)), m.queues);
  }

  lemma PolicyUpMesh(s: State, name: Name, now: int)
    requires MeshSound(s)
    ensures MeshSound(RegisterPolicy(s, name, now).state)
  {
    hide MeshSound, FirstPolicy, JoinPolicyMesh, InitPolicyMesh, Has;
    if !Has(s.crew.replicas, name) {
      var a := AddPolicy(s, name, now);
      AddMesh(s, name, now);
      FirstPolicyMesh(a, name);
      var b := if |a.crew.replicas| == 1 then FirstPolicy(a, name) else a;
      JoinMesh(b, name);
      InitMesh(b);
      SeenMesh(PolicyHook(b, name).state);
    }
  }

  lemma SeenMesh(s: State)
    requires MeshSound(s)
    ensures MeshSound(s.(crew := s.crew.(seen := true)))
  {
  }

  lemma PolicyDownMesh(s: State, name: Name)
    requires MeshSound(s) && Sound(s) && InStep(s)
    ensures MeshSound(UnregisterPolicy(s, name).state)
  {
    hide Residues, RebuildPolicyMesh, Fitted, AllBusy, Without, Pending, RealCommandsBounded, Has, Distinct, Get;
    if Has(s.crew.replicas, name) {
      var rs := s.crew.replicas;
      var t := s.(crew := s.crew.(replicas := Without(rs, name), status := s.crew.status - {name}, left := s.crew.left + 1));
      LeftActive(s.crew, name);
      RebuildFits(t);
      RebuildFrame(t);
      if Stepping(s) && Get(rs, name).meshRank < 0 { UnrankedLeaves(s.cfg, rs, name, s.queues); }
      if t.crew.replicas == [] { EmptyFits(s.cfg, s.queues); }
    }
  }

  lemma EmptyFits(cfg: Config, q: Queues)
    ensures Fitted(cfg, [], q)
  {
  }

  lemma {:induction false} LeftActive(crew: Crew, name: Name)
    requires ActiveInMesh(crew)
    ensures ActiveInMesh(crew.(replicas := Without(crew.replicas, name), status := crew.status - {name}))
  {
    WithoutMembers(crew.replicas, name);
    var w := Without(crew.replicas, name);
    forall i | 0 <= i < |w| && Active(crew.status - {name}, w[i].name) ensures w[i].meshRank >= 0 {
      assert w[i] in crew.replicas;
      var j :| 0 <= j < |crew.replicas| && crew.replicas[j] == w[i];
    }
  }

  lemma {:induction false} UnrankedLeaves(cfg: Config, rs: seq<Replica>, name: Name, q: Queues)
    requires Fitted(cfg, rs, q) && Distinct(Names(rs)) && Has(rs, name) && Get(rs, name).meshRank < 0
    ensures Fitted(cfg, Without(rs, name), q)
  {
    hide ByStart, Get;
    forall i | 0 <= i < |rs| && rs[i].name == name ensures rs[i].meshRank < 0 { GetAt(rs, i); }
    InMeshWithout(rs, name);
    WithoutMembers(rs, name);
    var w := Without(rs, name);
    forall i | 0 <= i < |w| ensures w[i] in rs { assert w[i] in w; }
  }

  // ---- every run -----------------------------------------------------------

  lemma StepTended(s: State, e: Event)
    requires MeshSound(s) && Sound(s) && InStep(s) && Orderly(s, e) && !e.PolicyUp? && !e.PolicyDown?
    ensures Tended(s, Apply(s, e))
  {
    hide MeshSound, Sound, InStep, Orderly, Tended, Fetch, PostRollouts, RolloutEnd, TrainAck, RegisterRollout,
         UnregisterRollout, MonitorTick;
    match e
    case Posting(p) => PostTended(s, p);
    case Ending(name, rank, stays) => EndTended(s, name, rank, stays);
    case Acking(name, step, total) => AckTended(s, name, step, total);
    case _ => OthersTended(s, e);
  }

  lemma StepMesh(s: State, e: Event)
    requires MeshSound(s) && Sound(s) && InStep(s) && Orderly(s, e)
    ensures MeshSound(Apply(s, e))
  {
    hide MeshSound, Sound, InStep, Orderly, Tended, Fetch, PostRollouts, RolloutEnd, TrainAck, RegisterPolicy,
         UnregisterPolicy, RegisterRollout, UnregisterRollout, MonitorTick;
    if e.PolicyUp? { PolicyUpMesh(s, e.name, e.now); }
    else if e.PolicyDown? { PolicyDownMesh(s, e.name); }
    else { StepTended(s, e); TendedSound(s, Apply(s, e)); }
  }

  lemma {:induction false} RunMesh(s: State, es: seq<Event>)
    requires MeshSound(s) && Sound(s) && InStep(s) && OrderlyRun(s, es)
    ensures MeshSound(Run(s, es))
    decreases es
  {
    hide Apply, Sound, InStep, Orderly, MeshSound;
    if es != [] {
      StepKept(s, es[0]);
      StepInStep(s, es[0]);
      StepMesh(s, es[0]);
      RunMesh(Apply(s, es[0]), es[1..]);
    }
  }

  lemma {:induction false} ReachableMesh(cfg: Config, np: nat, nr: nat, step: int, remain: int, es: seq<Event>)
    requires OrderlyRun(Init(cfg, np, nr, step, remain), es)
    ensures var s := Run(Init(cfg, np, nr, step, remain), es); MeshSound(s) && Sound(s) && InStep(s)
  {
    hide Run, OrderlyRun;
    var s0 := Init(cfg, np, nr, step, remain);
    assert Names(s0.crew.replicas) == [];
    RunInStep(s0, es);
    RunMesh(s0, es);
  }

  // ---- residues on every run -----------------------------------------------

  predicate Assorted(s: State) { Residues(s.queues.perRank) }

  lemma EmptiedResidues(cfg: Config, q: Queues)
    requires Residues(q.perRank)
    ensures Residues(Emptied(cfg, q).perRank)
  {
  }

  lemma DispatchAssorted(s: State)
    requires Assorted(s) && CanDispatch(s)
    ensures Assorted(Dispatch(s))
  {
    hide Residues, Idle, Finished, Feed, SetAll, Names, Broadcast, Enough, RanksCovered, Taken;
    TakenResidues(s.cfg, s.queues, |s.crew.replicas|);
  }

  lemma DrainAssorted(s: State)
    requires Assorted(s)
    ensures Assorted(FinishDraining(s))
  {
    hide Residues, CanDispatch, Dispatch, Idle, AllEnded, Settle, Pending, Emptied, SetAll, Names, RealTerminalAcked;
    var e := EnterDraining(s);
    EmptiedResidues(e.cfg, e.queues);
    if CanDispatch(e) { DispatchAssorted(e); }
  }

  lemma AckAssorted(s: State, name: Name, step: int, total: int)
    requires Assorted(s)
    ensures Assorted(TrainAck(s, name, step, total).state)
  {
    hide Residues, SettleStep, TakeRecord, Overdrawn, Resume, FinishDraining, CanDispatch, Dispatch, AllIn, Has, Emptied,
         Serviced;
    var t := s.(crew := SetStatus(s.crew, name, Reduced), log := s.log + [Acked(name, step, total)]);
    TakeRecordFrame(t, step);
    var a := SettleStep(t, step, total);
    SettleStepFrame(t, step, total);
    EmptiedResidues(t.cfg, t.queues);
    var c := Resume(a, step);
    ResumeFrame(a, step);
    DrainAssorted(c);
    if CanDispatch(c) { DispatchAssorted(c); }
  }

  lemma {:induction false} PutAllAssorted(s: State, rs: seq<Rollout>)
    requires Assorted(s)
    ensures Assorted(PutAll(s, rs))
    decreases rs
  {
    hide Residues, CanDispatch, Dispatch, Enqueued;
    if rs != [] && CanPut(s) {
      var e := s.(queues := Enqueued(s.cfg, s.queues, rs[0]));
      EnqueuedResidues(s.cfg, s.queues, rs[0]);
      if CanDispatch(e) { DispatchAssorted(e); }
      PutAllAssorted(Put(s, rs[0]), rs[1..]);
    }
  }

  lemma PostAssorted(s: State, p: Post)
    requires Assorted(s)
    ensures Assorted(PostRollouts(s, p).state)
  {
    hide Residues, SettleDiscard, Settle, ReadCount, Accepted, MaxVersion, PutAll;
    var a := Adopt(Intake(s, p), p.rollouts);
    var good := Accepted(a, p.rollouts, 0);
    PutAllAssorted(Drop(a, |p.rollouts| - |good|), good);
  }

  lemma EndAssorted(s: State, name: Name, rank: Option<int>, stays: bool)
    requires Assorted(s)
    ensures Assorted(RolloutEnd(s, name, rank, stays))
  {
    hide Residues, EndReport, EndsReplica, FinishDraining;
    DrainAssorted(s.(gens := EndReport(s.gens, name, rank, stays)));
  }

  lemma RebuildAssorted(s: State)
    requires Assorted(s)
    ensures Assorted(RebuildPolicyMesh(s))
  {
    hide Residues, ByStart, Rank, Broadcast, Rearranged, RecomputeTotal;
    RearrangedResidues(s.cfg, s.queues, |s.crew.replicas|);
  }

  lemma PolicyUpAssorted(s: State, name: Name, now: int)
    requires Assorted(s)
    ensures Assorted(RegisterPolicy(s, name, now).state)
  {
    hide Residues, FirstWeights, RebuildPolicyMesh, FirstLoaded, ByStart, Load, SetAll, Names, Has;
    var a := AddPolicy(s, name, now);
    var b := if |a.crew.replicas| == 1 then FirstPolicy(a, name) else a;
    RebuildAssorted(b);
    RebuildAssorted(b.(crew := b.crew.(initDone := true)));
  }

  lemma PolicyDownAssorted(s: State, name: Name)
    requires Assorted(s)
    ensures Assorted(UnregisterPolicy(s, name).state)
  {
    hide Residues, RebuildPolicyMesh, Without, Get, Finished;
    RebuildAssorted(s.(crew := s.crew.(replicas := Without(s.crew.replicas, name),
                                       status := s.crew.status - {name}, left := s.crew.left + 1)));
  }

  lemma {:induction false} RunAssorted(s: State, es: seq<Event>)
    requires Assorted(s)
    ensures Assorted(Run(s, es))
    decreases es
  {
    hide Assorted, Fetch, PostRollouts, RolloutEnd, TrainAck, RegisterPolicy, UnregisterPolicy, RegisterRollout,
         UnregisterRollout, MonitorTick;
    if es != [] {
      match es[0] {
        case Posting(p) => PostAssorted(s, p);
        case Ending(name, rank, stays) => EndAssorted(s, name, rank, stays);
        case Acking(name, step, total) => AckAssorted(s, name, step, total);
        case PolicyUp(name, now) => PolicyUpAssorted(s, name, now);
        case PolicyDown(name) => PolicyDownAssorted(s, name);
        case _ => OthersLeaveMeshAlone(s, es[0]); SameAssorted(s, Apply(s, es[0]));
      }
      RunAssorted(Apply(s, es[0]), es[1..]);
    }
  }

  lemma SameAssorted(s: State, t: State)
    requires Assorted(s) && t.queues == s.queues
    ensures Assorted(t)
  {
  }

  /** On every run every rollout waits in the queue of its residue. */
  lemma {:induction false} QueuesByResidue(cfg: Config, np: nat, nr: nat, step: int, remain: int, es: seq<Event>, r: nat, x: Rollout)
    requires var qs := Run(Init(cfg, np, nr, step, remain), es).queues.perRank; r < |qs| && x in qs[r]
    ensures x.promptIdx % |Run(Init(cfg, np, nr, step, remain), es).queues.perRank| == r
  {
    hide Run;
    RunAssorted(Init(cfg, np, nr, step, remain), es);
    var qs := Run(Init(cfg, np, nr, step, remain), es).queues.perRank;
    assert OfClass(qs[r], |qs|, r);
  }

  /** While training goes on and all policy replicas are initialised, their mesh ranks are a
      bijection onto 0..n-1, given out by age (the earlier start, then the earlier registration),
      and with dispatch by rank there are n queues. */
  lemma {:induction false} RanksAreABijection(cfg: Config, np: nat, nr: nat, step: int, remain: int, es: seq<Event>)
    requires OrderlyRun(Init(cfg, np, nr, step, remain), es)
    requires var s := Run(Init(cfg, np, nr, step, remain), es);
             Stepping(s) && forall n :: n in s.crew.status ==> s.crew.status[n] != Uninitialized
    ensures var s := Run(Init(cfg, np, nr, step, remain), es);
            var rs := s.crew.replicas;
            && (forall i :: 0 <= i < |rs| ==> 0 <= rs[i].meshRank < |rs|)
            && (forall i, j :: 0 <= i < j < |rs| ==> rs[i].meshRank != rs[j].meshRank)
            && (forall r :: 0 <= r < |rs| ==> HasRank(rs, r))
            && (forall i, j :: 0 <= i < |rs| && 0 <= j < |rs| ==>
                  (rs[i].meshRank < rs[j].meshRank <==>
                   rs[i].startTime < rs[j].startTime || (rs[i].startTime == rs[j].startTime && i < j)))
            && (cfg.rankInMesh && rs != [] ==> |s.queues.perRank| == |rs|)
  {
    hide Run, OrderlyRun, Get, ByStart, AllBusy, Distinct, Stepping;
    ReachableMesh(cfg, np, nr, step, remain, es);
    ConfigKept(Init(cfg, np, nr, step, remain), es);
    var s := Run(Init(cfg, np, nr, step, remain), es);
    var rs := s.crew.replicas;
    AllActive(s.crew);
    WholeMesh(rs);
    forall r | 0 <= r < |rs| ensures HasRank(rs, r) { RankTaken(rs, r); }
    DistinctRanks(rs);
    RanksByAge(rs);
  }

  predicate HasRank(rs: seq<Replica>, r: int) { exists i :: 0 <= i < |rs| && rs[i].meshRank == r }

  lemma {:induction false} RankTaken(rs: seq<Replica>, r: nat)
    requires Distinct(Names(rs)) && Numbered(rs) && InMesh(rs) == rs && r < |rs|
    requires forall i :: 0 <= i < |rs| ==> rs[i].meshRank >= 0
    ensures HasRank(rs, r)
  {
    hide ByStart, Get, Numbered, Distinct, InMesh;
    RankOfPosition(rs, r);
    var x := Get(rs, ByStart(rs)[r]);
    var i :| 0 <= i < |rs| && rs[i] == x;
  }

  lemma {:induction false} RanksByAge(rs: seq<Replica>)
    requires Distinct(Names(rs)) && Numbered(rs) && InMesh(rs) == rs
    requires forall i :: 0 <= i < |rs| ==> rs[i].meshRank >= 0
    ensures forall i, j :: 0 <= i < |rs| && 0 <= j < |rs| ==>
              (rs[i].meshRank < rs[j].meshRank <==>
               rs[i].startTime < rs[j].startTime || (rs[i].startTime == rs[j].startTime && i < j))
  {
    hide ByStart, IndexOf, InMesh, Distinct, Names;
    Ages.IndexIsByAge(rs, Ages.Ranks(rs));
    forall i: nat, j: nat | i < |rs| && j < |rs|
      ensures rs[i].meshRank < rs[j].meshRank <==>
              rs[i].startTime < rs[j].startTime || (rs[i].startTime == rs[j].startTime && i < j)
    {
      assert i != j ==> (rs[i].meshRank < rs[j].meshRank <==> Ages.Older(rs, i, j));
    }
  }

  lemma AllActive(crew: Crew)
    requires Roster(crew) && ActiveInMesh(crew) && forall n :: n in crew.status ==> crew.status[n] != Uninitialized
    ensures forall i :: 0 <= i < |crew.replicas| ==> crew.replicas[i].meshRank >= 0
  {
    hide Distinct;
    forall i | 0 <= i < |crew.replicas| ensures crew.replicas[i].meshRank >= 0 {
      assert Names(crew.replicas)[i] in NameSet(crew.replicas);
    }
  }

  lemma {:induction false} DistinctRanks(rs: seq<Replica>)
    requires Distinct(Names(rs)) && Numbered(rs) && InMesh(rs) == rs
    requires forall i :: 0 <= i < |rs| ==> rs[i].meshRank >= 0
    ensures forall i :: 0 <= i < |rs| ==> rs[i].meshRank < |rs|
    ensures forall i, j :: 0 <= i < j < |rs| ==> rs[i].meshRank != rs[j].meshRank
  {
    hide ByStart, InMesh, IndexOf, Distinct;
    var order := ByStart(rs);
    assert forall i :: 0 <= i < |rs| ==> rs[i].meshRank < |order| && order[rs[i].meshRank] == rs[i].name;
    forall i, j | 0 <= i < j < |rs| ensures rs[i].meshRank != rs[j].meshRank { NamesDiffer(rs, i, j); }
  }

  /** Whatever an event hands out by rank goes to the replica whose mesh rank is the
      rollout's prompt index modulo the number of replicas. */
  lemma {:induction false} RolloutsReachTheirRank(cfg: Config, np: nat, nr: nat, step: int, remain: int, es: seq<Event>, e: Event, k: nat)
    requires cfg.rankInMesh && OrderlyRun(Init(cfg, np, nr, step, remain), es)
    requires var s := Run(Init(cfg, np, nr, step, remain), es);
             Orderly(s, e) && |s.log| <= k < |Apply(s, e).log| && Apply(s, e).log[k].Fed?
    ensures var s := Run(Init(cfg, np, nr, step, remain), es);
            var t := Apply(s, e);
            && Has(t.crew.replicas, t.log[k].to)
            && t.log[k].rollout.promptIdx % |t.crew.replicas| == Get(t.crew.replicas, t.log[k].to).meshRank
  {
    hide Run, OrderlyRun, Get, Orderly, Apply, InStep, Sound, MeshSound, Has;
    ReachableMesh(cfg, np, nr, step, remain, es);
    ConfigKept(Init(cfg, np, nr, step, remain), es);
    var s := Run(Init(cfg, np, nr, step, remain), es);
    if e.PolicyUp? || e.PolicyDown? { RegistrationFeedsNobody(s, e); } else { StepTended(s, e); }
  }

  lemma RegistrationFeedsNobody(s: State, e: Event)
    requires e.PolicyUp? || e.PolicyDown?
    ensures Unfed(s.log, Apply(s, e).log)
  {
    hide RegisterPolicy, RebuildPolicyMesh, Without, Get, Has, Serviced;
    if e.PolicyUp? { JoinFeedsNobody(s, e.name, e.now); }
    else {
      RebuildFrame(s.(crew := s.crew.(replicas := Without(s.crew.replicas, e.name),
                                      status := s.crew.status - {e.name}, left := s.crew.left + 1)));
    }
  }

  lemma JoinFeedsNobody(s: State, name: Name, now: int)
    ensures Unfed(s.log, RegisterPolicy(s, name, now).state.log)
  {
    hide FirstPolicy, PolicyHook, Has, Unfed, Serviced, Meshed;
    var a := AddPolicy(s, name, now);
    FirstPolicyFrame(a, name);
    var b := if |a.crew.replicas| == 1 then FirstPolicy(a, name) else a;
    PolicyHookFrame(b, name);
    assert Unfed(s.log, s.log) && Unfed(s.log, a.log) by { JoinedUnfed(s.log, name); }
    ServicedUnfed(a.log, FirstPolicy(a, name).log);
    UnfedTransitive(s.log, a.log, FirstPolicy(a, name).log);
    ServicedUnfed(b.log, PolicyHook(b, name).state.log);
    UnfedTransitive(s.log, b.log, PolicyHook(b, name).state.log);
  }

  lemma JoinedUnfed(log: seq<Entry>, name: Name)
    ensures Unfed(log, log) && Unfed(log, log + [PolicyJoined(name)])
  {
  }

  lemma ServicedUnfed(a: seq<Entry>, b: seq<Entry>)
    requires Serviced(a, b)
    ensures Unfed(a, b)
  {
  }

  lemma UnfedTransitive(a: seq<Entry>, b: seq<Entry>, c: seq<Entry>)
    requires Unfed(a, b) && Unfed(b, c)
    ensures Unfed(a, c)
  {
    assert c[..|a|] == c[..|b|][..|a|];
    forall k | |a| <= k < |c| ensures !c[k].Fed? {
      if k < |b| { assert c[k] == c[..|b|][k]; }
    }
  }
}
