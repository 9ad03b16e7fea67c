/** Joining and leaving: what a registration or a departure does to meshes, weights and
    statuses, in terms of ages and counts. */
module Membership {
  import opened Types
  import opened Fleet
  import opened Protocol
  import opened Logs
  import opened Runs
  import opened Ages
  import opened Decisions
  import FullSync
  import WeightRounds
  import Loops

  // ---- a policy replica joins ----------------------------------------------

  /** The weight source: the oldest of the replicas that hold weights. */
  ghost predicate OldestLoaded(rs: seq<Replica>, src: Name) {
    exists i :: 0 <= i < |rs| && rs[i].name == src && rs[i].loaded
                && forall j :: 0 <= j < |rs| && j != i && rs[j].loaded ==> Older(rs, i, j)
  }

  lemma {:induction false} SourceIsOldestLoaded(rs: seq<Replica>)
    requires Distinct(Names(rs)) && FirstLoaded(rs, ByStart(rs)).Some?
    ensures OldestLoaded(rs, FirstLoaded(rs, ByStart(rs)).value)
  {
    hide ByStart, Get, Distinct, Names, Older;
    var src := FirstLoaded(rs, ByStart(rs)).value;
    var x := Get(rs, src);
    var i :| 0 <= i < |rs| && rs[i] == x;
    forall j | 0 <= j < |rs| && j != i && rs[j].loaded ensures Older(rs, i, j) {
      SourceIsOldest(rs, j);
      NamesApart(rs, i, j);
      var h :| 0 <= h < |rs| && rs[h].name == src && rs[h].loaded && Older(rs, h, j);
      if h != i { NamesApart(rs, h, i); }
    }
  }

  /** Everyone is in the mesh, numbered from the oldest. */
  ghost predicate WholeMeshByAge(rs: seq<Replica>) { RankedByAge(rs, Ranks(rs)) }

  lemma {:induction false} SameAges(rs: seq<Replica>, qs: seq<Replica>)
    requires RankedByAge(rs, Ranks(qs)) && |qs| == |rs|
    requires forall i :: 0 <= i < |rs| ==> qs[i].startTime == rs[i].startTime
    ensures WholeMeshByAge(qs)
  {
    forall i, j | 0 <= i < |qs| && 0 <= j < |qs| && i != j ensures Ranks(qs)[i] < Ranks(qs)[j] <==> Older(qs, i, j) {
      assert Older(rs, i, j) == Older(qs, i, j);
    }
  }

  lemma {:induction false} RebuiltMesh(s: State)
    requires Distinct(Names(s.crew.replicas))
    ensures WholeMeshByAge(RebuildPolicyMesh(s).crew.replicas)
    ensures Names(RebuildPolicyMesh(s).crew.replicas) == Names(s.crew.replicas)
    ensures Renumbered(s.crew.replicas, RebuildPolicyMesh(s).crew.replicas)
  {
    hide RebuildPolicyMesh, RankedByAge, Names, Distinct, MeshTold;
    PolicyMeshIsByAge(s);
    SameAges(s.crew.replicas, RebuildPolicyMesh(s).crew.replicas);
    RenumberedNames(s.crew.replicas, RebuildPolicyMesh(s).crew.replicas);
  }

  lemma {:induction false} RebuiltTold(s: State)
    requires Distinct(Names(s.crew.replicas))
    ensures MeshTold(s.log, RebuildPolicyMesh(s).log, RebuildPolicyMesh(s).crew.replicas, Ranks(RebuildPolicyMesh(s).crew.replicas))
  {
    hide RebuildPolicyMesh, RankedByAge, Names, Distinct, MeshTold;
    PolicyMeshIsByAge(s);
    ToldSame(s.log, RebuildPolicyMesh(s).log, s.crew.replicas, RebuildPolicyMesh(s).crew.replicas, Ranks(RebuildPolicyMesh(s).crew.replicas));
  }

  lemma {:induction false} ToldSame(a: seq<Entry>, b: seq<Entry>, rs: seq<Replica>, qs: seq<Replica>, rank: seq<int>)
    requires |rank| == |rs| && MeshTold(a, b, rs, rank) && Renumbered(rs, qs)
    ensures MeshTold(a, b, qs, rank)
  {
    var order :|
      && |order| == |rs| && (forall i :: 0 <= i < |rs| ==> 0 <= rank[i] < |rs| && order[rank[i]] == rs[i].name)
      && |b| == |a| + |rs| && b[..|a|] == a
      && forall k :: 0 <= k < |rs| ==> b[|a| + k] == Sent(order[k], BuildMesh(order));
    assert forall i :: 0 <= i < |qs| ==> order[rank[i]] == qs[i].name;
  }

  lemma RenumberedNames(rs: seq<Replica>, qs: seq<Replica>)
    requires Renumbered(rs, qs)
    ensures Names(qs) == Names(rs)
  {
  }

  lemma {:induction false} LoadedMesh(rs: seq<Replica>, ns: seq<Name>)
    requires WholeMeshByAge(rs)
    ensures WholeMeshByAge(Load(rs, ns))
  {
    hide RankedByAge;
    assert Ranks(Load(rs, ns)) == Ranks(rs);
    SameAges(rs, Load(rs, ns));
  }

  /** A replica joins a running job: it is in the mesh, gets weights from the oldest replica that
      holds them, and is ready; the others keep working. */
  lemma {:induction false} JoinsRunning(s: State, name: Name)
    requires Distinct(Names(s.crew.replicas)) && Has(s.crew.replicas, name) && !JoinPolicyMesh(s, name).raised
    ensures var t := JoinPolicyMesh(s, name).state;
            && WholeMeshByAge(t.crew.replicas) && t.crew.status == s.crew.status[name := Ready]
            && (exists src :: OldestLoaded(s.crew.replicas, src) && Sent(name, PolicyToPolicy(src, [name])) in t.log)
            && (forall i :: 0 <= i < |t.crew.replicas| && t.crew.replicas[i].name == name ==> t.crew.replicas[i].loaded)
            && t.crew.initDone == s.crew.initDone
  {
    hide RebuildPolicyMesh, ByStart, FirstLoaded, Distinct, Names, WholeMeshByAge, OldestLoaded, Renumbered;
    var src := FirstLoaded(s.crew.replicas, ByStart(s.crew.replicas));
    SourceIsOldestLoaded(s.crew.replicas);
    RebuiltMesh(s);
    RebuildFrame(s);
    LoadedMesh(RebuildPolicyMesh(s).crew.replicas, [name]);
    var cmd := PolicyToPolicy(src.value, [name]);
    var t := JoinPolicyMesh(s, name).state;
    assert t.log[|t.log| - 1] == Sent(name, cmd);
  }

  /** Everyone is ready. */
  predicate AllReady(rs: seq<Replica>, status: map<Name, PolicyStatus>) {
    forall i :: 0 <= i < |rs| ==> rs[i].name in status && status[rs[i].name] == Ready
  }

  /** The crew is complete: everyone is in the mesh and ready and, if there are several, gets
      weights from the oldest replica that holds them. */
  lemma {:induction false} Initialises(s: State)
    requires Distinct(Names(s.crew.replicas)) && !InitPolicyMesh(s).raised
    ensures var t := InitPolicyMesh(s).state;
            && WholeMeshByAge(t.crew.replicas) && t.crew.initDone
            && AllReady(t.crew.replicas, t.crew.status)
            && (|s.crew.replicas| > 1 ==>
                  && FullSync.AllHold(t.crew.replicas)
                  && exists src :: OldestLoaded(s.crew.replicas, src) && WeightsSpread(s.crew.replicas, src, t.log))
  {
    hide RebuildPolicyMesh, ByStart, FirstLoaded, Distinct, WholeMeshByAge, OldestLoaded, Broadcast, Load, SetAll, Names,
         WeightsSpread, Renumbered, FullSync.AllHold, Has, Get, Meshed, Serviced;
    var i := s.(crew := s.crew.(initDone := true));
    var m := RebuildPolicyMesh(i);
    RebuiltMesh(i);
    RebuildFrame(i);
    var all := Names(m.crew.replicas);
    LoadedMesh(m.crew.replicas, all);
    NamesLoaded(m.crew.replicas, all);
    var t := InitPolicyMesh(s).state;
    assert Names(t.crew.replicas) == all;
    forall k | 0 <= k < |t.crew.replicas| ensures t.crew.replicas[k].name in all { NamedIn(t.crew.replicas, k); }
    if |s.crew.replicas| > 1 {
      var src := FirstLoaded(m.crew.replicas, ByStart(m.crew.replicas));
      SourceIsOldestLoaded(m.crew.replicas);
      OldestLoadedSame(s.crew.replicas, m.crew.replicas, src.value);
      FullSync.LoadAll(m.crew.replicas);
      SpreadToAll(m.log, s.crew.replicas, all, src.value);
    }
  }

  lemma NamedIn(rs: seq<Replica>, k: nat)
    requires k < |rs|
    ensures rs[k].name in Names(rs)
  {
    assert Names(rs)[k] == rs[k].name;
  }

  /** Every replica is told to take the weights of `src`. */
  ghost predicate WeightsSpread(rs: seq<Replica>, src: Name, log: seq<Entry>) {
    forall i :: 0 <= i < |rs| ==> Sent(rs[i].name, PolicyToPolicy(src, Names(rs))) in log
  }

  lemma SpreadToAll(log: seq<Entry>, rs: seq<Replica>, all: seq<Name>, src: Name)
    requires all == Names(rs)
    ensures WeightsSpread(rs, src, log + Broadcast(all, PolicyToPolicy(src, all)))
  {
    var cmd := PolicyToPolicy(src, all);
    forall i | 0 <= i < |rs| ensures Sent(rs[i].name, cmd) in log + Broadcast(all, cmd) {
      assert (log + Broadcast(all, cmd))[|log| + i] == Sent(rs[i].name, cmd);
    }
  }

  lemma {:induction false} OldestLoadedSame(rs: seq<Replica>, qs: seq<Replica>, src: Name)
    requires Renumbered(rs, qs) && OldestLoaded(qs, src)
    ensures OldestLoaded(rs, src)
  {
    var i :| 0 <= i < |qs| && qs[i].name == src && qs[i].loaded
             && forall j :: 0 <= j < |qs| && j != i && qs[j].loaded ==> Older(qs, i, j);
    forall j | 0 <= j < |rs| && j != i && rs[j].loaded ensures Older(rs, i, j) { assert Older(qs, i, j); }
  }

  /** The hook of a registration that succeeds, the new replica being the last. */
  lemma {:induction false} HookJoins(s: State, name: Name)
    requires Distinct(Names(s.crew.replicas)) && s.crew.replicas != [] && s.crew.replicas[|s.crew.replicas| - 1].name == name
    requires !PolicyHook(s, name).raised && (|s.crew.replicas| == 1 ==> s.crew.replicas[0].loaded)
    ensures var t := PolicyHook(s, name).state.crew;
            && Names(t.replicas) == Names(s.crew.replicas)
            && (t.initDone <==> s.crew.initDone || |s.crew.replicas| >= s.crew.nInit)
            && (t.initDone ==> WholeMeshByAge(t.replicas) && t.replicas[|s.crew.replicas| - 1].loaded)
            && (s.crew.initDone ==> t.status == s.crew.status[name := Ready])
            && (!s.crew.initDone && t.initDone ==> AllReady(t.replicas, t.status))
            && (!t.initDone ==> t == s.crew)
            && (s.crew.replicas[0].loaded ==> t.replicas[0].loaded)
  {
    hide Distinct, Names, JoinPolicyMesh, InitPolicyMesh, WholeMeshByAge, OldestLoaded, WeightsSpread;
    HasLast(s.crew.replicas, name);
    var t := PolicyHook(s, name).state.crew;
    PolicyHookFrame(s, name);
    if s.crew.initDone {
      JoinsRunning(s, name);
      JoinKeepsNames(s, name);
      assert t.replicas[|s.crew.replicas| - 1].name == name by { SameName(s.crew.replicas, t.replicas, |s.crew.replicas| - 1); }
    } else if |s.crew.replicas| >= s.crew.nInit {
      Initialises(s);
      InitKeepsNames(s);
    }
  }

  lemma SameName(rs: seq<Replica>, qs: seq<Replica>, k: nat)
    requires Names(rs) == Names(qs) && k < |rs|
    ensures k < |qs| && rs[k].name == qs[k].name
  {
    assert |Names(rs)| == |Names(qs)|;
    assert Names(rs)[k] == Names(qs)[k];
  }

  /** The first policy replica ever: it resumes the weights and, if rollouts wait, the oldest of
      them gets a full transfer, relayed to all once the initial ones are there. */
  lemma {:induction false} FirstWeightsAre(s: State, name: Name) returns (j: nat)
    requires Distinct(Names(s.gens.replicas)) && s.gens.replicas != []
    ensures WeightRounds.Oldest(s.gens.replicas, j)
    ensures var rs := s.gens.replicas;
            var up := PolicyToRollout(name, rs[j].name, None, rs[j].loaded);
            var log := s.log + [Sent(name, WeightResume), Sent(name, up), Sent(rs[j].name, up)];
            var t := FirstPolicy(s, name);
            if |rs| >= s.gens.nInit && rs[j].meshRank >= 0 then
              && |log| <= |t.log| && t.log[..|log|] == log
              && (forall k :: |log| <= k < |t.log| ==> t.log[k].Sent? && WeightRounds.RelayCommand(t.log[k].cmd, rs, j, s.at.step)
                                                       && WeightRounds.InTheMesh(rs, t.log[k].to))
              && (forall k :: 0 <= k < |rs| && rs[k].meshRank >= 0 ==> t.gens.replicas[k].loaded)
            else t.log == log && t.gens.replicas == Load(rs, [rs[j].name])
  {
    hide ByStart, Get, Distinct, Names, Reachable, AllLoaded, WeightRounds.RelayCommand, WeightRounds.InTheMesh, Older;
    j := FirstIsOldest(s.gens.replicas);
    var rs, order := s.gens.replicas, ByStart(s.gens.replicas);
    var log := s.log + [Sent(name, WeightResume)];
    assert order[0] in order;
    GetAt(rs, j);
    var y := Sync(rs, log);
    var up := Unicast(y, name, order[0], None);
    WeightRounds.SameRankLoaded(rs, [rs[j].name], rs[j].name);
    var told := Reachable(up.rollouts, order);
    forall n ensures n in told <==> WeightRounds.InTheMesh(rs, n) { WeightRounds.ToldInMesh(rs, j, n); }
    WeightRounds.RelayOfIs(rs, j, s.at.step);
    forall k | 0 <= k < |rs| && rs[k].meshRank >= 0 ensures rs[k].name in told { WeightRounds.MemberInMesh(rs, k); }
  }

  /** A registration that succeeds.  The first replica ever resumes the weights.  The crew is
      initialised with the registration that completes it, all of it becoming ready; later ones
      join; earlier ones wait. */
  lemma {:induction false} PolicyJoins(s: State, name: Name, now: int)
    requires Distinct(Names(s.crew.replicas)) && !RegisterPolicy(s, name, now).raised
    ensures var t := RegisterPolicy(s, name, now).state;
            && Names(t.crew.replicas) == Names(s.crew.replicas) + [name] && t.crew.seen
            && (t.crew.initDone <==> s.crew.initDone || |s.crew.replicas| + 1 >= s.crew.nInit)
            && (t.crew.initDone ==> WholeMeshByAge(t.crew.replicas) && t.crew.replicas[|s.crew.replicas|].loaded)
            && (s.crew.initDone ==> t.crew.status == s.crew.status[name := Ready])
            && (!s.crew.initDone && t.crew.initDone ==> AllReady(t.crew.replicas, t.crew.status))
            && (!t.crew.initDone ==> t.crew.status == s.crew.status[name := Uninitialized])
            && (s.crew.replicas == [] ==> t.crew.replicas[0].loaded && Sent(name, WeightResume) in t.log)
  {
    hide Distinct, Names, FirstPolicy, PolicyHook, WholeMeshByAge, Has, Meshed, Serviced, AllReady;
    var a := AddPolicy(s, name, now);
    FullSync.NewName(s.crew.replicas, name, a.crew.replicas);
    NamesAdded(s.crew.replicas, a.crew.replicas, name);
    var b := if |a.crew.replicas| == 1 then FirstPolicy(a, name) else a;
    FirstPolicyFrame(a, name);
    NamesLoaded(a.crew.replicas, [name]);
    if s.crew.replicas == [] {
      Resumed(a, name);
      PolicyHookFrame(b, name);
      StillTold(b.log, PolicyHook(b, name).state.log, Sent(name, WeightResume));
    }
    HookJoins(b, name);
    assert s.crew.status[name := Uninitialized][name := Ready] == s.crew.status[name := Ready];
  }

  lemma StillTold(a: seq<Entry>, b: seq<Entry>, e: Entry)
    requires Serviced(a, b) && e in a
    ensures e in b
  {
    var k :| 0 <= k < |a| && a[k] == e;
    assert b[..|a|][k] == b[k];
  }

  lemma NamesAdded(rs: seq<Replica>, more: seq<Replica>, name: Name)
    requires |more| == |rs| + 1 && more[..|rs|] == rs && more[|rs|].name == name
    ensures Names(more) == Names(rs) + [name]
  {
  }

  lemma HasLast(rs: seq<Replica>, name: Name)
    requires rs != [] && rs[|rs| - 1].name == name
    ensures Has(rs, name)
  {
  }

  lemma Resumed(s: State, name: Name)
    requires |s.crew.replicas| == 1 && s.crew.replicas[0].name == name
    ensures var t := FirstPolicy(s, name); t.crew.replicas[0].loaded && Sent(name, WeightResume) in t.log
  {
    hide FirstWeights;
    FirstPolicyFrame(s, name);
    ResumedLog(s, name);
  }

  lemma ResumedLog(s: State, name: Name)
    ensures Sent(name, WeightResume) in FirstPolicy(s, name).log
  {
    hide ByStart, Relay, Load;
    var l := s.log + [Sent(name, WeightResume)];
    assert l[|s.log|] == Sent(name, WeightResume);
    var order := ByStart(s.gens.replicas);
    if order != [] {
      assert order[0] in order;
      var up := Unicast(Sync(s.gens.replicas, l), name, order[0], None);
      RelayServiced(up, order[0], order, Some(s.at.step));
      assert up.log[|s.log|] == l[|s.log|];
      var r := Relay(up, order[0], order, Some(s.at.step)).log;
      assert r[..|up.log|][|s.log|] == r[|s.log|];
    }
  }

  lemma {:induction false} JoinKeepsNames(s: State, name: Name)
    ensures Names(JoinPolicyMesh(s, name).state.crew.replicas) == Names(s.crew.replicas)
    ensures forall i :: 0 <= i < |s.crew.replicas| && s.crew.replicas[i].loaded && i < |JoinPolicyMesh(s, name).state.crew.replicas| ==>
              JoinPolicyMesh(s, name).state.crew.replicas[i].loaded
  {
    hide ByStart, FirstLoaded, Rearranged, RecomputeTotal, Broadcast;
    NamesRanked(s.crew.replicas, ByStart(s.crew.replicas));
    NamesLoaded(RebuildPolicyMesh(s).crew.replicas, [name]);
  }

  lemma {:induction false} InitKeepsNames(s: State)
    ensures Names(InitPolicyMesh(s).state.crew.replicas) == Names(s.crew.replicas)
    ensures forall i :: 0 <= i < |s.crew.replicas| && s.crew.replicas[i].loaded && i < |InitPolicyMesh(s).state.crew.replicas| ==>
              InitPolicyMesh(s).state.crew.replicas[i].loaded
  {
    hide ByStart, FirstLoaded, Rearranged, RecomputeTotal, Broadcast, SetAll;
    NamesRanked(s.crew.replicas, ByStart(s.crew.replicas));
    var m := RebuildPolicyMesh(s.(crew := s.crew.(initDone := true)));
    NamesLoaded(m.crew.replicas, Names(m.crew.replicas));
  }

  // ---- a policy replica leaves ---------------------------------------------

  /** A departure rebuilds the mesh exactly when training goes on, the replica has not acknowledged
      the completion, it was in the mesh and others remain; otherwise it only takes the replica out. */
  lemma {:induction false} PolicyLeaves(s: State, name: Name)
    requires Distinct(Names(s.crew.replicas)) && Has(s.crew.replicas, name)
    ensures var t := UnregisterPolicy(s, name).state;
            && !UnregisterPolicy(s, name).raised && t.crew.status == s.crew.status - {name}
            && t.crew.left == s.crew.left + 1 && !Has(t.crew.replicas, name)
            && (forall n :: n != name ==> (Has(t.crew.replicas, n) <==> Has(s.crew.replicas, n)))
            && if !AtEnd(s) && name !in s.closing.acks && RankOf(s.crew.replicas, name) >= 0 && t.crew.replicas != [] then
                 WholeMeshByAge(t.crew.replicas) && MeshTold(s.log, t.log, t.crew.replicas, Ranks(t.crew.replicas))
               else t.log == s.log && t.queues == s.queues && t.at == s.at
                    && forall r :: r in t.crew.replicas ==> r in s.crew.replicas
  {
    hide RebuildPolicyMesh, Without, Get, Distinct, Names, WholeMeshByAge, Finished, MeshTold;
    var r := s.(crew := s.crew.(replicas := Without(s.crew.replicas, name),
                                status := s.crew.status - {name}, left := s.crew.left + 1));
    WithoutDistinct(s.crew.replicas, name);
    WithoutMembers(s.crew.replicas, name);
    WithoutHas(s.crew.replicas, name);
    RebuiltMesh(r);
    RebuiltTold(r);
    RebuildFrame(r);
    SameHas(r.crew.replicas, RebuildPolicyMesh(r).crew.replicas);
    assert Finished(s.closing, s.at) <==> AtEnd(s) by { AtEndIff(s); }
  }

  lemma AtEndIff(s: State)
    ensures Finished(s.closing, s.at) <==> AtEnd(s)
  {
  }

  lemma {:induction false} WithoutHas(rs: seq<Replica>, name: Name)
    ensures !Has(Without(rs, name), name)
    ensures forall n :: n != name ==> (Has(Without(rs, name), n) <==> Has(rs, n))
  {
    WithoutMembers(rs, name);
    var w := Without(rs, name);
    forall i | 0 <= i < |w| ensures w[i] in rs && w[i].name != name { assert w[i] in w; }
    forall i | 0 <= i < |rs| && rs[i].name != name ensures rs[i] in w { assert rs[i] in rs; }
  }

  lemma SameHas(rs: seq<Replica>, qs: seq<Replica>)
    requires Renumbered(rs, qs)
    ensures forall n :: Has(rs, n) <==> Has(qs, n)
  {
  }

  // ---- a rollout replica joins ---------------------------------------------

  /** The oldest of the replicas that hold weights, names breaking ties. */
  ghost predicate OldestLoadedByName(rs: seq<Replica>, src: Name) {
    exists i :: 0 <= i < |rs| && rs[i].name == src && rs[i].loaded
                && forall j :: 0 <= j < |rs| && j != i && rs[j].loaded ==> OlderByName(rs, i, j)
  }

  lemma {:induction false} SourceIsOldestLoadedByName(rs: seq<Replica>)
    requires Distinct(Names(rs)) && FirstLoaded(rs, ByNameThenStart(rs)).Some?
    ensures OldestLoadedByName(rs, FirstLoaded(rs, ByNameThenStart(rs)).value)
  {
    hide ByNameThenStart, Get, Distinct, Names, OlderByName;
    var src := FirstLoaded(rs, ByNameThenStart(rs)).value;
    var x := Get(rs, src);
    var i :| 0 <= i < |rs| && rs[i] == x;
    forall j | 0 <= j < |rs| && j != i && rs[j].loaded ensures OlderByName(rs, i, j) {
      SourceIsOldestByName(rs, j);
      NamesApart(rs, i, j);
      var h :| 0 <= h < |rs| && rs[h].name == src && rs[h].loaded && OlderByName(rs, h, j);
      if h != i { NamesApart(rs, h, i); }
    }
  }

  predicate SomeHold(rs: seq<Replica>) { exists i :: 0 <= i < |rs| && rs[i].loaded }

  lemma {:induction false} SourceIffSomeHold(rs: seq<Replica>)
    requires Distinct(Names(rs))
    ensures FirstLoaded(rs, ByNameThenStart(rs)).Some? <==> SomeHold(rs)
    ensures FirstLoaded(rs, ByStart(rs)).Some? <==> SomeHold(rs)
  {
    hide ByNameThenStart, ByStart, Get, Distinct, Names;
    if SomeHold(rs) {
      var i :| 0 <= i < |rs| && rs[i].loaded;
      SourceIsOldestByName(rs, i);
      SourceIsOldest(rs, i);
    }
    if FirstLoaded(rs, ByNameThenStart(rs)).Some? {
      var x := Get(rs, FirstLoaded(rs, ByNameThenStart(rs)).value);
      assert x in rs && x.loaded;
    }
    if FirstLoaded(rs, ByStart(rs)).Some? {
      var x := Get(rs, FirstLoaded(rs, ByStart(rs)).value);
      assert x in rs && x.loaded;
    }
  }

  /** The new replica gets the first weights: no rollout has any, but some policy replica does. */
  predicate FirstWeightsDue(s: State) { !SomeHold(s.gens.replicas) && SomeHold(s.crew.replicas) }

  /** The rollouts with the new one, which has the first weights if they were due. */
  function WithNewcomer(s: State, name: Name, now: int, reporters: set<int>): seq<Replica> {
    s.gens.replicas + [Replica(name, now, FirstWeightsDue(s), -1, false, reporters)]
  }

  lemma {:induction false} FirstTransferIs(s: State, name: Name, now: int, reporters: set<int>)
    requires Distinct(Names(s.crew.replicas)) && Distinct(Names(s.gens.replicas)) && !Has(s.gens.replicas, name)
    ensures var rs := s.gens.replicas + [Replica(name, now, false, -1, false, reporters)];
            var log := s.log + [RolloutJoined(name)];
            && Distinct(Names(rs)) && Has(rs, name)
            && var z := FirstTransfer(Sync(rs, log), s.crew, name);
               && z.rollouts == WithNewcomer(s, name, now, reporters)
               && if FirstWeightsDue(s) then
                    exists src :: OldestLoadedByName(s.crew.replicas, src)
                      && z.log == log + [Sent(src, PolicyToRollout(src, name, None, false)), Sent(name, PolicyToRollout(src, name, None, false))]
                  else z.log == log
  {
    hide ByNameThenStart, Get, Distinct, Names, FirstLoaded, OldestLoadedByName;
    var new' := Replica(name, now, false, -1, false, reporters);
    var rs := s.gens.replicas + [new'];
    var log := s.log + [RolloutJoined(name)];
    FullSync.NewName(s.gens.replicas, name, rs);
    HasLast(rs, name);
    SourceIffSomeHold(s.crew.replicas);
    assert SomeHold(rs) <==> SomeHold(s.gens.replicas) by { HoldAppended(s.gens.replicas, new'); }
    if FirstWeightsDue(s) {
      SourceIsOldestLoadedByName(s.crew.replicas);
      GetAt(rs, |rs| - 1);
      assert Load(rs, [name]) == WithNewcomer(s, name, now, reporters) by { LoadLast(s.gens.replicas, new'); }
    }
  }

  lemma HoldAppended(rs: seq<Replica>, x: Replica)
    requires !x.loaded
    ensures SomeHold(rs + [x]) <==> SomeHold(rs)
  {
    if SomeHold(rs) {
      var i :| 0 <= i < |rs| && rs[i].loaded;
      assert (rs + [x])[i].loaded;
    }
  }

  lemma LoadLast(rs: seq<Replica>, x: Replica)
    requires !Has(rs, x.name)
    ensures Load(rs + [x], [x.name]) == rs + [x.(loaded := true)]
  {
    var a, b := Load(rs + [x], [x.name]), rs + [x.(loaded := true)];
    forall i | 0 <= i < |a| ensures a[i] == b[i] { }
  }

  lemma {:induction false} RebuiltRolloutMesh(y: Sync)
    requires Distinct(Names(y.rollouts))
    ensures var t := RebuildRolloutMesh(y, y.rollouts);
            WholeMeshByAge(t.rollouts) && Renumbered(y.rollouts, t.rollouts) && Names(t.rollouts) == Names(y.rollouts)
            && t.log == y.log + Broadcast(ByStart(y.rollouts), BuildMesh(ByStart(y.rollouts)))
  {
    hide ByStart, IndexOf, RankedByAge, Distinct, Names, Broadcast;
    var rs := y.rollouts;
    NamedInOrder(rs);
    IndexIsByAge(rs, Ranks(Rank(rs, ByStart(rs))));
    SameAges(rs, Rank(rs, ByStart(rs)));
    NamesRanked(rs, ByStart(rs));
  }

  /** A relay through a mesh of all: everyone is told and holds weights. */
  lemma {:induction false} RelayToAll(y: Sync, src: Name, step: int)
    requires Distinct(Names(y.rollouts)) && Has(y.rollouts, src) && WholeMeshByAge(y.rollouts)
    ensures var t := Relay(y, src, Names(y.rollouts), Some(step));
            && FullSync.AllHold(t.rollouts) && |t.rollouts| == |y.rollouts|
            && (forall i :: 0 <= i < |y.rollouts| ==> t.rollouts[i] == y.rollouts[i].(loaded := true))
            && exists partial :: forall i :: 0 <= i < |y.rollouts| ==>
                 Sent(y.rollouts[i].name, RolloutToRollout(src, Names(y.rollouts), Some(step), partial)) in t.log
  {
    hide Get, Distinct, Reachable, AllLoaded, RankedByAge;
    var rs, ns := y.rollouts, Names(y.rollouts);
    var i :| 0 <= i < |rs| && rs[i].name == src;
    GetAt(rs, i);
    forall k | 0 <= k < |rs| ensures rs[k].meshRank >= 0 { assert Ranks(rs)[k] >= 0 by { RankIsThere(rs, k); } }
    var to := Reachable(rs, ns);
    var cmd := RolloutToRollout(src, ns, Some(step), AllLoaded(rs, ns));
    var log := y.log + Broadcast(to, cmd);
    forall k | 0 <= k < |rs| ensures rs[k].name in to {
      GetAt(rs, k);
      NamedIn(rs, k);
      WeightRounds.ReachableIff(rs, ns, rs[k].name);
    }
    assert Relay(y, src, ns, Some(step)) == Sync(Load(rs, to), log);
    forall k | 0 <= k < |rs| ensures Sent(rs[k].name, cmd) in log {
      var p :| 0 <= p < |to| && to[p] == rs[k].name;
      assert log[|y.log| + p] == Sent(rs[k].name, cmd);
    }
  }

  lemma RankIsThere(rs: seq<Replica>, k: nat)
    requires WholeMeshByAge(rs) && k < |rs|
    ensures Ranks(rs)[k] >= 0
  {
  }

  /** A rollout replica joins.  It gets the first weights if they are due, from the oldest policy
      replica that holds any.  The mesh is built once the initial replicas are complete, and again
      for every later one; when it is built first, the weights that are there go to all. */
  lemma {:induction false} RolloutJoins(s: State, name: Name, now: int, reporters: set<int>)
    requires Distinct(Names(s.crew.replicas)) && Distinct(Names(s.gens.replicas)) && !Has(s.gens.replicas, name)
    ensures var t := RegisterRollout(s, name, now, reporters).state;
            var rs := WithNewcomer(s, name, now, reporters);
            && !RegisterRollout(s, name, now, reporters).raised && Names(t.gens.replicas) == Names(s.gens.replicas) + [name]
            && (t.gens.initDone <==> s.gens.initDone || |rs| >= s.gens.nInit)
            && (FirstWeightsDue(s) ==> exists src :: OldestLoadedByName(s.crew.replicas, src) && FirstTold(s, t, src, name))
            && (if t.gens.initDone then
                  && WholeMeshByAge(t.gens.replicas)
                  && if !s.gens.initDone && SomeHold(rs) then FullSync.AllHold(t.gens.replicas) else Renumbered(rs, t.gens.replicas)
                else t.gens.replicas == rs)
  {
    hide FirstTransfer, SettleRolloutMesh, Distinct, Names, WholeMeshByAge, OldestLoadedByName, SomeHold, Renumbered;
    var raw := s.gens.replicas + [Replica(name, now, false, -1, false, reporters)];
    var g := s.gens.(replicas := raw, nInit := if s.gens.initDone then s.gens.nInit else Max(s.gens.nInit, |raw|));
    var log := s.log + [RolloutJoined(name)];
    FirstTransferIs(s, name, now, reporters);
    var z := FirstTransfer(Sync(raw, log), s.crew, name);
    assert Distinct(Names(z.rollouts)) by { SameNames(s, name, now, reporters); }
    SettleMeshIs(g, z, s.at.step);
    NamesAdded(s.gens.replicas, z.rollouts, name);
    SettleRolloutMeshServiced(g, z, s.at.step);
    var t := RegisterRollout(s, name, now, reporters).state;
    if FirstWeightsDue(s) {
      var src :| OldestLoadedByName(s.crew.replicas, src)
        && z.log == log + [Sent(src, PolicyToRollout(src, name, None, false)), Sent(name, PolicyToRollout(src, name, None, false))];
      ToldStays(z.log, t.log, |s.log| + 1);
      ToldStays(z.log, t.log, |s.log| + 2);
      assert FirstTold(s, t, src, name);
    }
  }

  lemma ToldStays(a: seq<Entry>, b: seq<Entry>, k: nat)
    requires Serviced(a, b) && k < |a|
    ensures b[k] == a[k]
  {
    assert b[..|a|][k] == b[k];
  }

  predicate FirstTold(s: State, t: State, src: Name, name: Name) {
    && |s.log| + 3 <= |t.log|
    && t.log[|s.log| + 1] == Sent(src, PolicyToRollout(src, name, None, false))
    && t.log[|s.log| + 2] == Sent(name, PolicyToRollout(src, name, None, false))
  }

  lemma SameNames(s: State, name: Name, now: int, reporters: set<int>)
    requires Distinct(Names(s.gens.replicas)) && !Has(s.gens.replicas, name)
    ensures Distinct(Names(WithNewcomer(s, name, now, reporters)))
  {
    hide Distinct;
    FullSync.NewName(s.gens.replicas, name, WithNewcomer(s, name, now, reporters));
  }

  lemma {:induction false} SettleMeshIs(g: Gens, y: Sync, step: int)
    requires Distinct(Names(y.rollouts)) && |y.rollouts| == |g.replicas|
    ensures var t := SettleRolloutMesh(g, y, step);
            && Names(t.rollouts) == Names(y.rollouts) && |t.rollouts| == |y.rollouts|
            && (g.initDone || |y.rollouts| == g.nInit ==>
                  && WholeMeshByAge(t.rollouts)
                  && if !g.initDone && SomeHold(y.rollouts) then FullSync.AllHold(t.rollouts) else Renumbered(y.rollouts, t.rollouts))
            && (!g.initDone && |y.rollouts| != g.nInit ==> t == y)
  {
    hide RebuildRolloutMesh, ByStart, FirstLoaded, Relay, Distinct, Names, WholeMeshByAge, SomeHold, Has;
    RebuiltRolloutMesh(y);
    var built := RebuildRolloutMesh(y, y.rollouts);
    SourceIffSomeHold(built.rollouts);
    assert SomeHold(built.rollouts) <==> SomeHold(y.rollouts) by { RenumberedHold(y.rollouts, built.rollouts); }
    var src := FirstLoaded(built.rollouts, ByStart(built.rollouts));
    if src.Some? {
      RelayToAll(built, src.value, step);
      AllLoadedMesh(built.rollouts, Relay(built, src.value, Names(built.rollouts), Some(step)).rollouts);
      LoadedNames(built.rollouts, Relay(built, src.value, Names(built.rollouts), Some(step)).rollouts);
    }
  }

  lemma {:induction false} AllLoadedMesh(rs: seq<Replica>, qs: seq<Replica>)
    requires WholeMeshByAge(rs) && |qs| == |rs| && forall i :: 0 <= i < |rs| ==> qs[i] == rs[i].(loaded := true)
    ensures WholeMeshByAge(qs)
  {
    hide RankedByAge;
    assert Ranks(qs) == Ranks(rs);
    SameAges(rs, qs);
  }

  lemma LoadedNames(rs: seq<Replica>, qs: seq<Replica>)
    requires |qs| == |rs| && forall i :: 0 <= i < |rs| ==> qs[i] == rs[i].(loaded := true)
    ensures Names(qs) == Names(rs)
  {
  }

  lemma RenumberedHold(rs: seq<Replica>, qs: seq<Replica>)
    requires Renumbered(rs, qs)
    ensures SomeHold(qs) <==> SomeHold(rs)
  {
    if SomeHold(rs) { var i :| 0 <= i < |rs| && rs[i].loaded; assert qs[i].loaded; }
    if SomeHold(qs) { var i :| 0 <= i < |qs| && qs[i].loaded; assert rs[i].loaded; }
  }

  // ---- a rollout replica leaves --------------------------------------------

  lemma {:induction false} SurvivorsHave(rs: seq<Replica>, participants: set<Name>, n: Name)
    requires Distinct(Names(rs))
    ensures Has(SafeSurvivors(rs, participants), n) <==> Has(rs, n) && (!Get(rs, n).ended || n in participants)
  {
    hide Get, Distinct, Names;
    Loops.SurvivorsAre(rs, participants);
    var w := SafeSurvivors(rs, participants);
    if Has(rs, n) && (!Get(rs, n).ended || n in participants) {
      assert Get(rs, n) in w;
      var k :| 0 <= k < |w| && w[k] == Get(rs, n);
    }
    if Has(w, n) {
      var k :| 0 <= k < |w| && w[k].name == n;
      assert w[k] in rs;
      var i :| 0 <= i < |rs| && rs[i] == w[k];
      GetAt(rs, i);
    }
  }

  /** A rollout replica leaves.  Unless training is at its end or the replica was outside the mesh,
      the survivors that are live or still take part form the new mesh, numbered from the oldest;
      the others keep what they had. */
  lemma {:induction false} RolloutLeaves(s: State, name: Name)
    requires Distinct(Names(s.gens.replicas)) && Has(s.gens.replicas, name)
    ensures var t := UnregisterRollout(s, name).state;
            var left := Without(s.gens.replicas, name);
            var safe := SafeSurvivors(left, s.gens.participants - {name});
            && !UnregisterRollout(s, name).raised && t.gens.left == s.gens.left + 1
            && name !in t.gens.endReports && t.gens.participants == s.gens.participants - {name}
            && (forall n :: Has(safe, n) <==> Has(left, n) && (!Get(left, n).ended || n in s.gens.participants))
            && if !AtEnd(s) && RankOf(s.gens.replicas, name) >= 0 && safe != [] then
                 && Renumbered(left, t.gens.replicas) && RankedByAge(safe, MemberRanks(t.gens.replicas, safe))
                 && (forall i :: 0 <= i < |left| && !Has(safe, left[i].name) ==> t.gens.replicas[i] == left[i])
                 && MeshTold(s.log, t.log, safe, MemberRanks(t.gens.replicas, safe))
               else t.gens.replicas == left && t.log == s.log
  {
    hide RebuildRolloutMesh, Without, Distinct, Names, SafeSurvivors, Finished, RankedByAge, Get, Renumbered, MeshTold;
    var left := Without(s.gens.replicas, name);
    var parts := s.gens.participants - {name};
    var safe := SafeSurvivors(left, parts);
    WithoutDistinct(s.gens.replicas, name);
    WithoutHas(s.gens.replicas, name);
    forall n ensures Has(safe, n) <==> Has(left, n) && (!Get(left, n).ended || n in s.gens.participants) {
      SurvivorsHave(left, parts, n);
    }
    AtEndIff(s);
    if !AtEnd(s) && RankOf(s.gens.replicas, name) >= 0 && safe != [] {
      Loops.SurvivorsDistinct(left, parts);
      forall k | 0 <= k < |safe| ensures Has(left, safe[k].name) { assert Has(safe, safe[k].name); }
      RolloutMeshIsByAge(Sync(left, s.log), safe);
    }
  }

  // ---- names on every run --------------------------------------------------

  /** Every replica dictionary has one entry per name. */
  ghost predicate Named(s: State) { Distinct(Names(s.crew.replicas)) && Distinct(Names(s.gens.replicas)) }

  lemma {:induction false} TransferNames(y: Sync, src: Name, to: seq<Name>, step: int)
    requires to != [] && Has(y.rollouts, to[0])
    ensures Names(Transfer(y, src, to, step).rollouts) == Names(y.rollouts)
  {
    hide Reachable, AllLoaded, Get;
    NamesLoaded(y.rollouts, [to[0]]);
    var up := Unicast(y, src, to[0], Some(step));
    NamesLoaded(up.rollouts, Reachable(up.rollouts, to));
  }

  lemma {:induction false} FirstWeightsNames(g: Gens, log: seq<Entry>, src: Name, step: int)
    ensures Names(FirstWeights(g, log, src, step).rollouts) == Names(g.replicas)
  {
    hide Reachable, AllLoaded, Get, ByStart;
    var order := ByStart(g.replicas);
    if order != [] {
      assert order[0] in order;
      NamesLoaded(g.replicas, [order[0]]);
      var up := Unicast(Sync(g.replicas, log), src, order[0], None);
      NamesLoaded(up.rollouts, Reachable(up.rollouts, order));
    }
  }

  lemma {:induction false} ResumeNames(s: State, step: int)
    ensures Names(Resume(s, step).gens.replicas) == Names(s.gens.replicas)
  {
    hide Has, Transfer, ByStart, SafeTargets, SyncDue, SetAll, Names;
    var to := SafeTargets(s.gens);
    if to != [] && s.crew.replicas != [] {
      assert Has(s.gens.replicas, to[0]) by { TargetKnown(s.gens); }
      TransferNames(Sync(s.gens.replicas, s.log), ByStart(s.crew.replicas)[0], to, step);
    }
  }

  lemma {:induction false} AckNames(s: State, name: Name, step: int, total: int)
    ensures Names(TrainAck(s, name, step, total).state.gens.replicas) == Names(s.gens.replicas)
  {
    hide SettleStep, TakeRecord, FinishDraining, CanDispatch, Dispatch, AllIn, Has, Overdrawn, Worked, Resume, Names;
    var t := s.(crew := SetStatus(s.crew, name, Reduced), log := s.log + [Acked(name, step, total)]);
    TakeRecordFrame(t, step);
    var a := SettleStep(t, step, total);
    SettleStepFrame(t, step, total);
    var c := Resume(a, step);
    ResumeNames(a, step);
    DrainFrame(c);
    if CanDispatch(c) { DispatchFrame(c); }
  }

  lemma TargetKnown(g: Gens)
    ensures SafeTargets(g) != [] ==> Has(g.replicas, SafeTargets(g)[0])
  {
    hide ByStart;
    if SafeTargets(g) != [] { assert ByStart(g.replicas)[0] in ByStart(g.replicas); }
  }

  lemma {:induction false} EndNames(s: State, name: Name, rank: Option<int>, stays: bool)
    ensures Names(RolloutEnd(s, name, rank, stays).gens.replicas) == Names(s.gens.replicas)
  {
    hide EndReport, EndsReplica, FinishDraining, Worked;
    EndReportLeaves(s.gens, name, rank, stays);
    var t := s.(gens := EndReport(s.gens, name, rank, stays));
    DrainFrame(t);
    assert Names(t.gens.replicas) == Names(s.gens.replicas);
  }

  lemma {:induction false} UpNames(s: State, name: Name, now: int)
    requires Named(s)
    ensures Named(RegisterPolicy(s, name, now).state)
  {
    hide Distinct, Names, FirstWeights, JoinPolicyMesh, InitPolicyMesh, Has, Load;
    if !Has(s.crew.replicas, name) {
      var a := AddPolicy(s, name, now);
      FullSync.NewName(s.crew.replicas, name, a.crew.replicas);
      FirstWeightsNames(a.gens, a.log + [Sent(name, WeightResume)], name, a.at.step);
      NamesLoaded(a.crew.replicas, [name]);
      var b := if |a.crew.replicas| == 1 then FirstPolicy(a, name) else a;
      JoinKeepsNames(b, name);
      InitKeepsNames(b);
      PolicyHookFrame(b, name);
    }
  }

  lemma {:induction false} DownNames(s: State, name: Name)
    requires Named(s)
    ensures Named(UnregisterPolicy(s, name).state)
  {
    hide Distinct, Names, RebuildPolicyMesh, Without, Get, Has, Finished, Renumbered;
    var r := s.(crew := s.crew.(replicas := Without(s.crew.replicas, name),
                                status := s.crew.status - {name}, left := s.crew.left + 1));
    WithoutDistinct(s.crew.replicas, name);
    RebuiltMesh(r);
    RebuildFrame(r);
  }

  lemma {:induction false} RolloutDownNames(s: State, name: Name)
    requires Named(s)
    ensures Named(UnregisterRollout(s, name).state)
  {
    hide Distinct, Names, RebuildRolloutMesh, Without, SafeSurvivors, Finished, RankedByAge, Get, RankOf, MeshTold;
    if Has(s.gens.replicas, name) {
      RolloutLeaves(s, name);
      WithoutDistinct(s.gens.replicas, name);
      var t := UnregisterRollout(s, name).state;
      if Renumbered(Without(s.gens.replicas, name), t.gens.replicas) {
        RenumberedNames(Without(s.gens.replicas, name), t.gens.replicas);
      }
    }
    UnregisterRolloutFrame(s, name);
  }

  lemma {:induction false} RolloutUpNames(s: State, name: Name, now: int, reporters: set<int>)
    requires Named(s)
    ensures Named(RegisterRollout(s, name, now, reporters).state)
  {
    hide Names, RegisterRollout, WholeMeshByAge, Has;
    if Has(s.gens.replicas, name) { RolloutKnown(s, name, now, reporters); }
    else {
      RolloutJoins(s, name, now, reporters);
      RegisterRolloutFrame(s, name, now, reporters);
      HasIffNamed(s.gens.replicas, name);
    }
  }

  lemma {:induction false} StepNamed(s: State, e: Event)
    requires Named(s)
    ensures Named(Apply(s, e))
  {
    hide Distinct, Names, Fetch, PostRollouts, RolloutEnd, TrainAck, RegisterPolicy, UnregisterPolicy, RegisterRollout,
         UnregisterRollout, ShouldStop;
    if !e.PolicyUp? && !e.PolicyDown? { OnlyRegistrationChangesCrew(s, e); }
    match e
    case Fetching(_, m, x) => FullSync.FetchPlain(s, m, x);
    case Posting(p) => PostFrame(s, p);
    case Ending(name, rank, stays) => EndNames(s, name, rank, stays);
    case Acking(name, step, total) => AckNames(s, name, step, total);
    case PolicyUp(name, now) => UpNames(s, name, now);
    case PolicyDown(name) => DownNames(s, name);
    case RolloutUp(name, now, rs) => RolloutUpNames(s, name, now, rs);
    case RolloutDown(name) => RolloutDownNames(s, name);
    case Tick =>
  }

  lemma {:induction false} RunNamed(s: State, es: seq<Event>)
    requires Named(s)
    ensures Named(Run(s, es))
    decreases es
  {
    hide Apply, Named;
    if es != [] {
      StepNamed(s, es[0]);
      RunNamed(Apply(s, es[0]), es[1..]);
    }
  }

  /** On every run names are unique among the policy replicas and among the rollout replicas. */
  lemma {:induction false} NamesAreUnique(cfg: Config, np: nat, nr: nat, step: int, remain: int, es: seq<Event>)
    ensures Named(Run(Init(cfg, np, nr, step, remain), es))
  {
    hide Run;
    RunNamed(Init(cfg, np, nr, step, remain), es);
  }
}
