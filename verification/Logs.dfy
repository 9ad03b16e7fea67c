/** How operations extend the log: weight transfers and mesh rebuilds only add
    service commands, never training work. */
module Logs {
  import opened Types
  import opened Fleet
  import opened Protocol

  predicate TrainingCommand(c: Command) { c.DataFetch? || c.TrainingComplete? }

  predicate Service(e: Entry) { e.Sent? && !TrainingCommand(e.cmd) && !e.cmd.Stop? }

  /** `b` extends `a` by service commands. */
  predicate Serviced(a: seq<Entry>, b: seq<Entry>) {
    && |a| <= |b|
    && b[..|a|] == a
    && forall k :: |a| <= k < |b| ==> Service(b[k])
  }

  lemma ServicedBroadcast(a: seq<Entry>, to: seq<Name>, cmd: Command)
    requires !TrainingCommand(cmd) && !cmd.Stop?
    ensures Serviced(a, a + Broadcast(to, cmd))
  {
  }

  lemma ServicedRefl(a: seq<Entry>)
    ensures Serviced(a, a)
  {
  }

  lemma ServicedTransitive(a: seq<Entry>, b: seq<Entry>, c: seq<Entry>)
    requires Serviced(a, b) && Serviced(b, c)
    ensures Serviced(a, c)
  {
    assert c[..|a|] == c[..|b|][..|a|];
    forall k | |a| <= k < |c| ensures Service(c[k]) {
      if k < |b| { assert c[k] == c[..|b|][k]; }
    }
  }

  lemma UnicastServiced(y: Sync, src: Name, dst: Name, weightStep: Option<int>)
    requires Has(y.rollouts, dst)
    ensures Serviced(y.log, Unicast(y, src, dst, weightStep).log)
  {
  }

  lemma RelayServiced(y: Sync, src: Name, dsts: seq<Name>, weightStep: Option<int>)
    requires Has(y.rollouts, src)
    ensures Serviced(y.log, Relay(y, src, dsts, weightStep).log)
  {
    hide Reachable, AllLoaded, Get, Has;
  }

  lemma TransferServiced(y: Sync, src: Name, to: seq<Name>, step: int)
    requires to != [] && Has(y.rollouts, to[0])
    ensures Serviced(y.log, Transfer(y, src, to, step).log)
  {
    var up := Unicast(y, src, to[0], Some(step));
    UnicastServiced(y, src, to[0], Some(step));
    RelayServiced(up, to[0], to, Some(step));
    ServicedTransitive(y.log, up.log, Transfer(y, src, to, step).log);
  }

  /** Taking a record touches the ledger only. */
  lemma TakeRecordFrame(s: State, step: int)
    ensures var t := TakeRecord(s, step);
            && t == s.(ledger := t.ledger)
            && t.ledger == s.ledger.(onTheFly := s.ledger.onTheFly - RecordOf(s.ledger, step), dispatched := t.ledger.dispatched)
            && t.ledger.dispatched == s.ledger.dispatched - {step}
  {
  }

  /** Settling a step touches the ledger, and for the final step ends the job. */
  lemma SettleStepFrame(s: State, step: int, total: int)
    ensures var t := SettleStep(s, step, total);
            var d := s.ledger.dispatched;
            && t == s.(ledger := t.ledger, queues := t.queues, closing := t.closing)
            && t.closing == s.closing.(ackedStep := t.closing.ackedStep, ackedTotal := t.closing.ackedTotal,
                                       terminal := t.closing.terminal)
            && t.closing.terminal ==
               (s.closing.terminal || (step in d && d[step] > 0 && step == total == Horizon(s.closing, s.at)))
            && t.ledger.dispatched == d - {step}
            && (t.queues == s.queues || t.queues == Emptied(s.cfg, s.queues))
  {
    hide Pending, Emptied;
  }

  /** Resuming after a step touches the statuses, the rollouts' weights and the staging only. */
  lemma ResumeFrame(s: State, step: int)
    ensures var t := Resume(s, step);
            && Serviced(s.log, t.log)
            && t == s.(crew := s.crew.(status := t.crew.status), gens := s.gens.(replicas := t.gens.replicas),
                       weights := t.weights, log := t.log)
            && t.crew.status == SetAll(s.crew.status, Names(s.crew.replicas), Ready)
  {
    hide Serviced, Transfer, ByStart, SetAll, Names, SafeTargets, SyncDue, AllEnded;
    assert Serviced(s.log, s.log) by { ServicedRefl(s.log); }
    var to := SafeTargets(s.gens);
    if to != [] && s.crew.replicas != [] {
      assert to[0] in to;
      TransferServiced(Sync(s.gens.replicas, s.log), ByStart(s.crew.replicas)[0], to, step);
    }
  }

  /** `b` extends `a` by mesh commands and transfers between policy replicas. */
  predicate Meshed(a: seq<Entry>, b: seq<Entry>) {
    && |a| <= |b|
    && b[..|a|] == a
    && forall k :: |a| <= k < |b| ==> b[k].Sent? && (b[k].cmd.BuildMesh? || b[k].cmd.PolicyToPolicy?)
  }

  lemma MeshedServiced(a: seq<Entry>, b: seq<Entry>)
    requires Meshed(a, b)
    ensures Serviced(a, b)
  {
  }

  lemma MeshedBroadcast(a: seq<Entry>, b: seq<Entry>, to: seq<Name>, cmd: Command)
    requires Meshed(a, b) && (cmd.BuildMesh? || cmd.PolicyToPolicy?)
    ensures Meshed(a, b + Broadcast(to, cmd))
  {
    assert (b + Broadcast(to, cmd))[..|a|] == b[..|a|];
  }

  lemma RebuildFrame(s: State)
    ensures var t := RebuildPolicyMesh(s);
            && Meshed(s.log, t.log)
            && Serviced(s.log, t.log)
            && t == s.(crew := s.crew.(replicas := t.crew.replicas), at := s.at.(total := t.at.total),
                       queues := t.queues, log := t.log)
            && |t.crew.replicas| == |s.crew.replicas|
  {
    hide ByStart;
    var order := ByStart(s.crew.replicas);
    MeshedBroadcast(s.log, s.log, order, BuildMesh(order));
    MeshedServiced(s.log, RebuildPolicyMesh(s).log);
  }

  lemma FirstPolicyFrame(s: State, name: Name)
    ensures var t := FirstPolicy(s, name);
            && Serviced(s.log, t.log)
            && t == s.(crew := s.crew.(firstArrived := true, replicas := Load(s.crew.replicas, [name])),
                       gens := s.gens.(replicas := t.gens.replicas), log := t.log)
  {
    hide ByStart, Relay;
    var l := s.log + [Sent(name, WeightResume)];
    var order := ByStart(s.gens.replicas);
    assert Serviced(s.log, l);
    if order != [] {
      assert order[0] in order;
      var y := Sync(s.gens.replicas, l);
      var up := Unicast(y, name, order[0], None);
      UnicastServiced(y, name, order[0], None);
      ServicedTransitive(s.log, l, up.log);
      RelayServiced(up, order[0], order, Some(s.at.step));
      ServicedTransitive(s.log, up.log, Relay(up, order[0], order, Some(s.at.step)).log);
    }
  }

  /** A registration hook leaves everything but the crew, the horizon and the queues alone. */
  predicate CrewOnly(s: State, t: State) {
    && Meshed(s.log, t.log)
    && Serviced(s.log, t.log)
    && t == s.(crew := t.crew, at := s.at.(total := t.at.total), queues := t.queues, log := t.log)
    && |t.crew.replicas| == |s.crew.replicas|
  }

  lemma JoinFrame(s: State, name: Name)
    ensures CrewOnly(s, JoinPolicyMesh(s, name).state)
  {
    hide RebuildPolicyMesh, FirstLoaded, ByStart, Broadcast, Load;
    RebuildFrame(s);
    var t := JoinPolicyMesh(s, name).state;
    assert !JoinPolicyMesh(s, name).raised ==> t.log[..|s.log|] == RebuildPolicyMesh(s).log[..|s.log|];
    MeshedServiced(s.log, t.log);
  }

  lemma InitFrame(s: State)
    ensures CrewOnly(s, InitPolicyMesh(s).state)
  {
    hide Serviced, Meshed, RebuildPolicyMesh, FirstLoaded, ByStart, Broadcast, Load, Names, SetAll;
    var i := s.(crew := s.crew.(initDone := true));
    var m := RebuildPolicyMesh(i);
    RebuildFrame(i);
    var all := Names(m.crew.replicas);
    var src := FirstLoaded(m.crew.replicas, ByStart(m.crew.replicas));
    if |s.crew.replicas| > 1 && src.Some? {
      MeshedBroadcast(s.log, m.log, all, PolicyToPolicy(src.value, all));
      MeshedServiced(s.log, InitPolicyMesh(s).state.log);
    }
  }

  lemma PolicyHookFrame(s: State, name: Name)
    ensures CrewOnly(s, PolicyHook(s, name).state)
  {
    hide Serviced, JoinPolicyMesh, InitPolicyMesh;
    ServicedRefl(s.log);
    assert Meshed(s.log, s.log);
    if s.crew.initDone { JoinFrame(s, name); } else { InitFrame(s); }
  }

  lemma FirstTransferServiced(y: Sync, crew: Crew, name: Name)
    requires Has(y.rollouts, name)
    ensures Serviced(y.log, FirstTransfer(y, crew, name).log)
    ensures |FirstTransfer(y, crew, name).rollouts| == |y.rollouts|
  {
    hide FirstLoaded, ByNameThenStart, Serviced, Has, Get;
    ServicedRefl(y.log);
    var src := FirstLoaded(crew.replicas, ByNameThenStart(crew.replicas));
    if src.Some? { UnicastServiced(y, src.value, name, None); }
  }

  lemma SettleRolloutMeshServiced(g: Gens, y: Sync, step: int)
    ensures Serviced(y.log, SettleRolloutMesh(g, y, step).log)
  {
    hide FirstLoaded, ByStart, Broadcast, Names, Rank, Relay;
    var built := RebuildRolloutMesh(y, y.rollouts);
    ServicedBroadcast(y.log, ByStart(y.rollouts), BuildMesh(ByStart(y.rollouts)));
    var src := FirstLoaded(built.rollouts, ByStart(built.rollouts));
    if src.Some? {
      RelayServiced(built, src.value, Names(built.rollouts), Some(step));
      ServicedTransitive(y.log, built.log, Relay(built, src.value, Names(built.rollouts), Some(step)).log);
    }
  }

  /** Registering a rollout replica logs the arrival and then service commands. */
  lemma RegisterRolloutFrame(s: State, name: Name, now: int, reporters: set<int>)
    requires !Has(s.gens.replicas, name)
    ensures var t := RegisterRollout(s, name, now, reporters).state;
            && Serviced(s.log + [RolloutJoined(name)], t.log)
            && t == s.(gens := t.gens, log := t.log)
  {
    var rs := s.gens.replicas + [Replica(name, now, false, -1, false, reporters)];
    var g := s.gens.(replicas := rs, nInit := if s.gens.initDone then s.gens.nInit else Max(s.gens.nInit, |rs|));
    assert rs[|s.gens.replicas|].name == name;
    var y := Sync(rs, s.log + [RolloutJoined(name)]);
    var z := FirstTransfer(y, s.crew, name);
    FirstTransferServiced(y, s.crew, name);
    SettleRolloutMeshServiced(g, z, s.at.step);
    ServicedTransitive(y.log, z.log, SettleRolloutMesh(g, z, s.at.step).log);
  }

  /** Registering a known rollout replica changes nothing. */
  lemma RolloutKnown(s: State, name: Name, now: int, rs: set<int>)
    requires Has(s.gens.replicas, name)
    ensures RegisterRollout(s, name, now, rs) == Outcome(s, true)
  {
  }

  lemma UnregisterRolloutFrame(s: State, name: Name)
    ensures var t := UnregisterRollout(s, name).state;
            && Serviced(s.log, t.log)
            && t == s.(gens := t.gens, log := t.log)
  {
    hide Without, Get, SafeSurvivors, ByStart, Rank, Broadcast;
  }

  // ---- training work -------------------------------------------------------

  predicate AllFed(es: seq<Entry>) { forall k :: 0 <= k < |es| ==> es[k].Fed? }

  lemma FeedNoStep(s: State)
    requires CanDispatch(s)
    ensures AllFed(Feed(s.cfg, s.queues, s.crew.replicas, s.at.step + 1))
  {
    hide ByStart;
    if s.cfg.rankInMesh {
      FeedRanksFed(s.queues.perRank, ByStart(s.crew.replicas), s.cfg.batch, s.at.step + 1);
    }
  }

  lemma {:induction false} FeedRanksFed(qs: seq<seq<Rollout>>, to: seq<Name>, batch: nat, step: int)
    requires |to| <= |qs| && EachAtLeast(qs, batch)
    ensures AllFed(FeedRanks(qs, to, batch, step))
  {
    hide SortByPrompt;
    if to != [] {
      assert forall i :: 0 <= i < |qs[1..]| ==> qs[1..][i] == qs[i + 1];
      FeedRanksFed(qs[1..], to[1..], batch, step);
      var a, b := FeedOne(qs[0], to[0], batch, step), FeedRanks(qs[1..], to[1..], batch, step);
      assert FeedRanks(qs, to, batch, step) == a + b;
      assert AllFed(a) && AllFed(b);
    }
  }

  predicate Work(e: Entry) { e.Fed? || (e.Sent? && TrainingCommand(e.cmd)) }

  /** `b` extends `a` by training work. */
  predicate Worked(a: seq<Entry>, b: seq<Entry>) {
    |a| <= |b| && b[..|a|] == a && forall k :: |a| <= k < |b| ==> Work(b[k])
  }

  /** What dispatching, draining and completing may change. */
  predicate TrainingOnly(s: State, t: State) {
    && Worked(s.log, t.log)
    && t == s.(at := t.at, ledger := t.ledger, queues := t.queues, closing := t.closing,
               crew := s.crew.(status := t.crew.status), log := t.log)
  }

  lemma DispatchFrame(s: State)
    requires CanDispatch(s)
    ensures TrainingOnly(s, Dispatch(s))
  {
    hide Finished, Idle, Enough, RanksCovered, Taken, Feed, SetAll, Names;
    FeedNoStep(s);
    var t := Dispatch(s);
    var fed := Feed(s.cfg, s.queues, s.crew.replicas, s.at.step + 1);
    assert t.log[..|s.log|] == s.log;
    forall k | |s.log| <= k < |t.log| ensures Work(t.log[k]) {
      if k < |s.log + fed| { assert t.log[k] == fed[k - |s.log|]; }
    }
  }

  lemma ConcludeFrame(s: State)
    ensures TrainingOnly(s, Conclude(s))
  {
    hide Settle, Pending, Emptied, SetAll, Names, RealTerminalAcked;
  }

  lemma DrainFrame(s: State)
    ensures TrainingOnly(s, FinishDraining(s))
  {
    hide CanDispatch, Dispatch, Idle, AllEnded, Settle, Pending, Emptied, Conclude;
    var e := EnterDraining(s);
    if CanDispatch(e) { DispatchFrame(e); }
    ConcludeFrame(e);
  }

  lemma {:induction false} PutAllFrame(s: State, rs: seq<Rollout>)
    ensures TrainingOnly(s, PutAll(s, rs))
    decreases rs
  {
    hide CanDispatch, Dispatch, Enqueued;
    if rs != [] && CanPut(s) {
      var e := s.(queues := Enqueued(s.cfg, s.queues, rs[0]));
      var t := Put(s, rs[0]);
      if CanDispatch(e) { DispatchFrame(e); }
      PutAllFrame(t, rs[1..]);
      WorkedTransitive(s.log, t.log, PutAll(s, rs).log);
    }
  }

  lemma WorkedTransitive(a: seq<Entry>, b: seq<Entry>, c: seq<Entry>)
    requires Worked(a, b) && Worked(b, c)
    ensures Worked(a, c)
  {
    assert c[..|a|] == c[..|b|][..|a|];
    forall k | |a| <= k < |c| ensures Work(c[k]) {
      if k < |b| { assert c[k] == c[..|b|][k]; }
    }
  }

  /** `b` extends `a` by reports and training work. */
  predicate Posted(a: seq<Entry>, b: seq<Entry>) {
    |a| <= |b| && b[..|a|] == a && forall k :: |a| <= k < |b| ==> Work(b[k]) || b[k].Reported?
  }

  /** What a post may change. */
  lemma PostFrame(s: State, p: Post)
    ensures var t := PostRollouts(s, p).state;
            && Posted(s.log, t.log)
            && t == s.(at := t.at, ledger := t.ledger, queues := t.queues, closing := t.closing,
                       crew := s.crew.(status := t.crew.status),
                       weights := s.weights.(adopted := t.weights.adopted), log := t.log)
  {
    hide SettleDiscard, Settle, ReadCount, Accepted, MaxVersion, PutAll, Worked, Posted;
    var d := Intake(s, p);
    assert Posted(s.log, s.log) by { PostedNothing(s.log); }
    if !Closed(d.closing) {
      var a := Adopt(d, p.rollouts);
      var good := Accepted(a, p.rollouts, 0);
      var f := Drop(a, |p.rollouts| - |good|);
      PutAllFrame(f, good);
      PostedLog(s.log, p.rollouts, PutAll(f, good).log);
      var read := p.rollouts[..ReadCount(p.rollouts, d.at.step)];
      PostedReports(s.log, read);
    }
  }

  lemma PostedNothing(a: seq<Entry>)
    ensures Posted(a, a)
  {
  }

  lemma PostedReports(a: seq<Entry>, rs: seq<Rollout>)
    ensures Posted(a, a + Reports(rs))
  {
  }

  lemma PostedLog(a: seq<Entry>, rs: seq<Rollout>, c: seq<Entry>)
    requires Worked(a + Reports(rs), c)
    ensures Posted(a, c)
  {
    var b := a + Reports(rs);
    assert c[..|a|] == c[..|b|][..|a|];
    forall k | |a| <= k < |c| ensures Work(c[k]) || c[k].Reported? {
      if k < |b| { assert c[k] == c[..|b|][k]; }
    }
  }
}
