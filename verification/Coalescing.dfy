/** Depth-1 coalescing of weight rounds: how far apart the rounds of a run are,
    and what a skipped synchronisation point means. */
module Coalescing {
  import opened Types
  import opened Fleet
  import opened Protocol
  import opened Logs
  import opened Runs
  import opened Shutdown
  import opened Lockstep
  import opened Completion

  /** A weight round: the policy-to-rollout transfer of one training step. */
  predicate IsRound(e: Entry) { e.Sent? && e.cmd.PolicyToRollout? && e.cmd.weightStep.Some? }

  function RoundStep(e: Entry): int
    requires IsRound(e)
  {
    e.cmd.weightStep.value
  }

  /** A posted rollout showed that weights of version `v` or later were in use. */
  predicate Adopted(log: seq<Entry>, v: int) {
    exists m :: 0 <= m < |log| && log[m].Reported? && log[m].version >= v
  }

  /** The two halves of one round: the same command, to its source and then to its destination. */
  predicate Halves(log: seq<Entry>, i: nat, j: nat)
    requires i < j < |log| && IsRound(log[i]) && IsRound(log[j])
  {
    j == i + 1 && log[i].cmd == log[j].cmd && log[i].to == log[i].cmd.src && log[j].to == log[j].cmd.dst
  }

  /** The round at `j` is later than the one at `i`: of a larger step and, when coalescing,
      published only after the weights of the earlier one have been seen in use. */
  predicate Beyond(log: seq<Entry>, i: nat, j: nat, coalesce: bool)
    requires i < j < |log| && IsRound(log[i]) && IsRound(log[j])
  {
    RoundStep(log[i]) < RoundStep(log[j]) && (coalesce ==> Adopted(log[..j], RoundStep(log[i])))
  }

  /** Two round entries are the two halves of one round, or the second round is beyond the first. */
  predicate Spaced(log: seq<Entry>, coalesce: bool) {
    forall i, j :: 0 <= i < j < |log| && IsRound(log[i]) && IsRound(log[j]) ==>
      Halves(log, i, j) || Beyond(log, i, j, coalesce)
  }

  // ---- what the log and the staging counters have to do with each other -----

  /** `staged` is the latest round, -1 before the first. */
  predicate StagedIsLast(log: seq<Entry>, staged: int) {
    && (forall k :: 0 <= k < |log| && IsRound(log[k]) ==> 0 <= RoundStep(log[k]) <= staged)
    && (staged == -1 || exists k :: 0 <= k < |log| && IsRound(log[k]) && RoundStep(log[k]) == staged)
  }

  /** `adopted` is the largest version reported, -1 before the first. */
  predicate AdoptedIsMax(log: seq<Entry>, adopted: int) {
    && adopted >= -1
    && (forall k :: 0 <= k < |log| && log[k].Reported? ==> log[k].version <= adopted)
    && (adopted == -1 || Adopted(log, adopted))
  }

  predicate NobodyRuns(status: map<Name, PolicyStatus>) { forall n :: n in status ==> status[n] != Running }

  /** The current step is staged only after it is over. */
  predicate Paced(s: State) {
    && s.at.step >= 0
    && (!s.closing.draining ==>
          s.weights.staged <= s.at.step && (s.weights.staged == s.at.step ==> NobodyRuns(s.crew.status)))
  }

  predicate Rounds(s: State) {
    && Paced(s)
    && StagedIsLast(s.log, s.weights.staged)
    && AdoptedIsMax(s.log, s.weights.adopted)
    && Spaced(s.log, CoalesceOn(s.cfg))
  }

  /** `b` extends `a` by neither a round nor a report. */
  predicate Steady(a: seq<Entry>, b: seq<Entry>) {
    |a| <= |b| && b[..|a|] == a && forall k :: |a| <= k < |b| ==> !IsRound(b[k]) && !b[k].Reported?
  }

  lemma SteadyTransitive(a: seq<Entry>, b: seq<Entry>, c: seq<Entry>)
    requires Steady(a, b) && Steady(b, c)
    ensures Steady(a, c)
  {
    assert c[..|a|] == c[..|b|][..|a|];
    forall k | |a| <= k < |c| ensures !IsRound(c[k]) && !c[k].Reported? {
      if k < |b| { assert c[k] == c[..|b|][k]; }
    }
  }

  lemma AdoptedExtends(a: seq<Entry>, b: seq<Entry>, v: int)
    requires |a| <= |b| && b[..|a|] == a && Adopted(a, v)
    ensures Adopted(b, v)
  {
    var m :| 0 <= m < |a| && a[m].Reported? && a[m].version >= v;
    assert b[..|a|][m] == b[m];
  }

  lemma SteadySpaced(a: seq<Entry>, b: seq<Entry>, coalesce: bool)
    requires Steady(a, b) && Spaced(a, coalesce)
    ensures Spaced(b, coalesce)
  {
    forall i, j | 0 <= i < j < |b| && IsRound(b[i]) && IsRound(b[j])
      ensures Halves(b, i, j) || Beyond(b, i, j, coalesce)
    {
      assert b[..|a|][i] == b[i] && b[..|a|][j] == b[j];
      assert b[..j] == a[..j];
      assert Halves(a, i, j) || Beyond(a, i, j, coalesce);
    }
  }

  lemma SteadyMarks(a: seq<Entry>, b: seq<Entry>, staged: int, adopted: int)
    requires Steady(a, b) && StagedIsLast(a, staged) && AdoptedIsMax(a, adopted)
    ensures StagedIsLast(b, staged) && AdoptedIsMax(b, adopted)
  {
    forall k | 0 <= k < |a| ensures b[k] == a[k] { assert b[..|a|][k] == b[k]; }
    if adopted != -1 { AdoptedExtends(a, b, adopted); }
    if staged != -1 {
      var k :| 0 <= k < |a| && IsRound(a[k]) && RoundStep(a[k]) == staged;
      assert IsRound(b[k]) && RoundStep(b[k]) == staged;
    }
  }

  /** Nobody starts running. */
  predicate NoStart(a: map<Name, PolicyStatus>, b: map<Name, PolicyStatus>) {
    forall n :: n in b && b[n] == Running ==> n in a && a[n] == Running
  }

  /** A change that leaves rounds, reports and running replicas alone. */
  predicate Gentle(s: State, t: State) {
    && Steady(s.log, t.log)
    && t.cfg == s.cfg
    && t.weights == s.weights
    && t.at.step == s.at.step
    && (s.closing.draining ==> t.closing.draining)
    && NoStart(s.crew.status, t.crew.status)
  }

  lemma GentleRounds(s: State, t: State)
    requires Rounds(s) && Gentle(s, t)
    ensures Rounds(t)
  {
    hide Steady, Spaced, StagedIsLast, AdoptedIsMax, CoalesceOn;
    SteadySpaced(s.log, t.log, CoalesceOn(s.cfg));
    SteadyMarks(s.log, t.log, s.weights.staged, s.weights.adopted);
  }

  // ---- dispatching and draining --------------------------------------------

  lemma WorkedSteady(a: seq<Entry>, b: seq<Entry>)
    requires Worked(a, b)
    ensures Steady(a, b)
  {
  }

  /** A new step is beyond everything staged. */
  lemma DispatchRounds(s: State)
    requires Rounds(s) && CanDispatch(s)
    ensures Rounds(Dispatch(s))
  {
    hide CanDispatch, Steady, Spaced, StagedIsLast, AdoptedIsMax, Worked, Taken, Feed, Broadcast, SetAll, Names, CoalesceOn;
    DispatchFrame(s);
    WorkedSteady(s.log, Dispatch(s).log);
    SteadySpaced(s.log, Dispatch(s).log, CoalesceOn(s.cfg));
    SteadyMarks(s.log, Dispatch(s).log, s.weights.staged, s.weights.adopted);
  }

  lemma DrainRounds(s: State)
    requires Rounds(s)
    ensures Rounds(FinishDraining(s))
  {
    hide CanDispatch, Dispatch, Idle, AllEnded, Settle, Pending, Emptied, SetAll, Names, RealTerminalAcked, Rounds;
    if AllEnded(s.gens) {
      var e := EnterDraining(s);
      GentleRounds(s, e);
      if !Closed(e.closing) && Idle(e.crew) && e.at.step < Horizon(e.closing, e.at) && CanDispatch(e) {
        DispatchRounds(e);
      } else { SettledRounds(e, Drain(e)); }
    }
  }

  /** In the draining phase only the log matters. */
  lemma SettledRounds(s: State, t: State)
    requires Rounds(s) && Steady(s.log, t.log) && t.cfg == s.cfg && t.weights == s.weights && t.at.step == s.at.step
    requires t.closing.draining
    ensures Rounds(t)
  {
    hide Steady, Spaced, StagedIsLast, AdoptedIsMax, CoalesceOn;
    SteadySpaced(s.log, t.log, CoalesceOn(s.cfg));
    SteadyMarks(s.log, t.log, s.weights.staged, s.weights.adopted);
  }

  // ---- a weight round ------------------------------------------------------

  /** The two halves of one round, then service commands. */
  predicate OneRound(a: seq<Entry>, b: seq<Entry>, step: int) {
    && |a| + 2 <= |b| && b[..|a|] == a
    && IsRound(b[|a|]) && RoundStep(b[|a|]) == step
    && IsRound(b[|a| + 1]) && Halves(b, |a|, |a| + 1)
    && forall k :: |a| + 2 <= k < |b| ==> !IsRound(b[k]) && !b[k].Reported?
  }

  lemma TransferIsOneRound(y: Sync, src: Name, to: seq<Name>, step: int)
    requires to != [] && Has(y.rollouts, to[0])
    ensures OneRound(y.log, Transfer(y, src, to, step).log, step)
  {
  }

  lemma OneRoundMarks(a: seq<Entry>, b: seq<Entry>, staged: int, adopted: int, step: int)
    requires OneRound(a, b, step) && StagedIsLast(a, staged) && AdoptedIsMax(a, adopted) && 0 <= step && staged <= step
    ensures StagedIsLast(b, step) && AdoptedIsMax(b, adopted)
  {
    forall k | 0 <= k < |a| ensures b[k] == a[k] { assert b[..|a|][k] == b[k]; }
    if adopted != -1 { AdoptedExtends(a, b, adopted); }
    assert IsRound(b[|a|]) && RoundStep(b[|a|]) == step;
  }

  lemma OneRoundSpaced(a: seq<Entry>, b: seq<Entry>, staged: int, adopted: int, step: int, coalesce: bool)
    requires OneRound(a, b, step) && Spaced(a, coalesce) && StagedIsLast(a, staged) && AdoptedIsMax(a, adopted)
    requires staged < step && (coalesce ==> staged <= adopted)
    ensures Spaced(b, coalesce)
  {
    forall i, j | 0 <= i < j < |b| && IsRound(b[i]) && IsRound(b[j])
      ensures Halves(b, i, j) || Beyond(b, i, j, coalesce)
    {
      if i < |a| { assert b[..|a|][i] == b[i]; }
      if j < |a| {
        assert b[..|a|][j] == b[j] && b[..j] == a[..j];
        assert Halves(a, i, j) || Beyond(a, i, j, coalesce);
      } else if i < |a| && coalesce {
        AdoptedEnough(a, adopted, RoundStep(b[i]));
        assert b[..j][..|a|] == a;
        AdoptedExtends(a, b[..j], RoundStep(b[i]));
      }
    }
  }

  lemma AdoptedEnough(log: seq<Entry>, adopted: int, v: int)
    requires AdoptedIsMax(log, adopted) && 0 <= v <= adopted
    ensures Adopted(log, v)
  {
    var m :| 0 <= m < |log| && log[m].Reported? && log[m].version >= adopted;
    assert log[m].version >= v;
  }

  /** Synchronising after the current step, nobody having started the next one. */
  lemma SyncRounds(s: State)
    requires Rounds(s) && NobodyRuns(s.crew.status) && s.weights.staged < s.at.step
    ensures Rounds(MaybeSync(s, s.at.step))
  {
    hide Spaced, StagedIsLast, AdoptedIsMax, Transfer, ByStart, CoalesceOn, NobodyRuns;
    var to := SafeTargets(s.gens);
    if !CoalesceSkip(s.cfg, s.weights) && to != [] && s.crew.replicas != [] {
      assert to[0] in to;
      var y := Sync(s.gens.replicas, s.log);
      var src := ByStart(s.crew.replicas)[0];
      TransferIsOneRound(y, src, to, s.at.step);
      OneRoundMarks(s.log, Transfer(y, src, to, s.at.step).log, s.weights.staged, s.weights.adopted, s.at.step);
      OneRoundSpaced(s.log, Transfer(y, src, to, s.at.step).log, s.weights.staged, s.weights.adopted, s.at.step,
                     CoalesceOn(s.cfg));
    }
  }

  lemma ReadyNobodyRuns(crew: Crew)
    requires Roster(crew)
    ensures NobodyRuns(SetAll(crew.status, Names(crew.replicas), Ready))
  {
    hide Distinct;
    forall n | n in crew.status ensures n in Names(crew.replicas) { assert n in NameSet(crew.replicas); }
  }

  /** The acknowledged step is the current one, and it has not been staged yet. */
  lemma ResumeRounds(s: State, step: int)
    requires Rounds(s) && Roster(s.crew) && step == s.at.step
    requires !s.closing.draining ==> s.weights.staged < s.at.step
    ensures Rounds(Resume(s, step))
  {
    hide Rounds, MaybeSync, SyncDue, SetAll, Names, Roster, NobodyRuns;
    var b := s.(crew := s.crew.(status := SetAll(s.crew.status, Names(s.crew.replicas), Ready)));
    ReadyNobodyRuns(s.crew);
    assert NoStart(s.crew.status, b.crew.status) by { NobodyStarts(s.crew.status, b.crew.status); }
    GentleRounds(s, b);
    if SyncDue(s, step) { DueMeansOpen(s, step); SyncRounds(b); }
  }

  lemma NobodyStarts(a: map<Name, PolicyStatus>, b: map<Name, PolicyStatus>)
    requires NobodyRuns(b)
    ensures NoStart(a, b)
  {
  }

  lemma DueMeansOpen(s: State, step: int)
    requires SyncDue(s, step)
    ensures !s.closing.draining
  {
  }

  /** The end of a step that is acknowledged in order. */
  lemma StepDoneRounds(s: State, step: int, total: int)
    requires Rounds(s) && Roster(s.crew) && step == s.at.step
    requires !s.closing.draining ==> s.weights.staged < s.at.step
    ensures Rounds(StepDone(s, step, total))
  {
    hide Rounds, SettleStep, Resume, FinishDraining, CanDispatch, Dispatch, Roster;
    var a := SettleStep(s, step, total);
    SettleStepFrame(s, step, total);
    GentleRounds(s, a);
    ResumeRounds(a, step);
    var c := Resume(a, step);
    if c.closing.draining { DrainRounds(c); } else if CanDispatch(c) { DispatchRounds(c); }
  }

  /** In the draining phase nothing is staged whatever is acknowledged. */
  lemma DrainingAckRounds(s: State, step: int, total: int)
    requires Rounds(s) && s.closing.draining
    ensures Rounds(StepDone(s, step, total))
  {
    hide Rounds, SettleStep, FinishDraining, MaybeSync, SetAll, Names;
    var a := SettleStep(s, step, total);
    SettleStepFrame(s, step, total);
    var c := Resume(a, step);
    assert c.log == s.log && c.closing.draining;
    SettledRounds(s, c);
    DrainRounds(c);
  }

  lemma AckRounds(s: State, name: Name, step: int, total: int)
    requires Sound(s) && InStep(s) && Rounds(s) && Orderly(s, Acking(name, step, total))
    ensures Rounds(TrainAck(s, name, step, total).state)
  {
    hide StepDone, Has, Pending, RealCommandsBounded, Distinct, AllBusy, Spaced, StagedIsLast, AdoptedIsMax, Outstanding;
    if Has(s.crew.replicas, name) {
      StatusOf(s.crew, name);
      RunningInitialised(s, name);
      var t := s.(crew := SetStatus(s.crew, name, Reduced), log := s.log + [Acked(name, step, total)]);
      GentleRounds(s, t);
      if IsCompletionAck(s.closing, name, step) {
        GentleRounds(s, TrainAck(s, name, step, total).state);
      } else if AllIn(t.crew.status, {Reduced}) {
        if s.closing.draining { DrainingAckRounds(t, step, total); }
        else { StepDoneRounds(t, step, total); }
      }
    }
  }

  // ---- reports -------------------------------------------------------------

  lemma {:induction false} MaxVersionIs(v: int, rs: seq<Rollout>)
    ensures MaxVersion(v, rs) >= v
    ensures forall i :: 0 <= i < |rs| ==> rs[i].version <= MaxVersion(v, rs)
    ensures MaxVersion(v, rs) == v || exists i :: 0 <= i < |rs| && rs[i].version == MaxVersion(v, rs)
  {
    if rs != [] { MaxVersionIs(v, rs[..|rs| - 1]); }
  }

  lemma {:induction false} AdoptMarks(log: seq<Entry>, staged: int, adopted: int, rs: seq<Rollout>)
    requires StagedIsLast(log, staged) && AdoptedIsMax(log, adopted)
    ensures StagedIsLast(log + Reports(rs), staged) && AdoptedIsMax(log + Reports(rs), MaxVersion(adopted, rs))
  {
    var b := log + Reports(rs);
    var v := MaxVersion(adopted, rs);
    MaxVersionIs(adopted, rs);
    if staged != -1 {
      var k :| 0 <= k < |log| && IsRound(log[k]) && RoundStep(log[k]) == staged;
      assert IsRound(b[k]) && RoundStep(b[k]) == staged;
    }
    forall k | 0 <= k < |b| && b[k].Reported? ensures b[k].version <= v {
      if k >= |log| { assert b[k] == Reported(rs[k - |log|].version); }
    }
    if v != adopted {
      var i :| 0 <= i < |rs| && rs[i].version == v;
      assert b[|log| + i] == Reported(v);
    } else if adopted != -1 { AdoptedExtends(log, b, adopted); }
  }

  lemma ReportsSpaced(a: seq<Entry>, rs: seq<Rollout>, coalesce: bool)
    requires Spaced(a, coalesce)
    ensures Spaced(a + Reports(rs), coalesce)
  {
    var b := a + Reports(rs);
    forall i, j | 0 <= i < j < |b| && IsRound(b[i]) && IsRound(b[j])
      ensures Halves(b, i, j) || Beyond(b, i, j, coalesce)
    {
      assert b[..j] == a[..j];
      assert Halves(a, i, j) || Beyond(a, i, j, coalesce);
    }
  }

  lemma AdoptRounds(s: State, rs: seq<Rollout>)
    requires Rounds(s)
    ensures Rounds(Adopt(s, rs))
  {
    hide Spaced, StagedIsLast, AdoptedIsMax, MaxVersion, Reports, CoalesceOn, NobodyRuns;
    AdoptMarks(s.log, s.weights.staged, s.weights.adopted, rs);
    ReportsSpaced(s.log, rs, CoalesceOn(s.cfg));
  }

  lemma {:induction false} PutAllRounds(s: State, rs: seq<Rollout>)
    requires Rounds(s)
    ensures Rounds(PutAll(s, rs))
    decreases rs
  {
    hide Rounds, CanDispatch, Dispatch, Enqueued;
    if rs != [] && CanPut(s) {
      var e := s.(queues := Enqueued(s.cfg, s.queues, rs[0]));
      GentleRounds(s, e);
      if CanDispatch(e) { DispatchRounds(e); }
      PutAllRounds(Put(s, rs[0]), rs[1..]);
    }
  }

  lemma PostRounds(s: State, p: Post)
    requires Rounds(s)
    ensures Rounds(PostRollouts(s, p).state)
  {
    hide Rounds, SettleDiscard, Settle, ReadCount, Accepted, MaxVersion, PutAll, Reports;
    var d := Intake(s, p);
    GentleRounds(s, d);
    if Closed(d.closing) { GentleRounds(d, PostRollouts(s, p).state); }
    else if ReadCount(p.rollouts, d.at.step) < |p.rollouts| {
      AdoptRounds(d, p.rollouts[..ReadCount(p.rollouts, d.at.step)]);
    } else {
      var a := Adopt(d, p.rollouts);
      AdoptRounds(d, p.rollouts);
      var good := Accepted(a, p.rollouts, 0);
      var f := Drop(a, |p.rollouts| - |good|);
      GentleRounds(a, f);
      PutAllRounds(f, good);
    }
  }

  lemma EndRounds(s: State, name: Name, rank: Option<int>, stays: bool)
    requires Rounds(s)
    ensures Rounds(RolloutEnd(s, name, rank, stays))
  {
    hide Rounds, EndReport, EndsReplica, FinishDraining;
    var t := s.(gens := EndReport(s.gens, name, rank, stays));
    GentleRounds(s, t);
    if EndsReplica(s.gens, name, rank) {
      DrainRounds(t);
      GentleRounds(FinishDraining(t), RolloutEnd(s, name, rank, stays));
    }
  }

  // ---- registration adds no round ------------------------------------------

  lemma RelaySteady(y: Sync, src: Name, dsts: seq<Name>, weightStep: Option<int>)
    requires Has(y.rollouts, src)
    ensures Steady(y.log, Relay(y, src, dsts, weightStep).log)
  {
  }

  lemma FirstUnicastSteady(y: Sync, src: Name, dst: Name)
    requires Has(y.rollouts, dst)
    ensures Steady(y.log, Unicast(y, src, dst, None).log)
  {
  }

  lemma FirstWeightsSteady(g: Gens, log: seq<Entry>, src: Name, step: int)
    ensures Steady(log, FirstWeights(g, log, src, step).log)
  {
    hide ByStart, Relay, Unicast;
    var order := ByStart(g.replicas);
    if order != [] {
      assert order[0] in order;
      var y := Sync(g.replicas, log);
      var up := Unicast(y, src, order[0], None);
      FirstUnicastSteady(y, src, order[0]);
      UnicastNames(y, src, order[0], None);
      RelaySteady(up, order[0], order, Some(step));
      SteadyTransitive(log, up.log, Relay(up, order[0], order, Some(step)).log);
    }
  }

  lemma UnicastNames(y: Sync, src: Name, dst: Name, weightStep: Option<int>)
    requires Has(y.rollouts, dst)
    ensures forall n :: Has(Unicast(y, src, dst, weightStep).rollouts, n) <==> Has(y.rollouts, n)
  {
  }

  lemma FirstPolicyGentle(s: State, name: Name)
    ensures Gentle(s, FirstPolicy(s, name))
  {
    hide FirstWeights, Serviced, Load;
    FirstPolicyFrame(s, name);
    var l := s.log + [Sent(name, WeightResume)];
    FirstWeightsSteady(s.gens, l, name, s.at.step);
    SteadyTransitive(s.log, l, FirstPolicy(s, name).log);
  }

  lemma MeshedSteady(a: seq<Entry>, b: seq<Entry>)
    requires Meshed(a, b)
    ensures Steady(a, b)
  {
  }

  lemma HookGentle(s: State, name: Name)
    ensures Gentle(s, PolicyHook(s, name).state)
  {
    hide RebuildPolicyMesh, Serviced, Meshed, Steady, FirstLoaded, ByStart, Load, Names;
    PolicyHookFrame(s, name);
    MeshedSteady(s.log, PolicyHook(s, name).state.log);
    RebuildFrame(s);
    RebuildFrame(s.(crew := s.crew.(initDone := true)));
  }

  lemma PolicyUpRounds(s: State, name: Name, now: int)
    requires Rounds(s)
    ensures Rounds(RegisterPolicy(s, name, now).state)
  {
    hide Rounds, FirstPolicy, PolicyHook, Has;
    if !Has(s.crew.replicas, name) {
      var a := AddPolicy(s, name, now);
      GentleRounds(s, a);
      if !(|a.crew.replicas| == 1 && a.crew.firstArrived) {
        var b := if |a.crew.replicas| == 1 then FirstPolicy(a, name) else a;
        FirstPolicyGentle(a, name);
        if |a.crew.replicas| == 1 { GentleRounds(a, b); }
        HookGentle(b, name);
        GentleRounds(b, PolicyHook(b, name).state);
        GentleRounds(PolicyHook(b, name).state, RegisterPolicy(s, name, now).state);
      }
    }
  }

  lemma PolicyDownGentle(s: State, name: Name)
    ensures Gentle(s, UnregisterPolicy(s, name).state)
  {
    hide RebuildPolicyMesh, Without, Get, Has, Serviced, Meshed;
    var t := s.(crew := s.crew.(replicas := Without(s.crew.replicas, name),
                                status := s.crew.status - {name}, left := s.crew.left + 1));
    RebuildFrame(t);
    MeshedSteady(t.log, RebuildPolicyMesh(t).log);
  }

  lemma RegisterRolloutSteady(s: State, name: Name, now: int, reporters: set<int>)
    ensures Steady(s.log, RegisterRollout(s, name, now, reporters).state.log)
  {
    hide FirstTransfer, SettleRolloutMesh;
    if !Has(s.gens.replicas, name) {
      var rs := s.gens.replicas + [Replica(name, now, false, -1, false, reporters)];
      var g := s.gens.(replicas := rs, nInit := if s.gens.initDone then s.gens.nInit else Max(s.gens.nInit, |rs|));
      assert rs[|s.gens.replicas|].name == name;
      var y := Sync(rs, s.log + [RolloutJoined(name)]);
      assert Steady(s.log, y.log);
      var z := FirstTransfer(y, s.crew, name);
      FirstTransferSteady(y, s.crew, name);
      SettleMeshSteady(g, z, s.at.step);
      SteadyTransitive(s.log, y.log, z.log);
      SteadyTransitive(s.log, z.log, SettleRolloutMesh(g, z, s.at.step).log);
    }
  }

  lemma FirstTransferSteady(y: Sync, crew: Crew, name: Name)
    requires Has(y.rollouts, name)
    ensures Steady(y.log, FirstTransfer(y, crew, name).log)
  {
    hide ByNameThenStart, Unicast, FirstLoaded;
    var src := FirstLoaded(crew.replicas, ByNameThenStart(crew.replicas));
    if src.Some? { FirstUnicastSteady(y, src.value, name); }
  }

  lemma SettleMeshSteady(g: Gens, y: Sync, step: int)
    ensures Steady(y.log, SettleRolloutMesh(g, y, step).log)
  {
    hide FirstLoaded, ByStart, Names, Rank, Relay;
    var built := RebuildRolloutMesh(y, y.rollouts);
    assert Steady(y.log, built.log);
    var src := FirstLoaded(built.rollouts, ByStart(built.rollouts));
    if src.Some? {
      RelaySteady(built, src.value, Names(built.rollouts), Some(step));
      SteadyTransitive(y.log, built.log, Relay(built, src.value, Names(built.rollouts), Some(step)).log);
    }
  }

  lemma OthersGentle(s: State, e: Event)
    requires e.Fetching? || e.RolloutUp? || e.RolloutDown? || e.Tick? || e.PolicyDown?
    ensures Gentle(s, Apply(s, e))
  {
    hide FetchTags, HardThrottled, RegisterRollout, UnregisterPolicy, ShouldStop, Names, Has, Serviced,
         Without, Get, SafeSurvivors, ByStart, Rank;
    match e
    case Fetching(_, _, _) =>
    case RolloutUp(name, now, rs) =>
      RegisterRolloutSteady(s, name, now, rs);
      if Has(s.gens.replicas, name) { RolloutKnown(s, name, now, rs); } else { RegisterRolloutFrame(s, name, now, rs); }
    case RolloutDown(name) =>
    case PolicyDown(name) => PolicyDownGentle(s, name);
    case Tick =>
  }

  lemma StepRounds(s: State, e: Event)
    requires Sound(s) && InStep(s) && Rounds(s) && Orderly(s, e)
    ensures Rounds(Apply(s, e))
  {
    hide Rounds, InStep, Sound, Orderly, Fetch, PostRollouts, RolloutEnd, TrainAck, RegisterPolicy, UnregisterPolicy,
         RegisterRollout, UnregisterRollout, MonitorTick;
    match e
    case Posting(p) => PostRounds(s, p);
    case Ending(name, rank, stays) => EndRounds(s, name, rank, stays);
    case Acking(name, step, total) => AckRounds(s, name, step, total);
    case PolicyUp(name, now) => PolicyUpRounds(s, name, now);
    case _ => OthersGentle(s, e); GentleRounds(s, Apply(s, e));
  }

  lemma {:induction false} RunRounds(s: State, es: seq<Event>)
    requires Sound(s) && InStep(s) && Rounds(s) && OrderlyRun(s, es)
    ensures Rounds(Run(s, es))
    decreases es
  {
    hide Apply, Sound, InStep, Orderly, Rounds;
    if es != [] {
      StepKept(s, es[0]);
      StepInStep(s, es[0]);
      StepRounds(s, es[0]);
      RunRounds(Apply(s, es[0]), es[1..]);
    }
  }

  lemma InitRounds(cfg: Config, np: nat, nr: nat, step: int, remain: int)
    requires step >= 0
    ensures var s := Init(cfg, np, nr, step, remain); Sound(s) && InStep(s) && Rounds(s)
  {
    assert Names(Init(cfg, np, nr, step, remain).crew.replicas) == [];
  }

  /** On every run with orderly acknowledgements, from a non-negative step: two round entries of
      the log are the two halves of one round, or the second belongs to a strictly larger step
      and, with coalescing, follows a report of the weights of the first. */
  lemma {:induction false} RoundsAreSpaced(cfg: Config, np: nat, nr: nat, step: int, remain: int, es: seq<Event>, i: nat, j: nat)
    requires step >= 0 && OrderlyRun(Init(cfg, np, nr, step, remain), es)
    requires var log := Run(Init(cfg, np, nr, step, remain), es).log;
             i < j < |log| && IsRound(log[i]) && IsRound(log[j])
    ensures var log := Run(Init(cfg, np, nr, step, remain), es).log;
            || Halves(log, i, j)
            || (&& RoundStep(log[i]) < RoundStep(log[j])
                && (CoalesceOn(cfg) ==>
                      exists m :: 0 <= m < j && log[m].Reported? && log[m].version >= RoundStep(log[i])))
  {
    hide Run, OrderlyRun, CoalesceOn, Halves;
    InitRounds(cfg, np, nr, step, remain);
    RunRounds(Init(cfg, np, nr, step, remain), es);
    ConfigKept(Init(cfg, np, nr, step, remain), es);
    var log := Run(Init(cfg, np, nr, step, remain), es).log;
    assert Spaced(log, CoalesceOn(cfg));
    if !Halves(log, i, j) && CoalesceOn(cfg) {
      var a := RoundStep(log[i]);
      assert Adopted(log[..j], a);
      var m :| 0 <= m < |log[..j]| && log[..j][m].Reported? && log[..j][m].version >= a;
      assert log[m] == log[..j][m];
    }
  }

  // ---- staging, event by event ---------------------------------------------

  /** `b` extends `a` without a round. */
  predicate NoRound(a: seq<Entry>, b: seq<Entry>) {
    |a| <= |b| && b[..|a|] == a && forall k :: |a| <= k < |b| ==> !IsRound(b[k])
  }

  /** Nothing but an acknowledgement publishes a round or stages a step. */
  lemma OthersStageNothing(s: State, e: Event)
    requires !e.Acking?
    ensures NoRound(s.log, Apply(s, e).log) && Apply(s, e).weights.staged == s.weights.staged
  {
    hide Fetch, PostRollouts, EndReport, EndsReplica, FinishDraining, RegisterPolicy, UnregisterPolicy,
         RegisterRollout, UnregisterRollout, MonitorTick, Gentle, Has;
    match e
    case Posting(p) => PostFrame(s, p);
    case Ending(name, rank, stays) =>
      DrainNoTransfer(s.(gens := EndReport(s.gens, name, rank, stays)));
    case PolicyUp(name, now) => PolicyUpSteady(s, name, now);
    case _ => OthersGentle(s, e); GentleParts(s, Apply(s, e));
  }

  lemma GentleParts(s: State, t: State)
    requires Gentle(s, t)
    ensures NoRound(s.log, t.log) && t.weights == s.weights
  {
  }

  lemma PolicyUpSteady(s: State, name: Name, now: int)
    ensures Steady(s.log, RegisterPolicy(s, name, now).state.log)
    ensures RegisterPolicy(s, name, now).state.weights == s.weights
  {
    hide FirstPolicy, PolicyHook, Has, NoStart;
    var a := AddPolicy(s, name, now);
    FirstPolicyGentle(a, name);
    var b := if |a.crew.replicas| == 1 then FirstPolicy(a, name) else a;
    HookGentle(b, name);
    assert Steady(s.log, a.log) && Steady(a.log, a.log);
    SteadyTransitive(s.log, a.log, b.log);
    SteadyTransitive(s.log, b.log, PolicyHook(b, name).state.log);
  }

  /** Either nothing is staged and no round published, or one round of the given step is, which
      coalescing allows only if the staged weights are in use. */
  predicate Staging(s: State, t: State, step: int) {
    || (t.weights.staged == s.weights.staged && NoRound(s.log, t.log))
    || (&& t.weights.staged == step && OneRound(s.log, t.log, step) && !s.closing.draining
        && (CoalesceOn(s.cfg) ==> s.weights.staged <= s.weights.adopted))
  }

  lemma SyncStages(s: State, step: int)
    requires !s.closing.draining
    ensures Staging(s, MaybeSync(s, step), step)
  {
    hide SafeTargets, Transfer, ByStart, OneRound;
    var to := SafeTargets(s.gens);
    if to != [] && s.crew.replicas != [] {
      assert to[0] in to;
      TransferIsOneRound(Sync(s.gens.replicas, s.log), ByStart(s.crew.replicas)[0], to, step);
    }
  }

  lemma ResumeStages(s: State, step: int)
    ensures Staging(s, Resume(s, step), step)
  {
    hide MaybeSync, SyncDue, SetAll, Names, OneRound;
    var b := s.(crew := s.crew.(status := SetAll(s.crew.status, Names(s.crew.replicas), Ready)));
    if SyncDue(s, step) { DueMeansOpen(s, step); SyncStages(b, step); }
  }

  /** The rounds that `t` adds to the log of `s` are of the given step, which is then staged;
      coalescing allows them only if the weights staged before are in use. */
  predicate StagedBy(s: State, t: State, step: int) {
    && |s.log| <= |t.log| && t.log[..|s.log|] == s.log
    && forall k :: |s.log| <= k < |t.log| && IsRound(t.log[k]) ==>
         && RoundStep(t.log[k]) == step == t.weights.staged && !s.closing.draining
         && (CoalesceOn(s.cfg) ==> s.weights.staged <= s.weights.adopted)
  }

  /** What comes before and after the staging of an event leaves rounds alone. */
  lemma StagingExtends(s: State, t: State, u: State, v: State, step: int)
    requires |t.log| == |s.log| + 1 && t.log[..|s.log|] == s.log && !IsRound(t.log[|s.log|])
    requires t.weights == s.weights && t.closing.draining == s.closing.draining && t.cfg == s.cfg
    requires Staging(t, u, step) && Steady(u.log, v.log) && v.weights == u.weights
    ensures StagedBy(s, v, step)
  {
    hide CoalesceOn;
    assert v.log[..|t.log|] == v.log[..|u.log|][..|t.log|] == t.log;
    assert v.log[..|s.log|] == v.log[..|t.log|][..|s.log|] == s.log;
    assert v.log[|s.log|] == v.log[..|t.log|][|s.log|] == t.log[|s.log|];
    forall k | |s.log| <= k < |v.log| && IsRound(v.log[k])
      ensures && RoundStep(v.log[k]) == step == v.weights.staged && !s.closing.draining
              && (CoalesceOn(s.cfg) ==> s.weights.staged <= s.weights.adopted)
    {
      if k < |u.log| { assert v.log[k] == v.log[..|u.log|][k] == u.log[k]; }
    }
  }

  lemma StepDoneStages(s: State, t: State, step: int, total: int)
    requires |t.log| == |s.log| + 1 && t.log[..|s.log|] == s.log && !IsRound(t.log[|s.log|])
    requires t.weights == s.weights && t.closing.draining == s.closing.draining && t.cfg == s.cfg
    ensures StagedBy(s, StepDone(t, step, total), step)
  {
    hide SettleStep, Resume, FinishDraining, CanDispatch, Dispatch, Staging, StagedBy, Steady, IsRound;
    var a := SettleStep(t, step, total);
    SettleStepFrame(t, step, total);
    var c := Resume(a, step);
    ResumeStages(a, step);
    StagingFrom(t, a, c, step);
    DrainSteady(c);
    DrainNoTransfer(c);
    StagingExtends(s, t, c, FinishDraining(c), step);
    StagingExtends(s, t, c, c, step);
    if CanDispatch(c) {
      DispatchFrame(c);
      WorkedSteady(c.log, Dispatch(c).log);
      StagingExtends(s, t, c, Dispatch(c), step);
    }
  }

  /** Whatever is acknowledged, the rounds it publishes are of the acknowledged step. */
  lemma AckStages(s: State, name: Name, step: int, total: int)
    ensures StagedBy(s, TrainAck(s, name, step, total).state, step)
  {
    hide StepDone, TakeRecord, AllIn, Has, CoalesceOn, Overdrawn;
    var t := s.(crew := SetStatus(s.crew, name, Reduced), log := s.log + [Acked(name, step, total)]);
    TakeRecordFrame(t, step);
    StepDoneStages(s, t, step, total);
  }

  lemma StagingFrom(s: State, t: State, u: State, step: int)
    requires Staging(t, u, step) && t.log == s.log && t.weights == s.weights && t.closing.draining == s.closing.draining
    requires t.cfg == s.cfg
    ensures Staging(s, u, step)
  {
  }

  /** An orderly acknowledgement of a step that is not staged yet. */
  lemma AckedStepIsNew(s: State, name: Name, step: int, total: int)
    requires InStep(s) && Rounds(s) && Orderly(s, Acking(name, step, total)) && Has(s.crew.replicas, name)
    requires Sound(s) && !s.closing.draining
    ensures step == s.at.step && s.weights.staged < step
  {
    hide Has, Pending, RealCommandsBounded, Distinct, AllBusy, Spaced, StagedIsLast, AdoptedIsMax, Outstanding;
    StatusOf(s.crew, name);
    RunningInitialised(s, name);
  }

  /** Every round that an event of an orderly run publishes is of the step just trained, which
      is beyond the staged one and every round before; with coalescing the staged weights
      have been reported in use. */
  lemma {:induction false} NewRoundsAreBeyond(cfg: Config, np: nat, nr: nat, step: int, remain: int, es: seq<Event>, e: Event, k: nat)
    requires step >= 0 && OrderlyRun(Init(cfg, np, nr, step, remain), es)
    requires var s := Run(Init(cfg, np, nr, step, remain), es);
             Orderly(s, e) && |s.log| <= k < |Apply(s, e).log| && IsRound(Apply(s, e).log[k])
    ensures var s := Run(Init(cfg, np, nr, step, remain), es);
            var t := Apply(s, e);
            && e.Acking? && RoundStep(t.log[k]) == s.at.step == t.weights.staged
            && RoundStep(t.log[k]) > s.weights.staged
            && (forall i :: 0 <= i < |s.log| && IsRound(s.log[i]) ==> RoundStep(s.log[i]) < RoundStep(t.log[k]))
            && (CoalesceOn(cfg) ==> s.weights.staged <= s.weights.adopted)
  {
    hide Run, OrderlyRun, CoalesceOn, TrainAck, InStep, Sound, Orderly, NoRound, Paced, AdoptedIsMax, Spaced;
    var s0 := Init(cfg, np, nr, step, remain);
    InitRounds(cfg, np, nr, step, remain);
    RunRounds(s0, es);
    RunInStep(s0, es);
    ConfigKept(s0, es);
    var s := Run(s0, es);
    if e.Acking? {
      AckStages(s, e.name, e.step, e.total);
      assert Has(s.crew.replicas, e.name) by { StrangerAck(s, e.name, e.step, e.total); }
      AckedStepIsNew(s, e.name, e.step, e.total);
    } else { OthersStageNothing(s, e); NoRoundAt(s.log, Apply(s, e).log, k); assert false; }
  }

  lemma StrangerAck(s: State, name: Name, step: int, total: int)
    ensures !Has(s.crew.replicas, name) ==> TrainAck(s, name, step, total) == Outcome(s, true)
  {
  }

  lemma NoRoundAt(a: seq<Entry>, b: seq<Entry>, k: nat)
    requires NoRound(a, b) && |a| <= k < |b|
    ensures !IsRound(b[k])
  {
  }

  // ---- skipped synchronisation points --------------------------------------

  /** Only an acknowledgement can skip. */
  lemma OnlyAcksSkip(s: State, e: Event)
    requires !e.Acking?
    ensures Apply(s, e).weights.skips == s.weights.skips
  {
    hide Fetch, PostRollouts, EndReport, EndsReplica, FinishDraining, FirstPolicy, PolicyHook, UnregisterPolicy,
         RegisterRollout, UnregisterRollout, MonitorTick, Gentle, Has;
    match e
    case Posting(p) => PostFrame(s, p);
    case Ending(name, rank, stays) => DrainNoTransfer(s.(gens := EndReport(s.gens, name, rank, stays)));
    case PolicyUp(name, now) => PolicyUpSteady(s, name, now);
    case _ => OthersGentle(s, e); GentleParts(s, Apply(s, e));
  }

  /** An acknowledgement that skips publishes no round, and one was staged and not adopted. */
  lemma AckSkips(s: State, name: Name, step: int, total: int)
    requires TrainAck(s, name, step, total).state.weights.skips != s.weights.skips
    ensures CoalesceOn(s.cfg) && s.weights.staged > s.weights.adopted
    ensures TrainAck(s, name, step, total).state.weights.staged == s.weights.staged
    ensures Steady(s.log, TrainAck(s, name, step, total).state.log)
  {
    hide FinishDraining, AllIn, SetAll, Names, SettleStep, Has, CanDispatch, Dispatch, SyncDue, WeightSync, Steady, SafeTargets;
    var t := s.(crew := SetStatus(s.crew, name, Reduced), log := s.log + [Acked(name, step, total)]);
    var a := SettleStep(t, step, total);
    SettleStepFrame(t, step, total);
    var c := Resume(a, step);
    DrainNoTransfer(c);
    if CanDispatch(c) { DispatchFrame(c); WorkedSteady(c.log, Dispatch(c).log); }
    SyncKeepsSkips(a.(crew := a.crew.(status := SetAll(a.crew.status, Names(a.crew.replicas), Ready))), step);
    assert Steady(s.log, t.log) by { AckSteady(s.log, name, step, total); }
    DrainSteady(c);
    SteadyTransitive(s.log, t.log, TrainAck(s, name, step, total).state.log);
  }

  lemma AckSteady(log: seq<Entry>, name: Name, step: int, total: int)
    ensures Steady(log, log + [Acked(name, step, total)])
  {
  }

  lemma SyncKeepsSkips(s: State, step: int)
    ensures WeightSync(s, step).weights.skips == s.weights.skips
  {
    hide SafeTargets, Transfer, ByStart;
  }

  lemma DrainSteady(s: State)
    ensures Steady(s.log, FinishDraining(s).log) && Steady(s.log, s.log)
  {
    hide FinishDraining;
    DrainFrame(s);
  }

  /** Every skipped synchronisation point of every orderly run had a round in flight: one
      published whose weights, or later ones, no posted rollout has shown yet.  Nothing is
      transferred at that point. */
  lemma {:induction false} SkipsHaveARoundInFlight(cfg: Config, np: nat, nr: nat, step: int, remain: int, es: seq<Event>, e: Event)
    requires step >= 0 && OrderlyRun(Init(cfg, np, nr, step, remain), es)
    requires var s := Run(Init(cfg, np, nr, step, remain), es); Apply(s, e).weights.skips != s.weights.skips
    ensures var s := Run(Init(cfg, np, nr, step, remain), es);
            && CoalesceOn(cfg)
            && (exists k :: 0 <= k < |s.log| && IsRound(s.log[k]) && !Adopted(s.log, RoundStep(s.log[k])))
            && Steady(s.log, Apply(s, e).log)
  {
    hide Run, OrderlyRun, CoalesceOn, TrainAck, Steady;
    InitRounds(cfg, np, nr, step, remain);
    RunRounds(Init(cfg, np, nr, step, remain), es);
    ConfigKept(Init(cfg, np, nr, step, remain), es);
    var s := Run(Init(cfg, np, nr, step, remain), es);
    if !e.Acking? { OnlyAcksSkip(s, e); } else {
      AckSkips(s, e.name, e.step, e.total);
      var k :| 0 <= k < |s.log| && IsRound(s.log[k]) && RoundStep(s.log[k]) == s.weights.staged;
      assert !Adopted(s.log, RoundStep(s.log[k]));
    }
  }
}
