/** The end of the job: what draining freezes, what a synthetic completion
    freezes, and when the controller may call the job complete. */
module Shutdown {
  import opened Types
  import opened Fleet
  import opened Protocol
  import opened Logs
  import opened Runs
  import C = Conservation
  import Arith

  // ---- the horizon ---------------------------------------------------------

  /** The recomputed horizon is the last step that the remaining samples pay for and that
      max_num_steps allows. */
  lemma HorizonIsLast(cfg: Config, at: Progress, c: Closing, n: nat, k: int)
    requires !c.draining && !Finished(c, at) && n > 0
    ensures k <= RecomputeTotal(cfg, at, c, n) <==>
            cfg.batch * n * (k - at.step) <= at.remain && (cfg.maxSteps.Some? ==> k <= cfg.maxSteps.value)
  {
    hide Finished;
    var need, q := cfg.batch * n, at.remain / (cfg.batch * n);
    Arith.MulMonotone(n, 1, cfg.batch);
    Arith.DivBounds(at.remain, need);
    if k - at.step <= q { Arith.MulMonotone(need, k - at.step, q); }
    else { Arith.MulMonotone(need, q + 1, k - at.step); }
  }

  /** Entering the draining phase fixes the horizon at its value: whatever total_steps becomes
      afterwards, the horizon is the one from before. */
  lemma EnteringFixesHorizon(s: State, total: int)
    requires s.closing.draining <==> s.closing.frozen.Some?
    ensures var e := EnterDraining(s);
            e.closing.draining && Horizon(e.closing, e.at.(total := total)) == Horizon(s.closing, s.at)
  {
  }

  // ---- what never goes back ------------------------------------------------

  predicate IsDataFetch(e: Entry) { e.Sent? && e.cmd.DataFetch? }

  /** Every real command ever published belongs to a step already counted, and
      stays within its horizon when that horizon is positive. */
  predicate RealCommandsBounded(log: seq<Entry>, step: int) {
    forall k :: 0 <= k < |log| && IsDataFetch(log[k]) ==>
      log[k].cmd.step <= step && (log[k].cmd.total > 0 ==> log[k].cmd.step <= log[k].cmd.total)
  }

  predicate Sound(s: State) {
    && (s.closing.draining <==> s.closing.frozen.Some?)
    && (s.closing.synthetic.None? ==> s.closing.acks == {})
    && (s.closing.synthetic.Some? ==>
          && s.closing.draining
          && s.closing.synthetic.value == s.at.step + 1
          && s.closing.acks <= s.closing.recipients
          && Pending(s.cfg, s.queues) == 0)
    && RealCommandsBounded(s.log, s.at.step)
  }

  /** `b` extends `a` without a new real command. */
  predicate NoNewStep(a: seq<Entry>, b: seq<Entry>) {
    |a| <= |b| && b[..|a|] == a && forall k :: |a| <= k < |b| ==> !IsDataFetch(b[k])
  }

  /** Whether the step counter may still move. */
  predicate Stepping(s: State) { !Finished(s.closing, s.at) && !Closed(s.closing) }

  /** What never goes back, from `s` to any later state `t`. */
  predicate Later(s: State, t: State) {
    && (s.closing.terminal ==> t.closing.terminal)
    && (s.closing.draining ==> t.closing.draining && t.closing.frozen == s.closing.frozen)
    && (s.closing.synthetic.Some? ==>
          && t.closing.synthetic == s.closing.synthetic
          && t.closing.recipients == s.closing.recipients
          && s.closing.acks <= t.closing.acks)
    && s.at.step <= t.at.step
    && (!Stepping(s) ==> !Stepping(t) && t.at.step == s.at.step && NoNewStep(s.log, t.log))
    && (Finished(s.closing, s.at) ==> Finished(t.closing, t.at))
    && (s.closing.draining && Horizon(s.closing, s.at) > 0 ==> t.at.step <= Max(s.at.step, Horizon(s.closing, s.at)))
  }

  lemma LaterTransitive(s: State, t: State, u: State)
    requires Sound(s) && Later(s, t) && Later(t, u)
    ensures Later(s, u)
  {
    hide Finished, Closed;
    if !Stepping(s) {
      assert u.log[..|s.log|] == u.log[..|t.log|][..|s.log|];
      forall k | |s.log| <= k < |u.log| ensures !IsDataFetch(u.log[k]) {
        if k < |t.log| { assert u.log[k] == u.log[..|t.log|][k]; }
      }
    }
  }

  /** A change that touches neither the closing nor the step counter. */
  predicate Inert(s: State, t: State) {
    && t.cfg == s.cfg
    && t.closing == s.closing
    && t.at.step == s.at.step
    && (Finished(s.closing, s.at) && !s.closing.draining ==> t.at.total == s.at.total)
    && Pending(t.cfg, t.queues) <= Pending(s.cfg, s.queues)
    && NoNewStep(s.log, t.log)
  }

  lemma BoundedExtends(a: seq<Entry>, b: seq<Entry>, step: int)
    requires RealCommandsBounded(a, step) && NoNewStep(a, b)
    ensures RealCommandsBounded(b, step)
  {
    forall k | 0 <= k < |b| && IsDataFetch(b[k])
      ensures b[k].cmd.step <= step && (b[k].cmd.total > 0 ==> b[k].cmd.step <= b[k].cmd.total)
    {
      assert b[..|a|][k] == b[k];
    }
  }

  lemma InertKept(s: State, t: State)
    requires Sound(s) && Inert(s, t)
    ensures Sound(t) && Later(s, t)
  {
    hide Pending, NoNewStep, RealCommandsBounded;
    BoundedExtends(s.log, t.log, s.at.step);
  }

  lemma ServicedNoStep(a: seq<Entry>, b: seq<Entry>)
    requires Serviced(a, b)
    ensures NoNewStep(a, b)
  {
  }

  // ---- the transitions that matter -----------------------------------------

  lemma DispatchKept(s: State)
    requires Sound(s) && CanDispatch(s) && !Closed(s.closing)
    ensures Sound(Dispatch(s)) && Later(s, Dispatch(s))
  {
    hide Idle, Enough, RanksCovered, Taken, Feed, SetAll, Names, Broadcast, Pending;
    var t := Dispatch(s);
    var fed := Feed(s.cfg, s.queues, s.crew.replicas, s.at.step + 1);
    FeedNoStep(s);
    assert NoNewStep(s.log, s.log + fed);
    BoundedExtends(s.log, s.log + fed, s.at.step);
    BoundedBroadcast(s.log + fed, s.at.step, Names(s.crew.replicas),
                     DataFetch(s.cfg.batch, s.at.step + 1, Horizon(s.closing, s.at)));
  }

  lemma BoundedBroadcast(log: seq<Entry>, step: int, to: seq<Name>, cmd: Command)
    requires RealCommandsBounded(log, step)
    requires cmd.DataFetch? && cmd.step == step + 1 && (cmd.total > 0 ==> cmd.step <= cmd.total)
    ensures RealCommandsBounded(log + Broadcast(to, cmd), step + 1)
  {
  }

  lemma CleanupInert(s: State)
    ensures Inert(s, Cleanup(s))
    ensures Pending(s.cfg, Cleanup(s).queues) == 0
  {
    hide Settle;
    C.EmptiedLength(s.cfg, s.queues);
  }

  lemma CompleteKept(s: State)
    requires Sound(s) && s.closing.draining && !Closed(s.closing) && Pending(s.cfg, s.queues) == 0
    ensures Sound(TriggerComplete(s)) && Later(s, TriggerComplete(s))
  {
    hide SetAll, Names, Pending, RealCommandsBounded;
    var t := TriggerComplete(s);
    assert NoNewStep(s.log, t.log);
    BoundedExtends(s.log, t.log, s.at.step);
  }

  lemma ConcludeKept(s: State)
    requires Sound(s) && s.closing.draining && !Closed(s.closing)
    ensures Sound(Conclude(s)) && Later(s, Conclude(s))
  {
    hide Cleanup, TriggerComplete, Pending, RealCommandsBounded, RealTerminalAcked;
    var c := Cleanup(s);
    CleanupInert(s);
    InertKept(s, c);
    CompleteKept(c);
    LaterTransitive(s, c, Conclude(s));
  }

  lemma FinishDrainingKept(s: State)
    requires Sound(s)
    ensures Sound(FinishDraining(s)) && Later(s, FinishDraining(s))
  {
    hide Cleanup, Conclude, Dispatch, CanDispatch, Idle, AllEnded, Pending, RealCommandsBounded;
    if AllEnded(s.gens) {
      var e := EnterDraining(s);
      assert Sound(e) && Later(s, e);
      if Closed(e.closing) { CleanupInert(e); InertKept(e, Cleanup(e)); }
      else if Idle(e.crew) {
        if e.at.step < Horizon(e.closing, e.at) && CanDispatch(e) { DispatchKept(e); } else { ConcludeKept(e); }
      }
      LaterTransitive(s, e, Drain(e));
    }
  }

  lemma RecordRealKept(s: State, step: int, total: int)
    requires Sound(s)
    ensures Sound(RecordReal(s, step, total)) && Later(s, RecordReal(s, step, total))
  {
    hide Cleanup, Pending, RealCommandsBounded;
    var c := s.closing.(ackedStep := Some(step), ackedTotal := Some(total));
    if step == Horizon(c, s.at) && total == Horizon(c, s.at) {
      var t := s.(closing := c.(terminal := true));
      assert Sound(t) && Later(s, t);
      CleanupInert(t);
      InertKept(t, Cleanup(t));
      LaterTransitive(s, t, Cleanup(t));
    }
  }

  lemma SettleStepKept(s: State, step: int, total: int)
    requires Sound(s)
    ensures Sound(SettleStep(s, step, total)) && Later(s, SettleStep(s, step, total))
  {
    hide RecordReal, Pending, RealCommandsBounded;
    var d := s.ledger.dispatched;
    if step in d {
      var t := s.(ledger := s.ledger.(onTheFly := s.ledger.onTheFly - d[step], dispatched := d - {step}));
      InertKept(s, t);
      RecordRealKept(t, step, total);
      LaterTransitive(s, t, RecordReal(t, step, total));
    }
  }

  lemma StepDoneKept(s: State, step: int, total: int)
    requires Sound(s)
    ensures Sound(StepDone(s, step, total)) && Later(s, StepDone(s, step, total))
  {
    hide SettleStep, Resume, FinishDraining, CanDispatch, Dispatch, Pending, RealCommandsBounded;
    var a := SettleStep(s, step, total);
    SettleStepKept(s, step, total);
    var c := Resume(a, step);
    ResumeFrame(a, step);
    ServicedNoStep(a.log, c.log);
    InertKept(a, c);
    LaterTransitive(s, a, c);
    if c.closing.draining { FinishDrainingKept(c); }
    else if CanDispatch(c) { NotFinished(c); DispatchKept(c); }
    LaterTransitive(s, c, StepDone(s, step, total));
  }

  /** Outside the draining phase only a finished job is closed. */
  lemma NotFinished(s: State)
    requires Sound(s) && CanDispatch(s) && !s.closing.draining
    ensures !Closed(s.closing)
  {
  }

  lemma AckKept(s: State, name: Name, step: int, total: int)
    requires Sound(s)
    ensures Sound(TrainAck(s, name, step, total).state) && Later(s, TrainAck(s, name, step, total).state)
  {
    hide StepDone, Pending, AllIn;
    if Has(s.crew.replicas, name) {
      var t := s.(crew := SetStatus(s.crew, name, Reduced), log := s.log + [Acked(name, step, total)]);
      InertKept(s, t);
      if !IsCompletionAck(s.closing, name, step) && AllIn(t.crew.status, {Reduced}) {
        StepDoneKept(t, step, total);
        LaterTransitive(s, t, StepDone(t, step, total));
      }
    }
  }

  lemma DrainKeepsDraining(s: State)
    requires s.closing.draining
    ensures Drain(s).closing.draining
  {
    hide CanDispatch, Dispatch, Idle, Settle, Pending, Emptied, SetAll, Names, RealTerminalAcked;
    if CanDispatch(s) { DispatchKeepsClosing(s); }
  }

  lemma DrainStaysDraining(s: State)
    requires s.closing.draining
    ensures FinishDraining(s).closing.draining
  {
    hide CanDispatch, Dispatch, Idle, AllEnded, Settle, Pending, Emptied, SetAll, Names, RealTerminalAcked;
    if CanDispatch(s) { DispatchKeepsClosing(s); }
  }

  lemma DrainDrains(s: State)
    requires AllEnded(s.gens)
    ensures FinishDraining(s).closing.draining
  {
    hide Drain, AllEnded;
    var e := EnterDraining(s);
    DrainKeepsDraining(e);
  }

  lemma NotAllEnded(s: State)
    requires !AllEnded(s.gens)
    ensures FinishDraining(s) == s
  {
  }

  lemma PutKept(s: State, r: Rollout)
    requires Sound(s) && CanPut(s) && !Closed(s.closing)
    ensures Sound(Put(s, r)) && Later(s, Put(s, r)) && !Closed(Put(s, r).closing)
  {
    hide CanDispatch, Dispatch, RealCommandsBounded;
    var e := s.(queues := Enqueued(s.cfg, s.queues, r));
    assert Sound(e) && Later(s, e);
    if CanDispatch(e) {
      DispatchKept(e);
      DispatchKeepsClosing(e);
      LaterTransitive(s, e, Dispatch(e));
    }
  }

  lemma DispatchKeepsClosing(s: State)
    requires CanDispatch(s)
    ensures Dispatch(s).closing == s.closing
  {
    hide CanDispatch, Taken, Feed, SetAll, Names, Broadcast;
  }

  lemma {:induction false} PutAllKept(s: State, rs: seq<Rollout>)
    requires Sound(s) && !Closed(s.closing)
    ensures Sound(PutAll(s, rs)) && Later(s, PutAll(s, rs))
    decreases rs
  {
    hide Put, RealCommandsBounded;
    if rs != [] && CanPut(s) {
      PutKept(s, rs[0]);
      PutAllKept(Put(s, rs[0]), rs[1..]);
      LaterTransitive(s, Put(s, rs[0]), PutAll(s, rs));
    }
  }

  lemma AdmitKept(s: State, rs: seq<Rollout>)
    requires Sound(s) && !Closed(s.closing)
    ensures Sound(Admit(s, rs).state) && Later(s, Admit(s, rs).state)
  {
    hide MaxVersion, Accepted, PutAll, Settle, Pending, RealCommandsBounded;
    var a := Adopt(s, rs);
    var good := Accepted(a, rs, 0);
    var f := Drop(a, |rs| - |good|);
    InertKept(s, f);
    PutAllKept(f, good);
    LaterTransitive(s, f, PutAll(f, good));
  }

  lemma PostKept(s: State, p: Post)
    requires Sound(s)
    ensures Sound(PostRollouts(s, p).state) && Later(s, PostRollouts(s, p).state)
  {
    hide SettleDiscard, Settle, ReadCount, Admit, Pending, MaxVersion, RealCommandsBounded;
    var d := Intake(s, p);
    InertKept(s, d);
    if Closed(d.closing) || ReadCount(p.rollouts, d.at.step) < |p.rollouts| {
      InertKept(d, PostRollouts(s, p).state);
    } else {
      AdmitKept(d, p.rollouts);
    }
    LaterTransitive(s, d, PostRollouts(s, p).state);
  }

  lemma EndKept(s: State, name: Name, rank: Option<int>, stays: bool)
    requires Sound(s)
    ensures Sound(RolloutEnd(s, name, rank, stays)) && Later(s, RolloutEnd(s, name, rank, stays))
  {
    hide EndReport, EndsReplica, FinishDraining, Pending, RealCommandsBounded;
    var t := s.(gens := EndReport(s.gens, name, rank, stays));
    InertKept(s, t);
    if EndsReplica(s.gens, name, rank) {
      var u := FinishDraining(t);
      FinishDrainingKept(t);
      LaterTransitive(s, t, u);
      InertKept(u, RolloutEnd(s, name, rank, stays));
      LaterTransitive(s, u, RolloutEnd(s, name, rank, stays));
    }
  }

  lemma RebuildInert(s: State)
    ensures Inert(s, RebuildPolicyMesh(s))
  {
    hide ByStart, Rank, Rearranged, Serviced;
    RebuildFrame(s);
    ServicedNoStep(s.log, RebuildPolicyMesh(s).log);
    C.RearrangedLength(s.cfg, s.queues, |s.crew.replicas|);
  }

  lemma HookInert(s: State, name: Name)
    ensures Inert(s, PolicyHook(s, name).state)
  {
    hide RebuildPolicyMesh, Serviced, FirstLoaded, ByStart, Load, Names, SetAll, Pending;
    PolicyHookFrame(s, name);
    ServicedNoStep(s.log, PolicyHook(s, name).state.log);
    RebuildInert(s);
    RebuildInert(s.(crew := s.crew.(initDone := true)));
  }

  lemma PolicyUpKept(s: State, name: Name, now: int)
    requires Sound(s)
    ensures Sound(RegisterPolicy(s, name, now).state) && Later(s, RegisterPolicy(s, name, now).state)
  {
    hide FirstPolicy, PolicyHook, Pending, RealCommandsBounded;
    var a := AddPolicy(s, name, now);
    InertKept(s, a);
    if !Has(s.crew.replicas, name) && !(|a.crew.replicas| == 1 && a.crew.firstArrived) {
      var b := if |a.crew.replicas| == 1 then FirstPolicy(a, name) else a;
      FirstPolicyFrame(a, name);
      ServicedNoStep(a.log, FirstPolicy(a, name).log);
      InertKept(a, b);
      LaterTransitive(s, a, b);
      HookInert(b, name);
      InertKept(b, RegisterPolicy(s, name, now).state);
      LaterTransitive(s, b, RegisterPolicy(s, name, now).state);
    }
  }

  lemma PolicyDownKept(s: State, name: Name)
    requires Sound(s)
    ensures Sound(UnregisterPolicy(s, name).state) && Later(s, UnregisterPolicy(s, name).state)
  {
    hide RebuildPolicyMesh, Without, Get, Pending, RealCommandsBounded;
    if Has(s.crew.replicas, name) {
      var t := s.(crew := s.crew.(replicas := Without(s.crew.replicas, name),
                                  status := s.crew.status - {name}, left := s.crew.left + 1));
      InertKept(s, t);
      RebuildInert(t);
      InertKept(t, RebuildPolicyMesh(t));
      LaterTransitive(s, t, RebuildPolicyMesh(t));
    }
  }

  lemma RolloutUpInert(s: State, name: Name, now: int, rs: set<int>)
    ensures Inert(s, RegisterRollout(s, name, now, rs).state)
  {
    hide FirstTransfer, SettleRolloutMesh, Pending;
    if !Has(s.gens.replicas, name) {
      RegisterRolloutFrame(s, name, now, rs);
      var t := RegisterRollout(s, name, now, rs).state;
      var j := s.log + [RolloutJoined(name)];
      assert t.log[..|s.log|] == t.log[..|j|][..|s.log|];
      assert t.log[|s.log|] == t.log[..|j|][|s.log|] == RolloutJoined(name);
    }
  }

  lemma QuietInert(s: State, e: Event)
    requires e.Fetching? || e.RolloutUp? || e.RolloutDown? || e.Tick?
    ensures Inert(s, Apply(s, e))
  {
    hide Pending, FetchTags, HardThrottled, RegisterRollout, UnregisterRollout, ShouldStop, Names;
    match e
    case Fetching(_, _, _) =>
    case RolloutUp(name, now, rs) => RolloutUpInert(s, name, now, rs);
    case RolloutDown(name) => UnregisterRolloutFrame(s, name); ServicedNoStep(s.log, Apply(s, e).log);
    case Tick =>
  }

  lemma StepKept(s: State, e: Event)
    requires Sound(s)
    ensures Sound(Apply(s, e)) && Later(s, Apply(s, e))
  {
    hide Fetch, PostRollouts, RolloutEnd, TrainAck, RegisterPolicy, UnregisterPolicy, RegisterRollout,
         UnregisterRollout, MonitorTick;
    match e
    case Posting(p) => PostKept(s, p);
    case Ending(name, rank, stays) => EndKept(s, name, rank, stays);
    case Acking(name, step, total) => AckKept(s, name, step, total);
    case PolicyUp(name, now) => PolicyUpKept(s, name, now);
    case PolicyDown(name) => PolicyDownKept(s, name);
    case _ => QuietInert(s, e); InertKept(s, Apply(s, e));
  }

  lemma {:induction false} RunKept(s: State, es: seq<Event>)
    requires Sound(s)
    ensures Sound(Run(s, es)) && Later(s, Run(s, es))
    decreases es
  {
    hide Apply;
    if es == [] { InertKept(s, s); }
    else {
      StepKept(s, es[0]);
      RunKept(Apply(s, es[0]), es[1..]);
      LaterTransitive(s, Apply(s, es[0]), Run(s, es));
    }
  }
}
