/** The end-of-job signal to the rollouts: it is broadcast once, and after the job is
    complete nothing that a stopped rollout would miss is started. */
module Stopping {
  import opened Types
  import opened Fleet
  import opened Protocol
  import opened Logs
  import opened Runs
  import opened Shutdown
  import opened Lockstep
  import opened Completion
  import opened Coalescing
  import FullSync

  predicate IsStop(e: Entry) { e.Sent? && e.cmd.Stop? }

  /** `b` extends `a` without a STOP. */
  predicate NoStop(a: seq<Entry>, b: seq<Entry>) {
    |a| <= |b| && b[..|a|] == a && forall k :: |a| <= k < |b| ==> !IsStop(b[k])
  }

  lemma NoStopTransitive(a: seq<Entry>, b: seq<Entry>, c: seq<Entry>)
    requires NoStop(a, b) && NoStop(b, c)
    ensures NoStop(a, c)
  {
    assert c[..|a|] == c[..|b|][..|a|];
    forall k | |a| <= k < |c| ensures !IsStop(c[k]) {
      if k < |b| { assert c[k] == c[..|b|][k]; }
    }
  }

  lemma ServicedNoStop(a: seq<Entry>, b: seq<Entry>)
    requires Serviced(a, b)
    ensures NoStop(a, b)
  {
  }

  lemma WorkedNoStop(a: seq<Entry>, b: seq<Entry>)
    requires Worked(a, b)
    ensures NoStop(a, b)
  {
  }

  lemma NextNoStop(a: seq<Entry>, e: Entry)
    requires !IsStop(e)
    ensures NoStop(a, a) && NoStop(a, a + [e])
  {
  }

  /** Without a STOP, and without having sent one. */
  predicate Silent(s: State, t: State) { NoStop(s.log, t.log) && t.stopSent == s.stopSent }

  lemma AckSilent(s: State, name: Name, step: int, total: int)
    ensures Silent(s, TrainAck(s, name, step, total).state)
  {
    hide SettleStep, Resume, FinishDraining, CanDispatch, Dispatch, AllIn, Has, Worked, Serviced, NoStop;
    var t := s.(crew := SetStatus(s.crew, name, Reduced), log := s.log + [Acked(name, step, total)]);
    NextNoStop(s.log, Acked(name, step, total));
    var a := SettleStep(t, step, total);
    SettleStepFrame(t, step, total);
    var c := Resume(a, step);
    ResumeFrame(a, step);
    ServicedNoStop(a.log, c.log);
    NoStopTransitive(s.log, t.log, c.log);
    DrainFrame(c);
    WorkedNoStop(c.log, FinishDraining(c).log);
    NoStopTransitive(s.log, c.log, FinishDraining(c).log);
    if CanDispatch(c) {
      DispatchFrame(c);
      WorkedNoStop(c.log, Dispatch(c).log);
      NoStopTransitive(s.log, c.log, Dispatch(c).log);
    }
  }

  lemma PolicyUpSilent(s: State, name: Name, now: int)
    ensures Silent(s, RegisterPolicy(s, name, now).state)
  {
    hide FirstPolicy, PolicyHook, Has, Serviced, Meshed, NoStop;
    NextNoStop(s.log, PolicyJoined(name));
    var a := AddPolicy(s, name, now);
    FirstPolicyFrame(a, name);
    ServicedNoStop(a.log, FirstPolicy(a, name).log);
    NoStopTransitive(s.log, a.log, FirstPolicy(a, name).log);
    var b := if |a.crew.replicas| == 1 then FirstPolicy(a, name) else a;
    PolicyHookFrame(b, name);
    ServicedNoStop(b.log, PolicyHook(b, name).state.log);
    NoStopTransitive(s.log, b.log, PolicyHook(b, name).state.log);
  }

  lemma RolloutUpSilent(s: State, name: Name, now: int, rs: set<int>)
    ensures Silent(s, RegisterRollout(s, name, now, rs).state)
  {
    hide RegisterRollout, Has, Serviced, NoStop;
    NextNoStop(s.log, RolloutJoined(name));
    if Has(s.gens.replicas, name) { RolloutKnown(s, name, now, rs); }
    else {
      RegisterRolloutFrame(s, name, now, rs);
      var t := RegisterRollout(s, name, now, rs).state;
      ServicedNoStop(s.log + [RolloutJoined(name)], t.log);
      NoStopTransitive(s.log, s.log + [RolloutJoined(name)], t.log);
    }
  }

  lemma PolicyDownSilent(s: State, name: Name)
    ensures Silent(s, UnregisterPolicy(s, name).state)
  {
    hide RebuildPolicyMesh, Without, Get, Has, Serviced, Meshed;
    var t := s.(crew := s.crew.(replicas := Without(s.crew.replicas, name),
                                status := s.crew.status - {name}, left := s.crew.left + 1));
    RebuildFrame(t);
    ServicedNoStop(t.log, RebuildPolicyMesh(t).log);
  }

  /** Only the monitor sends STOP. */
  lemma OnlyTheMonitorStops(s: State, e: Event)
    requires !e.Tick?
    ensures Silent(s, Apply(s, e))
  {
    hide FetchTags, HardThrottled, PostRollouts, EndReport, EndsReplica, FinishDraining, TrainAck, RegisterPolicy,
         UnregisterPolicy, RegisterRollout, UnregisterRollout, Serviced;
    match e
    case Fetching(_, _, _) =>
    case Posting(p) => PostFrame(s, p);
    case Ending(name, rank, stays) => DrainFrame(s.(gens := EndReport(s.gens, name, rank, stays)));
    case Acking(name, step, total) => AckSilent(s, name, step, total);
    case PolicyUp(name, now) => PolicyUpSilent(s, name, now);
    case PolicyDown(name) => PolicyDownSilent(s, name);
    case RolloutUp(name, now, rs) => RolloutUpSilent(s, name, now, rs);
    case RolloutDown(name) => UnregisterRolloutFrame(s, name); ServicedNoStop(s.log, Apply(s, e).log);
  }

  predicate StopTracked(s: State) { !s.stopSent ==> forall k :: 0 <= k < |s.log| ==> !IsStop(s.log[k]) }

  lemma StepStopTracked(s: State, e: Event)
    requires StopTracked(s)
    ensures StopTracked(Apply(s, e))
    ensures s.stopSent ==> Silent(s, Apply(s, e))
  {
    hide Fetch, PostRollouts, RolloutEnd, TrainAck, RegisterPolicy, UnregisterPolicy, RegisterRollout, UnregisterRollout, Names;
    if !e.Tick? {
      OnlyTheMonitorStops(s, e);
      var t := Apply(s, e);
      forall k | 0 <= k < |t.log| && !t.stopSent ensures !IsStop(t.log[k]) {
        if k < |s.log| { assert t.log[k] == t.log[..|s.log|][k]; }
      }
    }
  }

  lemma {:induction false} RunStopTracked(s: State, es: seq<Event>)
    requires StopTracked(s)
    ensures StopTracked(Run(s, es)) && (s.stopSent ==> Silent(s, Run(s, es)))
    decreases es
  {
    hide Apply, StopTracked, NoStop;
    assert NoStop(s.log, s.log) by { NextNoStop(s.log, Reported(0)); }
    if es != [] {
      StepStopTracked(s, es[0]);
      RunStopTracked(Apply(s, es[0]), es[1..]);
      if s.stopSent { NoStopTransitive(s.log, Apply(s, es[0]).log, Run(s, es).log); }
    }
  }

  /** STOP is one-shot: on every run nothing is stopped before the flag is set, and once it is
      set no further STOP is ever published. */
  lemma {:induction false} StopIsSentOnce(cfg: Config, np: nat, nr: nat, step: int, remain: int, es: seq<Event>, more: seq<Event>)
    ensures var s := Run(Init(cfg, np, nr, step, remain), es);
            && (!s.stopSent ==> forall k :: 0 <= k < |s.log| ==> !IsStop(s.log[k]))
            && (s.stopSent ==> Run(s, more).stopSent && NoStop(s.log, Run(s, more).log))
  {
    hide Run, NoStop;
    RunStopTracked(Init(cfg, np, nr, step, remain), es);
    RunStopTracked(Run(Init(cfg, np, nr, step, remain), es), more);
  }

  // ---- after the job is complete -------------------------------------------

  /** A job that completed outside the draining phase has no replica at work. */
  predicate Quiescent(s: State) { s.closing.terminal && !s.closing.draining ==> NobodyRuns(s.crew.status) }

  lemma StepDoneQuiescent(s: State, step: int, total: int)
    requires Roster(s.crew)
    ensures Quiescent(StepDone(s, step, total))
  {
    hide SettleStep, Resume, FinishDraining, SetAll, Names, Roster, Serviced, Idle, Enough, RanksCovered, NobodyRuns;
    var a := SettleStep(s, step, total);
    SettleStepFrame(s, step, total);
    var c := Resume(a, step);
    ResumeFrame(a, step);
    ReadyNobodyRuns(a.crew);
    if c.closing.draining { DrainStaysDraining(c); }
    else if CanDispatch(c) { DispatchKeepsClosing(c); }
  }

  lemma AckQuiescent(s: State, name: Name, step: int, total: int)
    requires Sound(s) && InStep(s) && Quiescent(s) && Orderly(s, Acking(name, step, total))
    ensures Quiescent(TrainAck(s, name, step, total).state)
  {
    hide StepDone, Has, Outstanding, Pending, RealCommandsBounded, Distinct, AllBusy;
    if Has(s.crew.replicas, name) {
      StatusOf(s.crew, name);
      RunningInitialised(s, name);
      var t := s.(crew := SetStatus(s.crew, name, Reduced), log := s.log + [Acked(name, step, total)]);
      if !IsCompletionAck(s.closing, name, step) && AllIn(t.crew.status, {Reduced}) {
        assert Roster(t.crew);
        StepDoneQuiescent(t, step, total);
      }
    }
  }

  lemma EndQuiescent(s: State, name: Name, rank: Option<int>, stays: bool)
    requires Quiescent(s)
    ensures Quiescent(RolloutEnd(s, name, rank, stays))
  {
    hide EndReport, EndsReplica, FinishDraining;
    var t := s.(gens := EndReport(s.gens, name, rank, stays));
    if AllEnded(t.gens) { DrainDrains(t); } else { NotAllEnded(t); }
  }

  lemma PostQuiescent(s: State, p: Post)
    requires Quiescent(s)
    ensures Quiescent(PostRollouts(s, p).state)
  {
    hide SettleDiscard, Settle, ReadCount, Admit;
    AnyPostKeepsClosing(s, p);
  }

  lemma PolicyUpQuiescent(s: State, name: Name, now: int)
    requires Quiescent(s)
    ensures Quiescent(RegisterPolicy(s, name, now).state)
  {
    hide FirstPolicy, PolicyHook, Has, Steady;
    PolicyUpKeepsClosing(s, name, now);
    var a := AddPolicy(s, name, now);
    FirstPolicyGentle(a, name);
    HookGentle(if |a.crew.replicas| == 1 then FirstPolicy(a, name) else a, name);
  }

  lemma OthersQuiescent(s: State, e: Event)
    requires Quiescent(s) && (e.Fetching? || e.RolloutUp? || e.RolloutDown? || e.Tick? || e.PolicyDown?)
    ensures Quiescent(Apply(s, e))
  {
    hide Fetch, RegisterRollout, UnregisterRollout, UnregisterPolicy, ShouldStop, Steady, Names;
    OthersGentle(s, e);
    match e
    case PolicyDown(name) => PolicyDownKeepsClosing(s, name);
    case RolloutUp(name, now, rs) => RolloutUpKeepsClosing(s, name, now, rs);
    case RolloutDown(name) => UnregisterRolloutFrame(s, name);
    case Fetching(_, m, x) => FetchKeepsClosing(s, m, x);
    case Tick =>
  }

  lemma {:induction false} RunQuiescent(s: State, es: seq<Event>)
    requires Sound(s) && InStep(s) && Quiescent(s) && OrderlyRun(s, es)
    ensures var t := Run(s, es); Sound(t) && InStep(t) && Quiescent(t)
    decreases es
  {
    hide Sound, InStep, Quiescent, Orderly, Fetch, PostRollouts, RolloutEnd, TrainAck, RegisterPolicy, UnregisterPolicy,
         RegisterRollout, UnregisterRollout, MonitorTick;
    if es != [] {
      var e := es[0];
      StepKept(s, e);
      StepInStep(s, e);
      match e {
        case Posting(p) => PostQuiescent(s, p);
        case Ending(name, rank, stays) => EndQuiescent(s, name, rank, stays);
        case Acking(name, step, total) => AckQuiescent(s, name, step, total);
        case PolicyUp(name, now) => PolicyUpQuiescent(s, name, now);
        case _ => OthersQuiescent(s, e);
      }
      RunQuiescent(Apply(s, e), es[1..]);
    }
  }

  /** No training step and no weight round in the extension. */
  predicate NothingStarted(a: seq<Entry>, b: seq<Entry>) {
    NoNewStep(a, b) && forall k :: |a| <= k < |b| ==> !IsRound(b[k])
  }

  lemma AckStartsNoRound(s: State, name: Name, step: int, total: int)
    requires InStep(s) && Quiescent(s) && s.closing.terminal && Orderly(s, Acking(name, step, total))
    ensures NoTransfer(s.log, TrainAck(s, name, step, total).state.log)
  {
    hide Has, Outstanding, StepDone, Distinct, AllBusy;
    if s.closing.draining { DrainingStartsNoSync(s, name, step, total); }
    else {
      StatusOf(s.crew, name);
      if Has(s.crew.replicas, name) { RunningInitialised(s, name); assert false; }
    }
  }

  /** Once the job is complete, no event of an orderly run starts a training step or a weight
      round: STOP reaches rollouts that nothing is waiting for. */
  lemma {:induction false} CompleteMeansQuiet(cfg: Config, np: nat, nr: nat, step: int, remain: int, es: seq<Event>, e: Event)
    requires OrderlyRun(Init(cfg, np, nr, step, remain), es)
    requires var s := Run(Init(cfg, np, nr, step, remain), es); s.closing.terminal && Orderly(s, e)
    ensures var s := Run(Init(cfg, np, nr, step, remain), es); NothingStarted(s.log, Apply(s, e).log)
  {
    hide Run, OrderlyRun, Orderly, InStep, Fetch, PostRollouts, RolloutEnd, TrainAck, RegisterPolicy, UnregisterPolicy,
         RegisterRollout, UnregisterRollout, MonitorTick, Pending, RealCommandsBounded;
    var s0 := Init(cfg, np, nr, step, remain);
    assert InStep(s0) by { assert Names(s0.crew.replicas) == []; FreshInStep(s0); }
    InitSound(cfg, np, nr, step, remain);
    RunQuiescent(s0, es);
    var s := Run(s0, es);
    StepKept(s, e);
    match e
    case Posting(p) => PostFrame(s, p);
    case Ending(name, rank, stays) => EndWorked(s, name, rank, stays);
    case Acking(name, step, total) => AckStartsNoRound(s, name, step, total);
    case PolicyUp(name, now) => PolicyUpSteady(s, name, now);
    case _ => OthersGentle(s, e);
  }

  lemma FreshInStep(s: State)
    requires s.crew.replicas == [] && s.crew.status == map[] && s.ledger.dispatched == map[] && Names(s.crew.replicas) == []
    ensures InStep(s)
  {
  }

  lemma EndWorked(s: State, name: Name, rank: Option<int>, stays: bool)
    ensures Worked(s.log, RolloutEnd(s, name, rank, stays).log)
  {
    hide EndReport, EndsReplica, FinishDraining;
    DrainFrame(s.(gens := EndReport(s.gens, name, rank, stays)));
  }

  // ---- after STOP ----------------------------------------------------------

  /** Nobody can be given work: the crew is gone, or some replica never became ready. */
  predicate Grounded(crew: Crew) { crew.replicas == [] || !Idle(crew) }

  /** A crew left over or rebuilt after all weights were lost: nobody in it was ever ready. */
  ghost predicate Abandoned(crew: Crew) { FullSync.Barren(crew) && AllIn(crew.status, {Uninitialized}) }

  /** STOP was sent to a complete job or to one without a working crew. */
  ghost predicate Stopped(s: State) {
    && (s.crew.seen || s.crew.replicas != [] ==> s.crew.firstArrived)
    && (s.stopSent ==> s.closing.terminal || Abandoned(s.crew))
  }

  lemma AbandonedGrounded(crew: Crew)
    requires Abandoned(crew) && Roster(crew)
    ensures Grounded(crew)
  {
    hide Distinct;
    if crew.replicas != [] { assert Names(crew.replicas)[0] in NameSet(crew.replicas); }
  }

  lemma {:induction false} GroundedPuts(s: State, rs: seq<Rollout>)
    requires Grounded(s.crew)
    ensures PutAll(s, rs) == s.(queues := PutAll(s, rs).queues)
    decreases rs
  {
    hide Enqueued, Idle, Finished, Enough, RanksCovered;
    if rs != [] && CanPut(s) { GroundedPuts(Put(s, rs[0]), rs[1..]); }
  }

  lemma GroundedPost(s: State, p: Post)
    requires Grounded(s.crew)
    ensures PostRollouts(s, p).state.crew == s.crew && NoNewStep(s.log, PostRollouts(s, p).state.log)
  {
    hide SettleDiscard, Settle, ReadCount, Accepted, MaxVersion, PutAll, Grounded;
    var a := Adopt(Intake(s, p), p.rollouts);
    var good := Accepted(a, p.rollouts, 0);
    GroundedPuts(Drop(a, |p.rollouts| - |good|), good);
  }

  lemma GroundedDrain(s: State)
    requires Grounded(s.crew)
    ensures FinishDraining(s).crew == s.crew && FinishDraining(s).log == s.log
  {
    hide AllEnded, Idle, Settle, Pending, Emptied, RealTerminalAcked, Enough, RanksCovered, Finished;
  }

  lemma GroundedEnd(s: State, name: Name, rank: Option<int>, stays: bool)
    requires Grounded(s.crew)
    ensures RolloutEnd(s, name, rank, stays).crew == s.crew && RolloutEnd(s, name, rank, stays).log == s.log
  {
    hide EndReport, EndsReplica, FinishDraining, Grounded;
    GroundedDrain(s.(gens := EndReport(s.gens, name, rank, stays)));
  }

  /** An orderly replica that was never ready has nothing to acknowledge. */
  lemma AbandonedAck(s: State, name: Name, step: int, total: int)
    requires InStep(s) && Abandoned(s.crew) && Orderly(s, Acking(name, step, total))
    ensures TrainAck(s, name, step, total).state == s
  {
    hide Outstanding, Distinct, AllBusy, StepDone, FullSync.Barren;
    StatusOf(s.crew, name);
    if Has(s.crew.replicas, name) { RunningInitialised(s, name); assert false; }
  }

  lemma RegistrationStartsNoStep(s: State, e: Event)
    requires e.PolicyUp? || e.PolicyDown?
    ensures NoNewStep(s.log, Apply(s, e).log)
  {
    hide FirstPolicy, PolicyHook, RebuildPolicyMesh, Without, Get, Has, Serviced, Meshed, Finished;
    if e.PolicyUp? {
      var a := AddPolicy(s, e.name, e.now);
      FirstPolicyFrame(a, e.name);
      var b := if |a.crew.replicas| == 1 then FirstPolicy(a, e.name) else a;
      ServicedNoStep(a.log, FirstPolicy(a, e.name).log);
      PolicyHookFrame(b, e.name);
      ServicedNoStep(b.log, PolicyHook(b, e.name).state.log);
      NoNewStepTransitive(s.log, a.log, b.log);
      NoNewStepTransitive(s.log, b.log, PolicyHook(b, e.name).state.log);
    } else {
      var t := s.(crew := s.crew.(replicas := Without(s.crew.replicas, e.name),
                                  status := s.crew.status - {e.name}, left := s.crew.left + 1));
      RebuildFrame(t);
      ServicedNoStep(t.log, RebuildPolicyMesh(t).log);
    }
  }

  lemma NoNewStepTransitive(a: seq<Entry>, b: seq<Entry>, c: seq<Entry>)
    requires NoNewStep(a, b) && NoNewStep(b, c)
    ensures NoNewStep(a, c)
  {
    assert c[..|a|] == c[..|b|][..|a|];
    forall k | |a| <= k < |c| ensures !IsDataFetch(c[k]) {
      if k < |b| { assert c[k] == c[..|b|][k]; }
    }
  }

  /** One event leaves an abandoned crew abandoned and starts no training step. */
  lemma StepAbandoned(s: State, e: Event)
    requires InStep(s) && Abandoned(s.crew) && Orderly(s, e)
    ensures Abandoned(Apply(s, e).crew) && NoNewStep(s.log, Apply(s, e).log)
  {
    hide InStep, Orderly, Fetch, PostRollouts, RolloutEnd, TrainAck, RegisterPolicy, UnregisterPolicy, RegisterRollout,
         UnregisterRollout, MonitorTick, FullSync.Barren, Grounded, Has;
    assert Grounded(s.crew) by { assert Roster(s.crew) by { InStepRoster(s); } AbandonedGrounded(s.crew); }
    match e
    case Posting(p) => GroundedPost(s, p);
    case Ending(name, rank, stays) => GroundedEnd(s, name, rank, stays);
    case Acking(name, step, total) => AbandonedAck(s, name, step, total);
    case PolicyUp(name, now) => FullSync.BarrenUp(s, name, now); RegistrationStartsNoStep(s, e);
    case PolicyDown(name) => FullSync.BarrenDown(s, name); RegistrationStartsNoStep(s, e);
    case _ => QuietInert(s, e); OthersKeepCrew(s, e);
  }

  lemma InStepRoster(s: State)
    requires InStep(s)
    ensures Roster(s.crew)
  {
  }

  lemma OthersKeepCrew(s: State, e: Event)
    requires e.Fetching? || e.RolloutUp? || e.RolloutDown? || e.Tick?
    ensures Apply(s, e).crew == s.crew
  {
    hide Fetch, RegisterRollout, UnregisterRollout, ShouldStop, Names;
    match e
    case Fetching(_, m, x) => FetchCrew(s, m, x);
    case RolloutUp(name, now, rs) => RolloutUpCrew(s, name, now, rs);
    case RolloutDown(name) => UnregisterRolloutFrame(s, name);
    case Tick =>
  }

  /** Whoever was seen or is there came after a first policy replica. */
  lemma StepSeen(s: State, e: Event)
    requires s.crew.seen || s.crew.replicas != [] ==> s.crew.firstArrived
    ensures var c := Apply(s, e).crew; (c.seen || c.replicas != [] ==> c.firstArrived) && (s.crew.firstArrived ==> c.firstArrived)
  {
    hide Fetch, PostRollouts, RolloutEnd, TrainAck, UnregisterPolicy, RegisterRollout, UnregisterRollout, MonitorTick,
         FirstWeights, JoinPolicyMesh, InitPolicyMesh, Has;
    if e.PolicyUp? { UpSeen(s, e.name, e.now); }
    else if e.PolicyDown? { DownSeen(s, e.name); }
    else { OnlyRegistrationChangesCrew(s, e); }
  }

  lemma UpSeen(s: State, name: Name, now: int)
    requires s.crew.seen || s.crew.replicas != [] ==> s.crew.firstArrived
    ensures var c := RegisterPolicy(s, name, now).state.crew;
            (c.seen || c.replicas != [] ==> c.firstArrived) && (s.crew.firstArrived ==> c.firstArrived)
  {
    hide FirstWeights, FirstLoaded, RebuildPolicyMesh, ByStart, Load, SetAll, Names, Has;
    var a := AddPolicy(s, name, now);
    RebuildFrame(a);
    RebuildFrame(FirstPolicy(a, name));
    RebuildFrame(a.(crew := a.crew.(initDone := true)));
    RebuildFrame(FirstPolicy(a, name).(crew := FirstPolicy(a, name).crew.(initDone := true)));
  }

  lemma DownSeen(s: State, name: Name)
    requires s.crew.seen || s.crew.replicas != [] ==> s.crew.firstArrived
    ensures var c := UnregisterPolicy(s, name).state.crew;
            (c.seen || c.replicas != [] ==> c.firstArrived) && (s.crew.firstArrived ==> c.firstArrived)
  {
    hide RebuildPolicyMesh, Without, Get, Finished;
    RebuildFrame(s.(crew := s.crew.(replicas := Without(s.crew.replicas, name),
                                    status := s.crew.status - {name}, left := s.crew.left + 1)));
    if Has(s.crew.replicas, name) { FullSync.SomeoneThere(s.crew.replicas, name); }
  }

  /** The flag is set by the monitor alone, and then the job is complete or has no crew. */
  lemma StepStopped(s: State, e: Event)
    requires Sound(s) && InStep(s) && Stopped(s) && Orderly(s, e)
    ensures Stopped(Apply(s, e))
  {
    hide InStep, Sound, Orderly, Fetch, PostRollouts, RolloutEnd, TrainAck, RegisterPolicy, UnregisterPolicy,
         RegisterRollout, UnregisterRollout, MonitorTick, Abandoned;
    StepKept(s, e);
    StepSeen(s, e);
    if s.stopSent {
      if !s.closing.terminal { StepAbandoned(s, e); }
    } else if e.Tick? { TickStops(s); }
    else { OnlyTheMonitorStops(s, e); }
  }

  lemma TickStops(s: State)
    requires InStep(s) && Stopped(s) && !s.stopSent
    ensures Stopped(MonitorTick(s))
  {
    hide AllEnded, Finished, AllBusy;
    if s.crew.replicas == [] { assert Names(s.crew.replicas) == []; }
  }

  lemma {:induction false} RunStopped(s: State, es: seq<Event>)
    requires Sound(s) && InStep(s) && Stopped(s) && OrderlyRun(s, es)
    ensures Stopped(Run(s, es))
    decreases es
  {
    hide Apply, Sound, InStep, Orderly, Stopped;
    if es != [] {
      StepKept(s, es[0]);
      StepInStep(s, es[0]);
      StepStopped(s, es[0]);
      RunStopped(Apply(s, es[0]), es[1..]);
    }
  }

  /** STOP comes after all work: once it is sent, because the job is complete or because no policy
      replica is left, no event of an orderly run starts a training step or a weight round. */
  lemma {:induction false} StopComesLast(cfg: Config, np: nat, nr: nat, step: int, remain: int, es: seq<Event>, e: Event)
    requires OrderlyRun(Init(cfg, np, nr, step, remain), es)
    requires var s := Run(Init(cfg, np, nr, step, remain), es); s.stopSent && Orderly(s, e)
    ensures var s := Run(Init(cfg, np, nr, step, remain), es); NothingStarted(s.log, Apply(s, e).log)
  {
    hide Run, OrderlyRun, Orderly, InStep, Sound, Apply, Abandoned, NothingStarted, NoRound, NoNewStep;
    var s0 := Init(cfg, np, nr, step, remain);
    assert InStep(s0) by { assert Names(s0.crew.replicas) == []; FreshInStep(s0); }
    InitSound(cfg, np, nr, step, remain);
    RunStopped(s0, es);
    RunInStep(s0, es);
    var s := Run(s0, es);
    if s.closing.terminal { CompleteMeansQuiet(cfg, np, nr, step, remain, es, e); }
    else {
      StepAbandoned(s, e);
      AbandonedRounds(s, e);
      assert NothingStarted(s.log, Apply(s, e).log) by { StartedNothing(s.log, Apply(s, e).log); }
    }
  }

  lemma AbandonedRounds(s: State, e: Event)
    requires InStep(s) && Abandoned(s.crew) && Orderly(s, e)
    ensures NoRound(s.log, Apply(s, e).log)
  {
    hide InStep, Abandoned, Orderly, Fetch, PostRollouts, RolloutEnd, TrainAck, RegisterPolicy, UnregisterPolicy, RegisterRollout,
         UnregisterRollout, MonitorTick;
    if e.Acking? { AbandonedAck(s, e.name, e.step, e.total); } else { OthersStageNothing(s, e); }
  }

  lemma StartedNothing(a: seq<Entry>, b: seq<Entry>)
    requires NoNewStep(a, b) && NoRound(a, b)
    ensures NothingStarted(a, b)
  {
  }
}
