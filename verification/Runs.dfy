/** Runs of the controller: the events that reach it, the workers around it, and
    what the workers are assumed to do. */
module Runs {
  import opened Types
  import opened Fleet
  import opened Protocol
  import opened Logs

  /** One handler call or monitor tick.  A heartbeat reap is a `...Down` event. */
  datatype Event =
    | Fetching(n: nat, m: nat, exhausted: bool)  // a fetch of n obtains m prompts
    | Posting(post: Post)
    | Ending(name: Name, rank: Option<int>, stays: bool)
    | Acking(name: Name, step: int, total: int)
    | PolicyUp(name: Name, now: int)
    | PolicyDown(name: Name)
    | RolloutUp(name: Name, now: int, reporters: set<int>)
    | RolloutDown(name: Name)
    | Tick

  function Apply(s: State, e: Event): State {
    match e
    case Fetching(_, m, x) => Fetch(s, m, x).state
    case Posting(p) => PostRollouts(s, p).state
    case Ending(name, rank, stays) => RolloutEnd(s, name, rank, stays)
    case Acking(name, step, total) => TrainAck(s, name, step, total).state
    case PolicyUp(name, now) => RegisterPolicy(s, name, now).state
    case PolicyDown(name) => UnregisterPolicy(s, name).state
    case RolloutUp(name, now, rs) => RegisterRollout(s, name, now, rs).state
    case RolloutDown(name) => UnregisterRollout(s, name).state
    case Tick => MonitorTick(s)
  }

  function Run(s: State, es: seq<Event>): State
    decreases es
  {
    if es == [] then s else Run(Apply(s, es[0]), es[1..])
  }

  /** The configuration is the same at every point of a run. */
  lemma {:induction false} ConfigKept(s: State, es: seq<Event>)
    ensures Run(s, es).cfg == s.cfg
    decreases es
  {
    if es != [] {
      StepKeepsConfig(s, es[0]);
      ConfigKept(Apply(s, es[0]), es[1..]);
    }
  }

  lemma StepKeepsConfig(s: State, e: Event)
    ensures Apply(s, e).cfg == s.cfg
  {
    match e
    case Posting(p) => PostKeepsConfig(s, p);
    case Ending(name, rank, stays) => DrainKeepsConfig(s.(gens := EndReport(s.gens, name, rank, stays)));
    case Acking(name, step, total) => AckKeepsConfig(s, name, step, total);
    case PolicyUp(name, now) => PolicyUpKeepsConfig(s, name, now);
    case _ =>
  }

  lemma DrainKeepsConfig(s: State)
    ensures FinishDraining(s).cfg == s.cfg
  {
    hide CanDispatch, Idle, AllEnded, Settle, Pending, Taken, Feed, Names, Broadcast, SetAll;
  }

  lemma AckKeepsConfig(s: State, name: Name, step: int, total: int)
    ensures TrainAck(s, name, step, total).state.cfg == s.cfg
  {
    hide FinishDraining, CanDispatch, Dispatch, Resume, SettleStep, AllIn, Has, Serviced, Worked;
    var t := s.(crew := SetStatus(s.crew, name, Reduced), log := s.log + [Acked(name, step, total)]);
    var a := SettleStep(t, step, total);
    SettleStepFrame(t, step, total);
    ResumeFrame(a, step);
    var c := Resume(a, step);
    DrainFrame(c);
    if CanDispatch(c) { DispatchFrame(c); }
  }

  lemma PostKeepsConfig(s: State, p: Post)
    ensures PostRollouts(s, p).state.cfg == s.cfg
  {
    hide SettleDiscard, Settle, ReadCount, Accepted, MaxVersion, PutAll;
    var d := Intake(s, p);
    var a := Adopt(d, p.rollouts);
    PutAllKeepsConfig(Drop(a, |p.rollouts| - |Accepted(a, p.rollouts, 0)|), Accepted(a, p.rollouts, 0));
  }

  lemma {:induction false} PutAllKeepsConfig(s: State, rs: seq<Rollout>)
    ensures PutAll(s, rs).cfg == s.cfg
    decreases rs
  {
    hide CanDispatch, Taken, Feed, Names, Broadcast, SetAll;
    if rs != [] && CanPut(s) { PutAllKeepsConfig(Put(s, rs[0]), rs[1..]); }
  }

  lemma PolicyUpKeepsConfig(s: State, name: Name, now: int)
    ensures RegisterPolicy(s, name, now).state.cfg == s.cfg
  {
    hide FirstWeights, ByStart, FirstLoaded, Rank, Load, Broadcast, SetAll, Names, Rearranged, RecomputeTotal;
  }

  // ---- who changes the crew ------------------------------------------------

  lemma AckCrew(s: State, name: Name, step: int, total: int)
    ensures var t := TrainAck(s, name, step, total).state; t.crew == s.crew.(status := t.crew.status)
  {
    hide SettleStep, Resume, FinishDraining, CanDispatch, Dispatch, AllIn, Has, Worked, Serviced, SetAll, Names, Emptied;
    var t := s.(crew := SetStatus(s.crew, name, Reduced), log := s.log + [Acked(name, step, total)]);
    var a := SettleStep(t, step, total);
    SettleStepFrame(t, step, total);
    var c := Resume(a, step);
    ResumeFrame(a, step);
    DrainFrame(c);
    if CanDispatch(c) { DispatchFrame(c); }
  }

  lemma RolloutUpCrew(s: State, name: Name, now: int, rs: set<int>)
    ensures RegisterRollout(s, name, now, rs).state.crew == s.crew
  {
    hide FirstTransfer, SettleRolloutMesh, Serviced;
    if !Has(s.gens.replicas, name) { RegisterRolloutFrame(s, name, now, rs); }
  }

  lemma FetchCrew(s: State, m: nat, x: bool)
    ensures Fetch(s, m, x).state.crew == s.crew
  {
    hide FetchTags, HardThrottled;
  }

  /** Apart from the statuses only registration touches the crew. */
  lemma OnlyRegistrationChangesCrew(s: State, e: Event)
    requires !e.PolicyUp? && !e.PolicyDown?
    ensures Apply(s, e).crew == s.crew.(status := Apply(s, e).crew.status)
  {
    hide Fetch, PostRollouts, EndReport, EndsReplica, FinishDraining, TrainAck, RegisterRollout, UnregisterRollout,
         ShouldStop, Serviced, Worked, Posted;
    match e
    case Fetching(_, m, x) => FetchCrew(s, m, x);
    case Posting(p) => PostFrame(s, p);
    case Ending(name, rank, stays) => DrainFrame(s.(gens := EndReport(s.gens, name, rank, stays)));
    case Acking(name, step, total) => AckCrew(s, name, step, total);
    case RolloutUp(name, now, rs) => RolloutUpCrew(s, name, now, rs);
    case RolloutDown(name) => UnregisterRolloutFrame(s, name);
    case Tick =>
  }
}
