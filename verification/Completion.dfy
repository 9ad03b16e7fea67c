/** Results about the end of the job, on every run. */
module Completion {
  import opened Types
  import opened Fleet
  import opened Protocol
  import opened Logs
  import opened Runs
  import opened Shutdown
  import opened Lockstep

  lemma InitSound(cfg: Config, np: nat, nr: nat, step: int, remain: int)
    ensures Sound(Init(cfg, np, nr, step, remain))
  {
  }

  /** Once a synthetic completion is published the step counter is frozen, the
      buffer is and stays empty, no real command is published, no published real
      command carries the synthetic step, and completion is never taken back. */
  lemma {:induction false} CompletionFreezes(cfg: Config, np: nat, nr: nat, step: int, remain: int, es: seq<Event>, more: seq<Event>)
    ensures var s := Run(Init(cfg, np, nr, step, remain), es);
            var t := Run(s, more);
            && (s.closing.terminal ==> t.closing.terminal)
            && (s.closing.synthetic.Some? ==>
                  && t.closing.synthetic == s.closing.synthetic
                  && t.closing.recipients == s.closing.recipients
                  && t.at.step == s.at.step
                  && Pending(t.cfg, t.queues) == 0
                  && NoNewStep(s.log, t.log)
                  && forall k :: 0 <= k < |t.log| && IsDataFetch(t.log[k]) ==>
                       t.log[k].cmd.step < t.closing.synthetic.value)
  {
    hide Run;
    InitSound(cfg, np, nr, step, remain);
    RunKept(Init(cfg, np, nr, step, remain), es);
    var s := Run(Init(cfg, np, nr, step, remain), es);
    RunKept(s, more);
  }

  /** Hence the acknowledgement of a real command is never taken for a completion one. */
  lemma RealAckIsNotCompletion(s: State, k: nat, name: Name)
    requires Sound(s) && k < |s.log| && IsDataFetch(s.log[k])
    ensures !IsCompletionAck(s.closing, name, s.log[k].cmd.step)
  {
  }

  /** Draining: the horizon is frozen for good and, when it is positive, bounds the step
      counter; real commands stay within positive horizons on every run. */
  lemma {:induction false} DrainingFreezes(cfg: Config, np: nat, nr: nat, step: int, remain: int, es: seq<Event>, more: seq<Event>)
    ensures var s := Run(Init(cfg, np, nr, step, remain), es);
            var t := Run(s, more);
            && (s.closing.draining ==>
                  && t.closing.draining
                  && Horizon(t.closing, t.at) == Horizon(s.closing, s.at)
                  && (Horizon(s.closing, s.at) > 0 ==>
                        t.at.step - s.at.step <= Max(0, Horizon(s.closing, s.at) - s.at.step)))
            && forall k :: 0 <= k < |t.log| && IsDataFetch(t.log[k]) && t.log[k].cmd.total > 0 ==>
                 t.log[k].cmd.step <= t.log[k].cmd.total
  {
    hide Run;
    InitSound(cfg, np, nr, step, remain);
    RunKept(Init(cfg, np, nr, step, remain), es);
    var s := Run(Init(cfg, np, nr, step, remain), es);
    RunKept(s, more);
  }

  /** Training that is finished stays finished: the early exit of unregister is safe. */
  lemma {:induction false} FinishedForever(cfg: Config, np: nat, nr: nat, step: int, remain: int, es: seq<Event>, more: seq<Event>)
    ensures var s := Run(Init(cfg, np, nr, step, remain), es);
            var t := Run(s, more);
            Finished(s.closing, s.at) ==> Finished(t.closing, t.at) && t.at.step == s.at.step
  {
    hide Run;
    InitSound(cfg, np, nr, step, remain);
    RunKept(Init(cfg, np, nr, step, remain), es);
    RunKept(Run(Init(cfg, np, nr, step, remain), es), more);
  }

  /** A draining controller that all rollouts have left and whose replicas are idle
      either dispatches a step within the horizon or decides: the remaining steps
      are a measure of what is left to do. */
  lemma DrainingDecides(s: State)
    requires Sound(s) && s.closing.draining && AllEnded(s.gens) && Idle(s.crew) && s.crew.replicas != []
    requires !Closed(s.closing)
    ensures var t := FinishDraining(s);
            Closed(t.closing) || (t.at.step == s.at.step + 1 && t.at.step <= Horizon(s.closing, s.at))
  {
    hide CanDispatch, Idle, AllEnded, Settle, Pending, Taken, Feed, SetAll, Names, Broadcast;
  }

  // ---- no weight sync while draining ---------------------------------------

  predicate IsTransfer(e: Entry) { e.Sent? && (e.cmd.PolicyToRollout? || e.cmd.RolloutToRollout?) }

  predicate NoTransfer(a: seq<Entry>, b: seq<Entry>) {
    |a| <= |b| && b[..|a|] == a && forall k :: |a| <= k < |b| ==> !IsTransfer(b[k])
  }

  lemma DrainNoTransfer(s: State)
    ensures NoTransfer(s.log, FinishDraining(s).log) && FinishDraining(s).weights == s.weights
  {
    hide FinishDraining;
    DrainFrame(s);
  }

  /** An acknowledgement that arrives in the draining phase starts no weight transfer. */
  lemma DrainingStartsNoSync(s: State, name: Name, step: int, total: int)
    requires s.closing.draining
    ensures var t := TrainAck(s, name, step, total).state;
            NoTransfer(s.log, t.log) && t.weights == s.weights
  {
    hide FinishDraining, AllIn, SetAll, Names, MaybeSync, SettleStep, Has;
    var t := s.(crew := SetStatus(s.crew, name, Reduced), log := s.log + [Acked(name, step, total)]);
    SettleStepFrame(t, step, total);
    var c := Resume(SettleStep(t, step, total), step);
    assert c.log == t.log && c.weights == t.weights && c.closing.draining;
    DrainNoTransfer(c);
    var u := FinishDraining(c);
    assert u.log[..|s.log|] == u.log[..|t.log|][..|s.log|];
    assert u.log[|s.log|] == u.log[..|t.log|][|s.log|];
  }

  // ---- when the synthetic completion is complete ---------------------------

  /** Completion is declared exactly when the whole recipient snapshot has acknowledged. */
  predicate SnapshotDecides(c: Closing) {
    c.synthetic.Some? ==> (c.terminal <==> c.acks == c.recipients)
  }

  /** A further acknowledgement of the final real step whose dispatch record was never settled
      and is covered by the in-flight count. */
  predicate LateFinalAck(s: State, name: Name, step: int, total: int) {
    && Has(s.crew.replicas, name)
    && !IsCompletionAck(s.closing, name, step)
    && AllIn(s.crew.status[name := Reduced], {Reduced})
    && step == total == Horizon(s.closing, s.at)
    && 0 < RecordOf(s.ledger, step) <= s.ledger.onTheFly
  }

  /** Whether an acknowledgement completes the snapshot. */
  predicate LastSnapshotAck(s: State, name: Name, step: int) {
    && Has(s.crew.replicas, name)
    && IsCompletionAck(s.closing, name, step)
    && name !in s.closing.acks && s.closing.acks + {name} == s.closing.recipients
  }

  lemma DrainClosed(s: State)
    requires s.closing.synthetic.Some? && s.closing.draining
    ensures FinishDraining(s).closing == s.closing
    ensures FinishDraining(s).ledger.dispatched == s.ledger.dispatched
  {
    hide AllEnded, Pending, Emptied;
  }

  /** The completion command starts with no acknowledgement. */
  lemma CompletionStartsUnacknowledged(s: State)
    requires !s.closing.synthetic.Some? && !s.closing.terminal && TriggerComplete(s).closing.synthetic.Some?
    ensures var c := TriggerComplete(s).closing; c.acks == {} && c.recipients != {} && SnapshotDecides(c)
  {
    assert Names(s.crew.replicas)[0] in Names(s.crew.replicas);
  }

  /** After the completion command exactly two acknowledgements end the job: the last one
      of the snapshot, and a late one for a final real step that is still on record. */
  lemma AckEndsJobIff(s: State, name: Name, step: int, total: int)
    requires Sound(s) && s.closing.synthetic.Some? && !s.closing.terminal
    ensures var t := TrainAck(s, name, step, total).state;
            && (t.closing.terminal <==> LastSnapshotAck(s, name, step) || LateFinalAck(s, name, step, total))
            && (LastSnapshotAck(s, name, step) ==> t.closing.acks == t.closing.recipients)
            && (LateFinalAck(s, name, step, total) ==> t.closing.acks == s.closing.acks)
  {
    hide FinishDraining, AllIn, SetAll, Names, MaybeSync, SettleStep, Pending, RealCommandsBounded, Has;
    var t := s.(crew := SetStatus(s.crew, name, Reduced), log := s.log + [Acked(name, step, total)]);
    SettleStepFrame(t, step, total);
    DrainClosed(Resume(SettleStep(t, step, total), step));
  }

  /** Nothing but an acknowledgement changes the closing once the completion is published. */
  lemma OthersKeepClosing(s: State, e: Event)
    requires Sound(s) && s.closing.synthetic.Some? && !e.Acking?
    ensures Apply(s, e).closing == s.closing
    ensures Apply(s, e).ledger.dispatched == s.ledger.dispatched
  {
    hide Pending, RealCommandsBounded, Fetch, PostRollouts, RolloutEnd, RegisterPolicy, UnregisterPolicy,
         RegisterRollout, UnregisterRollout, ShouldStop;
    match e
    case Posting(p) => PostKeepsClosing(s, p);
    case Ending(name, rank, stays) => EndKeepsClosing(s, name, rank, stays);
    case PolicyUp(name, now) => PolicyUpKeepsClosing(s, name, now);
    case PolicyDown(name) => PolicyDownKeepsClosing(s, name);
    case RolloutUp(name, now, rs) => RolloutUpKeepsClosing(s, name, now, rs);
    case RolloutDown(name) => UnregisterRolloutFrame(s, name);
    case Fetching(_, m, x) => FetchKeepsClosing(s, m, x);
    case Tick =>
  }

  lemma EndKeepsClosing(s: State, name: Name, rank: Option<int>, stays: bool)
    requires s.closing.synthetic.Some? && s.closing.draining
    ensures var t := RolloutEnd(s, name, rank, stays);
            t.closing == s.closing && t.ledger.dispatched == s.ledger.dispatched
  {
    hide EndReport, EndsReplica, FinishDraining;
    DrainClosed(s.(gens := EndReport(s.gens, name, rank, stays)));
  }

  lemma PolicyUpKeepsClosing(s: State, name: Name, now: int)
    ensures var t := RegisterPolicy(s, name, now).state;
            t.closing == s.closing && t.ledger == s.ledger
  {
    hide FirstPolicy, PolicyHook, Serviced, Has;
    var a := AddPolicy(s, name, now);
    FirstPolicyFrame(a, name);
    PolicyHookFrame(a, name);
    PolicyHookFrame(FirstPolicy(a, name), name);
  }

  lemma PolicyDownKeepsClosing(s: State, name: Name)
    ensures var t := UnregisterPolicy(s, name).state;
            t.closing == s.closing && t.ledger == s.ledger
  {
    hide RebuildPolicyMesh, Without, Get, Serviced;
    RebuildFrame(s.(crew := s.crew.(replicas := Without(s.crew.replicas, name),
                                    status := s.crew.status - {name}, left := s.crew.left + 1)));
  }

  lemma RolloutUpKeepsClosing(s: State, name: Name, now: int, rs: set<int>)
    ensures var t := RegisterRollout(s, name, now, rs).state;
            t.closing == s.closing && t.ledger == s.ledger
  {
    hide FirstTransfer, SettleRolloutMesh, Serviced;
    if !Has(s.gens.replicas, name) { RegisterRolloutFrame(s, name, now, rs); }
  }

  lemma FetchKeepsClosing(s: State, m: nat, x: bool)
    ensures var t := Fetch(s, m, x).state;
            t.closing == s.closing && t.ledger.dispatched == s.ledger.dispatched
  {
    hide FetchTags, HardThrottled;
  }

  lemma PostKeepsClosing(s: State, p: Post)
    requires Closed(s.closing)
    ensures PostRollouts(s, p).state.closing == s.closing
    ensures PostRollouts(s, p).state.ledger.dispatched == s.ledger.dispatched
  {
    hide Admit, ReadCount;
  }

  /** One event keeps the snapshot the judge unless it is a late final acknowledgement. */
  lemma StepKeepsSnapshot(s: State, e: Event)
    requires Sound(s) && s.closing.synthetic.Some? && SnapshotDecides(s.closing)
    requires Horizon(s.closing, s.at) !in s.ledger.dispatched
    ensures var t := Apply(s, e);
            SnapshotDecides(t.closing) && Horizon(t.closing, t.at) !in t.ledger.dispatched
  {
    hide TrainAck, Fetch, PostRollouts, RolloutEnd, RegisterPolicy, UnregisterPolicy, RegisterRollout,
         UnregisterRollout, MonitorTick, RealCommandsBounded, Pending;
    StepKept(s, e);
    if e.Acking? {
      AckKeepsSnapshot(s, e.name, e.step, e.total);
    } else {
      OthersKeepClosing(s, e);
    }
  }

  lemma AckKeepsSnapshot(s: State, name: Name, step: int, total: int)
    requires Sound(s) && s.closing.synthetic.Some? && SnapshotDecides(s.closing)
    requires Horizon(s.closing, s.at) !in s.ledger.dispatched
    ensures var t := TrainAck(s, name, step, total).state;
            SnapshotDecides(t.closing) && t.ledger.dispatched.Keys <= s.ledger.dispatched.Keys
  {
    hide FinishDraining, AllIn, Resume, SettleStep, Pending, RealCommandsBounded, Has, Serviced;
    var t := s.(crew := SetStatus(s.crew, name, Reduced), log := s.log + [Acked(name, step, total)]);
    var a := SettleStep(t, step, total);
    SettleStepFrame(t, step, total);
    ResumeFrame(a, step);
    DrainClosed(Resume(a, step));
  }

  /** If the final real step was settled when the completion was published, then on
      every continuation the job ends exactly when the whole snapshot has acknowledged. */
  lemma {:induction false} SnapshotDecidesOnEveryRun(s: State, es: seq<Event>)
    requires Sound(s) && s.closing.synthetic.Some? && SnapshotDecides(s.closing)
    requires Horizon(s.closing, s.at) !in s.ledger.dispatched
    ensures SnapshotDecides(Run(s, es).closing)
    decreases es
  {
    hide Apply;
    if es != [] {
      StepKept(s, es[0]);
      StepKeepsSnapshot(s, es[0]);
      SnapshotDecidesOnEveryRun(Apply(s, es[0]), es[1..]);
    }
  }

  // ---- acknowledgements in order -------------------------------------------

  /** Draining publishes a completion nobody has acknowledged, or leaves the snapshot alone. */
  lemma DrainKeepsSnapshot(s: State)
    requires SnapshotDecides(s.closing)
    ensures SnapshotDecides(FinishDraining(s).closing)
  {
    hide CanDispatch, Dispatch, Idle, AllEnded, Settle, Pending, Emptied, SetAll, TriggerComplete, RealTerminalAcked;
    var e := EnterDraining(s);
    if CanDispatch(e) { DispatchKeepsClosing(e); }
    if !Closed(e.closing) { CompletionSnapshot(Cleanup(e)); }
  }

  lemma CompletionSnapshot(s: State)
    requires SnapshotDecides(s.closing) && !Closed(s.closing)
    ensures SnapshotDecides(TriggerComplete(s).closing)
  {
    hide TriggerComplete;
    if TriggerComplete(s).closing.synthetic.Some? { CompletionStartsUnacknowledged(s); }
  }

  lemma {:induction false} PutAllKeepsClosing(s: State, rs: seq<Rollout>)
    ensures PutAll(s, rs).closing == s.closing
    decreases rs
  {
    hide CanDispatch, Dispatch, Enqueued;
    if rs != [] && CanPut(s) {
      var e := s.(queues := Enqueued(s.cfg, s.queues, rs[0]));
      if CanDispatch(e) { DispatchKeepsClosing(e); }
      PutAllKeepsClosing(Put(s, rs[0]), rs[1..]);
    }
  }

  lemma AnyPostKeepsClosing(s: State, p: Post)
    ensures PostRollouts(s, p).state.closing == s.closing
  {
    hide SettleDiscard, Settle, ReadCount, Accepted, MaxVersion, PutAll;
    var a := Adopt(Intake(s, p), p.rollouts);
    var good := Accepted(a, p.rollouts, 0);
    PutAllKeepsClosing(Drop(a, |p.rollouts| - |good|), good);
  }

  lemma EndKeepsSnapshot(s: State, name: Name, rank: Option<int>, stays: bool)
    requires SnapshotDecides(s.closing)
    ensures SnapshotDecides(RolloutEnd(s, name, rank, stays).closing)
  {
    hide EndReport, EndsReplica, FinishDraining, SnapshotDecides;
    DrainKeepsSnapshot(s.(gens := EndReport(s.gens, name, rank, stays)));
  }

  /** Before a completion is published an acknowledgement can only publish a fresh one. */
  lemma EarlyAckKeepsSnapshot(s: State, name: Name, step: int, total: int)
    requires s.closing.synthetic.None?
    ensures SnapshotDecides(TrainAck(s, name, step, total).state.closing)
  {
    hide FinishDraining, AllIn, Resume, SettleStep, Has, Serviced, CanDispatch, Dispatch;
    var t := s.(crew := SetStatus(s.crew, name, Reduced), log := s.log + [Acked(name, step, total)]);
    var a := SettleStep(t, step, total);
    SettleStepFrame(t, step, total);
    ResumeFrame(a, step);
    var c := Resume(a, step);
    DrainKeepsSnapshot(c);
    if CanDispatch(c) { DispatchKeepsClosing(c); }
  }

  /** An orderly worker acknowledges the completion, never the final real step again. */
  lemma OrderlyAckIsNotLate(s: State, name: Name, step: int, total: int)
    requires Sound(s) && InStep(s) && s.closing.synthetic.Some? && Orderly(s, Acking(name, step, total))
    ensures !LateFinalAck(s, name, step, total)
  {
    hide Outstanding, Pending, RealCommandsBounded, AllBusy;
    if Has(s.crew.replicas, name) {
      StatusOf(s.crew, name);
      RunningInitialised(s, name);
    }
  }

  lemma OrderlyAckKeepsSnapshot(s: State, name: Name, step: int, total: int)
    requires Sound(s) && InStep(s) && SnapshotDecides(s.closing) && Orderly(s, Acking(name, step, total))
    ensures SnapshotDecides(TrainAck(s, name, step, total).state.closing)
  {
    hide InStep, Sound, Orderly, LateFinalAck, Later, TrainAck;
    if s.closing.synthetic.None? { EarlyAckKeepsSnapshot(s, name, step, total); }
    else {
      AckKept(s, name, step, total);
      OrderlyAckIsNotLate(s, name, step, total);
      if s.closing.terminal { SettledSnapshot(s, name, step, total); }
      else { AckEndsJobIff(s, name, step, total); UnfinishedSnapshot(s, name, step, total); }
    }
  }

  /** A job that has ended stays ended, and its snapshot complete. */
  lemma SettledSnapshot(s: State, name: Name, step: int, total: int)
    requires Sound(s) && s.closing.synthetic.Some? && s.closing.terminal && SnapshotDecides(s.closing)
    ensures SnapshotDecides(TrainAck(s, name, step, total).state.closing)
  {
    hide FinishDraining, AllIn, SetAll, Names, MaybeSync, SettleStep, Pending, RealCommandsBounded, Has;
    var t := s.(crew := SetStatus(s.crew, name, Reduced), log := s.log + [Acked(name, step, total)]);
    SettleStepFrame(t, step, total);
    DrainClosed(Resume(SettleStep(t, step, total), step));
  }

  lemma UnfinishedSnapshot(s: State, name: Name, step: int, total: int)
    requires Sound(s) && s.closing.synthetic.Some? && !s.closing.terminal && SnapshotDecides(s.closing)
    requires !LateFinalAck(s, name, step, total)
    ensures SnapshotDecides(TrainAck(s, name, step, total).state.closing)
  {
    hide FinishDraining, AllIn, SetAll, Names, MaybeSync, SettleStep, Pending, RealCommandsBounded, Has;
    var t := s.(crew := SetStatus(s.crew, name, Reduced), log := s.log + [Acked(name, step, total)]);
    SettleStepFrame(t, step, total);
    DrainClosed(Resume(SettleStep(t, step, total), step));
  }

  lemma OrderlyStepKeepsSnapshot(s: State, e: Event)
    requires Sound(s) && InStep(s) && SnapshotDecides(s.closing) && Orderly(s, e)
    ensures SnapshotDecides(Apply(s, e).closing)
  {
    hide Sound, InStep, Orderly, Fetch, PostRollouts, RolloutEnd, TrainAck, RegisterPolicy, UnregisterPolicy,
         RegisterRollout, UnregisterRollout, ShouldStop, SnapshotDecides;
    match e
    case Posting(p) => AnyPostKeepsClosing(s, p);
    case Ending(name, rank, stays) => EndKeepsSnapshot(s, name, rank, stays);
    case Acking(name, step, total) => OrderlyAckKeepsSnapshot(s, name, step, total);
    case PolicyUp(name, now) => PolicyUpKeepsClosing(s, name, now);
    case PolicyDown(name) => PolicyDownKeepsClosing(s, name);
    case RolloutUp(name, now, rs) => RolloutUpKeepsClosing(s, name, now, rs);
    case RolloutDown(name) => UnregisterRolloutFrame(s, name);
    case Fetching(_, m, x) => FetchKeepsClosing(s, m, x);
    case Tick =>
  }

  lemma {:induction false} OrderlyRunKeepsSnapshot(s: State, es: seq<Event>)
    requires Sound(s) && InStep(s) && SnapshotDecides(s.closing) && OrderlyRun(s, es)
    ensures SnapshotDecides(Run(s, es).closing)
    decreases es
  {
    hide Apply, Sound, InStep, Orderly, SnapshotDecides;
    if es != [] {
      StepKept(s, es[0]);
      StepInStep(s, es[0]);
      OrderlyStepKeepsSnapshot(s, es[0]);
      OrderlyRunKeepsSnapshot(Apply(s, es[0]), es[1..]);
    }
  }

  /** Workers that acknowledge their commands once and in order: at every point of every
      run, a published completion has ended the job exactly when all its recipients
      have acknowledged it. */
  lemma {:induction false} CompletionExactlyOnSnapshot(cfg: Config, np: nat, nr: nat, step: int, remain: int, es: seq<Event>)
    requires OrderlyRun(Init(cfg, np, nr, step, remain), es)
    ensures var c := Run(Init(cfg, np, nr, step, remain), es).closing;
            c.synthetic.Some? ==> (c.terminal <==> c.acks == c.recipients)
  {
    hide Run, OrderlyRun;
    var s0 := Init(cfg, np, nr, step, remain);
    assert Names(s0.crew.replicas) == [];
    OrderlyRunKeepsSnapshot(s0, es);
  }
}
