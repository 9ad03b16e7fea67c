/** The decisions of the handlers in terms of the fields alone: how a fetch is answered, when a
    rollout has ended and the job drains, how draining concludes, and when STOP is sent. */
module Decisions {
  import opened Types
  import opened Fleet
  import opened Protocol
  import opened Logs
  import opened Runs
  import opened Shutdown
  import opened Completion
  import opened Admission
  import WeightRounds
  import Arith
  import Loops

  // ---- prompt fetch --------------------------------------------------------

  /** What a policy step consumes. */
  function StepNeed(s: State): nat { s.cfg.batch * |s.crew.replicas| }

  /** The job is complete or at a positive horizon. */
  predicate AtEnd(s: State) {
    var horizon := if s.closing.frozen.Some? then s.closing.frozen.value else s.at.total;
    s.closing.terminal || (horizon > 0 && horizon <= s.at.step)
  }

  lemma {:induction false} NeedIsPositive(s: State)
    requires s.crew.replicas != []
    ensures StepNeed(s) == GlobalBatch(s) >= 1
  {
    Arith.MulMonotone(s.cfg.batch, 1, |s.crew.replicas|);
  }

  /** The version a fetch starts at: the step that the rollouts ahead of it leave to be trained.
      The buffered rollouts fill exactly the steps in between. */
  lemma {:induction false} FirstVersionIs(s: State)
    requires s.crew.replicas != []
    ensures GlobalBatch(s) > 0
    ensures var k := FirstVersion(s) - s.at.step;
            StepNeed(s) * k <= Pending(s.cfg, s.queues) < StepNeed(s) * (k + 1)
  {
    hide Pending;
    NeedIsPositive(s);
    Arith.DivBounds(Pending(s.cfg, s.queues), GlobalBatch(s));
  }

  /** The prompts of a policy step: as few as generate its rollouts. */
  lemma {:induction false} PromptsPerStepIs(s: State)
    ensures var p := PromptsPerStep(s);
            s.cfg.generations * p >= StepNeed(s) && (p > 0 ==> s.cfg.generations * (p - 1) < StepNeed(s))
  {
    var g, q := s.cfg.generations, StepNeed(s) + s.cfg.generations - 1;
    Arith.DivBounds(q, g);
    assert g * (q / g + 1) == g * (q / g) + g && g * (q / g - 1) == g * (q / g) - g;
  }

  /** Too many samples are in flight to hand out more than the outdated-fetch batch. */
  predicate Throttled(s: State) {
    var need := StepNeed(s);
    if !s.cfg.dapo then s.ledger.onTheFly >= need + s.cfg.allowed * need
    else
      && s.cfg.retries > 0 && need > 0
      && var steps := Pending(s.cfg, s.queues) / need;
         Max(s.ledger.onTheFly - Pending(s.cfg, s.queues), 0) >= need * s.cfg.retries * (1 + s.cfg.allowed - steps)
  }

  /** How many prompts are asked for: all, unless throttled. */
  lemma {:induction false} FetchLimitIs(s: State, n: nat)
    requires s.crew.replicas != []
    ensures GlobalBatch(s) > 0
    ensures FetchLimit(s, n) == if Throttled(s) && s.cfg.staleFetch < n then s.cfg.staleFetch else n
  {
    hide Pending;
    NeedIsPositive(s);
    var need, a := StepNeed(s), s.cfg.allowed;
    assert (a + 1) * need == need + a * need;
    if s.cfg.dapo {
      var x := 1 + a - Pending(s.cfg, s.queues) / need;
      assert x * s.cfg.retries * need == need * s.cfg.retries * x;
    }
  }

  /** The answer to a fetch.  Without a policy replica: nothing, and the end.  At the in-flight
      limit: nothing for now.  Otherwise one version per prompt obtained, the samples they will
      become are in flight, and it is the end iff the data is exhausted or training is at its
      end. */
  lemma {:induction false} FetchAnswers(s: State, m: nat, exhausted: bool)
    ensures var f := Fetch(s, m, exhausted);
            if s.crew.replicas == [] then f == Fetched(s, [], true)
            else if s.cfg.maxInflight.Some? && s.ledger.onTheFly >= s.cfg.maxInflight.value * StepNeed(s) then
              f == Fetched(s, [], false)
            else
              && |f.versions| == m && (f.isEnd <==> exhausted || AtEnd(s))
              && f.state == s.(tags := f.state.tags, ledger := s.ledger.(onTheFly := s.ledger.onTheFly + m * s.cfg.generations))
  {
    hide FetchTags;
  }

  /** Which versions the prompts are tagged with: 0 once a replica has left; the first version
      for DAPO, counted there; otherwise one version after the other, each filled up first. */
  lemma {:induction false} FetchTagsAre(s: State, m: nat)
    requires s.crew.replicas != []
    ensures GlobalBatch(s) > 0
    ensures var t := FetchTags(s, m);
            if s.crew.left > 0 || s.gens.left > 0 then
              t.tags == s.tags && forall i :: 0 <= i < m ==> t.versions[i] == 0
            else if s.cfg.dapo then
              && (forall i :: 0 <= i < m ==> t.versions[i] == FirstVersion(s))
              && t.tags == s.tags[FirstVersion(s) := m + if FirstVersion(s) in s.tags then s.tags[FirstVersion(s)] else 0]
            else t == TagAll(s.tags, FirstVersion(s), PromptsPerStep(s), m)
  {
    hide TagAll, PromptsPerStep, FirstVersion;
    NeedIsPositive(s);
  }

  // ---- end of a rollout replica --------------------------------------------

  /** The report ends the replica: it is known and live, and the report speaks for the whole
      replica or is of an expected rank, all others having reported. */
  predicate ReportEnds(g: Gens, name: Name, rank: Option<int>) {
    && Has(g.replicas, name) && !Get(g.replicas, name).ended
    && (rank.Some? ==>
          && rank.value in Get(g.replicas, name).reporters
          && forall r :: r in Get(g.replicas, name).reporters && r != rank.value ==> name in g.endReports && r in g.endReports[name])
  }

  lemma {:induction false} EndsIff(g: Gens, name: Name, rank: Option<int>)
    ensures EndsReplica(g, name, rank) <==> ReportEnds(g, name, rank)
  {
    hide Get, Has;
    if rank.Some? && Has(g.replicas, name) {
      var expected := Get(g.replicas, name).reporters;
      if expected <= ReportsOf(g.endReports, name) + {rank.value} {
        forall r | r in expected && r != rank.value ensures name in g.endReports && r in g.endReports[name] {
          assert r in ReportsOf(g.endReports, name) + {rank.value};
        }
      }
      if ReportEnds(g, name, rank) {
        forall r | r in expected ensures r in ReportsOf(g.endReports, name) + {rank.value} { }
      }
    }
  }

  /** After a report: which replicas have ended, and which of them still take part in weight rounds. */
  lemma {:induction false} EndReportLeaves(g: Gens, name: Name, rank: Option<int>, stays: bool)
    ensures var h := EndReport(g, name, rank, stays);
            && |h.replicas| == |g.replicas|
            && (forall i :: 0 <= i < |g.replicas| ==>
                  h.replicas[i] == g.replicas[i].(ended := g.replicas[i].ended || (ReportEnds(g, name, rank) && g.replicas[i].name == name)))
            && (forall n :: n in h.participants <==>
                  if ReportEnds(g, name, rank) && n == name then rank.Some? || stays else n in g.participants)
            && h == g.(replicas := h.replicas, participants := h.participants, endReports := h.endReports)
  {
    hide Get, Has, EndsReplica, ReportEnds;
    EndsIff(g, name, rank);
    EndNeedsCount(g, name, rank);
  }

  /** The discard reports of a replica are remembered until it ends, and no longer. */
  lemma {:induction false} EndForgets(s: State, name: Name, rank: Option<int>, stays: bool, n: Name)
    ensures n in RolloutEnd(s, name, rank, stays).ledger.discards <==>
            n in s.ledger.discards && !(n == name && ReportEnds(s.gens, name, rank))
  {
    hide EndReport, EndsReplica, ReportEnds, FinishDraining;
    EndsIff(s.gens, name, rank);
    DrainKeepsDiscards(s.(gens := EndReport(s.gens, name, rank, stays)));
  }

  lemma DrainKeepsDiscards(s: State)
    ensures FinishDraining(s).ledger.discards == s.ledger.discards
  {
    hide CanDispatch, Idle, AllEnded, Pending, Emptied, Taken, Feed, SetAll, Names, Broadcast, RealTerminalAcked;
  }

  lemma EndNeedsCount(g: Gens, name: Name, rank: Option<int>)
    ensures EndsReplica(g, name, rank) ==> EndReportCounts(g, name, rank)
  {
  }

  // ---- the final acknowledgement -------------------------------------------

  /** Outside the draining phase an acknowledgement ends the job exactly when it settles rollouts
      of the step at the horizon, acknowledged with that horizon; every acknowledgement that
      settles rollouts is remembered as the last real one. */
  lemma {:induction false} AckCompletesIff(s: State, name: Name, step: int, total: int)
    requires !s.closing.draining && s.closing.synthetic.None? && s.closing.frozen.None?
    ensures var c := TrainAck(s, name, step, total).state.closing;
            var counts := WeightRounds.Settles(s, name, step) && step in s.ledger.dispatched && s.ledger.dispatched[step] > 0;
            && (c.terminal <==> s.closing.terminal || (counts && step == total == s.at.total))
            && (if counts then c.ackedStep == Some(step) && c.ackedTotal == Some(total)
                else c.ackedStep == s.closing.ackedStep && c.ackedTotal == s.closing.ackedTotal)
  {
    hide Resume, FinishDraining, CanDispatch, Dispatch, AllIn, Has, Overdrawn, Cleanup, Serviced, WeightRounds.Settles;
    WeightRounds.SettlesIff(s, name, step);
    var t := s.(crew := SetStatus(s.crew, name, Reduced), log := s.log + [Acked(name, step, total)]);
    TakeRecordFrame(t, step);
    CleanupKeepsClosing(TakeRecord(t, step).(closing := TakeRecord(t, step).closing.(ackedStep := Some(step), ackedTotal := Some(total), terminal := true)));
    var a := SettleStep(t, step, total);
    ResumeFrame(a, step);
    if CanDispatch(Resume(a, step)) { DispatchKeepsClosing(Resume(a, step)); }
  }

  lemma CleanupKeepsClosing(s: State)
    ensures Cleanup(s).closing == s.closing
  {
    hide Emptied, Settle, Pending;
  }

  /** All rollouts have ended, and there are some. */
  predicate RolloutsDone(g: Gens) { g.replicas != [] && forall i :: 0 <= i < |g.replicas| ==> g.replicas[i].ended }

  // ---- draining ------------------------------------------------------------

  /** All rollouts have ended once this one has. */
  predicate LastToEnd(g: Gens, name: Name, rank: Option<int>) {
    ReportEnds(g, name, rank) && forall i :: 0 <= i < |g.replicas| && g.replicas[i].name != name ==> g.replicas[i].ended
  }

  lemma {:induction false} AllEndedIff(g: Gens, name: Name, rank: Option<int>, stays: bool)
    requires ReportEnds(g, name, rank)
    ensures AllEnded(EndReport(g, name, rank, stays)) <==> LastToEnd(g, name, rank)
  {
    hide Get, EndReport;
    EndReportLeaves(g, name, rank, stays);
    var i :| 0 <= i < |g.replicas| && g.replicas[i].name == name;
  }

  /** Draining starts exactly with the end report that ends the last rollout replica. */
  lemma {:induction false} DrainingStartsIff(s: State, e: Event)
    requires !s.closing.draining
    ensures Apply(s, e).closing.draining <==> e.Ending? && LastToEnd(s.gens, e.name, e.rank)
  {
    hide Fetch, PostRollouts, RolloutEnd, TrainAck, RegisterPolicy, UnregisterPolicy, RegisterRollout,
         UnregisterRollout, MonitorTick, LastToEnd;
    match e
    case Ending(name, rank, stays) => EndStartsDraining(s, name, rank, stays);
    case Posting(p) => AnyPostKeepsClosing(s, p);
    case Acking(name, step, total) => AckDoesNotDrain(s, name, step, total);
    case PolicyUp(name, now) => PolicyUpKeepsClosing(s, name, now);
    case PolicyDown(name) => PolicyDownKeepsClosing(s, name);
    case _ => QuietInert(s, e);
  }

  lemma {:induction false} EndStartsDraining(s: State, name: Name, rank: Option<int>, stays: bool)
    requires !s.closing.draining
    ensures RolloutEnd(s, name, rank, stays).closing.draining <==> LastToEnd(s.gens, name, rank)
  {
    hide FinishDraining, EndReport, EndsReplica, AllEnded, ReportEnds;
    EndsIff(s.gens, name, rank);
    var t := s.(gens := EndReport(s.gens, name, rank, stays));
    if ReportEnds(s.gens, name, rank) {
      AllEndedIff(s.gens, name, rank, stays);
      if AllEnded(t.gens) { DrainDrains(t); } else { NotAllEnded(t); }
    }
  }

  lemma AckDoesNotDrain(s: State, name: Name, step: int, total: int)
    requires !s.closing.draining
    ensures !TrainAck(s, name, step, total).state.closing.draining
  {
    hide SettleStep, TakeRecord, Resume, FinishDraining, CanDispatch, Dispatch, AllIn, Has, Overdrawn, Serviced;
    var t := s.(crew := SetStatus(s.crew, name, Reduced), log := s.log + [Acked(name, step, total)]);
    TakeRecordFrame(t, step);
    var a := SettleStep(t, step, total);
    SettleStepFrame(t, step, total);
    ResumeFrame(a, step);
    if CanDispatch(Resume(a, step)) { DispatchKeepsClosing(Resume(a, step)); }
  }

  /** Everyone is told that training is complete. */
  ghost predicate CompletionPublished(s: State, t: State) {
    && t.closing.synthetic == Some(s.at.step + 1) && t.closing.acks == {}
    && (forall n :: n in t.closing.recipients <==> Has(s.crew.replicas, n))
    && (forall i :: 0 <= i < |s.crew.replicas| ==>
          Sent(s.crew.replicas[i].name, TrainingComplete(s.at.step + 1, s.at.step + 1, s.at.step)) in t.log)
  }

  /** A draining job whose rollouts have ended, none of whose replicas is at work and which is not
      closed yet: it dispatches a due step before its horizon; otherwise it drops what is buffered
      and is complete, if the last real acknowledgement was of the horizon step with that horizon,
      or publishes the completion to all replicas. */
  lemma {:induction false} DrainChooses(s: State)
    requires s.closing.draining && s.closing.frozen.Some? && RolloutsDone(s.gens)
    requires !s.closing.terminal && s.closing.synthetic.None?
    requires forall n :: n in s.crew.status ==> s.crew.status[n] == Ready || s.crew.status[n] == Reduced
    ensures var t, h := FinishDraining(s), s.closing.frozen.value;
            if s.at.step < h && StepDue(s) then t.at.step == s.at.step + 1 && t.closing == s.closing
            else
              && t.at.step == s.at.step && Pending(t.cfg, t.queues) == 0
              && (t.closing.terminal <==> s.closing.ackedStep == Some(h) && s.closing.ackedTotal == Some(h))
              && (!t.closing.terminal && s.crew.replicas != [] ==> CompletionPublished(s, t))
  {
    hide AllEnded, Settle, Emptied, Pending, Dispatch, CanDispatch, StepDue;
    DoneIsEnded(s.gens);
    DueIsDispatchable(s);
    if s.at.step < s.closing.frozen.value && StepDue(s) {
      DispatchKeepsClosing(s);
      DispatchesIff(s);
    } else {
      CleanupInert(s);
      ConcludePublishes(s);
    }
  }

  lemma DueIsDispatchable(s: State)
    ensures StepDue(s) <==> CanDispatch(s)
  {
  }

  lemma {:induction false} ConcludePublishes(s: State)
    requires s.closing.frozen.Some? && !s.closing.terminal && s.closing.synthetic.None?
    ensures var t, h := Conclude(s), s.closing.frozen.value;
            && t.at.step == s.at.step && t.cfg == s.cfg && t.queues == Cleanup(s).queues
            && (t.closing.terminal <==> s.closing.ackedStep == Some(h) && s.closing.ackedTotal == Some(h))
            && (!t.closing.terminal && s.crew.replicas != [] ==> CompletionPublished(s, t))
  {
    hide Settle, Emptied, Pending, SetAll;
    var to := Names(s.crew.replicas);
    var cmd := TrainingComplete(s.at.step + 1, s.at.step + 1, s.at.step);
    forall n ensures n in to <==> Has(s.crew.replicas, n) { HasIffNamed(s.crew.replicas, n); }
    forall i | 0 <= i < |s.crew.replicas| ensures Sent(s.crew.replicas[i].name, cmd) in s.log + Broadcast(to, cmd) {
      assert (s.log + Broadcast(to, cmd))[|s.log| + i] == Sent(s.crew.replicas[i].name, cmd);
    }
  }

  // ---- nothing due is left undone ------------------------------------------

  lemma {:induction false} TriggerLeavesNothingDue(s: State)
    ensures !StepDue(TryTrigger(s))
  {
    hide CanDispatch, Dispatch, StepDue;
    DueIsDispatchable(s);
    if CanDispatch(s) { DispatchedIsBusy(s); }
  }

  lemma {:induction false} DispatchedIsBusy(s: State)
    requires CanDispatch(s)
    ensures !StepDue(Dispatch(s))
    ensures exists n :: n in Dispatch(s).crew.status && Dispatch(s).crew.status[n] == Running
  {
    hide Idle, Finished, Enough, RanksCovered, Taken, Feed, Broadcast, SetAll;
    var n := s.crew.replicas[0].name;
    assert Names(s.crew.replicas)[0] == n;
    assert n in Dispatch(s).crew.status && Dispatch(s).crew.status[n] == Running;
  }

  /** A post that keeps something leaves no step due. */
  lemma {:induction false} PutsLeaveNothingDue(s: State, rs: seq<Rollout>)
    requires rs != [] && CanPut(s)
    ensures !StepDue(PutAll(s, rs))
    decreases rs
  {
    hide TryTrigger, StepDue, Enqueued;
    var t := Put(s, rs[0]);
    TriggerLeavesNothingDue(s.(queues := Enqueued(s.cfg, s.queues, rs[0])));
    if |rs| > 1 {
      assert CanPut(t) by { Loops.PutKeepsQueues(s, rs[0]); }
      PutsLeaveNothingDue(t, rs[1..]);
    } else { assert rs[1..] == []; NothingPut(t); }
  }

  lemma NothingPut(s: State)
    ensures PutAll(s, []) == s
  {
  }

  /** Some replica is at work. */
  predicate AtWork(s: State) { exists n :: n in s.crew.status && s.crew.status[n] == Running }

  /** An acknowledgement that settles a step goes on: outside the draining phase no step is left
      due; when all rollouts have ended in the draining phase the job is closed or at work again;
      and whoever got nothing to do is ready. */
  lemma {:induction false} AckGoesOn(s: State, name: Name, step: int, total: int)
    requires WeightRounds.Settles(s, name, step) && forall n :: n in s.crew.status ==> Has(s.crew.replicas, n)
    ensures var t := TrainAck(s, name, step, total).state;
            && (!s.closing.draining ==> !StepDue(t))
            && (s.closing.draining && RolloutsDone(s.gens) ==> t.closing.terminal || t.closing.synthetic.Some? || AtWork(t))
            && (forall n :: n in t.crew.status ==> t.crew.status[n] == Ready || t.crew.status[n] == Running)
  {
    hide SettleStep, Resume, FinishDraining, TryTrigger, AllIn, Has, Overdrawn, Serviced, StepDue, WeightRounds.Settles, AtWork;
    WeightRounds.SettlesIff(s, name, step);
    var t := s.(crew := SetStatus(s.crew, name, Reduced), log := s.log + [Acked(name, step, total)]);
    var a := SettleStep(t, step, total);
    SettleStepFrame(t, step, total);
    var c := Resume(a, step);
    ResumeFrame(a, step);
    assert forall n :: n in c.crew.status ==> c.crew.status[n] == Ready by { EveryoneReady(s, name, c.crew.status); }
    if s.closing.draining {
      SyncNotDraining(a, step);
      DoneIsEnded(s.gens);
      WeightRounds.KnownThere(s, name, step);
      DrainGoesOn(c);
    } else {
      TriggerLeavesNothingDue(c);
      TriggerStatus(c);
    }
  }

  lemma {:induction false} EveryoneReady(s: State, name: Name, status: map<Name, PolicyStatus>)
    requires Has(s.crew.replicas, name) && forall n :: n in s.crew.status ==> Has(s.crew.replicas, n)
    requires status == SetAll(s.crew.status[name := Reduced], Names(s.crew.replicas), Ready)
    ensures forall n :: n in status ==> status[n] == Ready
  {
    hide Has;
    forall n | n in status ensures status[n] == Ready { HasIffNamed(s.crew.replicas, n); }
  }

  lemma SyncNotDraining(s: State, step: int)
    requires s.closing.draining
    ensures Resume(s, step).gens == s.gens
  {
    hide SetAll, Names, MaybeSync;
  }

  lemma DoneIsEnded(g: Gens)
    ensures RolloutsDone(g) <==> AllEnded(g)
  {
  }

  lemma {:induction false} TriggerStatus(s: State)
    requires forall n :: n in s.crew.status ==> s.crew.status[n] == Ready
    ensures forall n :: n in TryTrigger(s).crew.status ==> TryTrigger(s).crew.status[n] == Ready || TryTrigger(s).crew.status[n] == Running
  {
    hide CanDispatch, Taken, Feed, Broadcast, Names;
  }

  lemma {:induction false} DrainGoesOn(s: State)
    requires forall n :: n in s.crew.status ==> s.crew.status[n] == Ready
    requires s.closing.draining && s.crew.replicas != []
    ensures var t := FinishDraining(s);
            && (AllEnded(s.gens) ==> t.closing.terminal || t.closing.synthetic.Some? || AtWork(t))
            && (forall n :: n in t.crew.status ==> t.crew.status[n] == Ready || t.crew.status[n] == Running)
  {
    hide AllEnded, CanDispatch, Dispatch, Cleanup, Conclude, AtWork;
    var t := FinishDraining(s);
    if AllEnded(s.gens) {
      assert EnterDraining(s) == s;
      CleanupKeepsClosing(s);
      CleanupKeepsCrew(s);
      if !Closed(s.closing) && CanDispatch(s) && s.at.step < Horizon(s.closing, s.at) {
        DispatchedIsBusy(s);
        BusyAtWork(Dispatch(s));
        TriggerStatus(s);
        assert TryTrigger(s) == Dispatch(s) == t;
      } else { ConcludeGoesOn(s); }
    }
  }

  lemma BusyAtWork(s: State)
    requires exists n :: n in s.crew.status && s.crew.status[n] == Running
    ensures AtWork(s)
  {
  }

  lemma CleanupKeepsCrew(s: State)
    ensures Cleanup(s).crew == s.crew
  {
    hide Emptied, Settle, Pending;
  }

  lemma {:induction false} ConcludeGoesOn(s: State)
    requires (forall n :: n in s.crew.status ==> s.crew.status[n] == Ready) && s.crew.replicas != []
    ensures var t := Conclude(s);
            && (t.closing.terminal || t.closing.synthetic.Some?)
            && (forall n :: n in t.crew.status ==> t.crew.status[n] == Ready || t.crew.status[n] == Running)
  {
    hide Settle, Emptied, Pending, Broadcast, Names, RealTerminalAcked;
  }

  // ---- STOP ----------------------------------------------------------------

  /** STOP is sent, to every rollout replica and once, exactly when it was not sent yet and either
      the job is complete and its rollouts have ended, or there were policy replicas, none is left,
      and training is at its end or the rollouts have. */
  lemma {:induction false} StopIsSentIff(s: State)
    ensures var t := MonitorTick(s);
            if && !s.stopSent
               && (|| (s.closing.terminal && RolloutsDone(s.gens))
                   || (s.crew.replicas == [] && s.crew.seen && (AtEnd(s) || RolloutsDone(s.gens))))
            then
              && t.stopSent && |t.log| == |s.log| + |s.gens.replicas| && t.log[..|s.log|] == s.log
              && (forall i :: 0 <= i < |s.gens.replicas| ==> t.log[|s.log| + i] == Sent(s.gens.replicas[i].name, Stop))
            else t == s
  {
    assert AllEnded(s.gens) <==> RolloutsDone(s.gens);
  }
}
