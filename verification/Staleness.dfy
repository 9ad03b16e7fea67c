/** End-to-end staleness: with the shared buffer and as long as no policy replica
    leaves while rollouts are waiting, a rollout trained in step s was generated with weights at most
    `allowed_outdated_steps` older than version s - 1. */
module Staleness {
  import opened Arith
  import opened Types
  import opened Fleet
  import opened Protocol
  import opened Runs
  import opened Logs

  /** Rollouts consumed by one step; what the filter divides by. */
  function StepSize(s: State): (b: nat)
    ensures b >= 1
  {
    s.cfg.batch * Max(|s.crew.replicas|, 1)
  }

  /** The rollout at queue position q waits for q / StepSize more steps. */
  predicate FreshAt(s: State, r: Rollout, q: nat) {
    s.at.step + q / StepSize(s) - r.version <= s.cfg.allowed
  }

  predicate FreshQueue(s: State) {
    forall q :: 0 <= q < |s.queues.shared| ==> FreshAt(s, s.queues.shared[q], q)
  }

  /** Every rollout handed to a trainer was fresh for its step. */
  predicate FreshLog(log: seq<Entry>, allowed: nat) {
    forall k :: 0 <= k < |log| && log[k].Fed? ==> log[k].step - 1 - log[k].rollout.version <= allowed
  }

  predicate Fresh(s: State) {
    && !s.cfg.rankInMesh
    && FreshQueue(s)
    && FreshLog(s.log, s.cfg.allowed)
  }

  /** Adding entries that feed nothing keeps the log fresh. */
  predicate FeedsNothing(es: seq<Entry>) {
    forall k :: 0 <= k < |es| ==> !es[k].Fed?
  }

  /** `t` extends the log of `s` by entries that feed nothing and keeps or shrinks what decides staleness. */
  predicate Calm(s: State, t: State) {
    && t.cfg == s.cfg
    && t.at.step == s.at.step
    && (t.queues.shared == s.queues.shared || t.queues.shared == [])
    && |t.crew.replicas| >= |s.crew.replicas|
    && |t.log| >= |s.log| && t.log[..|s.log|] == s.log
    && FeedsNothing(t.log[|s.log|..])
  }

  lemma CalmKeepsFresh(s: State, t: State)
    requires Fresh(s) && Calm(s, t)
    ensures Fresh(t)
  {
    assert StepSize(t) >= StepSize(s) by {
      MulMonotone(s.cfg.batch, Max(|s.crew.replicas|, 1), Max(|t.crew.replicas|, 1));
    }
    forall q | 0 <= q < |t.queues.shared| ensures FreshAt(t, t.queues.shared[q], q) {
      assert FreshAt(s, s.queues.shared[q], q);
      DivAntitone(q, StepSize(s), StepSize(t));
    }
    assert t.log == s.log + t.log[|s.log|..];
  }

  /** Dispatching moves every position forward by one step size as the step advances. */
  lemma DispatchKeepsFresh(s: State)
    requires Fresh(s) && CanDispatch(s)
    ensures Fresh(Dispatch(s))
  {
    var t := Dispatch(s);
    var b := StepSize(s);
    assert s.cfg.batch * |s.crew.replicas| == b;
    forall q | 0 <= q < |t.queues.shared| ensures FreshAt(t, t.queues.shared[q], q) {
      assert t.queues.shared[q] == s.queues.shared[q + b];
      assert FreshAt(s, s.queues.shared[q + b], q + b);
      DivShift(q, b);
    }
    var fed := Feed(s.cfg, s.queues, s.crew.replicas, s.at.step + 1);
    FedFresh(s, fed);
    assert FreshLog(s.log + fed, s.cfg.allowed);
  }

  lemma FedFresh(s: State, fed: seq<Entry>)
    requires Fresh(s) && CanDispatch(s) && fed == Feed(s.cfg, s.queues, s.crew.replicas, s.at.step + 1)
    ensures FreshLog(fed, s.cfg.allowed)
  {
    forall k | 0 <= k < |fed| ensures fed[k].step - 1 - fed[k].rollout.version <= s.cfg.allowed {
      assert fed[k].rollout == s.queues.shared[k];
      assert FreshAt(s, s.queues.shared[k], k);
      DivUnique(k, StepSize(s), 0);
    }
  }

  lemma TryTriggerKeepsFresh(s: State)
    requires Fresh(s)
    ensures Fresh(TryTrigger(s))
  {
    if CanDispatch(s) { DispatchKeepsFresh(s); }
  }

  lemma DrainKeepsFresh(s: State)
    requires Fresh(s)
    ensures Fresh(FinishDraining(s))
  {
    hide CanDispatch, Idle, Dispatch, AllEnded, Settle, Pending, RealTerminalAcked, Names, SetAll;
    if AllEnded(s.gens) {
      var e := EnterDraining(s);
      CalmKeepsFresh(s, e);
      if !Closed(e.closing) && Idle(e.crew) && e.at.step < Horizon(e.closing, e.at) && CanDispatch(e) {
        DispatchKeepsFresh(e);
      } else {
        CalmKeepsFresh(e, Drain(e));
      }
    }
  }

  lemma AckKeepsFresh(s: State, name: Name, step: int, total: int)
    requires Fresh(s)
    ensures Fresh(TrainAck(s, name, step, total).state)
  {
    hide Fresh, SettleStep, Resume, FinishDraining, TryTrigger, AllIn, Has;
    if Has(s.crew.replicas, name) {
      var t := s.(crew := SetStatus(s.crew, name, Reduced), log := s.log + [Acked(name, step, total)]);
      CalmKeepsFresh(s, t);
      if IsCompletionAck(s.closing, name, step) {
        CalmKeepsFresh(s, TrainAck(s, name, step, total).state);
      } else if AllIn(t.crew.status, {Reduced}) && Overdrawn(t.ledger, step) {
        CalmKeepsFresh(t, TakeRecord(t, step));
      } else if AllIn(t.crew.status, {Reduced}) {
        var a := SettleStep(t, step, total);
        SettleStepFrame(t, step, total);
        assert a.queues.shared == t.queues.shared || a.queues.shared == [] by { FreshIsShared(t); SettledShared(t, step, total); }
        CalmKeepsFresh(t, a);
        ResumeCalm(a, step);
        CalmKeepsFresh(a, Resume(a, step));
        DrainKeepsFresh(Resume(a, step));
        TryTriggerKeepsFresh(Resume(a, step));
      }
    }
  }

  lemma FreshIsShared(s: State)
    requires Fresh(s)
    ensures !s.cfg.rankInMesh
  {
  }

  lemma SettledShared(s: State, step: int, total: int)
    requires !s.cfg.rankInMesh
    ensures var t := SettleStep(s, step, total).queues.shared; t == s.queues.shared || t == []
  {
    hide SettleStep;
    SettleStepFrame(s, step, total);
  }

  lemma ResumeCalm(s: State, step: int)
    ensures Calm(s, Resume(s, step))
  {
    hide Resume;
    ResumeFrame(s, step);
  }

  // ---- admission -----------------------------------------------------------

  /** A list whose i-th member may stand at distance `pos + i` from the trainer. */
  predicate FreshBatch(s: State, rs: seq<Rollout>, pos: nat) {
    forall i :: 0 <= i < |rs| ==> FreshAt(s, rs[i], pos + i)
  }

  /** The filter estimates a position no smaller than the one the rollout gets. */
  lemma {:induction false} AcceptedFresh(s: State, rs: seq<Rollout>, from: nat, placed: nat)
    requires !s.cfg.rankInMesh && placed <= from
    ensures FreshBatch(s, Accepted(s, rs, from), |s.queues.shared| + placed)
  {
    if rs != [] {
      var more := if Acceptable(s, rs[0], from) then 1 else 0;
      AcceptedFresh(s, rs[1..], from + 1, placed + more);
      var rest := Accepted(s, rs[1..], from + 1);
      var a := Accepted(s, rs, from);
      if more == 1 {
        DivMonotone(|s.queues.shared| + placed, from + |s.queues.shared|, StepSize(s));
        forall i | 0 <= i < |a| ensures FreshAt(s, a[i], |s.queues.shared| + placed + i) {
          if i > 0 { assert a[i] == rest[i - 1]; }
        }
      } else {
        assert a == rest;
      }
    }
  }

  /** Putting a batch that fits behind the queue keeps the queue fresh, dispatches included. */
  lemma {:induction false} PutAllKeepsFresh(s: State, rs: seq<Rollout>)
    requires Fresh(s) && FreshBatch(s, rs, |s.queues.shared|)
    ensures Fresh(PutAll(s, rs))
    decreases rs
  {
    if rs != [] {
      var e := s.(queues := Enqueued(s.cfg, s.queues, rs[0]));
      forall q | 0 <= q < |e.queues.shared| ensures FreshAt(e, e.queues.shared[q], q) {
        if q < |s.queues.shared| { assert FreshAt(s, s.queues.shared[q], q); } else { assert FreshAt(s, rs[0], q + 0); }
      }
      TryTriggerKeepsFresh(e);
      var t := Put(s, rs[0]);
      forall i | 0 <= i < |rs[1..]| ensures FreshAt(t, rs[1..][i], |t.queues.shared| + i) {
        assert FreshAt(s, rs[i + 1], |s.queues.shared| + (i + 1));
        if CanDispatch(e) { DivShift(|t.queues.shared| + i, StepSize(s)); }
      }
      PutAllKeepsFresh(t, rs[1..]);
    }
  }

  lemma AdmitKeepsFresh(s: State, rs: seq<Rollout>)
    requires Fresh(s)
    ensures Fresh(Admit(s, rs).state)
  {
    var a := Adopt(s, rs);
    CalmKeepsFresh(s, a);
    var good := Accepted(a, rs, 0);
    AcceptedFresh(a, rs, 0, 0);
    var f := Drop(a, |rs| - |good|);
    CalmKeepsFresh(a, f);
    FreshBatchFrame(a, f, good, |f.queues.shared|);
    PutAllKeepsFresh(f, good);
  }

  lemma FreshBatchFrame(s: State, t: State, rs: seq<Rollout>, pos: nat)
    requires FreshBatch(s, rs, pos) && t.cfg == s.cfg && t.at.step == s.at.step && t.crew == s.crew
    ensures FreshBatch(t, rs, pos)
  {
    forall i | 0 <= i < |rs| ensures FreshAt(t, rs[i], pos + i) { assert FreshAt(s, rs[i], pos + i); }
  }

  lemma PostKeepsFresh(s: State, p: Post)
    requires Fresh(s)
    ensures Fresh(PostRollouts(s, p).state)
  {
    hide Admit, SettleDiscard, Settle, ReadCount, MaxVersion;
    var d := Intake(s, p);
    CalmKeepsFresh(s, d);
    if Closed(d.closing) || ReadCount(p.rollouts, d.at.step) < |p.rollouts| {
      CalmKeepsFresh(d, PostRollouts(s, p).state);
    } else {
      AdmitKeepsFresh(d, p.rollouts);
    }
  }

  lemma EndKeepsFresh(s: State, name: Name, rank: Option<int>, stays: bool)
    requires Fresh(s)
    ensures Fresh(RolloutEnd(s, name, rank, stays))
  {
    hide EndReport, EndsReplica, FinishDraining;
    var t := s.(gens := EndReport(s.gens, name, rank, stays));
    CalmKeepsFresh(s, t);
    if EndsReplica(s.gens, name, rank) {
      DrainKeepsFresh(t);
      CalmKeepsFresh(FinishDraining(t), RolloutEnd(s, name, rank, stays));
    }
  }

  lemma PolicyUpKeepsFresh(s: State, name: Name, now: int)
    requires Fresh(s)
    ensures Fresh(RegisterPolicy(s, name, now).state)
  {
    hide FirstPolicy, PolicyHook;
    var a := AddPolicy(s, name, now);
    CalmKeepsFresh(s, a);
    if !Has(s.crew.replicas, name) && !(|a.crew.replicas| == 1 && a.crew.firstArrived) {
      var b := if |a.crew.replicas| == 1 then FirstPolicy(a, name) else a;
      FirstPolicyFrame(a, name);
      CalmKeepsFresh(a, b);
      PolicyHookFrame(b, name);
      HookKeepsShared(b, name);
      CalmKeepsFresh(b, RegisterPolicy(s, name, now).state);
    }
  }

  /** The shared buffer is not rearranged. */
  lemma HookKeepsShared(s: State, name: Name)
    ensures PolicyHook(s, name).state.queues.shared == s.queues.shared
  {
    hide ByStart, FirstLoaded, Rank, Load, Broadcast, SetAll, Names;
  }

  /** With an empty buffer a policy replica may leave. */
  lemma PolicyDownKeepsFresh(s: State, name: Name)
    requires Fresh(s) && s.queues.shared == []
    ensures Fresh(UnregisterPolicy(s, name).state)
  {
    hide RebuildPolicyMesh, Without, Get, Has, Serviced;
    var t := s.(crew := s.crew.(replicas := Without(s.crew.replicas, name),
                                status := s.crew.status - {name}, left := s.crew.left + 1));
    RebuildFrame(t);
    assert RebuildPolicyMesh(t).queues.shared == [] by { RebuildKeepsShared(t); }
    var u := UnregisterPolicy(s, name).state;
    assert u.log == s.log + u.log[|s.log|..];
  }

  lemma RebuildKeepsShared(s: State)
    ensures RebuildPolicyMesh(s).queues.shared == s.queues.shared
  {
    hide ByStart, Rank, Broadcast, RecomputeTotal;
  }

  /** One event keeps the queue and the log fresh, unless a policy replica leaves while
      rollouts are waiting. */
  lemma StepKeepsFresh(s: State, e: Event)
    requires Fresh(s) && (e.PolicyDown? ==> s.queues.shared == [])
    ensures Fresh(Apply(s, e))
  {
    hide Fetch, PostRollouts, RolloutEnd, TrainAck, RegisterPolicy, UnregisterPolicy, RegisterRollout, UnregisterRollout,
         MonitorTick;
    match e
    case Fetching(_, m, x) => FetchCalm(s, m, x); CalmKeepsFresh(s, Apply(s, e));
    case Posting(p) => PostKeepsFresh(s, p);
    case Ending(name, rank, stays) => EndKeepsFresh(s, name, rank, stays);
    case Acking(name, step, total) => AckKeepsFresh(s, name, step, total);
    case PolicyUp(name, now) => PolicyUpKeepsFresh(s, name, now);
    case PolicyDown(name) => PolicyDownKeepsFresh(s, name);
    case RolloutUp(name, now, rs) => RolloutUpCalm(s, name, now, rs); CalmKeepsFresh(s, Apply(s, e));
    case RolloutDown(name) => UnregisterRolloutFrame(s, name); CalmKeepsFresh(s, Apply(s, e));
    case Tick => TickCalm(s); CalmKeepsFresh(s, Apply(s, e));
  }

  lemma FetchCalm(s: State, m: nat, x: bool)
    ensures Calm(s, Fetch(s, m, x).state)
  {
    hide FetchTags, HardThrottled;
  }

  lemma RolloutUpCalm(s: State, name: Name, now: int, rs: set<int>)
    ensures Calm(s, RegisterRollout(s, name, now, rs).state)
  {
    hide FirstTransfer, SettleRolloutMesh;
    if !Has(s.gens.replicas, name) {
      RegisterRolloutFrame(s, name, now, rs);
      var t := RegisterRollout(s, name, now, rs).state;
      var j := s.log + [RolloutJoined(name)];
      assert t.log[..|s.log|] == t.log[..|j|][..|s.log|];
      assert FeedsNothing(t.log[|s.log|..]) by {
        forall k | 0 <= k < |t.log[|s.log|..]| ensures !t.log[|s.log|..][k].Fed? {
          if k == 0 { assert t.log[..|j|][|s.log|] == RolloutJoined(name); }
        }
      }
    }
  }

  lemma TickCalm(s: State)
    ensures Calm(s, MonitorTick(s))
  {
    hide ShouldStop, Names;
  }

  /** No policy replica leaves while rollouts are waiting. */
  predicate CrewStays(s: State, es: seq<Event>)
    decreases es
  {
    es == [] || ((es[0].PolicyDown? ==> s.queues.shared == []) && CrewStays(Apply(s, es[0]), es[1..]))
  }

  lemma {:induction false} RunKeepsFresh(s: State, es: seq<Event>)
    requires Fresh(s) && CrewStays(s, es)
    ensures Fresh(Run(s, es))
    decreases es
  {
    hide Apply;
    if es != [] {
      StepKeepsFresh(s, es[0]);
      RunKeepsFresh(Apply(s, es[0]), es[1..]);
    }
  }

  /** Every rollout of every run that reaches a trainer in step k carries a weight
      version of at least k - 1 - allowed_outdated_steps. */
  lemma {:induction false} TrainedRolloutsFresh(cfg: Config, np: nat, nr: nat, step: int, remain: int, es: seq<Event>, k: nat)
    requires !cfg.rankInMesh && CrewStays(Init(cfg, np, nr, step, remain), es)
    requires var log := Run(Init(cfg, np, nr, step, remain), es).log; k < |log| && log[k].Fed?
    ensures var e := Run(Init(cfg, np, nr, step, remain), es).log[k];
            e.step - 1 - e.rollout.version <= cfg.allowed
  {
    hide Run, CrewStays;
    RunKeepsFresh(Init(cfg, np, nr, step, remain), es);
    ConfigKept(Init(cfg, np, nr, step, remain), es);
  }
}
