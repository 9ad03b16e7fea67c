/** Workers that acknowledge each training command they were sent, once and in
    order, never have more than one command outstanding, and that one belongs to
    the current step. */
module Lockstep {
  import opened Types
  import opened Fleet
  import opened Protocol
  import opened Logs
  import opened Runs
  import opened Shutdown

  /** How one log entry changes the commands `q` that replica `n` has yet to acknowledge. */
  function After(q: seq<(int, int)>, e: Entry, n: Name): seq<(int, int)> {
    if e.PolicyJoined? && e.who == n then []
    else if e.Sent? && e.to == n && TrainingCommand(e.cmd) then q + [(e.cmd.step, e.cmd.total)]
    else if e.Acked? && e.acker == n && q != [] then q[1..]
    else q
  }

  /** The training commands sent to `n` since it joined that it has not acknowledged, oldest first. */
  function Outstanding(log: seq<Entry>, n: Name): seq<(int, int)> {
    if log == [] then [] else After(Outstanding(log[..|log| - 1], n), log[|log| - 1], n)
  }

  /** A policy replica acknowledges the oldest command it has not acknowledged yet. */
  predicate Orderly(s: State, e: Event) {
    e.Acking? ==> Outstanding(s.log, e.name) != [] && Outstanding(s.log, e.name)[0] == (e.step, e.total)
  }

  predicate OrderlyRun(s: State, es: seq<Event>)
    decreases es
  {
    es == [] || (Orderly(s, es[0]) && OrderlyRun(Apply(s, es[0]), es[1..]))
  }

  // ---- how the log decides what is outstanding -----------------------------

  predicate Unrelated(e: Entry) {
    !e.PolicyJoined? && !e.Acked? && (e.Sent? ==> !TrainingCommand(e.cmd))
  }

  /** `b` extends `a` by entries that neither give work nor acknowledge it. */
  predicate Quiet(a: seq<Entry>, b: seq<Entry>) {
    |a| <= |b| && b[..|a|] == a && forall k :: |a| <= k < |b| ==> Unrelated(b[k])
  }

  lemma {:induction false} OutstandingQuiet(a: seq<Entry>, b: seq<Entry>, n: Name)
    requires Quiet(a, b)
    ensures Outstanding(b, n) == Outstanding(a, n)
    decreases |b|
  {
    if |b| > |a| {
      var c := b[..|b| - 1];
      assert c[..|a|] == b[..|a|];
      OutstandingQuiet(a, c, n);
      assert Unrelated(b[|b| - 1]);
    } else { assert b == a; }
  }

  lemma {:induction false} OutstandingNext(log: seq<Entry>, e: Entry, n: Name)
    ensures Outstanding(log + [e], n) == After(Outstanding(log, n), e, n)
  {
    assert (log + [e])[..|log|] == log;
  }

  lemma {:induction false} BroadcastLast(log: seq<Entry>, to: seq<Name>, cmd: Command)
    requires to != []
    ensures log + Broadcast(to, cmd) == (log + Broadcast(to[..|to| - 1], cmd)) + [Sent(to[|to| - 1], cmd)]
  {
    assert Broadcast(to, cmd) == Broadcast(to[..|to| - 1], cmd) + [Sent(to[|to| - 1], cmd)];
  }

  lemma {:induction false} OutstandingBroadcast(log: seq<Entry>, to: seq<Name>, cmd: Command, n: Name)
    requires TrainingCommand(cmd) && Distinct(to)
    ensures Outstanding(log + Broadcast(to, cmd), n) ==
            if n in to then Outstanding(log, n) + [(cmd.step, cmd.total)] else Outstanding(log, n)
    decreases |to|
  {
    if to == [] { assert log + Broadcast(to, cmd) == log; }
    else {
      var init, last := to[..|to| - 1], to[|to| - 1];
      assert to == init + [last];
      assert last !in init;
      OutstandingBroadcast(log, init, cmd, n);
      BroadcastLast(log, to, cmd);
      OutstandingNext(log + Broadcast(init, cmd), Sent(last, cmd), n);
    }
  }

  // ---- the invariant -------------------------------------------------------

  function NameSet(rs: seq<Replica>): set<Name> { set n | n in Names(rs) }

  /** The step whose command a running replica is working on. */
  function WorkStep(s: State): int {
    if s.closing.synthetic.Some? then s.closing.synthetic.value else s.at.step
  }

  predicate Busy(q: seq<(int, int)>, status: PolicyStatus, step: int) {
    if status == Running then |q| == 1 && q[0].0 == step else q == []
  }

  ghost predicate Roster(crew: Crew) {
    && Distinct(Names(crew.replicas))
    && crew.status.Keys == NameSet(crew.replicas)
    && (!crew.initDone ==> AllIn(crew.status, {Uninitialized}))
  }

  predicate AllBusy(log: seq<Entry>, status: map<Name, PolicyStatus>, step: int) {
    forall n :: n in status ==> Busy(Outstanding(log, n), status[n], step)
  }

  /** No dispatch record is ahead of the step counter. */
  predicate NoneAhead(d: map<int, int>, step: int) { forall k :: k in d ==> k <= step }

  ghost predicate InStep(s: State) {
    && Roster(s.crew)
    && AllBusy(s.log, s.crew.status, WorkStep(s))
    && NoneAhead(s.ledger.dispatched, s.at.step)
  }

  lemma QuietBusy(a: seq<Entry>, b: seq<Entry>, status: map<Name, PolicyStatus>, step: int)
    requires Quiet(a, b) && AllBusy(a, status, step)
    ensures AllBusy(b, status, step)
  {
    forall n | n in status ensures Busy(Outstanding(b, n), status[n], step) { OutstandingQuiet(a, b, n); }
  }

  lemma ServicedQuiet(a: seq<Entry>, b: seq<Entry>)
    requires Serviced(a, b)
    ensures Quiet(a, b)
  {
  }

  /** `t` differs from `s` in nothing that concerns work in progress. */
  predicate Undisturbed(s: State, t: State) {
    && Quiet(s.log, t.log)
    && t.crew.status == s.crew.status
    && Names(t.crew.replicas) == Names(s.crew.replicas)
    && t.crew.initDone == s.crew.initDone
    && WorkStep(t) == WorkStep(s)
    && t.at.step == s.at.step
    && t.ledger.dispatched.Keys <= s.ledger.dispatched.Keys
  }

  lemma UndisturbedInStep(s: State, t: State)
    requires InStep(s) && Undisturbed(s, t)
    ensures InStep(t)
  {
    hide Quiet, AllBusy, Distinct, WorkStep, Names;
    QuietBusy(s.log, t.log, s.crew.status, WorkStep(s));
    assert NameSet(t.crew.replicas) == NameSet(s.crew.replicas);
  }

  /** Handing a training command to every replica of an idle crew. */
  lemma WorkHandedOut(a: seq<Entry>, crew: Crew, cmd: Command, was: int)
    requires TrainingCommand(cmd) && Roster(crew) && Idle(crew) && AllBusy(a, crew.status, was)
    ensures AllBusy(a + Broadcast(Names(crew.replicas), cmd), SetAll(crew.status, Names(crew.replicas), Running), cmd.step)
  {
    hide Broadcast;
    var to := Names(crew.replicas);
    var status := SetAll(crew.status, to, Running);
    forall n | n in status ensures Busy(Outstanding(a + Broadcast(to, cmd), n), status[n], cmd.step) {
      OutstandingBroadcast(a, to, cmd, n);
      assert n in NameSet(crew.replicas);
      assert Busy(Outstanding(a, n), crew.status[n], was);
    }
  }

  lemma SetAllRoster(crew: Crew, v: PolicyStatus)
    requires Roster(crew) && (crew.initDone || crew.replicas == [])
    ensures Roster(crew.(status := SetAll(crew.status, Names(crew.replicas), v)))
  {
    hide Distinct;
    assert crew.replicas == [] ==> Names(crew.replicas) == [];
  }

  lemma DispatchInStep(s: State)
    requires InStep(s) && CanDispatch(s) && !Closed(s.closing)
    ensures InStep(Dispatch(s))
  {
    hide Finished, Enough, RanksCovered, Taken, Feed, Broadcast, AllBusy, Idle, Roster, SetAll, Names;
    var fed := Feed(s.cfg, s.queues, s.crew.replicas, s.at.step + 1);
    FeedNoStep(s);
    assert Quiet(s.log, s.log + fed);
    QuietBusy(s.log, s.log + fed, s.crew.status, s.at.step);
    WorkHandedOut(s.log + fed, s.crew, DataFetch(s.cfg.batch, s.at.step + 1, Horizon(s.closing, s.at)), s.at.step);
    IdleCrewInitialised(s.crew);
    SetAllRoster(s.crew, Running);
  }

  lemma IdleCrewInitialised(crew: Crew)
    requires Roster(crew) && Idle(crew)
    ensures crew.initDone || crew.replicas == []
  {
    if crew.replicas != [] { assert Names(crew.replicas)[0] in NameSet(crew.replicas); }
  }

  lemma CompleteInStep(s: State)
    requires InStep(s) && Idle(s.crew) && !s.closing.synthetic.Some?
    ensures InStep(TriggerComplete(s))
  {
    hide Broadcast, AllBusy, Idle, Roster, SetAll, Names;
    if s.crew.replicas != [] {
      WorkHandedOut(s.log, s.crew, TrainingComplete(s.at.step + 1, s.at.step + 1, s.at.step), s.at.step);
      IdleCrewInitialised(s.crew);
      SetAllRoster(s.crew, Running);
    }
  }

  lemma DrainInStep(s: State)
    requires InStep(s)
    ensures InStep(FinishDraining(s))
  {
    hide InStep, CanDispatch, Dispatch, Idle, AllEnded, Settle, Pending, Emptied, TriggerComplete, RealTerminalAcked, Names;
    if AllEnded(s.gens) {
      var e := EnterDraining(s);
      var c := Cleanup(e);
      UndisturbedInStep(s, e);
      SettleRecords(e.ledger, Pending(e.cfg, e.queues));
      UndisturbedInStep(e, c);
      if !Closed(e.closing) && Idle(e.crew) {
        if e.at.step < Horizon(e.closing, e.at) && CanDispatch(e) { DispatchInStep(e); }
        else if RealTerminalAcked(c.closing, c.at) { UndisturbedInStep(c, Conclude(e)); }
        else { CompleteInStep(c); }
      }
    }
  }

  /** Once every replica has reduced, nobody has work, and all become ready. */
  lemma ResumeInStep(s: State, step: int)
    requires InStep(s) && AllIn(s.crew.status, {Reduced})
    ensures InStep(Resume(s, step))
  {
    hide Resume, Serviced, Quiet, Distinct, Names, SetAll;
    var t := Resume(s, step);
    ResumeFrame(s, step);
    ServicedQuiet(s.log, t.log);
    QuietBusy(s.log, t.log, s.crew.status, WorkStep(s));
    IdleCrewInitialised(s.crew);
    SetAllRoster(s.crew, Ready);
    assert Roster(t.crew);
    forall n | n in t.crew.status ensures Busy(Outstanding(t.log, n), t.crew.status[n], WorkStep(t)) {
      assert n in s.crew.status && Busy(Outstanding(t.log, n), s.crew.status[n], WorkStep(s));
    }
  }

  lemma StepDoneInStep(s: State, step: int, total: int)
    requires Sound(s) && InStep(s) && AllIn(s.crew.status, {Reduced})
    ensures InStep(StepDone(s, step, total))
  {
    hide SettleStep, Resume, FinishDraining, CanDispatch, Dispatch, InStep, Sound, AllIn, Names;
    var a := SettleStep(s, step, total);
    SettleStepFrame(s, step, total);
    UndisturbedInStep(s, a);
    ResumeInStep(a, step);
    var c := Resume(a, step);
    if c.closing.draining { DrainInStep(c); }
    else if CanDispatch(c) {
      SettleStepKept(s, step, total);
      ResumeOpen(a, step);
      DispatchInStep(c);
    }
  }

  /** Outside the draining phase a job that may dispatch is open. */
  lemma ResumeOpen(s: State, step: int)
    requires Sound(s)
    ensures var c := Resume(s, step); !c.closing.draining && CanDispatch(c) ==> !Closed(c.closing)
  {
    hide Resume, Serviced, Idle, Enough, RanksCovered, Pending, RealCommandsBounded;
    ResumeFrame(s, step);
  }

  lemma {:induction false} AckedBusy(log: seq<Entry>, status: map<Name, PolicyStatus>, name: Name, step: int, total: int, at: int)
    requires AllBusy(log, status, at) && name in status && Outstanding(log, name) != []
    ensures AllBusy(log + [Acked(name, step, total)], status[name := Reduced], at)
  {
    forall n | n in status ensures
      Busy(Outstanding(log + [Acked(name, step, total)], n), status[name := Reduced][n], at)
    {
      OutstandingNext(log, Acked(name, step, total), n);
      assert Busy(Outstanding(log, n), status[n], at);
    }
  }

  lemma StatusOf(crew: Crew, name: Name)
    requires Roster(crew)
    ensures Has(crew.replicas, name) <==> name in crew.status
  {
    HasIffNamed(crew.replicas, name);
  }

  lemma AckInStep(s: State, name: Name, step: int, total: int)
    requires Sound(s) && InStep(s) && Orderly(s, Acking(name, step, total))
    ensures InStep(TrainAck(s, name, step, total).state)
  {
    hide StepDone, Has, Pending, RealCommandsBounded, Distinct, AllBusy;
    if Has(s.crew.replicas, name) {
      StatusOf(s.crew, name);
      var t := s.(crew := SetStatus(s.crew, name, Reduced), log := s.log + [Acked(name, step, total)]);
      AckedBusy(s.log, s.crew.status, name, step, total, WorkStep(s));
      RunningInitialised(s, name);
      assert Roster(t.crew);
      assert Sound(t) by { assert Inert(s, t); InertKept(s, t); }
      if !IsCompletionAck(s.closing, name, step) && AllIn(t.crew.status, {Reduced}) {
        StepDoneInStep(t, step, total);
      }
    }
  }

  lemma {:induction false} RunningInitialised(s: State, name: Name)
    requires InStep(s) && name in s.crew.status && Outstanding(s.log, name) != []
    ensures s.crew.status[name] == Running && s.crew.initDone
    ensures |Outstanding(s.log, name)| == 1 && Outstanding(s.log, name)[0].0 == WorkStep(s)
  {
    assert Busy(Outstanding(s.log, name), s.crew.status[name], WorkStep(s));
  }

  // ---- admission -----------------------------------------------------------

  lemma {:induction false} PutAllInStep(s: State, rs: seq<Rollout>)
    requires InStep(s) && !Closed(s.closing)
    ensures InStep(PutAll(s, rs))
    decreases rs
  {
    hide InStep, CanDispatch, Dispatch, Closed, Enqueued, Names;
    if rs != [] && CanPut(s) {
      var e := s.(queues := Enqueued(s.cfg, s.queues, rs[0]));
      UndisturbedInStep(s, e);
      if CanDispatch(e) { DispatchInStep(e); DispatchKeepsClosing(e); }
      PutAllInStep(Put(s, rs[0]), rs[1..]);
    }
  }

  lemma PostInStep(s: State, p: Post)
    requires InStep(s)
    ensures InStep(PostRollouts(s, p).state)
  {
    hide InStep, SettleDiscard, Settle, ReadCount, Accepted, MaxVersion, PutAll, Names;
    var d := Intake(s, p);
    assert d.ledger.dispatched == s.ledger.dispatched by { IntakeRecords(s, p); }
    UndisturbedInStep(s, d);
    if Closed(d.closing) {
      assert Settle(d.ledger, |p.rollouts| + (if s.cfg.dapo then p.filtered else 0)).dispatched == d.ledger.dispatched by {
        SettleRecords(d.ledger, |p.rollouts| + (if s.cfg.dapo then p.filtered else 0));
      }
      UndisturbedInStep(d, PostRollouts(s, p).state);
    } else if ReadCount(p.rollouts, d.at.step) < |p.rollouts| {
      UndisturbedInStep(d, PostRollouts(s, p).state);
    } else {
      var a := Adopt(d, p.rollouts);
      var good := Accepted(a, p.rollouts, 0);
      var f := Drop(a, |p.rollouts| - |good|);
      SettleRecords(a.ledger, |p.rollouts| - |good|);
      UndisturbedInStep(d, f);
      PutAllInStep(f, good);
    }
  }

  lemma SettleRecords(l: Ledger, count: int)
    ensures Settle(l, count).dispatched == l.dispatched
  {
  }

  lemma IntakeRecords(s: State, p: Post)
    ensures Intake(s, p).ledger.dispatched == s.ledger.dispatched
  {
  }

  lemma EndInStep(s: State, name: Name, rank: Option<int>, stays: bool)
    requires InStep(s)
    ensures InStep(RolloutEnd(s, name, rank, stays))
  {
    hide InStep, EndReport, EndsReplica, FinishDraining, Names;
    var t := s.(gens := EndReport(s.gens, name, rank, stays));
    UndisturbedInStep(s, t);
    if EndsReplica(s.gens, name, rank) {
      DrainInStep(t);
      UndisturbedInStep(FinishDraining(t), RolloutEnd(s, name, rank, stays));
    }
  }

  // ---- joining and leaving -------------------------------------------------

  lemma RebuildUndisturbed(s: State)
    ensures Undisturbed(s, RebuildPolicyMesh(s))
  {
    hide ByStart, Rank, Rearranged, Serviced, Names, RecomputeTotal, Broadcast, Quiet;
    RebuildFrame(s);
    ServicedQuiet(s.log, RebuildPolicyMesh(s).log);
    NamesRanked(s.crew.replicas, ByStart(s.crew.replicas));
  }

  lemma AddInStep(s: State, name: Name, now: int)
    requires InStep(s) && !Has(s.crew.replicas, name)
    ensures InStep(AddPolicy(s, name, now)) && AddPolicy(s, name, now).crew.status[name] == Uninitialized
  {
    hide Has, AllBusy;
    var t := AddPolicy(s, name, now);
    HasIffNamed(s.crew.replicas, name);
    assert Names(t.crew.replicas) == Names(s.crew.replicas) + [name];
    assert AllBusy(t.log, t.crew.status, WorkStep(t)) by { JoinedBusy(s.log, s.crew.status, name, WorkStep(s)); }
  }

  lemma JoinedBusy(log: seq<Entry>, status: map<Name, PolicyStatus>, name: Name, at: int)
    requires AllBusy(log, status, at)
    ensures AllBusy(log + [PolicyJoined(name)], status[name := Uninitialized], at)
  {
    var st := status[name := Uninitialized];
    forall n | n in st ensures Busy(Outstanding(log + [PolicyJoined(name)], n), st[n], at) {
      OutstandingNext(log, PolicyJoined(name), n);
      if n != name { assert Busy(Outstanding(log, n), status[n], at); }
    }
  }

  /** Replicas that had no work may become ready. */
  lemma ReadyInStep(s: State, t: State, ns: seq<Name>)
    requires InStep(s) && Quiet(s.log, t.log) && Names(t.crew.replicas) == Names(s.crew.replicas)
    requires forall n :: n in ns ==> n in s.crew.status && s.crew.status[n] == Uninitialized
    requires t.crew.status == SetAll(s.crew.status, ns, Ready) && t.crew.initDone
    requires WorkStep(t) == WorkStep(s) && t.at.step == s.at.step && t.ledger == s.ledger
    ensures InStep(t)
  {
    hide Quiet, Distinct, WorkStep, Names;
    QuietBusy(s.log, t.log, s.crew.status, WorkStep(s));
    assert NameSet(t.crew.replicas) == NameSet(s.crew.replicas);
    forall n | n in t.crew.status ensures Busy(Outstanding(t.log, n), t.crew.status[n], WorkStep(t)) {
      assert Busy(Outstanding(t.log, n), s.crew.status[n], WorkStep(s));
    }
  }

  lemma JoinInStep(s: State, name: Name)
    requires InStep(s) && s.crew.initDone && name in s.crew.status && s.crew.status[name] == Uninitialized
    ensures InStep(JoinPolicyMesh(s, name).state)
  {
    hide InStep, RebuildPolicyMesh, FirstLoaded, ByStart, Load, Names, Serviced, Quiet, Rank;
    var t := JoinPolicyMesh(s, name).state;
    JoinFrame(s, name);
    ServicedQuiet(s.log, t.log);
    RebuildUndisturbed(s);
    if !JoinPolicyMesh(s, name).raised {
      NamesLoaded(RebuildPolicyMesh(s).crew.replicas, [name]);
      assert t.crew.status == SetAll(s.crew.status, [name], Ready);
      ReadyInStep(s, t, [name]);
    }
  }

  lemma InitInStep(s: State)
    requires InStep(s) && !s.crew.initDone
    ensures InStep(InitPolicyMesh(s).state)
  {
    hide RebuildPolicyMesh, FirstLoaded, ByStart, Load, Serviced, Quiet, Rank, Distinct, AllBusy, Broadcast;
    var t := InitPolicyMesh(s).state;
    var i := s.(crew := s.crew.(initDone := true));
    var m := RebuildPolicyMesh(i);
    InitFrame(s);
    ServicedQuiet(s.log, t.log);
    RebuildUndisturbed(i);
    assert InStep(i);
    if InitPolicyMesh(s).raised { UndisturbedInStep(i, t); }
    else {
      var all := Names(m.crew.replicas);
      NamesLoaded(m.crew.replicas, all);
      forall n | n in all ensures n in s.crew.status { assert n in NameSet(s.crew.replicas); }
      ReadyInStep(i, t, all);
    }
  }

  lemma SeenInStep(s: State)
    requires InStep(s)
    ensures InStep(s.(crew := s.crew.(seen := true)))
  {
    hide InStep, Names;
    UndisturbedInStep(s, s.(crew := s.crew.(seen := true)));
  }

  lemma PolicyUpInStep(s: State, name: Name, now: int)
    requires InStep(s)
    ensures InStep(RegisterPolicy(s, name, now).state)
  {
    hide InStep, FirstPolicy, JoinPolicyMesh, InitPolicyMesh, Serviced, Quiet, Names, Load, Has;
    if !Has(s.crew.replicas, name) {
      var a := AddPolicy(s, name, now);
      AddInStep(s, name, now);
      if !(|a.crew.replicas| == 1 && a.crew.firstArrived) {
        var b := if |a.crew.replicas| == 1 then FirstPolicy(a, name) else a;
        FirstPolicyFrame(a, name);
        ServicedQuiet(a.log, FirstPolicy(a, name).log);
        NamesLoaded(a.crew.replicas, [name]);
        if |a.crew.replicas| == 1 { UndisturbedInStep(a, b); }
        if b.crew.initDone { JoinInStep(b, name); } else { InitInStep(b); }
        var o := PolicyHook(b, name);
        if !o.raised { SeenInStep(o.state); }
      }
    }
  }

  lemma {:induction false} NamesWithout(rs: seq<Replica>, name: Name)
    ensures NameSet(Without(rs, name)) == NameSet(rs) - {name}
  {
    var w := Without(rs, name);
    WithoutMembers(rs, name);
    forall n ensures n in NameSet(w) <==> n in NameSet(rs) && n != name {
      if n in Names(w) { var i :| 0 <= i < |w| && w[i].name == n; NamedBy(rs, w[i]); }
      if n in Names(rs) && n != name { var i :| 0 <= i < |rs| && rs[i].name == n; NamedBy(w, rs[i]); }
    }
  }

  lemma NamedBy(rs: seq<Replica>, r: Replica)
    requires r in rs
    ensures r.name in Names(rs)
  {
    var i :| 0 <= i < |rs| && rs[i] == r;
    assert Names(rs)[i] == r.name;
  }

  lemma {:induction false} LeaveInStep(s: State, t: State, name: Name)
    requires InStep(s) && t.crew.replicas == Without(s.crew.replicas, name)
    requires t.crew.status == s.crew.status - {name} && t.crew.initDone == s.crew.initDone
    requires t.log == s.log && WorkStep(t) == WorkStep(s) && t.at.step == s.at.step && t.ledger == s.ledger
    ensures InStep(t)
  {
    hide WorkStep, Without, NameSet, Distinct, Names, Outstanding;
    WithoutDistinct(s.crew.replicas, name);
    NamesWithout(s.crew.replicas, name);
  }

  lemma PolicyDownInStep(s: State, name: Name)
    requires InStep(s)
    ensures InStep(UnregisterPolicy(s, name).state)
  {
    hide InStep, RebuildPolicyMesh, Without, Get, Names, Quiet;
    if Has(s.crew.replicas, name) {
      var t := s.(crew := s.crew.(replicas := Without(s.crew.replicas, name),
                                  status := s.crew.status - {name}, left := s.crew.left + 1));
      LeaveInStep(s, t, name);
      RebuildUndisturbed(t);
      UndisturbedInStep(t, RebuildPolicyMesh(t));
    }
  }

  lemma RolloutUpUndisturbed(s: State, name: Name, now: int, rs: set<int>)
    ensures Undisturbed(s, RegisterRollout(s, name, now, rs).state)
  {
    hide RegisterRollout, Names, Has;
    if Has(s.gens.replicas, name) { RolloutKnown(s, name, now, rs); }
    else {
      RegisterRolloutFrame(s, name, now, rs);
      var t := RegisterRollout(s, name, now, rs).state;
      var j := s.log + [RolloutJoined(name)];
      assert t.log[..|s.log|] == t.log[..|j|][..|s.log|];
      assert t.log[|s.log|] == t.log[..|j|][|s.log|] == RolloutJoined(name);
    }
  }

  lemma OthersUndisturbed(s: State, e: Event)
    requires e.Fetching? || e.RolloutUp? || e.RolloutDown? || e.Tick?
    ensures Undisturbed(s, Apply(s, e))
  {
    hide FetchTags, HardThrottled, RegisterRollout, UnregisterRollout, ShouldStop, Names, Has, Serviced;
    match e
    case Fetching(_, _, _) =>
    case RolloutUp(name, now, rs) => RolloutUpUndisturbed(s, name, now, rs);
    case RolloutDown(name) =>
      UnregisterRolloutFrame(s, name);
      ServicedQuiet(s.log, Apply(s, e).log);
    case Tick =>
  }

  // ---- every run -----------------------------------------------------------

  lemma StepInStep(s: State, e: Event)
    requires Sound(s) && InStep(s) && Orderly(s, e)
    ensures InStep(Apply(s, e))
  {
    hide InStep, Sound, Fetch, PostRollouts, RolloutEnd, TrainAck, RegisterPolicy, UnregisterPolicy, RegisterRollout,
         UnregisterRollout, MonitorTick;
    match e
    case Posting(p) => PostInStep(s, p);
    case Ending(name, rank, stays) => EndInStep(s, name, rank, stays);
    case Acking(name, step, total) => AckInStep(s, name, step, total);
    case PolicyUp(name, now) => PolicyUpInStep(s, name, now);
    case PolicyDown(name) => PolicyDownInStep(s, name);
    case _ => OthersUndisturbed(s, e); UndisturbedInStep(s, Apply(s, e));
  }

  lemma {:induction false} RunInStep(s: State, es: seq<Event>)
    requires Sound(s) && InStep(s) && OrderlyRun(s, es)
    ensures Sound(Run(s, es)) && InStep(Run(s, es))
    decreases es
  {
    hide Apply, Sound, InStep, Orderly;
    if es != [] {
      StepKept(s, es[0]);
      StepInStep(s, es[0]);
      RunInStep(Apply(s, es[0]), es[1..]);
    }
  }

  /** On every run with orderly acknowledgements no policy replica has more than one
      training command outstanding, it has one exactly while it is running, and that
      command belongs to the current step, or to the completion once that is published. */
  lemma {:induction false} OneCommandAtATime(cfg: Config, np: nat, nr: nat, step: int, remain: int, es: seq<Event>, n: Name)
    requires OrderlyRun(Init(cfg, np, nr, step, remain), es)
    requires Has(Run(Init(cfg, np, nr, step, remain), es).crew.replicas, n)
    ensures var s := Run(Init(cfg, np, nr, step, remain), es);
            var q := Outstanding(s.log, n);
            && |q| <= 1
            && (|q| == 1 <==> n in s.crew.status && s.crew.status[n] == Running)
            && (q != [] ==> q[0].0 == if s.closing.synthetic.Some? then s.at.step + 1 else s.at.step)
  {
    hide Run, OrderlyRun, Outstanding;
    var s0 := Init(cfg, np, nr, step, remain);
    assert Names(s0.crew.replicas) == [];
    RunInStep(s0, es);
    var s := Run(s0, es);
    StatusOf(s.crew, n);
    assert Busy(Outstanding(s.log, n), s.crew.status[n], WorkStep(s));
  }
}
