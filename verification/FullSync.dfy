/** Full weights before partial ones: what the transfers of a run promise to
    every rollout replica, and which policy replicas hold weights. */
module FullSync {
  import opened Types
  import opened Fleet
  import opened Protocol
  import opened Logs
  import opened Runs

  /** A weight transfer handed to the rollout replica that is to receive it. */
  predicate Delivered(e: Entry) {
    e.Sent? && ((e.cmd.PolicyToRollout? && e.to == e.cmd.dst) || e.cmd.RolloutToRollout?)
  }

  /** The rollout replicas that were sent a full transfer since they joined. */
  function Equipped(log: seq<Entry>): set<Name> {
    if log == [] then {}
    else
      var before, e := Equipped(log[..|log| - 1]), log[|log| - 1];
      if e.RolloutJoined? then before - {e.who}
      else if Delivered(e) && !e.cmd.partial then before + {e.to}
      else before
  }

  /** A trainable-only transfer goes to a replica that was equipped before - from a policy
      replica, exactly to such a one - and a replica that passes weights on was equipped before. */
  predicate EntrySafe(before: set<Name>, e: Entry) {
    Delivered(e) ==>
      && (e.cmd.partial ==> e.to in before)
      && (e.cmd.PolicyToRollout? && e.cmd.src != e.cmd.dst && e.to in before ==> e.cmd.partial)
      && (e.cmd.RolloutToRollout? ==> e.cmd.src in before)
  }

  /** Every entry is safe where it stands. */
  predicate SyncSafe(log: seq<Entry>) {
    forall k :: 0 <= k < |log| ==> EntrySafe(Equipped(log[..k]), log[k])
  }

  // ---- extending the log ---------------------------------------------------

  lemma {:induction false} SafeNext(log: seq<Entry>, e: Entry)
    requires SyncSafe(log) && EntrySafe(Equipped(log), e)
    ensures SyncSafe(log + [e])
    ensures Equipped(log + [e]) == if e.RolloutJoined? then Equipped(log) - {e.who}
                                   else if Delivered(e) && !e.cmd.partial then Equipped(log) + {e.to}
                                   else Equipped(log)
  {
    var b := log + [e];
    assert b[..|log|] == log;
    forall k | 0 <= k < |b| ensures EntrySafe(Equipped(b[..k]), b[k]) {
      if k < |log| { assert b[..k] == log[..k]; }
    }
  }

  predicate Plain(e: Entry) { !e.RolloutJoined? && !Delivered(e) }

  predicate PlainExtension(a: seq<Entry>, b: seq<Entry>) {
    |a| <= |b| && b[..|a|] == a && forall k :: |a| <= k < |b| ==> Plain(b[k])
  }

  lemma {:induction false} PlainSafe(a: seq<Entry>, b: seq<Entry>)
    requires SyncSafe(a) && PlainExtension(a, b)
    ensures SyncSafe(b) && Equipped(b) == Equipped(a)
    decreases |b|
  {
    hide SyncSafe, Equipped, EntrySafe;
    if |b| > |a| {
      var c := b[..|b| - 1];
      assert c[..|a|] == a;
      PlainSafe(a, c);
      assert b == c + [b[|b| - 1]];
      assert EntrySafe(Equipped(c), b[|b| - 1]) by { PlainEntry(Equipped(c), b[|b| - 1]); }
      SafeNext(c, b[|b| - 1]);
    } else { assert b == a; }
  }

  lemma PlainEntry(before: set<Name>, e: Entry)
    requires Plain(e)
    ensures EntrySafe(before, e)
  {
  }

  lemma {:induction false} BroadcastSafe(log: seq<Entry>, to: seq<Name>, cmd: Command)
    requires SyncSafe(log) && cmd.RolloutToRollout? && cmd.src in Equipped(log)
    requires cmd.partial ==> forall n :: n in to ==> n in Equipped(log)
    ensures var b := log + Broadcast(to, cmd);
            && SyncSafe(b)
            && forall n :: n in Equipped(b) <==> n in Equipped(log) || n in to
    decreases |to|
  {
    hide SyncSafe, Equipped;
    if to == [] { assert log + Broadcast(to, cmd) == log; }
    else {
      var m := |to| - 1;
      BroadcastSafe(log, to[..m], cmd);
      var c := log + Broadcast(to[..m], cmd);
      assert log + Broadcast(to, cmd) == c + [Sent(to[m], cmd)];
      SafeNext(c, Sent(to[m], cmd));
      assert forall n :: n in to <==> n in to[..m] || n == to[m];
    }
  }

  // ---- transfers -----------------------------------------------------------

  /** Replicas are marked as loaded exactly when they were equipped. */
  predicate MarksTrue(rs: seq<Replica>, log: seq<Entry>) {
    forall i :: 0 <= i < |rs| ==> (rs[i].loaded <==> rs[i].name in Equipped(log))
  }

  predicate SafeSync(y: Sync) { SyncSafe(y.log) && MarksTrue(y.rollouts, y.log) }

  lemma {:induction false} LoadedEquipped(rs: seq<Replica>, log: seq<Entry>, n: Name)
    requires MarksTrue(rs, log) && Has(rs, n)
    ensures Get(rs, n).loaded <==> n in Equipped(log)
  {
    hide Equipped;
    var i :| 0 <= i < |rs| && rs[i] == Get(rs, n);
  }

  lemma UnicastSafe(y: Sync, src: Name, dst: Name, weightStep: Option<int>)
    requires SafeSync(y) && Has(y.rollouts, dst)
    ensures SafeSync(Unicast(y, src, dst, weightStep)) && dst in Equipped(Unicast(y, src, dst, weightStep).log)
  {
    hide SyncSafe, Equipped, Get;
    var cmd := PolicyToRollout(src, dst, weightStep, Get(y.rollouts, dst).loaded);
    LoadedEquipped(y.rollouts, y.log, dst);
    SafeNext(y.log, Sent(src, cmd));
    SafeNext(y.log + [Sent(src, cmd)], Sent(dst, cmd));
    assert y.log + [Sent(src, cmd), Sent(dst, cmd)] == y.log + [Sent(src, cmd)] + [Sent(dst, cmd)];
  }

  lemma {:induction false} ReachableNamed(rs: seq<Replica>, ns: seq<Name>)
    ensures forall n :: n in Reachable(rs, ns) ==> n in ns && Has(rs, n)
  {
    if ns != [] { ReachableNamed(rs, ns[1..]); }
  }

  lemma RelaySafe(y: Sync, src: Name, dsts: seq<Name>, weightStep: Option<int>)
    requires SafeSync(y) && Has(y.rollouts, src) && src in Equipped(y.log)
    ensures SafeSync(Relay(y, src, dsts, weightStep))
  {
    hide SyncSafe, Equipped, Get, Reachable, Broadcast;
    var to := Reachable(y.rollouts, dsts);
    var cmd := RolloutToRollout(src, dsts, weightStep, AllLoaded(y.rollouts, dsts));
    ReachableNamed(y.rollouts, dsts);
    if cmd.partial {
      forall n | n in to ensures n in Equipped(y.log) { LoadedEquipped(y.rollouts, y.log, n); }
    }
    BroadcastSafe(y.log, to, cmd);
  }

  lemma TransferSafe(y: Sync, src: Name, to: seq<Name>, step: int)
    requires SafeSync(y) && to != [] && Has(y.rollouts, to[0])
    ensures SafeSync(Transfer(y, src, to, step))
  {
    hide SafeSync, Relay;
    UnicastSafe(y, src, to[0], Some(step));
    RelaySafe(Unicast(y, src, to[0], Some(step)), to[0], to, Some(step));
  }

  lemma FirstWeightsSafe(g: Gens, log: seq<Entry>, src: Name, step: int)
    requires SafeSync(Sync(g.replicas, log))
    ensures SafeSync(FirstWeights(g, log, src, step))
  {
    hide SafeSync, Relay, ByStart;
    var order := ByStart(g.replicas);
    if order != [] {
      assert order[0] in order;
      var y := Sync(g.replicas, log);
      UnicastSafe(y, src, order[0], None);
      RelaySafe(Unicast(y, src, order[0], None), order[0], order, Some(step));
    }
  }

  lemma SameLoaded(rs: seq<Replica>, qs: seq<Replica>, log: seq<Entry>)
    requires MarksTrue(rs, log) && |qs| == |rs|
    requires forall i :: 0 <= i < |rs| ==> qs[i].name == rs[i].name && qs[i].loaded == rs[i].loaded
    ensures MarksTrue(qs, log)
  {
    hide Equipped;
  }

  lemma RebuildSafe(y: Sync, members: seq<Replica>)
    requires SafeSync(y)
    ensures SafeSync(RebuildRolloutMesh(y, members))
    ensures Equipped(RebuildRolloutMesh(y, members).log) == Equipped(y.log)
  {
    hide SyncSafe, Equipped, ByStart;
    var t := RebuildRolloutMesh(y, members);
    assert PlainExtension(y.log, t.log);
    PlainSafe(y.log, t.log);
    assert MarksTrue(y.rollouts, t.log);
    SameLoaded(y.rollouts, t.rollouts, t.log);
  }

  lemma SettleMeshSafe(g: Gens, y: Sync, step: int)
    requires SafeSync(y)
    ensures SafeSync(SettleRolloutMesh(g, y, step))
  {
    hide SyncSafe, Equipped, ByStart, RebuildRolloutMesh, Relay, Names, Get;
    var built := RebuildRolloutMesh(y, y.rollouts);
    RebuildSafe(y, y.rollouts);
    var src := FirstLoaded(built.rollouts, ByStart(built.rollouts));
    if src.Some? {
      LoadedEquipped(built.rollouts, built.log, src.value);
      RelaySafe(built, src.value, Names(built.rollouts), Some(step));
    }
  }

  // ---- every event ---------------------------------------------------------

  predicate FullFirst(s: State) { SafeSync(Sync(s.gens.replicas, s.log)) }

  lemma PlainFullFirst(s: State, t: State)
    requires FullFirst(s) && PlainExtension(s.log, t.log) && |t.gens.replicas| == |s.gens.replicas|
    requires forall i :: 0 <= i < |s.gens.replicas| ==>
               t.gens.replicas[i].name == s.gens.replicas[i].name && t.gens.replicas[i].loaded == s.gens.replicas[i].loaded
    ensures FullFirst(t)
  {
    hide SyncSafe, Equipped, PlainExtension;
    PlainSafe(s.log, t.log);
    assert MarksTrue(s.gens.replicas, t.log);
    SameLoaded(s.gens.replicas, t.gens.replicas, t.log);
  }

  lemma WorkedPlain(a: seq<Entry>, b: seq<Entry>)
    requires Worked(a, b)
    ensures PlainExtension(a, b)
  {
  }

  lemma ResumeFullFirst(s: State, step: int)
    requires FullFirst(s)
    ensures FullFirst(Resume(s, step))
  {
    hide SafeSync, Transfer, ByStart, SetAll, Names, SafeTargets, SyncDue;
    var to := SafeTargets(s.gens);
    if to != [] && s.crew.replicas != [] {
      assert to[0] in to;
      TransferSafe(Sync(s.gens.replicas, s.log), ByStart(s.crew.replicas)[0], to, step);
    }
  }

  lemma AckFullFirst(s: State, name: Name, step: int, total: int)
    requires FullFirst(s)
    ensures FullFirst(TrainAck(s, name, step, total).state)
  {
    hide FullFirst, SettleStep, TakeRecord, Resume, FinishDraining, CanDispatch, Dispatch, AllIn, Has, Worked;
    var t := s.(crew := SetStatus(s.crew, name, Reduced), log := s.log + [Acked(name, step, total)]);
    PlainFullFirst(s, t);
    var a := SettleStep(t, step, total);
    SettleStepFrame(t, step, total);
    PlainFullFirst(t, a);
    var c := Resume(a, step);
    ResumeFullFirst(a, step);
    DrainFrame(c);
    WorkedPlain(c.log, FinishDraining(c).log);
    PlainFullFirst(c, FinishDraining(c));
    if CanDispatch(c) {
      DispatchFrame(c);
      WorkedPlain(c.log, Dispatch(c).log);
      PlainFullFirst(c, Dispatch(c));
    }
    TakeRecordFrame(t, step);
    PlainFullFirst(t, TakeRecord(t, step));
    if IsCompletionAck(s.closing, name, step) { PlainFullFirst(t, t.(closing := RecordCompletionAck(s.closing, name))); }
  }

  lemma PostFullFirst(s: State, p: Post)
    requires FullFirst(s)
    ensures FullFirst(PostRollouts(s, p).state)
  {
    hide FullFirst, PostRollouts;
    PostFrame(s, p);
    PlainFullFirst(s, PostRollouts(s, p).state);
  }

  lemma EndFullFirst(s: State, name: Name, rank: Option<int>, stays: bool)
    requires FullFirst(s)
    ensures FullFirst(RolloutEnd(s, name, rank, stays))
  {
    hide FullFirst, EndReportCounts, EndsReplica, FinishDraining, Worked;
    var t := s.(gens := EndReport(s.gens, name, rank, stays));
    PlainFullFirst(s, t);
    DrainFrame(t);
    WorkedPlain(t.log, FinishDraining(t).log);
    if EndsReplica(s.gens, name, rank) { PlainFullFirst(t, RolloutEnd(s, name, rank, stays)); }
  }

  lemma FirstPolicyFullFirst(s: State, name: Name)
    requires FullFirst(s)
    ensures FullFirst(FirstPolicy(s, name))
  {
    hide FullFirst, FirstWeights, Load;
    var r := s.(log := s.log + [Sent(name, WeightResume)]);
    PlainFullFirst(s, r);
    assert FullFirst(r);
    FirstWeightsFullFirst(r, name);
    PlainFullFirst(r.(gens := r.gens.(replicas := FirstWeights(r.gens, r.log, name, r.at.step).rollouts),
                      log := FirstWeights(r.gens, r.log, name, r.at.step).log), FirstPolicy(s, name));
  }

  lemma FirstWeightsFullFirst(s: State, name: Name)
    requires FullFirst(s)
    ensures var y := FirstWeights(s.gens, s.log, name, s.at.step);
            FullFirst(s.(gens := s.gens.(replicas := y.rollouts), log := y.log))
  {
    hide SafeSync, FirstWeights;
    FirstWeightsSafe(s.gens, s.log, name, s.at.step);
  }

  lemma PolicyUpFullFirst(s: State, name: Name, now: int)
    requires FullFirst(s)
    ensures FullFirst(RegisterPolicy(s, name, now).state)
  {
    hide FullFirst, FirstPolicy, PolicyHook, Has;
    if !Has(s.crew.replicas, name) {
      var a := AddPolicy(s, name, now);
      PlainFullFirst(s, a);
      FirstPolicyFullFirst(a, name);
      var b := if |a.crew.replicas| == 1 then FirstPolicy(a, name) else a;
      HookPlain(b, name);
      PlainFullFirst(b, PolicyHook(b, name).state);
      PlainFullFirst(b, PolicyHook(b, name).state.(crew := PolicyHook(b, name).state.crew.(seen := true)));
    }
  }

  /** The registration hook moves weights between policy replicas only. */
  lemma HookPlain(s: State, name: Name)
    ensures PlainExtension(s.log, PolicyHook(s, name).state.log)
    ensures PolicyHook(s, name).state.gens == s.gens
  {
    hide PolicyHook, Serviced;
    PolicyHookFrame(s, name);
  }

  lemma PolicyDownPlain(s: State, name: Name)
    ensures PlainExtension(s.log, UnregisterPolicy(s, name).state.log)
    ensures UnregisterPolicy(s, name).state.gens == s.gens
  {
    hide Without, Get, Has, ByStart, Rank, Rearranged, RecomputeTotal;
  }

  lemma RolloutUpFullFirst(s: State, name: Name, now: int, reporters: set<int>)
    requires FullFirst(s)
    ensures FullFirst(RegisterRollout(s, name, now, reporters).state)
  {
    hide SafeSync, FirstTransfer, SettleRolloutMesh;
    if !Has(s.gens.replicas, name) {
      var rs := s.gens.replicas + [Replica(name, now, false, -1, false, reporters)];
      var g := s.gens.(replicas := rs, nInit := if s.gens.initDone then s.gens.nInit else Max(s.gens.nInit, |rs|));
      assert rs[|s.gens.replicas|].name == name;
      var y := Sync(rs, s.log + [RolloutJoined(name)]);
      JoinedSafe(s, name, now, reporters);
      FirstTransferSafe(y, s.crew, name);
      SettleMeshSafe(g, FirstTransfer(y, s.crew, name), s.at.step);
    }
  }

  lemma JoinedSafe(s: State, name: Name, now: int, reporters: set<int>)
    requires FullFirst(s) && !Has(s.gens.replicas, name)
    ensures SafeSync(Sync(s.gens.replicas + [Replica(name, now, false, -1, false, reporters)], s.log + [RolloutJoined(name)]))
  {
    hide SyncSafe, Equipped;
    SafeNext(s.log, RolloutJoined(name));
  }

  lemma FirstTransferSafe(y: Sync, crew: Crew, name: Name)
    requires SafeSync(y) && Has(y.rollouts, name)
    ensures SafeSync(FirstTransfer(y, crew, name))
  {
    hide SafeSync, ByNameThenStart, Unicast, FirstLoaded;
    var src := FirstLoaded(crew.replicas, ByNameThenStart(crew.replicas));
    if src.Some? { UnicastSafe(y, src.value, name, None); }
  }

  lemma {:induction false} WithoutMarks(rs: seq<Replica>, name: Name, log: seq<Entry>)
    requires MarksTrue(rs, log)
    ensures MarksTrue(Without(rs, name), log)
  {
    hide Equipped;
    WithoutMembers(rs, name);
    var w := Without(rs, name);
    forall i | 0 <= i < |w| ensures w[i].loaded <==> w[i].name in Equipped(log) {
      assert w[i] in rs;
      var j :| 0 <= j < |rs| && rs[j] == w[i];
    }
  }

  lemma RolloutDownFullFirst(s: State, name: Name)
    requires FullFirst(s)
    ensures FullFirst(UnregisterRollout(s, name).state)
  {
    hide SyncSafe, MarksTrue, Without, Get, SafeSurvivors, RebuildRolloutMesh, Has;
    if Has(s.gens.replicas, name) {
      var w := Without(s.gens.replicas, name);
      WithoutMarks(s.gens.replicas, name, s.log);
      RebuildSafe(Sync(w, s.log), SafeSurvivors(w, s.gens.participants - {name}));
    }
  }

  lemma StepFullFirst(s: State, e: Event)
    requires FullFirst(s)
    ensures FullFirst(Apply(s, e))
  {
    hide FullFirst, Fetch, PostRollouts, RolloutEnd, TrainAck, RegisterPolicy, UnregisterPolicy, RegisterRollout,
         UnregisterRollout, ShouldStop, Names;
    match e
    case Fetching(_, m, x) => FetchPlain(s, m, x); PlainFullFirst(s, Apply(s, e));
    case Posting(p) => PostFullFirst(s, p);
    case Ending(name, rank, stays) => EndFullFirst(s, name, rank, stays);
    case Acking(name, step, total) => AckFullFirst(s, name, step, total);
    case PolicyUp(name, now) => PolicyUpFullFirst(s, name, now);
    case PolicyDown(name) => PolicyDownPlain(s, name); PlainFullFirst(s, Apply(s, e));
    case RolloutUp(name, now, rs) => RolloutUpFullFirst(s, name, now, rs);
    case RolloutDown(name) => RolloutDownFullFirst(s, name);
    case Tick => PlainFullFirst(s, Apply(s, e));
  }

  lemma FetchPlain(s: State, m: nat, x: bool)
    ensures Fetch(s, m, x).state.gens == s.gens && Fetch(s, m, x).state.log == s.log
  {
    hide FetchTags, HardThrottled;
  }

  lemma {:induction false} RunFullFirst(s: State, es: seq<Event>)
    requires FullFirst(s)
    ensures FullFirst(Run(s, es))
    decreases es
  {
    hide Apply, FullFirst;
    if es != [] {
      StepFullFirst(s, es[0]);
      RunFullFirst(Apply(s, es[0]), es[1..]);
    }
  }

  // ---- the result ----------------------------------------------------------

  lemma {:induction false} EquippedBy(log: seq<Entry>, n: Name) returns (j: nat)
    requires n in Equipped(log)
    ensures j < |log| && Delivered(log[j]) && log[j].to == n && !log[j].cmd.partial
    ensures forall i :: j < i < |log| ==> log[i] != RolloutJoined(n)
  {
    var m := |log| - 1;
    if Delivered(log[m]) && !log[m].cmd.partial && log[m].to == n { j := m; }
    else { j := EquippedBy(log[..m], n); }
  }

  /** On every run, a trainable-only transfer to a rollout replica comes after a full one
      to it, with no re-registration in between; and a replica that passes weights on to
      others has been sent a full transfer itself. */
  lemma {:induction false} FullBeforePartial(cfg: Config, np: nat, nr: nat, step: int, remain: int, es: seq<Event>, k: nat, n: Name)
    requires var log := Run(Init(cfg, np, nr, step, remain), es).log;
             && k < |log| && Delivered(log[k])
             && ((log[k].cmd.partial && n == log[k].to) || (log[k].cmd.RolloutToRollout? && n == log[k].cmd.src))
    ensures var log := Run(Init(cfg, np, nr, step, remain), es).log;
            exists j :: 0 <= j < k && Delivered(log[j]) && log[j].to == n && !log[j].cmd.partial
                        && forall i :: j < i < k ==> log[i] != RolloutJoined(n)
  {
    hide Run, Equipped;
    var s0 := Init(cfg, np, nr, step, remain);
    RunFullFirst(s0, es);
    var log := Run(s0, es).log;
    assert EntrySafe(Equipped(log[..k]), log[k]);
    var j := EquippedBy(log[..k], n);
    assert log[..k][j] == log[j];
    forall i | j < i < k ensures log[i] != RolloutJoined(n) { assert log[..k][i] == log[i]; }
  }

  /** On every run a rollout replica is marked as loaded exactly when a full transfer was sent to
      it since it joined, and a transfer from a policy replica is trainable-only exactly when its
      receiver had been sent a full one. */
  lemma {:induction false} MarksAreExact(cfg: Config, np: nat, nr: nat, step: int, remain: int, es: seq<Event>, i: nat, k: nat)
    ensures var s := Run(Init(cfg, np, nr, step, remain), es);
            && (i < |s.gens.replicas| ==> (s.gens.replicas[i].loaded <==> s.gens.replicas[i].name in Equipped(s.log)))
            && (k < |s.log| && Delivered(s.log[k]) && s.log[k].cmd.PolicyToRollout? && s.log[k].cmd.src != s.log[k].to ==>
                  (s.log[k].cmd.partial <==> s.log[k].to in Equipped(s.log[..k])))
  {
    hide Run, Equipped;
    RunFullFirst(Init(cfg, np, nr, step, remain), es);
    var s := Run(Init(cfg, np, nr, step, remain), es);
    if k < |s.log| { assert EntrySafe(Equipped(s.log[..k]), s.log[k]); }
  }

  // ---- policy replicas -----------------------------------------------------

  predicate AllHold(rs: seq<Replica>) { forall i :: 0 <= i < |rs| ==> rs[i].loaded }

  /** The replica that resumed the weights is there as long as anyone is: before the
      initialisation it alone holds weights, afterwards everyone does. */
  ghost predicate Anchored(crew: Crew) {
    && Distinct(Names(crew.replicas))
    && (!crew.firstArrived ==> crew.replicas == [] && !crew.initDone)
    && (crew.replicas != [] ==> crew.replicas[0].loaded)
    && (if crew.initDone then AllHold(crew.replicas) else forall i :: 1 <= i < |crew.replicas| ==> !crew.replicas[i].loaded)
  }

  lemma {:induction false} SourceFound(rs: seq<Replica>)
    requires Distinct(Names(rs)) && rs != [] && rs[0].loaded
    ensures FirstLoaded(rs, ByStart(rs)).Some?
  {
    hide ByStart;
    GetAt(rs, 0);
    assert rs[0].name in ByStart(rs);
  }

  lemma JoinAnchored(s: State, name: Name)
    requires s.crew.initDone && s.crew.firstArrived && Distinct(Names(s.crew.replicas)) && s.crew.replicas != []
    requires forall i :: 0 <= i < |s.crew.replicas| ==> s.crew.replicas[i].loaded || s.crew.replicas[i].name == name
    requires s.crew.replicas[0].loaded
    ensures !JoinPolicyMesh(s, name).raised && Anchored(JoinPolicyMesh(s, name).state.crew)
  {
    hide ByStart, Rearranged, RecomputeTotal, Rank, Distinct;
    SourceFound(s.crew.replicas);
    NamesRanked(s.crew.replicas, ByStart(s.crew.replicas));
    var m := RebuildPolicyMesh(s);
    var rs := Load(m.crew.replicas, [name]);
    assert Names(rs) == Names(s.crew.replicas);
    assert AllHold(rs);
  }

  lemma LoadAll(rs: seq<Replica>)
    ensures AllHold(Load(rs, Names(rs))) && Names(Load(rs, Names(rs))) == Names(rs)
  {
    forall i | 0 <= i < |rs| ensures Load(rs, Names(rs))[i].loaded { assert Names(rs)[i] in Names(rs); }
  }

  lemma InitAnchored(s: State)
    requires Anchored(s.crew) && s.crew.replicas != [] && s.crew.firstArrived
    ensures !InitPolicyMesh(s).raised && Anchored(InitPolicyMesh(s).state.crew)
  {
    hide ByStart, RebuildPolicyMesh, Rank, Distinct, SetAll, Load, Names, FirstLoaded, Broadcast;
    var i := s.(crew := s.crew.(initDone := true));
    NamesRanked(s.crew.replicas, ByStart(s.crew.replicas));
    var m := RebuildPolicyMesh(i);
    assert m.crew == i.crew.(replicas := Rank(s.crew.replicas, ByStart(s.crew.replicas))) by { RebuildCrew(i); }
    SourceFound(m.crew.replicas);
    LoadAll(m.crew.replicas);
    assert |m.crew.replicas| == 1 ==> AllHold(m.crew.replicas);
  }

  lemma RebuildCrew(s: State)
    ensures RebuildPolicyMesh(s).crew == s.crew.(replicas := Rank(s.crew.replicas, ByStart(s.crew.replicas)))
  {
    hide ByStart, Rank, Broadcast, Rearranged, RecomputeTotal;
  }

  /** Nobody holds weights. */
  predicate NoneHold(rs: seq<Replica>) { forall i :: 0 <= i < |rs| ==> !rs[i].loaded }

  /** A weight source is found exactly when somebody holds weights. */
  lemma {:induction false} SourceIffHeld(rs: seq<Replica>)
    requires Distinct(Names(rs))
    ensures FirstLoaded(rs, ByStart(rs)).None? <==> NoneHold(rs)
  {
    hide ByStart, Get, Distinct, Names;
    forall i | 0 <= i < |rs| ensures Has(rs, rs[i].name) && Get(rs, rs[i].name) == rs[i] && rs[i].name in ByStart(rs) {
      GetAt(rs, i);
    }
  }

  lemma {:induction false} InitRaisesIff(s: State)
    requires Distinct(Names(s.crew.replicas))
    ensures InitPolicyMesh(s).raised <==> |s.crew.replicas| > 1 && NoneHold(s.crew.replicas)
    ensures InitPolicyMesh(s).raised ==>
              InitPolicyMesh(s).state.crew ==
              s.crew.(initDone := true, replicas := Rank(s.crew.replicas, ByStart(s.crew.replicas)))
  {
    hide RebuildPolicyMesh, ByStart, Rank, Distinct, Names, FirstLoaded, Load, SetAll, Broadcast;
    var i := s.(crew := s.crew.(initDone := true));
    RebuildCrew(i);
    NamesRanked(s.crew.replicas, ByStart(s.crew.replicas));
    SourceIffHeld(RebuildPolicyMesh(i).crew.replicas);
  }

  /** With the new replica in place, whether its hook finds weights for the crew. */
  lemma {:induction false} HookRaisesIff(s: State, name: Name)
    requires Distinct(Names(s.crew.replicas))
    ensures PolicyHook(s, name).raised <==>
            && NoneHold(s.crew.replicas)
            && (s.crew.initDone || (|s.crew.replicas| >= s.crew.nInit && |s.crew.replicas| > 1))
  {
    hide InitPolicyMesh, RebuildPolicyMesh, ByStart, Distinct, Names, FirstLoaded, Load;
    SourceIffHeld(s.crew.replicas);
    InitRaisesIff(s);
  }

  /** A registration fails exactly for a known name; for the first replica after all of them
      have left; and when nobody in a crew has weights for it, the crew being initialised
      already or complete with it. */
  lemma {:induction false} RegistrationRaisesIff(s: State, name: Name, now: int)
    requires Distinct(Names(s.crew.replicas))
    ensures RegisterPolicy(s, name, now).raised <==>
            || Has(s.crew.replicas, name)
            || (s.crew.replicas == [] && s.crew.firstArrived)
            || (&& s.crew.replicas != [] && NoneHold(s.crew.replicas)
                && (s.crew.initDone || |s.crew.replicas| + 1 >= s.crew.nInit))
  {
    hide Distinct, Names, FirstWeights, PolicyHook, Has;
    if !Has(s.crew.replicas, name) {
      var a := AddPolicy(s, name, now);
      NewName(s.crew.replicas, name, a.crew.replicas);
      assert a.crew.replicas[..|s.crew.replicas|] == s.crew.replicas;
      assert NoneHold(a.crew.replicas) <==> NoneHold(s.crew.replicas);
      if s.crew.replicas == [] && !s.crew.firstArrived {
        var b := FirstPolicy(a, name);
        assert b.crew.replicas[0].loaded;
        NamesLoaded(a.crew.replicas, [name]);
        HookRaisesIff(b, name);
      } else if s.crew.replicas != [] { HookRaisesIff(a, name); }
    }
  }

  /** A successful registration keeps the weights within reach. */
  lemma RegistrationKeepsWeights(s: State, name: Name, now: int)
    requires Anchored(s.crew) && !RegisterPolicy(s, name, now).raised
    ensures Anchored(RegisterPolicy(s, name, now).state.crew)
  {
    hide Distinct, FirstWeights, JoinPolicyMesh, InitPolicyMesh, Has;
    var a := AddPolicy(s, name, now);
    NewName(s.crew.replicas, name, a.crew.replicas);
    var b := if |a.crew.replicas| == 1 then FirstPolicy(a, name) else a;
    assert Names(b.crew.replicas) == Names(a.crew.replicas);
    if b.crew.initDone { JoinAnchored(b, name); }
    else if |b.crew.replicas| >= b.crew.nInit { InitAnchored(b); }
  }

  // ---- a crew without weights ----------------------------------------------

  /** Weights were there once and are gone: whatever crew there is holds none. */
  ghost predicate Barren(crew: Crew) {
    Distinct(Names(crew.replicas)) && crew.firstArrived && NoneHold(crew.replicas)
  }

  lemma RankBarren(crew: Crew, members: seq<Name>)
    requires Barren(crew)
    ensures Barren(crew.(replicas := Rank(crew.replicas, members)))
  {
    hide Distinct, Rank, Names;
    NamesRanked(crew.replicas, members);
  }

  /** A registration into such a crew brings no weights and makes nobody ready. */
  lemma {:induction false} BarrenUp(s: State, name: Name, now: int)
    requires Barren(s.crew)
    ensures var t := RegisterPolicy(s, name, now).state.crew;
            && Barren(t) && (s.crew.initDone ==> t.initDone)
            && t.status == if Has(s.crew.replicas, name) then s.crew.status else s.crew.status[name := Uninitialized]
  {
    hide Distinct, Names, Has, InitPolicyMesh, RebuildPolicyMesh, FirstLoaded, ByStart, Load;
    if !Has(s.crew.replicas, name) {
      var a := AddPolicy(s, name, now);
      NewName(s.crew.replicas, name, a.crew.replicas);
      assert Barren(a.crew);
      SourceIffHeld(a.crew.replicas);
      InitRaisesIff(a);
      RankBarren(a.crew.(initDone := true), ByStart(a.crew.replicas));
    }
  }

  lemma {:induction false} BarrenDown(s: State, name: Name)
    requires Barren(s.crew)
    ensures var t := UnregisterPolicy(s, name).state.crew;
            && Barren(t) && t.initDone == s.crew.initDone
            && t.status == if Has(s.crew.replicas, name) then s.crew.status - {name} else s.crew.status
  {
    hide Distinct, Names, Has, RebuildPolicyMesh, ByStart, Without, Get, Rank, Finished;
    if Has(s.crew.replicas, name) {
      var t := s.(crew := s.crew.(replicas := Without(s.crew.replicas, name),
                                  status := s.crew.status - {name}, left := s.crew.left + 1));
      WithoutDistinct(s.crew.replicas, name);
      WithoutMembers(s.crew.replicas, name);
      forall i | 0 <= i < |t.crew.replicas| ensures !t.crew.replicas[i].loaded {
        assert t.crew.replicas[i] in t.crew.replicas;
      }
      RebuildCrew(t);
      RankBarren(t.crew, ByStart(t.crew.replicas));
    }
  }

  lemma StepBarren(s: State, e: Event)
    requires Barren(s.crew)
    ensures Barren(Apply(s, e).crew) && (s.crew.initDone ==> Apply(s, e).crew.initDone)
  {
    hide Fetch, PostRollouts, RolloutEnd, TrainAck, RegisterPolicy, UnregisterPolicy, RegisterRollout,
         UnregisterRollout, MonitorTick, Distinct, Names;
    if e.PolicyUp? { BarrenUp(s, e.name, e.now); }
    else if e.PolicyDown? { BarrenDown(s, e.name); }
    else { OnlyRegistrationChangesCrew(s, e); }
  }

  lemma {:induction false} RunBarren(s: State, es: seq<Event>)
    requires Barren(s.crew)
    ensures Barren(Run(s, es).crew) && (s.crew.initDone ==> Run(s, es).crew.initDone)
    decreases es
  {
    hide Apply, Barren;
    if es != [] {
      StepBarren(s, es[0]);
      RunBarren(Apply(s, es[0]), es[1..]);
    }
  }

  /** An initialised job whose policy replicas have all left never accepts one again: on every
      continuation every registration fails, and no registered replica is ever given weights. */
  lemma {:induction false} LostForGood(s: State, es: seq<Event>, name: Name, now: int)
    requires s.crew.replicas == [] && s.crew.firstArrived && s.crew.initDone
    ensures var t := Run(s, es);
            RegisterPolicy(t, name, now).raised && forall i :: 0 <= i < |t.crew.replicas| ==> !t.crew.replicas[i].loaded
  {
    hide Run, RegisterPolicy;
    assert Names(s.crew.replicas) == [];
    RunBarren(s, es);
    RegistrationRaisesIff(Run(s, es), name, now);
  }

  /** Before the initialisation such a job accepts further replicas: the first registration after
      the loss fails but leaves its replica behind, and the next one goes through. */
  lemma AcceptedAfterLoss(cfg: Config, a: Name, b: Name, c: Name)
    requires a != b && a != c && b != c
    ensures var s := Run(Init(cfg, 3, 1, 0, 0), [PolicyUp(a, 0), PolicyDown(a)]);
            var t := Apply(s, PolicyUp(b, 1));
            && s.crew.replicas == [] && s.crew.firstArrived
            && RegisterPolicy(s, b, 1).raised && !RegisterPolicy(t, c, 2).raised
            && Names(RegisterPolicy(t, c, 2).state.crew.replicas) == [b, c]
  {
    hide Run, RegisterPolicy, UnregisterPolicy;
    var s0 := Init(cfg, 3, 1, 0, 0);
    var s1 := Apply(s0, PolicyUp(a, 0));
    FirstOfThree(s0, a);
    LastLeaves(s1, a);
    var s := Apply(s1, PolicyDown(a));
    RunPair(s0, PolicyUp(a, 0), PolicyDown(a));
    LeftBehind(s, b);
    SecondOfThree(Apply(s, PolicyUp(b, 1)), b, c);
  }

  lemma {:induction false} RunPair(s: State, e: Event, f: Event)
    ensures Run(s, [e, f]) == Apply(Apply(s, e), f)
  {
    hide Apply;
    assert [e, f][1..] == [f] && [f][1..] == [];
    assert Run(Apply(s, e), [f]) == Run(Apply(Apply(s, e), f), []);
  }

  lemma FirstOfThree(s: State, a: Name)
    requires s.crew == Crew([], map[], false, false, 3, 0, false) && s.gens.replicas == []
    ensures var t := RegisterPolicy(s, a, 0).state.crew;
            |t.replicas| == 1 && t.replicas[0].name == a && t.firstArrived && !t.initDone && t.nInit == 3
  {
    hide FirstWeights;
    assert |AddPolicy(s, a, 0).crew.replicas| == 1;
  }

  lemma LastLeaves(s: State, a: Name)
    requires |s.crew.replicas| == 1 && s.crew.replicas[0].name == a
    ensures var t := UnregisterPolicy(s, a).state.crew;
            t.replicas == [] && t.firstArrived == s.crew.firstArrived && t.initDone == s.crew.initDone && t.nInit == s.crew.nInit
  {
    hide RebuildPolicyMesh;
    assert s.crew.replicas[1..] == [];
    assert Without(s.crew.replicas, a) == [];
  }

  lemma LeftBehind(s: State, b: Name)
    requires s.crew.replicas == [] && s.crew.firstArrived && !s.crew.initDone && s.crew.nInit == 3
    ensures var o := RegisterPolicy(s, b, 1);
            && o.raised && Names(o.state.crew.replicas) == [b] && NoneHold(o.state.crew.replicas)
            && !o.state.crew.initDone && o.state.crew.nInit == 3
  {
    hide FirstPolicy, PolicyHook;
    assert |AddPolicy(s, b, 1).crew.replicas| == 1;
  }

  lemma SecondOfThree(s: State, b: Name, c: Name)
    requires Names(s.crew.replicas) == [b] && b != c && !s.crew.initDone && s.crew.nInit == 3
    ensures var o := RegisterPolicy(s, c, 2); !o.raised && Names(o.state.crew.replicas) == [b, c]
  {
    hide FirstPolicy, JoinPolicyMesh, InitPolicyMesh;
    HasIffNamed(s.crew.replicas, c);
    var a := AddPolicy(s, c, 2);
    assert |s.crew.replicas| == 1;
    assert Names(a.crew.replicas) == [b, c];
  }

  lemma NewName(rs: seq<Replica>, name: Name, more: seq<Replica>)
    requires Distinct(Names(rs)) && !Has(rs, name) && |more| == |rs| + 1 && more[..|rs|] == rs && more[|rs|].name == name
    ensures Distinct(Names(more))
  {
    HasIffNamed(rs, name);
    assert Names(more) == Names(rs) + [name];
  }

  lemma {:induction false} LeavingTail(rs: seq<Replica>, name: Name)
    requires rs != [] && rs[0].name != name
    ensures Without(rs, name) == [rs[0]] + Without(rs[1..], name)
  {
  }

  lemma RankAnchored(crew: Crew, members: seq<Name>)
    ensures Anchored(crew.(replicas := Rank(crew.replicas, members))) <==> Anchored(crew)
  {
    hide Distinct, Rank, Names;
    NamesRanked(crew.replicas, members);
  }

  lemma WithoutAnchored(crew: Crew, left: Crew, name: Name)
    requires Anchored(crew) && Has(crew.replicas, name)
    requires left == crew.(replicas := Without(crew.replicas, name), status := left.status, left := left.left)
    ensures Anchored(left) <==> crew.initDone || |crew.replicas| <= 1 || name != crew.replicas[0].name
  {
    hide Distinct, Names, Without, Has;
    var rs := crew.replicas;
    var w := Without(rs, name);
    WithoutDistinct(rs, name);
    WithoutMembers(rs, name);
    assert rs != [] by { SomeoneThere(rs, name); }
    if rs[0].name == name { WithoutFirst(rs); }
    else { LeavingTail(rs, name); TailUnloaded(rs, name); }
    forall i | 0 <= i < |w| ensures w[i] in rs { assert w[i] in w; }
  }

  lemma SomeoneThere(rs: seq<Replica>, name: Name)
    requires Has(rs, name)
    ensures rs != []
  {
  }

  /** A departure keeps the weights within reach exactly unless it is the weight-resumed
      replica that leaves others behind before the initialisation. */
  lemma DepartureKeepsWeightsIff(s: State, name: Name)
    requires Anchored(s.crew)
    ensures Anchored(UnregisterPolicy(s, name).state.crew) <==>
            s.crew.initDone || |s.crew.replicas| <= 1 || name != s.crew.replicas[0].name
  {
    hide Anchored, Get, ByStart, RebuildPolicyMesh, Rank, Without, Finished;
    if Has(s.crew.replicas, name) {
      var t := s.(crew := s.crew.(replicas := Without(s.crew.replicas, name),
                                  status := s.crew.status - {name}, left := s.crew.left + 1));
      WithoutAnchored(s.crew, t.crew, name);
      RebuildCrew(t);
      RankAnchored(t.crew, ByStart(t.crew.replicas));
    } else if |s.crew.replicas| > 1 { assert s.crew.replicas[0].name != name; }
  }

  lemma {:induction false} WithoutFirst(rs: seq<Replica>)
    requires rs != [] && Distinct(Names(rs))
    ensures Without(rs, rs[0].name) == rs[1..]
  {
    forall i | 0 <= i < |rs[1..]| ensures rs[1..][i].name != rs[0].name { assert Names(rs)[0] != Names(rs)[i + 1]; }
    WithoutNobody(rs[1..], rs[0].name);
  }

  lemma {:induction false} WithoutNobody(rs: seq<Replica>, name: Name)
    requires forall i :: 0 <= i < |rs| ==> rs[i].name != name
    ensures Without(rs, name) == rs
  {
    if rs != [] { WithoutNobody(rs[1..], name); }
  }

  lemma {:induction false} TailUnloaded(rs: seq<Replica>, name: Name)
    ensures rs != [] && (forall i :: 1 <= i < |rs| ==> !rs[i].loaded) ==>
            forall i :: 0 <= i < |Without(rs[1..], name)| ==> !Without(rs[1..], name)[i].loaded
  {
    if rs != [] {
      WithoutMembers(rs[1..], name);
      var w := Without(rs[1..], name);
      forall i | 0 <= i < |w| ensures w[i] in rs[1..] { assert w[i] in w; }
    }
  }

  /** The weight-resumed replica stays until the initialisation, and nobody registers
      once all policy replicas have left. */
  predicate AnchorStays(s: State, e: Event) {
    && (e.PolicyUp? ==> s.crew.replicas != [] || !s.crew.firstArrived)
    && (e.PolicyDown? ==> s.crew.initDone || |s.crew.replicas| <= 1 || e.name != s.crew.replicas[0].name)
  }

  predicate AnchoredRun(s: State, es: seq<Event>)
    decreases es
  {
    es == [] || (AnchorStays(s, es[0]) && AnchoredRun(Apply(s, es[0]), es[1..]))
  }

  lemma StepAnchored(s: State, e: Event)
    requires Anchored(s.crew) && AnchorStays(s, e)
    ensures Anchored(Apply(s, e).crew)
  {
    hide Fetch, PostRollouts, RolloutEnd, TrainAck, RegisterPolicy, UnregisterPolicy, RegisterRollout,
         UnregisterRollout, MonitorTick, Distinct;
    if e.PolicyUp? {
      RegistrationRaisesIff(s, e.name, e.now);
      if Has(s.crew.replicas, e.name) { PolicyKnown(s, e.name, e.now); }
      else if !RegisterPolicy(s, e.name, e.now).raised { RegistrationKeepsWeights(s, e.name, e.now); }
    } else if e.PolicyDown? { DepartureKeepsWeightsIff(s, e.name); }
    else { OnlyRegistrationChangesCrew(s, e); }
  }

  lemma PolicyKnown(s: State, name: Name, now: int)
    requires Has(s.crew.replicas, name)
    ensures RegisterPolicy(s, name, now) == Outcome(s, true)
  {
  }

  lemma {:induction false} RunAnchored(s: State, es: seq<Event>)
    requires Anchored(s.crew) && AnchoredRun(s, es)
    ensures Anchored(Run(s, es).crew)
    decreases es
  {
    hide Apply, Anchored, AnchorStays;
    if es != [] {
      StepAnchored(s, es[0]);
      RunAnchored(Apply(s, es[0]), es[1..]);
    }
  }

  /** After the policy initialisation every policy replica holds weights. */
  lemma {:induction false} InitialisedReplicasLoaded(cfg: Config, np: nat, nr: nat, step: int, remain: int, es: seq<Event>)
    requires AnchoredRun(Init(cfg, np, nr, step, remain), es)
    ensures var crew := Run(Init(cfg, np, nr, step, remain), es).crew;
            crew.initDone ==> forall i :: 0 <= i < |crew.replicas| ==> crew.replicas[i].loaded
  {
    hide Run, AnchoredRun;
    assert Names(Init(cfg, np, nr, step, remain).crew.replicas) == [];
    RunAnchored(Init(cfg, np, nr, step, remain), es);
  }
}
