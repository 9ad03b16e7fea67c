/** Prompt fetching: how weight versions are tagged, and how many samples the
    throttles allow in flight. */
module Fetches {
  import opened Arith
  import opened Types
  import opened Fleet
  import opened Protocol
  import opened Logs
  import opened Runs

  // ---- tagging -------------------------------------------------------------

  /** No version is tagged on more prompts than one policy step needs. */
  predicate Capped(tags: map<int, nat>, cap: nat) { forall v :: v in tags ==> tags[v] <= cap }

  predicate NonDecreasing(vs: seq<int>) { forall i, j :: 0 <= i < j < |vs| ==> vs[i] <= vs[j] }

  /** The skip loop passes only versions that are exactly full: its assert holds. */
  lemma {:induction false} SkipsFullVersions(tags: map<int, nat>, v: int, cap: nat, k: int)
    requires Capped(tags, cap) && v <= k < NextVersion(tags, v, cap)
    ensures k in tags && tags[k] == cap && TagCount(tags, k) == cap
  {
  }

  predicate AllFrom(vs: seq<int>, v: int) { forall i :: 0 <= i < |vs| ==> vs[i] >= v }

  /** Every count grew by the number of tags given out. */
  ghost predicate CountsGrew(before: map<int, nat>, after: map<int, nat>, vs: seq<int>) {
    forall k :: TagCount(after, k) == TagCount(before, k) + multiset(vs)[k]
  }

  /** Below every tag given out, from `v` on, there is no room left. */
  ghost predicate FilledBelow(after: map<int, nat>, v: int, vs: seq<int>, cap: nat) {
    forall i, k :: 0 <= i < |vs| && v <= k < vs[i] ==> TagCount(after, k) == cap
  }

  lemma CountsGrewOne(before: map<int, nat>, after: map<int, nat>, w: int, vs: seq<int>)
    requires CountsGrew(before[w := TagCount(before, w) + 1], after, vs)
    ensures CountsGrew(before, after, [w] + vs)
  {
    forall k ensures TagCount(after, k) == TagCount(before, k) + multiset([w] + vs)[k] {
      assert TagCount(after, k) == TagCount(before[w := TagCount(before, w) + 1], k) + multiset(vs)[k];
      assert multiset([w] + vs) == multiset{w} + multiset(vs);
    }
  }

  lemma FilledBelowOne(tags: map<int, nat>, after: map<int, nat>, v: int, w: int, vs: seq<int>, cap: nat)
    requires forall k :: v <= k < w ==> TagCount(tags, k) == cap
    requires CountsGrew(tags, after, [w] + vs) && FilledBelow(after, w, vs, cap) && AllFrom(vs, w)
    ensures FilledBelow(after, v, [w] + vs, cap)
  {
    var all := [w] + vs;
    forall i, k | 0 <= i < |all| && v <= k < all[i] ensures TagCount(after, k) == cap {
      if k < w {
        BelowAll(all, k);
        assert TagCount(after, k) == TagCount(tags, k) + multiset(all)[k];
      } else { assert vs[i - 1] == all[i]; }
    }
  }

  /** The tags never go down and start at `v`, every version below a tag is full, the
      counts grow by exactly the tags given out, and no version exceeds the cap. */
  ghost predicate Exact(tags: map<int, nat>, v: int, cap: nat, t: Tagging) {
    && Capped(t.tags, cap)
    && NonDecreasing(t.versions) && AllFrom(t.versions, v)
    && FilledBelow(t.tags, v, t.versions, cap)
    && CountsGrew(tags, t.tags, t.versions)
  }

  lemma {:induction false} ExactOne(tags: map<int, nat>, v: int, cap: nat, w: int, rest: Tagging)
    requires Capped(tags, cap) && w == NextVersion(tags, v, cap)
    requires Exact(tags[w := TagCount(tags, w) + 1], w, cap, rest)
    ensures Exact(tags, v, cap, Tagging(rest.tags, [w] + rest.versions))
  {
    hide NextVersion, FilledBelow, CountsGrew, TagCount;
    CountsGrewOne(tags, rest.tags, w, rest.versions);
    forall k | v <= k < w ensures TagCount(tags, k) == cap { SkipsFullVersions(tags, v, cap, k); }
    FilledBelowOne(tags, rest.tags, v, w, rest.versions, cap);
  }

  /** Tagging `m` prompts is exact. */
  lemma {:induction false} TagAllExact(tags: map<int, nat>, v: int, cap: nat, m: nat)
    requires Capped(tags, cap) && cap >= 1
    ensures Exact(tags, v, cap, TagAll(tags, v, cap, m))
    decreases m
  {
    hide Exact, Capped, NextVersion, TagCount;
    if m == 0 { assert Exact(tags, v, cap, Tagging(tags, [])) by { NothingTagged(tags, v, cap); } }
    else {
      var w := NextVersion(tags, v, cap);
      RoomForOne(tags, v, cap);
      TagAllExact(tags[w := TagCount(tags, w) + 1], w, cap, m - 1);
      ExactOne(tags, v, cap, w, TagAll(tags[w := TagCount(tags, w) + 1], w, cap, m - 1));
    }
  }

  lemma NothingTagged(tags: map<int, nat>, v: int, cap: nat)
    requires Capped(tags, cap)
    ensures Exact(tags, v, cap, Tagging(tags, []))
  {
  }

  lemma {:induction false} RoomForOne(tags: map<int, nat>, v: int, cap: nat)
    requires Capped(tags, cap) && cap >= 1
    ensures var w := NextVersion(tags, v, cap); Capped(tags[w := TagCount(tags, w) + 1], cap)
  {
  }

  lemma BelowAll(vs: seq<int>, k: int)
    requires forall i :: 0 <= i < |vs| ==> vs[i] > k
    ensures multiset(vs)[k] == 0
  {
    assert k !in vs;
  }

  /** As long as no policy replica has left, every version's count fits the present crew. */
  predicate TagsFit(s: State) { s.crew.left == 0 ==> Capped(s.tags, PromptsPerStep(s)) }

  lemma PromptsMonotone(s: State, t: State)
    requires t.cfg == s.cfg && |s.crew.replicas| <= |t.crew.replicas|
    ensures PromptsPerStep(s) <= PromptsPerStep(t)
  {
    MulMonotone(s.cfg.batch, |s.crew.replicas|, |t.crew.replicas|);
    DivMonotone(GlobalBatch(s) + s.cfg.generations - 1, GlobalBatch(t) + s.cfg.generations - 1, s.cfg.generations);
  }

  lemma SomePrompts(s: State)
    requires s.crew.replicas != []
    ensures GlobalBatch(s) >= 1 && PromptsPerStep(s) >= 1
  {
    MulMonotone(s.cfg.batch, 1, |s.crew.replicas|);
    DivMonotone(s.cfg.generations, GlobalBatch(s) + s.cfg.generations - 1, s.cfg.generations);
    DivUnique(s.cfg.generations, s.cfg.generations, 1);
  }

  lemma FetchTagsFit(s: State, m: nat, x: bool)
    requires TagsFit(s) && !s.cfg.dapo
    ensures TagsFit(Fetch(s, m, x).state)
  {
    hide HardThrottled, TagAll, PromptsPerStep, FirstVersion;
    if s.crew.replicas != [] && !HardThrottled(s) && NoReplicaLeft(s) {
      SomePrompts(s);
      TagAllExact(s.tags, FirstVersion(s), PromptsPerStep(s), m);
    }
    PromptsMonotone(s, Fetch(s, m, x).state);
  }

  /** The tags belong to the fetches alone; a crew that nobody leaves only grows. */
  predicate Growing(s: State, t: State) {
    && t.cfg == s.cfg
    && t.tags == s.tags
    && s.crew.left <= t.crew.left
    && (t.crew.left == 0 ==> |s.crew.replicas| <= |t.crew.replicas|)
  }

  lemma GrowingTagsFit(s: State, t: State)
    requires TagsFit(s) && Growing(s, t)
    ensures TagsFit(t)
  {
    hide PromptsPerStep;
    if t.crew.left == 0 { PromptsMonotone(s, t); }
  }

  lemma AckGrowing(s: State, name: Name, step: int, total: int)
    ensures var t := TrainAck(s, name, step, total).state; t.tags == s.tags
  {
    hide SettleStep, Resume, FinishDraining, CanDispatch, Dispatch, AllIn, Has, Worked, Serviced;
    var t := s.(crew := SetStatus(s.crew, name, Reduced), log := s.log + [Acked(name, step, total)]);
    var a := SettleStep(t, step, total);
    SettleStepFrame(t, step, total);
    var c := Resume(a, step);
    ResumeFrame(a, step);
    DrainFrame(c);
    if CanDispatch(c) { DispatchFrame(c); }
  }

  lemma PolicyUpGrowing(s: State, name: Name, now: int)
    ensures Growing(s, RegisterPolicy(s, name, now).state)
  {
    hide FirstPolicy, JoinPolicyMesh, InitPolicyMesh, Serviced, Meshed, Has;
    var a := AddPolicy(s, name, now);
    FirstPolicyFrame(a, name);
    var b := if |a.crew.replicas| == 1 then FirstPolicy(a, name) else a;
    JoinFrame(b, name);
    InitFrame(b);
    JoinKeepsLeft(b, name);
  }

  lemma JoinKeepsLeft(s: State, name: Name)
    ensures JoinPolicyMesh(s, name).state.crew.left == s.crew.left
    ensures InitPolicyMesh(s).state.crew.left == s.crew.left
  {
    hide FirstLoaded, ByStart, Load, Names, SetAll, Rank, Rearranged, RecomputeTotal, Broadcast;
  }

  lemma PolicyDownGrowing(s: State, name: Name)
    ensures Growing(s, UnregisterPolicy(s, name).state)
  {
    hide RebuildPolicyMesh, Without, Get, Has, Serviced, Meshed;
    RebuildFrame(s.(crew := s.crew.(replicas := Without(s.crew.replicas, name),
                                    status := s.crew.status - {name}, left := s.crew.left + 1)));
  }

  lemma StepGrowing(s: State, e: Event)
    requires !e.Fetching?
    ensures Growing(s, Apply(s, e))
  {
    hide PostRollouts, EndReport, EndsReplica, FinishDraining, TrainAck, RegisterPolicy, UnregisterPolicy,
         RegisterRollout, UnregisterRollout, ShouldStop, Serviced, Worked, Posted, Has;
    StepKeepsConfig(s, e);
    match e
    case Posting(p) => PostFrame(s, p);
    case Ending(name, rank, stays) => DrainFrame(s.(gens := EndReport(s.gens, name, rank, stays)));
    case Acking(name, step, total) => AckCrew(s, name, step, total); AckGrowing(s, name, step, total);
    case PolicyUp(name, now) => PolicyUpGrowing(s, name, now);
    case PolicyDown(name) => PolicyDownGrowing(s, name);
    case RolloutUp(name, now, rs) => RolloutUpTags(s, name, now, rs);
    case RolloutDown(name) => UnregisterRolloutFrame(s, name);
    case Tick =>
  }

  lemma RolloutUpTags(s: State, name: Name, now: int, rs: set<int>)
    ensures var t := RegisterRollout(s, name, now, rs).state; t.crew == s.crew && t.tags == s.tags
  {
    hide FirstTransfer, SettleRolloutMesh, Serviced;
    if !Has(s.gens.replicas, name) { RegisterRolloutFrame(s, name, now, rs); }
  }

  lemma {:induction false} RunTagsFit(s: State, es: seq<Event>)
    requires TagsFit(s) && !s.cfg.dapo
    ensures TagsFit(Run(s, es))
    decreases es
  {
    hide Fetch, PostRollouts, RolloutEnd, TrainAck, RegisterPolicy, UnregisterPolicy, RegisterRollout,
         UnregisterRollout, MonitorTick, TagsFit;
    if es != [] {
      var e := es[0];
      if e.Fetching? { FetchTagsFit(s, e.m, e.exhausted); } else { StepGrowing(s, e); GrowingTagsFit(s, Apply(s, e)); }
      StepKeepsConfig(s, e);
      RunTagsFit(Apply(s, e), es[1..]);
    }
  }

  /** On every run without DAPO, a fetch that tags finds every version at or below the
      number of prompts of a policy step, so the assert of the skip loop cannot fire,
      whoever has joined meanwhile; and its tags are exact. */
  lemma {:induction false} FetchesTagExactly(cfg: Config, np: nat, nr: nat, step: int, remain: int, es: seq<Event>, m: nat)
    requires !cfg.dapo
    requires var s := Run(Init(cfg, np, nr, step, remain), es); s.crew.replicas != [] && NoReplicaLeft(s)
    ensures var s := Run(Init(cfg, np, nr, step, remain), es);
            var t := TagAll(s.tags, FirstVersion(s), PromptsPerStep(s), m);
            && GlobalBatch(s) > 0
            && Capped(s.tags, PromptsPerStep(s)) && Capped(t.tags, PromptsPerStep(s))
            && NonDecreasing(t.versions) && AllFrom(t.versions, FirstVersion(s))
            && FilledBelow(t.tags, FirstVersion(s), t.versions, PromptsPerStep(s))
            && CountsGrew(s.tags, t.tags, t.versions)
  {
    hide Run, TagAll, PromptsPerStep, FirstVersion;
    var s0 := Init(cfg, np, nr, step, remain);
    RunTagsFit(s0, es);
    var s := Run(s0, es);
    SomePrompts(s);
    TagAllExact(s.tags, FirstVersion(s), PromptsPerStep(s), m);
  }

  // ---- throttling ----------------------------------------------------------

  /** Every dispatch record is a number of rollouts. */
  predicate Counted(l: Ledger) { forall k :: k in l.dispatched ==> l.dispatched[k] >= 0 }

  /** A ledger that takes nothing new in flight. */
  predicate NoMore(l: Ledger, m: Ledger) {
    m.onTheFly <= Max(0, l.onTheFly) && (Counted(l) ==> Counted(m))
  }

  lemma SettleNoMore(l: Ledger, count: int)
    ensures NoMore(l, Settle(l, count))
  {
  }

  lemma DiscardNoMore(l: Ledger, src: Name, id: string, count: nat)
    ensures NoMore(l, SettleDiscard(l, src, id, count))
  {
  }

  lemma DispatchNoMore(s: State)
    requires CanDispatch(s)
    ensures NoMore(s.ledger, Dispatch(s).ledger)
  {
    hide CanDispatch, Taken, Feed, SetAll, Names, Broadcast;
    MulMonotone(s.cfg.batch, 0, |s.crew.replicas|);
  }

  lemma DrainNoMore(s: State)
    ensures NoMore(s.ledger, FinishDraining(s).ledger)
  {
    hide CanDispatch, Dispatch, Idle, AllEnded, Settle, Pending, Emptied, SetAll, Names, RealTerminalAcked;
    var e := EnterDraining(s);
    SettleNoMore(e.ledger, Pending(e.cfg, e.queues));
    if CanDispatch(e) { DispatchNoMore(e); }
  }

  lemma StepDoneNoMore(s: State, step: int, total: int)
    requires Counted(s.ledger)
    ensures NoMore(s.ledger, StepDone(s, step, total).ledger)
  {
    hide Resume, FinishDraining, CanDispatch, Dispatch, Settle, Pending, Emptied, Serviced;
    var d := s.ledger.dispatched;
    if step in d {
      var t := s.(ledger := s.ledger.(onTheFly := s.ledger.onTheFly - d[step], dispatched := d - {step}));
      SettleNoMore(t.ledger, Pending(t.cfg, t.queues));
    }
    var a := SettleStep(s, step, total);
    assert NoMore(s.ledger, a.ledger);
    var c := Resume(a, step);
    ResumeFrame(a, step);
    DrainNoMore(c);
    if CanDispatch(c) { DispatchNoMore(c); }
  }

  lemma {:induction false} PutAllNoMore(s: State, rs: seq<Rollout>)
    ensures NoMore(s.ledger, PutAll(s, rs).ledger)
    decreases rs
  {
    hide CanDispatch, Dispatch, Enqueued;
    if rs != [] && CanPut(s) {
      var e := s.(queues := Enqueued(s.cfg, s.queues, rs[0]));
      if CanDispatch(e) { DispatchNoMore(e); }
      PutAllNoMore(Put(s, rs[0]), rs[1..]);
    }
  }

  lemma PostNoMore(s: State, p: Post)
    ensures NoMore(s.ledger, PostRollouts(s, p).state.ledger)
  {
    hide SettleDiscard, Settle, ReadCount, Accepted, MaxVersion, PutAll;
    var l := SettleDiscard(s.ledger, p.src, p.discardId, p.discarded);
    DiscardNoMore(s.ledger, p.src, p.discardId, p.discarded);
    SettleNoMore(l, p.filtered);
    var d := Intake(s, p);
    SettleNoMore(d.ledger, |p.rollouts| + (if s.cfg.dapo then p.filtered else 0));
    var a := Adopt(d, p.rollouts);
    var good := Accepted(a, p.rollouts, 0);
    SettleNoMore(a.ledger, |p.rollouts| - |good|);
    PutAllNoMore(Drop(a, |p.rollouts| - |good|), good);
  }

  /** Only a fetch puts samples in flight. */
  lemma OnlyFetchesAdd(s: State, e: Event)
    requires !e.Fetching? && Counted(s.ledger)
    ensures NoMore(s.ledger, Apply(s, e).ledger)
  {
    hide PostRollouts, EndReport, EndsReplica, FinishDraining, StepDone, AllIn, FirstPolicy, PolicyHook,
         RebuildPolicyMesh, RegisterRollout, UnregisterRollout, ShouldStop, Serviced, Has, Without, Get;
    match e
    case Posting(p) => PostNoMore(s, p);
    case Ending(name, rank, stays) => DrainNoMore(s.(gens := EndReport(s.gens, name, rank, stays)));
    case Acking(name, step, total) =>
      StepDoneNoMore(s.(crew := SetStatus(s.crew, name, Reduced), log := s.log + [Acked(name, step, total)]), step, total);
    case PolicyUp(name, now) =>
      var a := AddPolicy(s, name, now);
      FirstPolicyFrame(a, name);
      PolicyHookFrame(if |a.crew.replicas| == 1 then FirstPolicy(a, name) else a, name);
    case PolicyDown(name) =>
      RebuildFrame(s.(crew := s.crew.(replicas := Without(s.crew.replicas, name),
                                      status := s.crew.status - {name}, left := s.crew.left + 1)));
    case RolloutUp(name, now, rs) => if !Has(s.gens.replicas, name) { RegisterRolloutFrame(s, name, now, rs); }
      else { RolloutKnown(s, name, now, rs); }
    case RolloutDown(name) => UnregisterRolloutFrame(s, name);
    case Tick =>
  }

  /** Fetches ask for at most `most` prompts, are answered by no more than they ask the data
      fetcher for, and meet a global batch of at most `batch` rollouts. */
  predicate Modest(s: State, e: Event, most: nat, batch: nat) {
    e.Fetching? ==> e.n <= most && GlobalBatch(s) <= batch && (GlobalBatch(s) > 0 ==> e.m <= FetchLimit(s, e.n))
  }

  predicate ModestRun(s: State, es: seq<Event>, most: nat, batch: nat)
    decreases es
  {
    es == [] || (Modest(s, es[0], most, batch) && ModestRun(Apply(s, es[0]), es[1..], most, batch))
  }

  /** The limit the soft throttle enforces, when it lets nothing through. */
  function SoftLimit(cfg: Config, most: nat, batch: nat): nat {
    (cfg.allowed + 1) * batch + most * cfg.generations
  }

  function HardLimit(cfg: Config, most: nat, batch: nat): nat
    requires cfg.maxInflight.Some?
  {
    cfg.maxInflight.value * batch + most * cfg.generations
  }

  /** Whether the throttles promise to stay below `limit`. */
  predicate Promised(cfg: Config, most: nat, batch: nat, limit: nat) {
    || (!cfg.dapo && cfg.staleFetch == 0 && limit == SoftLimit(cfg, most, batch))
    || (cfg.maxInflight.Some? && limit == HardLimit(cfg, most, batch))
  }

  lemma FetchBelow(s: State, n: nat, m: nat, x: bool, most: nat, batch: nat, limit: nat)
    requires Modest(s, Fetching(n, m, x), most, batch) && Promised(s.cfg, most, batch, limit) && s.ledger.onTheFly < limit
    ensures Fetch(s, m, x).state.ledger.onTheFly < limit
    ensures Fetch(s, m, x).state.ledger.dispatched == s.ledger.dispatched
  {
    hide FetchTags, FirstVersion;
    if s.crew.replicas != [] && !HardThrottled(s) {
      SomePrompts(s);
      MulMonotone(s.cfg.generations, m, most);
      assert m * s.cfg.generations <= most * s.cfg.generations;
      MulMonotone(s.cfg.allowed + 1, GlobalBatch(s), batch);
      if s.cfg.maxInflight.Some? { MulMonotone(s.cfg.maxInflight.value, GlobalBatch(s), batch); }
    }
  }

  lemma {:induction false} RunBelow(s: State, es: seq<Event>, most: nat, batch: nat, limit: nat)
    requires ModestRun(s, es, most, batch) && Promised(s.cfg, most, batch, limit) && 1 <= limit
    requires s.ledger.onTheFly < limit && Counted(s.ledger)
    ensures Run(s, es).ledger.onTheFly < limit
    decreases es
  {
    hide Fetch, PostRollouts, RolloutEnd, TrainAck, RegisterPolicy, UnregisterPolicy, RegisterRollout,
         UnregisterRollout, MonitorTick, Modest, Promised;
    if es != [] {
      var e := es[0];
      if e.Fetching? { FetchBelow(s, e.n, e.m, e.exhausted, most, batch, limit); } else { OnlyFetchesAdd(s, e); }
      StepKeepsConfig(s, e);
      RunBelow(Apply(s, e), es[1..], most, batch, limit);
    }
  }

  /** The throttle bound: whatever posts, acknowledgements and registrations come in between,
      the samples in flight stay below the limit of each throttle that is on. */
  lemma {:induction false} InFlightBounded(cfg: Config, np: nat, nr: nat, step: int, remain: int, es: seq<Event>, most: nat, batch: nat)
    requires ModestRun(Init(cfg, np, nr, step, remain), es, most, batch) && most >= 1
    ensures var flying := Run(Init(cfg, np, nr, step, remain), es).ledger.onTheFly;
            && (!cfg.dapo && cfg.staleFetch == 0 ==> flying < SoftLimit(cfg, most, batch))
            && (cfg.maxInflight.Some? ==> flying < HardLimit(cfg, most, batch))
  {
    hide Run, ModestRun;
    var s0 := Init(cfg, np, nr, step, remain);
    MulMonotone(most, 1, cfg.generations);
    MulMonotone(cfg.allowed + 1, 0, batch);
    if !cfg.dapo && cfg.staleFetch == 0 { RunBelow(s0, es, most, batch, SoftLimit(cfg, most, batch)); }
    if cfg.maxInflight.Some? {
      MulMonotone(cfg.maxInflight.value, 0, batch);
      RunBelow(s0, es, most, batch, HardLimit(cfg, most, batch));
    }
  }
}
