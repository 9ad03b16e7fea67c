/** Sample conservation: on every run, whatever joins, leaves, is acknowledged
    twice or redelivered, the in-flight counter is exactly the samples workers
    hold, plus the buffered rollouts, plus the dispatched ones not yet settled. */
module Conservation {
  import opened Types
  import opened Fleet
  import opened Protocol
  import opened Logs
  import opened Runs

  /** Rollouts recorded for the steps base+1..upto. */
  function Recorded(d: map<int, int>, base: int, upto: int): int
    decreases upto - base
  {
    if upto <= base then 0 else Recorded(d, base, upto - 1) + (if upto in d then d[upto] else 0)
  }

  /** What the counter exceeds the controller's own rollouts by. */
  function Outside(base: int, s: State): int {
    s.ledger.onTheFly - Pending(s.cfg, s.queues) - Recorded(s.ledger.dispatched, base, s.at.step)
  }

  /** The dispatch records belong to steps after `base` and are not negative. */
  predicate Filed(base: int, d: map<int, int>, step: int) {
    base <= step && forall k :: k in d ==> base < k <= step && d[k] >= 0
  }

  /** The records are filed and the counter covers what the controller holds. */
  predicate Books(base: int, s: State) {
    Filed(base, s.ledger.dispatched, s.at.step) && Outside(base, s) >= 0
  }

  lemma {:induction false} RecordedFrame(d: map<int, int>, e: map<int, int>, base: int, upto: int)
    requires forall k :: base < k <= upto ==> (k in d <==> k in e) && (k in d ==> d[k] == e[k])
    ensures Recorded(d, base, upto) == Recorded(e, base, upto)
    decreases upto - base
  {
    if upto > base { RecordedFrame(d, e, base, upto - 1); }
  }

  lemma {:induction false} RecordedWithout(d: map<int, int>, base: int, upto: int, k: int)
    requires k in d && base < k <= upto
    ensures Recorded(d - {k}, base, upto) == Recorded(d, base, upto) - d[k]
    decreases upto - base
  {
    if upto == k { RecordedFrame(d, d - {k}, base, upto - 1); }
    else { RecordedWithout(d, base, upto - 1, k); }
  }

  lemma {:induction false} RecordedNonNegative(d: map<int, int>, base: int, upto: int)
    requires forall k :: k in d ==> d[k] >= 0
    ensures Recorded(d, base, upto) >= 0
    decreases upto - base
  {
    if upto > base { RecordedNonNegative(d, base, upto - 1); }
  }

  // ---- queue lengths -------------------------------------------------------

  lemma {:induction false} TotalLengthUpdate(qs: seq<seq<Rollout>>, i: nat, q: seq<Rollout>)
    requires i < |qs|
    ensures TotalLength(qs[i := q]) == TotalLength(qs) - |qs[i]| + |q|
  {
    if i == 0 { assert qs[0 := q][1..] == qs[1..]; }
    else {
      assert qs[i := q][1..] == qs[1..][i - 1 := q];
      TotalLengthUpdate(qs[1..], i - 1, q);
    }
  }

  lemma {:induction false} TotalLengthEmpty(qs: seq<seq<Rollout>>)
    requires forall i :: 0 <= i < |qs| ==> qs[i] == []
    ensures TotalLength(qs) == 0
  {
    if qs != [] { TotalLengthEmpty(qs[1..]); }
  }

  lemma {:induction false} TotalLengthDrained(qs: seq<seq<Rollout>>, rs: seq<seq<Rollout>>, n: nat, batch: nat)
    requires n <= |qs| == |rs|
    requires forall i :: 0 <= i < |qs| ==> |rs[i]| == |qs[i]| - (if i < n then batch else 0)
    ensures TotalLength(rs) == TotalLength(qs) - n * batch
  {
    if qs != [] {
      var m := if n == 0 then 0 else n - 1;
      TotalLengthDrained(qs[1..], rs[1..], m, batch);
      assert n > 0 ==> n * batch == (n - 1) * batch + batch;
    }
  }

  lemma {:induction false} ConcatLength(qs: seq<seq<Rollout>>)
    ensures |Concat(qs)| == TotalLength(qs)
  {
    if qs != [] { ConcatLength(qs[1..]); }
  }

  /** Splitting a list by residue classes keeps its length. */
  lemma {:induction false} ResiduesLength(rs: seq<Rollout>, n: nat, qs: seq<seq<Rollout>>)
    requires n > 0 && |qs| == n
    requires forall r :: 0 <= r < n ==> qs[r] == Residue(rs, n, r)
    ensures TotalLength(qs) == |rs|
  {
    if rs == [] { TotalLengthEmpty(qs); }
    else {
      var t := rs[0].promptIdx % n;
      var rest := qs[t := Residue(rs[1..], n, t)];
      assert qs[t] == [rs[0]] + Residue(rs[1..], n, t);
      ResiduesLength(rs[1..], n, rest);
      TotalLengthUpdate(qs, t, Residue(rs[1..], n, t));
    }
  }

  lemma EmptiedLength(cfg: Config, q: Queues)
    ensures Pending(cfg, Emptied(cfg, q)) == 0
  {
    if cfg.rankInMesh { TotalLengthEmpty(Emptied(cfg, q).perRank); }
  }

  lemma RearrangedLength(cfg: Config, q: Queues, n: nat)
    ensures Pending(cfg, Rearranged(cfg, q, n)) == Pending(cfg, q)
  {
    if cfg.rankInMesh && n > 0 {
      ConcatLength(q.perRank);
      ResiduesLength(Concat(q.perRank), n, Rearranged(cfg, q, n).perRank);
    }
  }

  lemma TakenLength(cfg: Config, q: Queues, n: nat)
    requires Enough(cfg, q, n) && RanksCovered(cfg, q, n)
    ensures Pending(cfg, Taken(cfg, q, n)) == Pending(cfg, q) - cfg.batch * n
  {
    if cfg.rankInMesh { TotalLengthDrained(q.perRank, Taken(cfg, q, n).perRank, n, cfg.batch); }
  }

  lemma EnqueuedLength(cfg: Config, q: Queues, r: Rollout)
    requires cfg.rankInMesh ==> q.perRank != []
    ensures Pending(cfg, Enqueued(cfg, q, r)) == Pending(cfg, q) + 1
  {
    if cfg.rankInMesh {
      var t := r.promptIdx % |q.perRank|;
      TotalLengthUpdate(q.perRank, t, q.perRank[t] + [r]);
    }
  }

  // ---- every operation keeps the books -------------------------------------

  /** `t` differs from `s` in nothing the samples depend on. */
  predicate Even(base: int, s: State, t: State) {
    Books(base, t) && Outside(base, t) == Outside(base, s) && t.ledger.discards == s.ledger.discards
  }

  /** The clamp of _settle_samples_on_the_fly does not bite. */
  lemma SettleExact(base: int, s: State, count: int)
    requires Books(base, s) && 0 <= count <= Outside(base, s) + Pending(s.cfg, s.queues)
    ensures Settle(s.ledger, count) == s.ledger.(onTheFly := s.ledger.onTheFly - count)
  {
    RecordedNonNegative(s.ledger.dispatched, base, s.at.step);
  }

  lemma CleanupBooks(base: int, s: State)
    requires Books(base, s)
    ensures Even(base, s, Cleanup(s))
  {
    SettleExact(base, s, Pending(s.cfg, s.queues));
    EmptiedLength(s.cfg, s.queues);
  }

  lemma RebuildBooks(base: int, s: State)
    requires Books(base, s)
    ensures Even(base, s, RebuildPolicyMesh(s))
  {
    RearrangedLength(s.cfg, s.queues, |s.crew.replicas|);
  }

  lemma DispatchBooks(base: int, s: State)
    requires Books(base, s) && CanDispatch(s)
    ensures Even(base, s, Dispatch(s))
  {
    hide Idle, Finished, Enough, RanksCovered, Taken, Feed, SetAll, Names, Broadcast, Pending;
    var d := s.ledger.dispatched;
    RecordedFrame(d, Dispatch(s).ledger.dispatched, base, s.at.step);
    TakenLength(s.cfg, s.queues, |s.crew.replicas|);
  }

  lemma TryTriggerBooks(base: int, s: State)
    requires Books(base, s)
    ensures Even(base, s, TryTrigger(s))
  {
    if CanDispatch(s) { DispatchBooks(base, s); }
  }

  lemma ConcludeBooks(base: int, s: State)
    requires Books(base, s)
    ensures Even(base, s, Conclude(s))
  {
    CleanupBooks(base, s);
  }

  lemma DrainBooks(base: int, s: State)
    requires Books(base, s)
    ensures Even(base, s, Drain(s))
  {
    if Closed(s.closing) { CleanupBooks(base, s); }
    else if s.at.step < Horizon(s.closing, s.at) && CanDispatch(s) { DispatchBooks(base, s); }
    else { ConcludeBooks(base, s); }
  }

  lemma FinishDrainingBooks(base: int, s: State)
    requires Books(base, s)
    ensures Even(base, s, FinishDraining(s))
  {
    if AllEnded(s.gens) { DrainBooks(base, EnterDraining(s)); }
  }

  lemma RecordRealBooks(base: int, s: State, step: int, total: int)
    requires Books(base, s)
    ensures Even(base, s, RecordReal(s, step, total))
  {
    var c := s.closing.(ackedStep := Some(step), ackedTotal := Some(total));
    CleanupBooks(base, s.(closing := c.(terminal := true)));
  }

  lemma TakeRecordBooks(base: int, s: State, step: int)
    requires Books(base, s)
    ensures Even(base, s, TakeRecord(s, step))
  {
    hide Pending, Recorded;
    if step in s.ledger.dispatched { RecordedWithout(s.ledger.dispatched, base, s.at.step, step); }
  }

  lemma SettleStepBooks(base: int, s: State, step: int, total: int)
    requires Books(base, s)
    ensures Even(base, s, SettleStep(s, step, total))
  {
    hide RecordReal, Books, Outside, TakeRecord;
    TakeRecordBooks(base, s, step);
    RecordRealBooks(base, TakeRecord(s, step), step, total);
  }

  /** The count covers every record, so taking one never leaves it negative. */
  lemma NeverOverdrawn(base: int, s: State, step: int)
    requires Books(base, s)
    ensures !Overdrawn(s.ledger, step)
  {
    var d := s.ledger.dispatched;
    RecordedNonNegative(d - {step}, base, s.at.step);
    if step in d { RecordedWithout(d, base, s.at.step, step); }
    else { RecordedNonNegative(d, base, s.at.step); }
  }

  lemma ResumeBooks(base: int, s: State, step: int)
    requires Books(base, s)
    ensures Even(base, s, Resume(s, step))
  {
  }

  lemma StepDoneBooks(base: int, s: State, step: int, total: int)
    requires Books(base, s)
    ensures Even(base, s, StepDone(s, step, total))
  {
    var a := SettleStep(s, step, total);
    SettleStepBooks(base, s, step, total);
    ResumeBooks(base, a, step);
    var c := Resume(a, step);
    if c.closing.draining { FinishDrainingBooks(base, c); } else { TryTriggerBooks(base, c); }
  }

  lemma PutBooks(base: int, s: State, r: Rollout)
    requires Books(base, s) && CanPut(s) && Outside(base, s) >= 1
    ensures Books(base, Put(s, r))
    ensures Outside(base, Put(s, r)) == Outside(base, s) - 1
    ensures CanPut(Put(s, r)) && Put(s, r).ledger.discards == s.ledger.discards
  {
    EnqueuedLength(s.cfg, s.queues, r);
    TryTriggerBooks(base, s.(queues := Enqueued(s.cfg, s.queues, r)));
  }

  lemma {:induction false} PutAllBooks(base: int, s: State, rs: seq<Rollout>)
    requires Books(base, s) && CanPut(s) && Outside(base, s) >= |rs|
    ensures Books(base, PutAll(s, rs))
    ensures Outside(base, PutAll(s, rs)) == Outside(base, s) - |rs|
    ensures PutAll(s, rs).ledger.discards == s.ledger.discards
    decreases rs
  {
    if rs != [] {
      PutBooks(base, s, rs[0]);
      PutAllBooks(base, Put(s, rs[0]), rs[1..]);
    }
  }

  // ---- the workers ---------------------------------------------------------

  /** `held`: samples handed out and not yet reported; `delivered`: discard reports
      that reached the controller; `ended`: replicas whose end was accepted;
      `lost`: rollouts of posts whose handler raised. */
  datatype Workers = Workers(held: int, delivered: set<(Name, string)>, ended: set<Name>, lost: nat)

  /** Nothing handed out, nothing reported. */
  const NOBODY := Workers(0, {}, {}, 0)

  /** Samples a post newly reports as discarded. */
  function NewlyDiscarded(w: Workers, p: Post): nat {
    if p.discardId != "" && (p.src, p.discardId) !in w.delivered then p.discarded else 0
  }

  /** Samples a post takes off the workers' hands. */
  function Reporting(w: Workers, s: State, p: Post): nat {
    NewlyDiscarded(w, p) + (if s.cfg.dapo then p.filtered else 0) + |p.rollouts|
  }

  /** Rollouts that a raising post neither buffers nor settles. */
  function LostBy(s: State, p: Post): nat {
    var d := Intake(s, p);
    if !PostRollouts(s, p).raised then 0
    else if ReadCount(p.rollouts, d.at.step) < |p.rollouts| then |p.rollouts|
    else |Accepted(Adopt(d, p.rollouts), p.rollouts, 0)|
  }

  function WorkersAfter(w: Workers, s: State, e: Event): Workers {
    match e
    case Fetching(_, m, x) => w.(held := w.held + |Fetch(s, m, x).versions| * s.cfg.generations)
    case Posting(p) =>
      w.(held := w.held - Reporting(w, s, p),
         delivered := if p.discardId != "" && p.discarded > 0 then w.delivered + {(p.src, p.discardId)} else w.delivered,
         lost := w.lost + LostBy(s, p))
    case Ending(name, rank, _) => if EndsReplica(s.gens, name, rank) then w.(ended := w.ended + {name}) else w
    case _ => w
  }

  /** A fetch returns no more prompts than asked for; a worker reports only samples
      it holds; a discard report is redelivered only until its replica ends. */
  predicate Honest(w: Workers, s: State, e: Event) {
    match e
    case Fetching(n, m, _) => s.crew.replicas != [] ==> m <= FetchLimit(s, n)
    case Posting(p) =>
      Reporting(w, s, p) <= w.held && ((p.src, p.discardId) in w.delivered ==> p.src !in w.ended)
    case _ => true
  }

  predicate HonestRun(w: Workers, s: State, es: seq<Event>)
    decreases es
  {
    es == [] || (Honest(w, s, es[0]) && HonestRun(WorkersAfter(w, s, es[0]), Apply(s, es[0]), es[1..]))
  }

  function WorkersRun(w: Workers, s: State, es: seq<Event>): Workers
    decreases es
  {
    if es == [] then w else WorkersRun(WorkersAfter(w, s, es[0]), Apply(s, es[0]), es[1..])
  }

  /** A run of honest workers, one event at a time. */
  lemma {:induction false} HonestNext(w: Workers, s: State, es: seq<Event>)
    requires es != [] && Honest(w, s, es[0])
    ensures HonestRun(w, s, es) <==> HonestRun(WorkersAfter(w, s, es[0]), Apply(s, es[0]), es[1..])
    ensures WorkersRun(w, s, es) == WorkersRun(WorkersAfter(w, s, es[0]), Apply(s, es[0]), es[1..])
    ensures Run(s, es) == Run(Apply(s, es[0]), es[1..])
  {
    hide Apply, WorkersAfter;
  }

  lemma RunOver(w: Workers, s: State)
    ensures HonestRun(w, s, []) && WorkersRun(w, s, []) == w && Run(s, []) == s
  {
  }

  /** The controller remembers delivered reports only, and all those of replicas that have not ended. */
  ghost predicate Remembered(w: Workers, l: Ledger) {
    forall n, id ::
      && ((n, id) in w.delivered && n !in w.ended ==> id in IdsOf(l.discards, n))
      && (id in IdsOf(l.discards, n) ==> (n, id) in w.delivered)
  }

  ghost predicate Conserved(base: int, w: Workers, s: State) {
    && Books(base, s)
    && w.held >= 0
    && s.ledger.onTheFly ==
       w.held + Pending(s.cfg, s.queues) + Recorded(s.ledger.dispatched, base, s.at.step) + w.lost
    && Remembered(w, s.ledger)
  }

  // ---- every event keeps the samples ---------------------------------------

  lemma DiscardSettles(base: int, w: Workers, s: State, p: Post)
    requires Conserved(base, w, s) && Honest(w, s, Posting(p))
    ensures var l := SettleDiscard(s.ledger, p.src, p.discardId, p.discarded);
            && l == s.ledger.(onTheFly := s.ledger.onTheFly - NewlyDiscarded(w, p), discards := l.discards)
            && Remembered(WorkersAfter(w, s, Posting(p)), l)
  {
    if p.discarded > 0 && p.discardId != "" && p.discardId !in IdsOf(s.ledger.discards, p.src) {
      SettleExact(base, s, p.discarded);
    }
  }

  /** A post settles what it reports as discarded or filtered, and nothing else. */
  lemma IntakeConserves(base: int, w: Workers, s: State, p: Post)
    requires Conserved(base, w, s) && Honest(w, s, Posting(p))
    ensures var d := Intake(s, p);
            && Books(base, d)
            && Outside(base, d) == Outside(base, s) - NewlyDiscarded(w, p)
                                   - (if s.cfg.dapo && !Closed(s.closing) then p.filtered else 0)
            && Remembered(WorkersAfter(w, s, Posting(p)), d.ledger)
            && d == s.(ledger := d.ledger, at := s.at.(remain := d.at.remain))
  {
    DiscardSettles(base, w, s, p);
    var d := s.(ledger := SettleDiscard(s.ledger, p.src, p.discardId, p.discarded));
    assert Books(base, d);
    if s.cfg.dapo { SettleExact(base, d, p.filtered); }
  }

  lemma {:induction false} AdmitConserves(base: int, s: State, rs: seq<Rollout>)
    requires Books(base, s) && Outside(base, s) >= |rs|
    ensures var o := Admit(s, rs);
            && Books(base, o.state)
            && Outside(base, o.state) == Outside(base, s) - |rs| + (if o.raised then |Accepted(Adopt(s, rs), rs, 0)| else 0)
            && o.state.ledger.discards == s.ledger.discards
  {
    var a := Adopt(s, rs);
    var good := Accepted(a, rs, 0);
    SettleExact(base, a, |rs| - |good|);
    var f := Drop(a, |rs| - |good|);
    assert Books(base, f) && Outside(base, f) == Outside(base, s) - |rs| + |good|;
    if CanPut(f) { PutAllBooks(base, f, good); }
  }

  lemma PostConserves(base: int, w: Workers, s: State, p: Post)
    requires Conserved(base, w, s) && Honest(w, s, Posting(p))
    ensures Conserved(base, WorkersAfter(w, s, Posting(p)), PostRollouts(s, p).state)
  {
    IntakeConserves(base, w, s, p);
    var d := Intake(s, p);
    if Closed(d.closing) {
      SettleExact(base, d, |p.rollouts| + (if s.cfg.dapo then p.filtered else 0));
    } else if ReadCount(p.rollouts, d.at.step) == |p.rollouts| {
      AdmitConserves(base, d, p.rollouts);
    }
  }

  lemma EndConserves(base: int, w: Workers, s: State, name: Name, rank: Option<int>, stays: bool)
    requires Conserved(base, w, s)
    ensures Conserved(base, WorkersAfter(w, s, Ending(name, rank, stays)), RolloutEnd(s, name, rank, stays))
  {
    FinishDrainingBooks(base, s.(gens := EndReport(s.gens, name, rank, stays)));
  }

  lemma AckConserves(base: int, w: Workers, s: State, name: Name, step: int, total: int)
    requires Conserved(base, w, s)
    ensures Conserved(base, w, TrainAck(s, name, step, total).state)
  {
    hide StepDone, AllIn, Has, Recorded, Pending, Overdrawn;
    var t := s.(crew := SetStatus(s.crew, name, Reduced), log := s.log + [Acked(name, step, total)]);
    assert Even(base, s, t);
    NeverOverdrawn(base, t, step);
    AckKeepsRest(t, step, total);
    StepDoneBooks(base, t, step, total);
  }

  lemma AckKeepsRest(s: State, step: int, total: int)
    ensures StepDone(s, step, total).cfg == s.cfg
  {
    hide SettleStep, Resume, FinishDraining, CanDispatch, Dispatch, Serviced, Worked;
    var a := SettleStep(s, step, total);
    SettleStepFrame(s, step, total);
    ResumeFrame(a, step);
    DrainFrame(Resume(a, step));
    if CanDispatch(Resume(a, step)) { DispatchFrame(Resume(a, step)); }
  }

  lemma FetchConserves(base: int, w: Workers, s: State, n: nat, m: nat, x: bool)
    requires Conserved(base, w, s)
    ensures Conserved(base, WorkersAfter(w, s, Fetching(n, m, x)), Fetch(s, m, x).state)
  {
    assert m * s.cfg.generations >= 0;
  }

  lemma PolicyHookBooks(base: int, s: State, name: Name)
    requires Books(base, s)
    ensures Even(base, s, PolicyHook(s, name).state)
  {
    RebuildBooks(base, s.(crew := s.crew.(initDone := true)));
    RebuildBooks(base, s);
  }

  lemma PolicyUpConserves(base: int, w: Workers, s: State, name: Name, now: int)
    requires Conserved(base, w, s)
    ensures Conserved(base, w, RegisterPolicy(s, name, now).state)
  {
    var a := AddPolicy(s, name, now);
    var b := if |a.crew.replicas| == 1 then FirstPolicy(a, name) else a;
    assert Even(base, s, b);
    PolicyHookBooks(base, b, name);
  }

  lemma PolicyDownConserves(base: int, w: Workers, s: State, name: Name)
    requires Conserved(base, w, s)
    ensures Conserved(base, w, UnregisterPolicy(s, name).state)
  {
    if Has(s.crew.replicas, name) {
      RebuildBooks(base, s.(crew := s.crew.(replicas := Without(s.crew.replicas, name),
                                            status := s.crew.status - {name}, left := s.crew.left + 1)));
    }
  }

  /** One event, whatever it is, keeps every sample accounted for. */
  lemma StepConserves(base: int, w: Workers, s: State, e: Event)
    requires Conserved(base, w, s) && Honest(w, s, e)
    ensures Conserved(base, WorkersAfter(w, s, e), Apply(s, e))
  {
    match e
    case Fetching(n, m, x) => FetchConserves(base, w, s, n, m, x);
    case Posting(p) => PostConserves(base, w, s, p);
    case Ending(name, rank, stays) => EndConserves(base, w, s, name, rank, stays);
    case Acking(name, step, total) => AckConserves(base, w, s, name, step, total);
    case PolicyUp(name, now) => PolicyUpConserves(base, w, s, name, now);
    case PolicyDown(name) => PolicyDownConserves(base, w, s, name);
    case RolloutUp(name, now, rs) =>
    case RolloutDown(name) =>
    case Tick =>
  }

  lemma {:induction false} RunConserves(base: int, w: Workers, s: State, es: seq<Event>)
    requires Conserved(base, w, s) && HonestRun(w, s, es)
    ensures Conserved(base, WorkersRun(w, s, es), Run(s, es))
    decreases es
  {
    if es != [] {
      StepConserves(base, w, s, es[0]);
      RunConserves(base, WorkersAfter(w, s, es[0]), Apply(s, es[0]), es[1..]);
    }
  }

  /** Sample conservation on every run from the start.  Acknowledgements are unrestricted: any
      replica, any step, any number of times.  (With dispatch by rank, replicas must not
      outnumber the queues when a step is due; orderly acknowledgements ensure that.) */
  lemma {:induction false} SamplesConserved(cfg: Config, np: nat, nr: nat, step: int, remain: int, es: seq<Event>)
    requires HonestRun(NOBODY, Init(cfg, np, nr, step, remain), es)
    ensures var s := Run(Init(cfg, np, nr, step, remain), es);
            var w := WorkersRun(NOBODY, Init(cfg, np, nr, step, remain), es);
            && w.held >= 0
            && s.ledger.onTheFly ==
               w.held + Pending(s.cfg, s.queues) + Recorded(s.ledger.dispatched, step, s.at.step) + w.lost
            && s.ledger.onTheFly >= 0
  {
    var s0 := Init(cfg, np, nr, step, remain);
    RunConserves(step, NOBODY, s0, es);
    var s := Run(s0, es);
    RecordedNonNegative(s.ledger.dispatched, step, s.at.step);
  }

  /** The non-negativity assert of train_ack fires on no honest run: whatever a replica
      acknowledges, the handler fails exactly when it does not know the replica. */
  lemma {:induction false} AckNeverUnderflows(cfg: Config, np: nat, nr: nat, step: int, remain: int, es: seq<Event>,
                                             name: Name, ackStep: int, ackTotal: int)
    requires HonestRun(NOBODY, Init(cfg, np, nr, step, remain), es)
    ensures var s := Run(Init(cfg, np, nr, step, remain), es);
            && !Overdrawn(s.ledger, ackStep)
            && (TrainAck(s, name, ackStep, ackTotal).raised <==> !Has(s.crew.replicas, name))
  {
    hide Run, HonestRun, StepDone, AllIn, Has, Overdrawn;
    var s0 := Init(cfg, np, nr, step, remain);
    RunConserves(step, NOBODY, s0, es);
    NeverOverdrawn(step, Run(s0, es), ackStep);
  }

  /** On any state: an acknowledgement fails for an unknown replica, and when it settles a step
      whose record exceeds the count. */
  lemma AckRaisesIff(s: State, name: Name, step: int, total: int)
    ensures TrainAck(s, name, step, total).raised <==>
            || !Has(s.crew.replicas, name)
            || (&& !IsCompletionAck(s.closing, name, step)
                && (forall n :: n in s.crew.status && n != name ==> s.crew.status[n] == Reduced)
                && s.ledger.onTheFly < RecordOf(s.ledger, step))
  {
    hide StepDone, Has, AllIn, TakeRecord, RecordOf;
    OthersReduced(s.crew.status, name);
  }

  lemma OthersReduced(status: map<Name, PolicyStatus>, name: Name)
    ensures AllIn(status[name := Reduced], {Reduced}) <==> forall n :: n in status && n != name ==> status[n] == Reduced
  {
    var st := status[name := Reduced];
    forall n | n in status && n != name ensures n in st && st[n] == status[n] { }
  }

  /** A post fails exactly when results are still admitted and either a rollout claims weights
      that do not exist yet, or a rollout is accepted for dispatch by rank before there is a mesh. */
  lemma PostRaisesIff(s: State, p: Post)
    ensures var a := Adopt(Intake(s, p), p.rollouts);
            PostRollouts(s, p).raised ==
            (!Closed(s.closing)
             && ((exists i :: 0 <= i < |p.rollouts| && p.rollouts[i].version > s.at.step)
                 || (s.cfg.rankInMesh && s.queues.perRank == [] && Accepted(a, p.rollouts, 0) != [])))
  {
    hide SettleDiscard, Settle, Accepted, MaxVersion, PutAll, ReadCount;
    var d := Intake(s, p);
    var k := ReadCount(p.rollouts, d.at.step);
    assert k < |p.rollouts| <==> exists i :: 0 <= i < |p.rollouts| && p.rollouts[i].version > s.at.step;
  }

  /** Samples are lost to the count exactly by a post that fails: without one the counter is
      what workers hold plus what is buffered plus what is dispatched. */
  lemma OnlyFailedPostsLose(w: Workers, s: State, e: Event)
    ensures WorkersAfter(w, s, e).lost != w.lost <==> e.Posting? && PostRollouts(s, e.post).raised
    ensures WorkersAfter(w, s, e).lost >= w.lost
  {
    hide Fetch, EndsReplica, SettleDiscard, Settle, Accepted, MaxVersion, PutAll, ReadCount;
  }
}
