/** Which posted rollouts are kept, in which order they are trained, what they cost, and when a
    training step is dispatched. */
module Admission {
  import opened Types
  import opened Fleet
  import opened Protocol
  import opened Logs
  import opened Runs
  import opened Shutdown
  import opened RankDispatch
  import opened Staleness
  import Arith
  import Loops

  // ---- the filter ----------------------------------------------------------

  /** Whether the rollout at position i of a post, behind what is buffered, is trained within
      the allowed number of steps of the weights that generated it. */
  predicate InTime(s: State, rs: seq<Rollout>, i: nat)
    requires i < |rs|
  {
    s.at.step + (i + Pending(s.cfg, s.queues)) / (s.cfg.batch * (if s.crew.replicas == [] then 1 else |s.crew.replicas|))
      - rs[i].version <= s.cfg.allowed
  }

  /** The positions below n that are in time, in order. */
  function Picks(s: State, rs: seq<Rollout>, n: nat): (picks: seq<nat>)
    requires n <= |rs|
    ensures |picks| <= n && forall k :: 0 <= k < |picks| ==> picks[k] < n
  {
    if n == 0 then [] else Picks(s, rs, n - 1) + (if InTime(s, rs, n - 1) then [n - 1] else [])
  }

  function Select(rs: seq<Rollout>, picks: seq<nat>): (r: seq<Rollout>)
    requires forall k :: 0 <= k < |picks| ==> picks[k] < |rs|
    ensures |r| == |picks| && forall k :: 0 <= k < |picks| ==> r[k] == rs[picks[k]]
  {
    seq(|picks|, k requires 0 <= k < |picks| => rs[picks[k]])
  }

  /** Exactly the positions in time are picked, each once, in order. */
  lemma {:induction false} PicksExactly(s: State, rs: seq<Rollout>, n: nat)
    requires n <= |rs|
    ensures forall i :: i in Picks(s, rs, n) <==> 0 <= i < n && InTime(s, rs, i)
    ensures forall a, b :: 0 <= a < b < |Picks(s, rs, n)| ==> Picks(s, rs, n)[a] < Picks(s, rs, n)[b]
  {
    hide InTime;
    if n > 0 { PicksExactly(s, rs, n - 1); }
  }

  /** The rollouts of a post that are in time, in order. */
  function Kept(s: State, rs: seq<Rollout>): seq<Rollout> { Select(rs, Picks(s, rs, |rs|)) }

  lemma {:induction false} AcceptedAppend(s: State, rs: seq<Rollout>, x: Rollout, from: nat)
    ensures Accepted(s, rs + [x], from) ==
            Accepted(s, rs, from) + (if Acceptable(s, x, from + |rs|) then [x] else [])
    decreases |rs|
  {
    hide Acceptable;
    if rs == [] { assert (rs + [x])[1..] == []; }
    else {
      assert (rs + [x])[1..] == rs[1..] + [x];
      AcceptedAppend(s, rs[1..], x, from + 1);
    }
  }

  lemma AcceptableInTime(s: State, rs: seq<Rollout>, i: nat)
    requires i < |rs|
    ensures Acceptable(s, rs[i], i) <==> InTime(s, rs, i)
  {
  }

  lemma {:induction false} AcceptedPicks(s: State, rs: seq<Rollout>, n: nat)
    requires n <= |rs|
    ensures Accepted(s, rs[..n], 0) == Select(rs, Picks(s, rs, n))
  {
    hide Acceptable, InTime;
    if n > 0 {
      AcceptedPicks(s, rs, n - 1);
      assert rs[..n] == rs[..n - 1] + [rs[n - 1]];
      AcceptedAppend(s, rs[..n - 1], rs[n - 1], 0);
      AcceptableInTime(s, rs, n - 1);
    }
  }

  lemma {:induction false} AcceptedIsKept(s: State, t: State, rs: seq<Rollout>)
    requires t.cfg == s.cfg && t.at.step == s.at.step && t.queues == s.queues && t.crew == s.crew
    ensures Accepted(t, rs, 0) == Kept(s, rs)
  {
    hide Accepted, InTime;
    assert rs[..|rs|] == rs;
    AcceptedPicks(t, rs, |rs|);
    PicksFrame(s, t, rs, |rs|);
  }

  lemma {:induction false} PicksFrame(s: State, t: State, rs: seq<Rollout>, n: nat)
    requires t.cfg == s.cfg && t.at.step == s.at.step && t.queues == s.queues && t.crew == s.crew && n <= |rs|
    ensures Picks(s, rs, n) == Picks(t, rs, n)
  {
    hide InTime;
    if n > 0 {
      PicksFrame(s, t, rs, n - 1);
      InTimeFrame(s, t, rs, n - 1);
    }
  }

  lemma InTimeFrame(s: State, t: State, rs: seq<Rollout>, i: nat)
    requires t.cfg == s.cfg && t.at.step == s.at.step && t.queues == s.queues && t.crew == s.crew && i < |rs|
    ensures InTime(s, rs, i) == InTime(t, rs, i)
  {
  }

  /** What a post leaves of the adoption signal: the largest version read so far. */
  predicate LargestRead(before: int, rs: seq<Rollout>, after: int) {
    && before <= after && (forall i :: 0 <= i < |rs| ==> rs[i].version <= after)
    && (after == before || exists i :: 0 <= i < |rs| && rs[i].version == after)
  }

  lemma {:induction false} MaxVersionIs(v: int, rs: seq<Rollout>)
    ensures LargestRead(v, rs, MaxVersion(v, rs))
  {
    if rs != [] {
      var m := |rs| - 1;
      MaxVersionIs(v, rs[..m]);
      var before := MaxVersion(v, rs[..m]);
      if before != v && before >= rs[m].version {
        var i :| 0 <= i < |rs[..m]| && rs[..m][i].version == before;
        assert rs[i].version == before;
      } else if before < rs[m].version { assert rs[m].version == MaxVersion(v, rs); }
    }
  }

  /** The state in which the kept rollouts of a post are put: what was reported as discarded or
      filtered and what came too late is off the books. */
  ghost predicate Sifted(s: State, p: Post, f: State) {
    var late := |p.rollouts| - |Kept(s, p.rollouts)|;
    var filtered := if s.cfg.dapo then p.filtered else 0;
    && f == s.(at := s.at.(remain := s.at.remain - filtered - late), ledger := f.ledger,
               weights := s.weights.(adopted := f.weights.adopted), log := s.log + Reports(p.rollouts))
    && LargestRead(s.weights.adopted, p.rollouts, f.weights.adopted)
    && f.ledger == Settle(Settle(SettleDiscard(s.ledger, p.src, p.discardId, p.discarded), filtered), late)
  }

  lemma {:induction false} PostSifts(s: State, p: Post) returns (f: State)
    requires !s.closing.terminal && s.closing.synthetic.None?
    requires forall i :: 0 <= i < |p.rollouts| ==> p.rollouts[i].version <= s.at.step
    ensures Sifted(s, p, f) && PostRollouts(s, p).state == PutAll(f, Kept(s, p.rollouts))
    ensures PostRollouts(s, p).raised <==> Kept(s, p.rollouts) != [] && s.cfg.rankInMesh && s.queues.perRank == []
  {
    hide Accepted, MaxVersion, PutAll, Kept, SettleDiscard, ReadCount, Settle;
    var d := Intake(s, p);
    assert ReadCount(p.rollouts, d.at.step) == |p.rollouts|;
    var a := Adopt(d, p.rollouts);
    AcceptedIsKept(s, a, p.rollouts);
    MaxVersionIs(s.weights.adopted, p.rollouts);
    f := Drop(a, |p.rollouts| - |Kept(s, p.rollouts)|);
    SettleNothing(SettleDiscard(s.ledger, p.src, p.discardId, p.discarded));
  }

  /** Admission of a post whose versions exist: the rollout at position i is put iff it is in
      time, in the order of the post; budget and counter fall by exactly the others. */
  lemma {:induction false} PostPutsExactly(s: State, p: Post) returns (f: State, picks: seq<nat>)
    requires !s.closing.terminal && s.closing.synthetic.None?
    requires forall i :: 0 <= i < |p.rollouts| ==> p.rollouts[i].version <= s.at.step
    ensures forall i :: i in picks <==> 0 <= i < |p.rollouts| && InTime(s, p.rollouts, i)
    ensures forall a, b :: 0 <= a < b < |picks| ==> picks[a] < picks[b]
    ensures forall a :: 0 <= a < |picks| ==> picks[a] < |p.rollouts|
    ensures Kept(s, p.rollouts) == Select(p.rollouts, picks)
    ensures Sifted(s, p, f) && PostRollouts(s, p).state == PutAll(f, Kept(s, p.rollouts))
    ensures PostRollouts(s, p).raised <==> Kept(s, p.rollouts) != [] && s.cfg.rankInMesh && s.queues.perRank == []
  {
    hide Sifted, PostRollouts, PutAll, InTime, Picks;
    picks := Picks(s, p.rollouts, |p.rollouts|);
    PicksExactly(s, p.rollouts, |p.rollouts|);
    f := PostSifts(s, p);
  }

  lemma SettleNothing(l: Ledger)
    ensures Settle(l, 0) == l
  {
  }

  // ---- in order ------------------------------------------------------------

  /** The rollouts handed to trainers, in order. */
  function FedOf(log: seq<Entry>): seq<Rollout> {
    if log == [] then []
    else FedOf(log[..|log| - 1]) + (if log[|log| - 1].Fed? then [log[|log| - 1].rollout] else [])
  }

  lemma {:induction false} FedAppend(a: seq<Entry>, b: seq<Entry>)
    ensures FedOf(a + b) == FedOf(a) + FedOf(b)
    decreases |b|
  {
    if b == [] { assert a + b == a; }
    else {
      assert (a + b)[..|a + b| - 1] == a + b[..|b| - 1];
      FedAppend(a, b[..|b| - 1]);
    }
  }

  lemma {:induction false} FedNone(b: seq<Entry>)
    requires forall k :: 0 <= k < |b| ==> !b[k].Fed?
    ensures FedOf(b) == []
  {
    if b != [] { FedNone(b[..|b| - 1]); }
  }

  /** An extension that feeds nobody. */
  lemma {:induction false} FedSame(a: seq<Entry>, b: seq<Entry>)
    requires |a| <= |b| && b[..|a|] == a && forall k :: |a| <= k < |b| ==> !b[k].Fed?
    ensures FedOf(b) == FedOf(a)
  {
    FedAppend(a, b[|a|..]);
    FedNone(b[|a|..]);
    assert a + b[|a|..] == b;
  }

  lemma {:induction false} FedAll(b: seq<Entry>)
    requires AllFed(b)
    ensures |FedOf(b)| == |b|
    ensures forall k :: 0 <= k < |b| ==> FedOf(b)[k] == b[k].rollout
  {
    if b != [] {
      FedAll(b[..|b| - 1]);
      assert forall k :: 0 <= k < |b| - 1 ==> b[..|b| - 1][k] == b[k];
    }
  }

  lemma {:induction false} FeedRanksLength(qs: seq<seq<Rollout>>, to: seq<Name>, batch: nat, step: int)
    requires |to| <= |qs| && EachAtLeast(qs, batch)
    ensures |FeedRanks(qs, to, batch, step)| == batch * |to|
    decreases |to|
  {
    if to != [] {
      assert forall i :: 0 <= i < |qs[1..]| ==> qs[1..][i] == qs[i + 1];
      FeedRanksLength(qs[1..], to[1..], batch, step);
      assert batch * |to| == batch + batch * (|to| - 1);
    }
  }

  /** A dispatch feeds a full batch, pays for it, and takes it from the front of the buffer. */
  lemma {:induction false} DispatchFeeds(s: State)
    requires CanDispatch(s)
    ensures var t := Dispatch(s);
            && |FedOf(t.log)| == |FedOf(s.log)| + s.cfg.batch * |s.crew.replicas|
            && t.at.remain == s.at.remain - s.cfg.batch * |s.crew.replicas|
            && (!s.cfg.rankInMesh ==> FedOf(t.log) + t.queues.shared == FedOf(s.log) + s.queues.shared)
  {
    hide Idle, Finished, SetAll, Names, FedOf, Broadcast;
    var n := s.cfg.batch * |s.crew.replicas|;
    var fed := Feed(s.cfg, s.queues, s.crew.replicas, s.at.step + 1);
    var told := Broadcast(Names(s.crew.replicas), DataFetch(s.cfg.batch, s.at.step + 1, Horizon(s.closing, s.at)));
    FeedNoStep(s);
    FedAppend(s.log, fed);
    FedAll(fed);
    FedSame(s.log + fed, s.log + fed + told);
    if s.cfg.rankInMesh {
      FeedRanksLength(s.queues.perRank, ByStart(s.crew.replicas), s.cfg.batch, s.at.step + 1);
    } else {
      assert FedOf(fed) == s.queues.shared[..n];
    }
  }

  /** Who gets what from the shared buffer: round after round, the next rollout to each replica in
      the order of registration, `batch` rounds. */
  lemma {:induction false} HandOutShared(s: State, i: nat, j: nat)
    requires CanDispatch(s) && !s.cfg.rankInMesh && i < |s.crew.replicas| && j < s.cfg.batch
    ensures var t, k := Dispatch(s), j * |s.crew.replicas| + i;
            && k < |s.queues.shared| && |s.log| + k < |t.log|
            && t.log[|s.log| + k] == Fed(s.crew.replicas[i].name, s.queues.shared[k], s.at.step + 1)
  {
    hide Idle, Finished, Dispatch;
    var n := |s.crew.replicas|;
    var k := j * n + i;
    var fed := Feed(s.cfg, s.queues, s.crew.replicas, s.at.step + 1);
    FedPrefix(s);
    Arith.MulMonotone(n, j + 1, s.cfg.batch);
    assert n * (j + 1) == j * n + n && s.cfg.batch * n == n * s.cfg.batch;
    Loops.TurnIndex(j, i, n);
    assert fed[k] == Fed(Names(s.crew.replicas)[i], s.queues.shared[k], s.at.step + 1);
    FedStays(s.log, fed, Dispatch(s).log, k);
  }

  /** Who gets what by rank: the i-th oldest replica the first batch of queue i by prompt. */
  lemma {:induction false} HandOutByRank(s: State, i: nat, j: nat)
    requires CanDispatch(s) && s.cfg.rankInMesh && i < |s.crew.replicas| && j < s.cfg.batch
    ensures var t, k := Dispatch(s), i * s.cfg.batch + j;
            && |s.log| + k < |t.log|
            && t.log[|s.log| + k] == Fed(ByStart(s.crew.replicas)[i], SortByPrompt(s.queues.perRank[i])[j], s.at.step + 1)
  {
    hide Idle, Finished, Dispatch, SortByPrompt, ByStart;
    var fed := Feed(s.cfg, s.queues, s.crew.replicas, s.at.step + 1);
    FedPrefix(s);
    FeedRanksAt(s.queues.perRank, ByStart(s.crew.replicas), s.cfg.batch, s.at.step + 1, i, j);
    FedStays(s.log, fed, Dispatch(s).log, i * s.cfg.batch + j);
  }

  lemma FedStays(a: seq<Entry>, fed: seq<Entry>, b: seq<Entry>, k: nat)
    requires k < |fed| && |a + fed| <= |b| && b[..|a + fed|] == a + fed
    ensures |a| + k < |b| && b[|a| + k] == fed[k]
  {
    assert b[..|a + fed|][|a| + k] == b[|a| + k];
  }

  lemma FedPrefix(s: State)
    requires CanDispatch(s)
    ensures var fed := Feed(s.cfg, s.queues, s.crew.replicas, s.at.step + 1);
            |s.log + fed| <= |Dispatch(s).log| && Dispatch(s).log[..|s.log + fed|] == s.log + fed
  {
    hide Idle, Finished, SetAll, Broadcast, Feed, Taken, CanDispatch, Names;
  }

  lemma {:induction false} FeedRanksAt(qs: seq<seq<Rollout>>, to: seq<Name>, batch: nat, step: int, i: nat, j: nat)
    requires |to| <= |qs| && EachAtLeast(qs, batch) && i < |to| && j < batch
    ensures i * batch + j < |FeedRanks(qs, to, batch, step)|
    ensures FeedRanks(qs, to, batch, step)[i * batch + j] == Fed(to[i], SortByPrompt(qs[i])[j], step)
    decreases |to|
  {
    hide SortByPrompt;
    assert forall k :: 0 <= k < |qs[1..]| ==> qs[1..][k] == qs[k + 1];
    if i > 0 {
      FeedRanksAt(qs[1..], to[1..], batch, step, i - 1, j);
      assert i * batch == batch + (i - 1) * batch;
    }
  }

  /** Whatever is put is either handed out in order or waits in order; what is handed out is paid for. */
  lemma {:induction false} PutAllFeeds(s: State, rs: seq<Rollout>)
    ensures var t := PutAll(s, rs);
            && t.at.remain + |FedOf(t.log)| == s.at.remain + |FedOf(s.log)|
            && (!s.cfg.rankInMesh ==> FedOf(t.log) + t.queues.shared == FedOf(s.log) + s.queues.shared + rs)
    decreases rs
  {
    hide CanDispatch, Dispatch, FedOf;
    if rs != [] && CanPut(s) {
      var e := s.(queues := Enqueued(s.cfg, s.queues, rs[0]));
      if CanDispatch(e) { DispatchFeeds(e); }
      var t := Put(s, rs[0]);
      assert t.cfg == s.cfg by { PutKeepsConfig(s, rs[0]); }
      PutAllFeeds(t, rs[1..]);
      if !s.cfg.rankInMesh {
        assert FedOf(t.log) + t.queues.shared == FedOf(s.log) + s.queues.shared + [rs[0]];
        assert rs == [rs[0]] + rs[1..];
      }
    }
  }

  lemma PutKeepsConfig(s: State, r: Rollout)
    requires CanPut(s)
    ensures Put(s, r).cfg == s.cfg
  {
    hide CanDispatch, Taken, Feed, Names, Broadcast, SetAll;
  }

  // ---- when a step is dispatched -------------------------------------------

  /** A step is due: replicas are there, all of them ready or done with the last step, the job is
      neither complete nor at a positive horizon, and a full batch waits - for dispatch by rank,
      in each queue, with a queue for every replica. */
  predicate StepDue(s: State) {
    var horizon := if s.closing.frozen.Some? then s.closing.frozen.value else s.at.total;
    && s.crew.replicas != []
    && (forall n :: n in s.crew.status ==> s.crew.status[n] == Ready || s.crew.status[n] == Reduced)
    && !s.closing.terminal && (horizon <= 0 || s.at.step < horizon)
    && (if s.cfg.rankInMesh then
          && |s.crew.replicas| <= |s.queues.perRank| && s.queues.perRank != []
          && forall r :: 0 <= r < |s.queues.perRank| ==> |s.queues.perRank[r]| >= s.cfg.batch
        else |s.queues.shared| >= s.cfg.batch * |s.crew.replicas|)
  }

  /** try_trigger_data_fetch_and_training dispatches iff a step is due; then every replica is told
      the next step, set running, and a batch per replica is on record. */
  lemma {:induction false} DispatchesIff(s: State)
    ensures var t := TryTrigger(s);
            if StepDue(s) then
              && t.at.step == s.at.step + 1
              && t.ledger.dispatched == s.ledger.dispatched[s.at.step + 1 := s.cfg.batch * |s.crew.replicas|]
              && (forall i :: 0 <= i < |s.crew.replicas| ==>
                    s.crew.replicas[i].name in t.crew.status && t.crew.status[s.crew.replicas[i].name] == Running
                    && Sent(s.crew.replicas[i].name, DataFetch(s.cfg.batch, s.at.step + 1, Horizon(s.closing, s.at))) in t.log)
            else t == s
  {
    hide Feed, Taken;
    assert CanDispatch(s) <==> StepDue(s);
    if CanDispatch(s) {
      var cmd := DataFetch(s.cfg.batch, s.at.step + 1, Horizon(s.closing, s.at));
      forall i | 0 <= i < |s.crew.replicas| ensures Sent(s.crew.replicas[i].name, cmd) in Dispatch(s).log {
        assert Broadcast(Names(s.crew.replicas), cmd)[i] == Sent(s.crew.replicas[i].name, cmd);
      }
      forall i | 0 <= i < |s.crew.replicas| ensures s.crew.replicas[i].name in Names(s.crew.replicas) {
        assert Names(s.crew.replicas)[i] == s.crew.replicas[i].name;
      }
    }
  }

  // ---- the sample budget and the order of training, on every run -----------

  predicate Admits(c: Closing) { !c.terminal && c.synthetic.None? }

  predicate VersionsExist(rs: seq<Rollout>, step: int) { forall i :: 0 <= i < |rs| ==> rs[i].version <= step }

  /** The rollouts that an event adds to the shared buffer. */
  function PutBy(s: State, e: Event): seq<Rollout> {
    if e.Posting? && Admits(s.closing) && VersionsExist(e.post.rollouts, s.at.step) then Kept(s, e.post.rollouts) else []
  }

  /** The samples that an event strikes off the budget without training on them. */
  function DroppedBy(s: State, e: Event): nat {
    if !e.Posting? || !Admits(s.closing) then 0
    else (if s.cfg.dapo then e.post.filtered else 0)
         + (if VersionsExist(e.post.rollouts, s.at.step) then |e.post.rollouts| - |Kept(s, e.post.rollouts)| else 0)
  }

  /** What was left and what was handed out: constant but for `dropped` samples. */
  predicate Paid(s: State, t: State, dropped: nat) {
    t.at.remain + |FedOf(t.log)| + dropped == s.at.remain + |FedOf(s.log)|
  }

  lemma {:induction false} DrainFeeds(s: State)
    ensures Paid(s, FinishDraining(s), 0)
  {
    hide CanDispatch, Dispatch, Idle, AllEnded, Settle, Pending, Emptied, SetAll, Names, RealTerminalAcked, FedOf, Broadcast;
    if AllEnded(s.gens) {
      var e := EnterDraining(s);
      if !Closed(e.closing) && Idle(e.crew) {
        if e.at.step < Horizon(e.closing, e.at) && CanDispatch(e) { DispatchFeeds(e); }
        else { ConcludeFeeds(e); }
      }
    }
  }

  lemma {:induction false} ConcludeFeeds(s: State)
    ensures Conclude(s).at == s.at && FedOf(Conclude(s).log) == FedOf(s.log)
  {
    hide Settle, Pending, Emptied, SetAll, Names, RealTerminalAcked, FedOf;
    FedSame(s.log, Conclude(s).log);
  }

  /** Settling a step that does not end the job leaves the buffers alone. */
  lemma SettleStepQueues(s: State, step: int, total: int)
    ensures !SettleStep(s, step, total).closing.terminal ==> SettleStep(s, step, total).queues == s.queues
  {
    hide Pending, Emptied, Settle;
  }

  /** Still generating and training: neither draining nor complete. */
  predicate Open(c: Closing) { !c.draining && !c.terminal }

  predicate InOrder(s: State, t: State, put: seq<Rollout>) {
    !t.cfg.rankInMesh && Open(t.closing) ==> FedOf(t.log) + t.queues.shared == FedOf(s.log) + s.queues.shared + put
  }

  lemma {:induction false} SteppedFeeds(s: State, step: int, total: int)
    ensures Paid(s, StepDone(s, step, total), 0) && InOrder(s, StepDone(s, step, total), [])
  {
    hide SettleStep, Resume, FinishDraining, CanDispatch, Dispatch, FedOf, Serviced;
    var a := SettleStep(s, step, total);
    SettleStepFrame(s, step, total);
    SettleStepQueues(s, step, total);
    var c := Resume(a, step);
    ResumeFrame(a, step);
    ServicedFeeds(a.log, c.log);
    if c.closing.draining {
      DrainFeeds(c);
      DrainStaysDraining(c);
    } else if CanDispatch(c) {
      DispatchFeeds(c);
      DispatchKeepsClosing(c);
      DispatchFrame(c);
    }
  }

  lemma {:induction false} ServicedFeeds(a: seq<Entry>, b: seq<Entry>)
    requires Serviced(a, b)
    ensures FedOf(b) == FedOf(a)
  {
    FedSame(a, b);
  }

  lemma {:induction false} AckFeeds(s: State, name: Name, step: int, total: int)
    ensures var t := TrainAck(s, name, step, total).state; Paid(s, t, 0) && InOrder(s, t, [])
  {
    hide StepDone, TakeRecord, AllIn, Has, Overdrawn, FedOf;
    var t := s.(crew := SetStatus(s.crew, name, Reduced), log := s.log + [Acked(name, step, total)]);
    FedSame(s.log, t.log);
    TakeRecordFrame(t, step);
    SteppedFeeds(t, step, total);
    AckConfig(t, step, total);
  }

  lemma AckConfig(s: State, step: int, total: int)
    ensures StepDone(s, step, total).cfg == s.cfg
  {
    hide SettleStep, Resume, FinishDraining, CanDispatch, Dispatch, Serviced, Worked;
    var a := SettleStep(s, step, total);
    SettleStepFrame(s, step, total);
    ResumeFrame(a, step);
    DrainFrame(Resume(a, step));
    if CanDispatch(Resume(a, step)) { DispatchFrame(Resume(a, step)); }
  }

  lemma {:induction false} EndFeeds(s: State, name: Name, rank: Option<int>, stays: bool)
    ensures var t := RolloutEnd(s, name, rank, stays); Paid(s, t, 0) && InOrder(s, t, [])
  {
    hide EndReport, EndsReplica, FinishDraining, FedOf;
    var u := s.(gens := EndReport(s.gens, name, rank, stays));
    DrainFeeds(u);
    DrainOrUntouched(u);
  }

  lemma DrainOrUntouched(s: State)
    ensures FinishDraining(s) == s || FinishDraining(s).closing.draining
  {
    hide Drain, AllEnded;
    if AllEnded(s.gens) { DrainKeepsDraining(EnterDraining(s)); }
  }

  lemma {:induction false} PostFeeds(s: State, p: Post)
    ensures var t := PostRollouts(s, p).state; Paid(s, t, DroppedBy(s, Posting(p))) && InOrder(s, t, PutBy(s, Posting(p)))
  {
    hide FedOf, PutAll, Accepted, MaxVersion, SettleDiscard, Settle, ReadCount, Kept, InTime, Picks;
    if !Admits(s.closing) { }
    else if VersionsExist(p.rollouts, s.at.step) {
      var f := PostSifts(s, p);
      FedSame(s.log, f.log);
      PutAllFeeds(f, Kept(s, p.rollouts));
      PutAllKeepsConfig(f, Kept(s, p.rollouts));
    } else {
      var k := ReadCount(p.rollouts, s.at.step);
      FedSame(s.log, s.log + Reports(p.rollouts[..k]));
    }
  }

  lemma {:induction false} StepFeeds(s: State, e: Event)
    ensures Paid(s, Apply(s, e), DroppedBy(s, e)) && InOrder(s, Apply(s, e), PutBy(s, e))
  {
    hide Fetch, PostRollouts, RolloutEnd, TrainAck, RegisterPolicy, UnregisterPolicy, RegisterRollout,
         UnregisterRollout, MonitorTick, FedOf, Kept, Unfed;
    match e
    case Posting(p) => PostFeeds(s, p);
    case Ending(name, rank, stays) => EndFeeds(s, name, rank, stays);
    case Acking(name, step, total) => AckFeeds(s, name, step, total);
    case _ => OthersFeedNobody(s, e);
  }

  lemma {:induction false} OthersFeedNobody(s: State, e: Event)
    requires !e.Posting? && !e.Ending? && !e.Acking?
    ensures Apply(s, e).at.remain == s.at.remain && FedOf(Apply(s, e).log) == FedOf(s.log)
    ensures Apply(s, e).queues.shared == s.queues.shared
  {
    hide Fetch, RegisterPolicy, UnregisterPolicy, RegisterRollout, UnregisterRollout, MonitorTick, FedOf, Names;
    if e.PolicyUp? || e.PolicyDown? {
      RegistrationFeedsNobody(s, e);
      RegistrationKeepsBudget(s, e);
    } else {
      OthersLeaveMeshAlone(s, e);
      OthersKeepBudget(s, e);
    }
    FedSame(s.log, Apply(s, e).log);
  }

  lemma {:induction false} OthersKeepBudget(s: State, e: Event)
    requires e.Fetching? || e.RolloutUp? || e.RolloutDown? || e.Tick?
    ensures Apply(s, e).at == s.at
  {
    hide FetchTags, HardThrottled, RegisterRollout, UnregisterRollout, ShouldStop, Names, Has, Serviced;
    match e
    case Fetching(_, _, _) =>
    case RolloutUp(name, now, rs) =>
      if Has(s.gens.replicas, name) { RolloutKnown(s, name, now, rs); } else { RegisterRolloutFrame(s, name, now, rs); }
    case RolloutDown(name) => UnregisterRolloutFrame(s, name);
    case Tick =>
  }

  lemma {:induction false} RegistrationKeepsBudget(s: State, e: Event)
    requires e.PolicyUp? || e.PolicyDown?
    ensures Apply(s, e).at.remain == s.at.remain && Apply(s, e).queues.shared == s.queues.shared
  {
    hide FirstPolicy, PolicyHook, RebuildPolicyMesh, Without, Get, Has, Serviced, Meshed, Finished;
    if e.PolicyUp? {
      var a := AddPolicy(s, e.name, e.now);
      FirstPolicyFrame(a, e.name);
      var b := if |a.crew.replicas| == 1 then FirstPolicy(a, e.name) else a;
      PolicyHookFrame(b, e.name);
      HookKeepsShared(b, e.name);
    } else {
      var t := s.(crew := s.crew.(replicas := Without(s.crew.replicas, e.name),
                                  status := s.crew.status - {e.name}, left := s.crew.left + 1));
      RebuildFrame(t);
      RebuildKeepsShared(t);
    }
  }

  function PutInRun(s: State, es: seq<Event>): seq<Rollout>
    decreases es
  {
    if es == [] then [] else PutBy(s, es[0]) + PutInRun(Apply(s, es[0]), es[1..])
  }

  function DroppedInRun(s: State, es: seq<Event>): nat
    decreases es
  {
    if es == [] then 0 else DroppedBy(s, es[0]) + DroppedInRun(Apply(s, es[0]), es[1..])
  }

  lemma {:induction false} RunFeeds(s: State, es: seq<Event>)
    requires Sound(s)
    ensures Paid(s, Run(s, es), DroppedInRun(s, es)) && InOrder(s, Run(s, es), PutInRun(s, es))
    decreases es
  {
    hide Apply, Sound, FedOf, PutBy, DroppedBy;
    if es != [] {
      var t := Apply(s, es[0]);
      StepFeeds(s, es[0]);
      StepKept(s, es[0]);
      RunFeeds(t, es[1..]);
      RunKept(t, es[1..]);
      ConfigKept(t, es[1..]);
      StepKeepsConfig(s, es[0]);
    }
  }

  /** The sample budget on every run: what remains, what was handed to trainers and what was
      dropped as filtered or too late add up to the budget of the start. */
  lemma {:induction false} BudgetOnEveryRun(cfg: Config, np: nat, nr: nat, step: int, remain: int, es: seq<Event>)
    ensures var s := Run(Init(cfg, np, nr, step, remain), es);
            s.at.remain + |FedOf(s.log)| + DroppedInRun(Init(cfg, np, nr, step, remain), es) == remain
  {
    hide Run, DroppedInRun;
    RunFeeds(Init(cfg, np, nr, step, remain), es);
  }

  /** First in, first out on every run with the shared buffer, until draining or completion: the
      rollouts handed to trainers, followed by the buffer, are the rollouts kept, in order. */
  lemma {:induction false} TrainedInOrder(cfg: Config, np: nat, nr: nat, step: int, remain: int, es: seq<Event>)
    requires !cfg.rankInMesh
    ensures var s := Run(Init(cfg, np, nr, step, remain), es);
            !s.closing.draining && !s.closing.terminal ==>
              FedOf(s.log) + s.queues.shared == PutInRun(Init(cfg, np, nr, step, remain), es)
  {
    hide Run, PutInRun;
    RunFeeds(Init(cfg, np, nr, step, remain), es);
    ConfigKept(Init(cfg, np, nr, step, remain), es);
  }
}
