/** When the acknowledgement of a training step starts a weight round, and what the round
    consists of, in terms of the configuration and the replicas alone. */
module WeightRounds {
  import opened Types
  import opened Fleet
  import opened Protocol
  import opened Logs
  import opened Runs
  import opened Ages
  import opened Completion
  import opened Coalescing

  /** The acknowledgement of a known replica that leaves nobody working and is covered by the
      in-flight count: it settles the step. */
  predicate Settles(s: State, name: Name, step: int) {
    && Has(s.crew.replicas, name)
    && !(s.closing.synthetic == Some(step) && name in s.closing.recipients)
    && (forall n :: n in s.crew.status && n != name ==> s.crew.status[n] == Reduced)
    && (if step in s.ledger.dispatched then s.ledger.dispatched[step] else 0) <= s.ledger.onTheFly
  }

  /** The rollouts are to get the weights of this step. */
  predicate RoundDue(s: State, step: int) {
    && !s.closing.draining
    && step % s.cfg.syncInterval == 0
    && step != s.at.total
    && (exists i :: 0 <= i < |s.gens.replicas| && !s.gens.replicas[i].ended)
    && (forall i :: 0 <= i < |s.gens.replicas| && s.gens.replicas[i].ended ==> s.gens.replicas[i].name in s.gens.participants)
    && !(s.cfg.coalesce && s.cfg.allowed > 0 && !s.cfg.onPolicy && s.weights.staged > s.weights.adopted)
  }

  /** Replica i is the oldest. */
  ghost predicate Oldest(rs: seq<Replica>, i: nat) {
    i < |rs| && forall j :: 0 <= j < |rs| && j != i ==> Older(rs, i, j)
  }

  /** What is relayed from replica j to all: partial when all others hold weights already. */
  ghost predicate RelayCommand(c: Command, rs: seq<Replica>, j: nat, step: int)
    requires j < |rs|
  {
    && c.RolloutToRollout? && c.src == rs[j].name && c.weightStep == Some(step)
    && Distinct(c.dsts) && (forall n :: n in c.dsts <==> Has(rs, n))
    && (c.partial <==> forall k :: 0 <= k < |rs| && k != j ==> rs[k].loaded)
  }

  /** The log from `at` on: the transfer from policy replica i to rollout replica j, told to both
      ends, and then the relay, told to exactly the rollouts in the mesh if j is in it. */
  ghost predicate RoundFrom(log: seq<Entry>, at: nat, crew: seq<Replica>, i: nat, rs: seq<Replica>, j: nat, step: int)
    requires i < |crew| && j < |rs|
  {
    var up := PolicyToRollout(crew[i].name, rs[j].name, Some(step), rs[j].loaded);
    && at + 2 <= |log| && log[at] == Sent(crew[i].name, up) && log[at + 1] == Sent(rs[j].name, up)
    && (rs[j].meshRank >= 0 ==>
          forall k :: 0 <= k < |rs| && rs[k].meshRank >= 0 ==> Relayed(log, at + 2, rs, j, rs[k].name, step))
    && (forall m :: at + 2 <= m < |log| && log[m].Sent? && log[m].cmd.RolloutToRollout? ==>
          rs[j].meshRank >= 0 && RelayCommand(log[m].cmd, rs, j, step) && InTheMesh(rs, log[m].to))
  }

  predicate InTheMesh(rs: seq<Replica>, n: Name) { exists k :: 0 <= k < |rs| && rs[k].name == n && rs[k].meshRank >= 0 }

  /** The relay is sent to `n` at or after position `at`. */
  ghost predicate Relayed(log: seq<Entry>, at: nat, rs: seq<Replica>, j: nat, n: Name, step: int)
    requires j < |rs|
  {
    exists m :: at <= m < |log| && log[m].Sent? && log[m].to == n && RelayCommand(log[m].cmd, rs, j, step)
  }

  // ---- the transfer --------------------------------------------------------

  lemma {:induction false} ReachableIff(rs: seq<Replica>, ns: seq<Name>, n: Name)
    ensures n in Reachable(rs, ns) <==> n in ns && Has(rs, n) && Get(rs, n).meshRank >= 0
  {
    hide Get, Has;
    if ns != [] {
      ReachableIff(rs, ns[1..], n);
      assert n in ns <==> n == ns[0] || n in ns[1..];
    }
  }

  lemma {:induction false} InTheMeshIff(rs: seq<Replica>, n: Name)
    requires Distinct(Names(rs))
    ensures InTheMesh(rs, n) <==> Has(rs, n) && Get(rs, n).meshRank >= 0
  {
    hide Get, Distinct, Names;
    if Has(rs, n) {
      var i :| 0 <= i < |rs| && rs[i].name == n;
      GetAt(rs, i);
      forall k | 0 <= k < |rs| && rs[k].name == n ensures rs[k] == Get(rs, n) { GetAt(rs, k); }
    }
  }

  /** Everyone is loaded once j is, exactly when all others were. */
  lemma {:induction false} AllLoadedIff(rs: seq<Replica>, j: nat, order: seq<Name>)
    requires Distinct(Names(rs)) && j < |rs| && forall k :: 0 <= k < |rs| ==> rs[k].name in order
    ensures AllLoaded(Load(rs, [rs[j].name]), order) <==> forall k :: 0 <= k < |rs| && k != j ==> rs[k].loaded
  {
    hide Get, Distinct, Names;
    var qs := Load(rs, [rs[j].name]);
    NamesLoaded(rs, [rs[j].name]);
    forall k | 0 <= k < |rs| ensures qs[k].loaded == (rs[k].loaded || k == j) {
      if k != j { NamesApart(rs, k, j); }
    }
    forall k | 0 <= k < |rs| ensures Has(qs, rs[k].name) && Get(qs, rs[k].name) == qs[k] { GetAt(qs, k); }
    if AllLoaded(qs, order) {
      forall k | 0 <= k < |rs| && k != j ensures rs[k].loaded { assert rs[k].name in order; }
    }
    if forall k :: 0 <= k < |rs| && k != j ==> rs[k].loaded {
      forall n | n in order && Has(qs, n) ensures Get(qs, n).loaded {
        var k :| 0 <= k < |qs| && qs[k].name == n;
        assert qs[k].name == rs[k].name;
      }
    }
  }

  lemma {:induction false} SameRankLoaded(rs: seq<Replica>, ns: seq<Name>, n: Name)
    requires Distinct(Names(rs)) && Has(rs, n)
    ensures Has(Load(rs, ns), n) && Get(Load(rs, ns), n).meshRank == Get(rs, n).meshRank
  {
    hide Get, Distinct, Names;
    var i :| 0 <= i < |rs| && rs[i].name == n;
    NamesLoaded(rs, ns);
    var qs := Load(rs, ns);
    GetAt(rs, i);
    assert qs[i].name == n && qs[i].meshRank == rs[i].meshRank;
    GetAt(qs, i);
  }

  /** The relay of a round. */
  function RelayOf(rs: seq<Replica>, j: nat, step: int): Command
    requires j < |rs|
  {
    RolloutToRollout(rs[j].name, ByStart(rs), Some(step), AllLoaded(Load(rs, [rs[j].name]), ByStart(rs)))
  }

  lemma {:induction false} RelayOfIs(rs: seq<Replica>, j: nat, step: int)
    requires Distinct(Names(rs)) && j < |rs|
    ensures RelayCommand(RelayOf(rs, j, step), rs, j, step)
  {
    hide ByStart, AllLoaded, Distinct, Names;
    NamedInOrder(rs);
    AllLoadedIff(rs, j, ByStart(rs));
    ByStartDistinct(rs);
  }

  /** The log of the two transfers. */
  lemma {:induction false} TransferLog(y: Sync, src: Name, j: nat, step: int)
    requires Distinct(Names(y.rollouts)) && j < |y.rollouts| && ByStart(y.rollouts)[0] == y.rollouts[j].name
    ensures Has(y.rollouts, y.rollouts[j].name)
    ensures var up := PolicyToRollout(src, y.rollouts[j].name, Some(step), y.rollouts[j].loaded);
            var log := Transfer(y, src, ByStart(y.rollouts), step).log;
            var told := Reachable(Load(y.rollouts, [y.rollouts[j].name]), ByStart(y.rollouts));
            log == y.log + [Sent(src, up), Sent(y.rollouts[j].name, up)]
                   + (if y.rollouts[j].meshRank >= 0 then Broadcast(told, RelayOf(y.rollouts, j, step)) else [])
  {
    hide ByStart, Get, AllLoaded, Distinct, Names, Reachable;
    var rs := y.rollouts;
    GetAt(rs, j);
    SameRankLoaded(rs, [rs[j].name], rs[j].name);
  }

  lemma {:induction false} ToldInMesh(rs: seq<Replica>, j: nat, n: Name)
    requires Distinct(Names(rs)) && j < |rs|
    ensures n in Reachable(Load(rs, [rs[j].name]), ByStart(rs)) <==> InTheMesh(rs, n)
  {
    hide ByStart, Get, Distinct, Names, Reachable, InTheMesh;
    var qs := Load(rs, [rs[j].name]);
    ReachableIff(qs, ByStart(rs), n);
    InTheMeshIff(rs, n);
    if Has(rs, n) { SameRankLoaded(rs, [rs[j].name], n); }
  }

  /** The transfers of a round, as a log. */
  lemma {:induction false} TransferIsRound(y: Sync, crew: seq<Replica>, i: nat, j: nat, step: int)
    requires Distinct(Names(y.rollouts)) && j < |y.rollouts| && i < |crew| && ByStart(y.rollouts)[0] == y.rollouts[j].name
    ensures Has(y.rollouts, y.rollouts[j].name)
    ensures RoundFrom(Transfer(y, crew[i].name, ByStart(y.rollouts), step).log, |y.log|, crew, i, y.rollouts, j, step)
  {
    hide ByStart, Distinct, Names, Reachable, InTheMesh, RelayCommand, RelayOf, Transfer, Load;
    var rs := y.rollouts;
    TransferLog(y, crew[i].name, j, step);
    RelayOfIs(rs, j, step);
    var log := Transfer(y, crew[i].name, ByStart(rs), step).log;
    var told := Reachable(Load(rs, [rs[j].name]), ByStart(rs));
    forall n ensures n in told <==> InTheMesh(rs, n) { ToldInMesh(rs, j, n); }
    var at := |y.log|;
    if rs[j].meshRank >= 0 {
      forall k | 0 <= k < |rs| && rs[k].meshRank >= 0 ensures Relayed(log, at + 2, rs, j, rs[k].name, step) {
        assert InTheMesh(rs, rs[k].name) by { MemberInMesh(rs, k); }
        var p :| 0 <= p < |told| && told[p] == rs[k].name;
        assert log[at + 2 + p] == Sent(told[p], RelayOf(rs, j, step));
      }
      forall m | at + 2 <= m < |log| && log[m].Sent? && log[m].cmd.RolloutToRollout?
        ensures RelayCommand(log[m].cmd, rs, j, step) && InTheMesh(rs, log[m].to)
      {
        assert log[m] == Sent(told[m - at - 2], RelayOf(rs, j, step));
      }
    }
  }

  lemma MemberInMesh(rs: seq<Replica>, k: nat)
    requires k < |rs| && rs[k].meshRank >= 0
    ensures InTheMesh(rs, rs[k].name)
  {
  }

  // ---- the acknowledgement -------------------------------------------------

  lemma {:induction false} DueIff(s: State, step: int)
    ensures RoundDue(s, step) <==> SyncDue(s, step) && !CoalesceSkip(s.cfg, s.weights)
  {
    hide ByStart;
    var g := s.gens;
    if exists i :: 0 <= i < |g.replicas| && !g.replicas[i].ended { assert |ByStart(g.replicas)| > 0; }
  }

  /** A round that is due starts with the oldest policy replica and the oldest rollout. */
  lemma {:induction false} SyncIsRound(s: State, step: int) returns (i: nat, j: nat)
    requires Distinct(Names(s.crew.replicas)) && Distinct(Names(s.gens.replicas)) && s.crew.replicas != []
    requires RoundDue(s, step)
    ensures Oldest(s.crew.replicas, i) && Oldest(s.gens.replicas, j)
    ensures var t := MaybeSync(s, step);
            && |s.log| <= |t.log| && t.log[..|s.log|] == s.log && t.weights.staged == step
            && RoundFrom(t.log, |s.log|, s.crew.replicas, i, s.gens.replicas, j, step)
  {
    hide ByStart, Distinct, Names, Transfer, RoundFrom, Older, RoundDue, AllEnded;
    DueIff(s, step);
    assert s.gens.replicas != [] by { SomeRollout(s, step); }
    i := FirstIsOldest(s.crew.replicas);
    j := FirstIsOldest(s.gens.replicas);
    var y := Sync(s.gens.replicas, s.log);
    TransferIsRound(y, s.crew.replicas, i, j, step);
    TransferServiced(y, s.crew.replicas[i].name, ByStart(s.gens.replicas), step);
    assert SafeTargets(s.gens) == ByStart(s.gens.replicas) by { DueTargets(s, step); }
  }

  lemma SomeRollout(s: State, step: int)
    requires RoundDue(s, step)
    ensures s.gens.replicas != []
  {
  }

  lemma DueTargets(s: State, step: int)
    requires SyncDue(s, step)
    ensures SafeTargets(s.gens) == ByStart(s.gens.replicas)
  {
    hide ByStart;
  }

  lemma {:induction false} SettlesIff(s: State, name: Name, step: int)
    ensures Settles(s, name, step) <==>
            && Has(s.crew.replicas, name) && !IsCompletionAck(s.closing, name, step)
            && AllIn(s.crew.status[name := Reduced], {Reduced}) && !Overdrawn(s.ledger, step)
  {
    hide Has;
    var st := s.crew.status[name := Reduced];
    forall n | n in s.crew.status && n != name ensures n in st && st[n] == s.crew.status[n] { }
  }

  /** A log that goes on after a round without transfers. */
  lemma {:induction false} RoundExtends(a: seq<Entry>, b: seq<Entry>, at: nat, crew: seq<Replica>, i: nat, rs: seq<Replica>, j: nat, step: int)
    requires i < |crew| && j < |rs| && RoundFrom(a, at, crew, i, rs, j, step) && NoTransfer(a, b)
    ensures RoundFrom(b, at, crew, i, rs, j, step)
  {
    hide RelayCommand, InTheMesh;
    forall k | 0 <= k < |a| ensures b[k] == a[k] { assert b[..|a|][k] == b[k]; }
    if rs[j].meshRank >= 0 {
      forall k | 0 <= k < |rs| && rs[k].meshRank >= 0 ensures Relayed(b, at + 2, rs, j, rs[k].name, step) {
        assert Relayed(a, at + 2, rs, j, rs[k].name, step);
        var m :| at + 2 <= m < |a| && a[m].Sent? && a[m].to == rs[k].name && RelayCommand(a[m].cmd, rs, j, step);
        assert b[m] == a[m];
      }
    }
  }

  /** What follows the synchronisation of a step transfers nothing. */
  lemma RestNoTransfer(c: State)
    ensures NoTransfer(c.log, FinishDraining(c).log) && FinishDraining(c).weights == c.weights
    ensures NoTransfer(c.log, TryTrigger(c).log) && TryTrigger(c).weights == c.weights
  {
    hide FinishDraining, CanDispatch, Dispatch, Worked;
    DrainNoTransfer(c);
    if CanDispatch(c) { DispatchFrame(c); WorkedNoTransfer(c.log, Dispatch(c).log); }
  }

  lemma WorkedNoTransfer(a: seq<Entry>, b: seq<Entry>)
    requires Worked(a, b)
    ensures NoTransfer(a, b)
  {
  }

  /** The state in which the synchronisation of an acknowledged step takes place. */
  function Synchronising(s: State, name: Name, step: int, total: int): State {
    var t := s.(crew := SetStatus(s.crew, name, Reduced), log := s.log + [Acked(name, step, total)]);
    var a := SettleStep(t, step, total);
    a.(crew := a.crew.(status := SetAll(a.crew.status, Names(a.crew.replicas), Ready)))
  }

  lemma {:induction false} SynchronisingFrame(s: State, name: Name, step: int, total: int)
    ensures var b := Synchronising(s, name, step, total);
            && b.cfg == s.cfg && b.gens == s.gens && b.weights == s.weights && b.at == s.at
            && b.crew.replicas == s.crew.replicas && b.log == s.log + [Acked(name, step, total)]
            && b.closing.draining == s.closing.draining
            && (RoundDue(b, step) <==> RoundDue(s, step))
  {
    hide SettleStep, SetAll, Names;
    SettleStepFrame(s.(crew := SetStatus(s.crew, name, Reduced), log := s.log + [Acked(name, step, total)]), step, total);
  }

  /** The acknowledgement in terms of that state. */
  lemma {:induction false} AckThroughSync(s: State, name: Name, step: int, total: int)
    requires Settles(s, name, step)
    ensures var b := Synchronising(s, name, step, total);
            var c := if RoundDue(b, step) then MaybeSync(b, step) else b;
            var t := TrainAck(s, name, step, total).state;
            NoTransfer(c.log, t.log) && t.weights.staged == c.weights.staged
  {
    hide SettleStep, SetAll, Names, FinishDraining, TryTrigger, AllIn, Has, Overdrawn, RoundDue, Settles, WeightSync, NoTransfer;
    SettlesIff(s, name, step);
    var b := Synchronising(s, name, step, total);
    DueIff(b, step);
    var t := s.(crew := SetStatus(s.crew, name, Reduced), log := s.log + [Acked(name, step, total)]);
    var a := SettleStep(t, step, total);
    SettleStepFrame(t, step, total);
    var c := Resume(a, step);
    assert SyncDue(a, step) == SyncDue(b, step) by { DueFrame(a, b, step); }
    RestNoTransfer(c);
  }

  lemma DueFrame(a: State, b: State, step: int)
    requires a.cfg == b.cfg && a.gens == b.gens && a.at == b.at && a.closing == b.closing
    ensures SyncDue(a, step) == SyncDue(b, step)
  {
    hide SafeTargets, AllEnded;
  }

  /** An acknowledgement that settles a step starts a weight round of that step exactly when one
      is due: from the oldest policy replica to the oldest rollout, told to both ends, and from
      there to every rollout in the mesh.  Otherwise it transfers nothing. */
  lemma {:induction false} AckSyncsIff(s: State, name: Name, step: int, total: int) returns (i: nat, j: nat)
    requires Distinct(Names(s.crew.replicas)) && Distinct(Names(s.gens.replicas)) && Settles(s, name, step)
    ensures var t := TrainAck(s, name, step, total).state;
            if RoundDue(s, step) then
              && Oldest(s.crew.replicas, i) && Oldest(s.gens.replicas, j) && t.weights.staged == step
              && RoundFrom(t.log, |s.log| + 1, s.crew.replicas, i, s.gens.replicas, j, step)
            else NoTransfer(s.log, t.log) && t.weights.staged == s.weights.staged
  {
    hide TrainAck, Synchronising, MaybeSync, Distinct, Names, RoundDue, RoundFrom, Settles, NoTransfer, Older;
    i, j := 0, 0;
    var b := Synchronising(s, name, step, total);
    SynchronisingFrame(s, name, step, total);
    AckThroughSync(s, name, step, total);
    var t := TrainAck(s, name, step, total).state;
    if RoundDue(s, step) {
      assert s.crew.replicas != [] by { KnownThere(s, name, step); }
      i, j := SyncIsRound(b, step);
      RoundExtends(MaybeSync(b, step).log, t.log, |b.log|, s.crew.replicas, i, s.gens.replicas, j, step);
    } else {
      NoTransferAfterAck(s.log, Acked(name, step, total), t.log);
    }
  }

  lemma KnownThere(s: State, name: Name, step: int)
    requires Settles(s, name, step)
    ensures s.crew.replicas != []
  {
  }

  lemma NoTransferAfterAck(a: seq<Entry>, e: Entry, c: seq<Entry>)
    requires e.Acked? && NoTransfer(a + [e], c)
    ensures NoTransfer(a, c)
  {
    assert c[..|a|] == c[..|a| + 1][..|a|];
    assert c[|a|] == c[..|a| + 1][|a|];
  }

  /** An acknowledgement that does not settle a step transfers nothing. */
  lemma {:induction false} OnlySettlingAcksSync(s: State, name: Name, step: int, total: int)
    requires !Settles(s, name, step)
    ensures var t := TrainAck(s, name, step, total).state;
            NoTransfer(s.log, t.log) && t.weights == s.weights
  {
    hide StepDone, TakeRecord, AllIn, Has, Overdrawn, Settles;
    SettlesIff(s, name, step);
    TakeRecordFrame(s.(crew := SetStatus(s.crew, name, Reduced), log := s.log + [Acked(name, step, total)]), step);
  }
}
