/** The controller object: the state the handlers update in place, and the
    handlers, each proved to do what the protocol says. */
module ControllerObject {
  import Arith
  import opened Types
  import opened Fleet
  import opened Protocol
  import opened Loops
  import Shutdown
  import Fetches

  class Controller {
    const cfg: Config
    var crew: Crew
    var at: Progress
    var ledger: Ledger
    var queues: Queues
    var closing: Closing
    var weights: Weights
    var gens: Gens
    var tags: map<int, nat>
    var stopSent: bool
    var log: seq<Entry>

    /** The replica dictionaries have one entry per name. */
    ghost predicate Valid()
      reads this
    {
      Distinct(Names(crew.replicas)) && Distinct(Names(gens.replicas))
    }

    function View(): State
      reads this
    {
      State(cfg, crew, at, ledger, queues, closing, weights, gens, tags, stopSent, log)
    }

    constructor (cfg: Config, nPolicy: nat, nRollout: nat, step: int, remain: int)
      ensures Valid() && View() == Init(cfg, nPolicy, nRollout, step, remain)
    {
      this.cfg := cfg;
      crew := Crew([], map[], false, false, nPolicy, 0, false);
      at := Progress(step, 0, remain);
      ledger := Ledger(0, map[], map[]);
      queues := Queues([], []);
      closing := Closing(false, None, None, None, None, {}, {}, false);
      weights := Weights(-1, -1, 0);
      gens := Gens([], false, nRollout, {}, map[], 0);
      tags := map[];
      stopSent := false;
      log := [];
    }

    // ---- commands ----------------------------------------------------------

    method Publish(to: Name, cmd: Command)
      modifies `log
      ensures log == old(log) + [Sent(to, cmd)]
    {
      log := log + [Sent(to, cmd)];
    }

    method PublishAll(to: seq<Name>, cmd: Command)
      modifies `log
      ensures log == old(log) + Broadcast(to, cmd)
    {
      for k := 0 to |to|
        invariant log == old(log) + Broadcast(to[..k], cmd)
      {
        Publish(to[k], cmd);
        BroadcastTurn(to, cmd, k);
      }
      assert to[..|to|] == to;
    }

    // ---- in-flight accounting ----------------------------------------------

    method SettleSamples(count: int)
      modifies `ledger
      ensures ledger == Settle(old(ledger), count)
      ensures 0 <= old(ledger).onTheFly ==> ledger.onTheFly == old(ledger).onTheFly - Min(Max(0, count), old(ledger).onTheFly)
    {
      if count <= 0 { return; }
      ledger := ledger.(onTheFly := Max(0, ledger.onTheFly - count));
    }

    /** Returns what was settled: 0 for an empty, anonymous or repeated report. */
    method SettleDiscardedSamples(src: Name, id: string, count: nat) returns (settled: nat)
      modifies `ledger
      ensures ledger == SettleDiscard(old(ledger), src, id, count)
      ensures settled == if id != "" && id !in IdsOf(old(ledger).discards, src) then count else 0
    {
      if count == 0 || id == "" || id in IdsOf(ledger.discards, src) { return 0; }
      ledger := ledger.(discards := ledger.discards[src := IdsOf(ledger.discards, src) + {id}]);
      SettleSamples(count);
      return count;
    }

    /** Empties one rank's queue item by item. */
    method DropQueue(rank: nat) returns (dropped: nat)
      requires rank < |queues.perRank|
      modifies `queues
      ensures dropped == |old(queues).perRank[rank]|
      ensures queues == old(queues).(perRank := old(queues).perRank[rank := []])
    {
      dropped := 0;
      ghost var q := queues.perRank[rank];
      while queues.perRank[rank] != []
        invariant rank < |queues.perRank| && dropped <= |q|
        invariant queues == old(queues).(perRank := old(queues).perRank[rank := q[dropped..]])
        decreases |queues.perRank[rank]|
      {
        queues := queues.(perRank := queues.perRank[rank := queues.perRank[rank][1..]]);
        dropped := dropped + 1;
      }
    }

    method CleanupBufferedRollouts()
      modifies `queues, `ledger
      ensures queues == Emptied(cfg, old(queues))
      ensures ledger == Settle(old(ledger), Pending(cfg, old(queues)))
    {
      var dropped := 0;
      if cfg.rankInMesh {
        ghost var qs := queues.perRank;
        for r := 0 to |queues.perRank|
          invariant queues == old(queues).(perRank := queues.perRank) && |queues.perRank| == |qs|
          invariant forall i :: 0 <= i < |qs| ==> queues.perRank[i] == if i < r then [] else qs[i]
          invariant dropped == TotalLength(qs[..r])
          modifies `queues
        {
          var count := DropQueue(r);
          dropped := dropped + count;
          assert qs[..r + 1] == qs[..r] + [qs[r]];
          TotalLengthTurn(qs[..r], qs[r]);
        }
        assert qs[..|qs|] == qs;
        assert queues.perRank == Emptied(cfg, old(queues)).perRank;
      } else {
        while queues.shared != []
          invariant queues == old(queues).(shared := queues.shared)
          invariant dropped + |queues.shared| == |old(queues).shared|
          modifies `queues
        {
          queues := queues.(shared := queues.shared[1..]);
          dropped := dropped + 1;
        }
      }
      SettleSamples(dropped);
    }

    // ---- mesh --------------------------------------------------------------

    method RecomputeTotalSteps()
      modifies `at
      ensures at == old(at).(total := RecomputeTotal(cfg, old(at), closing, |crew.replicas|))
      ensures crew.replicas == [] || closing.draining || Finished(closing, old(at)) || LastAffordable(at, |crew.replicas|)
    {
      if closing.draining || Finished(closing, at) { return; }
      if crew.replicas == [] { return; }
      var byData := at.step + at.remain / (cfg.batch * |crew.replicas|);
      Shutdown.HorizonIsLast(cfg, at, closing, |crew.replicas|, RecomputeTotal(cfg, at, closing, |crew.replicas|));
      Shutdown.HorizonIsLast(cfg, at, closing, |crew.replicas|, RecomputeTotal(cfg, at, closing, |crew.replicas|) + 1);
      at := at.(total := if cfg.maxSteps.Some? then Min(byData, cfg.maxSteps.value) else byData);
    }

    /** The remaining samples pay for all steps up to the horizon, and one more step would
        exceed them or max_num_steps. */
    predicate LastAffordable(p: Progress, n: nat) {
      && cfg.batch * n * (p.total - p.step) <= p.remain
      && (cfg.maxSteps.Some? ==> p.total <= cfg.maxSteps.value)
      && (cfg.batch * n * (p.total + 1 - p.step) > p.remain || (cfg.maxSteps.Some? && p.total == cfg.maxSteps.value))
    }

    /** Moves every waiting rollout to the queue of its residue. */
    method RearrangeBuffers(n: nat)
      requires n > 0
      modifies `queues
      ensures queues == Rearranged(cfg, old(queues), n)
    {
      if !cfg.rankInMesh { return; }
      var sorted: seq<seq<Rollout>> := seq(n, r => []);
      ghost var qs := queues.perRank;
      ghost var done: seq<Rollout> := [];
      for k := 0 to |queues.perRank|
        invariant queues == old(queues)
        invariant done == Concat(qs[..k])
        invariant |sorted| == n && forall r :: 0 <= r < n ==> sorted[r] == Residue(done, n, r)
      {
        for j := 0 to |queues.perRank[k]|
          invariant done == Concat(qs[..k]) + qs[k][..j]
          invariant |sorted| == n && forall r :: 0 <= r < n ==> sorted[r] == Residue(done, n, r)
        {
          var x := queues.perRank[k][j];
          var t := x.promptIdx % n;
          forall r | 0 <= r < n ensures Residue(done + [x], n, r) == sorted[t := sorted[t] + [x]][r] {
            ResidueTurn(done, x, n, r);
          }
          sorted := sorted[t := sorted[t] + [x]];
          done := done + [x];
        }
        assert qs[..k + 1] == qs[..k] + [qs[k]];
        ConcatTurn(qs[..k], qs[k]);
      }
      assert qs[..|qs|] == qs;
      assert sorted == Rearranged(cfg, queues, n).perRank;
      queues := queues.(perRank := sorted);
    }

    /** BuildMeshCommand.trigger on the policy replicas */
    method BuildPolicyMesh(order: seq<Name>)
      requires Distinct(order)
      modifies `crew, `log
      ensures crew == old(crew).(replicas := Rank(old(crew).replicas, order))
      ensures log == old(log) + Broadcast(order, BuildMesh(order))
    {
      for k := 0 to |order|
        invariant crew == old(crew).(replicas := Rank(old(crew).replicas, order[..k]))
        modifies `crew
      {
        crew := crew.(replicas := SetRank(crew.replicas, order[k], k));
        RankTurn(old(crew).replicas, order, k);
      }
      assert order[..|order|] == order;
      PublishAll(order, BuildMesh(order));
    }

    method TriggerRebuildMesh()
      requires Valid() && crew.replicas != []
      modifies `crew, `log, `at, `queues
      ensures Valid() && View() == RebuildPolicyMesh(old(View()))
    {
      hide Rearranged, RecomputeTotal, Broadcast, Distinct, Names, Rank, ByStart;
      ByStartDistinct(crew.replicas);
      NamesRanked(crew.replicas, ByStart(crew.replicas));
      BuildPolicyMesh(ByStart(crew.replicas));
      RecomputeTotalSteps();
      RearrangeBuffers(|crew.replicas|);
    }

    // ---- training steps ----------------------------------------------------

    /** Interleaved hand-out: one rollout per replica, `batch` rounds. */
    method HandOutShared(to: seq<Name>, step: int)
      requires to != [] && |queues.shared| >= cfg.batch * |to|
      modifies `queues, `log
      ensures queues == old(queues).(shared := old(queues).shared[cfg.batch * |to|..])
      ensures log == old(log) + FeedShared(old(queues).shared[..cfg.batch * |to|], to, step)
    {
      ghost var q := queues.shared;
      var n := |to|;
      for i := 0 to cfg.batch
        invariant i * n <= cfg.batch * n
        invariant queues == old(queues).(shared := q[i * n..])
        invariant log == old(log) + FeedShared(q[..i * n], to, step)
      {
        assert (i + 1) * n == i * n + n;
        assert (i + 1) * n <= cfg.batch * n by { Arith.MulMonotone(n, i + 1, cfg.batch); }
        for j := 0 to n
          invariant queues == old(queues).(shared := q[i * n + j..])
          invariant log == old(log) + FeedShared(q[..i * n + j], to, step)
        {
          var x := queues.shared[0];
          queues := queues.(shared := queues.shared[1..]);
          log := log + [Fed(to[j], x, step)];
          FeedSharedTurn(q, to, step, i, j);
        }
      }
    }

    /** One rank: its queue sorted by prompt, `batch` rollouts to its replica. */
    method HandOutRank(rank: nat, to: Name, step: int)
      requires rank < |queues.perRank| && |queues.perRank[rank]| >= cfg.batch
      modifies `queues, `log
      ensures var q := old(queues).perRank[rank];
              && queues == old(queues).(perRank := old(queues).perRank[rank := SortByPrompt(q)[cfg.batch..]])
              && log == old(log) + FeedOne(q, to, cfg.batch, step)
    {
      ghost var qs := queues.perRank;
      var q := SortByPrompt(queues.perRank[rank]);
      queues := queues.(perRank := queues.perRank[rank := q]);
      for k := 0 to cfg.batch
        invariant queues == old(queues).(perRank := qs[rank := q[k..]])
        invariant log == old(log) + FeedOne(qs[rank], to, cfg.batch, step)[..k]
      {
        var x := queues.perRank[rank][0];
        queues := queues.(perRank := queues.perRank[rank := queues.perRank[rank][1..]]);
        log := log + [Fed(to, x, step)];
      }
    }

    method HandOutByRank(order: seq<Name>, step: int)
      requires |order| <= |queues.perRank| && EachAtLeast(queues.perRank, cfg.batch)
      modifies `queues, `log
      ensures queues == old(queues).(perRank := DrainRanks(old(queues).perRank, |order|, cfg.batch))
      ensures log == old(log) + FeedRanks(old(queues).perRank, order, cfg.batch, step)
    {
      hide SortByPrompt, FeedOne, FeedRanks;
      ghost var qs := queues.perRank;
      assert qs == DrainRanks(qs, 0, cfg.batch);
      assert FeedRanks(qs, order[..0], cfg.batch, step) == [] by { FeedNoRank(qs, cfg.batch, step); }
      for k := 0 to |order|
        invariant queues == old(queues).(perRank := DrainRanks(qs, k, cfg.batch))
        invariant log == old(log) + FeedRanks(qs, order[..k], cfg.batch, step)
      {
        HandOutRank(k, order[k], step);
        assert queues.perRank == DrainRanks(qs, k + 1, cfg.batch);
        FeedRanksTurn(qs, order, cfg.batch, step, k);
      }
      assert order[..|order|] == order;
    }

    static lemma {:induction false} FeedNoRank(qs: seq<seq<Rollout>>, batch: nat, step: int)
      requires EachAtLeast(qs, batch)
      ensures FeedRanks(qs, [], batch, step) == []
    {
    }

    /** Publishes a training command to each replica and marks it running. */
    method CommandAll(to: seq<Name>, cmd: Command)
      modifies `crew, `log
      ensures crew == old(crew).(status := SetAll(old(crew).status, to, Running))
      ensures log == old(log) + Broadcast(to, cmd)
    {
      assert SetAll(crew.status, [], Running) == crew.status;
      for k := 0 to |to|
        invariant crew == old(crew).(status := SetAll(old(crew).status, to[..k], Running))
        invariant log == old(log) + Broadcast(to[..k], cmd)
      {
        Publish(to[k], cmd);
        crew := crew.(status := crew.status[to[k] := Running]);
        BroadcastTurn(to, cmd, k);
        SetAllTurn(old(crew).status, to, Running, k);
      }
      assert to[..|to|] == to;
    }

    /** Hands one step out to the replicas, from the shared buffer or rank by rank. */
    method HandOut(step: int)
      requires crew.replicas != [] && Enough(cfg, queues, |crew.replicas|) && RanksCovered(cfg, queues, |crew.replicas|)
      modifies `queues, `log
      ensures queues == Taken(cfg, old(queues), |crew.replicas|)
      ensures log == old(log) + Feed(cfg, old(queues), crew.replicas, step)
    {
      hide FeedShared, FeedRanks, DrainRanks, ByStart;
      if cfg.rankInMesh { HandOutByRank(ByStart(crew.replicas), step); }
      else { HandOutShared(Names(crew.replicas), step); }
    }

    method TryTriggerTraining()
      requires Valid()
      modifies `crew, `at, `ledger, `queues, `log
      ensures Valid() && View() == TryTrigger(old(View()))
    {
      hide SetAll, Broadcast, Taken, Feed, Idle, Finished, Enough, RanksCovered, Names, Distinct;
      var n := |crew.replicas|;
      if n == 0 || Finished(closing, at) || !Idle(crew) { return; }
      if !Enough(cfg, queues, n) || !RanksCovered(cfg, queues, n) { return; }
      var horizon := Horizon(closing, at);
      var need := cfg.batch * n;
      var step := at.step + 1;
      at := at.(step := step, remain := at.remain - need);
      ledger := ledger.(dispatched := ledger.dispatched[step := need]);
      HandOut(step);
      CommandAll(Names(crew.replicas), DataFetch(cfg.batch, step, horizon));
    }

    // ---- draining and completion -------------------------------------------

    method EnterDrainingPhase()
      modifies `closing
      ensures View() == EnterDraining(old(View()))
      ensures (old(closing).draining <==> old(closing).frozen.Some?) ==>
                closing.draining && forall x :: Horizon(closing, at.(total := x)) == old(Horizon(closing, at))
    {
      if closing.draining { return; }
      closing := closing.(draining := true, frozen := Some(at.total));
    }

    method TriggerTrainingComplete()
      requires Valid()
      modifies `closing, `crew, `log
      ensures Valid() && View() == TriggerComplete(old(View()))
    {
      hide SetAll, Broadcast, Names, Distinct;
      if crew.replicas == [] || closing.synthetic.Some? { return; }
      var step := at.step + 1;
      var to := Names(crew.replicas);
      closing := closing.(synthetic := Some(step), recipients := (set n | n in to), acks := {});
      CommandAll(to, TrainingComplete(step, step, at.step));
    }

    method FinishDrainingPhase()
      requires Valid()
      modifies `closing, `crew, `at, `ledger, `queues, `log
      ensures Valid() && View() == FinishDraining(old(View()))
    {
      hide AllEnded, Idle, Enough, Finished, RanksCovered, Dispatch, Emptied, Pending, Settle, TriggerComplete, RealTerminalAcked;
      if !AllEnded(gens) { return; }
      EnterDrainingPhase();
      if Closed(closing) { CleanupBufferedRollouts(); return; }
      if !Idle(crew) { return; }
      if at.step < Horizon(closing, at) && Enough(cfg, queues, |crew.replicas|) {
        var before := at.step;
        ghost var s := View();
        assert CanDispatch(s) ==> Dispatch(s).at.step == s.at.step + 1 by { DispatchAdvances(s); }
        TryTriggerTraining();
        if at.step > before { return; }
      }
      CleanupBufferedRollouts();
      if RealTerminalAcked(closing, at) { closing := closing.(terminal := true); return; }
      TriggerTrainingComplete();
    }

    static lemma DispatchAdvances(s: State)
      ensures CanDispatch(s) ==> Dispatch(s).at.step == s.at.step + 1
    {
      hide CanDispatch, Taken, Feed, SetAll, Names, Broadcast;
    }

    method RecordRealAcked(step: int, total: int)
      modifies `closing, `ledger, `queues
      ensures View() == RecordReal(old(View()), step, total)
    {
      hide Emptied, Pending, Settle;
      closing := closing.(ackedStep := Some(step), ackedTotal := Some(total));
      var horizon := Horizon(closing, at);
      if step != horizon || total != horizon { return; }
      closing := closing.(terminal := true);
      CleanupBufferedRollouts();
    }

    // ---- weight synchronisation --------------------------------------------

    method PolicyToRolloutUnicast(src: Name, dst: Name, weightStep: Option<int>)
      requires Valid() && Has(gens.replicas, dst)
      modifies `gens, `log
      ensures Valid() && gens == old(gens).(replicas := gens.replicas)
      ensures Sync(gens.replicas, log) == Unicast(Sync(old(gens).replicas, old(log)), src, dst, weightStep)
    {
      var cmd := PolicyToRollout(src, dst, weightStep, Get(gens.replicas, dst).loaded);
      Publish(src, cmd);
      Publish(dst, cmd);
      NamesLoaded(gens.replicas, [dst]);
      gens := gens.(replicas := Load(gens.replicas, [dst]));
    }

    /** Publishes to the addressees that are in the mesh, marking each as loaded. */
    method TellReachable(dsts: seq<Name>, cmd: Command)
      requires Distinct(Names(gens.replicas))
      modifies `gens, `log
      ensures gens == old(gens).(replicas := Marked(old(gens).replicas, dsts, |dsts|))
      ensures log == old(log) + Told(old(gens).replicas, dsts, |dsts|, cmd)
    {
      hide Load, Distinct, Names, Get, Has, Marked, Told;
      ghost var rs := gens.replicas;
      RelayEnds(rs, dsts, cmd);
      for k := 0 to |dsts|
        invariant gens == old(gens).(replicas := Marked(rs, dsts, k))
        invariant log == old(log) + Told(rs, dsts, k, cmd)
      {
        RelayTurn(rs, dsts, k, cmd);
        if Has(gens.replicas, dsts[k]) && Get(gens.replicas, dsts[k]).meshRank >= 0 {
          Publish(dsts[k], cmd);
          gens := gens.(replicas := Load(gens.replicas, [dsts[k]]));
        }
      }
    }

    method RolloutToRolloutBroadcast(src: Name, dsts: seq<Name>, weightStep: Option<int>)
      requires Valid() && Has(gens.replicas, src)
      modifies `gens, `log
      ensures Valid() && gens == old(gens).(replicas := gens.replicas)
      ensures Sync(gens.replicas, log) == Relay(Sync(old(gens).replicas, old(log)), src, dsts, weightStep)
    {
      hide Load, Distinct, Names, Get, Has, AllLoaded, Marked, Told, Reachable, Broadcast;
      if Get(gens.replicas, src).meshRank < 0 { return; }
      var cmd := RolloutToRollout(src, dsts, weightStep, AllLoaded(gens.replicas, dsts));
      RelayEnds(gens.replicas, dsts, cmd);
      NamesLoaded(gens.replicas, Reachable(gens.replicas, dsts));
      TellReachable(dsts, cmd);
    }

    /** The replicas once the first `k` addressees have been served, and what they were told. */
    static ghost function Marked(rs: seq<Replica>, dsts: seq<Name>, k: nat): seq<Replica>
      requires k <= |dsts|
    {
      Load(rs, Reachable(rs, dsts[..k]))
    }

    static ghost function Told(rs: seq<Replica>, dsts: seq<Name>, k: nat, cmd: Command): seq<Entry>
      requires k <= |dsts|
    {
      Broadcast(Reachable(rs, dsts[..k]), cmd)
    }

    static lemma {:induction false} RelayEnds(rs: seq<Replica>, dsts: seq<Name>, cmd: Command)
      ensures Marked(rs, dsts, 0) == rs && Told(rs, dsts, 0, cmd) == []
      ensures Marked(rs, dsts, |dsts|) == Load(rs, Reachable(rs, dsts))
      ensures Told(rs, dsts, |dsts|, cmd) == Broadcast(Reachable(rs, dsts), cmd)
    {
      assert dsts[..|dsts|] == dsts;
    }

    /** One more addressee: published to and marked exactly if it is in the mesh. */
    static lemma RelayTurn(rs: seq<Replica>, dsts: seq<Name>, k: nat, cmd: Command)
      requires Distinct(Names(rs)) && k < |dsts|
      ensures var now := Marked(rs, dsts, k);
              if Has(now, dsts[k]) && Get(now, dsts[k]).meshRank >= 0
              then && Marked(rs, dsts, k + 1) == Load(now, [dsts[k]])
                   && Told(rs, dsts, k + 1, cmd) == Told(rs, dsts, k, cmd) + [Sent(dsts[k], cmd)]
              else Marked(rs, dsts, k + 1) == now && Told(rs, dsts, k + 1, cmd) == Told(rs, dsts, k, cmd)
    {
      hide Load, Get, Has, Names, Distinct;
      var before := Reachable(rs, dsts[..k]);
      assert dsts[..k + 1] == dsts[..k] + [dsts[k]];
      ReachableTurn(rs, dsts[..k], dsts[k]);
      ReachableLoaded(rs, before, dsts[k]);
      LoadTurn(rs, before, dsts[k]);
    }

    method TriggerWeightSync(step: int)
      requires Valid()
      modifies `gens, `log, `weights
      ensures Valid() && View() == WeightSync(old(View()), step)
    {
      hide Unicast, Relay, SafeTargets, ByStart, Distinct;
      var to := SafeTargets(gens);
      if to == [] || crew.replicas == [] { return; }
      assert to[0] in to;
      PolicyToRolloutUnicast(ByStart(crew.replicas)[0], to[0], Some(step));
      assert Has(gens.replicas, to[0]) by { UnicastKeeps(Sync(old(gens).replicas, old(log)), ByStart(crew.replicas)[0], to[0], Some(step)); }
      RolloutToRolloutBroadcast(to[0], to, Some(step));
      weights := weights.(staged := step);
    }

    static lemma UnicastKeeps(y: Sync, src: Name, dst: Name, weightStep: Option<int>)
      requires Has(y.rollouts, dst)
      ensures Has(Unicast(y, src, dst, weightStep).rollouts, dst)
    {
    }

    // ---- handler: train_ack ------------------------------------------------

    /** Settles the record of an acknowledged step; a count below zero fails the assert. */
    method SettleAckedStep(step: int, total: int) returns (raised: bool)
      modifies `ledger, `closing, `queues
      ensures raised == Overdrawn(old(ledger), step)
      ensures View() == if raised then TakeRecord(old(View()), step) else SettleStep(old(View()), step, total)
    {
      hide RecordReal;
      var count := 0;
      if step in ledger.dispatched {
        count := ledger.dispatched[step];
        ledger := ledger.(onTheFly := ledger.onTheFly - count, dispatched := ledger.dispatched - {step});
      }
      if ledger.onTheFly < 0 { return true; }
      if count > 0 { RecordRealAcked(step, total); }
      return false;
    }

    method MarkReady()
      modifies `crew
      ensures crew == old(crew).(status := SetAll(old(crew).status, Names(old(crew).replicas), Ready))
    {
      var ns := Names(crew.replicas);
      assert SetAll(crew.status, [], Ready) == crew.status;
      for k := 0 to |ns|
        invariant crew == old(crew).(status := SetAll(old(crew).status, ns[..k], Ready))
      {
        crew := crew.(status := crew.status[ns[k] := Ready]);
        SetAllTurn(old(crew).status, ns, Ready, k);
      }
      assert ns[..|ns|] == ns;
    }

    method FinishStep(step: int, total: int) returns (raised: bool)
      requires Valid()
      modifies this
      ensures Valid() && raised == Overdrawn(old(ledger), step)
      ensures View() == if raised then TakeRecord(old(View()), step) else StepDone(old(View()), step, total)
    {
      hide SettleStep, TakeRecord, SyncDue, WeightSync, FinishDraining, TryTrigger, SetAll, Names, CoalesceSkip, Distinct;
      raised := SettleAckedStep(step, total);
      if raised { return; }
      assert SettleStep(old(View()), step, total).crew == old(crew);
      var due := SyncDue(View(), step);
      MarkReady();
      if due {
        if CoalesceSkip(cfg, weights) { weights := weights.(skips := weights.skips + 1); }
        else { TriggerWeightSync(step); }
      }
      if closing.draining { FinishDrainingPhase(); } else { TryTriggerTraining(); }
    }

    method TrainAcked(name: Name, step: int, total: int) returns (raised: bool)
      requires Valid()
      modifies this
      ensures Valid() && Outcome(View(), raised) == TrainAck(old(View()), name, step, total)
    {
      hide StepDone, TakeRecord, Overdrawn, AllIn, Has, Distinct;
      if !Has(crew.replicas, name) { return true; }
      log := log + [Acked(name, step, total)];
      var completion := IsCompletionAck(closing, name, step);
      if completion { closing := RecordCompletionAck(closing, name); }
      crew := SetStatus(crew, name, Reduced);
      raised := false;
      if !completion && AllIn(crew.status, {Reduced}) { raised := FinishStep(step, total); }
    }

    // ---- handler: rollout results ------------------------------------------

    /** The loop of filter_outdated_rollouts: reads versions up to the first impossible
        one and keeps the rollouts that will still be fresh. */
    method Sift(rs: seq<Rollout>) returns (good: seq<Rollout>, read: nat)
      modifies `weights, `log
      ensures read == ReadCount(rs, at.step)
      ensures View() == Adopt(old(View()), rs[..read])
      ensures good == Accepted(old(View()), rs[..read], 0)
    {
      hide Acceptable, Accepted, ReadCount, MaxVersion, Reports;
      ghost var s := View();
      good := [];
      read := 0;
      AdoptNothing(s);
      assert rs[..0] == [];
      while read < |rs| && rs[read].version <= at.step
        invariant read <= |rs|
        invariant View() == Adopt(s, rs[..read])
        invariant good == Accepted(s, rs[..read], 0)
        invariant forall j :: 0 <= j < read ==> rs[j].version <= at.step
        decreases |rs| - read
      {
        weights := weights.(adopted := Max(weights.adopted, rs[read].version));
        log := log + [Reported(rs[read].version)];
        MaxVersionTurn(s.weights.adopted, rs, read);
        ReportsTurn(rs, read);
        assert rs[..read + 1] == rs[..read] + [rs[read]];
        AcceptedTurn(s, rs[..read], rs[read], 0);
        AcceptableFrame(s, View(), rs[read], read);
        if Acceptable(View(), rs[read], read) { good := good + [rs[read]]; }
        read := read + 1;
      }
      ReadCountIs(rs, at.step, read);
    }

    /** filter_outdated_rollouts */
    method FilterOutdated(rs: seq<Rollout>) returns (good: seq<Rollout>, raised: bool)
      modifies `weights, `log, `at, `ledger
      ensures var k := ReadCount(rs, old(at).step);
              raised == (k < |rs|) &&
              View() == if raised then Adopt(old(View()), rs[..k])
                        else Drop(Adopt(old(View()), rs), |rs| - |Accepted(Adopt(old(View()), rs), rs, 0)|)
      ensures !raised ==> good == Accepted(Adopt(old(View()), rs), rs, 0)
    {
      hide Accepted, Settle, MaxVersion, Reports, ReadCount;
      var read;
      good, read := Sift(rs);
      if read < |rs| { return good, true; }
      assert rs[..read] == rs;
      AcceptedFrame(old(View()), View(), rs, 0);
      var dropped := |rs| - |good|;
      at := at.(remain := at.remain - dropped);
      SettleSamples(dropped);
      return good, false;
    }

    static lemma AdoptNothing(s: State)
      ensures Adopt(s, []) == s && Accepted(s, [], 0) == []
    {
    }

    static lemma AcceptableFrame(s: State, t: State, r: Rollout, idx: nat)
      requires t.cfg == s.cfg && t.at == s.at && t.queues == s.queues && t.crew == s.crew
      ensures Acceptable(t, r, idx) == Acceptable(s, r, idx)
    {
    }

    method PutRollout(r: Rollout)
      requires Valid() && CanPut(View())
      modifies `crew, `at, `ledger, `queues, `log
      ensures Valid() && View() == Put(old(View()), r)
    {
      hide TryTrigger;
      if cfg.rankInMesh {
        var t := r.promptIdx % |queues.perRank|;
        queues := queues.(perRank := queues.perRank[t := queues.perRank[t] + [r]]);
      } else {
        queues := queues.(shared := queues.shared + [r]);
      }
      TryTriggerTraining();
    }

    method PutRollouts(rs: seq<Rollout>) returns (raised: bool)
      requires Valid()
      modifies `crew, `at, `ledger, `queues, `log
      ensures Valid() && View() == PutAll(old(View()), rs) && raised == (rs != [] && !CanPut(old(View())))
    {
      hide Put, Distinct;
      if rs != [] && cfg.rankInMesh && queues.perRank == [] { return true; }
      assert rs[0..] == rs;
      for k := 0 to |rs|
        invariant Valid() && (rs != [] ==> CanPut(View()))
        invariant PutAll(View(), rs[k..]) == PutAll(old(View()), rs)
      {
        assert rs[k..][0] == rs[k] && rs[k..][1..] == rs[k + 1..];
        PutKeepsQueues(View(), rs[k]);
        PutRollout(rs[k]);
      }
      return false;
    }

    method PostResults(p: Post) returns (raised: bool)
      requires Valid()
      modifies this
      ensures Valid() && Outcome(View(), raised) == PostRollouts(old(View()), p)
    {
      hide SettleDiscard, Settle, Adopt, Accepted, PutAll, Distinct, CanPut;
      var _ := SettleDiscardedSamples(p.src, p.discardId, p.discarded);
      if Closed(closing) {
        SettleSamples(|p.rollouts| + (if cfg.dapo then p.filtered else 0));
        return false;
      }
      if cfg.dapo {
        at := at.(remain := at.remain - p.filtered);
        SettleSamples(p.filtered);
      }
      ghost var d := View();
      assert d == Intake(old(View()), p);
      var good;
      good, raised := FilterOutdated(p.rollouts);
      AdoptFrame(d, p.rollouts);
      AdoptFrame(d, p.rollouts[..ReadCount(p.rollouts, d.at.step)]);
      if raised { return; }
      raised := PutRollouts(good);
    }

    static lemma AdoptFrame(s: State, rs: seq<Rollout>)
      ensures Adopt(s, rs).crew == s.crew && Adopt(s, rs).gens == s.gens
    {
    }

    // ---- handler: rollout end ----------------------------------------------

    /** rollout_end: whether the report turned the whole replica into an ended one. */
    method ReportEnd(name: Name, rank: Option<int>, stays: bool) returns (ended: bool)
      requires Valid()
      modifies `gens
      ensures Valid() && gens == EndReport(old(gens), name, rank, stays)
      ensures ended == EndsReplica(old(gens), name, rank)
    {
      hide Distinct, Names;
      if !Has(gens.replicas, name) || Get(gens.replicas, name).ended { return false; }
      NamesEnded(gens.replicas, name);
      if rank.None? {
        gens := gens.(replicas := EndReplica(gens.replicas, name),
                      participants := if stays then gens.participants + {name} else gens.participants - {name});
        return true;
      }
      var expected := Get(gens.replicas, name).reporters;
      if rank.value !in expected { return false; }
      var reported := ReportsOf(gens.endReports, name) + {rank.value};
      gens := gens.(endReports := gens.endReports[name := reported]);
      if expected <= reported {
        gens := gens.(replicas := EndReplica(gens.replicas, name), participants := gens.participants + {name});
        return true;
      }
      return false;
    }

    method EndRollout(name: Name, rank: Option<int>, stays: bool)
      requires Valid()
      modifies this
      ensures Valid() && View() == RolloutEnd(old(View()), name, rank, stays)
    {
      hide EndReport, EndsReplica, FinishDraining, Distinct;
      var ended := ReportEnd(name, rank, stays);
      if ended {
        FinishDrainingPhase();
        ledger := ledger.(discards := ledger.discards - {name});
      }
    }

    // ---- handler: prompt fetch ---------------------------------------------

    /** Tags `m` prompts: each takes the first version, from the last one on, that has room.  It
        fails the assert of the skip loop only if a version has more prompts than a step takes. */
    method TagPrompts(first: int, cap: Positive, m: nat) returns (versions: seq<int>, raised: bool)
      modifies `tags
      ensures raised ==> !Fetches.Capped(old(tags), cap)
      ensures !raised ==> Tagging(tags, versions) == TagAll(old(tags), first, cap, m)
    {
      hide NextVersion, TagAll;
      var v := first;
      versions := [];
      assert TagAll(tags, first, cap, 0) == Tagging(tags, []) by { TagAllNone(tags, first, cap); }
      for k := 0 to m
        invariant Tagging(tags, versions) == TagAll(old(tags), first, cap, k) && |versions| == k
        invariant v == if k == 0 then first else versions[k - 1]
        invariant Fetches.Capped(old(tags), cap) ==> Fetches.Capped(tags, cap)
      {
        ghost var last := v;
        while v in tags && tags[v] >= cap
          invariant NextVersion(tags, v, cap) == NextVersion(tags, last, cap)
          decreases |From(tags, v)|
          modifies {}
        {
          if tags[v] != cap { return versions, true; }
          NextVersionTurn(tags, v, cap);
          v := v + 1;
        }
        assert NextVersion(tags, v, cap) == v by { HasRoom(tags, v, cap); }
        TagAllTurn(old(tags), first, cap, k, last);
        tags := tags[v := TagCount(tags, v) + 1];
        versions := versions + [v];
      }
      return versions, false;
    }

    static lemma {:induction false} HasRoom(tags: map<int, nat>, v: int, cap: nat)
      requires !(v in tags && tags[v] >= cap)
      ensures NextVersion(tags, v, cap) == v
    {
    }

    /** How many prompts the data fetcher, holding `supply`, hands to a fetch of `n`. */
    function Obtained(n: nat, supply: nat): nat
      reads this
    {
      if GlobalBatch(View()) > 0 then Min(FetchLimit(View(), n), supply) else 0
    }

    method FetchPrompts(n: nat, supply: nat, exhausted: bool) returns (versions: seq<int>, isEnd: bool, raised: bool)
      modifies `tags, `ledger
      ensures raised ==> !cfg.dapo && NoReplicaLeft(old(View())) && !Fetches.Capped(old(tags), PromptsPerStep(old(View())))
      ensures raised ==> ledger == old(ledger)
      ensures !raised ==> Fetched(View(), versions, isEnd) == Fetch(old(View()), old(Obtained(n, supply)), exhausted)
    {
      hide FetchLimit, TagAll, FirstVersion, PromptsPerStep, HardThrottled, Finished, Fetches.Capped;
      raised := false;
      if crew.replicas == [] { return [], true, false; }
      assert GlobalBatch(View()) > 0 by { Arith.MulMonotone(cfg.batch, 1, |crew.replicas|); }
      if HardThrottled(View()) { return [], false, false; }
      var m := Obtained(n, supply);
      if NoReplicaLeft(View()) {
        var first := FirstVersion(View());
        if cfg.dapo {
          tags := tags[first := TagCount(tags, first) + m];
          versions := Repeat(first, m);
        } else {
          Fetches.SomePrompts(View());
          versions, raised := TagPrompts(first, PromptsPerStep(View()), m);
          if raised { return [], false, true; }
        }
      } else {
        versions := Repeat(0, m);
      }
      ledger := ledger.(onTheFly := ledger.onTheFly + m * cfg.generations);
      return versions, exhausted || Finished(closing, at), false;
    }

    // ---- handlers: registration --------------------------------------------

    method SendFirstWeights(src: Name)
      requires Valid()
      modifies `gens, `log
      ensures Valid() && gens == old(gens).(replicas := gens.replicas)
      ensures Sync(gens.replicas, log) == FirstWeights(old(gens), old(log), src, at.step)
    {
      hide Unicast, Relay, ByStart, Distinct, Has;
      var order := ByStart(gens.replicas);
      if order == [] { return; }
      assert order[0] in order;
      var whole := |gens.replicas| >= gens.nInit;
      PolicyToRolloutUnicast(src, order[0], None);
      UnicastKeeps(Sync(old(gens).replicas, old(log)), src, order[0], None);
      if whole { RolloutToRolloutBroadcast(order[0], order, Some(at.step)); }
    }

    method PolicyToPolicyBroadcast(src: Name, dsts: seq<Name>)
      modifies `crew, `log
      ensures crew == old(crew).(replicas := Load(old(crew).replicas, dsts))
      ensures log == old(log) + Broadcast(dsts, PolicyToPolicy(src, dsts))
    {
      hide Load, Broadcast;
      ghost var rs := crew.replicas;
      LoadNobody(rs);
      assert Broadcast([], PolicyToPolicy(src, dsts)) == [] && dsts[..0] == [];
      for k := 0 to |dsts|
        invariant crew == old(crew).(replicas := Load(rs, dsts[..k]))
        invariant log == old(log) + Broadcast(dsts[..k], PolicyToPolicy(src, dsts))
      {
        Publish(dsts[k], PolicyToPolicy(src, dsts));
        crew := crew.(replicas := Load(crew.replicas, [dsts[k]]));
        LoadTurn(rs, dsts[..k], dsts[k]);
        BroadcastTurn(dsts, PolicyToPolicy(src, dsts), k);
        assert dsts[..k + 1] == dsts[..k] + [dsts[k]];
      }
      assert dsts[..|dsts|] == dsts;
    }

    static lemma LoadNobody(rs: seq<Replica>)
      ensures Load(rs, []) == rs
    {
    }

    method InitialisePolicies() returns (raised: bool)
      requires Valid() && crew.replicas != []
      modifies `crew, `log, `at, `queues
      ensures Valid() && Outcome(View(), raised) == InitPolicyMesh(old(View()))
    {
      hide RebuildPolicyMesh, FirstLoaded, ByStart, Load, Broadcast, SetAll, Distinct, Names, Has, Get;
      crew := crew.(initDone := true);
      ghost var i := View();
      TriggerRebuildMesh();
      RebuildShape(i);
      ghost var m := View();
      assert m == RebuildPolicyMesh(i);
      var src := FirstLoaded(crew.replicas, ByStart(crew.replicas));
      var many := |crew.replicas| > 1;
      if many && src.None? { return true; }
      var all := Names(crew.replicas);
      NamesLoaded(crew.replicas, all);
      if many { PolicyToPolicyBroadcast(src.value, all); }
      MarkReady();
      return false;
    }

    static lemma RebuildShape(s: State)
      ensures |RebuildPolicyMesh(s).crew.replicas| == |s.crew.replicas|
      ensures RebuildPolicyMesh(s).gens == s.gens
    {
      hide ByStart, Rearranged, RecomputeTotal, Broadcast;
    }

    method JoinPolicies(name: Name) returns (raised: bool)
      requires Valid() && crew.replicas != []
      modifies `crew, `log, `at, `queues
      ensures Valid() && Outcome(View(), raised) == JoinPolicyMesh(old(View()), name)
    {
      hide RebuildPolicyMesh, FirstLoaded, ByStart, Load, Distinct, Names;
      var src := FirstLoaded(crew.replicas, ByStart(crew.replicas));
      if src.None? { return true; }
      RebuildShape(View());
      TriggerRebuildMesh();
      var cmd := PolicyToPolicy(src.value, [name]);
      Publish(src.value, cmd);
      Publish(name, cmd);
      NamesLoaded(crew.replicas, [name]);
      crew := SetStatus(crew.(replicas := Load(crew.replicas, [name])), name, Ready);
      return false;
    }

    method AddPolicyReplica(name: Name, now: int)
      requires Valid() && !Has(crew.replicas, name)
      modifies `crew, `log
      ensures Valid() && View() == AddPolicy(old(View()), name, now) && crew.replicas != []
    {
      hide Distinct, Names;
      NamesAppended(crew.replicas, Replica(name, now, false, -1, false, {}));
      crew := crew.(replicas := crew.replicas + [Replica(name, now, false, -1, false, {})]);
      if !crew.initDone && |crew.replicas| > crew.nInit { crew := crew.(nInit := |crew.replicas|); }
      crew := crew.(status := crew.status[name := Uninitialized]);
      log := log + [PolicyJoined(name)];
    }

    method ResumeWeights(name: Name)
      requires Valid()
      modifies `crew, `gens, `log
      ensures Valid() && View() == FirstPolicy(old(View()), name) && |crew.replicas| == |old(crew).replicas|
    {
      hide Distinct, Names, FirstWeights;
      crew := crew.(firstArrived := true);
      Publish(name, WeightResume);
      NamesLoaded(crew.replicas, [name]);
      crew := crew.(replicas := Load(crew.replicas, [name]));
      SendFirstWeights(name);
    }

    method RegisterPolicyReplica(name: Name, now: int) returns (raised: bool)
      requires Valid()
      modifies this
      ensures Valid() && Outcome(View(), raised) == RegisterPolicy(old(View()), name, now)
    {
      hide FirstPolicy, InitPolicyMesh, JoinPolicyMesh, AddPolicy, Distinct, Names, Has;
      if Has(crew.replicas, name) { return true; }
      AddPolicyReplica(name, now);
      if |crew.replicas| == 1 {
        if crew.firstArrived { return true; }
        ResumeWeights(name);
      }
      raised := false;
      if crew.initDone { raised := JoinPolicies(name); }
      else if |crew.replicas| >= crew.nInit { raised := InitialisePolicies(); }
      if !raised { crew := crew.(seen := true); }
    }

    method UnregisterPolicyReplica(name: Name) returns (raised: bool)
      requires Valid()
      modifies `crew, `log, `at, `queues
      ensures Valid() && Outcome(View(), raised) == UnregisterPolicy(old(View()), name)
    {
      hide RebuildPolicyMesh, Without, Get, Distinct, Names, Has, Finished;
      if !Has(crew.replicas, name) { return true; }
      var gone := Get(crew.replicas, name);
      WithoutDistinct(crew.replicas, name);
      crew := crew.(replicas := Without(crew.replicas, name), status := crew.status - {name}, left := crew.left + 1);
      if Finished(closing, at) || name in closing.acks { return false; }
      if gone.meshRank >= 0 && crew.replicas != [] { TriggerRebuildMesh(); }
      return false;
    }

    /** BuildMeshCommand.trigger on the rollout replicas `members` */
    method BuildRolloutMesh(members: seq<Replica>)
      requires Valid() && Distinct(Names(members))
      modifies `gens, `log
      ensures Valid() && gens == old(gens).(replicas := gens.replicas)
      ensures Sync(gens.replicas, log) == RebuildRolloutMesh(Sync(old(gens).replicas, old(log)), members)
    {
      hide Distinct, Names, ByStart, Broadcast, Rank;
      var order := ByStart(members);
      ByStartDistinct(members);
      ghost var rs := gens.replicas;
      assert Rank(rs, order[..0]) == rs by { RankNobody(rs); assert order[..0] == []; }
      for k := 0 to |order|
        invariant gens == old(gens).(replicas := Rank(rs, order[..k]))
        modifies `gens
      {
        gens := gens.(replicas := SetRank(gens.replicas, order[k], k));
        RankTurn(rs, order, k);
      }
      assert order[..|order|] == order;
      NamesRanked(rs, order);
      PublishAll(order, BuildMesh(order));
    }

    static lemma RankNobody(rs: seq<Replica>)
      ensures Rank(rs, []) == rs
    {
    }

    /** RolloutStatusManager.post_register_hook */
    method AdmitRollout(name: Name)
      requires Valid() && Has(gens.replicas, name)
      modifies `gens, `log
      ensures var y := SettleRolloutMesh(old(gens), FirstTransfer(Sync(old(gens).replicas, old(log)), crew, name), at.step);
              && log == y.log
              && gens == old(gens).(replicas := y.rollouts,
                                    initDone := old(gens).initDone || |old(gens).replicas| == old(gens).nInit)
      ensures Valid()
    {
      hide Distinct, Names, ByStart, ByNameThenStart, FirstLoaded, Unicast, Relay, RebuildRolloutMesh, Has;
      var src := FirstLoaded(crew.replicas, ByNameThenStart(crew.replicas));
      if src.Some? && forall i :: 0 <= i < |gens.replicas| ==> !gens.replicas[i].loaded {
        UnicastShape(Sync(gens.replicas, log), src.value, name, None);
        PolicyToRolloutUnicast(src.value, name, None);
      }
      var first := !gens.initDone && |gens.replicas| == gens.nInit;
      if first || gens.initDone {
        gens := gens.(initDone := true);
        BuildRolloutMesh(gens.replicas);
        if first { SpreadWeights(); }
      }
    }

    static lemma UnicastShape(y: Sync, src: Name, dst: Name, weightStep: Option<int>)
      requires Has(y.rollouts, dst)
      ensures |Unicast(y, src, dst, weightStep).rollouts| == |y.rollouts|
    {
    }

    /** The one broadcast of the first weights to all initial rollout replicas. */
    method SpreadWeights()
      requires Valid()
      modifies `gens, `log
      ensures Valid() && gens == old(gens).(replicas := gens.replicas)
      ensures var y := Sync(old(gens).replicas, old(log));
              var src := FirstLoaded(y.rollouts, ByStart(y.rollouts));
              Sync(gens.replicas, log) ==
              if src.Some? then Relay(y, src.value, Names(y.rollouts), Some(at.step)) else y
    {
      hide Distinct, Names, ByStart, FirstLoaded, Relay, Has;
      var src := FirstLoaded(gens.replicas, ByStart(gens.replicas));
      if src.Some? { RolloutToRolloutBroadcast(src.value, Names(gens.replicas), Some(at.step)); }
    }

    method RegisterRolloutReplica(name: Name, now: int, reporters: set<int>) returns (raised: bool)
      requires Valid()
      modifies `gens, `log
      ensures Valid() && Outcome(View(), raised) == RegisterRollout(old(View()), name, now, reporters)
    {
      hide Distinct, Names, SettleRolloutMesh, FirstTransfer, Has;
      if Has(gens.replicas, name) { return true; }
      NamesAppended(gens.replicas, Replica(name, now, false, -1, false, reporters));
      gens := gens.(replicas := gens.replicas + [Replica(name, now, false, -1, false, reporters)]);
      if !gens.initDone && |gens.replicas| > gens.nInit { gens := gens.(nInit := |gens.replicas|); }
      log := log + [RolloutJoined(name)];
      AdmitRollout(name);
      return false;
    }

    method UnregisterRolloutReplica(name: Name) returns (raised: bool)
      requires Valid()
      modifies `gens, `log
      ensures Valid() && Outcome(View(), raised) == UnregisterRollout(old(View()), name)
    {
      hide Distinct, Names, RebuildRolloutMesh, Without, Get, SafeSurvivors, Has, Finished;
      if !Has(gens.replicas, name) { return true; }
      var gone := Get(gens.replicas, name);
      WithoutDistinct(gens.replicas, name);
      gens := gens.(replicas := Without(gens.replicas, name), endReports := gens.endReports - {name},
                    participants := gens.participants - {name}, left := gens.left + 1);
      if Finished(closing, at) { return false; }
      var safe := SafeSurvivors(gens.replicas, gens.participants);
      SurvivorsDistinct(gens.replicas, gens.participants);
      if gone.meshRank >= 0 && safe != [] { BuildRolloutMesh(safe); }
      return false;
    }

    // ---- the monitor -------------------------------------------------------

    method Monitor()
      modifies `stopSent, `log
      ensures View() == MonitorTick(old(View()))
    {
      hide ShouldStop, Names, Broadcast;
      if ShouldStop(View()) {
        PublishAll(Names(gens.replicas), Stop);
        stopSent := true;
      }
    }
  }
}
