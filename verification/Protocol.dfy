/** The controller as a state machine: its state, and for every HTTP handler and
    every manager operation the state it leaves behind.
    Scope: disaggregated RL, validation off, replicas register whole. */
module Protocol {
  import opened Types
  import opened Fleet

  /** The policy replicas and their statuses. */
  datatype Crew = Crew(
    replicas: seq<Replica>,            // policy_replicas, in registration order
    status: map<Name, PolicyStatus>,
    initDone: bool,                    // policy_init_done
    firstArrived: bool,                // _first_policy_replica_arrived
    nInit: nat,                        // policy n_init_replicas
    left: nat,                         // length of replica_scaling_log
    seen: bool)                        // _policy_replicas_were_registered

  /** The rollout replicas. */
  datatype Gens = Gens(
    replicas: seq<Replica>,            // rollout_replicas
    initDone: bool,                    // rollout_init_done
    nInit: nat,
    participants: set<Name>,           // _command_participant_ended_replicas
    endReports: map<Name, set<int>>,   // _ended_reporters
    left: nat)

  datatype Progress = Progress(
    step: int,                         // current_step
    total: int,                        // total_steps
    remain: int)                       // remain_samples_num

  datatype Ledger = Ledger(
    onTheFly: int,                     // samples_on_the_fly
    dispatched: map<int, int>,         // dispatched_rollouts_by_step
    discards: map<Name, set<string>>)  // _applied_discard_report_ids

  datatype Queues = Queues(
    shared: seq<Rollout>,              // rollout_buffer
    perRank: seq<seq<Rollout>>)        // rollout_buffer_per_rank

  /** Everything about the end of the job. */
  datatype Closing = Closing(
    draining: bool,                    // job_phase == DRAINING
    frozen: Option<int>,               // draining_total_steps
    ackedStep: Option<int>,            // last_real_datafetch_acked_step
    ackedTotal: Option<int>,
    synthetic: Option<int>,            // completion_step
    recipients: set<Name>,             // completion_recipients
    acks: set<Name>,                   // completion_acks
    terminal: bool)                    // terminal_complete

  datatype Weights = Weights(
    staged: int,                       // _weight_last_staged_step
    adopted: int,                      // _weight_max_adopted_version
    skips: nat)                        // _weight_coalesced_skips

  datatype State = State(
    cfg: Config,
    crew: Crew,
    at: Progress,
    ledger: Ledger,
    queues: Queues,
    closing: Closing,
    weights: Weights,
    gens: Gens,
    tags: map<int, nat>,               // weight_version_to_prompt_num
    stopSent: bool,                    // stop_broadcast_sent
    log: seq<Entry>)

  /** A handler either returns or raises; a raise keeps the writes made before it. */
  datatype Outcome = Outcome(state: State, raised: bool)

  function Init(cfg: Config, nPolicy: nat, nRollout: nat, step: int, remain: int): State {
    State(cfg,
          Crew([], map[], false, false, nPolicy, 0, false),
          Progress(step, 0, remain),
          Ledger(0, map[], map[]),
          Queues([], []),
          Closing(false, None, None, None, None, {}, {}, false),
          Weights(-1, -1, 0),
          Gens([], false, nRollout, {}, map[], 0),
          map[], false, [])
  }

  // ---- queries -------------------------------------------------------------

  function Max(a: int, b: int): int { if a >= b then a else b }
  function Min(a: int, b: int): int { if a <= b then a else b }

  /** training_horizon */
  function Horizon(c: Closing, at: Progress): int {
    if c.frozen.Some? then c.frozen.value else at.total
  }

  /** training_finished */
  predicate Finished(c: Closing, at: Progress) {
    c.terminal || (at.step >= Horizon(c, at) && Horizon(c, at) > 0)
  }

  /** rollout_admission_closed */
  predicate Closed(c: Closing) { c.terminal || c.synthetic.Some? }

  predicate AllIn(status: map<Name, PolicyStatus>, allowed: set<PolicyStatus>) {
    forall n :: n in status ==> status[n] in allowed
  }

  /** all_ready_or_reduced */
  predicate Idle(crew: Crew) { AllIn(crew.status, {Ready, Reduced}) }

  function TotalLength(qs: seq<seq<Rollout>>): nat {
    if qs == [] then 0 else |qs[0]| + TotalLength(qs[1..])
  }

  /** total_pending_rollouts */
  function Pending(cfg: Config, q: Queues): nat {
    if cfg.rankInMesh then TotalLength(q.perRank) else |q.shared|
  }

  predicate EachAtLeast(qs: seq<seq<Rollout>>, n: nat) {
    forall i :: 0 <= i < |qs| ==> |qs[i]| >= n
  }

  /** rollouts_enough_for_one_step with `n` policy replicas */
  predicate Enough(cfg: Config, q: Queues, n: nat) {
    if cfg.rankInMesh then q.perRank != [] && EachAtLeast(q.perRank, cfg.batch)
    else |q.shared| >= cfg.batch * n
  }

  predicate AllEnded(g: Gens) {
    g.replicas != [] && forall i :: 0 <= i < |g.replicas| ==> g.replicas[i].ended
  }

  // ---- in-flight accounting ------------------------------------------------

  /** _settle_samples_on_the_fly */
  function Settle(l: Ledger, count: int): Ledger {
    if count <= 0 then l else l.(onTheFly := Max(0, l.onTheFly - count))
  }

  function IdsOf(d: map<Name, set<string>>, n: Name): set<string> {
    if n in d then d[n] else {}
  }

  /** settle_discarded_samples: each non-empty report id counts once. */
  function SettleDiscard(l: Ledger, src: Name, id: string, count: nat): Ledger {
    if count == 0 || id == "" || id in IdsOf(l.discards, src) then l
    else Settle(l.(discards := l.discards[src := IdsOf(l.discards, src) + {id}]), count)
  }

  function Emptied(cfg: Config, q: Queues): Queues {
    if cfg.rankInMesh then q.(perRank := seq(|q.perRank|, i => [])) else q.(shared := [])
  }

  /** cleanup_buffered_rollouts */
  function Cleanup(s: State): State {
    s.(queues := Emptied(s.cfg, s.queues), ledger := Settle(s.ledger, Pending(s.cfg, s.queues)))
  }

  // ---- mesh ----------------------------------------------------------------

  /** recompute_total_steps */
  function RecomputeTotal(cfg: Config, at: Progress, c: Closing, n: nat): int {
    if c.draining || Finished(c, at) || n == 0 then at.total
    else
      var byData := at.step + at.remain / (cfg.batch * n);
      if cfg.maxSteps.Some? then Min(byData, cfg.maxSteps.value) else byData
  }

  function Concat(qs: seq<seq<Rollout>>): seq<Rollout> {
    if qs == [] then [] else qs[0] + Concat(qs[1..])
  }

  predicate InClass(x: Rollout, n: nat, r: nat)
    requires n > 0
  {
    x.promptIdx % n == r
  }

  /** The rollouts of `rs` whose prompt index is `r` modulo `n`, in order. */
  function Residue(rs: seq<Rollout>, n: nat, r: nat): seq<Rollout>
    requires n > 0
  {
    if rs == [] then []
    else (if InClass(rs[0], n, r) then [rs[0]] else []) + Residue(rs[1..], n, r)
  }

  /** rearrange_rollout_buffer_after_mesh_rebuild for `n` ranks */
  function Rearranged(cfg: Config, q: Queues, n: nat): Queues {
    if cfg.rankInMesh && n > 0 then
      q.(perRank := seq(n, r requires 0 <= r => Residue(Concat(q.perRank), n, r)))
    else q
  }

  /** PolicyStatusManager.trigger_rebuild_mesh over all registered replicas. */
  function RebuildPolicyMesh(s: State): State {
    var order := ByStart(s.crew.replicas);
    s.(crew := s.crew.(replicas := Rank(s.crew.replicas, order)),
       log := s.log + Broadcast(order, BuildMesh(order)),
       at := s.at.(total := RecomputeTotal(s.cfg, s.at, s.closing, |s.crew.replicas|)),
       queues := Rearranged(s.cfg, s.queues, |s.crew.replicas|))
  }

  // ---- training steps ------------------------------------------------------

  /** The interleaved hand-out of the shared buffer: item j goes to replica j mod n. */
  function FeedShared(taken: seq<Rollout>, to: seq<Name>, step: int): (es: seq<Entry>)
    requires to != []
    ensures |es| == |taken|
    ensures forall j :: 0 <= j < |taken| ==> es[j] == Fed(to[j % |to|], taken[j], step)
  {
    seq(|taken|, j requires 0 <= j < |taken| => Fed(to[j % |to|], taken[j], step))
  }

  function InsertByPrompt(q: seq<Rollout>, x: Rollout): (r: seq<Rollout>)
    ensures |r| == |q| + 1
  {
    if q == [] || q[|q| - 1].promptIdx <= x.promptIdx then q + [x]
    else InsertByPrompt(q[..|q| - 1], x) + [q[|q| - 1]]
  }

  function SortByPrompt(q: seq<Rollout>): (r: seq<Rollout>)
    ensures |r| == |q|
  {
    if q == [] then []
    else InsertByPrompt(SortByPrompt(q[..|q| - 1]), q[|q| - 1])
  }

  function FeedOne(q: seq<Rollout>, to: Name, batch: nat, step: int): (es: seq<Entry>)
    requires batch <= |q|
    ensures |es| == batch
    ensures forall j :: 0 <= j < batch ==> es[j] == Fed(to, SortByPrompt(q)[j], step)
  {
    seq(batch, j requires 0 <= j < batch => Fed(to, SortByPrompt(q)[j], step))
  }

  /** Per-rank hand-out: queue i, sorted by prompt index, feeds the i-th oldest replica. */
  function FeedRanks(qs: seq<seq<Rollout>>, to: seq<Name>, batch: nat, step: int): seq<Entry>
    requires |to| <= |qs| && EachAtLeast(qs, batch)
  {
    if to == [] then []
    else
      assert forall i :: 0 <= i < |qs[1..]| ==> qs[1..][i] == qs[i + 1];
      FeedOne(qs[0], to[0], batch, step) + FeedRanks(qs[1..], to[1..], batch, step)
  }

  function DrainRanks(qs: seq<seq<Rollout>>, n: nat, batch: nat): (r: seq<seq<Rollout>>)
    requires n <= |qs| && EachAtLeast(qs, batch)
    ensures |r| == |qs|
    ensures forall i :: 0 <= i < |qs| ==>
              r[i] == if i < n then SortByPrompt(qs[i])[batch..] else qs[i]
  {
    seq(|qs|, i requires 0 <= i < |qs| => if i < n then SortByPrompt(qs[i])[batch..] else qs[i])
  }

  /** Every replica has a queue of its own: what the per-rank hand-out indexes. */
  predicate RanksCovered(cfg: Config, q: Queues, n: nat) { cfg.rankInMesh ==> n <= |q.perRank| }

  function SetAll(status: map<Name, PolicyStatus>, ns: seq<Name>, v: PolicyStatus): (r: map<Name, PolicyStatus>)
    ensures r.Keys == status.Keys + (set n | n in ns)
    ensures forall n :: n in r ==> r[n] == if n in ns then v else status[n]
  {
    map n | n in status.Keys + (set x | x in ns) :: if n in ns then v else status[n]
  }

  /** The queues after one step has been taken from them. */
  function Taken(cfg: Config, q: Queues, n: nat): Queues
    requires Enough(cfg, q, n) && RanksCovered(cfg, q, n)
  {
    if cfg.rankInMesh then q.(perRank := DrainRanks(q.perRank, n, cfg.batch))
    else q.(shared := q.shared[cfg.batch * n..])
  }

  /** What one step publishes to the rollout streams of the replicas. */
  function Feed(cfg: Config, q: Queues, replicas: seq<Replica>, step: int): seq<Entry>
    requires replicas != [] && Enough(cfg, q, |replicas|) && RanksCovered(cfg, q, |replicas|)
  {
    if cfg.rankInMesh then FeedRanks(q.perRank, ByStart(replicas), cfg.batch, step)
    else FeedShared(q.shared[..cfg.batch * |replicas|], Names(replicas), step)
  }

  predicate CanDispatch(s: State) {
    && s.crew.replicas != []
    && !Finished(s.closing, s.at)
    && Idle(s.crew)
    && Enough(s.cfg, s.queues, |s.crew.replicas|)
    && RanksCovered(s.cfg, s.queues, |s.crew.replicas|)
  }

  /** The dispatching half of try_trigger_data_fetch_and_training */
  function Dispatch(s: State): State
    requires CanDispatch(s)
  {
    var all := s.crew.replicas;
    var need := s.cfg.batch * |all|;
    var step := s.at.step + 1;
    s.(at := s.at.(step := step, remain := s.at.remain - need),
       ledger := s.ledger.(dispatched := s.ledger.dispatched[step := need]),
       queues := Taken(s.cfg, s.queues, |all|),
       crew := s.crew.(status := SetAll(s.crew.status, Names(all), Running)),
       log := s.log + Feed(s.cfg, s.queues, all, step)
                    + Broadcast(Names(all), DataFetch(s.cfg.batch, step, Horizon(s.closing, s.at))))
  }

  /** try_trigger_data_fetch_and_training */
  function TryTrigger(s: State): State {
    if CanDispatch(s) then Dispatch(s) else s
  }

  // ---- draining and completion ---------------------------------------------

  /** enter_draining_phase */
  function EnterDraining(s: State): State {
    if s.closing.draining then s
    else s.(closing := s.closing.(draining := true, frozen := Some(s.at.total)))
  }

  /** real_terminal_command_acked */
  predicate RealTerminalAcked(c: Closing, at: Progress) {
    c.ackedStep == Some(Horizon(c, at)) && c.ackedTotal == Some(Horizon(c, at))
  }

  /** trigger_training_complete */
  function TriggerComplete(s: State): State {
    if s.crew.replicas == [] || s.closing.synthetic.Some? then s
    else
      var step := s.at.step + 1;
      var to := Names(s.crew.replicas);
      s.(closing := s.closing.(synthetic := Some(step), recipients := (set n | n in to), acks := {}),
         crew := s.crew.(status := SetAll(s.crew.status, to, Running)),
         log := s.log + Broadcast(to, TrainingComplete(step, step, s.at.step)))
  }

  /** The last part of finish_draining_phase: no further step can be dispatched. */
  function Conclude(s: State): State {
    var c := Cleanup(s);
    if RealTerminalAcked(c.closing, c.at) then c.(closing := c.closing.(terminal := true)) else TriggerComplete(c)
  }

  /** finish_draining_phase once the phase is DRAINING */
  function Drain(s: State): State {
    if Closed(s.closing) then Cleanup(s)
    else if !Idle(s.crew) then s
    else if s.at.step < Horizon(s.closing, s.at) && CanDispatch(s) then Dispatch(s)
    else Conclude(s)
  }

  /** finish_draining_phase */
  function FinishDraining(s: State): State {
    if !AllEnded(s.gens) then s else Drain(EnterDraining(s))
  }

  /** record_real_datafetch_acked */
  function RecordReal(s: State, step: int, total: int): State {
    var c := s.closing.(ackedStep := Some(step), ackedTotal := Some(total));
    if step == Horizon(c, s.at) && total == Horizon(c, s.at)
    then Cleanup(s.(closing := c.(terminal := true)))
    else s.(closing := c)
  }

  // ---- weight synchronisation ----------------------------------------------

  /** The part of the state a rollout weight transfer touches. */
  datatype Sync = Sync(rollouts: seq<Replica>, log: seq<Entry>)

  /** PolicyToRolloutUnicastCommand.trigger */
  function Unicast(y: Sync, src: Name, dst: Name, weightStep: Option<int>): Sync
    requires Has(y.rollouts, dst)
  {
    var cmd := PolicyToRollout(src, dst, weightStep, Get(y.rollouts, dst).loaded);
    Sync(Load(y.rollouts, [dst]), y.log + [Sent(src, cmd), Sent(dst, cmd)])
  }

  predicate AllLoaded(rs: seq<Replica>, ns: seq<Name>) {
    forall n :: n in ns && Has(rs, n) ==> Get(rs, n).loaded
  }

  /** The addressees that are in the mesh. */
  function Reachable(rs: seq<Replica>, ns: seq<Name>): seq<Name> {
    if ns == [] then []
    else (if Has(rs, ns[0]) && Get(rs, ns[0]).meshRank >= 0 then [ns[0]] else []) + Reachable(rs, ns[1..])
  }

  /** RolloutToRolloutBroadcastCommand.trigger */
  function Relay(y: Sync, src: Name, dsts: seq<Name>, weightStep: Option<int>): Sync
    requires Has(y.rollouts, src)
  {
    if Get(y.rollouts, src).meshRank < 0 then y
    else
      var to := Reachable(y.rollouts, dsts);
      Sync(Load(y.rollouts, to),
           y.log + Broadcast(to, RolloutToRollout(src, dsts, weightStep, AllLoaded(y.rollouts, dsts))))
  }

  /** get_safe_weight_sync_replicas without validation */
  function SafeTargets(g: Gens): (ns: seq<Name>)
    ensures ns == [] || ns == ByStart(g.replicas)
  {
    if exists i :: 0 <= i < |g.replicas| && g.replicas[i].ended && g.replicas[i].name !in g.participants
    then [] else ByStart(g.replicas)
  }

  /** need_weight_sync with validation off */
  predicate NeedSync(step: int, total: int, interval: Positive) {
    step % interval == 0 && step != total
  }

  /** should_weight_sync_after_train_ack */
  predicate SyncDue(s: State, step: int) {
    && !s.closing.draining
    && NeedSync(step, s.at.total, s.cfg.syncInterval)
    && !AllEnded(s.gens)
    && SafeTargets(s.gens) != []
  }

  predicate CoalesceOn(c: Config) { c.coalesce && c.allowed > 0 && !c.onPolicy }

  /** should_coalesce_skip; nothing is forced without validation */
  predicate CoalesceSkip(cfg: Config, w: Weights) { CoalesceOn(cfg) && w.staged > w.adopted }

  /** The two transfers of trigger_weight_sync: up from `src`, then across. */
  function Transfer(y: Sync, src: Name, to: seq<Name>, step: int): Sync
    requires to != [] && Has(y.rollouts, to[0])
  {
    Relay(Unicast(y, src, to[0], Some(step)), to[0], to, Some(step))
  }

  /** trigger_weight_sync from the oldest policy replica */
  function WeightSync(s: State, step: int): State {
    var to := SafeTargets(s.gens);
    if to == [] || s.crew.replicas == [] then s
    else
      assert to[0] in to;
      var out := Transfer(Sync(s.gens.replicas, s.log), ByStart(s.crew.replicas)[0], to, step);
      s.(gens := s.gens.(replicas := out.rollouts), log := out.log,
         weights := s.weights.(staged := step))
  }

  function MaybeSync(s: State, step: int): State {
    if CoalesceSkip(s.cfg, s.weights) then s.(weights := s.weights.(skips := s.weights.skips + 1))
    else WeightSync(s, step)
  }

  // ---- handler: train_ack --------------------------------------------------

  predicate IsCompletionAck(c: Closing, name: Name, step: int) {
    c.synthetic == Some(step) && name in c.recipients
  }

  /** record_completion_ack */
  function RecordCompletionAck(c: Closing, name: Name): Closing {
    var acks := c.acks + {name};
    c.(acks := acks, terminal := c.terminal || (name !in c.acks && acks == c.recipients))
  }

  function SetStatus(crew: Crew, name: Name, v: PolicyStatus): Crew {
    crew.(status := crew.status[name := v])
  }

  /** The rollouts on record for a step; none without a record. */
  function RecordOf(l: Ledger, step: int): int {
    if step in l.dispatched then l.dispatched[step] else 0
  }

  /** The record of an acknowledged step is taken off the in-flight count. */
  function TakeRecord(s: State, step: int): State {
    if step !in s.ledger.dispatched then s
    else s.(ledger := s.ledger.(onTheFly := s.ledger.onTheFly - RecordOf(s.ledger, step),
                                dispatched := s.ledger.dispatched - {step}))
  }

  /** Taking the record would leave a negative count: the assert of train_ack fails. */
  predicate Overdrawn(l: Ledger, step: int) { l.onTheFly < RecordOf(l, step) }

  /** A settled step that had rollouts is a real one. */
  function SettleStep(s: State, step: int, total: int): State {
    var t := TakeRecord(s, step);
    if RecordOf(s.ledger, step) > 0 then RecordReal(t, step, total) else t
  }

  /** train_ack after the dispatch record is settled: statuses, weight sync */
  function Resume(s: State, step: int): State {
    var b := s.(crew := s.crew.(status := SetAll(s.crew.status, Names(s.crew.replicas), Ready)));
    if SyncDue(s, step) then MaybeSync(b, step) else b
  }

  /** train_ack from the moment every replica has reduced */
  function StepDone(s: State, step: int, total: int): State {
    var c := Resume(SettleStep(s, step, total), step);
    if c.closing.draining then FinishDraining(c) else TryTrigger(c)
  }

  function TrainAck(s: State, name: Name, step: int, total: int): Outcome {
    if !Has(s.crew.replicas, name) then Outcome(s, true)
    else
      var t := s.(crew := SetStatus(s.crew, name, Reduced), log := s.log + [Acked(name, step, total)]);
      if IsCompletionAck(s.closing, name, step) then
        Outcome(t.(closing := RecordCompletionAck(s.closing, name)), false)
      else if !AllIn(t.crew.status, {Reduced}) then Outcome(t, false)
      else if Overdrawn(t.ledger, step) then Outcome(TakeRecord(t, step), true)
      else Outcome(StepDone(t, step, total), false)
  }

  // ---- handler: rollout results --------------------------------------------

  /** The training step a rollout at position `idx` of a post would reach. */
  function EstimatedStep(s: State, idx: nat): int {
    s.at.step + (idx + Pending(s.cfg, s.queues)) / (s.cfg.batch * Max(|s.crew.replicas|, 1))
  }

  predicate Acceptable(s: State, r: Rollout, idx: nat) {
    EstimatedStep(s, idx) - r.version <= s.cfg.allowed
  }

  /** The rollouts of `rs`, whose first stands at position `from` of the post, that pass. */
  function Accepted(s: State, rs: seq<Rollout>, from: nat): (a: seq<Rollout>)
    ensures |a| <= |rs|
  {
    if rs == [] then []
    else (if Acceptable(s, rs[0], from) then [rs[0]] else []) + Accepted(s, rs[1..], from + 1)
  }

  /** Length of the prefix read before a version above the current step raises. */
  function ReadCount(rs: seq<Rollout>, step: int): (k: nat)
    ensures k <= |rs|
    ensures forall i :: 0 <= i < k ==> rs[i].version <= step
    ensures k < |rs| ==> rs[k].version > step
  {
    if rs == [] || rs[0].version > step then 0 else 1 + ReadCount(rs[1..], step)
  }

  function MaxVersion(v: int, rs: seq<Rollout>): int {
    if rs == [] then v else Max(MaxVersion(v, rs[..|rs| - 1]), rs[|rs| - 1].version)
  }

  function Reports(rs: seq<Rollout>): (es: seq<Entry>)
    ensures |es| == |rs|
    ensures forall i :: 0 <= i < |rs| ==> es[i] == Reported(rs[i].version)
  {
    seq(|rs|, i requires 0 <= i < |rs| => Reported(rs[i].version))
  }

  /** The adoption signal read off the posted rollouts. */
  function Adopt(s: State, rs: seq<Rollout>): State {
    s.(weights := s.weights.(adopted := MaxVersion(s.weights.adopted, rs)), log := s.log + Reports(rs))
  }

  /** Samples that are dropped for good: off the budget and off the in-flight count. */
  function Drop(s: State, count: nat): State {
    s.(at := s.at.(remain := s.at.remain - count), ledger := Settle(s.ledger, count))
  }

  predicate CanPut(s: State) { s.cfg.rankInMesh ==> s.queues.perRank != [] }

  function Enqueued(cfg: Config, q: Queues, r: Rollout): Queues
    requires cfg.rankInMesh ==> q.perRank != []
  {
    if cfg.rankInMesh then
      var t := r.promptIdx % |q.perRank|;
      q.(perRank := q.perRank[t := q.perRank[t] + [r]])
    else q.(shared := q.shared + [r])
  }

  /** put_rollout */
  function Put(s: State, r: Rollout): State
    requires CanPut(s)
  {
    TryTrigger(s.(queues := Enqueued(s.cfg, s.queues, r)))
  }

  /** put_rollouts; stops where a put would divide by an empty mesh */
  function PutAll(s: State, rs: seq<Rollout>): State
    decreases rs
  {
    if rs == [] || !CanPut(s) then s else PutAll(Put(s, rs[0]), rs[1..])
  }

  datatype Post = Post(
    src: Name, rollouts: seq<Rollout>, discardId: string, discarded: nat, filtered: nat)

  /** The counters a post settles before its rollouts are looked at. */
  function Intake(s: State, p: Post): State {
    var d := s.(ledger := SettleDiscard(s.ledger, p.src, p.discardId, p.discarded));
    if !Closed(s.closing) && s.cfg.dapo then Drop(d, p.filtered) else d
  }

  /** Admission: filter_outdated_rollouts followed by put_rollouts */
  function Admit(s: State, rs: seq<Rollout>): Outcome {
    var a := Adopt(s, rs);
    var good := Accepted(a, rs, 0);
    var f := Drop(a, |rs| - |good|);
    Outcome(PutAll(f, good), good != [] && !CanPut(f))
  }

  /** put_rollout_group for results */
  function PostRollouts(s: State, p: Post): Outcome {
    var d := Intake(s, p);
    var k := ReadCount(p.rollouts, d.at.step);
    if Closed(d.closing) then
      var count := |p.rollouts| + (if s.cfg.dapo then p.filtered else 0);
      Outcome(d.(ledger := Settle(d.ledger, count)), false)
    else if k < |p.rollouts| then Outcome(Adopt(d, p.rollouts[..k]), true)
    else Admit(d, p.rollouts)
  }

  // ---- handler: rollout end ------------------------------------------------

  function ReportsOf(m: map<Name, set<int>>, n: Name): set<int> {
    if n in m then m[n] else {}
  }

  /** Whether an end report comes from a live replica and an expected rank. */
  predicate EndReportCounts(g: Gens, name: Name, rank: Option<int>) {
    && Has(g.replicas, name)
    && !Get(g.replicas, name).ended
    && (rank.Some? ==> rank.value in Get(g.replicas, name).reporters)
  }

  /** Whether it turns the whole replica into an ended one. */
  predicate EndsReplica(g: Gens, name: Name, rank: Option<int>) {
    && EndReportCounts(g, name, rank)
    && (rank.Some? ==>
          Get(g.replicas, name).reporters <= ReportsOf(g.endReports, name) + {rank.value})
  }

  /** rollout_end */
  function EndReport(g: Gens, name: Name, rank: Option<int>, stays: bool): Gens {
    if !EndReportCounts(g, name, rank) then g
    else
      var h := if rank.Some? then g.(endReports := g.endReports[name := ReportsOf(g.endReports, name) + {rank.value}])
               else g;
      if !EndsReplica(g, name, rank) then h
      else h.(replicas := EndReplica(g.replicas, name),
              participants := if rank.Some? || stays then g.participants + {name} else g.participants - {name})
  }

  /** put_rollout_group for an end signal */
  function RolloutEnd(s: State, name: Name, rank: Option<int>, stays: bool): State {
    var t := s.(gens := EndReport(s.gens, name, rank, stays));
    if !EndsReplica(s.gens, name, rank) then t
    else
      var u := FinishDraining(t);
      u.(ledger := u.ledger.(discards := u.ledger.discards - {name}))
  }

  // ---- handler: prompt fetch -----------------------------------------------

  /** rollouts_per_global_batch */
  function GlobalBatch(s: State): nat { s.cfg.batch * |s.crew.replicas| }

  /** global_batch_size: prompts needed for one policy step */
  function PromptsPerStep(s: State): nat {
    (GlobalBatch(s) + s.cfg.generations - 1) / s.cfg.generations
  }

  /** weight_version_for_current_batch */
  function FirstVersion(s: State): int
    requires GlobalBatch(s) > 0
  {
    s.at.step + Pending(s.cfg, s.queues) / GlobalBatch(s)
  }

  predicate SoftThrottled(s: State) {
    s.ledger.onTheFly >= (s.cfg.allowed + 1) * GlobalBatch(s) && !s.cfg.dapo
  }

  predicate DapoThrottled(s: State)
    requires GlobalBatch(s) > 0
  {
    var pending := Pending(s.cfg, s.queues);
    s.cfg.dapo && s.cfg.retries > 0 &&
    Max(s.ledger.onTheFly - pending, 0)
      >= (1 + s.cfg.allowed - pending / GlobalBatch(s)) * s.cfg.retries * GlobalBatch(s)
  }

  predicate HardThrottled(s: State) {
    s.cfg.maxInflight.Some? && s.ledger.onTheFly >= s.cfg.maxInflight.value * GlobalBatch(s)
  }

  /** How many prompts a fetch of `n` asks the data fetcher for. */
  function FetchLimit(s: State, n: nat): (k: nat)
    requires GlobalBatch(s) > 0
    ensures k <= n
  {
    if SoftThrottled(s) || DapoThrottled(s) then Min(n, s.cfg.staleFetch) else n
  }

  function TagCount(tags: map<int, nat>, v: int): nat { if v in tags then tags[v] else 0 }

  /** Versions at or above `v` that have been tagged: what the skip loop consumes. */
  function From(tags: map<int, nat>, v: int): set<int> { set k | k in tags && k >= v }

  /** The first version from `v` on that still has room for a prompt. */
  function NextVersion(tags: map<int, nat>, v: int, cap: nat): (r: int)
    ensures r >= v
    ensures r !in tags || tags[r] < cap
    ensures forall k :: v <= k < r ==> k in tags && tags[k] >= cap
    decreases |From(tags, v)|
  {
    if v in tags && tags[v] >= cap then
      assert From(tags, v) == From(tags, v + 1) + {v};
      NextVersion(tags, v + 1, cap)
    else v
  }

  datatype Tagging = Tagging(tags: map<int, nat>, versions: seq<int>)

  /** Tags `m` payloads one after the other, starting the search at version `v`. */
  function TagAll(tags: map<int, nat>, v: int, cap: nat, m: nat): (t: Tagging)
    ensures |t.versions| == m
    decreases m
  {
    if m == 0 then Tagging(tags, [])
    else
      var w := NextVersion(tags, v, cap);
      var rest := TagAll(tags[w := TagCount(tags, w) + 1], w, cap, m - 1);
      Tagging(rest.tags, [w] + rest.versions)
  }

  function Repeat(v: int, m: nat): seq<int> { seq(m, i => v) }

  predicate NoReplicaLeft(s: State) { s.crew.left == 0 && s.gens.left == 0 }

  /** The tags of a fetch that obtained `m` prompts. */
  function FetchTags(s: State, m: nat): (t: Tagging)
    requires GlobalBatch(s) > 0
    ensures |t.versions| == m
  {
    if !NoReplicaLeft(s) then Tagging(s.tags, Repeat(0, m))
    else
      var v := FirstVersion(s);
      if s.cfg.dapo then Tagging(s.tags[v := TagCount(s.tags, v) + m], Repeat(v, m))
      else TagAll(s.tags, v, PromptsPerStep(s), m)
  }

  datatype Fetched = Fetched(state: State, versions: seq<int>, isEnd: bool)

  /** _get_batched_prompt_impl for a training fetch, the data fetcher having
      returned `m` prompts and `exhausted` */
  function Fetch(s: State, m: nat, exhausted: bool): Fetched {
    if s.crew.replicas == [] then Fetched(s, [], true)
    else if HardThrottled(s) then Fetched(s, [], false)
    else
      var t := FetchTags(s, m);
      Fetched(s.(tags := t.tags, ledger := s.ledger.(onTheFly := s.ledger.onTheFly + m * s.cfg.generations)),
              t.versions, exhausted || Finished(s.closing, s.at))
  }

  // ---- handlers: registration ----------------------------------------------

  /** The waiting rollouts get their first weights from the first policy replica. */
  function FirstWeights(g: Gens, log: seq<Entry>, src: Name, step: int): Sync {
    var order := ByStart(g.replicas);
    if order == [] then Sync(g.replicas, log)
    else
      assert order[0] in order;
      var up := Unicast(Sync(g.replicas, log), src, order[0], None);
      if |g.replicas| >= g.nInit then Relay(up, order[0], order, Some(step)) else up
  }

  /** The first policy replica resumes the weights. */
  function FirstPolicy(s: State, name: Name): State {
    var y := FirstWeights(s.gens, s.log + [Sent(name, WeightResume)], name, s.at.step);
    s.(crew := s.crew.(firstArrived := true, replicas := Load(s.crew.replicas, [name])),
       gens := s.gens.(replicas := y.rollouts), log := y.log)
  }

  /** post_register_hook when all initial policy replicas are there */
  function InitPolicyMesh(s: State): Outcome {
    var m := RebuildPolicyMesh(s.(crew := s.crew.(initDone := true)));
    var src := FirstLoaded(m.crew.replicas, ByStart(m.crew.replicas));
    if |s.crew.replicas| > 1 && src.None? then Outcome(m, true)
    else
      var all := Names(m.crew.replicas);
      var many := |s.crew.replicas| > 1;
      Outcome(m.(crew := m.crew.(
                   replicas := if many then Load(m.crew.replicas, all) else m.crew.replicas,
                   status := SetAll(m.crew.status, all, Ready)),
                 log := if many then m.log + Broadcast(all, PolicyToPolicy(src.value, all)) else m.log),
              false)
  }

  /** post_register_hook for a replica that joins a running job */
  function JoinPolicyMesh(s: State, name: Name): Outcome {
    var src := FirstLoaded(s.crew.replicas, ByStart(s.crew.replicas));
    if src.None? then Outcome(s, true)
    else
      var m := RebuildPolicyMesh(s);
      var cmd := PolicyToPolicy(src.value, [name]);
      Outcome(m.(crew := SetStatus(m.crew.(replicas := Load(m.crew.replicas, [name])), name, Ready),
                 log := m.log + [Sent(src.value, cmd), Sent(name, cmd)]),
              false)
  }

  /** The bookkeeping of a new policy replica before any command is issued. */
  function AddPolicy(s: State, name: Name, now: int): State {
    s.(crew := s.crew.(
         replicas := s.crew.replicas + [Replica(name, now, false, -1, false, {})],
         status := s.crew.status[name := Uninitialized],
         nInit := if s.crew.initDone then s.crew.nInit else Max(s.crew.nInit, |s.crew.replicas| + 1)),
       log := s.log + [PolicyJoined(name)])
  }

  /** PolicyStatusManager.post_register_hook */
  function PolicyHook(s: State, name: Name): Outcome {
    if s.crew.initDone then JoinPolicyMesh(s, name)
    else if |s.crew.replicas| >= s.crew.nInit then InitPolicyMesh(s)
    else Outcome(s, false)
  }

  /** PolicyStatusManager.register, and the registration flag of its handler */
  function RegisterPolicy(s: State, name: Name, now: int): Outcome {
    if Has(s.crew.replicas, name) then Outcome(s, true)
    else
      var a := AddPolicy(s, name, now);
      if |a.crew.replicas| == 1 && a.crew.firstArrived then Outcome(a, true)
      else
        var o := PolicyHook(if |a.crew.replicas| == 1 then FirstPolicy(a, name) else a, name);
        if o.raised then o else Outcome(o.state.(crew := o.state.crew.(seen := true)), false)
  }

  /** PolicyStatusManager.unregister */
  function UnregisterPolicy(s: State, name: Name): Outcome {
    if !Has(s.crew.replicas, name) then Outcome(s, true)
    else
      var t := s.(crew := s.crew.(replicas := Without(s.crew.replicas, name),
                                  status := s.crew.status - {name}, left := s.crew.left + 1));
      if Finished(t.closing, t.at) || name in t.closing.acks
         || Get(s.crew.replicas, name).meshRank < 0 || t.crew.replicas == []
      then Outcome(t, false)
      else Outcome(RebuildPolicyMesh(t), false)
  }

  /** RolloutStatusManager.trigger_rebuild_mesh */
  function RebuildRolloutMesh(y: Sync, members: seq<Replica>): Sync {
    var order := ByStart(members);
    Sync(Rank(y.rollouts, order), y.log + Broadcast(order, BuildMesh(order)))
  }

  /** RolloutStatusManager.post_register_hook: the transfer to the new replica */
  function FirstTransfer(y: Sync, crew: Crew, name: Name): Sync
    requires Has(y.rollouts, name)
  {
    var src := FirstLoaded(crew.replicas, ByNameThenStart(crew.replicas));
    if src.Some? && forall i :: 0 <= i < |y.rollouts| ==> !y.rollouts[i].loaded
    then Unicast(y, src.value, name, None)
    else y
  }

  /** RolloutStatusManager.post_register_hook: mesh and first broadcast */
  function SettleRolloutMesh(g: Gens, y: Sync, step: int): Sync {
    var built := RebuildRolloutMesh(y, y.rollouts);
    if g.initDone then built
    else if |y.rollouts| != g.nInit then y
    else
      var src := FirstLoaded(built.rollouts, ByStart(built.rollouts));
      if src.Some? then Relay(built, src.value, Names(built.rollouts), Some(step)) else built
  }

  /** RolloutStatusManager.register */
  function RegisterRollout(s: State, name: Name, now: int, reporters: set<int>): Outcome {
    if Has(s.gens.replicas, name) then Outcome(s, true)
    else
      var rs := s.gens.replicas + [Replica(name, now, false, -1, false, reporters)];
      var g := s.gens.(replicas := rs,
                       nInit := if s.gens.initDone then s.gens.nInit else Max(s.gens.nInit, |rs|));
      assert rs[|s.gens.replicas|].name == name;
      var y := SettleRolloutMesh(g, FirstTransfer(Sync(rs, s.log + [RolloutJoined(name)]), s.crew, name), s.at.step);
      Outcome(s.(gens := g.(replicas := y.rollouts, initDone := g.initDone || |rs| == g.nInit), log := y.log), false)
  }

  /** The survivors that may safely form a mesh. */
  function SafeSurvivors(rs: seq<Replica>, participants: set<Name>): seq<Replica> {
    if rs == [] then []
    else (if !rs[0].ended || rs[0].name in participants then [rs[0]] else []) + SafeSurvivors(rs[1..], participants)
  }

  /** RolloutStatusManager.unregister */
  function UnregisterRollout(s: State, name: Name): Outcome {
    if !Has(s.gens.replicas, name) then Outcome(s, true)
    else
      var g := s.gens.(replicas := Without(s.gens.replicas, name),
                       endReports := s.gens.endReports - {name},
                       participants := s.gens.participants - {name},
                       left := s.gens.left + 1);
      var safe := SafeSurvivors(g.replicas, g.participants);
      if Finished(s.closing, s.at) || Get(s.gens.replicas, name).meshRank < 0 || safe == []
      then Outcome(s.(gens := g), false)
      else
        var y := RebuildRolloutMesh(Sync(g.replicas, s.log), safe);
        Outcome(s.(gens := g.(replicas := y.rollouts), log := y.log), false)
  }

  // ---- the monitor ---------------------------------------------------------

  /** should_broadcast_stop with validation off */
  predicate ShouldStop(s: State) {
    && !s.stopSent
    && ((s.closing.terminal && AllEnded(s.gens))
        || (s.crew.replicas == [] && s.crew.seen && (Finished(s.closing, s.at) || AllEnded(s.gens))))
  }

  /** One scan of monitor_replica_status, reaping apart */
  function MonitorTick(s: State): State {
    if ShouldStop(s) then s.(stopSent := true, log := s.log + Broadcast(Names(s.gens.replicas), Stop)) else s
  }
}
