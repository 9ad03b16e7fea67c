# Verified model of the cosmos-rl coordination logic

cosmos-rl trains a policy by reinforcement learning with two kinds of replicas:
rollout replicas generate samples, policy replicas train on them, and a
controller hands out prompts, buffers rollouts, starts training steps, moves
weights from policy to rollout replicas and ends the job. This project models
four parts of it and proves what they promise.

**A. The controller protocol.** `Types`, `Fleet` and `Protocol` hold the state
of the controller and, for every HTTP handler and manager operation, the state
it leaves behind (a handler that raises keeps the writes made before).
`Controller` is the controller as an object with fields that its methods update
in place, loop by loop; every method is proved to do what `Protocol` says.
`Runs` defines runs: arbitrary sequences of prompt fetches, posts,
acknowledgements, registrations, departures, end reports and monitor ticks. On
all runs:

- `Conservation`, `FailedPost`: the in-flight counter is exactly the samples workers
  hold, plus the buffered rollouts, plus the dispatched ones, plus the rollouts of
  posts that raised; acknowledging never takes it below zero.
- `Staleness`: no rollout is trained on more than the allowed number of steps after
  the weights that generated it.
- `Shutdown`, `Completion`, `Stopping`, `LateAck`: what draining and completion
  freeze, when the job ends, and that STOP is sent once and comes after all work,
  also when it is sent because no policy replica is left.
- `Admission`: exactly which posted rollouts are kept, that they are trained in the order
  they came in, what the sample budget pays for, and exactly when a step is dispatched.
- `WeightRounds`: exactly when an acknowledgement starts a weight round, and its commands.
- `Decisions`: how a fetch is answered, when a rollout replica has ended, when draining
  starts and how it concludes, when STOP is sent - each in terms of the fields alone.
- `Ages`, `Membership`: what "oldest first" means for ranks and weight sources, and what a
  replica that joins or leaves does to meshes, weights and statuses.
- `Lockstep`: workers that acknowledge in order never have two training commands.
- `Coalescing`: how far weight rounds are apart and what a skipped one means.
- `FullSync`: full weights before partial ones; who holds weights.
- `RankDispatch`: queues by residue, mesh ranks as a bijection, rollouts reach
  their rank.
- `Fetches`: weight-version tags and the throttle bounds.

`Logs`, `Loops` and `Arith` are shared helpers. The environment is assumed to be
no better than this: workers report only samples they hold and redeliver discard
reports only until their replica ends (`Conservation.Honest`); a fetch returns no
more prompts than asked for (`Fetches.Modest`); where a statement says *orderly*,
policy replicas acknowledge the commands they were sent, once and in order
(`Lockstep.Orderly`). Everything else may happen at any time and in any order.

**B. Karmarkar-Karp balancing.** `Differencing` (sets, states, the heap, the
merge), `Tracing` (the method as a relation on heaps), `Partitioning` (the
partitions and the run-time checks) and `MiniBatches`.

**C. Shard slices.** `ShardSlices`: unify, overlap, relative, merge and simplify as
exact statements about the elements of a tensor.

**D. Kernels.** `Gradients` and `StrictGradients` (bucketed and strict reduction),
`Checkpoints` (retention and completion markers), `Placement` (GPU placement).

## Where the code does less than it is meant to

- A published completion is documented to end the job exactly when its whole
  recipient snapshot has acknowledged. A repeated acknowledgement of the final real
  step, whose record was left behind when a replica left during that step, also ends
  it: `LateAck.RepeatedAckEndsTheJob` is such a run of honest workers.
  `Completion.AckEndsJobIff` says exactly which acknowledgements end the job, and
  `Completion.CompletionExactlyOnSnapshot` that with orderly acknowledgements only
  the last one of the snapshot does.
- A post whose handler raises neither buffers nor settles its accepted rollouts, so
  they stay in the in-flight count: exactly such posts lose samples
  (`Conservation.OnlyFailedPostsLose`), `Conservation.PostRaisesIff` says when a post
  raises, and `FailedPost.EarlyPostLoses` is a run of honest workers with a loss.
- An initialised job that has lost all its policy replicas never accepts one again
  (`FullSync.LostForGood`). Before the initialisation the first registration after such
  a loss raises but leaves its replica registered, and further ones succeed
  (`FullSync.AcceptedAfterLoss`) until the crew is complete and nobody has weights for it
  (`FullSync.RegistrationRaisesIff`). Losing the weight-resumed replica before the
  initialisation leaves replicas without weights (`FullSync.DepartureKeepsWeightsIff`).
- Slices whose totals do not divide one another cannot be unified even where both
  divide the dimension (`ShardSlices.OverlapExact`).
- A multi-node role placed after roles that have begun, and fit on, the first node is
  given devices of that node a second time (`Placement.ClashExample`,
  `Placement.CleanUnlessClash`).
- A replica larger than a node whose size is not a multiple of the node's GPUs is
  launched on too few of them: 12 GPUs on nodes of 8 become 8 (`Placement.ShortExample`,
  `Placement.ReplicasGetTheirGpus`).
- Strict gradient reduction is all or nothing across ranks exactly when the full
  collective completes on all ranks or on none, or there is nothing to write
  (`StrictGradients.AllOrNothing`); when one rank completes it and another runs out of
  attempts, one writes and the other does not (`StrictGradients.HalfWritten`).
- Trailing empty gradients are left out of the last bucket, which is harmless
  (`Gradients.SplitBuckets`).

## Model

| member | source | states |
|---|---|---|
| Conservation.SamplesConserved | cosmos_rl/dispatcher/status.py:1148-1238 | On every run of honest workers, with replicas joining and leaving, any acknowledgements and redelivered discard reports: the counter equals held + buffered + recorded + lost, and is not negative (with dispatch by rank: as long as replicas do not outnumber queues, which orderly acknowledgements ensure) |
| Conservation.StepConserves | cosmos_rl/dispatcher/run_web_panel.py:673-736 | Each single event, whatever it is, keeps that equation and the memory of applied discard reports |
| Conservation.SettleExact | cosmos_rl/dispatcher/status.py:1148-1158 | The clamp at zero never bites: settling subtracts exactly the count |
| Conservation.AckNeverUnderflows | cosmos_rl/dispatcher/status.py:1604-1651 | On every run of honest workers the non-negativity assert of train_ack cannot fire: an acknowledgement raises iff the replica is unknown |
| Conservation.AckRaisesIff | cosmos_rl/dispatcher/status.py:1578-1651 | On any state an acknowledgement raises iff the replica is unknown, or all others have reduced and the record of the step exceeds the counter |
| Conservation.PostRaisesIff | cosmos_rl/dispatcher/status.py:1270-1366 | A post raises iff results are admitted and a version is ahead of the step, or an accepted rollout meets a mesh that is not built |
| Conservation.OnlyFailedPostsLose | cosmos_rl/dispatcher/run_web_panel.py:697-736 | Samples become uncounted for iff the event is a post that raises |
| FailedPost.EarlyPostLoses | cosmos_rl/dispatcher/status.py:1286-1292 | A run of honest workers, dispatch by rank, results before the mesh: nobody holds a sample, none is buffered or dispatched, and one is counted |
| Staleness.TrainedRolloutsFresh | cosmos_rl/dispatcher/status.py:1348-1426 | Shared buffer, no policy replica leaving while rollouts wait: a rollout trained in step s has s-1-version at most allowed_outdated_steps |
| Staleness.AcceptedFresh | cosmos_rl/dispatcher/status.py:1370-1382 | The step the filter estimates for a rollout is no earlier than its place in the queue gives |
| Staleness.StepKeepsFresh | cosmos_rl/dispatcher/status.py:2015-2104 | Every event but a policy replica departing from waiting rollouts keeps step + q/B - version within the allowance for each queue position q |
| Admission.PostPutsExactly | cosmos_rl/dispatcher/status.py:1348-1426 | In a post whose versions exist the rollout at position i is put iff step + (i + pending)/(batch * max(n,1)) - version <= allowed, in order; budget and counter fall by exactly the others; the adoption mark is the largest version; raises iff something is kept and there is no mesh |
| Admission.TrainedInOrder | cosmos_rl/dispatcher/status.py:2082-2087 | On every run with the shared buffer, until draining or completion: rollouts handed out followed by the buffer are the rollouts kept, in order, each once |
| Admission.BudgetOnEveryRun | cosmos_rl/dispatcher/status.py:2036-2087 | On every run remaining + handed out + dropped samples are the budget of the start |
| Admission.DispatchesIff | cosmos_rl/dispatcher/status.py:2015-2104 | A step is dispatched iff replicas are there, all ready or reduced, the job neither complete nor at a positive horizon, and a full batch waits; then all are told and running |
| Admission.HandOutShared | cosmos_rl/dispatcher/status.py:2082-2087 | Round after round each replica, in registration order, gets the next rollout of the shared buffer |
| Admission.HandOutByRank | cosmos_rl/dispatcher/status.py:2059-2081 | The i-th oldest replica gets the first batch of queue i by prompt |
| Decisions.PutsLeaveNothingDue | cosmos_rl/dispatcher/status.py:1270-1331 | After rollouts are put no step is left due |
| Shutdown.RunKept | cosmos_rl/dispatcher/status.py:419-436 | What never goes back on any run: terminal, draining and the frozen horizon, the completion and its snapshot, the step counter, being finished |
| Shutdown.HorizonIsLast | cosmos_rl/dispatcher/status.py:466-494 | The recomputed horizon is the last step that the remaining samples pay for and max_num_steps allows |
| Shutdown.EnteringFixesHorizon | cosmos_rl/dispatcher/status.py:508-517 | Entering the draining phase keeps the horizon, whatever total_steps becomes afterwards |
| Completion.CompletionFreezes | cosmos_rl/dispatcher/status.py:603-652 | After a completion is published: step frozen, buffer empty for good, no DataFetch, every real command below the synthetic step, terminal never unset |
| Completion.RealAckIsNotCompletion | cosmos_rl/dispatcher/status.py:640-652 | The acknowledgement of a real command is never taken for a completion one |
| Completion.DrainingFreezes | cosmos_rl/dispatcher/status.py:508-546 | The draining horizon never changes and, if positive, bounds the remaining steps; real commands never exceed a positive horizon |
| Completion.DrainingDecides | cosmos_rl/dispatcher/status.py:519-546 | A drained idle controller dispatches a step within the horizon or decides: the remaining steps are a termination measure |
| Decisions.DrainChooses | cosmos_rl/dispatcher/status.py:519-546 | An idle drained controller dispatches a due step before its horizon; otherwise it empties the buffers and is complete iff the horizon step was acknowledged with that horizon, or publishes the completion to all replicas |
| Decisions.AckGoesOn | cosmos_rl/dispatcher/status.py:1612-1900 | A settling acknowledgement leaves no step due outside draining; drained, the job is closed or at work; everyone is ready or running |
| Decisions.AckCompletesIff | cosmos_rl/dispatcher/status.py:1248-1258 | Outside draining an acknowledgement ends the job iff it settles rollouts of the horizon step with that horizon; each that settles rollouts is remembered as the last real one |
| Decisions.DrainingStartsIff | cosmos_rl/dispatcher/status.py:2376-2420 | Draining starts exactly with the end report that ends the last live rollout replica |
| Decisions.EndsIff | cosmos_rl/dispatcher/status.py:2376-2420 | A report ends a replica iff it is known and live and speaks for the whole replica, or is of an expected rank and all others have reported |
| Decisions.EndReportLeaves | cosmos_rl/dispatcher/status.py:2376-2420 | Which replicas have ended and which ended ones still take part in weight rounds after a report |
| Decisions.EndForgets | cosmos_rl/dispatcher/status.py:1160-1198 | Discard reports of a replica are remembered until it ends and no longer |
| Completion.FinishedForever | cosmos_rl/dispatcher/status.py:748-768 | Training that is finished stays finished at the same step, so the early exit of unregister is safe |
| Completion.DrainingStartsNoSync | cosmos_rl/dispatcher/status.py:559-566 | A train ack in the draining phase starts no weight transfer |
| Completion.AckEndsJobIff | cosmos_rl/dispatcher/status.py:1578-1646 | After the completion exactly two kinds of acknowledgement end the job: the last of the snapshot, and a late one of a final step still on record and covered by the counter |
| Completion.SnapshotDecidesOnEveryRun | cosmos_rl/dispatcher/status.py:640-652 | If the final step was settled, the job ends on every continuation exactly when the snapshot is complete |
| Completion.CompletionExactlyOnSnapshot | cosmos_rl/dispatcher/status.py:603-652 | With orderly acknowledgements, at every point of every run: ended iff all recipients have acknowledged |
| LateAck.RepeatedAckEndsTheJob | cosmos_rl/dispatcher/status.py:1612-1658 | A concrete run of honest workers on which a repeated real acknowledgement ends the job although nobody acknowledged the completion |
| Stopping.StopIsSentOnce | cosmos_rl/dispatcher/run_web_panel.py:250-322 | On every run no STOP precedes the flag and none follows it |
| Stopping.OnlyTheMonitorStops | cosmos_rl/dispatcher/run_web_panel.py:275-317 | No handler publishes STOP |
| Stopping.CompleteMeansQuiet | cosmos_rl/dispatcher/status.py:118-146 | Once the job is complete no event of an orderly run starts a training step or a weight round |
| Stopping.StopComesLast | cosmos_rl/dispatcher/run_web_panel.py:274-317 | Once STOP is sent, for a complete job or for one without policy replicas, no event of an orderly run starts a training step or a weight round |
| Decisions.StopIsSentIff | cosmos_rl/dispatcher/status.py:108-158 | A monitor tick sends STOP to every rollout and sets the flag iff not sent yet and either complete with all rollouts ended, or policies were there, none is left, and training is at its end or all rollouts ended |
| Lockstep.OneCommandAtATime | cosmos_rl/dispatcher/status.py:2015-2104 | Orderly runs: a replica has one outstanding training command exactly while it is running, and it is the current step's or the completion's |
| Coalescing.RoundsAreSpaced | cosmos_rl/dispatcher/status.py:160-196 | Orderly runs: two round entries of the log are the two halves of one round, or the second is of a strictly larger step and, coalescing, follows a report of the first one's weights in use |
| Coalescing.NewRoundsAreBeyond | cosmos_rl/dispatcher/status.py:1855-1938 | Every round an event of an orderly run publishes is of the step just trained, beyond the staged step and every earlier round; coalescing, the staged step has been adopted |
| Coalescing.SkipsHaveARoundInFlight | cosmos_rl/dispatcher/status.py:1855-1891 | Each skipped synchronisation had a published round whose weights no report has shown, and publishes nothing |
| WeightRounds.AckSyncsIff | cosmos_rl/dispatcher/status.py:1855-1938 | An acknowledgement that settles a step publishes a transfer of that step from the oldest policy replica to the oldest rollout, told to both, and the relay to exactly the rollouts in the mesh, iff not draining, interval divides step, step != total_steps, a rollout is live, none ended outside the participants, and coalescing has no round waiting; otherwise nothing |
| WeightRounds.OnlySettlingAcksSync | cosmos_rl/dispatcher/status.py:1578-1651 | An acknowledgement that settles nothing transfers nothing |
| FullSync.FullBeforePartial | cosmos_rl/dispatcher/command.py:287-375 | On every run a trainable-only transfer follows a full one to the same registration, and a relaying rollout had a full transfer itself |
| FullSync.MarksAreExact | cosmos_rl/dispatcher/command.py:287-313 | On every run a rollout is marked loaded iff a full transfer was sent to it since it joined, and a policy-to-rollout transfer is trainable-only iff its receiver had a full one |
| FullSync.InitialisedReplicasLoaded | cosmos_rl/dispatcher/status.py:900-948 | After the policy initialisation every policy replica is marked loaded, the weight-resumed one surviving it |
| FullSync.RegistrationRaisesIff | cosmos_rl/dispatcher/status.py:770-871 | A policy registration raises iff the name is known, or it is the first after all replicas left, or nobody in the crew has weights and the crew is initialised or complete with it |
| FullSync.RegistrationKeepsWeights | cosmos_rl/dispatcher/status.py:770-871 | A registration that succeeds keeps the weights within reach |
| FullSync.LostForGood | cosmos_rl/dispatcher/status.py:770-1024 | On every continuation of an initialised job without policy replicas every registration raises and no replica gets weights |
| FullSync.AcceptedAfterLoss | cosmos_rl/dispatcher/status.py:770-871 | A run before the initialisation: after the loss one registration raises and leaves its replica behind, the next succeeds |
| FullSync.DepartureKeepsWeightsIff | cosmos_rl/dispatcher/status.py:748-768 | A departure keeps the weights within reach iff it is not the weight-resumed replica leaving others before the initialisation |
| RankDispatch.QueuesByResidue | cosmos_rl/dispatcher/status.py:883-898 | On every run a rollout in queue r has prompt_idx mod n equal to r |
| RankDispatch.RebuildKeepsRollouts | cosmos_rl/dispatcher/status.py:883-898 | A mesh rebuild keeps the multiset of waiting rollouts |
| RankDispatch.RanksAreABijection | cosmos_rl/dispatcher/command.py:137-150 | While training goes on and all replicas are initialised, mesh ranks are a bijection onto 0..n-1, the lower rank to the earlier start and, among equals, to the earlier registration, and there are n queues |
| Ages.ByStartIsByAge | cosmos_rl/dispatcher/status.py:873-881 | The start-time order is ascending in start time and keeps registration order on ties |
| Ages.PolicyMeshIsByAge | cosmos_rl/dispatcher/command.py:137-150 | Rebuilding numbers all policy replicas from the oldest and tells each of them the members by rank |
| Ages.RolloutMeshIsByAge | cosmos_rl/dispatcher/status.py:2430-2438 | Rebuilding numbers exactly the member rollouts from the oldest and tells each of them the members by rank |
| RankDispatch.SortedByPrompt | cosmos_rl/dispatcher/status.py:2059-2081 | A queue is handed out by prompt index, rollouts of one prompt as they came in |
| Membership.PolicyJoins | cosmos_rl/dispatcher/status.py:770-1024 | A successful registration: initialised iff it was or the crew is complete; then ranks by age, the newcomer loaded and ready, at initialisation everyone ready; before, it waits; the first one resumes the weights |
| Membership.Initialises | cosmos_rl/dispatcher/status.py:912-948 | At the initialisation several replicas all get the weights of the oldest one that holds any |
| Membership.JoinsRunning | cosmos_rl/dispatcher/status.py:992-1024 | A late replica gets the weights of the oldest one that holds any and becomes ready; the others keep their status |
| Membership.FirstWeightsAre | cosmos_rl/dispatcher/status.py:814-862 | When the first policy replica arrives the oldest waiting rollout gets a transfer, relayed to the mesh iff the initial rollouts are there |
| Membership.PolicyLeaves | cosmos_rl/dispatcher/status.py:748-768 | A departure rebuilds the mesh by age iff training goes on, it has not acknowledged the completion, it was in the mesh and others remain |
| Membership.RolloutJoins | cosmos_rl/dispatcher/status.py:2440-2515 | First weights to the newcomer iff no rollout has any and a policy replica has, from the oldest such one; mesh by age once complete; weights to all when it is first built |
| Membership.RolloutLeaves | cosmos_rl/dispatcher/status.py:2258-2294 | The new mesh is exactly the survivors that are live or participants, by age, iff training goes on and the leaver was in the mesh |
| Membership.NamesAreUnique | cosmos_rl/dispatcher/status.py:770-812 | On every run names are unique among policy and among rollout replicas |
| RankDispatch.RolloutsReachTheirRank | cosmos_rl/dispatcher/status.py:2056-2081 | Whatever an event hands out goes to the replica whose mesh rank is the prompt index modulo the number of replicas |
| Fetches.TagAllExact | cosmos_rl/dispatcher/controller.py:518-553 | Tags never go down, start at the computed version, leave no room below, counts grow by exactly the tags, no version exceeds the cap |
| Fetches.FetchesTagExactly | cosmos_rl/dispatcher/controller.py:503-553 | On every run without DAPO and before any replica left, also as replicas join: the assert of the skip loop cannot fire and the tags are exact |
| Fetches.InFlightBounded | cosmos_rl/dispatcher/controller.py:416-501 | On every run the samples in flight stay below the soft limit (no DAPO, zero outdated-fetch batch) and below the hard limit, whichever throttle is on |
| Fetches.OnlyFetchesAdd | cosmos_rl/dispatcher/controller.py:613-616 | Nothing but a fetch increases the in-flight counter |
| Decisions.FetchAnswers | cosmos_rl/dispatcher/controller.py:355-649 | A fetch: nothing and the end without policy replicas, nothing at the in-flight limit, otherwise one version per prompt, the samples in flight, and the end iff data is exhausted or training at its end |
| Decisions.FetchLimitIs | cosmos_rl/dispatcher/controller.py:416-446 | All prompts are asked for unless the soft or the DAPO throttle bites, then at most the outdated-fetch batch |
| Decisions.FirstVersionIs | cosmos_rl/dispatcher/controller.py:396-408 | The buffered rollouts fill exactly the steps between the current one and the first version |
| Decisions.PromptsPerStepIs | cosmos_rl/dispatcher/controller.py:396-408 | The least number of prompts that generate the rollouts of a step |
| Decisions.FetchTagsAre | cosmos_rl/dispatcher/controller.py:503-580 | Version 0 once a replica has left; the first version for DAPO; otherwise versions filled one after the other |
| Runs.OnlyRegistrationChangesCrew | cosmos_rl/dispatcher/status.py:748-871 | Apart from statuses only register and unregister touch the policy replicas |
| ControllerObject.Controller.constructor | cosmos_rl/dispatcher/status.py:277-345 | The object starts as the protocol's initial state |
| ControllerObject.Controller.SettleDiscardedSamples | cosmos_rl/dispatcher/status.py:1160-1187 | Each non-empty report id of a replica settles once; returns what was settled |
| ControllerObject.Controller.CleanupBufferedRollouts | cosmos_rl/dispatcher/status.py:1200-1214 | Empties every queue item by item and settles exactly their number |
| ControllerObject.Controller.RearrangeBuffers | cosmos_rl/dispatcher/status.py:883-898 | Every queue becomes the waiting rollouts of its residue, in order |
| ControllerObject.Controller.BuildPolicyMesh | cosmos_rl/dispatcher/command.py:137-150 | Ranks are positions, and every member is told the whole mesh |
| ControllerObject.Controller.TriggerRebuildMesh | cosmos_rl/dispatcher/status.py:873-881 | Mesh by age, then horizon, then queues |
| ControllerObject.Controller.HandOutShared | cosmos_rl/dispatcher/status.py:2082-2087 | The nested loops give item j of the buffer to replica j mod n and remove exactly those items |
| ControllerObject.Controller.HandOutByRank | cosmos_rl/dispatcher/status.py:2059-2081 | The i-th oldest replica gets the first batch of queue i sorted by prompt index |
| ControllerObject.Controller.CommandAll | cosmos_rl/dispatcher/status.py:2091-2104 | Publishes to every replica and marks it running |
| ControllerObject.Controller.TryTriggerTraining | cosmos_rl/dispatcher/status.py:2015-2104 | Dispatches one step iff replicas are there and idle, training is not finished and a full batch is buffered |
| ControllerObject.Controller.TriggerTrainingComplete | cosmos_rl/dispatcher/status.py:603-638 | Snapshot of recipients, step counter + 1, everyone running, each told once |
| ControllerObject.Controller.FinishDrainingPhase | cosmos_rl/dispatcher/status.py:519-546 | Clean up, wait, dispatch a tail batch, or conclude |
| ControllerObject.Controller.RecordRealAcked | cosmos_rl/dispatcher/status.py:1248-1258 | Remembers the real acknowledgement; the final one ends the job and empties the buffers |
| ControllerObject.Controller.PolicyToRolloutUnicast | cosmos_rl/dispatcher/command.py:287-313 | Both ends are told; partial iff the receiver was loaded; the receiver is marked |
| ControllerObject.Controller.RolloutToRolloutBroadcast | cosmos_rl/dispatcher/command.py:350-375 | Only from a source in the mesh, only to addressees in the mesh, partial iff all addressees were loaded |
| ControllerObject.Controller.PolicyToPolicyBroadcast | cosmos_rl/dispatcher/command.py:180-196 | Every addressee is told and marked |
| ControllerObject.Controller.TriggerWeightSync | cosmos_rl/dispatcher/status.py:1902-1938 | Oldest policy replica to the first safe rollout, from there to all, and the step is staged |
| ControllerObject.Controller.SettleAckedStep | cosmos_rl/dispatcher/status.py:1612-1658 | The step's record leaves the counter once; raises if the counter becomes negative, otherwise a real step is recorded |
| ControllerObject.Controller.FinishStep | cosmos_rl/dispatcher/status.py:1612-1900 | Settle or raise, everyone ready, synchronise or skip, then drain or dispatch |
| ControllerObject.Controller.TrainAcked | cosmos_rl/dispatcher/status.py:1578-1900 | Unknown replicas and an overdrawn counter raise; completion acknowledgements are recorded apart; the last reduced replica finishes the step |
| ControllerObject.Controller.Sift | cosmos_rl/dispatcher/status.py:1361-1387 | Reads versions up to the first one ahead of the step, tracks the largest, keeps the rollouts estimated fresh |
| ControllerObject.Controller.FilterOutdated | cosmos_rl/dispatcher/status.py:1348-1426 | What is dropped leaves the remaining budget and the in-flight counter |
| ControllerObject.Controller.PutRollout | cosmos_rl/dispatcher/status.py:1270-1292 | Queues the rollout, by residue or shared, and may dispatch |
| ControllerObject.Controller.PutRollouts | cosmos_rl/dispatcher/status.py:1294-1331 | Puts them one after the other; raises without a mesh to divide by |
| ControllerObject.Controller.PostResults | cosmos_rl/dispatcher/run_web_panel.py:697-736 | Discards, then terminal clean-up or DAPO filtering, outdated filter and put, in this order |
| ControllerObject.Controller.ReportEnd | cosmos_rl/dispatcher/status.py:2376-2420 | True exactly when the report turns the whole replica into an ended one |
| ControllerObject.Controller.EndRollout | cosmos_rl/dispatcher/run_web_panel.py:674-695 | An ended replica drains the job if all have ended and is forgotten by the discard memory |
| ControllerObject.Controller.TagPrompts | cosmos_rl/dispatcher/controller.py:518-553 | The tagging loop and its skip loop, which terminates; the assert fires only if a version has more prompts than a step takes |
| ControllerObject.Controller.FetchPrompts | cosmos_rl/dispatcher/controller.py:355-649 | Throttles, tags, in-flight increment and the end signal of a training fetch; raises only with the assert of the skip loop |
| ControllerObject.Controller.SendFirstWeights | cosmos_rl/dispatcher/status.py:814-862 | Waiting rollouts get their first weights from the first policy replica |
| ControllerObject.Controller.InitialisePolicies | cosmos_rl/dispatcher/status.py:912-948 | Mesh, weights from the first loaded replica to all, all ready; raises without a source |
| ControllerObject.Controller.JoinPolicies | cosmos_rl/dispatcher/status.py:992-1024 | A late replica joins the mesh, gets weights and is ready; raises without a source |
| ControllerObject.Controller.RegisterPolicyReplica | cosmos_rl/dispatcher/status.py:770-871 | The whole registration of a policy replica, with its failures |
| ControllerObject.Controller.UnregisterPolicyReplica | cosmos_rl/dispatcher/status.py:748-768 | Removes the replica; rebuilds the mesh unless finished, acknowledged, outside the mesh or last |
| ControllerObject.Controller.BuildRolloutMesh | cosmos_rl/dispatcher/status.py:2430-2438 | Ranks by age among the members, and every member is told |
| ControllerObject.Controller.AdmitRollout | cosmos_rl/dispatcher/status.py:2440-2515 | First transfer if nobody is loaded; first mesh with the one broadcast, or a rebuild |
| ControllerObject.Controller.RegisterRolloutReplica | cosmos_rl/dispatcher/status.py:2296-2342 | The whole registration of a rollout replica |
| ControllerObject.Controller.UnregisterRolloutReplica | cosmos_rl/dispatcher/status.py:2258-2294 | Removes the replica; the safe survivors form a new mesh |
| ControllerObject.Controller.Monitor | cosmos_rl/dispatcher/run_web_panel.py:274-317 | Sends STOP to every rollout and sets the flag exactly when the decision says so |
| Differencing.CrossedDifference | cosmos_rl/utils/balance_seqlen.py:67-70 | The merge lemma: crossed sums differ by between -spread(b) and spread(a) |
| Differencing.SpreadIsWithin | cosmos_rl/utils/balance_seqlen.py:72-74 | The spread of a sorted state bounds the difference of any two of its sums, and only then |
| Differencing.MergedSound | cosmos_rl/utils/balance_seqlen.py:67-70 | Merging keeps order, true sums, the spread bound, the items, equal sizes, and no empty set or only single items |
| Differencing.CrossedShaped | cosmos_rl/utils/balance_seqlen.py:67-70 | Two states of single items fill every set or leave only single items |
| Differencing.StartSound | cosmos_rl/utils/balance_seqlen.py:48-56 | A new state is sorted, holds its items and is within the bound |
| Differencing.Merge | cosmos_rl/utils/balance_seqlen.py:36-70 | The loops over sets and items append exactly the partner's items, then sort |
| Differencing.Pop | cosmos_rl/utils/balance_seqlen.py:76-82 | The popped state is one that no other precedes, by spread and then by first set |
| Partitioning.StartGroups | cosmos_rl/utils/balance_seqlen.py:100-109 | Equal-size mode starts from groups of k neighbours by length and index, each within the largest group spread |
| Partitioning.StartSingles | cosmos_rl/utils/balance_seqlen.py:111-112 | One state per item |
| Partitioning.Reduce | cosmos_rl/utils/balance_seqlen.py:114-119 | A chain of differencing steps leads from the start to one state; items, spread bound and shape are kept |
| Partitioning.MergeForemost | cosmos_rl/utils/balance_seqlen.py:114-119 | One step replaces the widest state (ties: largest first set) and the widest of the others by their crossed, sorted union |
| Tracing.FirstIff | cosmos_rl/utils/balance_seqlen.py:76-82 | The heap order: the larger difference of largest and smallest sum, then the greater first set |
| Tracing.SortIsSorted | cosmos_rl/utils/balance_seqlen.py:36-56 | Sets are kept by sum, then number of items, then the first item in which they differ |
| Partitioning.KarmarkarKarp | cosmos_rl/utils/balance_seqlen.py:24-128 | Fails iff no item, no set or indivisible sizes; the partitions are those of the differencing method; every index in exactly one partition; sums within the largest length (equal mode: largest group spread); none empty for n >= k; equal sizes n/k |
| Partitioning.CheckAndSort | cosmos_rl/utils/balance_seqlen.py:164-174 | The run-time checks pass iff there are k parts, none empty, of exactly the indices below n; each part is sorted |
| Partitioning.BalancedPartitions | cosmos_rl/utils/balance_seqlen.py:132-179 | Succeeds iff 1 <= k <= n, k dividing n in equal mode: no assert about the outcome can fail |
| MiniBatches.PartBound | cosmos_rl/utils/balance_seqlen.py:214-242 | k times any partition is at most the total plus (k-1) times the spread |
| MiniBatches.EnoughBatches | cosmos_rl/utils/balance_seqlen.py:214-240 | The chosen number of mini-batches holds all tokens at the effective limit |
| MiniBatches.FewestBatches | cosmos_rl/utils/balance_seqlen.py:214-240 | No fewer mini-batches would hold all tokens, unless more were asked for |
| MiniBatches.TokenLimitIs | cosmos_rl/utils/balance_seqlen.py:214-221 | The effective limit is the larger of the configured one and the longest sequence |
| MiniBatches.RearrangeMiniBatches | cosmos_rl/utils/balance_seqlen.py:187-262 | Fails iff empty batch, zero limit, no or too many mini-batches; otherwise the differencing partitions, every element once, k*sum <= total + (k-1)*max, sum below twice the limit, ordered by squared lengths if asked, elements picked in order |
| ShardSlices.SimplifyKeepsMeaning | cosmos_rl/utils/dim_slice_info.py:67-74 | Simplifying keeps divisibility and the elements meant |
| ShardSlices.SimplifyIsLowest | cosmos_rl/utils/dim_slice_info.py:67-74 | The simplified slice is in lowest terms |
| ShardSlices.UnifyKeepsMeaning | cosmos_rl/utils/dim_slice_info.py:133-154 | Unified slices have one total that divides every common dimension and mean the same elements |
| ShardSlices.OverlapExact | cosmos_rl/utils/dim_slice_info.py:211-239 | Computed iff one total divides the other; none iff no common element; otherwise both slices are exactly the common elements |
| ShardSlices.UnlistedDimensionIsWhole | cosmos_rl/utils/dim_slice_info.py:211-239 | A dimension that neither shard lists is sent and received whole |
| ShardSlices.OverlapPairsAgree | cosmos_rl/utils/dim_slice_info.py:77-109 | The part cut from the policy shard and the part cut from the rollout shard are the same elements in the same order: the intersection |
| ShardSlices.BoxPairsAgree | cosmos_rl/utils/dim_slice_info.py:112-239 | In all dimensions at once: cutting the policy shard by the sent slices and the rollout shard by the received ones gives the same view of the tensor, the intersection |
| ShardSlices.EveryElementReceivedOnce | cosmos_rl/utils/dim_slice_info.py:157-239 | If policy shards tile a dimension, every element of a rollout shard comes from exactly one of them |
| ShardSlices.EveryBoxElementReceivedOnce | cosmos_rl/utils/dim_slice_info.py:211-239 | The same for boxes over several dimensions |
| ShardSlices.CutAll | cosmos_rl/utils/dim_slice_info.py:112-127 | Whatever the dictionary order, the result is the cut in all dimensions at once, and it raises iff one cut does not apply |
| ShardSlices.RelativeUndoesMerge | cosmos_rl/utils/dim_slice_info.py:179-208 | relative_rank of merge_rank gives the inner slice back for outer slices of length 1 |
| ShardSlices.MergeIsNesting | cosmos_rl/utils/dim_slice_info.py:197-208 | Slicing by the merged slice is slicing twice |
| Gradients.SplitBuckets | cosmos_rl/utils/distributed.py:152-170 | Buckets keep the order, each within the limit but for its last tensor, every one but the last above it, and leave out only trailing empty tensors |
| Gradients.ReducePacked | cosmos_rl/utils/distributed.py:172-197 | Reducing the packed bucket is packing the reduced tensors |
| Gradients.CopyBack | cosmos_rl/utils/distributed.py:199-207 | The offset loop writes each tensor its own part of the buffer and touches no other |
| Gradients.ReduceBucketed | cosmos_rl/utils/distributed.py:143-207 | Each gradient ends up as its own element-wise reduction across ranks, for any sizes and limit |
| StrictGradients.AllReduceWithRetry | cosmos_rl/utils/distributed.py:698-747 | However often failed attempts scribbled on the receive buffer, success leaves the sum of the values sent |
| StrictGradients.EveryoneReceivesTheSum | cosmos_rl/utils/distributed.py:265-270 | All members of a group receive the same buffer: the sum of what the group sent |
| StrictGradients.AllOrNothing | cosmos_rl/utils/distributed.py:209-299 | Over all ranks, each expecting all: all accept or none does iff nothing is to be written, a gradient is missing somewhere, or the full collective completed on all ranks or on none; who accepts holds the sums of what all ranks sent, who does not is unchanged |
| StrictGradients.RankAcceptsIff | cosmos_rl/utils/distributed.py:209-299 | Any groups and expectations: a rank accepts iff its collective completed over as many ranks as it expects, none missing a gradient; then every gradient is its part of the group's sum, otherwise unchanged |
| StrictGradients.HalfWritten | cosmos_rl/utils/distributed.py:698-747 | The input that breaks all or nothing: one rank completes the collective, the other runs out of attempts |
| StrictGradients.SentIsSigned | cosmos_rl/utils/distributed.py:248-260 | What a rank sends ends with one for itself and a count that is zero iff it has all its gradients |
| StrictGradients.AcceptedIff | cosmos_rl/utils/distributed.py:271-284 | The sum of a group is accepted iff exactly the expected number took part and no rank of it missed a gradient |
| StrictGradients.StrictReduce | cosmos_rl/utils/distributed.py:209-299 | The method of one rank leaves in place the verdict and gradients that RankAcceptsIff and AllOrNothing are about |
| Checkpoints.SavedTidy | cosmos_rl/utils/checkpoint.py:775-815 | One save keeps the list free of duplicates and bounded, and deletes neither the directory just saved nor the best |
| Checkpoints.RetentionOnEveryRun | cosmos_rl/utils/checkpoint.py:775-852 | After any saves from nothing with max_keep >= 1: no duplicates, at most max(max_keep, 2), all on disk, the best among them |
| Checkpoints.BestIsBest | cosmos_rl/utils/checkpoint.py:817-852 | After any saves from nothing the best score is the least for a loss, else the greatest, of all scores given, and the best directory that of the first save that reached it |
| Checkpoints.SavedDeletes | cosmos_rl/utils/checkpoint.py:775-815 | A save deletes iff the list exceeds max_keep (not -1) and holds one that is neither just saved nor best: the oldest such one, so every older one is the best; nothing else leaves list or disk |
| Checkpoints.Retention.SaveCheck | cosmos_rl/utils/checkpoint.py:775-852 | The in-place update of list, disk and best |
| Checkpoints.MarkerImpliesComplete | cosmos_rl/utils/checkpoint.py:496-615 | At every point of first saves and rewrites, writes interleaved, failing or cut off: a marker means four complete files |
| Checkpoints.WholeSaveMarks | cosmos_rl/utils/checkpoint.py:496-615 | A save of which no write fails ends with the marker over four complete files and leaves other steps alone |
| Checkpoints.CheckPath | cosmos_rl/utils/checkpoint.py:139-174 | A checkpoint that passes has every saving rank's files complete |
| Placement.EveryReplicaPlacedOnce | cosmos_rl/launcher/utility.py:526-742 | Every part of every replica is placed exactly once, in order, on a whole node or on the GPUs asked for, and node i has worker index i |
| Placement.ReplicasGetTheirGpus | cosmos_rl/launcher/utility.py:640-742 | A replica never gets more GPUs than it asks for, and exactly as many iff it fits on one node or its size is a multiple of a node's |
| Placement.ShortExample | cosmos_rl/launcher/utility.py:640-645 | A replica of 12 GPUs on nodes of 8 gets 8 |
| Placement.CleanUnlessClash | cosmos_rl/launcher/utility.py:583-742 | Devices are disjoint and in range on every node iff no multi-node role follows roles that began and fit on the first node |
| Placement.ClashExample | cosmos_rl/launcher/utility.py:596-676 | A request whose plan gives a device out twice |
| Placement.NextFitBound | cosmos_rl/launcher/utility.py:692-742 | For replicas that fit on one node, two consecutive nodes use more than one node's GPUs |
| Placement.NodesManager.PlaceForRole | cosmos_rl/launcher/utility.py:583-742 | The placement loops of one role, in place |
| Placement.NodesManager.ReplicaPlacement | cosmos_rl/launcher/utility.py:498-573 | Policy, rollout and reference replicas in order, then the pending commands |

## Left out

- SFT and colocated modes, validation, and partial registration: replicas register whole, validation is off, and nothing forces a weight round.
- Redis, HTTP, clocks, heartbeats and the self-termination of the controller: publishing appends to a log, a reaped replica is an unregister event, arrival times are arbitrary.
- Rewards, losses, logging, tokenizer calls, payload-transport clean-up, profiling and `do_save`: they do not influence the protocol.
- The retry-count check after tagging and the on-policy notification flag.
- ControllerObject.Controller.TryTriggerTraining: with dispatch by rank and fewer queues than replicas the code raises in the middle of a dispatch and the model does not dispatch; `RankDispatch.RanksAreABijection` shows that orderly runs never get there. `Conservation.SamplesConserved` and the other results on every run speak of the code only up to such a point.
- The fields of the two status managers are grouped into records, and the sets, states and views of balancing and slicing are values rather than objects: no two of them share structure.
- The heap is modelled by what `heappop` returns, sorting by stable insertion sorts.
- Differencing.Pop: the array layout of `heapq` is not modelled.
- Python's floating-point numbers: gradients are abstract elements or reals, so finiteness checks and dtype casts are not modelled.
- `merge_continuous_dims` and the DTensor helpers of `dim_slice_info.py`.
- Deleting a checkpoint directory is one step; a deletion cut short may leave a marker beside missing files.
- Symlinks, S3 uploads and the best-score file.
- The `colocated_separated` placement mode, which reuses nodes.
