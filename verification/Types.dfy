/** The vocabulary of the RL controller: replicas, rollouts, commands and the
    log of everything the controller hands to the outside. */
module Types {
  datatype Name = Name(text: string)

  datatype Option<+T> = None | Some(value: T)

  /** A finished generation: `version` is the weight version stamped on it,
      `promptIdx` the index of its prompt, `id` stands for the payload. */
  datatype Rollout = Rollout(id: nat, promptIdx: nat, version: int)

  datatype PolicyStatus = Uninitialized | Ready | Running | Reduced

  /** A replica whose atoms have all arrived.  `loaded` is
      weights_loaded_in_view_of_command; `meshRank` is -1 outside the mesh;
      `reporters` are the ranks expected to report the end of a rollout replica. */
  datatype Replica = Replica(
    name: Name, startTime: int, loaded: bool, meshRank: int, ended: bool, reporters: set<int>)

  datatype Command =
    | WeightResume
    | BuildMesh(members: seq<Name>)  // rank = position
    | PolicyToPolicy(src: Name, dsts: seq<Name>)
    | PolicyToRollout(src: Name, dst: Name, weightStep: Option<int>, partial: bool)
    | RolloutToRollout(src: Name, dsts: seq<Name>, weightStep: Option<int>, partial: bool)
    | DataFetch(items: nat, step: int, total: int)
    | TrainingComplete(step: int, total: int, finalStep: int)
    | Stop

  /** What crossed the controller's boundary, in order. */
  datatype Entry =
    | PolicyJoined(who: Name)
    | RolloutJoined(who: Name)
    | Sent(to: Name, cmd: Command)               // publish_command
    | Fed(to: Name, rollout: Rollout, step: int) // publish_rollout, for training step `step`
    | Acked(acker: Name, ackStep: int, ackTotal: int)
    | Reported(version: int)                     // a posted rollout's weight version was read

  type Positive = n: nat | n >= 1 witness 1

  /** The settings the protocol reads; the configuration validators keep the
      batch size, the generation count and the interval positive. */
  datatype Config = Config(
    batch: Positive,         // train_batch_per_replica
    generations: Positive,        // rollout.n_generation
    allowed: nat,            // allowed_outdated_steps
    maxSteps: Option<int>,   // max_num_steps
    syncInterval: Positive,  // sync_weight_interval
    coalesce: bool,          // coalesce_weight_sync
    onPolicy: bool,
    dapo: bool,              // variant == "dapo"
    retries: int,            // max_retry_for_on_policy
    rankInMesh: bool,        // data_dispatch_as_rank_in_mesh
    staleFetch: nat,         // outdated_rollout_fetch_batch_size
    maxInflight: Option<nat> // max_inflight_steps
  )
}
