/** Placing replicas on GPU nodes, disaggregated mode: next-fit within a node, whole
    nodes for replicas larger than one. */
module Placement {
  import opened Arith
  import opened Types

  /** The launch command of one part of a replica on devices from..from+count of a node. */
  datatype Slot = Slot(role: nat, replica: nat, part: nat, from: nat, count: nat)

  datatype Node = Node(worker: nat, slots: seq<Slot>)

  datatype Plan = Plan(
    gpus: Positive,        // GPUs per node
    nodes: seq<Node>,
    worker: nat,           // global_worker_idx
    used: nat,             // gpu_idx
    pending: seq<Slot>)    // commands not yet given to a node

  /** How many replicas of a role and how many GPUs each. */
  datatype Role = Role(replicas: nat, size: nat)

  /** Gives the pending commands to the current node, opening it if need be, and moves on. */
  function Flush(p: Plan): Plan {
    var nodes := if p.worker < |p.nodes| then p.nodes[p.worker := p.nodes[p.worker].(slots := p.nodes[p.worker].slots + p.pending)]
                 else p.nodes + [Node(p.worker, p.pending)];
    p.(nodes := nodes, worker := p.worker + 1, pending := [])
  }

  /** A replica that fits on one node. */
  function Fit(p: Plan, role: nat, i: nat, size: nat): Plan {
    var q := if p.used + size > p.gpus then Flush(p).(used := 0) else p;
    q.(pending := q.pending + [Slot(role, i, 0, q.used, size)], used := q.used + size)
  }

  /** `k` whole nodes for one replica, starting at part `part`. */
  function Whole(p: Plan, role: nat, i: nat, part: nat, k: nat): Plan
    requires part <= k
    decreases k - part
  {
    if part == k then p
    else Whole(Flush(p.(pending := p.pending + [Slot(role, i, part, 0, p.gpus)])), role, i, part + 1, k)
  }

  function PlaceReplica(p: Plan, role: nat, i: nat, size: nat): Plan {
    if size > p.gpus then Whole(p, role, i, 0, size / p.gpus) else Fit(p, role, i, size)
  }

  /** Replicas i..n of a role. */
  function PlaceFrom(p: Plan, role: nat, r: Role, i: nat): Plan
    requires i <= r.replicas
    decreases r.replicas - i
  {
    if i == r.replicas then p else PlaceFrom(PlaceReplica(p, role, i, r.size), role, r, i + 1)
  }

  /** A role of multi-node replicas leaves a partly used node behind. */
  function Interrupt(p: Plan, size: nat): Plan {
    if p.nodes != [] && size > p.gpus && p.used > 0 then Flush(p).(used := 0) else p
  }

  /** replica_placement_for_role */
  function PlaceRole(p: Plan, role: nat, r: Role): Plan {
    if r.replicas == 0 then p else PlaceFrom(Interrupt(p, r.size), role, r, 0)
  }

  function PlaceRoles(p: Plan, roles: seq<Role>, done: nat): Plan
    requires done <= |roles|
    decreases |roles| - done
  {
    if done == |roles| then p else PlaceRoles(PlaceRole(p, done, roles[done]), roles, done + 1)
  }

  function Finish(p: Plan): Plan { if p.pending != [] then Flush(p) else p }

  function Empty(gpus: Positive): Plan { Plan(gpus, [], 0, 0, []) }

  /** replica_placement: roles in order, then what is left */
  function Place(gpus: Positive, roles: seq<Role>): Plan {
    Finish(PlaceRoles(Empty(gpus), roles, 0))
  }

  // ---- every replica once --------------------------------------------------

  function NodeSlots(nodes: seq<Node>): seq<Slot> {
    if nodes == [] then [] else NodeSlots(nodes[..|nodes| - 1]) + nodes[|nodes| - 1].slots
  }

  /** All commands given out so far, in order. */
  function AllSlots(p: Plan): seq<Slot> { NodeSlots(p.nodes) + p.pending }

  /** Which part of which replica of which role, and on how many GPUs. */
  datatype Share = Share(role: nat, replica: nat, part: nat, count: nat)

  function Id(s: Slot): Share { Share(s.role, s.replica, s.part, s.count) }

  function Ids(slots: seq<Slot>): (r: seq<Share>)
    ensures |r| == |slots| && forall k :: 0 <= k < |slots| ==> r[k] == Id(slots[k])
  {
    seq(|slots|, k requires 0 <= k < |slots| => Id(slots[k]))
  }

  /** The current node is the next one to open; nodes are numbered as they are opened. */
  predicate InOrder(p: Plan) {
    p.worker == |p.nodes| && forall k :: 0 <= k < |p.nodes| ==> p.nodes[k].worker == k
  }

  lemma FlushKeeps(p: Plan)
    requires InOrder(p)
    ensures InOrder(Flush(p)) && AllSlots(Flush(p)) == AllSlots(p) && Flush(p).gpus == p.gpus
    ensures Flush(p).nodes == p.nodes + [Node(p.worker, p.pending)]
  {
    var q := Flush(p);
    assert q.nodes[..|p.nodes|] == p.nodes;
  }

  lemma FitAppends(p: Plan, role: nat, i: nat, size: nat)
    requires InOrder(p)
    ensures InOrder(Fit(p, role, i, size)) && Fit(p, role, i, size).gpus == p.gpus
    ensures Ids(AllSlots(Fit(p, role, i, size))) == Ids(AllSlots(p)) + [Share(role, i, 0, size)]
  {
    FlushKeeps(p);
    var q := if p.used + size > p.gpus then Flush(p).(used := 0) else p;
    assert AllSlots(q) == AllSlots(p);
    var s := Slot(role, i, 0, q.used, size);
    assert AllSlots(Fit(p, role, i, size)) == AllSlots(q) + [s];
  }

  /** The parts part..k of a replica, a whole node each. */
  function Parts(gpus: nat, role: nat, i: nat, part: nat, k: nat): seq<Share>
    requires part <= k
    decreases k - part
  {
    if part == k then [] else [Share(role, i, part, gpus)] + Parts(gpus, role, i, part + 1, k)
  }

  lemma {:induction false} WholeAppends(p: Plan, role: nat, i: nat, part: nat, k: nat)
    requires InOrder(p) && part <= k
    ensures var q := Whole(p, role, i, part, k);
            && InOrder(q) && q.gpus == p.gpus && q.used == p.used
            && Ids(AllSlots(q)) == Ids(AllSlots(p)) + Parts(p.gpus, role, i, part, k)
    decreases k - part
  {
    hide AllSlots, InOrder, Flush;
    if part < k {
      var s := Slot(role, i, part, 0, p.gpus);
      var q := p.(pending := p.pending + [s]);
      PendingNext(p, s);
      FlushKeeps(q);
      assert Flush(q).used == p.used by { FlushKeepsUsed(q); }
      WholeAppends(Flush(q), role, i, part + 1, k);
    }
  }

  lemma PendingNext(p: Plan, s: Slot)
    ensures var q := p.(pending := p.pending + [s]);
            Ids(AllSlots(q)) == Ids(AllSlots(p)) + [Id(s)] && (InOrder(p) ==> InOrder(q))
  {
    assert AllSlots(p.(pending := p.pending + [s])) == AllSlots(p) + [s];
  }

  lemma FlushKeepsUsed(p: Plan)
    ensures Flush(p).used == p.used
  {
  }

  /** Parts of replicas i..n of a role. */
  function RoleParts(gpus: Positive, role: nat, r: Role, i: nat): seq<Share>
    requires i <= r.replicas
    decreases r.replicas - i
  {
    if i == r.replicas then []
    else (if r.size > gpus then Parts(gpus, role, i, 0, r.size / gpus) else [Share(role, i, 0, r.size)]) + RoleParts(gpus, role, r, i + 1)
  }

  lemma {:induction false} PlaceFromAppends(p: Plan, role: nat, r: Role, i: nat)
    requires InOrder(p) && i <= r.replicas
    ensures var q := PlaceFrom(p, role, r, i);
            InOrder(q) && q.gpus == p.gpus && Ids(AllSlots(q)) == Ids(AllSlots(p)) + RoleParts(p.gpus, role, r, i)
    decreases r.replicas - i
  {
    hide Whole, Fit, AllSlots, InOrder;
    if i < r.replicas {
      if r.size > p.gpus { WholeAppends(p, role, i, 0, r.size / p.gpus); } else { FitAppends(p, role, i, r.size); }
      PlaceFromAppends(PlaceReplica(p, role, i, r.size), role, r, i + 1);
    }
  }

  function Expected(gpus: Positive, roles: seq<Role>, done: nat): seq<Share>
    requires done <= |roles|
    decreases |roles| - done
  {
    if done == |roles| then []
    else RoleParts(gpus, done, roles[done], 0) + Expected(gpus, roles, done + 1)
  }

  lemma {:induction false} PlaceRolesAppends(p: Plan, roles: seq<Role>, done: nat)
    requires InOrder(p) && done <= |roles|
    ensures var q := PlaceRoles(p, roles, done);
            InOrder(q) && q.gpus == p.gpus && Ids(AllSlots(q)) == Ids(AllSlots(p)) + Expected(p.gpus, roles, done)
    decreases |roles| - done
  {
    hide AllSlots, InOrder, Flush, PlaceFrom;
    if done < |roles| {
      var r := roles[done];
      FlushKeeps(p);
      var q := Interrupt(p, r.size);
      assert InOrder(q) && AllSlots(q) == AllSlots(p) && q.gpus == p.gpus by { InterruptKeeps(p, r.size); }
      PlaceFromAppends(q, done, r, 0);
      PlaceRolesAppends(PlaceRole(p, done, r), roles, done + 1);
    }
  }

  lemma InterruptKeeps(p: Plan, size: nat)
    requires InOrder(p)
    ensures var q := Interrupt(p, size); InOrder(q) && AllSlots(q) == AllSlots(p) && q.gpus == p.gpus
  {
    FlushKeeps(p);
    assert AllSlots(Flush(p).(used := 0)) == AllSlots(Flush(p));
  }

  /** Every part of every replica of every role is placed exactly once and in order, on a whole
      node or on the GPUs of its replica, nothing else is, and node i belongs to worker i. */
  lemma {:induction false} EveryReplicaPlacedOnce(gpus: Positive, roles: seq<Role>)
    ensures var q := Place(gpus, roles);
            && q.pending == [] && Ids(NodeSlots(q.nodes)) == Expected(gpus, roles, 0)
            && forall k :: 0 <= k < |q.nodes| ==> q.nodes[k].worker == k
  {
    var p := Empty(gpus);
    PlaceRolesAppends(p, roles, 0);
    var q := PlaceRoles(p, roles, 0);
    FlushKeeps(q);
    assert AllSlots(Place(gpus, roles)) == AllSlots(q);
    assert NodeSlots(Place(gpus, roles).nodes) + [] == NodeSlots(Place(gpus, roles).nodes);
  }

  // ---- how many GPUs -------------------------------------------------------

  /** The GPUs that replica `i` of a role gets. */
  function Given(shares: seq<Share>, role: nat, i: nat): nat {
    if shares == [] then 0
    else (if shares[0].role == role && shares[0].replica == i then shares[0].count else 0) + Given(shares[1..], role, i)
  }

  lemma {:induction false} GivenConcat(a: seq<Share>, b: seq<Share>, role: nat, i: nat)
    ensures Given(a + b, role, i) == Given(a, role, i) + Given(b, role, i)
  {
    if a == [] { assert a + b == b; }
    else {
      assert (a + b)[1..] == a[1..] + b;
      GivenConcat(a[1..], b, role, i);
    }
  }

  lemma {:induction false} PartsGiven(gpus: nat, role: nat, i: nat, part: nat, k: nat, role': nat, i': nat)
    requires part <= k
    ensures Given(Parts(gpus, role, i, part, k), role', i') == if role == role' && i == i' then gpus * (k - part) else 0
    decreases k - part
  {
    if part < k {
      PartsGiven(gpus, role, i, part + 1, k, role', i');
      GivenConcat([Share(role, i, part, gpus)], Parts(gpus, role, i, part + 1, k), role', i');
      assert gpus * (k - part) == gpus + gpus * (k - (part + 1));
    }
  }

  /** Whole nodes only, for a replica that needs more than one. */
  function Granted(gpus: Positive, size: nat): nat { if size > gpus then gpus * (size / gpus) else size }

  lemma {:induction false} RolePartsGiven(gpus: Positive, role: nat, r: Role, i: nat, role': nat, j: nat)
    requires i <= r.replicas
    ensures Given(RoleParts(gpus, role, r, i), role', j) ==
            if role == role' && i <= j < r.replicas then Granted(gpus, r.size) else 0
    decreases r.replicas - i
  {
    if i < r.replicas {
      var first := if r.size > gpus then Parts(gpus, role, i, 0, r.size / gpus) else [Share(role, i, 0, r.size)];
      if r.size > gpus { PartsGiven(gpus, role, i, 0, r.size / gpus, role', j); }
      GivenConcat(first, RoleParts(gpus, role, r, i + 1), role', j);
      RolePartsGiven(gpus, role, r, i + 1, role', j);
    }
  }

  lemma {:induction false} ExpectedGiven(gpus: Positive, roles: seq<Role>, done: nat, role: nat, j: nat)
    requires done <= |roles|
    ensures Given(Expected(gpus, roles, done), role, j) ==
            if done <= role < |roles| && j < roles[role].replicas then Granted(gpus, roles[role].size) else 0
    decreases |roles| - done
  {
    if done < |roles| {
      GivenConcat(RoleParts(gpus, done, roles[done], 0), Expected(gpus, roles, done + 1), role, j);
      RolePartsGiven(gpus, done, roles[done], 0, role, j);
      ExpectedGiven(gpus, roles, done + 1, role, j);
    }
  }

  lemma GrantedIff(gpus: Positive, size: nat)
    ensures Granted(gpus, size) <= size
    ensures Granted(gpus, size) == size <==> size <= gpus || size % gpus == 0
  {
    assert size == gpus * (size / gpus) + size % gpus;
  }

  /** A replica of the plan gets exactly the GPUs it asks for if it fits on one node or fills
      whole nodes, and otherwise too few of them; nobody else gets any. */
  lemma {:induction false} ReplicasGetTheirGpus(gpus: Positive, roles: seq<Role>, role: nat, j: nat)
    ensures var given := Given(Ids(NodeSlots(Place(gpus, roles).nodes)), role, j);
            if role < |roles| && j < roles[role].replicas then
              && given <= roles[role].size
              && (given == roles[role].size <==> roles[role].size <= gpus || roles[role].size % gpus == 0)
            else given == 0
  {
    hide Place, Granted;
    EveryReplicaPlacedOnce(gpus, roles);
    ExpectedGiven(gpus, roles, 0, role, j);
    if role < |roles| { GrantedIff(gpus, roles[role].size); }
  }

  /** A replica of 12 GPUs on nodes of 8 is launched on one node. */
  lemma ShortExample()
    ensures Given(Ids(NodeSlots(Place(8, [Role(1, 12)]).nodes)), 0, 0) == 8
  {
    hide Place;
    EveryReplicaPlacedOnce(8, [Role(1, 12)]);
    ExpectedGiven(8, [Role(1, 12)], 0, 0, 0);
  }

  // ---- devices -------------------------------------------------------------

  predicate Uses(s: Slot, device: nat) { s.from <= device < s.from + s.count }

  /** No device of a node is given to two commands, and all devices exist. */
  ghost predicate Clean(slots: seq<Slot>, gpus: nat) {
    && (forall a :: 0 <= a < |slots| ==> slots[a].from + slots[a].count <= gpus)
    && (forall a, b, d: nat :: 0 <= a < b < |slots| ==> !(Uses(slots[a], d) && Uses(slots[b], d)))
  }

  ghost predicate AllClean(p: Plan) { forall k :: 0 <= k < |p.nodes| ==> Clean(p.nodes[k].slots, p.gpus) }

  /** Commands side by side, ending at or before device `top`. */
  predicate SideBySide(slots: seq<Slot>, top: nat) {
    && (forall a :: 0 <= a < |slots| ==> slots[a].from + slots[a].count <= top)
    && (forall a, b :: 0 <= a < b < |slots| ==> slots[a].from + slots[a].count <= slots[b].from)
  }

  lemma SideBySideClean(slots: seq<Slot>, top: nat, gpus: nat)
    requires SideBySide(slots, top) && top <= gpus
    ensures Clean(slots, gpus)
  {
  }

  /** The plan so far is clean, and the pending commands lie side by side up to `used`. */
  ghost predicate Fine(p: Plan) {
    InOrder(p) && AllClean(p) && SideBySide(p.pending, p.used) && p.used <= p.gpus
  }

  lemma FlushFine(p: Plan)
    requires Fine(p)
    ensures Fine(Flush(p).(used := 0)) && AllClean(Flush(p)) && Flush(p).used == p.used
  {
    hide Clean;
    FlushKeeps(p);
    SideBySideClean(p.pending, p.used, p.gpus);
  }

  lemma FitFine(p: Plan, role: nat, i: nat, size: nat)
    requires Fine(p) && size <= p.gpus
    ensures Fine(Fit(p, role, i, size))
  {
    hide Clean, Flush;
    FlushKeeps(p);
    if p.used + size > p.gpus { FlushFine(p); }
    var q := if p.used + size > p.gpus then Flush(p).(used := 0) else p;
    SideBySideNext(q.pending, q.used, Slot(role, i, 0, q.used, size));
  }

  lemma SideBySideNext(slots: seq<Slot>, used: nat, s: Slot)
    requires SideBySide(slots, used) && s.from == used
    ensures SideBySide(slots + [s], used + s.count)
  {
  }

  /** Whole nodes after an untouched node. */
  lemma {:induction false} WholeFine(p: Plan, role: nat, i: nat, part: nat, k: nat)
    requires Fine(p) && p.used == 0 && part <= k
    ensures Fine(Whole(p, role, i, part, k)) && Whole(p, role, i, part, k).used == 0
    decreases k - part
  {
    hide Clean, Flush;
    if part < k {
      var s := Slot(role, i, part, 0, p.gpus);
      var q := p.(pending := p.pending + [s], used := p.gpus);
      SideBySideNext(p.pending, 0, s);
      FlushFine(q);
      FlushUsed(p.(pending := p.pending + [s]), p.gpus);
      WholeFine(Flush(q).(used := 0), role, i, part + 1, k);
    }
  }

  lemma FlushUsed(p: Plan, used: nat)
    ensures Flush(p.(used := used)).(used := p.used) == Flush(p)
  {
  }

  /** What is placed, and whether it may clash, in terms of the request alone. */
  function Demand(roles: seq<Role>, upto: nat): nat
    requires upto <= |roles|
  {
    if upto == 0 then 0 else Demand(roles, upto - 1) + roles[upto - 1].replicas * roles[upto - 1].size
  }

  /** Role j has multi-node replicas while earlier roles have begun the first node and fit in it. */
  predicate ClashAt(gpus: Positive, roles: seq<Role>, j: nat)
    requires j < |roles|
  {
    && roles[j].replicas > 0 && roles[j].size > gpus
    && (forall i :: 0 <= i < j && roles[i].replicas > 0 ==> roles[i].size <= gpus)
    && 0 < Demand(roles, j) <= gpus
  }

  predicate Clashes(gpus: Positive, roles: seq<Role>) { exists j :: 0 <= j < |roles| && ClashAt(gpus, roles, j) }

  /** Before any multi-node role: the first node is unopened exactly while the demand fits in
      it, and then `used` is the demand. */
  predicate Tracks(p: Plan, demand: nat) {
    && (p.nodes == [] <==> demand <= p.gpus)
    && (p.nodes == [] ==> p.used == demand && Counted(p.pending) == p.used)
  }

  function Counted(slots: seq<Slot>): nat {
    if slots == [] then 0 else Counted(slots[..|slots| - 1]) + slots[|slots| - 1].count
  }

  lemma FitTracks(p: Plan, role: nat, i: nat, size: nat, demand: nat)
    requires Fine(p) && Tracks(p, demand) && size <= p.gpus
    ensures Tracks(Fit(p, role, i, size), demand + size)
  {
    hide Clean, AllClean;
    FlushKeeps(p);
    if p.nodes == [] && p.used + size <= p.gpus {
      var s := Slot(role, i, 0, p.used, size);
      assert (p.pending + [s])[..|p.pending|] == p.pending;
    }
  }

  /** What replicas i..n of a role ask for. */
  function Rest(r: Role, i: nat): nat
    requires i <= r.replicas
  {
    MulMonotone(r.size, 0, r.replicas - i);
    r.size * (r.replicas - i)
  }

  lemma {:induction false} PlaceFromTracks(p: Plan, role: nat, r: Role, i: nat, demand: nat)
    requires Fine(p) && Tracks(p, demand) && r.size <= p.gpus && i <= r.replicas
    ensures var q := PlaceFrom(p, role, r, i);
            Fine(q) && Tracks(q, demand + Rest(r, i)) && q.gpus == p.gpus
    decreases r.replicas - i
  {
    hide Clean, AllClean, Tracks, Fit;
    if i < r.replicas {
      FitFine(p, role, i, r.size);
      FitTracks(p, role, i, r.size, demand);
      FitAppends(p, role, i, r.size);
      PlaceFromTracks(Fit(p, role, i, r.size), role, r, i + 1, demand + r.size);
      assert Rest(r, i) == Rest(r, i + 1) + r.size;
    }
  }

  lemma {:induction false} PlaceFromFine(p: Plan, role: nat, r: Role, i: nat)
    requires Fine(p) && i <= r.replicas && (r.size > p.gpus ==> p.used == 0)
    ensures Fine(PlaceFrom(p, role, r, i)) && PlaceFrom(p, role, r, i).gpus == p.gpus
    ensures p.nodes != [] ==> PlaceFrom(p, role, r, i).nodes != []
    ensures i < r.replicas && r.size > p.gpus ==> PlaceFrom(p, role, r, i).nodes != []
    decreases r.replicas - i
  {
    hide Clean, AllClean, Fit, Whole;
    if i < r.replicas {
      if r.size > p.gpus {
        DivAtLeastOne(r.size, p.gpus);
        WholeFine(p, role, i, 0, r.size / p.gpus);
        WholeAppends(p, role, i, 0, r.size / p.gpus);
        WholeGrows(p, role, i, 0, r.size / p.gpus);
      } else {
        FitFine(p, role, i, r.size);
        FitAppends(p, role, i, r.size);
        FitGrows(p, role, i, r.size);
      }
      PlaceFromFine(PlaceReplica(p, role, i, r.size), role, r, i + 1);
    }
  }

  lemma DivAtLeastOne(a: nat, b: Positive)
    requires a > b
    ensures a / b >= 1
  {
    DivBounds(a, b);
    if a / b <= 0 { MulMonotone(b, a / b + 1, 1); }
  }

  /** Nodes are only added, and opened nodes do not change. */
  predicate Grown(p: Plan, q: Plan) { |p.nodes| <= |q.nodes| && q.nodes[..|p.nodes|] == p.nodes }

  lemma FlushGrows(p: Plan)
    requires InOrder(p)
    ensures Grown(p, Flush(p)) && |Flush(p).nodes| == |p.nodes| + 1
  {
    FlushKeeps(p);
  }

  lemma FitGrows(p: Plan, role: nat, i: nat, size: nat)
    requires InOrder(p)
    ensures Grown(p, Fit(p, role, i, size))
  {
    FlushGrows(p);
  }

  lemma {:induction false} WholeGrows(p: Plan, role: nat, i: nat, part: nat, k: nat)
    requires InOrder(p) && part <= k
    ensures Grown(p, Whole(p, role, i, part, k)) && |Whole(p, role, i, part, k).nodes| == |p.nodes| + (k - part)
    ensures part < k ==> Whole(p, role, i, part, k).nodes[|p.nodes|].slots == p.pending + [Slot(role, i, part, 0, p.gpus)]
    decreases k - part
  {
    if part < k {
      var q := p.(pending := p.pending + [Slot(role, i, part, 0, p.gpus)]);
      FlushKeeps(q);
      FlushGrows(q);
      WholeGrows(Flush(q), role, i, part + 1, k);
      var w := Whole(p, role, i, part, k);
      assert w.nodes[..|p.nodes|] == w.nodes[..|p.nodes| + 1][..|p.nodes|];
      assert w.nodes[|p.nodes|] == w.nodes[..|p.nodes| + 1][|p.nodes|];
    }
  }

  lemma InterruptFine(p: Plan, size: nat)
    requires Fine(p) && (p.nodes == [] && size > p.gpus ==> p.used == 0)
    ensures var q := Interrupt(p, size);
            Fine(q) && q.gpus == p.gpus && (size > p.gpus ==> q.used == 0) && (p.nodes != [] ==> q.nodes != [])
  {
    hide Clean, Flush;
    FlushFine(p);
    FlushKeeps(p);
  }

  lemma RoleFine(p: Plan, role: nat, r: Role)
    requires Fine(p) && (p.nodes == [] && r.size > p.gpus ==> p.used == 0)
    ensures var q := PlaceRole(p, role, r);
            && Fine(q) && q.gpus == p.gpus && (p.nodes != [] ==> q.nodes != [])
            && (r.replicas > 0 && r.size > p.gpus ==> q.nodes != [])
  {
    hide Fine, Interrupt, PlaceFrom;
    if r.replicas > 0 {
      InterruptFine(p, r.size);
      PlaceFromFine(Interrupt(p, r.size), role, r, 0);
    }
  }

  /** Once a node is open no role can clash. */
  lemma {:induction false} LaterRolesFine(p: Plan, roles: seq<Role>, done: nat)
    requires Fine(p) && p.nodes != [] && done <= |roles|
    ensures Fine(PlaceRoles(p, roles, done))
    decreases |roles| - done
  {
    hide Fine, PlaceRole;
    if done < |roles| {
      RoleFine(p, done, roles[done]);
      LaterRolesFine(PlaceRole(p, done, roles[done]), roles, done + 1);
    }
  }

  /** No role before `done` has multi-node replicas. */
  predicate SmallSoFar(gpus: Positive, roles: seq<Role>, done: nat)
    requires done <= |roles|
  {
    forall i :: 0 <= i < done && roles[i].replicas > 0 ==> roles[i].size <= gpus
  }

  lemma SmallRole(p: Plan, role: nat, r: Role, demand: nat)
    requires Fine(p) && Tracks(p, demand) && (r.replicas > 0 ==> r.size <= p.gpus)
    ensures var q := PlaceRole(p, role, r);
            Fine(q) && Tracks(q, demand + r.replicas * r.size) && q.gpus == p.gpus
  {
    hide Fine, Tracks, PlaceFrom;
    if r.replicas > 0 { PlaceFromTracks(p, role, r, 0, demand); }
  }

  lemma {:induction false} NoClashFine(p: Plan, roles: seq<Role>, done: nat)
    requires done <= |roles| && Fine(p) && Tracks(p, Demand(roles, done)) && SmallSoFar(p.gpus, roles, done)
    requires !Clashes(p.gpus, roles)
    ensures Fine(PlaceRoles(p, roles, done))
    decreases |roles| - done
  {
    hide Fine, PlaceRole;
    if done < |roles| {
      var r := roles[done];
      if r.replicas > 0 && r.size > p.gpus {
        assert !ClashAt(p.gpus, roles, done);
        RoleFine(p, done, r);
        LaterRolesFine(PlaceRole(p, done, r), roles, done + 1);
      } else {
        SmallRole(p, done, r, Demand(roles, done));
        NoClashFine(PlaceRole(p, done, r), roles, done + 1);
      }
    }
  }

  lemma {:induction false} CountedSome(slots: seq<Slot>)
    requires Counted(slots) > 0
    ensures exists a :: 0 <= a < |slots| && slots[a].count > 0
  {
    var m := |slots| - 1;
    if slots[m].count == 0 {
      CountedSome(slots[..m]);
      var a :| 0 <= a < |slots[..m]| && slots[..m][a].count > 0;
      assert slots[a].count > 0;
    }
  }

  /** A whole-node command on top of commands that use a device. */
  lemma {:induction false} OverlappingNotClean(slots: seq<Slot>, s: Slot, gpus: nat)
    requires Counted(slots) > 0 && s.from == 0 && s.count == gpus
    ensures !Clean(slots + [s], gpus)
  {
    CountedSome(slots);
    var a :| 0 <= a < |slots| && slots[a].count > 0;
    var all := slots + [s];
    if all[a].from + all[a].count <= gpus {
      var d := all[a].from;
      assert Uses(all[a], d) && Uses(all[|slots|], d);
    }
  }

  lemma {:induction false} RolesGrow(p: Plan, roles: seq<Role>, done: nat)
    requires InOrder(p) && done <= |roles|
    ensures Grown(p, PlaceRoles(p, roles, done)) && InOrder(PlaceRoles(p, roles, done))
    decreases |roles| - done
  {
    hide InOrder, PlaceRole;
    if done < |roles| {
      RoleGrows(p, done, roles[done]);
      RolesGrow(PlaceRole(p, done, roles[done]), roles, done + 1);
      GrownTransitive(p, PlaceRole(p, done, roles[done]), PlaceRoles(p, roles, done));
    }
  }

  lemma GrownTransitive(p: Plan, q: Plan, r: Plan)
    requires Grown(p, q) && Grown(q, r)
    ensures Grown(p, r)
  {
    assert r.nodes[..|p.nodes|] == r.nodes[..|q.nodes|][..|p.nodes|];
  }

  lemma RoleGrows(p: Plan, role: nat, r: Role)
    requires InOrder(p)
    ensures Grown(p, PlaceRole(p, role, r)) && InOrder(PlaceRole(p, role, r))
    ensures PlaceRole(p, role, r).gpus == p.gpus
  {
    hide InOrder, PlaceFrom, Flush;
    FlushGrows(p);
    InterruptKeeps(p, r.size);
    var q := Interrupt(p, r.size);
    if r.replicas > 0 {
      FromGrows(q, role, r, 0);
      GrownTransitive(p, q, PlaceFrom(q, role, r, 0));
    }
  }

  lemma {:induction false} FromGrows(p: Plan, role: nat, r: Role, i: nat)
    requires InOrder(p) && i <= r.replicas
    ensures Grown(p, PlaceFrom(p, role, r, i)) && InOrder(PlaceFrom(p, role, r, i)) && PlaceFrom(p, role, r, i).gpus == p.gpus
    decreases r.replicas - i
  {
    hide InOrder, Fit, Whole, AllSlots;
    if i < r.replicas {
      if r.size > p.gpus {
        WholeGrows(p, role, i, 0, r.size / p.gpus);
        WholeAppends(p, role, i, 0, r.size / p.gpus);
      } else {
        FitGrows(p, role, i, r.size);
        FitAppends(p, role, i, r.size);
      }
      var q := PlaceReplica(p, role, i, r.size);
      FromGrows(q, role, r, i + 1);
      GrownTransitive(p, q, PlaceFrom(p, role, r, i));
    }
  }

  /** At a clash the first node gets a whole-node command on devices already given away. */
  lemma ClashingRole(p: Plan, role: nat, r: Role)
    requires InOrder(p) && p.nodes == [] && Counted(p.pending) > 0 && r.replicas > 0 && r.size > p.gpus
    ensures var q := PlaceRole(p, role, r); q.nodes != [] && !Clean(q.nodes[0].slots, p.gpus)
  {
    hide Clean, Whole, PlaceFrom;
    var k := r.size / p.gpus;
    DivAtLeastOne(r.size, p.gpus);
    var w := Whole(p, role, 0, 0, k);
    WholeGrows(p, role, 0, 0, k);
    WholeAppends(p, role, 0, 0, k);
    OverlappingNotClean(p.pending, Slot(role, 0, 0, 0, p.gpus), p.gpus);
    FromGrows(w, role, r, 1);
    assert PlaceRole(p, role, r) == PlaceFrom(w, role, r, 1) by { FirstReplica(p, role, r); }
    var q := PlaceFrom(w, role, r, 1);
    assert q.nodes[0] == q.nodes[..|w.nodes|][0];
  }

  lemma {:induction false} FirstReplica(p: Plan, role: nat, r: Role)
    requires p.nodes == [] && r.replicas > 0 && r.size > p.gpus
    ensures PlaceRole(p, role, r) == PlaceFrom(Whole(p, role, 0, 0, r.size / p.gpus), role, r, 1)
  {
  }

  lemma {:induction false} ClashDirty(p: Plan, roles: seq<Role>, done: nat, j: nat)
    requires done <= j < |roles| && Fine(p) && Tracks(p, Demand(roles, done)) && ClashAt(p.gpus, roles, j)
    ensures var q := PlaceRoles(p, roles, done); InOrder(q) && q.nodes != [] && !Clean(q.nodes[0].slots, p.gpus)
    decreases j - done
  {
    hide Clean, PlaceRole, AllClean;
    var r := roles[done];
    if done < j {
      SmallRole(p, done, r, Demand(roles, done));
      ClashDirty(PlaceRole(p, done, r), roles, done + 1, j);
    } else {
      ClashingRole(p, done, r);
      RoleGrows(p, done, r);
      var q := PlaceRole(p, done, r);
      RolesGrow(q, roles, done + 1);
      var z := PlaceRoles(q, roles, done + 1);
      assert z.nodes[0] == z.nodes[..|q.nodes|][0];
    }
  }

  /** Devices are disjoint and in range on every node exactly when no multi-node role follows
      roles that have begun, and fit on, the first node. */
  lemma CleanUnlessClash(gpus: Positive, roles: seq<Role>)
    ensures AllClean(Place(gpus, roles)) <==> !Clashes(gpus, roles)
  {
    hide Clean, PlaceRoles, Fine;
    var p := Empty(gpus);
    EmptyFine(gpus);
    var q := PlaceRoles(p, roles, 0);
    PlaceRolesAppends(p, roles, 0);
    if Clashes(gpus, roles) {
      var j :| 0 <= j < |roles| && ClashAt(gpus, roles, j);
      ClashDirty(p, roles, 0, j);
      FlushGrows(q);
      var z := Place(gpus, roles);
      assert z.nodes[0] == z.nodes[..|q.nodes|][0];
    } else {
      NoClashFine(p, roles, 0);
      FinishedClean(q);
    }
  }

  lemma EmptyFine(gpus: Positive)
    ensures Fine(Empty(gpus)) && Tracks(Empty(gpus), 0)
  {
  }

  lemma FinishedClean(p: Plan)
    requires Fine(p)
    ensures AllClean(Finish(p)) && Finish(p).gpus == p.gpus
  {
    hide Clean, Flush;
    FlushFine(p);
    FlushKeeps(p);
  }

  /** One policy replica on a single GPU before a two-node rollout replica: GPU 0 of the first
      node is given out twice. */
  lemma ClashExample()
    ensures !AllClean(Place(8, [Role(1, 1), Role(1, 16)]))
  {
    var roles := [Role(1, 1), Role(1, 16)];
    assert Demand(roles, 0) == 0;
    assert Demand(roles, 1) == 1;
    assert ClashAt(8, roles, 1);
    CleanUnlessClash(8, roles);
  }

  // ---- next fit ------------------------------------------------------------

  /** Every node was closed because the next replica did not fit on it. */
  predicate NextFit(p: Plan) {
    && Counted(p.pending) == p.used <= p.gpus
    && (p.nodes != [] ==> p.pending != [] && Counted(p.nodes[|p.nodes| - 1].slots) + p.pending[0].count > p.gpus)
    && (forall k :: 0 < k < |p.nodes| ==> Snug(p.nodes[k - 1], p.nodes[k], p.gpus))
  }

  /** The first replica of `b` did not fit on `a`. */
  predicate Snug(a: Node, b: Node, gpus: nat) {
    b.slots != [] && Counted(a.slots) + b.slots[0].count > gpus
  }

  lemma {:induction false} CountedNext(slots: seq<Slot>, s: Slot)
    ensures Counted(slots + [s]) == Counted(slots) + s.count
  {
    assert (slots + [s])[..|slots|] == slots;
  }

  lemma FitNextFit(p: Plan, role: nat, i: nat, size: nat)
    requires InOrder(p) && NextFit(p) && size <= p.gpus
    ensures NextFit(Fit(p, role, i, size))
  {
    hide Counted, Flush, NextFit;
    if p.used + size > p.gpus { MoveOn(p, Slot(role, i, 0, 0, size)); }
    else { StayOn(p, Slot(role, i, 0, p.used, size)); }
  }

  /** The slot does not fit: the node is closed and the slot is the first of the next one. */
  lemma MoveOn(p: Plan, s: Slot)
    requires InOrder(p) && NextFit(p) && p.used + s.count > p.gpus && s.count <= p.gpus
    ensures var q := Flush(p).(used := 0); NextFit(q.(pending := q.pending + [s], used := s.count))
  {
    hide Counted, Flush, Snug;
    FlushKeeps(p);
    FlushEmpties(p);
    CountedNext([], s);
    NoneCounted();
    assert [] + [s] == [s];
    if p.nodes != [] { SnugLast(p); }
  }

  lemma SnugLast(p: Plan)
    requires NextFit(p) && p.nodes != []
    ensures Snug(p.nodes[|p.nodes| - 1], Node(p.worker, p.pending), p.gpus)
  {
  }

  lemma StayOn(p: Plan, s: Slot)
    requires NextFit(p) && p.used + s.count <= p.gpus
    ensures NextFit(p.(pending := p.pending + [s], used := p.used + s.count))
  {
    hide Counted, Snug;
    CountedNext(p.pending, s);
  }

  lemma NoneCounted()
    ensures Counted([]) == 0
  {
  }

  lemma FlushEmpties(p: Plan)
    ensures Flush(p).pending == []
  {
  }

  lemma {:induction false} FromNextFit(p: Plan, role: nat, r: Role, i: nat)
    requires InOrder(p) && NextFit(p) && r.size <= p.gpus && i <= r.replicas
    ensures var q := PlaceFrom(p, role, r, i); InOrder(q) && NextFit(q) && q.gpus == p.gpus
    decreases r.replicas - i
  {
    hide InOrder, NextFit, Fit, AllSlots;
    if i < r.replicas {
      FitNextFit(p, role, i, r.size);
      FitAppends(p, role, i, r.size);
      FromNextFit(Fit(p, role, i, r.size), role, r, i + 1);
    }
  }

  lemma {:induction false} RolesNextFit(p: Plan, roles: seq<Role>, done: nat)
    requires InOrder(p) && NextFit(p) && done <= |roles| && forall j :: 0 <= j < |roles| ==> roles[j].size <= p.gpus
    ensures var q := PlaceRoles(p, roles, done); InOrder(q) && NextFit(q) && q.gpus == p.gpus
    decreases |roles| - done
  {
    hide InOrder, NextFit, PlaceFrom;
    if done < |roles| {
      if roles[done].replicas > 0 { FromNextFit(p, done, roles[done], 0); }
      RolesNextFit(PlaceRole(p, done, roles[done]), roles, done + 1);
    }
  }

  lemma {:induction false} CountedFirst(slots: seq<Slot>)
    requires slots != []
    ensures Counted(slots) >= slots[0].count
  {
    if |slots| > 1 { CountedFirst(slots[..|slots| - 1]); }
  }

  /** Replicas that fit on one node: any two consecutive nodes together use more GPUs than one
      node has, so no plan uses more than twice the nodes that are needed. */
  lemma NextFitBound(gpus: Positive, roles: seq<Role>, k: nat)
    requires forall j :: 0 <= j < |roles| ==> roles[j].size <= gpus
    requires k + 1 < |Place(gpus, roles).nodes|
    ensures var nodes := Place(gpus, roles).nodes; Counted(nodes[k].slots) + Counted(nodes[k + 1].slots) > gpus
  {
    hide PlaceRoles;
    var p := Empty(gpus);
    RolesNextFit(p, roles, 0);
    var q := PlaceRoles(p, roles, 0);
    FlushKeeps(q);
    var nodes := Place(gpus, roles).nodes;
    assert Snug(nodes[(k + 1) - 1], nodes[k + 1], gpus);
    CountedFirst(nodes[k + 1].slots);
  }

  // ---- the manager ---------------------------------------------------------

  class NodesManager {
    const gpus: Positive
    var nodes: seq<Node>
    var worker: nat
    var used: nat
    var pending: seq<Slot>

    function View(): Plan
      reads this
    {
      Plan(gpus, nodes, worker, used, pending)
    }

    constructor (gpus: Positive)
      ensures View() == Empty(gpus)
    {
      this.gpus := gpus;
      nodes := [];
      worker := 0;
      used := 0;
      pending := [];
    }

    /** creating_or_using_node and extend_commands, then on to the next worker */
    method FlushPending()
      modifies `nodes, `worker, `pending
      ensures View() == Flush(old(View()))
    {
      if worker >= |nodes| { nodes := nodes + [Node(worker, pending)]; }
      else { nodes := nodes[worker := nodes[worker].(slots := nodes[worker].slots + pending)]; }
      worker := worker + 1;
      pending := [];
    }

    method PlaceForRole(role: nat, r: Role)
      modifies `nodes, `worker, `used, `pending
      ensures View() == PlaceRole(old(View()), role, r)
    {
      hide Flush;
      if r.replicas == 0 { return; }
      if nodes != [] && r.size > gpus && used > 0 {
        FlushPending();
        used := 0;
      }
      ghost var start := View();
      for i := 0 to r.replicas
        invariant PlaceFrom(View(), role, r, i) == PlaceFrom(start, role, r, 0)
      {
        ghost var before := View();
        if r.size > gpus {
          var needed := r.size / gpus;
          for part := 0 to needed
            invariant Whole(View(), role, i, part, needed) == Whole(before, role, i, 0, needed)
          {
            pending := pending + [Slot(role, i, part, 0, gpus)];
            FlushPending();
          }
        } else {
          if used + r.size > gpus {
            FlushPending();
            used := 0;
          }
          pending := pending + [Slot(role, i, 0, used, r.size)];
          used := used + r.size;
        }
        assert View() == PlaceReplica(before, role, i, r.size);
      }
    }

    /** replica_placement: policy, rollout and reference replicas, in this order */
    method ReplicaPlacement(policy: Role, rollout: Role, reference: Role)
      requires View() == Empty(gpus)
      modifies `nodes, `worker, `used, `pending
      ensures View() == Place(gpus, [policy, rollout, reference])
    {
      hide PlaceRole, Flush;
      ghost var roles := [policy, rollout, reference];
      PlaceForRole(0, policy);
      PlaceForRole(1, rollout);
      PlaceForRole(2, reference);
      assert View() == PlaceRoles(View(), roles, 3);
      assert PlaceRoles(Empty(gpus), roles, 0) == View() by { ThreeRoles(Empty(gpus), roles); }
      if pending != [] { FlushPending(); }
    }
  }

  lemma {:induction false} ThreeRoles(p: Plan, roles: seq<Role>)
    requires |roles| == 3
    ensures PlaceRoles(p, roles, 0) == PlaceRole(PlaceRole(PlaceRole(p, 0, roles[0]), 1, roles[1]), 2, roles[2])
  {
    hide PlaceRole;
    var a := PlaceRole(p, 0, roles[0]);
    var b := PlaceRole(a, 1, roles[1]);
    assert PlaceRoles(p, roles, 0) == PlaceRoles(a, roles, 1);
    assert PlaceRoles(a, roles, 1) == PlaceRoles(b, roles, 2);
    assert PlaceRoles(b, roles, 2) == PlaceRoles(PlaceRole(b, 2, roles[2]), roles, 3);
  }
}
