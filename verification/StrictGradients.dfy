/** Strict gradient reduction: one packed buffer whose last two elements count the
    participants and the missing gradients. */
module StrictGradients {
  import opened Types
  import Gradients

  // ---- sums across ranks ---------------------------------------------------

  function Add(a: seq<real>, b: seq<real>): (c: seq<real>)
    requires |a| == |b|
    ensures |c| == |a| && forall j :: 0 <= j < |a| ==> c[j] == a[j] + b[j]
  {
    seq(|a|, j requires 0 <= j < |a| => a[j] + b[j])
  }

  predicate Aligned(sends: seq<seq<real>>, n: nat) { forall w :: 0 <= w < |sends| ==> |sends[w]| == n }

  /** Element j summed over the ranks below `upto` that belong to the group. */
  function SumUpTo(sends: seq<seq<real>>, n: nat, group: set<nat>, j: nat, upto: nat): real
    requires Aligned(sends, n) && j < n && upto <= |sends|
  {
    if upto == 0 then 0.0
    else SumUpTo(sends, n, group, j, upto - 1) + (if upto - 1 in group then sends[upto - 1][j] else 0.0)
  }

  function SumAt(sends: seq<seq<real>>, n: nat, group: set<nat>, j: nat): real
    requires Aligned(sends, n) && j < n
  {
    SumUpTo(sends, n, group, j, |sends|)
  }

  /** The sum of what the ranks of a group sent. */
  function Sum(sends: seq<seq<real>>, n: nat, group: set<nat>): (r: seq<real>)
    requires Aligned(sends, n)
    ensures |r| == n && forall j :: 0 <= j < n ==> r[j] == SumAt(sends, n, group, j)
  {
    seq(n, j requires 0 <= j < n => SumAt(sends, n, group, j))
  }

  /** Ranks that exist. */
  predicate Among(group: set<nat>, ranks: nat) { forall w :: w in group ==> w < ranks }

  function Everyone(ranks: nat): (group: set<nat>)
    ensures Among(group, ranks) && |group| == ranks
    ensures forall w: nat :: w in group <==> w < ranks
  {
    if ranks == 0 then {} else Everyone(ranks - 1) + {ranks - 1}
  }

  lemma {:induction false} SumWithoutUpTo(sends: seq<seq<real>>, n: nat, group: set<nat>, w: nat, j: nat, upto: nat)
    requires Aligned(sends, n) && w in group && w < |sends| && j < n && upto <= |sends|
    ensures SumUpTo(sends, n, group, j, upto) ==
            SumUpTo(sends, n, group - {w}, j, upto) + if w < upto then sends[w][j] else 0.0
  {
    if upto > 0 { SumWithoutUpTo(sends, n, group, w, j, upto - 1); }
  }

  /** Every member of a group receives the same buffer: the sum of what all members sent. */
  lemma EveryoneReceivesTheSum(sends: seq<seq<real>>, n: nat, group: set<nat>, w: nat)
    requires Aligned(sends, n) && w in group && w < |sends|
    ensures Add(sends[w], Sum(sends, n, group - {w})) == Sum(sends, n, group)
  {
    var a, b := Add(sends[w], Sum(sends, n, group - {w})), Sum(sends, n, group);
    forall j | 0 <= j < n ensures a[j] == b[j] { SumWithoutUpTo(sends, n, group, w, j, |sends|); }
  }

  lemma {:induction false} NobodyUpTo(sends: seq<seq<real>>, n: nat, j: nat, upto: nat)
    requires Aligned(sends, n) && j < n && upto <= |sends|
    ensures SumUpTo(sends, n, {}, j, upto) == 0.0
  {
    if upto > 0 { NobodyUpTo(sends, n, j, upto - 1); }
  }

  /** A rank on its own keeps what it sent. */
  lemma AloneKeeps(sends: seq<seq<real>>, n: nat, w: nat)
    requires Aligned(sends, n) && w < |sends|
    ensures Sum(sends, n, {w}) == sends[w]
  {
    EveryoneReceivesTheSum(sends, n, {w}, w);
    assert {w} - {w} == {};
    var a := Add(sends[w], Sum(sends, n, {}));
    forall j | 0 <= j < n ensures a[j] == sends[w][j] { NobodyUpTo(sends, n, j, |sends|); }
  }

  // ---- the collective with retries -----------------------------------------

  /** One attempt of the collective: it fails, leaving anything in the receive buffer, or it
      adds up what the other participants sent. */
  datatype Attempt = Failed(scribble: seq<real>) | Completed(others: seq<real>)

  predicate Fitting(attempts: seq<Attempt>, n: nat) {
    forall k :: 0 <= k < |attempts| ==>
      if attempts[k].Failed? then |attempts[k].scribble| == n else |attempts[k].others| == n
  }

  /** What the others contribute to the first attempt that completes. */
  function FirstCompleted(attempts: seq<Attempt>): Option<seq<real>> {
    if attempts == [] then None
    else if attempts[0].Completed? then Some(attempts[0].others)
    else FirstCompleted(attempts[1..])
  }

  lemma {:induction false} FirstCompletedSkips(attempts: seq<Attempt>, k: nat)
    requires k <= |attempts| && forall i :: 0 <= i < k ==> attempts[i].Failed?
    ensures FirstCompleted(attempts) == FirstCompleted(attempts[k..])
  {
    if k > 0 {
      FirstCompletedSkips(attempts[1..], k - 1);
      assert attempts[1..][k - 1..] == attempts[k..];
    } else { assert attempts[0..] == attempts; }
  }

  /** __do_nccl_op_with_retry around allreduce, `attempts` being those allowed: however often the
      receive buffer was scribbled on, success leaves the sum of the values sent. */
  method AllReduceWithRetry(send: seq<real>, recv: array<real>, alone: bool, attempts: seq<Attempt>) returns (ok: bool)
    requires recv.Length == |send| && Fitting(attempts, |send|)
    modifies recv
    ensures ok == (alone || FirstCompleted(attempts).Some?)
    ensures ok && alone ==> recv[..] == old(recv[..])
    ensures ok && !alone ==> |FirstCompleted(attempts).value| == |send|
                             && recv[..] == Add(send, FirstCompleted(attempts).value)
  {
    if alone { return true; }
    for k := 0 to |attempts|
      invariant forall i :: 0 <= i < k ==> attempts[i].Failed?
    {
      FirstCompletedSkips(attempts, k);
      match attempts[k] {
        case Failed(scribble) => Gradients.CopyInto(recv, scribble);
        case Completed(others) =>
          Gradients.CopyInto(recv, Add(send, others));
          return true;
      }
    }
    FirstCompletedSkips(attempts, |attempts|);
    return false;
  }

  // ---- the verdict ---------------------------------------------------------

  datatype Verdict = Accepted | NoParameters | BadExpectation | NoCollective | WrongParticipants | MissingGradients

  /** The checks on the reduced buffer. */
  function Judge(buffer: seq<real>, expected: int): Verdict
    requires |buffer| >= 2
  {
    if buffer[|buffer| - 2] != expected as real then WrongParticipants
    else if buffer[|buffer| - 1] != 0.0 then MissingGradients
    else Accepted
  }

  /** A send buffer ends with 1 for its participant and its number of missing gradients. */
  predicate Signed(send: seq<real>, n: nat) {
    |send| == n >= 2 && send[n - 2] == 1.0 && send[n - 1] >= 0.0
  }

  predicate AllSigned(sends: seq<seq<real>>, n: nat) { forall w :: 0 <= w < |sends| ==> Signed(sends[w], n) }

  /** No rank of the group misses a gradient. */
  predicate Complete(sends: seq<seq<real>>, n: nat, group: set<nat>)
    requires n > 0 && Aligned(sends, n)
  {
    forall w :: w in group && w < |sends| ==> sends[w][n - 1] == 0.0
  }

  function Below(group: set<nat>, upto: nat): set<nat> { set w | w in group && w < upto }

  lemma {:induction false} CountsUpTo(sends: seq<seq<real>>, n: nat, group: set<nat>, upto: nat)
    requires n >= 2 && AllSigned(sends, n) && Aligned(sends, n) && upto <= |sends|
    ensures SumUpTo(sends, n, group, n - 2, upto) == |Below(group, upto)| as real
    ensures SumUpTo(sends, n, group, n - 1, upto) >= 0.0
    ensures SumUpTo(sends, n, group, n - 1, upto) == 0.0 <==> forall w :: w in group && w < upto ==> sends[w][n - 1] == 0.0
  {
    if upto > 0 {
      CountsUpTo(sends, n, group, upto - 1);
      assert Signed(sends[upto - 1], n);
      if upto - 1 in group { assert Below(group, upto) == Below(group, upto - 1) + {upto - 1}; }
      else { assert Below(group, upto) == Below(group, upto - 1); }
    } else { assert Below(group, 0) == {}; }
  }

  /** The reduction of a group is accepted exactly when it has the expected number of ranks and
      none of them misses a gradient. */
  lemma AcceptedIff(sends: seq<seq<real>>, n: nat, group: set<nat>, expected: int)
    requires n >= 2 && AllSigned(sends, n) && Among(group, |sends|)
    ensures Aligned(sends, n)
    ensures Judge(Sum(sends, n, group), expected) == Accepted <==> |group| == expected && Complete(sends, n, group)
  {
    hide SumUpTo;
    CountsUpTo(sends, n, group, |sends|);
    assert Below(group, |sends|) == group;
  }

  // ---- one rank ------------------------------------------------------------

  /** The gradients of a rank by value, None where a parameter has none. */
  type Values = seq<Option<seq<real>>>

  predicate Sized(mine: Values, sizes: seq<nat>) {
    |mine| == |sizes| && forall i :: 0 <= i < |mine| && mine[i].Some? ==> |mine[i].value| == sizes[i]
  }

  function Missing(mine: Values): nat {
    if mine == [] then 0 else Missing(mine[..|mine| - 1]) + (if mine[|mine| - 1].None? then 1 else 0)
  }

  function Zeros(n: nat): (r: seq<real>)
    ensures |r| == n
  {
    seq(n, j => 0.0)
  }

  /** The first gradients end to end, zeros for missing ones. */
  function Flat(mine: Values, sizes: seq<nat>, upto: nat): (r: seq<real>)
    requires Sized(mine, sizes) && upto <= |mine|
    ensures |r| == Offset(sizes, upto)
  {
    if upto == 0 then []
    else Flat(mine, sizes, upto - 1) + if mine[upto - 1].Some? then mine[upto - 1].value else Zeros(sizes[upto - 1])
  }

  function Offset(sizes: seq<nat>, i: nat): nat
    requires i <= |sizes|
  {
    if i == 0 then 0 else Offset(sizes, i - 1) + sizes[i - 1]
  }

  /** The length of the buffer sent. */
  function Width(sizes: seq<nat>): nat { Offset(sizes, |sizes|) + 2 }

  /** What a rank sends: its gradients end to end, then 1 and its number of missing ones. */
  function Sent(mine: Values, sizes: seq<nat>): (r: seq<real>)
    requires Sized(mine, sizes)
    ensures |r| == Width(sizes)
  {
    Flat(mine, sizes, |mine|) + [1.0, Missing(mine) as real]
  }

  /** The last two elements count this rank and its missing gradients. */
  lemma {:induction false} SentIsSigned(mine: Values, sizes: seq<nat>)
    requires Sized(mine, sizes)
    ensures Signed(Sent(mine, sizes), Width(sizes))
    ensures Sent(mine, sizes)[Width(sizes) - 1] == 0.0 <==> forall i :: 0 <= i < |mine| ==> mine[i].Some?
  {
    NoneMissing(mine);
  }

  lemma {:induction false} NoneMissing(mine: Values)
    ensures Missing(mine) == 0 <==> forall i :: 0 <= i < |mine| ==> mine[i].Some?
  {
    if mine != [] {
      NoneMissing(mine[..|mine| - 1]);
      assert forall i :: 0 <= i < |mine| - 1 ==> mine[..|mine| - 1][i] == mine[i];
    }
  }

  lemma {:induction false} OffsetMonotone(sizes: seq<nat>, i: nat, j: nat)
    requires i <= j <= |sizes|
    ensures Offset(sizes, i) <= Offset(sizes, j)
    decreases j
  {
    if i < j { OffsetMonotone(sizes, i, j - 1); }
  }

  lemma OffsetNext(sizes: seq<nat>, i: nat)
    requires i <= |sizes|
    ensures Offset(sizes, 0) == 0
    ensures i < |sizes| ==> Offset(sizes, i + 1) == Offset(sizes, i) + sizes[i]
  {
  }

  /** Gradient i's part of a buffer. */
  function Part(buffer: seq<real>, sizes: seq<nat>, i: nat): (r: seq<real>)
    requires i < |sizes| && |buffer| >= Offset(sizes, |sizes|)
  {
    OffsetMonotone(sizes, i + 1, |sizes|);
    buffer[Offset(sizes, i)..Offset(sizes, i + 1)]
  }

  /** What this rank's receive buffer holds after the collective. */
  function Received(send: seq<real>, alone: bool, attempts: seq<Attempt>): (r: seq<real>)
    requires Fitting(attempts, |send|) && (alone || FirstCompleted(attempts).Some?)
    ensures |r| == |send|
  {
    if alone then send
    else
      CompletedFits(attempts, |send|);
      Add(send, FirstCompleted(attempts).value)
  }

  lemma {:induction false} CompletedFits(attempts: seq<Attempt>, n: nat)
    requires Fitting(attempts, n) && FirstCompleted(attempts).Some?
    ensures |FirstCompleted(attempts).value| == n
  {
    if attempts[0].Failed? {
      assert forall k :: 0 <= k < |attempts[1..]| ==> attempts[1..][k] == attempts[k + 1];
      CompletedFits(attempts[1..], n);
    }
  }

  /** The gradients once the parts of a buffer are copied to those that are there. */
  function Written(mine: Values, sizes: seq<nat>, buffer: seq<real>): (r: Values)
    requires |mine| == |sizes| && |buffer| == Width(sizes)
    ensures |r| == |mine|
    ensures forall i :: 0 <= i < |mine| ==> r[i] == if mine[i].Some? then Some(Part(buffer, sizes, i)) else None
  {
    seq(|mine|, i requires 0 <= i < |mine| => if mine[i].Some? then Some(Part(buffer, sizes, i)) else None)
  }

  datatype Result = Result(verdict: Verdict, grads: Values)

  /** _strict_gradient_reduce_across_dp_replicas_ on one rank: verdict and gradients afterwards. */
  function Reduced(mine: Values, sizes: seq<nat>, expected: int, alone: bool, attempts: seq<Attempt>): Result
    requires Sized(mine, sizes) && Fitting(attempts, Width(sizes))
  {
    if mine == [] then Result(NoParameters, mine)
    else if expected < 1 then Result(BadExpectation, mine)
    else if !alone && FirstCompleted(attempts).None? then Result(NoCollective, mine)
    else
      var buffer := Received(Sent(mine, sizes), alone, attempts);
      var verdict := Judge(buffer, expected);
      Result(verdict, if verdict == Accepted then Written(mine, sizes, buffer) else mine)
  }

  // ---- all ranks -----------------------------------------------------------

  /** One strict reduction on all ranks: what each of them has, expects and attempts, and the
      group over which its collective finally completed, if it did. */
  datatype Round = Round(
    sizes: seq<nat>,
    ranks: seq<Values>,
    expected: seq<int>,
    alone: seq<bool>,
    attempts: seq<seq<Attempt>>,
    groups: seq<Option<set<nat>>>)

  function Sends(r: Round): (s: seq<seq<real>>)
    requires forall w :: 0 <= w < |r.ranks| ==> Sized(r.ranks[w], r.sizes)
    ensures |s| == |r.ranks| && forall w :: 0 <= w < |s| ==> s[w] == Sent(r.ranks[w], r.sizes)
  {
    seq(|r.ranks|, w requires 0 <= w < |r.ranks| => Sent(r.ranks[w], r.sizes))
  }

  /** Everything has the right size, and a collective that completes adds up what its group sent. */
  ghost predicate Sensible(r: Round) {
    && |r.expected| == |r.alone| == |r.attempts| == |r.groups| == |r.ranks|
    && (forall w :: 0 <= w < |r.ranks| ==> Sized(r.ranks[w], r.sizes))
    && (forall w :: 0 <= w < |r.ranks| ==> Fitting(r.attempts[w], Width(r.sizes)))
    && (forall w :: 0 <= w < |r.ranks| ==> Delivers(r, w))
  }

  ghost predicate Delivers(r: Round, w: nat)
    requires |r.alone| == |r.attempts| == |r.groups| == |r.ranks| && w < |r.ranks|
    requires forall v :: 0 <= v < |r.ranks| ==> Sized(r.ranks[v], r.sizes)
  {
    if r.alone[w] then r.groups[w] == Some({w})
    else if r.groups[w].None? then FirstCompleted(r.attempts[w]).None?
    else
      && w in r.groups[w].value && Among(r.groups[w].value, |r.ranks|)
      && FirstCompleted(r.attempts[w]) == Some(Sum(Sends(r), Width(r.sizes), r.groups[w].value - {w}))
  }

  function ResultOf(r: Round, w: nat): Result
    requires w < |r.ranks| == |r.expected| == |r.alone| == |r.attempts|
    requires Sized(r.ranks[w], r.sizes) && Fitting(r.attempts[w], Width(r.sizes))
  {
    Reduced(r.ranks[w], r.sizes, r.expected[w], r.alone[w], r.attempts[w])
  }

  /** Every gradient of these is its own part of the sum of what the group sent. */
  predicate HoldsSum(grads: Values, r: Round, group: set<nat>)
    requires forall w :: 0 <= w < |r.ranks| ==> Sized(r.ranks[w], r.sizes)
  {
    && |grads| == |r.sizes|
    && forall i :: 0 <= i < |grads| ==> grads[i] == Some(Part(Sum(Sends(r), Width(r.sizes), group), r.sizes, i))
  }

  /** A rank has all its gradients. */
  predicate Whole(mine: Values) { forall i :: 0 <= i < |mine| ==> mine[i].Some? }

  lemma SendsSigned(r: Round)
    requires forall w :: 0 <= w < |r.ranks| ==> Sized(r.ranks[w], r.sizes)
    ensures AllSigned(Sends(r), Width(r.sizes)) && Aligned(Sends(r), Width(r.sizes))
    ensures forall w :: 0 <= w < |r.ranks| ==> (Sends(r)[w][Width(r.sizes) - 1] == 0.0 <==> Whole(r.ranks[w]))
  {
    hide Sent, Signed, Width;
    forall w | 0 <= w < |r.ranks|
      ensures Signed(Sends(r)[w], Width(r.sizes))
      ensures Width(r.sizes) >= 1 && (Sends(r)[w][Width(r.sizes) - 1] == 0.0 <==> Whole(r.ranks[w]))
    {
      WideEnough(r.sizes);
      SentIsSigned(r.ranks[w], r.sizes);
    }
    WideEnough(r.sizes);
  }

  lemma WideEnough(sizes: seq<nat>)
    ensures Width(sizes) >= 2
  {
  }

  lemma ReceivedIsSum(r: Round, w: nat)
    requires Sensible(r) && w < |r.ranks| && r.groups[w].Some?
    ensures r.alone[w] || FirstCompleted(r.attempts[w]).Some?
    ensures Received(Sent(r.ranks[w], r.sizes), r.alone[w], r.attempts[w]) == Sum(Sends(r), Width(r.sizes), r.groups[w].value)
  {
    hide Width, Sum, Sent, FirstCompleted, Add;
    var sends := Sends(r);
    assert Delivers(r, w);
    if r.alone[w] { AloneKeeps(sends, Width(r.sizes), w); }
    else { EveryoneReceivesTheSum(sends, Width(r.sizes), r.groups[w].value, w); }
  }

  /** A rank accepts exactly when its collective completed over as many ranks as it expects and
      none of them misses a gradient.  Then each of its gradients is its own part of the sum of
      the values the group sent; in every other case its gradients are what they were. */
  lemma {:induction false} RankAcceptsIff(r: Round, w: nat)
    requires Sensible(r) && w < |r.ranks|
    ensures ResultOf(r, w).verdict == Accepted <==>
            && r.sizes != [] && r.expected[w] >= 1 && r.groups[w].Some? && |r.groups[w].value| == r.expected[w]
            && forall v :: v in r.groups[w].value ==> v < |r.ranks| && Whole(r.ranks[v])
    ensures ResultOf(r, w).verdict == Accepted ==>
              r.groups[w].Some? && HoldsSum(ResultOf(r, w).grads, r, r.groups[w].value)
    ensures ResultOf(r, w).verdict != Accepted ==> ResultOf(r, w).grads == r.ranks[w]
  {
    hide Width, Sum, Sent, Part, Received, FirstCompleted, Judge, Whole, Fitting;
    WideEnough(r.sizes);
    assert Delivers(r, w);
    if r.groups[w].Some? {
      var group := r.groups[w].value;
      assert w in group;
      ReceivedIsSum(r, w);
      SendsSigned(r);
      AcceptedIff(Sends(r), Width(r.sizes), group, r.expected[w]);
      assert Complete(Sends(r), Width(r.sizes), group) <==> forall v :: v in group ==> v < |r.ranks| && Whole(r.ranks[v]);
      if Whole(r.ranks[w]) { WholeHasAll(r.ranks[w]); }
    }
  }

  lemma WholeHasAll(mine: Values)
    requires Whole(mine)
    ensures forall i :: 0 <= i < |mine| ==> mine[i].Some?
  {
  }

  /** The collective of rank w completed over all ranks. */
  ghost predicate Full(r: Round, w: nat)
    requires w < |r.groups|
  {
    r.groups[w] == Some(Everyone(|r.ranks|))
  }

  lemma {:induction false} AllOfThem(group: set<nat>, ranks: nat)
    requires Among(group, ranks)
    ensures |group| == ranks <==> group == Everyone(ranks)
  {
    if |group| == ranks { SameSize(group, Everyone(ranks)); }
  }

  lemma SameSize(a: set<nat>, b: set<nat>)
    requires a <= b && |a| == |b|
    ensures a == b
  {
    if x :| x in b && x !in a {
      assert a <= b - {x};
      Smaller(a, b - {x});
    }
  }

  lemma {:induction false} Smaller(a: set<nat>, b: set<nat>)
    requires a <= b
    ensures |a| <= |b|
    decreases |a|
  {
    if x :| x in a { Smaller(a - {x}, b - {x}); }
  }

  lemma {:induction false} GroupsAmong(r: Round, w: nat)
    requires Sensible(r) && w < |r.ranks| && r.groups[w].Some?
    ensures Among(r.groups[w].value, |r.ranks|)
  {
    assert Delivers(r, w);
  }

  /** When every rank expects all ranks, a rank accepts exactly when its collective was a full
      one and no rank at all misses a gradient. */
  lemma {:induction false} AcceptsIffFull(r: Round, w: nat)
    requires Sensible(r) && w < |r.ranks| && r.expected[w] == |r.ranks|
    ensures ResultOf(r, w).verdict == Accepted <==>
            r.sizes != [] && Full(r, w) && forall v :: 0 <= v < |r.ranks| ==> Whole(r.ranks[v])
  {
    hide ResultOf, Delivers, HoldsSum, Whole;
    RankAcceptsIff(r, w);
    if r.groups[w].Some? {
      GroupsAmong(r, w);
      AllOfThem(r.groups[w].value, |r.ranks|);
    }
  }

  /** All or nothing: when every rank expects all ranks, either all of them write the sum of the
      values that all of them sent or none writes anything - exactly when there is nothing to
      write, a gradient is missing somewhere, or the full collective completed on all ranks or
      on none. */
  lemma {:induction false} AllOrNothing(r: Round)
    requires Sensible(r) && forall w :: 0 <= w < |r.ranks| ==> r.expected[w] == |r.ranks|
    ensures (|| (forall w :: 0 <= w < |r.ranks| ==> ResultOf(r, w).verdict == Accepted)
             || (forall w :: 0 <= w < |r.ranks| ==> ResultOf(r, w).verdict != Accepted)) <==>
            || r.sizes == [] || (exists v :: 0 <= v < |r.ranks| && !Whole(r.ranks[v]))
            || (forall w :: 0 <= w < |r.ranks| ==> Full(r, w)) || (forall w :: 0 <= w < |r.ranks| ==> !Full(r, w))
    ensures forall w :: 0 <= w < |r.ranks| && ResultOf(r, w).verdict == Accepted ==>
              HoldsSum(ResultOf(r, w).grads, r, Everyone(|r.ranks|))
    ensures forall w :: 0 <= w < |r.ranks| && ResultOf(r, w).verdict != Accepted ==> ResultOf(r, w).grads == r.ranks[w]
  {
    hide ResultOf, Whole, HoldsSum, Delivers;
    forall w | 0 <= w < |r.ranks|
      ensures ResultOf(r, w).verdict == Accepted <==>
              r.sizes != [] && Full(r, w) && forall v :: 0 <= v < |r.ranks| ==> Whole(r.ranks[v])
      ensures ResultOf(r, w).verdict != Accepted ==> ResultOf(r, w).grads == r.ranks[w]
      ensures ResultOf(r, w).verdict == Accepted ==> HoldsSum(ResultOf(r, w).grads, r, Everyone(|r.ranks|))
    {
      AcceptsIffFull(r, w);
      RankAcceptsIff(r, w);
    }
  }

  const LATE: Round := Round(
    [1], [[Some([1.0])], [Some([2.0])]], [2, 2], [false, false],
    [[Completed([2.0, 1.0, 0.0])], [Failed([0.0, 0.0, 0.0])]], [Some({0, 1}), None])

  /** The failing input: of two ranks one completes the collective and the other runs out of
      attempts, so one writes the sum and the other nothing. */
  lemma {:induction false} HalfWritten()
    ensures Sensible(LATE)
    ensures ResultOf(LATE, 0) == Result(Accepted, [Some([3.0])])
    ensures ResultOf(LATE, 1) == Result(NoCollective, LATE.ranks[1])
  {
    LateFits();
    var sends := Sends(LATE);
    LateSends();
    assert {0, 1} - {0} == {1};
    LateOthers(sends);
    assert Add([1.0, 1.0, 0.0], [2.0, 1.0, 0.0]) == [3.0, 2.0, 0.0];
    LatePart();
  }

  lemma {:induction false} LateFits()
    ensures Width(LATE.sizes) == 3 && forall w :: 0 <= w < 2 ==> Sized(LATE.ranks[w], LATE.sizes)
    ensures forall w :: 0 <= w < 2 ==> Fitting(LATE.attempts[w], 3)
    ensures FirstCompleted(LATE.attempts[0]) == Some([2.0, 1.0, 0.0]) && FirstCompleted(LATE.attempts[1]) == None
  {
    assert Offset([1], 1) == Offset([1], 0) + 1;
    assert [Failed([0.0, 0.0, 0.0])][1..] == [];
  }

  lemma {:induction false} LateSends()
    ensures (forall w :: 0 <= w < 2 ==> Sized(LATE.ranks[w], LATE.sizes)) && Sends(LATE) == [[1.0, 1.0, 0.0], [2.0, 1.0, 0.0]]
  {
    LateFits();
    SentOne(1.0);
    SentOne(2.0);
  }

  lemma {:induction false} SentOne(x: real)
    ensures Sized([Some([x])], [1]) && Sent([Some([x])], [1]) == [x, 1.0, 0.0]
  {
    var mine := [Some([x])];
    assert mine[..0] == [];
    assert Missing(mine) == 0;
    assert Flat(mine, [1], 1) == Flat(mine, [1], 0) + [x] == [x];
  }

  lemma {:induction false} LateOthers(sends: seq<seq<real>>)
    requires sends == [[1.0, 1.0, 0.0], [2.0, 1.0, 0.0]]
    ensures Aligned(sends, 3) && Sum(sends, 3, {1}) == [2.0, 1.0, 0.0]
  {
    AloneKeeps(sends, 3, 1);
  }

  lemma {:induction false} LatePart()
    ensures Width([1]) == 3 && Part([3.0, 2.0, 0.0], [1], 0) == [3.0]
  {
    assert Offset([1], 1) == Offset([1], 0) + 1;
  }

  // ---- the method of one rank ----------------------------------------------

  /** A parameter's gradient, or None. */
  type Grad = Option<array<real>>

  predicate Shaped(grads: seq<Grad>, sizes: seq<nat>) {
    |grads| == |sizes| && forall i :: 0 <= i < |grads| && grads[i].Some? ==> grads[i].value.Length == sizes[i]
  }

  predicate Separate(grads: seq<Grad>) {
    forall i, j :: 0 <= i < j < |grads| && grads[i].Some? && grads[j].Some? ==> grads[i].value != grads[j].value
  }

  function Arrays(grads: seq<Grad>): set<array<real>> { set i | 0 <= i < |grads| && grads[i].Some? :: grads[i].value }

  /** The gradients by value. */
  ghost function Contents(grads: seq<Grad>): (r: Values)
    reads Arrays(grads)
    ensures |r| == |grads|
    ensures forall i :: 0 <= i < |grads| ==> r[i] == if grads[i].Some? then Some(grads[i].value[..]) else None
  {
    seq(|grads|, i requires 0 <= i < |grads| reads Arrays(grads) => if grads[i].Some? then Some(grads[i].value[..]) else None)
  }

  method PackAll(grads: seq<Grad>, sizes: seq<nat>) returns (packed: seq<real>)
    requires Shaped(grads, sizes)
    ensures Sized(Contents(grads), sizes) && packed == Sent(Contents(grads), sizes)
  {
    packed := [];
    var missing := 0;
    ghost var mine := Contents(grads);
    for i := 0 to |grads|
      invariant packed == Flat(mine, sizes, i) && missing == Missing(mine[..i])
    {
      assert mine[..i + 1][..i] == mine[..i];
      if grads[i].None? {
        missing := missing + 1;
        packed := packed + Zeros(sizes[i]);
      } else {
        packed := packed + grads[i].value[..];
      }
    }
    assert mine[..|mine|] == mine;
    packed := packed + [1.0, missing as real];
  }

  /** Copies the reduced values to the gradients, one after the other. */
  method WriteBack(grads: seq<Grad>, sizes: seq<nat>, buffer: seq<real>)
    requires Shaped(grads, sizes) && Separate(grads) && |buffer| == Width(sizes)
    modifies Arrays(grads)
    ensures Contents(grads) == Written(old(Contents(grads)), sizes, buffer)
  {
    hide Offset;
    var offset := 0;
    assert Offset(sizes, 0) == 0 by { OffsetNext(sizes, 0); }
    for i := 0 to |grads|
      invariant offset == Offset(sizes, i)
      invariant forall k :: 0 <= k < i && grads[k].Some? ==> grads[k].value[..] == Part(buffer, sizes, k)
    {
      OffsetNext(sizes, i);
      OffsetMonotone(sizes, i + 1, |sizes|);
      if grads[i].Some? {
        assert grads[i].value in Arrays(grads);
        Gradients.CopyInto(grads[i].value, buffer[offset..offset + sizes[i]]);
        assert grads[i].value[..] == Part(buffer, sizes, i);
      }
      offset := offset + sizes[i];
    }
  }

  /** _strict_gradient_reduce_across_dp_replicas_ on one rank. */
  method StrictReduce(grads: seq<Grad>, sizes: seq<nat>, expected: int, alone: bool, attempts: seq<Attempt>)
    returns (verdict: Verdict)
    requires Shaped(grads, sizes) && Separate(grads) && Fitting(attempts, Width(sizes))
    modifies Arrays(grads)
    ensures Sized(old(Contents(grads)), sizes)
    ensures Result(verdict, Contents(grads)) == Reduced(old(Contents(grads)), sizes, expected, alone, attempts)
  {
    hide Flat, Offset, Part, FirstCompleted, Add, Sent, Width;
    if grads == [] { return NoParameters; }
    if expected < 1 { return BadExpectation; }
    var packed := PackAll(grads, sizes);
    var recv := new real[|packed|];
    Gradients.CopyInto(recv, packed);
    var ok := AllReduceWithRetry(packed, recv, alone, attempts);
    if !ok { return NoCollective; }
    var buffer := recv[..];
    assert buffer == Received(packed, alone, attempts);
    WideEnough(sizes);
    verdict := Judge(buffer, expected);
    if verdict == Accepted { WriteBack(grads, sizes, buffer); }
  }
}
