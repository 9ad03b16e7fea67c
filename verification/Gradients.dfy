/** Gradient reduction across data-parallel replicas: bucketed, and strict. */
module Gradients {
  import opened Types

  // ---- the collective ------------------------------------------------------

  /** What each rank contributes to one element: this rank's value first, then the others'. */
  function Column<E>(own: E, others: seq<E>): seq<E> { [own] + others }

  function PickAt<E>(peers: seq<seq<E>>, j: nat): (r: seq<E>)
    requires forall w :: 0 <= w < |peers| ==> j < |peers[w]|
    ensures |r| == |peers| && forall w :: 0 <= w < |peers| ==> r[w] == peers[w][j]
  {
    seq(|peers|, w requires 0 <= w < |peers| => peers[w][j])
  }

  predicate SameLength<E>(own: seq<E>, peers: seq<seq<E>>) { forall w :: 0 <= w < |peers| ==> |peers[w]| == |own| }

  /** allreduce: every element is reduced across the ranks on its own. */
  function AllReduce<E>(own: seq<E>, peers: seq<seq<E>>, op: seq<E> -> E): (r: seq<E>)
    requires SameLength(own, peers)
    ensures |r| == |own| && forall j :: 0 <= j < |own| ==> r[j] == op(Column(own[j], PickAt(peers, j)))
  {
    seq(|own|, j requires 0 <= j < |own| => op(Column(own[j], PickAt(peers, j))))
  }

  // ---- buckets -------------------------------------------------------------

  function Range(from: nat, to: nat): (r: seq<nat>)
    requires from <= to
    ensures |r| == to - from && forall i :: 0 <= i < |r| ==> r[i] == from + i
  {
    seq(to - from, i requires 0 <= i < to - from => from + i)
  }

  function Joined(buckets: seq<seq<nat>>): seq<nat> {
    if buckets == [] then [] else Joined(buckets[..|buckets| - 1]) + buckets[|buckets| - 1]
  }

  function Weight(sizes: seq<nat>, bucket: seq<nat>): nat
    requires forall k :: 0 <= k < |bucket| ==> bucket[k] < |sizes|
  {
    if bucket == [] then 0 else Weight(sizes, bucket[..|bucket| - 1]) + sizes[bucket[|bucket| - 1]]
  }

  lemma {:induction false} JoinedNext(buckets: seq<seq<nat>>, b: seq<nat>)
    ensures Joined(buckets + [b]) == Joined(buckets) + b
  {
    assert (buckets + [b])[..|buckets|] == buckets;
  }

  /** A bucket is filled until it would exceed the limit; the tensor that would is still put in
      and closes it. */
  predicate Closed(sizes: seq<nat>, bucket: seq<nat>, limit: nat) {
    && bucket != [] && (forall k :: 0 <= k < |bucket| ==> bucket[k] < |sizes|)
    && Weight(sizes, bucket[..|bucket| - 1]) <= limit
  }

  /** A bucket is closed only by a tensor that exceeds the limit. */
  predicate Overflows(sizes: seq<nat>, bucket: seq<nat>, limit: nat) {
    (forall k :: 0 <= k < |bucket| ==> bucket[k] < |sizes|) && Weight(sizes, bucket) > limit
  }

  /** Splits the tensors into buckets.  They keep their order, each bucket is within the limit
      but for its last tensor, every bucket but the last exceeds it, and only empty tensors at
      the end are left out. */
  method SplitBuckets(sizes: seq<nat>, limit: nat) returns (buckets: seq<seq<nat>>, covered: nat)
    ensures covered <= |sizes| && Joined(buckets) == Range(0, covered)
    ensures forall i :: covered <= i < |sizes| ==> sizes[i] == 0
    ensures forall b :: b in buckets ==> Closed(sizes, b, limit)
    ensures forall i :: 0 <= i < |buckets| && (i < |buckets| - 1 || covered < |sizes|) ==> Overflows(sizes, buckets[i], limit)
  {
    hide Joined, Overflows;
    buckets := [];
    var current: seq<nat> := [];
    var size := 0;
    assert Joined([]) == [] by { JoinedNothing(); }
    for i := 0 to |sizes|
      invariant forall k :: 0 <= k < |current| ==> current[k] < i
      invariant Joined(buckets) + current == Range(0, i)
      invariant size == Weight(sizes, current) <= limit
      invariant forall b :: b in buckets ==> Closed(sizes, b, limit)
      invariant forall k :: 0 <= k < |buckets| ==> Overflows(sizes, buckets[k], limit)
    {
      var grown := current + [i];
      assert grown[..|current|] == current;
      assert Range(0, i + 1) == Range(0, i) + [i];
      assert Joined(buckets) + grown == (Joined(buckets) + current) + [i];
      if size + sizes[i] > limit {
        JoinedNext(buckets, grown);
        assert Overflows(sizes, grown, limit) by { TooHeavy(sizes, grown, limit); }
        buckets := buckets + [grown];
        current := [];
        size := 0;
      } else {
        current := grown;
        size := size + sizes[i];
      }
    }
    if size > 0 {
      JoinedNext(buckets, current);
      LightPrefix(sizes, current);
      buckets := buckets + [current];
      covered := |sizes|;
    } else {
      covered := |sizes| - |current|;
      WeightlessTail(sizes, current);
      var all := Joined(buckets);
      assert Range(0, |sizes|)[..|all|] == all;
      assert |all| == covered && Range(0, |sizes|)[..covered] == Range(0, covered);
      forall i | covered <= i < |sizes| ensures sizes[i] == 0 {
        assert (all + current)[i] == current[i - covered] == i;
      }
    }
  }

  lemma TooHeavy(sizes: seq<nat>, bucket: seq<nat>, limit: nat)
    requires (forall k :: 0 <= k < |bucket| ==> bucket[k] < |sizes|) && Weight(sizes, bucket) > limit
    ensures Overflows(sizes, bucket, limit)
  {
  }

  lemma JoinedNothing()
    ensures Joined([]) == []
  {
  }

  lemma {:induction false} LightPrefix(sizes: seq<nat>, b: seq<nat>)
    requires b != [] && forall k :: 0 <= k < |b| ==> b[k] < |sizes|
    ensures Weight(sizes, b[..|b| - 1]) <= Weight(sizes, b)
  {
  }

  lemma {:induction false} WeightlessTail(sizes: seq<nat>, b: seq<nat>)
    requires (forall k :: 0 <= k < |b| ==> b[k] < |sizes|) && Weight(sizes, b) == 0
    ensures forall k :: 0 <= k < |b| ==> sizes[b[k]] == 0
  {
    if b != [] { WeightlessTail(sizes, b[..|b| - 1]); }
  }

  // ---- packing and copying back --------------------------------------------

  /** Tensors laid end to end. */
  function Pack<E>(tensors: seq<seq<E>>, bucket: seq<nat>): seq<E>
    requires forall k :: 0 <= k < |bucket| ==> bucket[k] < |tensors|
  {
    if bucket == [] then []
    else Pack(tensors, bucket[..|bucket| - 1]) + tensors[bucket[|bucket| - 1]]
  }

  /** Ranks hold the same list of tensors, shape by shape. */
  predicate SameShapes<E>(own: seq<seq<E>>, others: seq<seq<seq<E>>>) {
    forall w :: 0 <= w < |others| ==>
      |others[w]| == |own| && forall i :: 0 <= i < |own| ==> |others[w][i]| == |own[i]|
  }

  function TensorAt<E>(others: seq<seq<seq<E>>>, i: nat): (r: seq<seq<E>>)
    requires forall w :: 0 <= w < |others| ==> i < |others[w]|
    ensures |r| == |others| && forall w :: 0 <= w < |others| ==> r[w] == others[w][i]
  {
    seq(|others|, w requires 0 <= w < |others| => others[w][i])
  }

  /** Gradient i reduced across the ranks on its own: what the bucketed path must deliver. */
  function Reduced<E>(own: seq<seq<E>>, others: seq<seq<seq<E>>>, op: seq<E> -> E, i: nat): (r: seq<E>)
    requires SameShapes(own, others) && i < |own|
    ensures |r| == |own[i]|
  {
    AllReduce(own[i], TensorAt(others, i), op)
  }

  predicate Within(bucket: seq<nat>, n: nat) { forall k :: 0 <= k < |bucket| ==> bucket[k] < n }

  function Packs<E>(others: seq<seq<seq<E>>>, bucket: seq<nat>, n: nat): (r: seq<seq<E>>)
    requires Within(bucket, n) && forall w :: 0 <= w < |others| ==> |others[w]| == n
    ensures |r| == |others| && forall w :: 0 <= w < |others| ==> r[w] == Pack(others[w], bucket)
  {
    seq(|others|, w requires 0 <= w < |others| => Pack(others[w], bucket))
  }

  lemma {:induction false} PackLength<E>(a: seq<seq<E>>, b: seq<seq<E>>, bucket: seq<nat>)
    requires |a| == |b| && Within(bucket, |a|) && forall i :: 0 <= i < |a| ==> |a[i]| == |b[i]|
    ensures |Pack(a, bucket)| == |Pack(b, bucket)|
  {
    if bucket != [] { PackLength(a, b, bucket[..|bucket| - 1]); }
  }

  lemma {:induction false} PacksAlign<E>(own: seq<seq<E>>, others: seq<seq<seq<E>>>, bucket: seq<nat>)
    requires SameShapes(own, others) && Within(bucket, |own|)
    ensures SameLength(Pack(own, bucket), Packs(others, bucket, |own|))
  {
    forall w | 0 <= w < |others| ensures |Pack(others[w], bucket)| == |Pack(own, bucket)| {
      PackLength(others[w], own, bucket);
    }
  }

  function AllReduced<E>(own: seq<seq<E>>, others: seq<seq<seq<E>>>, op: seq<E> -> E): (r: seq<seq<E>>)
    requires SameShapes(own, others)
    ensures |r| == |own| && forall i :: 0 <= i < |own| ==> r[i] == Reduced(own, others, op, i)
  {
    seq(|own|, i requires 0 <= i < |own| => Reduced(own, others, op, i))
  }

  /** Reducing the packed bucket is packing the reduced tensors. */
  lemma {:induction false} ReducePacked<E>(own: seq<seq<E>>, others: seq<seq<seq<E>>>, op: seq<E> -> E, bucket: seq<nat>)
    requires SameShapes(own, others) && Within(bucket, |own|)
    ensures SameLength(Pack(own, bucket), Packs(others, bucket, |own|))
    ensures AllReduce(Pack(own, bucket), Packs(others, bucket, |own|), op) == Pack(AllReduced(own, others, op), bucket)
    decreases |bucket|
  {
    PacksAlign(own, others, bucket);
    if bucket != [] {
      var m := |bucket| - 1;
      var init, last := bucket[..m], bucket[m];
      ReducePacked(own, others, op, init);
      var a, b := Pack(own, init), own[last];
      var whole := AllReduce(Pack(own, bucket), Packs(others, bucket, |own|), op);
      var left := AllReduce(a, Packs(others, init, |own|), op);
      var right := Reduced(own, others, op, last);
      PacksAlign(own, others, init);
      assert |whole| == |left| + |right|;
      forall j | 0 <= j < |whole| ensures whole[j] == (left + right)[j] {
        if j < |a| {
          assert PickAt(Packs(others, bucket, |own|), j) == PickAt(Packs(others, init, |own|), j);
        } else {
          assert PickAt(Packs(others, bucket, |own|), j) == PickAt(TensorAt(others, last), j - |a|);
        }
      }
    }
  }

  lemma {:induction false} PackPrefix<E>(tensors: seq<seq<E>>, bucket: seq<nat>, k: nat)
    requires Within(bucket, |tensors|) && k < |bucket|
    ensures var a, b := |Pack(tensors, bucket[..k])|, |tensors[bucket[k]]|;
            && a + b == |Pack(tensors, bucket[..k + 1])| <= |Pack(tensors, bucket)|
            && Pack(tensors, bucket)[a..a + b] == tensors[bucket[k]]
    decreases |bucket|
  {
    var m := |bucket| - 1;
    assert bucket[..k + 1][..k] == bucket[..k];
    if k == m { assert bucket[..m + 1] == bucket; }
    else {
      PackPrefix(tensors, bucket[..m], k);
      assert bucket[..m][..k] == bucket[..k] && bucket[..m][..k + 1] == bucket[..k + 1];
    }
  }

  // ---- in place ------------------------------------------------------------

  ghost function Contents<E>(grads: seq<array<E>>): (r: seq<seq<E>>)
    reads grads
    ensures |r| == |grads| && forall i :: 0 <= i < |grads| ==> r[i] == grads[i][..]
  {
    if grads == [] then [] else Contents(grads[..|grads| - 1]) + [grads[|grads| - 1][..]]
  }

  predicate Separate<E>(grads: seq<array<E>>) {
    forall i, j :: 0 <= i < j < |grads| ==> grads[i] != grads[j]
  }

  method PackUp<E>(grads: seq<array<E>>, bucket: seq<nat>) returns (buffer: seq<E>)
    requires Within(bucket, |grads|)
    ensures buffer == Pack(Contents(grads), bucket)
  {
    buffer := [];
    for k := 0 to |bucket|
      invariant buffer == Pack(Contents(grads), bucket[..k])
    {
      assert bucket[..k + 1][..k] == bucket[..k];
      buffer := buffer + grads[bucket[k]][..];
    }
    assert bucket[..|bucket|] == bucket;
  }

  method CopyInto<E>(g: array<E>, values: seq<E>)
    requires |values| == g.Length
    modifies g
    ensures g[..] == values
  {
    forall j | 0 <= j < g.Length { g[j] := values[j]; }
  }

  /** Copies a reduced buffer back, tensor by tensor. */
  method CopyBack<E>(grads: seq<array<E>>, from: nat, bucket: seq<nat>, buffer: seq<E>, ghost want: seq<seq<E>>)
    requires Separate(grads) && from + |bucket| <= |grads| && bucket == Range(from, from + |bucket|)
    requires |want| == |grads| && buffer == Pack(want, bucket)
    requires forall i :: 0 <= i < |grads| ==> |want[i]| == grads[i].Length
    modifies grads
    ensures forall i :: 0 <= i < |grads| ==>
              grads[i][..] == if from <= i < from + |bucket| then want[i] else old(grads[i][..])
  {
    hide Pack;
    var offset := 0;
    assert Pack(want, bucket[..0]) == [] by { PackNothing(want); assert bucket[..0] == []; }
    for k := 0 to |bucket|
      invariant offset == |Pack(want, bucket[..k])|
      invariant forall i :: 0 <= i < |grads| ==>
                  grads[i][..] == if from <= i < from + k then want[i] else old(grads[i][..])
    {
      PackPrefix(want, bucket, k);
      var g := grads[bucket[k]];
      CopyInto(g, buffer[offset..offset + g.Length]);
      offset := offset + g.Length;
    }
  }

  lemma {:induction false} PackNothing<E>(t: seq<seq<E>>)
    ensures Pack(t, []) == []
  {
  }

  /** gradient_reduce_across_dp_replicas_ on the gradients of one element type: every gradient
      ends up reduced across the ranks on its own, whatever the sizes and the bucket limit. */
  method ReduceBucketed<E>(grads: seq<array<E>>, others: seq<seq<seq<E>>>, op: seq<E> -> E, width: Positive, limit: nat)
    requires Separate(grads) && SameShapes(Contents(grads), others)
    modifies grads
    ensures Contents(grads) == AllReduced(old(Contents(grads)), others, op)
  {
    hide Pack, Joined, AllReduce, Reduced, Contents;
    ghost var before := Contents(grads);
    ghost var want := AllReduced(before, others, op);
    var sizes := seq(|grads|, i requires 0 <= i < |grads| => grads[i].Length * width);
    var buckets, covered := SplitBuckets(sizes, limit);
    var done := 0;
    assert Joined(buckets[..0]) == [] by { JoinedNothing(); assert buckets[..0] == []; }
    for b := 0 to |buckets|
      invariant done == |Joined(buckets[..b])| <= covered
      invariant forall i :: 0 <= i < |grads| ==> grads[i][..] == if i < done then want[i] else before[i]
    {
      var bucket := buckets[b];
      BucketIsNext(buckets, b, covered);
      var buffer := PackUp(grads, bucket);
      PackFrame(Contents(grads), before, bucket);
      ReducePacked(before, others, op, bucket);
      buffer := AllReduce(buffer, Packs(others, bucket, |grads|), op);
      CopyBack(grads, done, bucket, buffer, want);
      done := done + |bucket|;
    }
    assert buckets[..|buckets|] == buckets;
    forall i | 0 <= i < |grads| ensures grads[i][..] == want[i] {
      if i >= covered { EmptyTensor(grads[i].Length, width); assert sizes[i] == 0; assert before[i] == []; }
    }
  }

  lemma EmptyTensor(n: nat, width: Positive)
    ensures n * width == 0 ==> n == 0
  {
  }

  lemma {:induction false} PackFrame<E>(a: seq<seq<E>>, b: seq<seq<E>>, bucket: seq<nat>)
    requires |a| == |b| && Within(bucket, |a|) && forall k :: 0 <= k < |bucket| ==> a[bucket[k]] == b[bucket[k]]
    ensures Pack(a, bucket) == Pack(b, bucket)
  {
    if bucket != [] { PackFrame(a, b, bucket[..|bucket| - 1]); }
  }

  lemma {:induction false} JoinedPrefix(buckets: seq<seq<nat>>, b: nat)
    requires b <= |buckets|
    ensures |Joined(buckets[..b])| <= |Joined(buckets)| && Joined(buckets)[..|Joined(buckets[..b])|] == Joined(buckets[..b])
    decreases |buckets|
  {
    if b == |buckets| { assert buckets[..b] == buckets; }
    else {
      var m := |buckets| - 1;
      JoinedPrefix(buckets[..m], b);
      assert buckets[..m][..b] == buckets[..b];
    }
  }

  /** Bucket b holds the tensors right after those of the buckets before it. */
  lemma BucketIsNext(buckets: seq<seq<nat>>, b: nat, covered: nat)
    requires b < |buckets| && Joined(buckets) == Range(0, covered)
    ensures var done := |Joined(buckets[..b])|;
            && |Joined(buckets[..b + 1])| == done + |buckets[b]| <= covered
            && buckets[b] == Range(done, done + |buckets[b]|)
  {
    hide Joined;
    var done := |Joined(buckets[..b])|;
    assert buckets[..b + 1] == buckets[..b] + [buckets[b]];
    JoinedNext(buckets[..b], buckets[b]);
    JoinedPrefix(buckets, b + 1);
    var all := Joined(buckets[..b + 1]);
    forall k | 0 <= k < |buckets[b]| ensures buckets[b][k] == done + k {
      assert all[done + k] == Joined(buckets)[..|all|][done + k] == done + k;
    }
  }
}
