/** k-way balancing of sequence lengths: the partitions the differencing method yields. */
module Partitioning {
  import opened Arith
  import opened Differencing
  import opened Tracing

  // ---- partitions ----------------------------------------------------------

  function Indices(items: seq<Item>): (r: seq<nat>)
    ensures |r| == |items| && forall i :: 0 <= i < |items| ==> r[i] == items[i].idx
  {
    seq(|items|, i requires 0 <= i < |items| => items[i].idx)
  }

  function Joined(parts: seq<seq<nat>>): seq<nat> {
    if parts == [] then [] else Joined(parts[..|parts| - 1]) + parts[|parts| - 1]
  }

  /** Total length of a partition. */
  function PartSum(lens: seq<nat>, part: seq<nat>): nat
    requires forall i :: 0 <= i < |part| ==> part[i] < |lens|
  {
    if part == [] then 0 else PartSum(lens, part[..|part| - 1]) + lens[part[|part| - 1]]
  }

  /** Every index below `n` is in exactly one partition, once, and no other number is. */
  ghost predicate Covers(parts: seq<seq<nat>>, n: nat) {
    forall x: nat :: multiset(Joined(parts))[x] == if x < n then 1 else 0
  }

  predicate InRange(parts: seq<seq<nat>>, n: nat) {
    forall i, j :: 0 <= i < |parts| && 0 <= j < |parts[i]| ==> parts[i][j] < n
  }

  /** The sums of any two partitions differ by at most `d`. */
  ghost predicate Balanced(lens: seq<nat>, parts: seq<seq<nat>>, d: int) {
    InRange(parts, |lens|) &&
    forall i, j :: 0 <= i < |parts| && 0 <= j < |parts| ==> PartSum(lens, parts[i]) - PartSum(lens, parts[j]) <= d
  }

  /** get_partitions */
  function Partitions(st: seq<Bin>): (parts: seq<seq<nat>>)
    ensures |parts| == |st| && forall i :: 0 <= i < |st| ==> parts[i] == Indices(st[i].items)
  {
    seq(|st|, i requires 0 <= i < |st| => Indices(st[i].items))
  }

  lemma {:induction false} JoinedFlat(st: seq<Bin>)
    ensures Joined(Partitions(st)) == Indices(Flat(st))
  {
    if st != [] {
      var m := |st| - 1;
      JoinedFlat(st[..m]);
      assert Partitions(st)[..m] == Partitions(st[..m]);
      assert Indices(Flat(st[..m]) + st[m].items) == Indices(Flat(st[..m])) + Indices(st[m].items);
    }
  }

  lemma RemoveOne<T>(a: seq<T>, i: nat)
    requires i < |a|
    ensures multiset(a) == multiset(a[..i] + a[i + 1..]) + multiset{a[i]}
  {
    assert a == a[..i] + [a[i]] + a[i + 1..];
  }

  lemma FindItem(a: seq<Item>, b: seq<Item>) returns (j: nat)
    requires multiset(a) == multiset(b) && a != []
    ensures j < |b| && b[j] == a[|a| - 1] && |a| == |b|
    ensures multiset(a[..|a| - 1]) == multiset(b[..j] + b[j + 1..])
  {
    var x := a[|a| - 1];
    assert x in multiset(a);
    assert x in b;
    j :| 0 <= j < |b| && b[j] == x;
    RemoveOne(b, j);
    assert a == a[..|a| - 1] + [x];
    assert multiset(a[..|a| - 1]) == multiset(a) - multiset{x};
    assert multiset(b[..j] + b[j + 1..]) == multiset(b) - multiset{x};
    assert |multiset(a)| == |a| && |multiset(b)| == |b|;
  }

  /** The same items have the same indices. */
  lemma {:induction false} SameIndices(a: seq<Item>, b: seq<Item>)
    requires multiset(a) == multiset(b)
    ensures multiset(Indices(a)) == multiset(Indices(b))
    decreases |a|
  {
    if a == [] { assert |multiset(b)| == 0; assert b == []; }
    else {
      var j := FindItem(a, b);
      var m := |a| - 1;
      var rest := b[..j] + b[j + 1..];
      SameIndices(a[..m], rest);
      RemoveOne(Indices(b), j);
      assert Indices(rest) == Indices(b)[..j] + Indices(b)[j + 1..];
      assert Indices(a) == Indices(a[..m]) + [a[m].idx];
    }
  }

  lemma {:induction false} RangeOnce(lens: seq<nat>, x: nat)
    ensures multiset(Indices(ItemsFor(lens)))[x] == if x < |lens| then 1 else 0
  {
    if lens != [] {
      var m := |lens| - 1;
      RangeOnce(lens[..m], x);
      assert Indices(ItemsFor(lens)) == Indices(ItemsFor(lens[..m])) + [m];
    }
  }

  /** A state that holds exactly the items of the batch yields a partition of its indices. */
  lemma StateCovers(st: seq<Bin>, lens: seq<nat>)
    requires ItemsOf(st) == multiset(ItemsFor(lens))
    ensures Covers(Partitions(st), |lens|)
  {
    JoinedFlat(st);
    SameIndices(Flat(st), ItemsFor(lens));
    forall x: nat ensures multiset(Joined(Partitions(st)))[x] == if x < |lens| then 1 else 0 { RangeOnce(lens, x); }
  }

  lemma {:induction false} FlatHolds(st: seq<Bin>, i: nat, j: nat)
    requires i < |st| && j < |st[i].items|
    ensures st[i].items[j] in Flat(st)
  {
    var m := |st| - 1;
    if i < m { FlatHolds(st[..m], i, j); }
  }

  /** Items of the batch carry its lengths. */
  predicate Faithful(lens: seq<nat>, items: seq<Item>) {
    forall j :: 0 <= j < |items| ==> items[j].idx < |lens| && items[j].len == lens[items[j].idx]
  }

  lemma StateFaithful(st: seq<Bin>, lens: seq<nat>, i: nat)
    requires ItemsOf(st) == multiset(ItemsFor(lens)) && i < |st|
    ensures Faithful(lens, st[i].items)
  {
    hide Flat;
    forall j | 0 <= j < |st[i].items|
      ensures st[i].items[j].idx < |lens| && st[i].items[j].len == lens[st[i].items[j].idx]
    {
      FlatHolds(st, i, j);
      assert st[i].items[j] in multiset(Flat(st));
      assert st[i].items[j] in ItemsFor(lens);
    }
  }

  lemma {:induction false} PartSumIs(lens: seq<nat>, items: seq<Item>)
    requires Faithful(lens, items)
    ensures (forall i :: 0 <= i < |items| ==> Indices(items)[i] < |lens|) && PartSum(lens, Indices(items)) == SumLens(items)
  {
    if items != [] {
      var m := |items| - 1;
      PartSumIs(lens, items[..m]);
      assert Indices(items)[..m] == Indices(items[..m]);
    }
  }

  lemma StateBalanced(st: seq<Bin>, lens: seq<nat>, d: int)
    requires ItemsOf(st) == multiset(ItemsFor(lens)) && Honest(st) && Within(st, d)
    ensures Balanced(lens, Partitions(st), d)
  {
    hide ItemsOf, SumLens, PartSum;
    var parts := Partitions(st);
    forall i | 0 <= i < |st|
      ensures forall j :: 0 <= j < |parts[i]| ==> parts[i][j] < |lens|
    {
      StateFaithful(st, lens, i);
    }
    assert InRange(parts, |lens|);
    forall i | 0 <= i < |st| ensures PartSum(lens, parts[i]) == st[i].sum {
      StateFaithful(st, lens, i);
      PartSumIs(lens, st[i].items);
    }
  }

  lemma {:induction false} SinglesFlat(st: seq<Bin>)
    requires Singles(st)
    ensures |Flat(st)| <= |st| && (!NoneEmpty(st) ==> |Flat(st)| < |st|)
  {
    if st != [] { SinglesFlat(st[..|st| - 1]); }
  }

  /** With at least as many items as sets, no set is empty. */
  lemma {:induction false} NoPartEmpty(st: seq<Bin>, n: nat)
    requires Shaped(st) && |Flat(st)| == n >= |st|
    ensures forall i :: 0 <= i < |st| ==> Partitions(st)[i] != []
  {
    if !NoneEmpty(st) { SinglesFlat(st); }
  }

  lemma {:induction false} EvenFlat(st: seq<Bin>, size: nat)
    requires forall i :: 0 <= i < |st| ==> |st[i].items| == size
    ensures |Flat(st)| == size * |st|
  {
    if st != [] {
      EvenFlat(st[..|st| - 1], size);
      assert size * |st| == size * (|st| - 1) + size;
    }
  }

  lemma {:induction false} ItemCount(st: seq<Bin>, lens: seq<nat>)
    requires ItemsOf(st) == multiset(ItemsFor(lens))
    ensures |Flat(st)| == |lens|
  {
    assert |multiset(Flat(st))| == |Flat(st)| && |multiset(ItemsFor(lens))| == |lens|;
  }

  // ---- the algorithm -------------------------------------------------------

  /** The largest spread of a group of `k` neighbours in the sorted list. */
  function GroupSpread(sorted: seq<Item>, k: nat): nat
    requires k >= 1 && |sorted| % k == 0 && Ascending(sorted)
  {
    if sorted == [] then 0
    else
      GroupFits(sorted, k);
      var n := |sorted| - k;
      var rest := GroupSpread(sorted[..n], k);
      var last := sorted[|sorted| - 1].len - sorted[n].len;
      if rest >= last then rest else last
  }

  lemma GroupFits(sorted: seq<Item>, k: nat)
    requires k >= 1 && sorted != [] && |sorted| % k == 0
    ensures |sorted| >= k && (|sorted| - k) % k == 0
  {
    var q := |sorted| / k;
    assert |sorted| == k * q;
    MulCancel(k, 0, q);
    DivShift(|sorted| - k, k);
    assert k * (q - 1) == |sorted| - k;
    DivUnique(|sorted| - k, k, q - 1);
  }

  /** How far apart the sums may end up. */
  function Bound(lens: seq<nat>, k: nat, equal: bool): nat
    requires lens != [] && k >= 1 && (equal ==> |lens| % k == 0)
  {
    if equal then
      SortItemsAscending(ItemsFor(lens));
      GroupSpread(SortItems(ItemsFor(lens)), k)
    else Largest(lens)
  }

  predicate AllSound(heap: seq<seq<Bin>>, k: nat, d: nat, equal: bool) {
    forall st :: st in heap ==> Sound(st, k, d) && (equal ==> Even(st))
  }

  lemma SoundFilled(heap: seq<seq<Bin>>, k: nat, d: nat, equal: bool)
    requires k >= 1 && AllSound(heap, k, d, equal)
    ensures Filled(heap)
  {
    hide Descending, Honest, Within, Shaped, Even;
    forall i | 0 <= i < |heap| ensures heap[i] != [] { assert heap[i] in heap; }
  }

  method StartGroups(sorted: seq<Item>, k: nat) returns (heap: seq<seq<Bin>>)
    requires k >= 1 && sorted != [] && |sorted| % k == 0 && Ascending(sorted)
    ensures heap != [] && AllSound(heap, k, GroupSpread(sorted, k), true) && HeapItems(heap) == multiset(sorted)
    ensures StartsFrom(heap, sorted, k, true)
  {
    hide HeapItems, ItemsOf, Sound, Even, Start, GroupSpread, Grouped;
    heap := [];
    NoGroups(sorted, k);
    var at := 0;
    ghost var d := GroupSpread(sorted, k);
    assert multiset(sorted[..0]) == multiset{};
    HeapNothing();
    while at < |sorted|
      invariant 0 <= at <= |sorted| && at % k == 0 && (at > 0 ==> heap != [])
      invariant AllSound(heap, k, d, true) && HeapItems(heap) == multiset(sorted[..at])
      invariant Grouped(heap, sorted, k, at)
    {
      GroupNear(sorted, k, at);
      var items := sorted[at..at + k];
      NextGroup(heap, sorted, k, at);
      StartSound(items, k, d);
      HeapNext(heap, Start(items, k));
      heap := heap + [Start(items, k)];
      assert sorted[..at + k] == sorted[..at] + items;
      at := at + k;
    }
    assert sorted[..|sorted|] == sorted;
    AllGroups(heap, sorted, k);
  }

  lemma NoGroups(sorted: seq<Item>, k: nat)
    ensures Grouped([], sorted, k, 0)
  {
  }

  lemma AllGroups(heap: seq<seq<Bin>>, sorted: seq<Item>, k: nat)
    requires Grouped(heap, sorted, k, |sorted|)
    ensures StartsFrom(heap, sorted, k, true)
  {
  }

  /** A group of the sorted list lies within the group spread. */
  lemma {:induction false} GroupNear(sorted: seq<Item>, k: nat, at: nat)
    requires k >= 1 && |sorted| % k == 0 && Ascending(sorted) && at < |sorted| && at % k == 0
    ensures at + k <= |sorted| && (at + k) % k == 0
    ensures Startable(sorted[at..at + k], k, GroupSpread(sorted, k))
    decreases |sorted|
  {
    hide Startable, Ascending;
    GroupFits(sorted, k);
    var n := |sorted| - k;
    MultipleSteps(at, |sorted|, k);
    assert Ascending(sorted[..n]) by { AscendingPrefix(sorted, n); }
    if at < n {
      GroupNear(sorted[..n], k, at);
      assert sorted[..n][at..at + k] == sorted[at..at + k];
      WiderStart(sorted[at..at + k], k, GroupSpread(sorted[..n], k), GroupSpread(sorted, k));
    } else {
      LastGroup(sorted, k, GroupSpread(sorted, k));
    }
  }

  lemma AscendingPrefix(sorted: seq<Item>, n: nat)
    requires Ascending(sorted) && n <= |sorted|
    ensures Ascending(sorted[..n])
  {
  }

  lemma WiderStart(items: seq<Item>, k: nat, d: nat, e: nat)
    requires Startable(items, k, d) && d <= e
    ensures Startable(items, k, e)
  {
  }

  lemma LastGroup(sorted: seq<Item>, k: nat, d: nat)
    requires 1 <= k <= |sorted| && Ascending(sorted) && sorted[|sorted| - 1].len - sorted[|sorted| - k].len <= d
    ensures Startable(sorted[|sorted| - k..|sorted|], k, d)
  {
    var g := sorted[|sorted| - k..|sorted|];
    forall i, j | 0 <= i < k && 0 <= j < k ensures g[i].len - g[j].len <= d {
      assert g[i] == sorted[|sorted| - k + i] && g[j] == sorted[|sorted| - k + j];
    }
  }

  /** Multiples of k below another multiple are at least k below it. */
  lemma MultipleSteps(a: nat, b: nat, k: nat)
    requires k >= 1 && a % k == 0 && b % k == 0 && a < b
    ensures a + k <= b && (a + k) % k == 0
  {
    var p, q := a / k, b / k;
    assert a == k * p && b == k * q;
    MulCancel(k, p, q);
    MulMonotone(k, p + 1, q);
    assert k * (p + 1) == a + k;
    DivUnique(a + k, k, p + 1);
  }

  method StartSingles(sorted: seq<Item>, k: nat, ghost d: nat) returns (heap: seq<seq<Bin>>)
    requires k >= 1 && sorted != [] && forall i :: 0 <= i < |sorted| ==> sorted[i].len <= d
    ensures heap != [] && AllSound(heap, k, d, false) && HeapItems(heap) == multiset(sorted)
    ensures StartsFrom(heap, sorted, k, false)
  {
    hide HeapItems, ItemsOf, Sound, Start, Initial;
    heap := [];
    HeapNothing();
    for i := 0 to |sorted|
      invariant |heap| == i && AllSound(heap, k, d, false) && HeapItems(heap) == multiset(sorted[..i])
      invariant forall g :: 0 <= g < i ==> Initial(heap[g], [sorted[g]], k)
    {
      StartIsInitial([sorted[i]], k);
      StartSound([sorted[i]], k, d);
      HeapNext(heap, Start([sorted[i]], k));
      heap := heap + [Start([sorted[i]], k)];
      assert sorted[..i + 1] == sorted[..i] + [sorted[i]];
    }
    assert sorted[..|sorted|] == sorted;
  }

  /** The states made of the groups so far, one after the other. */
  ghost predicate Grouped(heap: seq<seq<Bin>>, sorted: seq<Item>, k: nat, at: nat) {
    at == |heap| * k && forall g :: 0 <= g < |heap| ==> Group(heap[g], sorted, g, k)
  }

  lemma {:induction false} NextGroup(heap: seq<seq<Bin>>, sorted: seq<Item>, k: nat, at: nat)
    requires Grouped(heap, sorted, k, at) && at + k <= |sorted|
    ensures Grouped(heap + [Start(sorted[at..at + k], k)], sorted, k, at + k)
  {
    hide Start, Initial;
    StartIsInitial(sorted[at..at + k], k);
    assert (|heap| + 1) * k == |heap| * k + k;
    assert Group(Start(sorted[at..at + k], k), sorted, |heap|, k);
  }

  lemma {:induction false} StartIsInitial(items: seq<Item>, k: nat)
    requires |items| <= k
    ensures Initial(Start(items, k), items, k)
  {
    hide SortBins, SortedUnion;
    SortIsSorted(Spaced(items, k));
  }

  lemma {:induction false} MergeIsUnion(x: seq<Bin>, y: seq<Bin>)
    requires |x| == |y|
    ensures Union(x, y, Merged(x, y))
  {
    hide SortBins, SortedUnion;
    SortIsSorted(Crossed(x, y));
  }

  /** A state that no other one precedes is foremost. */
  lemma {:induction false} PoppedIsForemost(heap: seq<seq<Bin>>, st: seq<Bin>, k: nat, d: nat, equal: bool)
    requires k >= 1 && AllSound(heap, k, d, equal) && st in heap && Filled(heap)
    requires forall i :: 0 <= i < |heap| ==> !Before(heap[i], st)
    ensures Foremost(st, multiset(heap))
  {
    hide Descending, Honest, Within, Shaped, Even, Before, GoesFirst;
    forall o | o in multiset(heap) ensures o != [] && !GoesFirst(o, st) {
      assert o in heap;
      var i :| 0 <= i < |heap| && heap[i] == o;
      assert Sound(o, k, d) && Sound(st, k, d);
      FirstIff(o, st);
    }
  }

  /** Two pops and a merge are one step. */
  lemma {:induction false} PopsAreStep(heap: seq<seq<Bin>>, first: seq<Bin>, one: seq<seq<Bin>>, second: seq<Bin>, rest: seq<seq<Bin>>)
    requires Foremost(first, multiset(heap)) && multiset(heap) == multiset(one) + multiset{first}
    requires Foremost(second, multiset(one)) && multiset(one) == multiset(rest) + multiset{second}
    requires |first| == |second|
    ensures Step(multiset(heap), multiset(rest + [Merged(first, second)]))
  {
    hide Foremost, Union, Merged;
    var z := Merged(first, second);
    MergeIsUnion(first, second);
    assert multiset(heap) - multiset{first} == multiset(one);
    assert multiset(rest + [z]) == multiset(rest) + multiset{z};
    assert StepBy(multiset(heap), first, second, z, multiset(rest + [z]));
  }

  /** Pops the two foremost states and pushes their union. */
  method MergeForemost(heap: seq<seq<Bin>>, k: nat, ghost d: nat, ghost equal: bool) returns (next: seq<seq<Bin>>)
    requires k >= 1 && |heap| > 1 && AllSound(heap, k, d, equal)
    ensures |next| == |heap| - 1 && AllSound(next, k, d, equal) && HeapItems(next) == HeapItems(heap)
    ensures Step(multiset(heap), multiset(next))
  {
    hide HeapItems, ItemsOf, Descending, Within, Shaped, Even, Before, Merged, Foremost, Step, Honest;
    SoundFilled(heap, k, d, equal);
    var first, one := Pop(heap);
    PoppedIsForemost(heap, first, k, d, equal);
    SoundFilled(one, k, d, equal);
    var second, rest := Pop(one);
    PoppedIsForemost(one, second, k, d, equal);
    MergedSound(first, second, k, d);
    var merged := Merge(first, second);
    HeapNext(rest, merged);
    PopsAreStep(heap, first, one, second, rest);
    next := rest + [merged];
  }

  /** Merges the two foremost states until one is left: a chain of differencing steps. */
  method Reduce(start: seq<seq<Bin>>, k: nat, ghost d: nat, ghost equal: bool) returns (final: seq<Bin>, ghost heaps: seq<Heap>)
    requires k >= 1 && start != [] && AllSound(start, k, d, equal)
    ensures Sound(final, k, d) && (equal ==> Even(final)) && ItemsOf(final) == HeapItems(start)
    ensures heaps != [] && Trace(heaps) && heaps[0] == multiset(start) && heaps[|heaps| - 1] == multiset{final}
  {
    hide HeapItems, ItemsOf, Sound, Even, Trace, Step;
    var heap := start;
    heaps := [multiset(start)];
    TraceOne(multiset(start));
    while |heap| > 1
      invariant heap != [] && AllSound(heap, k, d, equal) && HeapItems(heap) == HeapItems(start)
      invariant heaps != [] && Trace(heaps) && heaps[0] == multiset(start) && heaps[|heaps| - 1] == multiset(heap)
      decreases |heap|
    {
      var next := MergeForemost(heap, k, d, equal);
      TraceNext(heaps, multiset(next));
      heap := next;
      heaps := heaps + [multiset(heap)];
    }
    final := heap[0];
    HeapNext([], final);
    HeapNothing();
    assert heap == [] + [final];
    assert final in heap;
  }

  /** The index lists of what differencing makes of the batch. */
  ghost predicate ByDifferencing(lens: seq<nat>, k: nat, equal: bool, parts: seq<seq<nat>>) {
    exists final :: Differenced(lens, k, equal, final) && parts == Partitions(final)
  }

  /** karmarkar_karp.  It fails exactly without items or sets, and in equal-size mode when
      the sizes cannot be equal. */
  method KarmarkarKarp(lens: seq<nat>, k: nat, equal: bool) returns (r: Result<seq<seq<nat>>>)
    ensures r.Ok? <==> lens != [] && k >= 1 && (equal ==> |lens| % k == 0)
    ensures r.Ok? ==> |r.value| == k && Covers(r.value, |lens|) && Balanced(lens, r.value, Bound(lens, k, equal))
    ensures r.Ok? && |lens| >= k ==> forall i :: 0 <= i < k ==> r.value[i] != []
    ensures r.Ok? && equal ==> forall i :: 0 <= i < k ==> |r.value[i]| * k == |lens|
    ensures r.Ok? ==> ByDifferencing(lens, k, equal, r.value)
  {
    hide StartsFrom, Trace, ByLength;
    hide SortItems, HeapItems, ItemsOf, Covers, Balanced, GroupSpread, Descending, Within, Flat, Largest;
    if lens == [] || k == 0 || (equal && |lens| % k != 0) { return Error; }
    var sorted := SortItems(ItemsFor(lens));
    SortItemsPermutes(ItemsFor(lens));
    SortItemsAscending(ItemsFor(lens));
    ghost var d := Bound(lens, k, equal);
    var heap;
    if equal { heap := StartGroups(sorted, k); }
    else {
      ItemsAtMost(lens, sorted);
      heap := StartSingles(sorted, k, d);
    }
    SortByLength(ItemsFor(lens));
    assert StartsFrom(heap, sorted, k, equal);
    var final, heaps := Reduce(heap, k, d, equal);
    assert Differenced(lens, k, equal, final);
    StateCovers(final, lens);
    StateBalanced(final, lens, d);
    ItemCount(final, lens);
    if |lens| >= k { NoPartEmpty(final, |lens|); }
    if equal { EvenFlat(final, |final[0].items|); }
    return Ok(Partitions(final));
  }

  lemma {:induction false} ItemsAtMost(lens: seq<nat>, sorted: seq<Item>)
    requires lens != [] && multiset(sorted) == multiset(ItemsFor(lens))
    ensures forall i :: 0 <= i < |sorted| ==> sorted[i].len <= Largest(lens)
  {
    forall i | 0 <= i < |sorted| ensures sorted[i].len <= Largest(lens) {
      assert sorted[i] in multiset(sorted);
      assert sorted[i] in ItemsFor(lens);
    }
  }

  // ---- checked and sorted partitions ---------------------------------------

  function InsertIndex(sorted: seq<nat>, x: nat): (r: seq<nat>)
    ensures |r| == |sorted| + 1
  {
    if sorted == [] || sorted[|sorted| - 1] <= x then sorted + [x]
    else InsertIndex(sorted[..|sorted| - 1], x) + [sorted[|sorted| - 1]]
  }

  function SortIndices(part: seq<nat>): (r: seq<nat>)
    ensures |r| == |part|
  {
    if part == [] then [] else InsertIndex(SortIndices(part[..|part| - 1]), part[|part| - 1])
  }

  predicate Increasing(part: seq<nat>) { forall i, j :: 0 <= i < j < |part| ==> part[i] <= part[j] }

  lemma {:induction false} InsertIndexPermutes(sorted: seq<nat>, x: nat)
    ensures multiset(InsertIndex(sorted, x)) == multiset(sorted) + multiset{x}
  {
    if sorted != [] && sorted[|sorted| - 1] > x {
      var m := |sorted| - 1;
      InsertIndexPermutes(sorted[..m], x);
      assert sorted == sorted[..m] + [sorted[m]];
    }
  }

  lemma {:induction false} InsertIndexSorted(sorted: seq<nat>, x: nat, top: nat)
    requires Increasing(sorted) && x <= top && forall i :: 0 <= i < |sorted| ==> sorted[i] <= top
    ensures Increasing(InsertIndex(sorted, x))
    ensures forall i :: 0 <= i <= |sorted| ==> InsertIndex(sorted, x)[i] <= top
  {
    if sorted != [] && sorted[|sorted| - 1] > x {
      InsertIndexSorted(sorted[..|sorted| - 1], x, sorted[|sorted| - 1]);
    }
  }

  lemma {:induction false} SortIndicesSorted(part: seq<nat>)
    ensures Increasing(SortIndices(part)) && multiset(SortIndices(part)) == multiset(part)
  {
    hide InsertIndex;
    if part != [] {
      var m := |part| - 1;
      SortIndicesSorted(part[..m]);
      var s := SortIndices(part[..m]);
      InsertIndexSorted(s, part[m], if s == [] || s[m - 1] <= part[m] then part[m] else s[m - 1]);
      InsertIndexPermutes(s, part[m]);
      assert part == part[..m] + [part[m]];
    }
  }

  /** The same partitions, each listed in some other order. */
  ghost predicate Reordered(a: seq<seq<nat>>, b: seq<seq<nat>>) {
    |a| == |b| && forall i :: 0 <= i < |a| ==> multiset(a[i]) == multiset(b[i])
  }

  lemma {:induction false} ReorderedJoined(a: seq<seq<nat>>, b: seq<seq<nat>>)
    requires Reordered(a, b)
    ensures multiset(Joined(a)) == multiset(Joined(b))
  {
    if a != [] { ReorderedJoined(a[..|a| - 1], b[..|b| - 1]); }
  }

  predicate Below(part: seq<nat>, n: nat) { forall i :: 0 <= i < |part| ==> part[i] < n }

  lemma {:induction false} PartSumAppend(lens: seq<nat>, a: seq<nat>, b: seq<nat>)
    requires Below(a, |lens|) && Below(b, |lens|)
    ensures Below(a + b, |lens|) && PartSum(lens, a + b) == PartSum(lens, a) + PartSum(lens, b)
    decreases |b|
  {
    if b == [] { assert a + b == a; }
    else {
      var m := |b| - 1;
      assert (a + b)[..|a| + m] == a + b[..m];
      PartSumAppend(lens, a, b[..m]);
    }
  }

  lemma FindIndex(a: seq<nat>, b: seq<nat>) returns (j: nat)
    requires multiset(a) == multiset(b) && a != []
    ensures j < |b| && b[j] == a[|a| - 1]
    ensures multiset(a[..|a| - 1]) == multiset(b[..j] + b[j + 1..])
  {
    var x := a[|a| - 1];
    assert x in multiset(a);
    assert x in b;
    j :| 0 <= j < |b| && b[j] == x;
    RemoveOne(b, j);
    assert a == a[..|a| - 1] + [x];
    assert multiset(a[..|a| - 1]) == multiset(a) - multiset{x};
    assert multiset(b[..j] + b[j + 1..]) == multiset(b) - multiset{x};
  }

  lemma BelowPermuted(a: seq<nat>, b: seq<nat>, n: nat)
    requires multiset(a) == multiset(b) && Below(a, n)
    ensures Below(b, n)
  {
    forall i | 0 <= i < |b| ensures b[i] < n {
      assert b[i] in multiset(b);
      assert b[i] in a;
    }
  }

  /** The total length does not depend on the order. */
  lemma {:induction false} PartSumPermuted(lens: seq<nat>, a: seq<nat>, b: seq<nat>)
    requires multiset(a) == multiset(b) && Below(a, |lens|) && Below(b, |lens|)
    ensures PartSum(lens, a) == PartSum(lens, b)
    decreases |a|
  {
    if a == [] { assert |multiset(b)| == 0; assert b == []; }
    else {
      var j := FindIndex(a, b);
      PartSumPermuted(lens, a[..|a| - 1], b[..j] + b[j + 1..]);
      PartSumAppend(lens, b[..j], b[j + 1..]);
      assert b[..j + 1][..j] == b[..j];
      PartSumAppend(lens, b[..j + 1], b[j + 1..]);
      assert b == b[..j + 1] + b[j + 1..];
    }
  }

  lemma ReorderedBalanced(lens: seq<nat>, a: seq<seq<nat>>, b: seq<seq<nat>>, d: int)
    requires Reordered(a, b) && Balanced(lens, a, d)
    ensures Balanced(lens, b, d)
  {
    hide PartSum;
    forall i | 0 <= i < |a| ensures Below(b[i], |lens|) { assert Below(a[i], |lens|); BelowPermuted(a[i], b[i], |lens|); }
    forall i | 0 <= i < |a| ensures PartSum(lens, a[i]) == PartSum(lens, b[i]) { PartSumPermuted(lens, a[i], b[i]); }
  }

  method See(before: set<nat>, part: seq<nat>) returns (seen: set<nat>)
    ensures forall x :: x in seen <==> x in before || x in part
  {
    seen := before;
    for j := 0 to |part|
      invariant forall x :: x in seen <==> x in before || x in part[..j]
    {
      seen := seen + {part[j]};
    }
    assert part[..|part|] == part;
  }

  /** _check_and_sort_partitions: the checks of the source, in its order. */
  method CheckAndSort(parts: seq<seq<nat>>, k: nat, n: nat) returns (r: Result<seq<seq<nat>>>)
    ensures r.Ok? <==> |parts| == k && (forall i :: 0 <= i < k ==> parts[i] != []) && forall x: nat :: x in Joined(parts) <==> x < n
    ensures |parts| == k && Covers(parts, n) && (forall i :: 0 <= i < k ==> parts[i] != []) ==> r.Ok?
    ensures r.Ok? ==> Reordered(parts, r.value) && forall i :: 0 <= i < |parts| ==> Increasing(r.value[i])
  {
    assert Joined(parts[..0]) == [];
    hide Covers, SortIndices, Joined, Increasing;
    if |parts| != k { return Error; }
    var seen: set<nat> := {};
    var sorted: seq<seq<nat>> := [];
    for i := 0 to k
      invariant |sorted| == i && forall j :: 0 <= j < i ==> parts[j] != []
      invariant forall j :: 0 <= j < i ==> multiset(parts[j]) == multiset(sorted[j]) && Increasing(sorted[j])
      invariant forall x :: x in seen <==> x in Joined(parts[..i])
    {
      if parts[i] == [] { return Error; }
      seen := See(seen, parts[i]);
      assert Joined(parts[..i + 1]) == Joined(parts[..i]) + parts[i] by { JoinedNext(parts, i); }
      SortIndicesSorted(parts[i]);
      sorted := sorted + [SortIndices(parts[i])];
    }
    assert parts[..k] == parts;
    CoverSeen(parts, n, seen);
    assert (forall x: nat :: x in Joined(parts) <==> x < n) ==> seen == RangeSet(n);
    if seen != RangeSet(n) { return Error; }
    return Ok(sorted);
  }

  lemma JoinedNext(parts: seq<seq<nat>>, i: nat)
    requires i < |parts|
    ensures Joined(parts[..i + 1]) == Joined(parts[..i]) + parts[i]
  {
    assert parts[..i + 1][..i] == parts[..i];
  }

  /** set(range(n)) */
  function RangeSet(n: nat): (s: set<nat>)
    ensures forall x: nat :: x in s <==> x < n
  {
    if n == 0 then {} else RangeSet(n - 1) + {n - 1}
  }

  /** What a covering partition shows is the whole range. */
  lemma {:induction false} CoverSeen(parts: seq<seq<nat>>, n: nat, seen: set<nat>)
    requires forall x :: x in seen <==> x in Joined(parts)
    ensures Covers(parts, n) ==> seen == RangeSet(n)
  {
    if Covers(parts, n) {
      forall x: nat ensures x in seen <==> x in RangeSet(n) {
        assert x in Joined(parts) <==> multiset(Joined(parts))[x] > 0;
      }
    }
  }

  /** get_seqlen_balanced_partitions succeeds exactly with 1 <= k <= n, k dividing n in
      equal-size mode: none of its run-time asserts about the outcome can fail. */
  method BalancedPartitions(lens: seq<nat>, k: nat, equal: bool) returns (r: Result<seq<seq<nat>>>)
    ensures r.Ok? <==> 1 <= k <= |lens| && (equal ==> |lens| % k == 0)
    ensures r.Ok? ==> && |r.value| == k && Covers(r.value, |lens|)
                      && Balanced(lens, r.value, Bound(lens, k, equal))
                      && forall i :: 0 <= i < k ==> r.value[i] != [] && Increasing(r.value[i])
    ensures r.Ok? && equal ==> forall i :: 0 <= i < k ==> |r.value[i]| * k == |lens|
    ensures r.Ok? ==> exists raw :: ByDifferencing(lens, k, equal, raw) && Reordered(raw, r.value)
  {
    hide ByDifferencing;
    hide Covers, Balanced, Bound, Increasing, Joined;
    if |lens| < k { return Error; }
    var raw := KarmarkarKarp(lens, k, equal);
    if raw.Error? { return Error; }
    r := CheckAndSort(raw.value, k, |lens|);
    SameSizes(raw.value, r.value);
    ReorderedJoined(raw.value, r.value);
    assert Covers(r.value, |lens|) by { CoversSame(raw.value, r.value, |lens|); }
    ReorderedBalanced(lens, raw.value, r.value, Bound(lens, k, equal));
  }

  lemma {:induction false} CoversSame(a: seq<seq<nat>>, b: seq<seq<nat>>, n: nat)
    requires Covers(a, n) && multiset(Joined(a)) == multiset(Joined(b))
    ensures Covers(b, n)
  {
  }

  lemma SameSizes(a: seq<seq<nat>>, b: seq<seq<nat>>)
    requires Reordered(a, b)
    ensures forall i :: 0 <= i < |a| ==> |a[i]| == |b[i]|
  {
    forall i | 0 <= i < |a| ensures |a[i]| == |b[i]| {
      assert |multiset(a[i])| == |a[i]| && |multiset(b[i])| == |b[i]|;
    }
  }
}
