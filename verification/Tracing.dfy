/** The differencing method as a relation: what it starts from, which two states each step
    merges and into what, stated through sums and items alone. */
module Tracing {
  import opened Arith
  import opened Differencing

  type Sets = seq<Bin>

  // ---- the order of sets ---------------------------------------------------

  predicate ItemAbove(a: Item, b: Item) { a.idx > b.idx || (a.idx == b.idx && a.len > b.len) }

  /** The larger sum, then more items, then the first item in which they differ. */
  ghost predicate SetAbove(a: Bin, b: Bin) {
    || a.sum > b.sum
    || (a.sum == b.sum && |a.items| > |b.items|)
    || (a.sum == b.sum && |a.items| == |b.items| &&
        exists k :: 0 <= k < |a.items| && a.items[..k] == b.items[..k] && ItemAbove(a.items[k], b.items[k]))
  }

  ghost predicate FirstDifference(a: seq<Item>, b: seq<Item>, k: int) {
    0 <= k < |a| && k < |b| && b[..k] == a[..k] && ItemAbove(b[k], a[k])
  }

  lemma {:induction false} LexIffDifference(a: seq<Item>, b: seq<Item>)
    requires |a| == |b|
    ensures LexLess(a, b) <==> exists k :: FirstDifference(a, b, k)
  {
    if a != [] {
      LexIffDifference(a[1..], b[1..]);
      if LexLess(a, b) {
        if ItemLess(a[0], b[0]) { assert FirstDifference(a, b, 0); }
        else {
          var k :| FirstDifference(a[1..], b[1..], k);
          assert b[..k + 1] == [b[0]] + b[1..][..k] && a[..k + 1] == [a[0]] + a[1..][..k];
          assert FirstDifference(a, b, k + 1);
        }
      }
      if k :| FirstDifference(a, b, k) {
        if k > 0 {
          assert a[0] == a[..k][0] && b[0] == b[..k][0];
          assert b[1..][..k - 1] == b[..k][1..] && a[1..][..k - 1] == a[..k][1..];
          assert FirstDifference(a[1..], b[1..], k - 1);
        }
      }
    }
  }

  lemma {:induction false} SetAboveIff(a: Bin, b: Bin)
    ensures SetAbove(a, b) <==> BinLess(b, a)
  {
    hide LexLess;
    if a.sum == b.sum && |a.items| == |b.items| {
      LexIffDifference(b.items, a.items);
      if SetAbove(a, b) {
        var k :| 0 <= k < |a.items| && a.items[..k] == b.items[..k] && ItemAbove(a.items[k], b.items[k]);
        assert FirstDifference(b.items, a.items, k);
      }
      if k :| FirstDifference(b.items, a.items, k) {
        assert 0 <= k < |a.items| && a.items[..k] == b.items[..k];
      }
    }
  }

  // ---- sorted states -------------------------------------------------------

  lemma {:induction false} LexTotal(a: seq<Item>, b: seq<Item>)
    ensures LexLess(a, b) || LexLess(b, a) || a == b
  {
    if a != [] && b != [] && a[0] == b[0] {
      LexTotal(a[1..], b[1..]);
      assert a == [a[0]] + a[1..] && b == [b[0]] + b[1..];
    }
  }

  /** Not being below is transitive. */
  lemma {:induction false} NotBelow(a: Bin, b: Bin, c: Bin)
    requires !BinLess(a, b) && !BinLess(b, c)
    ensures !BinLess(a, c)
  {
    hide LexLess;
    if BinLess(a, c) && a.sum == b.sum == c.sum && |a.items| == |b.items| == |c.items| {
      LexTotal(a.items, b.items);
      LexTotal(b.items, c.items);
      if LexLess(b.items, a.items) {
        LexTransitive(b.items, a.items, c.items);
      }
    }
  }

  predicate FullySorted(st: Sets) { forall i, j :: 0 <= i < j < |st| ==> !BinLess(st[i], st[j]) }

  lemma {:induction false} InsertFully(sorted: Sets, x: Bin)
    requires FullySorted(sorted)
    ensures FullySorted(InsertBin(sorted, x))
    ensures forall i :: 0 <= i <= |sorted| ==> InsertBin(sorted, x)[i] in sorted + [x]
  {
    hide BinLess;
    var m := |sorted| - 1;
    if sorted == [] || !BinLess(sorted[m], x) {
      forall i | 0 <= i < |sorted| ensures !BinLess(sorted[i], x) { if i < m { NotBelow(sorted[i], sorted[m], x); } }
    } else {
      InsertFully(sorted[..m], x);
      var r := InsertBin(sorted[..m], x);
      assert !BinLess(x, sorted[m]) by { BinAsymmetric(sorted[m], x); }
      forall i | 0 <= i < |r| ensures !BinLess(r[i], sorted[m]) {
        assert r[i] in sorted[..m] + [x];
      }
    }
  }

  lemma {:induction false} BinAsymmetric(a: Bin, b: Bin)
    requires BinLess(a, b)
    ensures !BinLess(b, a)
  {
    hide LexLess;
    if BinLess(b, a) {
      BinTransitive(a, b, a);
      LexIrreflexive(a.items);
    }
  }

  lemma {:induction false} SortFully(bins: Sets)
    ensures FullySorted(SortBins(bins))
  {
    hide FullySorted, InsertBin;
    if bins != [] {
      SortFully(bins[..|bins| - 1]);
      InsertFully(SortBins(bins[..|bins| - 1]), bins[|bins| - 1]);
    } else { assert FullySorted([]) by { NothingSorted(); } }
  }

  lemma NothingSorted()
    ensures FullySorted([])
  {
  }

  /** The sets of `bins`, none of them behind a smaller one. */
  ghost predicate SortedUnion(st: Sets, bins: Sets) {
    multiset(st) == multiset(bins) && forall i, j :: 0 <= i < j < |st| ==> !SetAbove(st[j], st[i])
  }

  lemma {:induction false} SortIsSorted(bins: Sets)
    ensures SortedUnion(SortBins(bins), bins)
  {
    hide SortBins, SetAbove, BinLess;
    SortFully(bins);
    SortItemsKept(bins);
    var st := SortBins(bins);
    forall i, j | 0 <= i < j < |st| ensures !SetAbove(st[j], st[i]) { SetAboveIff(st[j], st[i]); }
  }

  // ---- which states a step merges ------------------------------------------

  /** Two sums of `a` are further apart than any two of `b`. */
  ghost predicate Wider(a: Sets, b: Sets) {
    exists i, j :: 0 <= i < |a| && 0 <= j < |a| && Outdoes(a[i].sum - a[j].sum, b)
  }

  ghost predicate Outdoes(d: int, b: Sets) {
    forall p, q :: 0 <= p < |b| && 0 <= q < |b| ==> d > b[p].sum - b[q].sum
  }

  /** `a` goes first: it is wider or, equally wide, its largest set is above that of `b`. */
  ghost predicate GoesFirst(a: Sets, b: Sets)
    requires a != [] && b != []
  {
    Wider(a, b) || (!Wider(b, a) && SetAbove(a[0], b[0]))
  }

  lemma {:induction false} WiderIff(a: Sets, b: Sets)
    requires Descending(a) && Descending(b) && a != [] && b != []
    ensures Wider(a, b) <==> Spread(a) > Spread(b)
  {
    hide Descending;
    SpreadIsWithin(a, Spread(a));
    SpreadIsWithin(b, Spread(b));
    if Spread(a) > Spread(b) { assert Outdoes(a[0].sum - a[|a| - 1].sum, b); }
    if Wider(a, b) {
      var i, j :| 0 <= i < |a| && 0 <= j < |a| && Outdoes(a[i].sum - a[j].sum, b);
      assert a[i].sum - a[j].sum > b[0].sum - b[|b| - 1].sum;
    }
  }

  lemma {:induction false} FirstIff(a: Sets, b: Sets)
    requires Descending(a) && Descending(b) && a != [] && b != []
    ensures GoesFirst(a, b) <==> Before(a, b)
  {
    hide Descending, Wider, SetAbove, BinLess;
    WiderIff(a, b);
    WiderIff(b, a);
    SetAboveIff(a[0], b[0]);
  }

  type Heap = multiset<Sets>

  ghost predicate Foremost(st: Sets, heap: Heap) {
    st in heap && st != [] && forall o :: o in heap ==> o != [] && !GoesFirst(o, st)
  }

  /** `z` unites `x` and `y` crosswise: the i-th largest set with the i-th smallest. */
  ghost predicate Union(x: Sets, y: Sets, z: Sets) { |x| == |y| && SortedUnion(z, Crossed(x, y)) }

  /** One step: the foremost state and the foremost of the others are replaced by their union. */
  ghost predicate Step(from: Heap, to: Heap) {
    exists x, y, z :: StepBy(from, x, y, z, to)
  }

  ghost predicate StepBy(from: Heap, x: Sets, y: Sets, z: Sets, to: Heap) {
    && Foremost(x, from) && Foremost(y, from - multiset{x}) && Union(x, y, z)
    && to == from - multiset{x} - multiset{y} + multiset{z}
  }

  /** Step after step. */
  ghost predicate Trace(heaps: seq<Heap>) {
    heaps != [] && forall t :: 0 <= t < |heaps| - 1 ==> Step(heaps[t], heaps[t + 1])
  }

  lemma TraceOne(heap: Heap)
    ensures Trace([heap])
  {
  }

  lemma {:induction false} TraceNext(heaps: seq<Heap>, to: Heap)
    requires heaps != [] && Trace(heaps) && Step(heaps[|heaps| - 1], to)
    ensures Trace(heaps + [to])
  {
    hide Step;
    var all := heaps + [to];
    forall t | 0 <= t < |all| - 1 ensures Step(all[t], all[t + 1]) {
      if t < |heaps| - 1 { assert all[t] == heaps[t] && all[t + 1] == heaps[t + 1]; }
    }
  }

  // ---- what it starts from -------------------------------------------------

  /** A state of the items, one to a set, the other sets empty. */
  ghost predicate Initial(st: Sets, items: seq<Item>, k: nat) { |items| <= k && SortedUnion(st, Spaced(items, k)) }

  /** By length and, among equal lengths, by index. */
  predicate ByLength(items: seq<Item>) {
    forall i, j :: 0 <= i < j < |items| ==>
      items[i].len < items[j].len || (items[i].len == items[j].len && items[i].idx <= items[j].idx)
  }

  lemma {:induction false} InsertByLength(sorted: seq<Item>, x: Item)
    requires ByLength(sorted)
    ensures ByLength(InsertItem(sorted, x))
    ensures forall i :: 0 <= i <= |sorted| ==> InsertItem(sorted, x)[i] in sorted + [x]
  {
    var m := |sorted| - 1;
    if sorted != [] && !Shorter(sorted[m], x) {
      InsertByLength(sorted[..m], x);
      var r := InsertItem(sorted[..m], x);
      forall i | 0 <= i < |r| ensures Shorter(r[i], sorted[m]) { assert r[i] in sorted[..m] + [x]; }
    }
  }

  lemma {:induction false} SortByLength(items: seq<Item>)
    ensures ByLength(SortItems(items))
  {
    hide InsertItem;
    if items != [] {
      SortByLength(items[..|items| - 1]);
      InsertByLength(SortItems(items[..|items| - 1]), items[|items| - 1]);
    }
  }

  /** One state per item or, for parts of equal size, one per group of k neighbours by length. */
  ghost predicate StartsFrom(heap: seq<Sets>, sorted: seq<Item>, k: nat, equal: bool) {
    if equal then
      |heap| * k == |sorted| && forall g :: 0 <= g < |heap| ==> Group(heap[g], sorted, g, k)
    else |heap| == |sorted| && forall g :: 0 <= g < |heap| ==> Initial(heap[g], [sorted[g]], k)
  }

  ghost predicate Group(st: Sets, sorted: seq<Item>, g: nat, k: nat) {
    g * k + k <= |sorted| && Initial(st, sorted[g * k..g * k + k], k)
  }

  /** The final state is what differencing makes of the batch. */
  ghost predicate Differenced(lens: seq<nat>, k: nat, equal: bool, final: Sets) {
    exists sorted: seq<Item>, start: seq<Sets>, heaps: seq<Heap> ::
      && multiset(sorted) == multiset(ItemsFor(lens)) && ByLength(sorted)
      && StartsFrom(start, sorted, k, equal)
      && Trace(heaps) && heaps[0] == multiset(start) && heaps[|heaps| - 1] == multiset{final}
  }
}
