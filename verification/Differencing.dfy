/** The states of the Karmarkar-Karp differencing method: sets of items, the heap of
    states, and what merging two states keeps. */
module Differencing {

  /** An index of the batch together with its sequence length. */
  datatype Item = Item(idx: nat, len: nat)

  /** One set of a state: its items and their total length. */
  datatype Bin = Bin(items: seq<Item>, sum: int)

  datatype Result<+T> = Ok(value: T) | Error

  function SumLens(items: seq<Item>): nat {
    if items == [] then 0 else SumLens(items[..|items| - 1]) + items[|items| - 1].len
  }

  function Total(lens: seq<nat>): nat {
    if lens == [] then 0 else Total(lens[..|lens| - 1]) + lens[|lens| - 1]
  }

  function Largest(lens: seq<nat>): (m: nat)
    requires lens != []
    ensures forall i :: 0 <= i < |lens| ==> lens[i] <= m
    ensures exists i :: 0 <= i < |lens| && lens[i] == m
  {
    if |lens| == 1 then lens[0]
    else
      var rest := Largest(lens[..|lens| - 1]);
      assert forall i :: 0 <= i < |lens| - 1 ==> lens[i] == lens[..|lens| - 1][i];
      if rest >= lens[|lens| - 1] then rest else lens[|lens| - 1]
  }

  // ---- the order of the sets of a state ------------------------------------

  predicate ItemLess(a: Item, b: Item) { a.idx < b.idx || (a.idx == b.idx && a.len < b.len) }

  /** Comparison of lists of items. */
  predicate LexLess(a: seq<Item>, b: seq<Item>) {
    b != [] && (a == [] || ItemLess(a[0], b[0]) || (a[0] == b[0] && LexLess(a[1..], b[1..])))
  }

  predicate BinLess(a: Bin, b: Bin) {
    if a.sum != b.sum then a.sum < b.sum
    else if |a.items| != |b.items| then |a.items| < |b.items|
    else LexLess(a.items, b.items)
  }

  function InsertBin(sorted: seq<Bin>, x: Bin): (r: seq<Bin>)
    ensures |r| == |sorted| + 1
  {
    if sorted == [] || !BinLess(sorted[|sorted| - 1], x) then sorted + [x]
    else InsertBin(sorted[..|sorted| - 1], x) + [sorted[|sorted| - 1]]
  }

  /** sorted(sets, reverse=True) */
  function SortBins(bins: seq<Bin>): (r: seq<Bin>)
    ensures |r| == |bins|
  {
    if bins == [] then [] else InsertBin(SortBins(bins[..|bins| - 1]), bins[|bins| - 1])
  }

  /** By sum and, among equal sums, by number of items. */
  predicate AtLeast(a: Bin, b: Bin) {
    a.sum > b.sum || (a.sum == b.sum && |a.items| >= |b.items|)
  }

  predicate Descending(bins: seq<Bin>) {
    forall i, j :: 0 <= i < j < |bins| ==> AtLeast(bins[i], bins[j])
  }

  lemma {:induction false} InsertDescending(sorted: seq<Bin>, x: Bin, top: Bin)
    requires Descending(sorted)
    requires AtLeast(top, x) && forall i :: 0 <= i < |sorted| ==> AtLeast(top, sorted[i])
    ensures Descending(InsertBin(sorted, x))
    ensures forall i :: 0 <= i <= |sorted| ==> AtLeast(top, InsertBin(sorted, x)[i])
    ensures forall i :: 0 <= i <= |sorted| ==> InsertBin(sorted, x)[i] in sorted + [x]
  {
    hide LexLess;
    if sorted != [] && BinLess(sorted[|sorted| - 1], x) {
      var m := |sorted| - 1;
      InsertDescending(sorted[..m], x, top);
      var r := InsertBin(sorted[..m], x);
      forall i | 0 <= i < |r| ensures AtLeast(r[i], sorted[m]) {
        assert r[i] in sorted[..m] + [x];
      }
    }
  }

  lemma {:induction false} SortDescending(bins: seq<Bin>)
    ensures Descending(SortBins(bins))
  {
    if bins != [] {
      var m := |bins| - 1;
      SortDescending(bins[..m]);
      var s := SortBins(bins[..m]);
      var top := Top(s + [bins[m]]);
      InsertDescending(s, bins[m], top);
    }
  }

  /** Something at least as large as all of `bins`. */
  function Top(bins: seq<Bin>): (t: Bin)
    ensures forall i :: 0 <= i < |bins| ==> AtLeast(t, bins[i])
  {
    if bins == [] then Bin([], 0)
    else
      var t := Top(bins[..|bins| - 1]);
      assert forall i :: 0 <= i < |bins| - 1 ==> bins[i] == bins[..|bins| - 1][i];
      if AtLeast(t, bins[|bins| - 1]) then t else bins[|bins| - 1]
  }

  // ---- what a state holds --------------------------------------------------

  /** The items of all sets, one set after the other. */
  function Flat(bins: seq<Bin>): seq<Item> {
    if bins == [] then [] else Flat(bins[..|bins| - 1]) + bins[|bins| - 1].items
  }

  ghost function ItemsOf(bins: seq<Bin>): multiset<Item> { multiset(Flat(bins)) }

  ghost function HeapItems(heap: seq<seq<Bin>>): multiset<Item> {
    if heap == [] then multiset{} else HeapItems(heap[..|heap| - 1]) + ItemsOf(heap[|heap| - 1])
  }

  lemma ItemsNext(bins: seq<Bin>, x: Bin)
    ensures ItemsOf(bins + [x]) == ItemsOf(bins) + multiset(x.items)
  {
    assert (bins + [x])[..|bins|] == bins;
  }

  lemma {:induction false} ItemsAppend(a: seq<Bin>, b: seq<Bin>)
    ensures ItemsOf(a + b) == ItemsOf(a) + ItemsOf(b)
    decreases |b|
  {
    hide ItemsOf;
    if b == [] { assert a + b == a; NothingHeld(); }
    else {
      var m := |b| - 1;
      ItemsAppend(a, b[..m]);
      ItemsNext(a + b[..m], b[m]);
      ItemsNext(b[..m], b[m]);
      assert a + b == (a + b[..m]) + [b[m]] && b == b[..m] + [b[m]];
    }
  }

  lemma {:induction false} InsertItems(sorted: seq<Bin>, x: Bin)
    ensures ItemsOf(InsertBin(sorted, x)) == ItemsOf(sorted) + multiset(x.items)
    ensures multiset(InsertBin(sorted, x)) == multiset(sorted) + multiset{x}
  {
    hide BinLess, ItemsOf;
    var m := |sorted| - 1;
    ItemsNext(sorted, x);
    if sorted != [] && BinLess(sorted[m], x) {
      InsertItems(sorted[..m], x);
      ItemsNext(InsertBin(sorted[..m], x), sorted[m]);
      ItemsNext(sorted[..m], sorted[m]);
      assert sorted == sorted[..m] + [sorted[m]];
    }
  }

  /** Sorting keeps the sets, hence the items. */
  lemma {:induction false} SortItemsKept(bins: seq<Bin>)
    ensures ItemsOf(SortBins(bins)) == ItemsOf(bins)
    ensures multiset(SortBins(bins)) == multiset(bins)
  {
    hide ItemsOf, InsertBin;
    if bins != [] {
      var m := |bins| - 1;
      SortItemsKept(bins[..m]);
      InsertItems(SortBins(bins[..m]), bins[m]);
      ItemsNext(bins[..m], bins[m]);
      assert bins == bins[..m] + [bins[m]];
    }
  }

  // ---- merging -------------------------------------------------------------

  /** Set i of `a` takes in set k-1-i of `b`. */
  function Crossed(a: seq<Bin>, b: seq<Bin>): (c: seq<Bin>)
    requires |a| == |b|
    ensures |c| == |a|
    ensures forall i :: 0 <= i < |a| ==>
              c[i] == Bin(a[i].items + b[|a| - 1 - i].items, a[i].sum + b[|a| - 1 - i].sum)
  {
    seq(|a|, i requires 0 <= i < |a| =>
      Bin(a[i].items + b[|a| - 1 - i].items, a[i].sum + b[|a| - 1 - i].sum))
  }

  function Spread(st: seq<Bin>): int
    requires st != []
  {
    st[0].sum - st[|st| - 1].sum
  }

  /** The sums of a state differ by at most `d`. */
  predicate Within(st: seq<Bin>, d: int) {
    forall i, j :: 0 <= i < |st| && 0 <= j < |st| ==> st[i].sum - st[j].sum <= d
  }

  lemma SpreadIsWithin(st: seq<Bin>, d: int)
    requires Descending(st) && st != []
    ensures Within(st, d) <==> Spread(st) <= d
  {
    if Spread(st) <= d {
      forall i, j | 0 <= i < |st| && 0 <= j < |st| ensures st[i].sum - st[j].sum <= d {
        assert i == 0 || AtLeast(st[0], st[i]);
        assert j == |st| - 1 || AtLeast(st[j], st[|st| - 1]);
      }
    }
  }

  /** The merge lemma: for i < j the crossed sums differ by between -spread(b) and spread(a). */
  lemma CrossedDifference(a: seq<Bin>, b: seq<Bin>, i: nat, j: nat)
    requires |a| == |b| && Descending(a) && Descending(b) && i < j < |a|
    ensures var c := Crossed(a, b); -Spread(b) <= c[i].sum - c[j].sum <= Spread(a)
  {
    var k := |a|;
    assert AtLeast(a[i], a[j]) && AtLeast(b[k - 1 - j], b[k - 1 - i]);
    assert i == 0 || AtLeast(a[0], a[i]);
    assert j == k - 1 || AtLeast(a[j], a[k - 1]);
    assert k - 1 - j == 0 || AtLeast(b[0], b[k - 1 - j]);
    assert k - 1 - i == k - 1 || AtLeast(b[k - 1 - i], b[k - 1]);
  }

  /** Merging never widens the spread. */
  lemma CrossedWithin(a: seq<Bin>, b: seq<Bin>, d: nat)
    requires |a| == |b| && Descending(a) && Descending(b) && Within(a, d) && Within(b, d)
    ensures Within(Crossed(a, b), d)
  {
    var c := Crossed(a, b);
    forall i, j | 0 <= i < |c| && 0 <= j < |c| ensures c[i].sum - c[j].sum <= d {
      if i < j { CrossedDifference(a, b, i, j); } else if j < i { CrossedDifference(a, b, j, i); }
    }
  }

  lemma {:induction false} SortWithin(bins: seq<Bin>, d: int)
    requires Within(bins, d)
    ensures Within(SortBins(bins), d)
  {
    var s := SortBins(bins);
    SortItemsKept(bins);
    forall i | 0 <= i < |s| ensures s[i] in bins { assert s[i] in multiset(s); }
  }

  /** Crossing loses no item. */
  lemma {:induction false} CrossedItems(a: seq<Bin>, b: seq<Bin>, n: nat)
    requires |a| == |b| && n <= |a|
    ensures ItemsOf(Crossed(a, b)[..n]) == ItemsOf(a[..n]) + ItemsOf(b[|a| - n..])
    decreases n
  {
    hide ItemsOf;
    var c := Crossed(a, b);
    if n == 0 {
      assert c[..0] == [] && a[..0] == [] && b[|a|..] == [];
      NothingHeld();
    } else {
      CrossedItems(a, b, n - 1);
      var x, y := a[n - 1], b[|a| - n];
      CrossedOne(c[..n - 1], a[..n - 1], b[|a| - n + 1..], x, y, c[n - 1]);
      assert c[..n] == c[..n - 1] + [c[n - 1]] && a[..n] == a[..n - 1] + [x];
      assert b[|a| - n..] == [y] + b[|a| - n + 1..];
    }
  }

  lemma NothingHeld()
    ensures ItemsOf([]) == multiset{}
  {
  }

  lemma CrossedOne(c: seq<Bin>, a: seq<Bin>, b: seq<Bin>, x: Bin, y: Bin, z: Bin)
    requires ItemsOf(c) == ItemsOf(a) + ItemsOf(b) && z.items == x.items + y.items
    ensures ItemsOf(c + [z]) == ItemsOf(a + [x]) + ItemsOf([y] + b)
  {
    hide ItemsOf;
    ItemsNext(c, z);
    ItemsNext(a, x);
    ItemsNext([], y);
    NothingHeld();
    ItemsAppend([y], b);
    assert [] + [y] == [y];
    assert multiset(z.items) == multiset(x.items) + multiset(y.items);
  }

  // ---- no set is left empty ------------------------------------------------

  predicate NoneEmpty(st: seq<Bin>) { forall i :: 0 <= i < |st| ==> st[i].items != [] }

  predicate Singles(st: seq<Bin>) { forall i :: 0 <= i < |st| ==> |st[i].items| <= 1 }

  predicate Shaped(st: seq<Bin>) { NoneEmpty(st) || Singles(st) }

  predicate Honest(st: seq<Bin>) { forall i :: 0 <= i < |st| ==> st[i].sum == SumLens(st[i].items) }

  /** In a sorted state the empty sets come last. */
  lemma EmptiesLast(st: seq<Bin>, i: nat, j: nat)
    requires Descending(st) && Honest(st) && i < j < |st| && st[i].items == []
    ensures st[j].items == []
  {
    assert AtLeast(st[i], st[j]);
  }

  /** Two states of singles either fill every set or leave only singles. */
  lemma CrossedShaped(a: seq<Bin>, b: seq<Bin>)
    requires |a| == |b| && Descending(a) && Descending(b) && Honest(a) && Honest(b) && Shaped(a) && Shaped(b)
    ensures Shaped(Crossed(a, b))
  {
    var k, c := |a|, Crossed(a, b);
    if !NoneEmpty(c) {
      var i :| 0 <= i < k && c[i].items == [];
      assert a[i].items == [] && b[k - 1 - i].items == [];
      forall j | 0 <= j < k ensures |c[j].items| <= 1 {
        if j < i { assert b[k - 1 - j].items == [] by { EmptiesLast(b, k - 1 - i, k - 1 - j); } }
        else if i < j { EmptiesLast(a, i, j); }
      }
    }
  }

  lemma {:induction false} SortKeepsMembers(bins: seq<Bin>)
    ensures forall i :: 0 <= i < |bins| ==> SortBins(bins)[i] in bins
  {
    var s := SortBins(bins);
    SortItemsKept(bins);
    forall i | 0 <= i < |bins| ensures s[i] in bins { assert s[i] in multiset(s); }
  }

  lemma {:induction false} SumLensAppend(a: seq<Item>, b: seq<Item>)
    ensures SumLens(a + b) == SumLens(a) + SumLens(b)
    decreases |b|
  {
    if b == [] { assert a + b == a; }
    else {
      var m := |b| - 1;
      assert (a + b)[..|a + b| - 1] == a + b[..m];
      SumLensAppend(a, b[..m]);
    }
  }

  /** What every state on the heap satisfies. */
  predicate Sound(st: seq<Bin>, k: nat, d: nat) {
    |st| == k && Descending(st) && Honest(st) && Within(st, d) && Shaped(st)
  }

  /** All sets of a state have the same number of items. */
  predicate Even(st: seq<Bin>) { forall i, j :: 0 <= i < |st| && 0 <= j < |st| ==> |st[i].items| == |st[j].items| }

  function Merged(a: seq<Bin>, b: seq<Bin>): seq<Bin>
    requires |a| == |b|
  {
    SortBins(Crossed(a, b))
  }

  lemma MergedSound(a: seq<Bin>, b: seq<Bin>, k: nat, d: nat)
    requires Sound(a, k, d) && Sound(b, k, d)
    ensures Sound(Merged(a, b), k, d)
    ensures ItemsOf(Merged(a, b)) == ItemsOf(a) + ItemsOf(b)
    ensures Even(a) && Even(b) ==> Even(Merged(a, b))
  {
    hide SortBins, Within, Shaped, Descending, SumLens, ItemsOf;
    var c := Crossed(a, b);
    CrossedWithin(a, b, d);
    CrossedShaped(a, b);
    forall i | 0 <= i < k ensures c[i].sum == SumLens(c[i].items) { SumLensAppend(a[i].items, b[k - 1 - i].items); }
    SortDescending(c);
    SortWithin(c, d);
    SortItemsKept(c);
    SortKeepsMembers(c);
    ShapedMembers(c, SortBins(c));
    CrossedItems(a, b, k);
    assert c[..k] == c && a[..k] == a && b[k - k..] == b;
  }

  lemma ShapedMembers(c: seq<Bin>, s: seq<Bin>)
    requires Shaped(c) && forall i :: 0 <= i < |s| ==> s[i] in c
    ensures Shaped(s)
  {
  }

  // ---- the heap ------------------------------------------------------------

  lemma {:induction false} LexTransitive(a: seq<Item>, b: seq<Item>, c: seq<Item>)
    requires LexLess(a, b) && LexLess(b, c)
    ensures LexLess(a, c)
  {
    if a != [] && a[0] == b[0] && b[0] == c[0] { LexTransitive(a[1..], b[1..], c[1..]); }
  }

  lemma BinTransitive(a: Bin, b: Bin, c: Bin)
    requires BinLess(a, b) && BinLess(b, c)
    ensures BinLess(a, c)
  {
    hide LexLess;
    if a.sum == b.sum == c.sum && |a.items| == |b.items| == |c.items| { LexTransitive(a.items, b.items, c.items); }
  }

  /** The state popped first: the larger spread, then the larger first set. */
  predicate Before(a: seq<Bin>, b: seq<Bin>)
    requires a != [] && b != []
  {
    if Spread(a) != Spread(b) then Spread(a) > Spread(b) else BinLess(b[0], a[0])
  }

  lemma BeforeTransitive(a: seq<Bin>, b: seq<Bin>, c: seq<Bin>)
    requires a != [] && b != [] && c != [] && Before(a, b) && Before(b, c)
    ensures Before(a, c)
  {
    if Spread(a) == Spread(b) == Spread(c) { BinTransitive(c[0], b[0], a[0]); }
  }

  predicate Filled(heap: seq<seq<Bin>>) { forall i :: 0 <= i < |heap| ==> heap[i] != [] }

  lemma {:induction false} HeapNext(heap: seq<seq<Bin>>, st: seq<Bin>)
    ensures HeapItems(heap + [st]) == HeapItems(heap) + ItemsOf(st)
  {
    assert (heap + [st])[..|heap|] == heap;
  }

  lemma HeapNothing()
    ensures HeapItems([]) == multiset{}
  {
  }

  lemma {:induction false} HeapAppend(a: seq<seq<Bin>>, b: seq<seq<Bin>>)
    ensures HeapItems(a + b) == HeapItems(a) + HeapItems(b)
    decreases |b|
  {
    hide HeapItems, ItemsOf;
    if b == [] { assert a + b == a; HeapNothing(); }
    else {
      var m := |b| - 1;
      HeapAppend(a, b[..m]);
      HeapNext(a + b[..m], b[m]);
      HeapNext(b[..m], b[m]);
      assert a + b == (a + b[..m]) + [b[m]] && b == b[..m] + [b[m]];
    }
  }

  lemma {:induction false} HeapWithout(heap: seq<seq<Bin>>, i: nat)
    requires i < |heap|
    ensures HeapItems(heap) == ItemsOf(heap[i]) + HeapItems(heap[..i] + heap[i + 1..])
  {
    hide HeapItems, ItemsOf;
    HeapNext(heap[..i], heap[i]);
    HeapAppend(heap[..i + 1], heap[i + 1..]);
    HeapAppend(heap[..i], heap[i + 1..]);
    assert heap == heap[..i + 1] + heap[i + 1..] && heap[..i + 1] == heap[..i] + [heap[i]];
  }

  /** heappop: the state that no other state precedes, and the rest. */
  method Pop(heap: seq<seq<Bin>>) returns (st: seq<Bin>, rest: seq<seq<Bin>>)
    requires heap != [] && Filled(heap)
    ensures st in heap && |rest| == |heap| - 1 && (forall x :: x in rest ==> x in heap)
    ensures multiset(heap) == multiset(rest) + multiset{st}
    ensures forall i :: 0 <= i < |heap| ==> !Before(heap[i], st)
    ensures HeapItems(heap) == ItemsOf(st) + HeapItems(rest)
  {
    hide HeapItems, ItemsOf, Before;
    var at := 0;
    assert !Before(heap[0], heap[0]) by { BeforeIrreflexive(heap[0]); }
    for i := 1 to |heap|
      invariant 0 <= at < i
      invariant forall j :: 0 <= j < i ==> !Before(heap[j], heap[at])
    {
      if Before(heap[i], heap[at]) {
        forall j | 0 <= j < i ensures !Before(heap[j], heap[i]) {
          if Before(heap[j], heap[i]) { BeforeTransitive(heap[j], heap[i], heap[at]); }
        }
        BeforeIrreflexive(heap[i]);
        at := i;
      }
    }
    HeapWithout(heap, at);
    assert heap == heap[..at] + [heap[at]] + heap[at + 1..];
    return heap[at], heap[..at] + heap[at + 1..];
  }

  lemma BeforeIrreflexive(st: seq<Bin>)
    requires st != []
    ensures !Before(st, st)
  {
    LexIrreflexive(st[0].items);
  }

  lemma {:induction false} LexIrreflexive(a: seq<Item>)
    ensures !LexLess(a, a)
  {
    if a != [] { LexIrreflexive(a[1..]); }
  }

  /** State.merge: set by set, item by item, then sorted again. */
  method Merge(a: seq<Bin>, b: seq<Bin>) returns (c: seq<Bin>)
    requires |a| == |b| && Honest(b)
    ensures c == Merged(a, b)
  {
    hide SortBins, SumLens;
    var k := |a|;
    var sets := a;
    for i := 0 to k
      invariant |sets| == k
      invariant forall j :: 0 <= j < k ==> sets[j] == if j < i then Crossed(a, b)[j] else a[j]
    {
      var other := b[k - 1 - i];
      var mine := a[i];
      assert SumLens([]) == 0 by { SumNothing(); }
      for j := 0 to |other.items|
        invariant mine == Bin(a[i].items + other.items[..j], a[i].sum + SumLens(other.items[..j]))
      {
        mine := Bin(mine.items + [other.items[j]], mine.sum + other.items[j].len);
        assert SumLens(other.items[..j + 1]) == SumLens(other.items[..j]) + other.items[j].len by {
          SumNext(other.items, j);
        }
      }
      assert other.items[..|other.items|] == other.items;
      sets := sets[i := mine];
    }
    assert sets == Crossed(a, b);
    return SortBins(sets);
  }

  lemma SumNothing()
    ensures SumLens([]) == 0
  {
  }

  lemma SumNext(items: seq<Item>, j: nat)
    requires j < |items|
    ensures SumLens(items[..j + 1]) == SumLens(items[..j]) + items[j].len
  {
    assert items[..j + 1][..j] == items[..j];
  }

  // ---- the states at the start ---------------------------------------------

  function ItemsFor(lens: seq<nat>): (items: seq<Item>)
    ensures |items| == |lens| && forall i :: 0 <= i < |lens| ==> items[i] == Item(i, lens[i])
  {
    seq(|lens|, i requires 0 <= i < |lens| => Item(i, lens[i]))
  }

  predicate Shorter(a: Item, b: Item) { a.len < b.len || (a.len == b.len && a.idx <= b.idx) }

  function InsertItem(sorted: seq<Item>, x: Item): (r: seq<Item>)
    ensures |r| == |sorted| + 1
  {
    if sorted == [] || Shorter(sorted[|sorted| - 1], x) then sorted + [x]
    else InsertItem(sorted[..|sorted| - 1], x) + [sorted[|sorted| - 1]]
  }

  /** sorted((length, index)) */
  function SortItems(items: seq<Item>): (r: seq<Item>)
    ensures |r| == |items|
  {
    if items == [] then [] else InsertItem(SortItems(items[..|items| - 1]), items[|items| - 1])
  }

  predicate Ascending(items: seq<Item>) { forall i, j :: 0 <= i < j < |items| ==> items[i].len <= items[j].len }

  lemma {:induction false} InsertItemKept(sorted: seq<Item>, x: Item)
    ensures multiset(InsertItem(sorted, x)) == multiset(sorted) + multiset{x}
  {
    hide Shorter;
    if sorted != [] && !Shorter(sorted[|sorted| - 1], x) {
      var m := |sorted| - 1;
      InsertItemKept(sorted[..m], x);
      assert sorted == sorted[..m] + [sorted[m]];
    }
  }

  lemma {:induction false} InsertAscending(sorted: seq<Item>, x: Item, top: nat)
    requires Ascending(sorted) && x.len <= top && forall i :: 0 <= i < |sorted| ==> sorted[i].len <= top
    ensures Ascending(InsertItem(sorted, x))
    ensures forall i :: 0 <= i <= |sorted| ==> InsertItem(sorted, x)[i].len <= top
  {
    if sorted != [] && !Shorter(sorted[|sorted| - 1], x) {
      var m := |sorted| - 1;
      InsertAscending(sorted[..m], x, sorted[m].len);
    }
  }

  lemma {:induction false} SortItemsPermutes(items: seq<Item>)
    ensures multiset(SortItems(items)) == multiset(items)
  {
    hide InsertItem;
    if items != [] {
      var m := |items| - 1;
      SortItemsPermutes(items[..m]);
      InsertItemKept(SortItems(items[..m]), items[m]);
      assert items == items[..m] + [items[m]];
    }
  }

  lemma {:induction false} SortItemsAscending(items: seq<Item>)
    ensures Ascending(SortItems(items))
  {
    hide InsertItem;
    if items != [] {
      var m := |items| - 1;
      SortItemsAscending(items[..m]);
      var s := SortItems(items[..m]);
      var top := if s == [] || s[m - 1].len <= items[m].len then items[m].len else s[m - 1].len;
      InsertAscending(s, items[m], top);
    }
  }

  /** One item per set for the first sets, the others empty. */
  function Spaced(items: seq<Item>, k: nat): (bins: seq<Bin>)
    requires |items| <= k
    ensures |bins| == k
    ensures forall i :: 0 <= i < k ==>
              bins[i] == if i < |items| then Bin([items[i]], items[i].len) else Bin([], 0)
  {
    seq(k, i requires 0 <= i < k => if i < |items| then Bin([items[i]], items[i].len) else Bin([], 0))
  }

  /** State.__init__ */
  function Start(items: seq<Item>, k: nat): seq<Bin>
    requires |items| <= k
  {
    SortBins(Spaced(items, k))
  }

  lemma {:induction false} SpacedFlat(items: seq<Item>, k: nat, n: nat)
    requires |items| <= k && n <= k
    ensures Flat(Spaced(items, k)[..n]) == items[..if n < |items| then n else |items|]
    decreases n
  {
    var bins := Spaced(items, k);
    if n > 0 {
      SpacedFlat(items, k, n - 1);
      assert bins[..n][..n - 1] == bins[..n - 1];
    }
  }

  predicate Near(items: seq<Item>, d: nat) {
    forall i, j :: 0 <= i < |items| && 0 <= j < |items| ==> items[i].len - items[j].len <= d
  }

  /** A starting state has one item, no longer than `d`, or one item per set, `d` apart. */
  predicate Startable(items: seq<Item>, k: nat, d: nat) {
    (|items| == 1 <= k && items[0].len <= d) || (|items| == k >= 1 && Near(items, d))
  }

  lemma SpacedWithin(items: seq<Item>, k: nat, d: nat)
    requires Startable(items, k, d)
    ensures Within(Spaced(items, k), d)
  {
  }

  lemma HonestMembers(c: seq<Bin>, s: seq<Bin>)
    requires Honest(c) && forall i :: 0 <= i < |s| ==> s[i] in c
    ensures Honest(s)
  {
    hide SumLens;
  }

  lemma SpacedEven(items: seq<Item>, s: seq<Bin>)
    requires forall i :: 0 <= i < |s| ==> s[i] in Spaced(items, |items|)
    ensures Even(s)
  {
    forall i | 0 <= i < |s| ensures |s[i].items| == 1 {
      var j :| 0 <= j < |items| && Spaced(items, |items|)[j] == s[i];
    }
  }

  lemma StartSound(items: seq<Item>, k: nat, d: nat)
    requires Startable(items, k, d)
    ensures Sound(Start(items, k), k, d) && ItemsOf(Start(items, k)) == multiset(items)
    ensures |items| == k ==> Even(Start(items, k))
  {
    hide SortBins, Descending, Shaped, Honest, Within, Even, Flat, ItemsOf;
    var bins := Spaced(items, k);
    SpacedWithin(items, k, d);
    SortDescending(bins);
    SortWithin(bins, d);
    SortItemsKept(bins);
    SortKeepsMembers(bins);
    SpacedShaped(items, k);
    ShapedMembers(bins, SortBins(bins));
    SpacedHonest(items, k);
    HonestMembers(bins, SortBins(bins));
    SpacedFlat(items, k, k);
    assert bins[..k] == bins && items[..|items|] == items;
    FlatItems(bins);
    if |items| == k { SpacedEven(items, SortBins(bins)); }
  }

  lemma {:induction false} FlatItems(bins: seq<Bin>)
    ensures ItemsOf(bins) == multiset(Flat(bins))
  {
  }

  lemma SpacedShaped(items: seq<Item>, k: nat)
    requires |items| <= k
    ensures Shaped(Spaced(items, k))
  {
  }

  lemma SpacedHonest(items: seq<Item>, k: nat)
    requires |items| <= k
    ensures Honest(Spaced(items, k))
  {
    var bins := Spaced(items, k);
    forall i | 0 <= i < k ensures bins[i].sum == SumLens(bins[i].items) {
      if i < |items| { assert [items[i]][..0] == []; assert SumLens([items[i]]) == SumLens([]) + items[i].len; }
    }
  }
}
