/** Mini-batches of balanced token count. */
module MiniBatches {
  import opened Arith
  import opened Differencing
  import opened Partitioning

  // ---- mini-batches --------------------------------------------------------

  /** -(a // -b) */
  function CeilDiv(a: nat, b: nat): nat
    requires b > 0
  {
    (a + b - 1) / b
  }

  /** The least q with a <= b * q. */
  lemma CeilDivIs(a: nat, b: nat, q: nat)
    requires b > 0
    ensures a <= b * CeilDiv(a, b)
    ensures a <= b * q ==> CeilDiv(a, b) <= q
  {
    DivBounds(a + b - 1, b);
    var c := CeilDiv(a, b);
    assert b * (c + 1) == b * c + b && b * (q + 1) == b * q + b;
    if a <= b * q { MulCancel(b, c, q + 1); }
  }

  function SumOver(lens: seq<nat>, parts: seq<seq<nat>>): nat
    requires InRange(parts, |lens|)
  {
    if parts == [] then 0
    else
      var m := |parts| - 1;
      assert InRange(parts[..m], |lens|) by { assert forall i :: 0 <= i < m ==> parts[..m][i] == parts[i]; }
      SumOver(lens, parts[..m]) + PartSum(lens, parts[m])
  }

  lemma {:induction false} SumOverJoined(lens: seq<nat>, parts: seq<seq<nat>>)
    requires InRange(parts, |lens|)
    ensures Below(Joined(parts), |lens|) && SumOver(lens, parts) == PartSum(lens, Joined(parts))
  {
    if parts != [] {
      var m := |parts| - 1;
      assert InRange(parts[..m], |lens|) by { assert forall i :: 0 <= i < m ==> parts[..m][i] == parts[i]; }
      SumOverJoined(lens, parts[..m]);
      PartSumAppend(lens, Joined(parts[..m]), parts[m]);
    }
  }

  function Range(n: nat): (r: seq<nat>)
    ensures |r| == n && forall i :: 0 <= i < n ==> r[i] == i
  {
    seq(n, i requires 0 <= i < n => i)
  }

  lemma {:induction false} PartSumRange(lens: seq<nat>, n: nat)
    requires n <= |lens|
    ensures PartSum(lens, Range(n)) == Total(lens[..n])
  {
    if n > 0 {
      PartSumRange(lens, n - 1);
      assert Range(n)[..n - 1] == Range(n - 1);
      assert lens[..n][..n - 1] == lens[..n - 1];
    }
  }

  lemma {:induction false} RangeCounts(n: nat, x: nat)
    ensures multiset(Range(n))[x] == if x < n then 1 else 0
  {
    if n > 0 {
      RangeCounts(n - 1, x);
      assert Range(n) == Range(n - 1) + [n - 1];
    }
  }

  /** The sums of a covering partition add up to the whole. */
  lemma {:induction false} CoversTotal(lens: seq<nat>, parts: seq<seq<nat>>)
    requires Covers(parts, |lens|) && InRange(parts, |lens|)
    ensures SumOver(lens, parts) == Total(lens)
  {
    hide SumOver, PartSum, Total, Joined;
    var n := |lens|;
    SumOverJoined(lens, parts);
    assert multiset(Joined(parts)) == multiset(Range(n)) by {
      forall x: nat ensures multiset(Joined(parts))[x] == multiset(Range(n))[x] { RangeCounts(n, x); }
    }
    PartSumPermuted(lens, Joined(parts), Range(n));
    PartSumRange(lens, n);
    assert lens[..n] == lens;
  }

  /** The first j sums are each within d of the sum at p. */
  lemma {:induction false} SumsAtLeast(lens: seq<nat>, parts: seq<seq<nat>>, d: nat, p: nat, j: nat)
    requires Balanced(lens, parts, d) && p < |parts| && j <= |parts|
    ensures InRange(parts[..j], |lens|)
    ensures SumOver(lens, parts[..j]) >= j * (PartSum(lens, parts[p]) - d) + (if p < j then d else 0)
    decreases j
  {
    hide PartSum;
    assert InRange(parts[..j], |lens|) by { assert forall i :: 0 <= i < j ==> parts[..j][i] == parts[i]; }
    if j > 0 {
      SumsAtLeast(lens, parts, d, p, j - 1);
      assert parts[..j][..j - 1] == parts[..j - 1];
      var g := PartSum(lens, parts[p]) - d;
      assert j * g == (j - 1) * g + g;
      assert PartSum(lens, parts[p]) - PartSum(lens, parts[j - 1]) <= d;
    }
  }

  /** k times any partition is at most the total plus (k-1) times the spread. */
  lemma {:induction false} PartBound(lens: seq<nat>, parts: seq<seq<nat>>, d: nat, p: nat)
    requires Covers(parts, |lens|) && Balanced(lens, parts, d) && p < |parts|
    ensures |parts| * PartSum(lens, parts[p]) <= Total(lens) + (|parts| - 1) * d
  {
    hide PartSum, SumOver, Total, Covers;
    var k := |parts|;
    SumsAtLeast(lens, parts, d, p, k);
    assert parts[..k] == parts;
    CoversTotal(lens, parts);
    var s := PartSum(lens, parts[p]);
    assert k * (s - d) == k * s - k * d && (k - 1) * d == k * d - d;
  }

  /** The effective limit of tokens per mini-batch. */
  function TokenLimit(lens: seq<nat>, maxTokens: int): nat
    requires lens != []
  {
    if maxTokens < Largest(lens) then Largest(lens) else maxTokens
  }

  /** The number of mini-batches; `atLeast` is the larger of the configured minimum and the
      number the other ranks settled on. */
  function BatchCount(lens: seq<nat>, maxTokens: int, atLeast: nat): nat
    requires lens != [] && TokenLimit(lens, maxTokens) > 0
  {
    var fit := CeilDiv(Total(lens), TokenLimit(lens, maxTokens));
    var own := if |lens| <= fit then |lens| else fit;
    if atLeast >= own then atLeast else own
  }

  lemma {:induction false} TotalAtMost(lens: seq<nat>, top: nat)
    requires forall i :: 0 <= i < |lens| ==> lens[i] <= top
    ensures Total(lens) <= top * |lens|
  {
    if lens != [] {
      TotalAtMost(lens[..|lens| - 1], top);
      assert top * |lens| == top * (|lens| - 1) + top;
    }
  }

  /** The batches hold all tokens if each is filled to the limit. */
  lemma {:induction false} EnoughBatches(lens: seq<nat>, maxTokens: int, atLeast: nat)
    requires lens != [] && TokenLimit(lens, maxTokens) > 0
    ensures Total(lens) <= TokenLimit(lens, maxTokens) * BatchCount(lens, maxTokens, atLeast)
  {
    hide Total, Largest, CeilDiv;
    var cap := TokenLimit(lens, maxTokens);
    TotalAtMost(lens, cap);
    CeilDivIs(Total(lens), cap, |lens|);
    MulMonotone(cap, CeilDiv(Total(lens), cap), BatchCount(lens, maxTokens, atLeast));
  }

  /** The limit is the larger of the configured one and the longest sequence. */
  lemma TokenLimitIs(lens: seq<nat>, maxTokens: int)
    requires lens != []
    ensures var cap := TokenLimit(lens, maxTokens);
            && maxTokens <= cap && (forall i :: 0 <= i < |lens| ==> lens[i] <= cap)
            && (cap == maxTokens || exists i :: 0 <= i < |lens| && lens[i] == cap)
  {
  }

  /** No fewer batches would do, unless more were asked for. */
  lemma {:induction false} FewestBatches(lens: seq<nat>, maxTokens: int, atLeast: nat)
    requires lens != [] && TokenLimit(lens, maxTokens) > 0
    ensures var count := BatchCount(lens, maxTokens, atLeast);
            count >= atLeast && (count > atLeast ==> TokenLimit(lens, maxTokens) * (count - 1) < Total(lens))
  {
    hide Total, Largest, CeilDiv;
    var cap, count := TokenLimit(lens, maxTokens), BatchCount(lens, maxTokens, atLeast);
    if count > atLeast && Total(lens) <= cap * (count - 1) { CeilDivIs(Total(lens), cap, count - 1); }
  }

  /** A partition this balanced stays below twice the limit. */
  lemma PartBelowTwice(total: nat, k: nat, cap: nat, d: nat, sum: nat)
    requires k >= 1 && cap >= 1 && d <= cap && total <= cap * k && k * sum <= total + (k - 1) * d
    ensures sum < 2 * cap
  {
    MulMonotone(k - 1, d, cap);
    assert (k - 1) * cap == k * cap - cap;
    assert k * sum < k * (2 * cap) by { assert k * (2 * cap) == k * cap + k * cap; }
    MulCancel(k, sum, 2 * cap);
  }

  // ---- ordering by workload ------------------------------------------------

  function Squares(lens: seq<nat>, part: seq<nat>): nat {
    if part == [] then 0
    else
      var i := part[|part| - 1];
      Squares(lens, part[..|part| - 1]) + (if i < |lens| then lens[i] * lens[i] else 0)
  }

  function Smallest(part: seq<nat>): nat {
    if part == [] then 0
    else if |part| == 1 then part[0]
    else
      var rest := Smallest(part[..|part| - 1]);
      if rest <= part[|part| - 1] then rest else part[|part| - 1]
  }

  predicate Heavier(lens: seq<nat>, a: seq<nat>, b: seq<nat>) {
    Squares(lens, a) > Squares(lens, b) || (Squares(lens, a) == Squares(lens, b) && Smallest(a) >= Smallest(b))
  }

  function InsertPart(lens: seq<nat>, sorted: seq<seq<nat>>, x: seq<nat>): (r: seq<seq<nat>>)
    ensures |r| == |sorted| + 1
  {
    if sorted == [] || Heavier(lens, sorted[|sorted| - 1], x) then sorted + [x]
    else InsertPart(lens, sorted[..|sorted| - 1], x) + [sorted[|sorted| - 1]]
  }

  /** Mini-batches by decreasing sum of squared lengths, then by smallest index. */
  function SortParts(lens: seq<nat>, parts: seq<seq<nat>>): (r: seq<seq<nat>>)
    ensures |r| == |parts|
  {
    if parts == [] then [] else InsertPart(lens, SortParts(lens, parts[..|parts| - 1]), parts[|parts| - 1])
  }

  function Squared(lens: seq<nat>): (r: seq<nat>)
    ensures |r| == |lens| && forall i :: 0 <= i < |lens| ==> r[i] == lens[i] * lens[i]
  {
    seq(|lens|, i requires 0 <= i < |lens| => lens[i] * lens[i])
  }

  lemma {:induction false} SquaresAre(lens: seq<nat>, part: seq<nat>)
    requires Below(part, |lens|)
    ensures Squares(lens, part) == PartSum(Squared(lens), part)
  {
    if part != [] { SquaresAre(lens, part[..|part| - 1]); }
  }

  lemma {:induction false} SmallestIsFirst(part: seq<nat>)
    requires part != [] && Increasing(part)
    ensures Smallest(part) == part[0]
  {
    if |part| > 1 { SmallestIsFirst(part[..|part| - 1]); }
  }

  /** By sum of squared lengths, the largest first, and among equals by first index, the largest first. */
  ghost predicate ByWorkload(lens: seq<nat>, parts: seq<seq<nat>>) {
    && InRange(parts, |lens|) && (forall i :: 0 <= i < |parts| ==> parts[i] != [])
    && forall i, j :: 0 <= i < j < |parts| ==>
         var a, b := PartSum(Squared(lens), parts[i]), PartSum(Squared(lens), parts[j]);
         a > b || (a == b && parts[i][0] >= parts[j][0])
  }

  predicate HeaviestFirst(lens: seq<nat>, parts: seq<seq<nat>>) {
    forall i, j :: 0 <= i < j < |parts| ==> Heavier(lens, parts[i], parts[j])
  }

  lemma {:induction false} InsertHeaviest(lens: seq<nat>, sorted: seq<seq<nat>>, x: seq<nat>)
    requires HeaviestFirst(lens, sorted)
    ensures HeaviestFirst(lens, InsertPart(lens, sorted, x))
  {
    hide Squares, Smallest;
    var m := |sorted| - 1;
    if sorted != [] && !Heavier(lens, sorted[m], x) {
      InsertHeaviest(lens, sorted[..m], x);
      InsertPartKept(lens, sorted[..m], x);
      var r := InsertPart(lens, sorted[..m], x);
      forall i | 0 <= i < |r| ensures Heavier(lens, r[i], sorted[m]) { assert r[i] in sorted[..m] + [x]; }
    }
  }

  lemma {:induction false} SortHeaviest(lens: seq<nat>, parts: seq<seq<nat>>)
    ensures HeaviestFirst(lens, SortParts(lens, parts))
  {
    hide InsertPart, Heavier;
    if parts != [] {
      SortHeaviest(lens, parts[..|parts| - 1]);
      InsertHeaviest(lens, SortParts(lens, parts[..|parts| - 1]), parts[|parts| - 1]);
    }
  }

  lemma {:induction false} HeaviestByWorkload(lens: seq<nat>, parts: seq<seq<nat>>)
    requires HeaviestFirst(lens, parts) && InRange(parts, |lens|)
    requires forall i :: 0 <= i < |parts| ==> parts[i] != [] && Increasing(parts[i])
    ensures ByWorkload(lens, parts)
  {
    hide Squares, Smallest, PartSum, Squared, Increasing;
    forall i | 0 <= i < |parts| ensures Smallest(parts[i]) == parts[i][0] && Squares(lens, parts[i]) == PartSum(Squared(lens), parts[i]) {
      SmallestIsFirst(parts[i]);
      assert Below(parts[i], |lens|);
      SquaresAre(lens, parts[i]);
    }
    forall i, j | 0 <= i < j < |parts| ensures
      var a, b := PartSum(Squared(lens), parts[i]), PartSum(Squared(lens), parts[j]);
      a > b || (a == b && parts[i][0] >= parts[j][0])
    {
      assert Heavier(lens, parts[i], parts[j]);
    }
  }

  lemma {:induction false} InsertPartPermutes(lens: seq<nat>, sorted: seq<seq<nat>>, x: seq<nat>)
    ensures multiset(InsertPart(lens, sorted, x)) == multiset(sorted) + multiset{x}
  {
    hide Heavier;
    var m := |sorted| - 1;
    if sorted != [] && !Heavier(lens, sorted[m], x) {
      InsertPartPermutes(lens, sorted[..m], x);
      assert sorted == sorted[..m] + [sorted[m]];
    }
  }

  lemma {:induction false} SortPartsPermutes(lens: seq<nat>, parts: seq<seq<nat>>)
    ensures multiset(SortParts(lens, parts)) == multiset(parts)
  {
    hide InsertPart;
    if parts != [] {
      SortPartsPermutes(lens, parts[..|parts| - 1]);
      InsertPartPermutes(lens, SortParts(lens, parts[..|parts| - 1]), parts[|parts| - 1]);
      assert parts == parts[..|parts| - 1] + [parts[|parts| - 1]];
    }
  }

  /** The index lists are those of the differencing method, each in increasing order. */
  ghost predicate SplitBy(lens: seq<nat>, k: nat, parts: seq<seq<nat>>) {
    exists raw, split :: ByDifferencing(lens, k, false, raw) && Reordered(raw, split) && multiset(parts) == multiset(split)
  }

  lemma {:induction false} JoinedSnoc(parts: seq<seq<nat>>, x: seq<nat>)
    ensures multiset(Joined(parts + [x])) == multiset(Joined(parts)) + multiset(x)
  {
    assert (parts + [x])[..|parts|] == parts;
  }

  lemma {:induction false} InsertPartKept(lens: seq<nat>, sorted: seq<seq<nat>>, x: seq<nat>)
    ensures multiset(Joined(InsertPart(lens, sorted, x))) == multiset(Joined(sorted)) + multiset(x)
    ensures forall i :: 0 <= i <= |sorted| ==> InsertPart(lens, sorted, x)[i] in sorted + [x]
  {
    hide Heavier, Joined;
    JoinedSnoc(sorted, x);
    if sorted != [] && !Heavier(lens, sorted[|sorted| - 1], x) {
      var m := |sorted| - 1;
      InsertPartKept(lens, sorted[..m], x);
      var r := InsertPart(lens, sorted[..m], x);
      JoinedSnoc(r, sorted[m]);
      JoinedSnoc(sorted[..m], sorted[m]);
      assert sorted == sorted[..m] + [sorted[m]];
      forall i | 0 <= i <= |sorted| ensures InsertPart(lens, sorted, x)[i] in sorted + [x] {
        if i < |r| { assert r[i] in sorted[..m] + [x]; }
      }
    }
  }

  /** Sorting the mini-batches changes neither what they cover nor what they are. */
  lemma {:induction false} SortPartsKept(lens: seq<nat>, parts: seq<seq<nat>>)
    ensures multiset(Joined(SortParts(lens, parts))) == multiset(Joined(parts))
    ensures forall i :: 0 <= i < |parts| ==> SortParts(lens, parts)[i] in parts
  {
    hide Joined, InsertPart;
    if parts != [] {
      var m := |parts| - 1;
      SortPartsKept(lens, parts[..m]);
      var s := SortParts(lens, parts[..m]);
      InsertPartKept(lens, s, parts[m]);
      JoinedSnoc(parts[..m], parts[m]);
      assert parts == parts[..m] + [parts[m]];
      forall i | 0 <= i < |parts| ensures SortParts(lens, parts)[i] in parts {
        assert SortParts(lens, parts)[i] in s + [parts[m]];
      }
    }
  }

  lemma SelectedBalanced(lens: seq<nat>, a: seq<seq<nat>>, b: seq<seq<nat>>, d: int)
    requires Balanced(lens, a, d) && forall i :: 0 <= i < |b| ==> b[i] in a
    ensures Balanced(lens, b, d)
  {
    hide PartSum;
    forall i | 0 <= i < |b| ensures exists j :: 0 <= j < |a| && a[j] == b[i] { assert b[i] in a; }
  }

  /** What rearrange_mini_batches promises of its index lists. */
  ghost predicate WellSplit(lens: seq<nat>, maxTokens: int, parts: seq<seq<nat>>) {
    && lens != [] && InRange(parts, |lens|) && Covers(parts, |lens|)
    && forall i :: 0 <= i < |parts| ==>
         && parts[i] != []
         && |parts| * PartSum(lens, parts[i]) <= Total(lens) + (|parts| - 1) * Largest(lens)
         && PartSum(lens, parts[i]) < 2 * TokenLimit(lens, maxTokens)
  }

  lemma {:induction false} SplitWell(lens: seq<nat>, maxTokens: int, atLeast: nat, parts: seq<seq<nat>>)
    requires lens != [] && TokenLimit(lens, maxTokens) > 0 && |parts| == BatchCount(lens, maxTokens, atLeast) >= 1
    requires Covers(parts, |lens|) && Balanced(lens, parts, Largest(lens)) && forall i :: 0 <= i < |parts| ==> parts[i] != []
    ensures WellSplit(lens, maxTokens, parts)
  {
    hide Covers, Total, PartSum, BatchCount, Largest;
    var cap, d := TokenLimit(lens, maxTokens), Largest(lens);
    EnoughBatches(lens, maxTokens, atLeast);
    forall i | 0 <= i < |parts| ensures
      |parts| * PartSum(lens, parts[i]) <= Total(lens) + (|parts| - 1) * d && PartSum(lens, parts[i]) < 2 * cap
    {
      PartBound(lens, parts, d, i);
      PartBelowTwice(Total(lens), |parts|, cap, d, PartSum(lens, parts[i]));
    }
  }

  /** rearrange_mini_batches.  It fails exactly for an empty batch, a zero token limit, no
      mini-batch at all, or more mini-batches than items. */
  method RearrangeMiniBatches<T>(batch: seq<T>, lens: seq<nat>, maxTokens: int, atLeast: nat, byWorkload: bool)
    returns (r: Result<(seq<seq<T>>, seq<seq<nat>>)>)
    requires |batch| == |lens|
    ensures r.Ok? <==> && lens != [] && TokenLimit(lens, maxTokens) > 0
                       && 1 <= BatchCount(lens, maxTokens, atLeast) <= |lens|
    ensures r.Ok? ==> && |r.value.1| == BatchCount(lens, maxTokens, atLeast)
                      && WellSplit(lens, maxTokens, r.value.1)
                      && Picked(batch, r.value.1, r.value.0)
                      && SplitBy(lens, |r.value.1|, r.value.1)
    ensures r.Ok? && byWorkload ==> ByWorkload(lens, r.value.1)
  {
    hide ByDifferencing, Reordered, ByWorkload, Increasing;
    hide Covers, Balanced, WellSplit, BatchCount, Largest, Joined, SortParts;
    if lens == [] { return Error; }
    var cap := TokenLimit(lens, maxTokens);
    if cap == 0 { return Error; }
    var k := BatchCount(lens, maxTokens, atLeast);
    if k > |lens| { return Error; }
    var split := BalancedPartitions(lens, k, false);
    if split.Error? { return Error; }
    var parts := split.value;
    if byWorkload {
      SortPartsPermutes(lens, parts);
      SortHeaviest(lens, parts);
      SortPartsKept(lens, parts);
      CoversSame(parts, SortParts(lens, parts), |lens|);
      SelectedBalanced(lens, parts, SortParts(lens, parts), Largest(lens));
      parts := SortParts(lens, parts);
    }
    SplitWell(lens, maxTokens, atLeast, parts);
    WellSplitInRange(lens, maxTokens, parts);
    if byWorkload {
      forall i | 0 <= i < |parts| ensures parts[i] != [] && Increasing(parts[i]) { assert parts[i] in split.value; }
      HeaviestByWorkload(lens, parts);
    }
    var batches := Pick(batch, parts);
    return Ok((batches, parts));
  }

  lemma WellSplitInRange(lens: seq<nat>, maxTokens: int, parts: seq<seq<nat>>)
    requires WellSplit(lens, maxTokens, parts)
    ensures InRange(parts, |lens|)
  {
  }

  /** Mini-batch i holds the elements its index list names, in that order. */
  ghost predicate Picked<T>(batch: seq<T>, parts: seq<seq<nat>>, batches: seq<seq<T>>) {
    |batches| == |parts| && forall i :: 0 <= i < |parts| ==> PickedOne(batch, parts[i], batches[i])
  }

  ghost predicate PickedOne<T>(batch: seq<T>, part: seq<nat>, mini: seq<T>) {
    |mini| == |part| && forall j :: 0 <= j < |part| ==> part[j] < |batch| && mini[j] == batch[part[j]]
  }

  method Pick<T>(batch: seq<T>, parts: seq<seq<nat>>) returns (batches: seq<seq<T>>)
    requires InRange(parts, |batch|)
    ensures Picked(batch, parts, batches)
  {
    batches := [];
    for i := 0 to |parts|
      invariant |batches| == i
      invariant forall p :: 0 <= p < i ==> PickedOne(batch, parts[p], batches[p])
    {
      var current: seq<T> := [];
      for j := 0 to |parts[i]|
        invariant |current| == j && forall q :: 0 <= q < j ==> parts[i][q] < |batch| && current[q] == batch[parts[i][q]]
      {
        current := current + [batch[parts[i][j]]];
      }
      batches := batches + [current];
    }
  }
}
