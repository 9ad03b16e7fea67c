/** The algebra of shard slices: which part of a tensor dimension a shard holds,
    and which parts a policy shard sends to a rollout shard. */
module ShardSlices {
  import opened Arith
  import opened Types

  /** The elements from offset/total to (offset+length)/total of a dimension. */
  datatype Slice = Slice(offset: nat, total: nat, length: nat)

  /** A slice that lies inside its dimension. */
  predicate Fits(s: Slice) { s.total > 0 && s.offset + s.length <= s.total }

  predicate Divides(d: nat, n: nat) { d > 0 && n % d == 0 }

  /** First and last-plus-one element of the slice in a dimension of `n` elements. */
  function Lo(s: Slice, n: nat): nat
    requires s.total > 0
  {
    n / s.total * s.offset
  }

  function Hi(s: Slice, n: nat): nat
    requires s.total > 0
  {
    n / s.total * (s.offset + s.length)
  }

  // ---- arithmetic ----------------------------------------------------------

  lemma DividesMul(d: nat, n: nat)
    requires Divides(d, n)
    ensures n == d * (n / d)
  {
  }

  lemma MulDivides(d: nat, q: nat)
    requires d > 0
    ensures Divides(d, d * q) && d * q / d == q
  {
    assert d * q < d * (q + 1) by { assert d * (q + 1) == d * q + d; }
    DivUnique(d * q, d, q);
  }

  /** A divisor of a divisor divides. */
  lemma DividesTransitive(a: nat, b: nat, n: nat)
    requires Divides(a, b) && Divides(b, n)
    ensures Divides(a, n) && n / a == n / b * (b / a)
  {
    var p, q := b / a, n / b;
    DividesMul(a, b);
    DividesMul(b, n);
    assert n == a * (q * p) by { assert n == a * p * q; }
    MulDivides(a, q * p);
  }

  /** math.gcd */
  function Gcd(a: nat, b: nat): (g: nat)
    ensures a > 0 || b > 0 ==> g > 0
    decreases b
  {
    if b == 0 then a else Gcd(b, a % b)
  }

  lemma {:induction false} GcdDivides(a: nat, b: nat)
    requires a > 0 || b > 0
    ensures Divides(Gcd(a, b), a) && Divides(Gcd(a, b), b)
    decreases b
  {
    hide Divides;
    if b == 0 { MulDivides(a, 1); MulDivides(a, 0); }
    else {
      GcdDivides(b, a % b);
      DividesSum(Gcd(b, a % b), b, a % b, a / b, a);
    }
  }

  /** A common divisor of b and r divides b*k + r. */
  lemma DividesSum(g: nat, b: nat, r: nat, k: nat, a: nat)
    requires Divides(g, b) && Divides(g, r) && a == b * k + r
    ensures Divides(g, a)
  {
    var p, q := b / g, r / g;
    DividesMul(g, b);
    DividesMul(g, r);
    assert a == g * (p * k + q) by { assert g * (p * k + q) == g * p * k + g * q; }
    MulDivides(g, p * k + q);
  }

  // ---- simplify ------------------------------------------------------------

  function Common(s: Slice): nat { Gcd(Gcd(s.offset, s.total), s.length) }

  /** DimSliceInfo.simplify; dividing 0/0/0 by its common factor raises. */
  function Simplify(s: Slice): Option<Slice> {
    var g := Common(s);
    if g == 0 then None else Some(Slice(Quotient(s.offset, g), Quotient(s.total, g), Quotient(s.length, g)))
  }

  function Quotient(a: nat, b: nat): nat
    requires b > 0
  {
    a / b
  }

  lemma CommonDivides(s: Slice)
    requires s.total > 0
    ensures var g := Common(s); Divides(g, s.offset) && Divides(g, s.total) && Divides(g, s.length)
  {
    var inner := Gcd(s.offset, s.total);
    GcdDivides(s.offset, s.total);
    GcdDivides(inner, s.length);
    var g := Common(s);
    if s.offset == 0 { MulDivides(g, 0); } else { DividesTransitive(g, inner, s.offset); }
    DividesTransitive(g, inner, s.total);
  }

  /** Simplifying keeps what the slice means in every dimension it divides, and the
      simplified total still divides it. */
  lemma SimplifyKeepsMeaning(s: Slice, n: nat)
    requires Fits(s) && Divides(s.total, n)
    ensures Simplify(s).Some?
    ensures var t := Simplify(s).value;
            Fits(t) && Divides(t.total, n) && Lo(t, n) == Lo(s, n) && Hi(t, n) == Hi(s, n)
  {
    hide Lo, Hi;
    SimplifyUnscales(s);
    var t := Simplify(s).value;
    ScaleKeepsMeaning(t, s.total, n);
    DividesTransitive(t.total, s.total, n);
  }

  /** The simplified slice is the original divided by a common factor. */
  lemma SimplifyUnscales(s: Slice)
    requires Fits(s)
    ensures Simplify(s).Some?
    ensures var t := Simplify(s).value;
            Fits(t) && Divides(t.total, s.total) && s == Scale(t, s.total / t.total)
  {
    hide Common;
    CommonDivides(s);
    var g := Common(s);
    var t := Simplify(s).value;
    DividesMul(g, s.offset);
    DividesMul(g, s.total);
    DividesMul(g, s.length);
    MulCancel(g, 0, t.total);
    MulDivides(t.total, g);
    SimplifiedFits(g, t, s);
  }

  lemma SimplifiedFits(g: nat, t: Slice, s: Slice)
    requires g > 0 && Fits(s) && s.offset == g * t.offset && s.total == g * t.total && s.length == g * t.length && t.total > 0
    ensures Fits(t)
  {
    if t.offset + t.length > t.total { MulMonotone(g, t.total + 1, t.offset + t.length); }
  }

  // ---- lowest terms --------------------------------------------------------

  lemma {:induction false} GcdGreatest(a: nat, b: nat, d: nat)
    requires Divides(d, a) && Divides(d, b)
    ensures Divides(d, Gcd(a, b))
    decreases b
  {
    hide Divides;
    if b > 0 {
      DividesRemainder(d, a, b);
      GcdGreatest(b, a % b, d);
    }
  }

  lemma DividesRemainder(d: nat, a: nat, b: nat)
    requires Divides(d, a) && Divides(d, b) && b > 0
    ensures Divides(d, a % b)
  {
    DividesMul(d, a);
    DividesMul(d, b);
    var p, q, k := a / d, b / d, a / b;
    assert a == b * k + a % b;
    assert a % b == d * (p - q * k) by { assert d * (p - q * k) == d * p - d * q * k; }
    if p - q * k < 0 { MulMonotone(d, p - q * k, -1); }
    MulDivides(d, p - q * k);
  }

  /** The simplified slice is in lowest terms: nothing but 1 divides its three numbers. */
  lemma {:induction false} SimplifyIsLowest(s: Slice, d: nat)
    requires Fits(s)
    ensures Simplify(s).Some?
    ensures var t := Simplify(s).value; Divides(d, t.offset) && Divides(d, t.total) && Divides(d, t.length) ==> d == 1
  {
    hide Common, Divides;
    CommonDivides(s);
    var g := Common(s);
    var t := Simplify(s).value;
    if Divides(d, t.offset) && Divides(d, t.total) && Divides(d, t.length) {
      Multiplied(g, d, s.offset, t.offset);
      Multiplied(g, d, s.total, t.total);
      Multiplied(g, d, s.length, t.length);
      CommonGreatest(s, g * d);
      DivisorAtMost(g * d, g);
      TimesOne(g, d);
    }
  }

  lemma CommonGreatest(s: Slice, d: nat)
    requires Divides(d, s.offset) && Divides(d, s.total) && Divides(d, s.length)
    ensures Divides(d, Common(s))
  {
    hide Divides, Gcd;
    GcdGreatest(s.offset, s.total, d);
    GcdGreatest(Gcd(s.offset, s.total), s.length, d);
  }

  lemma Multiplied(g: nat, d: nat, n: nat, q: nat)
    requires Divides(g, n) && q == Quotient(n, g) && Divides(d, q)
    ensures Divides(g * d, n)
  {
    DividesMul(g, n);
    DividesMul(d, q);
    assert n == g * (d * (q / d)) == (g * d) * (q / d);
    MulMonotone(g, 1, d);
    MulDivides(g * d, q / d);
  }

  lemma DivisorAtMost(d: nat, n: nat)
    requires Divides(d, n) && n > 0
    ensures d <= n
  {
    DividesMul(d, n);
    MulCancel(d, 0, n / d);
    MulMonotone(d, 1, n / d);
  }

  lemma TimesOne(g: nat, d: nat)
    requires g > 0 && d > 0 && g * d <= g
    ensures d == 1
  {
    if d > 1 { MulMonotone(g, 2, d); }
  }

  // ---- unify ---------------------------------------------------------------

  function Scale(s: Slice, k: nat): Slice { Slice(s.offset * k, s.total * k, s.length * k) }

  function LargerTotal(a: Slice, b: Slice): nat { if a.total >= b.total then a.total else b.total }

  predicate Unifiable(a: Slice, b: Slice) {
    Divides(a.total, LargerTotal(a, b)) && Divides(b.total, LargerTotal(a, b))
  }

  /** get_unified_rank_info; it raises for totals of which neither divides the other. */
  function Unify(a: Slice, b: Slice): (r: Option<(Slice, Slice)>)
    ensures r.Some? <==> Unifiable(a, b)
  {
    if !Unifiable(a, b) then None
    else
      var size := LargerTotal(a, b);
      Some((Scale(a, size / a.total), Scale(b, size / b.total)))
  }

  /** One of the slices rescaled to a common total means the same. */
  lemma ScaleKeepsMeaning(s: Slice, size: nat, n: nat)
    requires Fits(s) && Divides(s.total, size) && Divides(size, n)
    ensures var t := Scale(s, size / s.total);
            && t.total == size && Fits(t)
            && Lo(t, n) == Lo(s, n) && Hi(t, n) == Hi(s, n)
  {
    var k := size / s.total;
    DividesMul(s.total, size);
    DividesTransitive(s.total, size, n);
    var c := n / size;
    MulMonotone(k, s.offset + s.length, s.total);
    assert k * (s.offset + s.length) == s.offset * k + s.length * k && k * s.total == size;
    assert c * (s.offset * k) == c * k * s.offset;
    assert c * (s.offset * k + s.length * k) == c * k * (s.offset + s.length);
  }

  /** Unified slices have one total, which divides every dimension both divide, and mean
      what the originals mean. */
  lemma UnifyKeepsMeaning(a: Slice, b: Slice, n: nat)
    requires Fits(a) && Fits(b) && Unify(a, b).Some? && Divides(a.total, n) && Divides(b.total, n)
    ensures var (p, q) := Unify(a, b).value;
            && p.total == q.total == LargerTotal(a, b) && Divides(p.total, n) && Fits(p) && Fits(q)
            && Lo(p, n) == Lo(a, n) && Hi(p, n) == Hi(a, n)
            && Lo(q, n) == Lo(b, n) && Hi(q, n) == Hi(b, n)
  {
    var size := LargerTotal(a, b);
    ScaleKeepsMeaning(a, size, n);
    ScaleKeepsMeaning(b, size, n);
  }

  // ---- overlap and relative ------------------------------------------------

  function Max(a: nat, b: nat): nat { if a >= b then a else b }
  function Min(a: nat, b: nat): nat { if a <= b then a else b }

  /** rank_overlap: None where it raises, Some(None) for no overlap */
  function Overlap(a: Slice, b: Slice): Option<Option<Slice>> {
    match Unify(a, b)
    case None => None
    case Some(u) =>
      var left := Max(u.0.offset, u.1.offset);
      var right := Min(u.0.offset + u.0.length, u.1.offset + u.1.length);
      Some(if left < right then Some(Slice(left, u.0.total, right - left)) else None)
  }

  /** relative_rank: the smaller slice within the larger; None where it raises */
  function Relative(smaller: Slice, larger: Slice): Option<Slice> {
    match Unify(smaller, larger)
    case None => None
    case Some(u) =>
      var s, l := u.0, u.1;
      if s.offset < l.offset || s.offset + s.length > l.offset + l.length then None
      else Some(Slice(s.offset - l.offset, l.length, s.length))
  }

  lemma UnifySame(a: Slice, b: Slice)
    requires a.total == b.total > 0
    ensures Unify(a, b) == Some((a, b))
  {
    MulDivides(a.total, 1);
    assert Scale(a, 1) == a && Scale(b, 1) == b;
  }

  function ShardAt(rank: map<int, Slice>, dim: int): Slice {
    if dim in rank then rank[dim] else Slice(0, 1, 1)
  }

  /** tensor_overlap_info_at_dim for the slices of the two shards: what the policy shard sends
      of itself and what the rollout shard receives into itself */
  function OverlapInfo(p: Slice, r: Slice): Option<Option<(Slice, Slice)>> {
    match Unify(p, r)
    case None => None
    case Some(u) =>
      match Overlap(u.0, u.1)
      case None => None
      case Some(None) => Some(None)
      case Some(Some(o)) =>
        match (Relative(o, u.1), Relative(o, u.0))
        case (Some(x), Some(y)) =>
          (match (Simplify(y), Simplify(x))
           case (Some(sent), Some(received)) => Some(Some((sent, received)))
           case _ => None)
        case _ => None
  }

  function OverlapInfoAt(policy: map<int, Slice>, rollout: map<int, Slice>, dim: int): Option<Option<(Slice, Slice)>> {
    OverlapInfo(ShardAt(policy, dim), ShardAt(rollout, dim))
  }

  /** A dimension a shard does not list is whole in it: leaving it out of both maps is listing it
      whole, and the overlap of two shards is all of it. */
  lemma UnlistedDimensionIsWhole(policy: map<int, Slice>, rollout: map<int, Slice>, dim: int, n: nat)
    requires dim !in policy && dim !in rollout
    ensures Lo(ShardAt(policy, dim), n) == 0 && Hi(ShardAt(policy, dim), n) == n
    ensures OverlapInfoAt(policy, rollout, dim) == Some(Some((Slice(0, 1, 1), Slice(0, 1, 1))))
  {
    var whole := Slice(0, 1, 1);
    UnifySame(whole, whole);
    assert Overlap(whole, whole) == Some(Some(whole));
    assert Relative(whole, whole) == Some(whole);
    assert Common(whole) == 1;
  }

  // ---- slicing a dimension -------------------------------------------------

  /** slice_tensor_with_strategy on one dimension; it raises unless the total divides it */
  function Cut<T>(t: seq<T>, s: Slice): Option<seq<T>> {
    if !Divides(s.total, |t|) then None
    else
      var from := Min(Lo(s, |t|), |t|);
      Some(t[from..Max(from, Min(Hi(s, |t|), |t|))])
  }

  lemma InsideDimension(s: Slice, n: nat)
    requires Fits(s) && Divides(s.total, n)
    ensures Lo(s, n) <= Hi(s, n) <= n
  {
    var c := n / s.total;
    DividesMul(s.total, n);
    MulMonotone(c, s.offset, s.offset + s.length);
    MulMonotone(c, s.offset + s.length, s.total);
  }

  lemma CutIs<T>(t: seq<T>, s: Slice)
    requires Fits(s) && Divides(s.total, |t|)
    ensures Lo(s, |t|) <= Hi(s, |t|) <= |t| && Cut(t, s) == Some(t[Lo(s, |t|)..Hi(s, |t|)])
  {
    InsideDimension(s, |t|);
  }

  /** Cutting [x, x+len) out of a shard that holds [l.offset, l.offset+l.length), in units of c. */
  lemma RelativeMeaning(o: Slice, l: Slice, c: nat)
    requires o.total == l.total > 0 && l.offset <= o.offset && o.offset + o.length <= l.offset + l.length && o.length > 0
    ensures Relative(o, l).Some? && Simplify(Relative(o, l).value).Some?
    ensures var x := Simplify(Relative(o, l).value).value;
            && Fits(x) && Divides(x.total, c * l.length)
            && Lo(x, c * l.length) == c * (o.offset - l.offset)
            && Hi(x, c * l.length) == c * (o.offset + o.length - l.offset)
  {
    UnifySame(o, l);
    var r := Slice(o.offset - l.offset, l.length, o.length);
    assert Relative(o, l) == Some(r);
    MulDivides(l.length, c);
    assert c * l.length == l.length * c;
    SimplifyKeepsMeaning(r, c * l.length);
  }

  /** The interval two shards have in common. */
  function CommonLo(p: Slice, r: Slice, n: nat): nat
    requires p.total > 0 && r.total > 0
  {
    Max(Lo(p, n), Lo(r, n))
  }

  function CommonHi(p: Slice, r: Slice, n: nat): nat
    requires p.total > 0 && r.total > 0
  {
    Min(Hi(p, n), Hi(r, n))
  }

  function Joint(p: Slice, r: Slice): Slice
    requires Meet(p, r)
  {
    var left := Max(p.offset, r.offset);
    Slice(left, p.total, Min(p.offset + p.length, r.offset + r.length) - left)
  }

  predicate Meet(p: Slice, r: Slice) { Max(p.offset, r.offset) < Min(p.offset + p.length, r.offset + r.length) }

  lemma UnifiedInfo(p: Slice, r: Slice)
    requires p.total == r.total > 0
    ensures !Meet(p, r) ==> OverlapInfo(p, r) == Some(None)
    ensures Meet(p, r) && Relative(Joint(p, r), p).Some? && Relative(Joint(p, r), r).Some?
            && Simplify(Relative(Joint(p, r), p).value).Some? && Simplify(Relative(Joint(p, r), r).value).Some? ==>
            OverlapInfo(p, r) == Some(Some((Simplify(Relative(Joint(p, r), p).value).value,
                                            Simplify(Relative(Joint(p, r), r).value).value)))
  {
    hide Simplify, Relative, Unify;
    UnifySame(p, r);
  }

  /** What a slice `x` of the shard `s` must be to hold the elements from `lo` to `hi`. */
  predicate Holds(x: Slice, s: Slice, n: nat, lo: nat, hi: nat)
    requires s.total > 0
  {
    && Lo(s, n) <= lo <= hi <= Hi(s, n)
    && Fits(x) && Divides(x.total, Hi(s, n) - Lo(s, n))
    && Lo(x, Hi(s, n) - Lo(s, n)) == lo - Lo(s, n)
    && Hi(x, Hi(s, n) - Lo(s, n)) == hi - Lo(s, n)
  }

  lemma JointHolds(o: Slice, l: Slice, n: nat)
    requires o.total == l.total > 0 && l.offset <= o.offset && o.offset + o.length <= l.offset + l.length && o.length > 0
    ensures Relative(o, l).Some? && Simplify(Relative(o, l).value).Some?
    ensures Holds(Simplify(Relative(o, l).value).value, l, n, Lo(o, n), Hi(o, n))
  {
    hide Simplify, Relative, Divides;
    var c := n / l.total;
    RelativeMeaning(o, l, c);
    MulMonotone(c, l.offset, o.offset);
    MulMonotone(c, o.offset, o.offset + o.length);
    MulMonotone(c, o.offset + o.length, l.offset + l.length);
    ScaledDifference(c, l.offset, l.length);
    ScaledFrom(c, o.offset, l.offset);
    ScaledFrom(c, o.offset + o.length, l.offset);
  }

  /** For unified slices: no overlap is reported exactly when the shards have no common
      element, and otherwise both relative slices are the common elements. */
  lemma UnifiedOverlap(p: Slice, r: Slice, n: nat)
    requires Fits(p) && Fits(r) && p.total == r.total && Divides(p.total, n) && n > 0
    ensures OverlapInfo(p, r).Some?
    ensures OverlapInfo(p, r).value.None? <==> CommonLo(p, r, n) >= CommonHi(p, r, n)
    ensures OverlapInfo(p, r).value.Some? ==>
              && Holds(OverlapInfo(p, r).value.value.0, p, n, CommonLo(p, r, n), CommonHi(p, r, n))
              && Holds(OverlapInfo(p, r).value.value.1, r, n, CommonLo(p, r, n), CommonHi(p, r, n))
  {
    hide OverlapInfo, Simplify, Relative, Divides, Holds;
    assert p.total > 0;
    UnifiedInfo(p, r);
    JointMeaning(p, r, n);
    if Meet(p, r) {
      var o := Joint(p, r);
      JointHolds(o, r, n);
      JointHolds(o, p, n);
    }
  }

  lemma JointMeaning(p: Slice, r: Slice, n: nat)
    requires p.total == r.total && Divides(p.total, n) && n > 0
    ensures Meet(p, r) <==> CommonLo(p, r, n) < CommonHi(p, r, n)
    ensures Meet(p, r) ==> Lo(Joint(p, r), n) == CommonLo(p, r, n) && Hi(Joint(p, r), n) == CommonHi(p, r, n)
  {
    var c := n / p.total;
    DividesMul(p.total, n);
    MulCancel(p.total, 0, c);
    var left, right := Max(p.offset, r.offset), Min(p.offset + p.length, r.offset + r.length);
    ScaledMax(c, p.offset, r.offset);
    ScaledMin(c, p.offset + p.length, r.offset + r.length);
    assert CommonLo(p, r, n) == c * left && CommonHi(p, r, n) == c * right;
    if left < right { StrictScaled(c, left, right); } else { MulMonotone(c, right, left); }
  }

  lemma StrictScaled(c: nat, a: nat, b: nat)
    requires c > 0 && a < b
    ensures c * a < c * b
  {
    MulMonotone(c, a + 1, b);
    assert c * (a + 1) == c * a + c;
  }

  lemma ScaledMax(c: nat, a: nat, b: nat)
    ensures Max(c * a, c * b) == c * Max(a, b)
  {
    if a >= b { MulMonotone(c, b, a); } else { MulMonotone(c, a, b); }
  }

  lemma ScaledMin(c: nat, a: nat, b: nat)
    ensures Min(c * a, c * b) == c * Min(a, b)
  {
    if a <= b { MulMonotone(c, a, b); } else { MulMonotone(c, b, a); }
  }

  lemma ScaledDifference(c: nat, o: nat, l: nat)
    ensures c * (o + l) - c * o == c * l
  {
  }

  lemma ScaledFrom(c: nat, a: int, b: int)
    ensures c * (a - b) == c * a - c * b
  {
  }

  // ---- what is sent is what is received ------------------------------------

  /** Once the slices are unified, unifying them again changes nothing. */
  lemma InfoOfUnified(p: Slice, r: Slice)
    requires Fits(p) && Fits(r) && Unifiable(p, r)
    ensures var (a, b) := Unify(p, r).value;
            a.total == b.total == LargerTotal(p, r) && OverlapInfo(p, r) == OverlapInfo(a, b)
  {
    hide Overlap, Relative, Simplify;
    var size := LargerTotal(p, r);
    DividesMul(p.total, size);
    DividesMul(r.total, size);
    var (a, b) := Unify(p, r).value;
    UnifySame(a, b);
  }

  /** The overlap of a policy shard and a rollout shard is computed exactly when one total
      divides the other.  It is none exactly when the shards have no common element;
      otherwise the slice sent lies in the policy shard, the slice received in the rollout
      shard, and both are the common elements. */
  lemma OverlapExact(p: Slice, r: Slice, n: nat)
    requires Fits(p) && Fits(r) && Divides(p.total, n) && Divides(r.total, n) && n > 0
    ensures OverlapInfo(p, r).Some? <==> Unifiable(p, r)
    ensures Unifiable(p, r) ==> (OverlapInfo(p, r).value.None? <==> CommonLo(p, r, n) >= CommonHi(p, r, n))
    ensures Unifiable(p, r) && OverlapInfo(p, r).value.Some? ==>
              && Holds(OverlapInfo(p, r).value.value.0, p, n, CommonLo(p, r, n), CommonHi(p, r, n))
              && Holds(OverlapInfo(p, r).value.value.1, r, n, CommonLo(p, r, n), CommonHi(p, r, n))
  {
    hide Overlap, Relative, Simplify, Lo, Hi, Divides;
    if Unifiable(p, r) {
      var (a, b) := Unify(p, r).value;
      InfoOfUnified(p, r);
      UnifyKeepsMeaning(p, r, n);
      UnifiedOverlap(a, b, n);
    }
  }

  lemma SliceOfSlice<T>(g: seq<T>, i: nat, j: nat, a: nat, b: nat)
    requires i <= j <= |g| && a <= b <= j - i
    ensures g[i..j][a..b] == g[i + a..i + b]
  {
    var inner, outer := g[i..j][a..b], g[i + a..i + b];
    assert |inner| == |outer|;
    forall k | 0 <= k < |inner| ensures inner[k] == outer[k] { assert inner[k] == g[i..j][a + k] == g[i + (a + k)]; }
  }

  /** Cutting a shard out of the tensor and then a slice out of the shard. */
  lemma CutHeld<T>(g: seq<T>, s: Slice, x: Slice, lo: nat, hi: nat)
    requires Fits(s) && Divides(s.total, |g|) && Holds(x, s, |g|, lo, hi)
    ensures Cut(g, s).Some? && Cut(Cut(g, s).value, x).Some? && lo <= hi <= |g|
    ensures Cut(Cut(g, s).value, x).value == g[lo..hi]
  {
    hide Lo, Hi, Divides, Cut;
    var n := |g|;
    CutIs(g, s);
    var shard := Cut(g, s).value;
    assert |shard| == Hi(s, n) - Lo(s, n);
    CutIs(shard, x);
    SliceOfSlice(g, Lo(s, n), Hi(s, n), lo - Lo(s, n), hi - Lo(s, n));
  }

  /** The policy shard's part and the rollout shard's part are the same elements of the
      tensor in the same order: exactly those both shards hold. */
  lemma OverlapPairsAgree<T>(g: seq<T>, p: Slice, r: Slice)
    requires Fits(p) && Fits(r) && Divides(p.total, |g|) && Divides(r.total, |g|) && g != []
    requires OverlapInfo(p, r).Some? && OverlapInfo(p, r).value.Some?
    ensures var (x, y) := OverlapInfo(p, r).value.value;
            && Cut(g, p).Some? && Cut(g, r).Some?
            && CommonLo(p, r, |g|) < CommonHi(p, r, |g|) <= |g|
            && Cut(Cut(g, p).value, x) == Some(g[CommonLo(p, r, |g|)..CommonHi(p, r, |g|)])
            && Cut(Cut(g, r).value, y) == Some(g[CommonLo(p, r, |g|)..CommonHi(p, r, |g|)])
  {
    hide Lo, Hi, Divides, OverlapInfo, Cut, Holds;
    OverlapExact(p, r, |g|);
    var (x, y) := OverlapInfo(p, r).value.value;
    CutHeld(g, p, x, CommonLo(p, r, |g|), CommonHi(p, r, |g|));
    CutHeld(g, r, y, CommonLo(p, r, |g|), CommonHi(p, r, |g|));
  }

  // ---- completeness --------------------------------------------------------

  /** The shard holds element `x` of the dimension. */
  predicate Owns(s: Slice, n: nat, x: nat)
    requires s.total > 0
  {
    Lo(s, n) <= x < Hi(s, n)
  }

  /** Exactly one of the shards holds element `x`. */
  ghost predicate OwnedOnce(shards: seq<Slice>, n: nat, x: nat)
    requires AllFit(shards, n)
  {
    && (exists i :: 0 <= i < |shards| && Owns(shards[i], n, x))
    && (forall i, j :: 0 <= i < j < |shards| ==> !(Owns(shards[i], n, x) && Owns(shards[j], n, x)))
  }

  predicate AllFit(shards: seq<Slice>, n: nat) {
    forall i :: 0 <= i < |shards| ==> Fits(shards[i]) && Divides(shards[i].total, n)
  }

  /** Every element of the dimension belongs to exactly one shard. */
  ghost predicate Tiles(shards: seq<Slice>, n: nat) {
    AllFit(shards, n) && forall x :: 0 <= x < n ==> OwnedOnce(shards, n, x)
  }

  /** The rollout shard `r` receives its element `y` from the policy shard `p`. */
  predicate Receives(p: Slice, r: Slice, n: nat, y: nat)
    requires r.total > 0
  {
    && OverlapInfo(p, r).Some? && OverlapInfo(p, r).value.Some?
    && var info := OverlapInfo(p, r).value.value.1;
       var size := Hi(r, n) - Lo(r, n);
       size >= 0 && info.total > 0 && Lo(info, size) <= y < Hi(info, size)
  }

  lemma ReceivesIffOwns(p: Slice, r: Slice, n: nat, y: nat)
    requires Fits(p) && Fits(r) && Divides(p.total, n) && Divides(r.total, n) && n > 0 && Unifiable(p, r)
    requires y < Hi(r, n) - Lo(r, n)
    ensures Receives(p, r, n, y) <==> Owns(p, n, Lo(r, n) + y)
  {
    hide Lo, Hi, Divides, OverlapInfo;
    OverlapExact(p, r, n);
  }

  /** Weight-transfer completeness: if policy shards tile a dimension, every element of a
      rollout shard is received from exactly one of them, whatever the rollout sharding. */
  lemma EveryElementReceivedOnce(shards: seq<Slice>, r: Slice, n: nat, y: nat)
    requires Tiles(shards, n) && Fits(r) && Divides(r.total, n) && n > 0
    requires forall i :: 0 <= i < |shards| ==> Unifiable(shards[i], r)
    requires y < Hi(r, n) - Lo(r, n)
    ensures exists i :: 0 <= i < |shards| && Receives(shards[i], r, n, y)
    ensures forall i, j :: 0 <= i < j < |shards| ==> !(Receives(shards[i], r, n, y) && Receives(shards[j], r, n, y))
  {
    hide Lo, Hi, Divides, Receives, Unifiable, Owns;
    InsideDimension(r, n);
    var x := Lo(r, n) + y;
    assert OwnedOnce(shards, n, x);
    forall i | 0 <= i < |shards| ensures Receives(shards[i], r, n, y) <==> Owns(shards[i], n, x) {
      ReceivesIffOwns(shards[i], r, n, y);
    }
  }

  // ---- several dimensions --------------------------------------------------

  /** A shard of a tensor: one slice per dimension. */
  type Box = seq<Slice>

  predicate Shapely(b: Box, shape: seq<nat>) {
    |b| == |shape| && forall d :: 0 <= d < |b| ==> Fits(b[d]) && Divides(b[d].total, shape[d])
  }

  /** The shard holds the element at coordinates `x`. */
  predicate OwnsAt(b: Box, shape: seq<nat>, x: seq<nat>)
    requires Shapely(b, shape) && |x| == |shape|
  {
    forall d :: 0 <= d < |b| ==> Owns(b[d], shape[d], x[d])
  }

  /** Every element of the tensor belongs to exactly one shard. */
  ghost predicate TilesBox(boxes: seq<Box>, shape: seq<nat>) {
    && (forall i :: 0 <= i < |boxes| ==> Shapely(boxes[i], shape))
    && (forall x: seq<nat> :: InShape(x, shape) ==> OwnedOnceAt(boxes, shape, x))
  }

  predicate InShape(x: seq<nat>, shape: seq<nat>) {
    |x| == |shape| && forall d :: 0 <= d < |x| ==> x[d] < shape[d]
  }

  ghost predicate OwnedOnceAt(boxes: seq<Box>, shape: seq<nat>, x: seq<nat>)
    requires |x| == |shape| && forall i :: 0 <= i < |boxes| ==> Shapely(boxes[i], shape)
  {
    && (exists i :: 0 <= i < |boxes| && OwnsAt(boxes[i], shape, x))
    && (forall i, j :: 0 <= i < j < |boxes| ==> !(OwnsAt(boxes[i], shape, x) && OwnsAt(boxes[j], shape, x)))
  }

  /** The rollout shard receives its element `y` from the policy shard: there is an overlap in
      every dimension and it covers the coordinate. */
  predicate ReceivesAt(p: Box, r: Box, shape: seq<nat>, y: seq<nat>)
    requires |p| == |y| == |shape| && Shapely(r, shape)
  {
    forall d :: 0 <= d < |p| ==> Receives(p[d], r[d], shape[d], y[d])
  }

  /** The extent of a shard in each dimension. */
  predicate InBox(y: seq<nat>, r: Box, shape: seq<nat>)
    requires Shapely(r, shape)
  {
    |y| == |r| && forall d :: 0 <= d < |r| ==> y[d] < Hi(r[d], shape[d]) - Lo(r[d], shape[d])
  }

  predicate UnifiableBox(p: Box, r: Box) { |p| == |r| && forall d :: 0 <= d < |p| ==> Unifiable(p[d], r[d]) }

  /** Position `y` of a shard in the tensor. */
  function Global(y: seq<nat>, r: Box, shape: seq<nat>): (x: seq<nat>)
    requires Shapely(r, shape) && |y| == |r|
    ensures |x| == |y| && forall d :: 0 <= d < |y| ==> x[d] == Lo(r[d], shape[d]) + y[d]
  {
    seq(|y|, d requires 0 <= d < |y| => Lo(r[d], shape[d]) + y[d])
  }

  lemma ReceivesAtIffOwnsAt(p: Box, r: Box, shape: seq<nat>, y: seq<nat>)
    requires Shapely(p, shape) && Shapely(r, shape) && UnifiableBox(p, r) && InBox(y, r, shape)
    requires forall d :: 0 <= d < |shape| ==> shape[d] > 0
    ensures ReceivesAt(p, r, shape, y) <==> OwnsAt(p, shape, Global(y, r, shape))
  {
    hide Lo, Hi, Divides, Receives, Unifiable, Owns;
    forall d | 0 <= d < |shape|
      ensures Receives(p[d], r[d], shape[d], y[d]) <==> Owns(p[d], shape[d], Lo(r[d], shape[d]) + y[d])
    {
      ReceivesIffOwns(p[d], r[d], shape[d], y[d]);
    }
  }

  /** Completeness over several dimensions: if policy shards tile the tensor, every element of
      a rollout shard is received from exactly one of them. */
  lemma EveryBoxElementReceivedOnce(boxes: seq<Box>, r: Box, shape: seq<nat>, y: seq<nat>)
    requires TilesBox(boxes, shape) && Shapely(r, shape) && InBox(y, r, shape)
    requires forall d :: 0 <= d < |shape| ==> shape[d] > 0
    requires forall i :: 0 <= i < |boxes| ==> UnifiableBox(boxes[i], r)
    ensures exists i :: 0 <= i < |boxes| && ReceivesAt(boxes[i], r, shape, y)
    ensures forall i, j :: 0 <= i < j < |boxes| ==>
              !(ReceivesAt(boxes[i], r, shape, y) && ReceivesAt(boxes[j], r, shape, y))
  {
    hide Lo, Hi, Divides, ReceivesAt, UnifiableBox, OwnsAt;
    var x := Global(y, r, shape);
    forall d | 0 <= d < |shape| ensures x[d] < shape[d] { InsideDimension(r[d], shape[d]); }
    assert OwnedOnceAt(boxes, shape, x);
    forall i | 0 <= i < |boxes| ensures ReceivesAt(boxes[i], r, shape, y) <==> OwnsAt(boxes[i], shape, x) {
      ReceivesAtIffOwnsAt(boxes[i], r, shape, y);
    }
  }

  // ---- slicing in any order ------------------------------------------------

  /** A view into a tensor: in each dimension where it starts and how far it reaches. */
  datatype View = View(start: seq<nat>, shape: seq<nat>)

  predicate Proper(v: View) { |v.start| == |v.shape| }

  /** slice_tensor_with_strategy; it raises for a missing dimension or an indivisible one */
  function CutView(v: View, dim: int, s: Slice): (r: Option<View>)
    requires Proper(v)
    ensures r.Some? ==> Proper(r.value) && |r.value.shape| == |v.shape|
  {
    if !(0 <= dim < |v.shape|) || !Divides(s.total, v.shape[dim]) then None
    else
      var n := v.shape[dim];
      var from := Min(Lo(s, n), n);
      Some(View(v.start[dim := v.start[dim] + from], v.shape[dim := Max(from, Min(Hi(s, n), n)) - from]))
  }

  /** All dimensions at once. */
  function Reach(s: Option<Slice>, start: nat, n: nat): (nat, nat)
    requires s.Some? ==> s.value.total > 0
  {
    if s.None? then (start, n)
    else
      var from := Min(Lo(s.value, n), n);
      (start + from, Max(from, Min(Hi(s.value, n), n)) - from)
  }

  function At(cuts: map<int, Slice>, dim: int): Option<Slice> { if dim in cuts then Some(cuts[dim]) else None }

  predicate Applicable(v: View, cuts: map<int, Slice>) {
    forall d :: d in cuts ==> 0 <= d < |v.shape| && Divides(cuts[d].total, v.shape[d])
  }

  function CutAllDims(v: View, cuts: map<int, Slice>): (r: View)
    requires Proper(v) && Applicable(v, cuts)
    ensures Proper(r) && |r.shape| == |v.shape|
    ensures forall d :: 0 <= d < |v.shape| ==>
              (r.start[d], r.shape[d]) == Reach(At(cuts, d), v.start[d], v.shape[d])
  {
    View(seq(|v.shape|, d requires 0 <= d < |v.shape| => Reach(At(cuts, d), v.start[d], v.shape[d]).0),
         seq(|v.shape|, d requires 0 <= d < |v.shape| => Reach(At(cuts, d), v.start[d], v.shape[d]).1))
  }

  /** The entries of a dictionary, in the order it is walked. */
  predicate Lists(order: seq<int>, cuts: map<int, Slice>) {
    && (forall i :: 0 <= i < |order| ==> order[i] in cuts)
    && (forall i, j :: 0 <= i < j < |order| ==> order[i] != order[j])
    && (forall d :: d in cuts ==> d in order)
  }

  function Restricted(cuts: map<int, Slice>, dims: seq<int>): map<int, Slice> {
    map d | d in cuts && d in dims :: cuts[d]
  }

  lemma CutViewReaches(v: View, dim: int, s: Slice)
    requires Proper(v)
    ensures CutView(v, dim, s).Some? <==> 0 <= dim < |v.shape| && Divides(s.total, v.shape[dim])
    ensures CutView(v, dim, s).Some? ==>
              forall e :: 0 <= e < |v.shape| ==>
                (CutView(v, dim, s).value.start[e], CutView(v, dim, s).value.shape[e])
                == Reach(if e == dim then Some(s) else None, v.start[e], v.shape[e])
  {
    hide Lo, Hi;
  }

  lemma RestrictedNext(v: View, cuts: map<int, Slice>, order: seq<int>, i: nat)
    requires Proper(v) && Lists(order, cuts) && i < |order| && Applicable(v, Restricted(cuts, order[..i]))
    ensures var w := CutAllDims(v, Restricted(cuts, order[..i]));
            var next := CutView(w, order[i], cuts[order[i]]);
            && (next.Some? <==> 0 <= order[i] < |v.shape| && Divides(cuts[order[i]].total, v.shape[order[i]]))
            && (next.Some? ==> Applicable(v, Restricted(cuts, order[..i + 1]))
                               && next.value == CutAllDims(v, Restricted(cuts, order[..i + 1])))
  {
    hide Lo, Hi, Divides, CutView, Min, Max;
    var d := order[i];
    var before, after := Restricted(cuts, order[..i]), Restricted(cuts, order[..i + 1]);
    assert order[..i + 1] == order[..i] + [d];
    assert d !in order[..i];
    assert after == before[d := cuts[d]];
    var w := CutAllDims(v, before);
    var next := CutView(w, d, cuts[d]);
    CutViewReaches(w, d, cuts[d]);
    if next.Some? {
      assert Applicable(v, after);
      var a := CutAllDims(v, after);
      forall e | 0 <= e < |v.shape| ensures next.value.start[e] == a.start[e] && next.value.shape[e] == a.shape[e] {
        assert At(after, e) == if e == d then Some(cuts[d]) else At(before, e);
      }
    }
  }

  /** slice_tensor_with_strategies: whatever the order in which the dictionary is walked, the
      view is cut in all dimensions at once, or some cut does not apply and it raises. */
  method CutAll(v: View, cuts: map<int, Slice>, order: seq<int>) returns (r: Option<View>)
    requires Proper(v) && Lists(order, cuts)
    ensures r.Some? <==> Applicable(v, cuts)
    ensures r.Some? ==> r.value == CutAllDims(v, cuts)
  {
    hide CutView, CutAllDims, Divides;
    var view := v;
    assert Restricted(cuts, order[..0]) == map[];
    assert v == CutAllDims(v, map[]) by { CutNothing(v); }
    for i := 0 to |order|
      invariant Applicable(v, Restricted(cuts, order[..i])) && Proper(view)
      invariant view == CutAllDims(v, Restricted(cuts, order[..i]))
    {
      RestrictedNext(v, cuts, order, i);
      var next := CutView(view, order[i], cuts[order[i]]);
      if next.None? { return None; }
      view := next.value;
    }
    assert order[..|order|] == order;
    RestrictedAll(cuts, order);
    return Some(view);
  }

  lemma RestrictedAll(cuts: map<int, Slice>, order: seq<int>)
    requires Lists(order, cuts)
    ensures Restricted(cuts, order) == cuts
  {
    var r := Restricted(cuts, order);
    forall d | d in cuts ensures d in r { assert d in order; }
    assert r.Keys == cuts.Keys;
  }

  lemma CutNothing(v: View)
    requires Proper(v)
    ensures CutAllDims(v, map[]) == v
  {
    var r := CutAllDims(v, map[]);
    forall d | 0 <= d < |v.shape| ensures r.start[d] == v.start[d] && r.shape[d] == v.shape[d] {
      assert At(map[], d) == None;
    }
  }

  // ---- what is sent is what is received, in all dimensions -----------------

  /** The slices of a shard, by dimension, suit a tensor of this shape. */
  predicate Suits(shard: map<int, Slice>, shape: seq<nat>) {
    forall d :: d in shard ==> 0 <= d < |shape| && Fits(shard[d]) && Divides(shard[d].total, shape[d])
  }

  /** The shards overlap in every dimension that one of them lists. */
  predicate Meeting(policy: map<int, Slice>, rollout: map<int, Slice>) {
    forall d :: d in policy.Keys + rollout.Keys ==>
      OverlapInfoAt(policy, rollout, d).Some? && OverlapInfoAt(policy, rollout, d).value.Some?
  }

  /** The strategies of one transfer: what to cut from the policy shard... */
  function SentCuts(policy: map<int, Slice>, rollout: map<int, Slice>): map<int, Slice>
    requires Meeting(policy, rollout)
  {
    map d | d in policy.Keys + rollout.Keys :: OverlapInfoAt(policy, rollout, d).value.value.0
  }

  /** ...and where to put it in the rollout shard. */
  function ReceivedCuts(policy: map<int, Slice>, rollout: map<int, Slice>): map<int, Slice>
    requires Meeting(policy, rollout)
  {
    map d | d in policy.Keys + rollout.Keys :: OverlapInfoAt(policy, rollout, d).value.value.1
  }

  function Tensor(shape: seq<nat>): (v: View)
    ensures Proper(v) && v.shape == shape && forall d :: 0 <= d < |shape| ==> v.start[d] == 0
  {
    View(seq(|shape|, d => 0), shape)
  }

  lemma WholeSlice(n: nat)
    ensures Lo(Slice(0, 1, 1), n) == 0 && Hi(Slice(0, 1, 1), n) == n && Divides(1, n)
  {
  }

  /** A shard's view of a dimension, listed or not. */
  lemma ReachShard(shard: map<int, Slice>, shape: seq<nat>, d: nat)
    requires Suits(shard, shape) && d < |shape|
    ensures var s := ShardAt(shard, d);
            && Fits(s) && Divides(s.total, shape[d]) && Lo(s, shape[d]) <= Hi(s, shape[d]) <= shape[d]
            && Reach(At(shard, d), 0, shape[d]) == (Lo(s, shape[d]), Hi(s, shape[d]) - Lo(s, shape[d]))
  {
    hide Lo, Hi, Divides;
    WholeSlice(shape[d]);
    InsideDimension(ShardAt(shard, d), shape[d]);
  }

  lemma ReachHeld(x: Slice, s: Slice, n: nat, lo: nat, hi: nat)
    requires s.total > 0 && Holds(x, s, n, lo, hi)
    ensures Lo(s, n) <= Hi(s, n) && x.total > 0
    ensures Reach(Some(x), Lo(s, n), Hi(s, n) - Lo(s, n)) == (lo, hi - lo)
  {
    hide Lo, Hi, Divides;
    InsideDimension(x, Hi(s, n) - Lo(s, n));
  }

  /** One dimension of a shard that is cut by its side of the overlap holds the common elements. */
  predicate CutsCommon(shard: map<int, Slice>, cuts: map<int, Slice>, d: nat, n: nat, lo: nat, hi: nat)
    requires ShardAt(shard, d).total > 0
  {
    var s := ShardAt(shard, d);
    && Lo(s, n) <= Hi(s, n) && lo <= hi
    && (d in cuts ==> Divides(cuts[d].total, Hi(s, n) - Lo(s, n)))
    && Reach(At(cuts, d), Lo(s, n), Hi(s, n) - Lo(s, n)) == (lo, hi - lo)
  }

  lemma ListedCuts(shard: map<int, Slice>, cuts: map<int, Slice>, d: nat, n: nat, lo: nat, hi: nat)
    requires d in cuts && ShardAt(shard, d).total > 0 && Holds(cuts[d], ShardAt(shard, d), n, lo, hi)
    ensures CutsCommon(shard, cuts, d, n, lo, hi)
  {
    hide Lo, Hi, Divides, Reach, ShardAt;
    ReachHeld(cuts[d], ShardAt(shard, d), n, lo, hi);
  }

  lemma UnlistedCuts(shard: map<int, Slice>, cuts: map<int, Slice>, d: nat, n: nat)
    requires d !in cuts && d !in shard
    ensures CutsCommon(shard, cuts, d, n, 0, n)
  {
    hide Lo, Hi, Divides;
    WholeSlice(n);
  }

  lemma ListedCut(policy: map<int, Slice>, rollout: map<int, Slice>, d: nat)
    requires Meeting(policy, rollout) && d in policy.Keys + rollout.Keys
    ensures OverlapInfo(ShardAt(policy, d), ShardAt(rollout, d)).Some? && OverlapInfo(ShardAt(policy, d), ShardAt(rollout, d)).value.Some?
    ensures d in SentCuts(policy, rollout) && d in ReceivedCuts(policy, rollout)
    ensures (SentCuts(policy, rollout)[d], ReceivedCuts(policy, rollout)[d])
            == OverlapInfo(ShardAt(policy, d), ShardAt(rollout, d)).value.value
  {
    hide OverlapInfo, ShardAt;
  }

  lemma BothCutCommon(policy: map<int, Slice>, rollout: map<int, Slice>, shape: seq<nat>, d: nat)
    requires Suits(policy, shape) && Suits(rollout, shape) && Meeting(policy, rollout) && d < |shape| && shape[d] > 0
    ensures ShardAt(policy, d).total > 0 && ShardAt(rollout, d).total > 0
    ensures var lo := CommonLo(ShardAt(policy, d), ShardAt(rollout, d), shape[d]);
            var hi := CommonHi(ShardAt(policy, d), ShardAt(rollout, d), shape[d]);
            && CutsCommon(policy, SentCuts(policy, rollout), d, shape[d], lo, hi)
            && CutsCommon(rollout, ReceivedCuts(policy, rollout), d, shape[d], lo, hi)
  {
    hide Lo, Hi, Divides, OverlapInfo, Holds, Reach, CutsCommon, SentCuts, ReceivedCuts, Unifiable, Meeting, Suits;
    var n := shape[d];
    ReachShard(policy, shape, d);
    ReachShard(rollout, shape, d);
    var p, r := ShardAt(policy, d), ShardAt(rollout, d);
    if d in policy.Keys + rollout.Keys {
      hide ShardAt, CommonLo, CommonHi;
      ListedCut(policy, rollout, d);
      OverlapExact(p, r, n);
      ListedCuts(policy, SentCuts(policy, rollout), d, n, CommonLo(p, r, n), CommonHi(p, r, n));
      ListedCuts(rollout, ReceivedCuts(policy, rollout), d, n, CommonLo(p, r, n), CommonHi(p, r, n));
    } else {
      WholeSlice(n);
      NeitherCut(policy, rollout, d);
      UnlistedCuts(policy, SentCuts(policy, rollout), d, n);
      UnlistedCuts(rollout, ReceivedCuts(policy, rollout), d, n);
    }
  }

  lemma NeitherCut(policy: map<int, Slice>, rollout: map<int, Slice>, d: nat)
    requires Meeting(policy, rollout) && d !in policy && d !in rollout
    ensures d !in SentCuts(policy, rollout) && d !in ReceivedCuts(policy, rollout)
  {
    hide OverlapInfoAt;
  }

  /** Cutting a shard's view in all dimensions. */
  lemma ShardCut(shard: map<int, Slice>, cuts: map<int, Slice>, shape: seq<nat>, common: View)
    requires Suits(shard, shape) && Proper(common) && |common.shape| == |shape|
    requires forall d :: d in cuts ==> 0 <= d < |shape|
    requires forall d :: 0 <= d < |shape| ==>
               ShardAt(shard, d).total > 0 &&
               CutsCommon(shard, cuts, d, shape[d], common.start[d], common.start[d] + common.shape[d])
    ensures Applicable(Tensor(shape), shard) && Applicable(CutAllDims(Tensor(shape), shard), cuts)
    ensures CutAllDims(CutAllDims(Tensor(shape), shard), cuts) == common
  {
    hide Lo, Hi, Divides, Reach;
    var v := CutAllDims(Tensor(shape), shard);
    forall d | 0 <= d < |shape|
      ensures var s := ShardAt(shard, d);
              Lo(s, shape[d]) <= Hi(s, shape[d]) && v.start[d] == Lo(s, shape[d]) && v.shape[d] == Hi(s, shape[d]) - Lo(s, shape[d])
    {
      ReachShard(shard, shape, d);
    }
    assert Applicable(v, cuts);
    var w := CutAllDims(v, cuts);
    forall d | 0 <= d < |shape| ensures w.start[d] == common.start[d] && w.shape[d] == common.shape[d] {
      assert CutsCommon(shard, cuts, d, shape[d], common.start[d], common.start[d] + common.shape[d]);
    }
  }

  /** The elements both shards hold, as a view of the tensor. */
  ghost function CommonView(policy: map<int, Slice>, rollout: map<int, Slice>, shape: seq<nat>): (v: View)
    requires forall d :: 0 <= d < |shape| ==> ShardAt(policy, d).total > 0 && ShardAt(rollout, d).total > 0
    requires forall d :: 0 <= d < |shape| ==>
               CommonLo(ShardAt(policy, d), ShardAt(rollout, d), shape[d]) <= CommonHi(ShardAt(policy, d), ShardAt(rollout, d), shape[d])
    ensures Proper(v) && |v.shape| == |shape|
    ensures forall d :: 0 <= d < |shape| ==>
              && v.start[d] == CommonLo(ShardAt(policy, d), ShardAt(rollout, d), shape[d])
              && v.start[d] + v.shape[d] == CommonHi(ShardAt(policy, d), ShardAt(rollout, d), shape[d])
  {
    View(seq(|shape|, d requires 0 <= d < |shape| => CommonLo(ShardAt(policy, d), ShardAt(rollout, d), shape[d])),
         seq(|shape|, d requires 0 <= d < |shape| =>
           CommonHi(ShardAt(policy, d), ShardAt(rollout, d), shape[d]) - CommonLo(ShardAt(policy, d), ShardAt(rollout, d), shape[d])))
  }

  /** What is cut out of the policy shard and what is cut out of the rollout shard, over all
      dimensions, is the same view of the tensor: exactly the elements both shards hold. */
  lemma BoxPairsAgree(policy: map<int, Slice>, rollout: map<int, Slice>, shape: seq<nat>)
    requires Suits(policy, shape) && Suits(rollout, shape) && Meeting(policy, rollout)
    requires forall d :: 0 <= d < |shape| ==> shape[d] > 0
    ensures forall d :: 0 <= d < |shape| ==>
              && ShardAt(policy, d).total > 0 && ShardAt(rollout, d).total > 0
              && CommonLo(ShardAt(policy, d), ShardAt(rollout, d), shape[d]) <= CommonHi(ShardAt(policy, d), ShardAt(rollout, d), shape[d])
    ensures && Applicable(Tensor(shape), policy) && Applicable(Tensor(shape), rollout)
            && Applicable(CutAllDims(Tensor(shape), policy), SentCuts(policy, rollout))
            && Applicable(CutAllDims(Tensor(shape), rollout), ReceivedCuts(policy, rollout))
    ensures CutAllDims(CutAllDims(Tensor(shape), policy), SentCuts(policy, rollout)) == CommonView(policy, rollout, shape)
    ensures CutAllDims(CutAllDims(Tensor(shape), rollout), ReceivedCuts(policy, rollout)) == CommonView(policy, rollout, shape)
  {
    hide Lo, Hi, CommonLo, CommonHi, Divides, OverlapInfoAt, CutsCommon, CutAllDims, ShardAt;
    forall d | 0 <= d < |shape|
      ensures ShardAt(policy, d).total > 0 && ShardAt(rollout, d).total > 0
      ensures var lo := CommonLo(ShardAt(policy, d), ShardAt(rollout, d), shape[d]);
              var hi := CommonHi(ShardAt(policy, d), ShardAt(rollout, d), shape[d]);
              && lo <= hi
              && CutsCommon(policy, SentCuts(policy, rollout), d, shape[d], lo, hi)
              && CutsCommon(rollout, ReceivedCuts(policy, rollout), d, shape[d], lo, hi)
    {
      BothCutCommon(policy, rollout, shape, d);
      CutsOrdered(policy, SentCuts(policy, rollout), d, shape[d], CommonLo(ShardAt(policy, d), ShardAt(rollout, d), shape[d]),
                  CommonHi(ShardAt(policy, d), ShardAt(rollout, d), shape[d]));
    }
    var common := CommonView(policy, rollout, shape);
    ShardCut(policy, SentCuts(policy, rollout), shape, common);
    ShardCut(rollout, ReceivedCuts(policy, rollout), shape, common);
  }

  lemma CutsOrdered(shard: map<int, Slice>, cuts: map<int, Slice>, d: nat, n: nat, lo: nat, hi: nat)
    requires ShardAt(shard, d).total > 0 && CutsCommon(shard, cuts, d, n, lo, hi)
    ensures lo <= hi
  {
  }

  // ---- nested slices -------------------------------------------------------

  /** merge_rank; it raises unless the outer slice has length 0 or 1 */
  function Merge(outer: Slice, inner: Slice): Option<Slice> {
    if outer.length > 1 then None
    else Some(Slice(outer.offset * inner.total + inner.offset, outer.total * inner.total, inner.length * outer.length))
  }

  lemma MergedFits(outer: Slice, inner: Slice)
    requires Fits(outer) && Fits(inner) && outer.length == 1
    ensures Merge(outer, inner).Some? && Fits(Merge(outer, inner).value)
  {
    var (t, o) := (inner.total, outer.offset);
    MulMonotone(t, o + 1, outer.total);
    assert t * (o + 1) == o * t + t && t * outer.total == outer.total * t;
    MulMonotone(t, 1, outer.total);
  }

  lemma UnifyWithMultiple(m: Slice, s: Slice, k: nat)
    requires s.total > 0 && k > 0 && m.total == s.total * k
    ensures Unify(m, s) == Some((m, Scale(s, k)))
  {
    hide Divides, Scale;
    MulMonotone(s.total, 1, k);
    MulDivides(s.total, k);
    MulDivides(m.total, 1);
    assert Scale(m, 1) == m by { ScaleOne(m); }
  }

  lemma ScaleOne(m: Slice)
    ensures Scale(m, 1) == m
  {
  }

  /** relative_rank undoes merge_rank for outer slices of length 1. */
  lemma RelativeUndoesMerge(outer: Slice, inner: Slice)
    requires Fits(outer) && Fits(inner) && outer.length == 1
    ensures Merge(outer, inner).Some? && Relative(Merge(outer, inner).value, outer) == Some(inner)
  {
    hide Unify;
    UnifyWithMultiple(Merge(outer, inner).value, outer, inner.total);
  }

  /** The merged slice starts and ends where the inner one does inside the outer one. */
  lemma MergeMeaning(outer: Slice, inner: Slice, n: nat)
    requires Fits(outer) && Fits(inner) && outer.length == 1 && Divides(outer.total * inner.total, n)
    ensures Merge(outer, inner).Some? && Divides(outer.total, n)
    ensures var m, unit := Merge(outer, inner).value, Hi(outer, n) - Lo(outer, n);
            && unit >= 0 && Divides(inner.total, unit)
            && Lo(m, n) == Lo(outer, n) + Lo(inner, unit) && Hi(m, n) == Lo(outer, n) + Hi(inner, unit)
  {
    var (t, u, o) := (outer.total, inner.total, outer.offset);
    var c := n / (t * u);
    MulDivides(t, u);
    assert Divides(t, t * u);
    DividesTransitive(t, t * u, n);
    assert n / t == c * u;
    assert c * u * (o + 1) - c * u * o == c * u;
    MulDivides(u, c);
    assert c * u == u * c;
    assert c * (o * u + inner.offset) == c * u * o + c * inner.offset by { assert c * (o * u) == c * u * o; }
    assert c * (o * u + inner.offset + inner.length) == c * u * o + c * (inner.offset + inner.length) by {
      assert c * (o * u) == c * u * o;
    }
  }

  lemma MergedTotal(outer: Slice, inner: Slice)
    requires outer.length == 1
    ensures Merge(outer, inner).Some? && Merge(outer, inner).value.total == outer.total * inner.total
  {
  }

  /** Slicing by the merged slice is slicing twice. */
  lemma MergeIsNesting<T>(g: seq<T>, outer: Slice, inner: Slice)
    requires Fits(outer) && Fits(inner) && outer.length == 1 && Divides(outer.total * inner.total, |g|)
    ensures Merge(outer, inner).Some? && Cut(g, outer).Some?
    ensures Cut(g, Merge(outer, inner).value).Some?
    ensures Cut(Cut(g, outer).value, inner) == Cut(g, Merge(outer, inner).value)
  {
    hide Cut, Lo, Hi, Divides, Merge;
    MergedFits(outer, inner);
    var m, n := Merge(outer, inner).value, |g|;
    assert m.total == outer.total * inner.total by { MergedTotal(outer, inner); }
    MergeMeaning(outer, inner, n);
    CutIs(g, outer);
    CutIs(g, m);
    var shard := Cut(g, outer).value;
    assert |shard| == Hi(outer, n) - Lo(outer, n);
    CutIs(shard, inner);
    SliceOfSlice(g, Lo(outer, n), Hi(outer, n), Lo(inner, |shard|), Hi(inner, |shard|));
  }
}
