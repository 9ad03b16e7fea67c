/** Products and integer quotients. */
module Arith {
  lemma MulMonotone(a: nat, b: int, c: int)
    requires b <= c
    ensures a * b <= a * c
  {
    assert a * c == a * b + a * (c - b);
  }

  lemma MulCancel(a: nat, b: int, c: int)
    requires a * b < a * c
    ensures b < c
  {
    if c <= b { MulMonotone(a, c, b); }
  }

  lemma DivBounds(q: int, b: nat)
    requires b >= 1
    ensures b * (q / b) <= q < b * (q / b + 1)
  {
    assert q == b * (q / b) + q % b;
    assert b * (q / b + 1) == b * (q / b) + b;
  }

  /** The quotient is the only x with b*x <= q < b*(x+1). */
  lemma DivUnique(q: int, b: nat, x: int)
    requires b >= 1 && b * x <= q < b * (x + 1)
    ensures q / b == x
  {
    var r := q / b;
    DivBounds(q, b);
    MulCancel(b, x, r + 1);
    MulCancel(b, r, x + 1);
  }

  lemma DivShift(q: int, b: nat)
    requires b >= 1
    ensures (q + b) / b == q / b + 1
  {
    var r := q / b;
    DivBounds(q, b);
    assert b * (r + 1) == b * r + b && b * (r + 1 + 1) == b * (r + 1) + b;
    DivUnique(q + b, b, r + 1);
  }

  lemma DivMonotone(p: int, q: int, b: nat)
    requires b >= 1 && p <= q
    ensures p / b <= q / b
  {
    DivBounds(p, b);
    DivBounds(q, b);
    MulCancel(b, p / b, q / b + 1);
  }

  /** Dividing by more gives no more. */
  lemma DivAntitone(q: nat, a: nat, b: nat)
    requires 1 <= a <= b
    ensures q / b <= q / a
  {
    var x := q / b;
    DivBounds(q, a);
    DivBounds(q, b);
    MulMonotone(x, a, b);
    assert a * x <= b * x;
    MulCancel(a, x, q / a + 1);
  }
}
