/** Quotient and remainder by a divisor that is not a constant. */
module Division {
  lemma MultiplesApart(k: nat, q: nat, m: nat)
    requires k < q
    ensures k * m + m <= q * m
  {
    assert (q - k - 1) * m >= 0;
    assert (q - k - 1) * m == q * m - k * m - m;
  }

  /** There is one way only to write a number as a multiple of m and a rest below m. */
  lemma Divides(q: nat, m: nat, r: nat)
    requires r < m
    ensures (q * m + r) / m == q && (q * m + r) % m == r
  {
    var x := q * m + r;
    var q', r' := x / m, x % m;
    assert q' * m + r' == x;
    if q < q' { MultiplesApart(q, q', m); }
    if q' < q { MultiplesApart(q', q, m); }
  }
}
