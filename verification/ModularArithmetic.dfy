/** Quotients and remainders of unbounded integers. */
module ModularArithmetic {

  lemma Distribute(q: int, m: int, c: int)
    ensures (q - m) * c == q * c - m * c
  {
  }

  lemma {:induction false} Grow(m: int, a: int, b: int)
    requires m > 0 && a < b
    ensures a * m + m <= b * m
    decreases b - a
  {
    assert b * m == (b - 1) * m + m by { Distribute(b, 1, m); }
    if a < b - 1 { Grow(m, a, b - 1); }
  }

  lemma ModuloIs(x: int, m: int, q: int, r: int)
    requires m > 0 && x == q * m + r && 0 <= r < m
    ensures x / m == q && x % m == r
  {
    assert x == x / m * m + x % m;
    if x / m < q { Grow(m, x / m, q); }
    if q < x / m { Grow(m, q, x / m); }
  }

  /** Whole cycles leave the remainder alone. */
  lemma AddCycles(a: int, k: int, m: int)
    requires m > 0
    ensures (a + k * m) % m == a % m
  {
    assert a + k * m == (a / m + k) * m + a % m by { Distribute(a / m, -k, m); }
    ModuloIs(a + k * m, m, a / m + k, a % m);
  }

  /** Numbers with the same remainder are whole cycles apart. */
  lemma CyclesApart(a: int, b: int, m: int) returns (k: int)
    requires m > 0 && a % m == b % m
    ensures a == b + k * m
  {
    k := a / m - b / m;
    Distribute(a / m, b / m, m);
  }
}
