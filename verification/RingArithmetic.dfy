/** Index arithmetic of the ring: wrap-around at the machine word, masking by a power of two. */
module RingArithmetic {
  import opened ModularArithmetic

  /** One more than the largest `size_t`. */
  const WORD := 0x1_0000_0000_0000_0000

  function Pow2(n: nat): (p: nat)
    ensures p >= 1
  {
    if n == 0 then 1 else 2 * Pow2(n - 1)
  }

  /** Bitwise and. */
  function And(x: nat, y: nat): nat {
    if x == 0 || y == 0 then 0 else 2 * And(x / 2, y / 2) + (if x % 2 == 1 && y % 2 == 1 then 1 else 0)
  }

  /** Unsigned subtraction of machine words. */
  function Minus(a: nat, b: nat): nat
    requires a < WORD && b < WORD
  {
    if a >= b then a - b else a + WORD - b
  }

  lemma {:induction false} MaskIsModulo(x: nat, n: nat)
    ensures And(x, Pow2(n) - 1) == x % Pow2(n)
    decreases n
  {
    if n == 0 {
    } else if x != 0 {
      var half := Pow2(n - 1);
      MaskIsModulo(x / 2, n - 1);
      assert (2 * half - 1) / 2 == half - 1 && (2 * half - 1) % 2 == 1;
      if half == 1 {
        assert And(x / 2, 0) == 0;
      }
      ModuloSplits(x, half);
    }
  }

  lemma ModuloSplits(x: nat, half: nat)
    requires half > 0
    ensures x % (2 * half) == 2 * (x / 2 % half) + x % 2
  {
    var q, r := x / 2 / half, x / 2 % half;
    assert x / 2 == q * half + r;
    assert x == q * (2 * half) + (2 * r + x % 2) by { Regroup(q, half); }
    ModuloIs(x, 2 * half, q, 2 * r + x % 2);
  }

  lemma Regroup(q: nat, half: nat)
    ensures 2 * (q * half) == q * (2 * half)
  {
  }

  /** Exactly the capacities that pass the ring's static assertion. */
  lemma {:induction false} PowersOfTwo(c: nat)
    requires c > 0
    ensures And(c, c - 1) == 0 <==> exists n: nat :: c == Pow2(n)
  {
    if And(c, c - 1) == 0 {
      var n := Exponent(c);
      assert c == Pow2(n);
    } else {
      forall n: nat ensures c != Pow2(n) { if c == Pow2(n) { MaskPower(c, n); } }
    }
  }

  lemma MaskPower(c: nat, n: nat)
    requires c == Pow2(n)
    ensures And(c, c - 1) == 0
  {
    MaskIsModulo(c, n);
    ModuloIs(c, c, 1, 0);
  }

  lemma {:induction false} Exponent(c: nat) returns (n: nat)
    requires c > 0 && And(c, c - 1) == 0
    ensures c == Pow2(n)
    decreases c
  {
    if c == 1 {
      n := 0;
      assert Pow2(0) == 1;
    } else {
      if c % 2 == 1 { assert (c - 1) / 2 == c / 2; AndSelf(c / 2); }
      assert (c - 1) / 2 == c / 2 - 1;
      assert And(c, c - 1) == 2 * And(c / 2, c / 2 - 1);
      n := Exponent(c / 2);
      n := n + 1;
    }
  }

  lemma {:induction false} AndSelf(x: nat)
    ensures And(x, x) == x
    decreases x
  {
    if x != 0 { AndSelf(x / 2); }
  }

  lemma {:induction false} PowerSum(a: nat, b: nat)
    ensures Pow2(a + b) == Pow2(a) * Pow2(b)
    decreases a
  {
    if a > 0 {
      PowerSum(a - 1, b);
      assert Pow2(a + b) == 2 * Pow2(a - 1 + b);
    }
  }

  lemma {:induction false} PowerGrows(a: nat, b: nat)
    requires a < b
    ensures Pow2(a) < Pow2(b)
    decreases b
  {
    if a < b - 1 { PowerGrows(a, b - 1); }
  }

  lemma WordIsPower()
    ensures Pow2(64) == WORD
  {
    assert Pow2(4) == 16;
    PowerSum(4, 4);
    PowerSum(8, 8);
    PowerSum(16, 16);
    PowerSum(32, 32);
  }

  /** A capacity the ring can be built with. */
  predicate Capacity(c: nat) { 0 < c < WORD && And(c, c - 1) == 0 }

  /** Wrapping at the word first does not disturb the cell an unbounded index would use. */
  lemma CellOf(c: nat, total: nat, offset: nat)
    requires Capacity(c)
    ensures And((total % WORD + offset) % WORD, c - 1) == (total + offset) % c
  {
    PowersOfTwo(c);
    var n: nat :| c == Pow2(n);
    WordIsPower();
    if n > 64 { PowerGrows(64, n); }
    PowerSum(n, 64 - n);
    MaskIsModulo((total % WORD + offset) % WORD, n);
    var k := Pow2(64 - n);
    WrapTwice(total, offset, c, k);
  }

  lemma WrapTwice(total: nat, offset: nat, c: nat, k: nat)
    requires c > 0 && k > 0 && c * k == WORD
    ensures (total % WORD + offset) % WORD % c == (total + offset) % c
  {
    var y := total % WORD + offset;
    assert y == total + offset - total / WORD * WORD;
    ModuloShift(y, y / WORD, c, k);
    ModuloShift(total + offset, total / WORD, c, k);
  }

  /** Subtracting words from a number keeps it modulo any divisor of the word. */
  lemma ModuloShift(x: nat, words: nat, c: nat, k: nat)
    requires c > 0 && k > 0 && c * k == WORD && words * WORD <= x
    ensures (x - words * WORD) % c == x % c
  {
    var q, r := x / c, x % c;
    var m := words * k;
    assert words * WORD == m * c by { Associate(words, c, k); }
    assert x - words * WORD == (q - m) * c + r by { Distribute(q, m, c); }
    ModuloIs(x - words * WORD, c, q - m, r);
  }

  lemma Associate(words: nat, c: nat, k: nat)
    ensures words * (c * k) == words * k * c
  {
  }

  /** Indices less than a capacity apart use different cells. */
  lemma DifferentCells(c: nat, a: nat, b: nat)
    requires a < b < a + c
    ensures a % c != b % c
  {
    if a % c == b % c { SameCell(c, a, b); }
  }

  lemma SameCell(c: nat, a: nat, b: nat)
    requires 0 < c && a < b && a % c == b % c
    ensures a + c <= b
  {
    assert a == a / c * c + a % c && b == b / c * c + b % c;
    if a / c < b / c { Grow(c, a / c, b / c); }
    if b / c < a / c { Grow(c, b / c, a / c); }
  }

  /** The difference of two wrapped counters is the real one while it fits a word. */
  lemma WrappedDifference(write: nat, read: nat)
    requires read <= write < read + WORD
    ensures Minus(write % WORD, read % WORD) == write - read
  {
    var d := write / WORD - read / WORD;
    assert write - read == d * WORD + (write % WORD - read % WORD);
  }

  lemma CountOn(total: nat, more: nat)
    ensures (total % WORD + more) % WORD == (total + more) % WORD
  {
    var y := total % WORD + more;
    assert y == total + more - total / WORD * WORD;
    ModuloShift(total + more, total / WORD, WORD, 1);
  }
}
