/** RTP counters of 16 or 32 bits, extended to unbounded ones around the newest value seen. */
module RtpUnwrap {
  import opened Wrappers
  import opened ModularArithmetic

  /** Half a cycle of the two counters. */
  const SEQUENCE_HALF := 0x8000
  const TIMESTAMP_HALF := 0x8000_0000

  /** The newest value: as received, and extended. */
  datatype Counter = Counter(raw: nat, extended: int)

  /** The unsigned difference, read as a two's complement number of the same width. */
  function Signed(difference: int, half: int): int
    requires half > 0
  {
    var d := difference % (2 * half);
    if d < half then d else d - 2 * half
  }

  function Unwrap(newest: Option<Counter>, raw: nat, half: int): (int, Option<Counter>)
    requires half > 0
  {
    match newest
    case None => (raw, Some(Counter(raw, raw)))
    case Some(c) =>
      var delta := Signed(raw - c.raw, half);
      (c.extended + delta, if delta > 0 then Some(Counter(raw, c.extended + delta)) else newest)
  }

  /** A stream: the extended value of each packet, and the newest after all of them. */
  function UnwrapAll(raws: seq<nat>, half: int): (r: (seq<int>, Option<Counter>))
    requires half > 0
    ensures |r.0| == |raws|
  {
    if raws == [] then ([], None)
    else
      var (before, newest) := UnwrapAll(raws[..|raws| - 1], half);
      var (extended, next) := Unwrap(newest, raws[|raws| - 1], half);
      (before + [extended], next)
  }

  // ---- congruence ----

  predicate CongruentTo(extended: int, raw: int, half: int)
    requires half > 0
  {
    extended % (2 * half) == raw % (2 * half)
  }

  predicate CounterOk(newest: Option<Counter>, half: int)
    requires half > 0
  {
    newest.Some? ==> CongruentTo(newest.value.extended, newest.value.raw, half)
  }

  lemma SignedIsCongruent(difference: int, half: int) returns (k: int)
    requires half > 0
    ensures Signed(difference, half) == difference + k * (2 * half)
    ensures -half <= Signed(difference, half) < half
  {
    var m := 2 * half;
    k := -(difference / m) - if difference % m < half then 0 else 1;
    Distribute(-(difference / m), if difference % m < half then 0 else 1, m);
  }

  lemma CyclesTogether(extended: int, last: int, raw: int, change: int, i: int, j: int, m: int)
    requires m > 0 && extended == last + i * m && change == raw - last + j * m
    ensures (extended + change) % m == raw % m
  {
    Distribute(i + j, j, m);
    AddCycles(raw, i + j, m);
  }

  lemma StepCongruent(c: Counter, raw: nat, half: int)
    requires half > 0 && CongruentTo(c.extended, c.raw, half)
    ensures CongruentTo(c.extended + Signed(raw - c.raw, half), raw, half)
  {
    var i := CyclesApart(c.extended, c.raw, 2 * half);
    var j := SignedIsCongruent(raw - c.raw, half);
    CyclesTogether(c.extended, c.raw, raw, Signed(raw - c.raw, half), i, j, 2 * half);
  }

  lemma UnwrapCongruent(newest: Option<Counter>, raw: nat, half: int)
    requires half > 0 && CounterOk(newest, half)
    ensures var (extended, next) := Unwrap(newest, raw, half);
      CongruentTo(extended, raw, half) && CounterOk(next, half)
  {
    if newest.Some? { StepCongruent(newest.value, raw, half); }
  }

  /** Every extended value is the raw one up to whole cycles, whatever arrives. */
  lemma {:induction false} AlwaysCongruent(raws: seq<nat>, half: int)
    requires half > 0
    ensures CounterOk(UnwrapAll(raws, half).1, half)
    ensures forall i | 0 <= i < |raws| :: CongruentTo(UnwrapAll(raws, half).0[i], raws[i], half)
  {
    if raws != [] {
      var earlier := raws[..|raws| - 1];
      AlwaysCongruent(earlier, half);
      UnwrapCongruent(UnwrapAll(earlier, half).1, raws[|raws| - 1], half);
      forall i | 0 <= i < |raws| ensures CongruentTo(UnwrapAll(raws, half).0[i], raws[i], half) {
        if i < |earlier| { assert earlier[i] == raws[i]; }
      }
    }
  }

  // ---- exactness ----

  /** The true indexes of a stream, as the wire carries them. */
  function Wire(indexes: seq<int>, half: int): (raws: seq<nat>)
    requires half > 0
    ensures |raws| == |indexes|
  {
    seq(|indexes|, i requires 0 <= i < |indexes| => indexes[i] % (2 * half))
  }

  function Largest(indexes: seq<int>): int
    requires indexes != []
  {
    if |indexes| == 1 then indexes[0]
    else
      var before := Largest(indexes[..|indexes| - 1]);
      if indexes[|indexes| - 1] > before then indexes[|indexes| - 1] else before
  }

  /** Each packet is less than half a cycle ahead of the newest before it, and at most half a cycle behind. */
  predicate Near(indexes: seq<int>, half: int) {
    forall i {:trigger indexes[i]} | 1 <= i < |indexes| :: -half <= indexes[i] - Largest(indexes[..i]) < half
  }

  /** The extended values are the true ones, up to a constant. */
  predicate Exact(indexes: seq<int>, half: int)
    requires half > 0
  {
    forall i {:trigger indexes[i]} | 0 <= i < |indexes| ::
      UnwrapAll(Wire(indexes, half), half).0[i] - indexes[i] == UnwrapAll(Wire(indexes, half), half).0[0] - indexes[0]
  }

  lemma WirePrefix(indexes: seq<int>, half: int)
    requires half > 0 && indexes != []
    ensures var n := |indexes| - 1;
      && Wire(indexes, half)[..n] == Wire(indexes[..n], half)
      && UnwrapAll(Wire(indexes, half), half).0[..n] == UnwrapAll(Wire(indexes[..n], half), half).0
      && UnwrapAll(Wire(indexes, half), half).0[n]
           == Unwrap(UnwrapAll(Wire(indexes[..n], half), half).1, indexes[n] % (2 * half), half).0
      && UnwrapAll(Wire(indexes, half), half).1
           == Unwrap(UnwrapAll(Wire(indexes[..n], half), half).1, indexes[n] % (2 * half), half).1
  {
    assert Wire(indexes, half)[..|indexes| - 1] == Wire(indexes[..|indexes| - 1], half);
  }

  /** The signed difference of two wrapped indexes is their difference exactly when that is in range. */
  lemma SignedExact(a: int, b: int, half: int)
    requires half > 0
    ensures Signed(a % (2 * half) - b % (2 * half), half) == a - b <==> -half <= a - b < half
  {
    var m := 2 * half;
    var d := a % m - b % m;
    var j := SignedIsCongruent(d, half);
    if -half <= a - b < half {
      Distribute(a / m, b / m, m);
      assert a - b == d + (a / m - b / m) * m;
      NoRoom(d, j, a / m - b / m, m);
    }
  }

  lemma NoRoom(d: int, i: int, j: int, m: int)
    requires m > 0 && -m < (d + i * m) - (d + j * m) < m
    ensures i == j
  {
    if i < j { Grow(m, i, j); }
    if j < i { Grow(m, j, i); }
  }

  lemma {:induction false} FirstIsWire(indexes: seq<int>, half: int)
    requires half > 0 && indexes != []
    ensures UnwrapAll(Wire(indexes, half), half).0[0] == indexes[0] % (2 * half)
    decreases |indexes|
  {
    WirePrefix(indexes, half);
    if |indexes| > 1 {
      FirstIsWire(indexes[..|indexes| - 1], half);
      assert UnwrapAll(Wire(indexes, half), half).0[0] == UnwrapAll(Wire(indexes, half), half).0[..|indexes| - 1][0];
    } else {
      assert Wire(indexes[..0], half) == [];
    }
  }

  predicate NewestIs(newest: Option<Counter>, index: int, shift: int, half: int)
    requires half > 0
  {
    newest == Some(Counter(index % (2 * half), index + shift))
  }

  /** While exact, the newest counter is the largest index, shifted by the same constant. */
  lemma {:induction false} ExactNewest(indexes: seq<int>, half: int)
    requires half > 0 && indexes != [] && Exact(indexes, half)
    ensures NewestIs(UnwrapAll(Wire(indexes, half), half).1, Largest(indexes),
                     UnwrapAll(Wire(indexes, half), half).0[0] - indexes[0], half)
    decreases |indexes|
  {
    var n := |indexes| - 1;
    WirePrefix(indexes, half);
    FirstIsWire(indexes, half);
    if n == 0 {
      assert UnwrapAll(Wire(indexes[..0], half), half) == ([], None);
    } else {
      ExactPrefix(indexes, half);
      FirstIsWire(indexes[..n], half);
      ExactNewest(indexes[..n], half);
    }
  }

  lemma ExactPrefix(indexes: seq<int>, half: int)
    requires half > 0 && |indexes| > 1 && Exact(indexes, half)
    ensures Exact(indexes[..|indexes| - 1], half)
  {
    var n := |indexes| - 1;
    WirePrefix(indexes, half);
    var all, fewer := UnwrapAll(Wire(indexes, half), half).0, UnwrapAll(Wire(indexes[..n], half), half).0;
    forall i | 0 <= i < n ensures fewer[i] - indexes[..n][i] == fewer[0] - indexes[..n][0] {
      assert all[..n][i] == fewer[i] && all[..n][0] == fewer[0] && indexes[..n][i] == indexes[i];
    }
  }

  lemma NearPrefix(indexes: seq<int>, half: int)
    requires |indexes| > 1
    ensures var n := |indexes| - 1;
      Near(indexes, half) <==> Near(indexes[..n], half) && -half <= indexes[n] - Largest(indexes[..n]) < half
  {
    var n := |indexes| - 1;
    forall i | 1 <= i < n ensures indexes[..n][..i] == indexes[..i] && indexes[..n][i] == indexes[i] {
    }
  }

  predicate Shifted(extended: seq<int>, indexes: seq<int>, shift: int)
    requires |extended| == |indexes|
  {
    forall i {:trigger indexes[i]} | 0 <= i < |indexes| :: extended[i] - indexes[i] == shift
  }

  lemma ShiftedOneMore(extended: seq<int>, indexes: seq<int>, shift: int)
    requires |extended| == |indexes| > 0
    ensures var n := |indexes| - 1;
      Shifted(extended, indexes, shift) <==>
        Shifted(extended[..n], indexes[..n], shift) && extended[n] - indexes[n] == shift
  {
    var n := |indexes| - 1;
    if Shifted(extended[..n], indexes[..n], shift) && extended[n] - indexes[n] == shift {
      forall i | 0 <= i < |indexes| ensures extended[i] - indexes[i] == shift {
        if i < n { assert extended[..n][i] - indexes[..n][i] == shift; }
      }
    }
    if Shifted(extended, indexes, shift) {
      forall i | 0 <= i < n
        ensures extended[..n][i] - indexes[..n][i] == shift { assert extended[i] - indexes[i] == shift; }
    }
  }

  /** With the newest known, the next value is exact exactly when it is near. */
  lemma NextExact(newest: Option<Counter>, largest: int, shift: int, index: int, half: int)
    requires half > 0 && NewestIs(newest, largest, shift, half)
    ensures Unwrap(newest, index % (2 * half), half).0 - index == shift <==> -half <= index - largest < half
  {
    SignedExact(index, largest, half);
  }

  lemma LastExact(indexes: seq<int>, half: int)
    requires half > 0 && |indexes| > 1 && Exact(indexes[..|indexes| - 1], half)
    ensures Exact(indexes, half) <==> -half <= indexes[|indexes| - 1] - Largest(indexes[..|indexes| - 1]) < half
  {
    var n := |indexes| - 1;
    var before := indexes[..n];
    WirePrefix(indexes, half);
    ExactNewest(before, half);
    var all, fewer := UnwrapAll(Wire(indexes, half), half).0, UnwrapAll(Wire(before, half), half).0;
    var shift := fewer[0] - before[0];
    NextExact(UnwrapAll(Wire(before, half), half).1, Largest(before), shift, indexes[n], half);
    assert all[..n][0] == all[0];
    assert Shifted(fewer, before, shift);
    ShiftedOneMore(all, indexes, shift);
    assert Exact(indexes, half) <==> Shifted(all, indexes, all[0] - indexes[0]);
  }

  /** Unwrapping recovers a stream's own numbering exactly when no packet strays half a cycle from the newest. */
  lemma {:induction false} ExactIffNear(indexes: seq<int>, half: int)
    requires half > 0
    ensures Exact(indexes, half) <==> Near(indexes, half)
    decreases |indexes|
  {
    if |indexes| > 1 {
      ExactIffNear(indexes[..|indexes| - 1], half);
      NearPrefix(indexes, half);
      if Exact(indexes, half) { ExactPrefix(indexes, half); }
      if Exact(indexes[..|indexes| - 1], half) { LastExact(indexes, half); }
    }
  }
}
