/** Big-endian binary streams: a reader that keeps going after a short read, but remembers it. */
module CompactStream {
  import opened Wrappers

  type Bytes = seq<byte>

  datatype Reader = Reader(rest: Bytes, ok: bool)

  function Raw(r: Reader, n: nat): (Bytes, Reader) {
    if n <= |r.rest| then (r.rest[..n], Reader(r.rest[n..], r.ok)) else (r.rest, Reader([], false))
  }

  function Number(b: Bytes): nat {
    if b == [] then 0 else 256 * Number(b[..|b| - 1]) + b[|b| - 1] as nat
  }

  function Digits(n: nat, value: nat): (b: Bytes)
    ensures |b| == n
  {
    if n == 0 then [] else Digits(n - 1, value / 256) + [(value % 256) as byte]
  }

  function Limit(n: nat): (m: nat)
    ensures m >= 1
  {
    if n == 0 then 1 else 256 * Limit(n - 1)
  }

  /** An unsigned integer of `n` bytes; a short read consumes the rest and yields zero. */
  function Unsigned(r: Reader, n: nat): (nat, Reader) {
    var (b, next) := Raw(r, n);
    (if |b| == n then Number(b) else 0, next)
  }

  lemma {:induction false} NumberOfDigits(n: nat, value: nat)
    requires value < Limit(n)
    ensures Number(Digits(n, value)) == value
  {
    if n > 0 {
      NumberOfDigits(n - 1, value / 256);
      var b := Digits(n, value);
      assert b[..|b| - 1] == Digits(n - 1, value / 256);
    }
  }

  lemma {:induction false} DigitsOfNumber(b: Bytes)
    ensures Number(b) < Limit(|b|) && Digits(|b|, Number(b)) == b
  {
    if b != [] {
      DigitsOfNumber(b[..|b| - 1]);
      assert b == b[..|b| - 1] + [b[|b| - 1]];
    }
  }

  lemma RawBack(b: Bytes, rest: Bytes, ok: bool)
    ensures Raw(Reader(b + rest, ok), |b|) == (b, Reader(rest, ok))
  {
    assert (b + rest)[..|b|] == b && (b + rest)[|b|..] == rest;
  }

  lemma UnsignedBack(n: nat, value: nat, rest: Bytes, ok: bool)
    requires value < Limit(n)
    ensures Unsigned(Reader(Digits(n, value) + rest, ok), n) == (value, Reader(rest, ok))
  {
    RawBack(Digits(n, value), rest, ok);
    NumberOfDigits(n, value);
  }

  /** A read that leaves the stream good took exactly what it returns. */
  lemma RawTook(r: Reader, n: nat)
    ensures var (b, next) := Raw(r, n);
      (next.ok ==> r.ok) && (|b| == n ==> r.rest == b + next.rest && next.ok == r.ok)
        && (|b| != n ==> !next.ok && next.rest == [])
  {
  }

  lemma UnsignedTook(r: Reader, n: nat)
    ensures var (value, next) := Unsigned(r, n);
      && (next.ok ==> r.ok) && (!next.ok && r.ok ==> next.rest == [] && |r.rest| < n && value == 0)
      && (next.ok ==> value < Limit(n) && r.rest == Digits(n, value) + next.rest)
  {
    RawTook(r, n);
    DigitsOfNumber(Raw(r, n).0);
  }

  lemma Limits()
    ensures Limit(1) == 0x100 && Limit(2) == 0x1_0000 && Limit(4) == 0x1_0000_0000
  {
  }
}
