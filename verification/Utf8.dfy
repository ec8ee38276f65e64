/** UTF-8 as the program's text class reads and writes it: what is not well formed is replaced, byte by byte. */
module Utf8 {
  import opened Wrappers

  type Bytes = seq<byte>

  const REPLACEMENT: char := '\U{FFFD}'

  predicate Follows(b: byte) { 0x80 <= b < 0xc0 }

  /** The length of the well-formed sequence the bytes begin with; 0 if they begin with none. */
  function Length(b: Bytes): (n: nat)
    requires b != []
    ensures n <= |b| && n <= 4
  {
    if b[0] < 0x80 then 1
    else if |b| < 2 || !Follows(b[1]) then 0
    else if 0xc2 <= b[0] < 0xe0 then 2
    else if |b| < 3 || !Follows(b[2]) then 0
    else if 0xe0 <= b[0] < 0xf0 then (if Narrow(b[0], b[1]) then 3 else 0)
    else if |b| < 4 || !Follows(b[3]) then 0
    else if 0xf0 <= b[0] < 0xf5 && Narrow(b[0], b[1]) then 4
    else 0
  }

  /** Not a longer form than needed, not a surrogate, and not beyond the last code point. */
  predicate Narrow(a: byte, b: byte) {
    && (a == 0xe0 ==> b >= 0xa0) && (a == 0xed ==> b < 0xa0)
    && (a == 0xf0 ==> b >= 0x90) && (a == 0xf4 ==> b < 0x90)
  }

  function Low(b: byte): nat
    requires Follows(b)
  {
    b as nat - 0x80
  }

  function First(b: Bytes): char
    requires b != [] && Length(b) > 0
  {
    var a := b[0] as nat;
    if a < 0x80 then a as char
    else if a < 0xe0 then (64 * (a - 0xc0) + Low(b[1])) as char
    else if a < 0xf0 then (4096 * (a - 0xe0) + 64 * Low(b[1]) + Low(b[2])) as char
    else (262144 * (a - 0xf0) + 4096 * Low(b[1]) + 64 * Low(b[2]) + Low(b[3])) as char
  }

  function Tail(v: nat): byte { (0x80 + v % 64) as byte }

  function Sequence(c: char): (b: Bytes)
    ensures 1 <= |b| <= 4
  {
    var v := c as nat;
    if v < 0x80 then [v as byte]
    else if v < 0x800 then [(0xc0 + v / 64) as byte, Tail(v)]
    else if v < 0x10000 then [(0xe0 + v / 4096) as byte, Tail(v / 64), Tail(v)]
    else [(0xf0 + v / 262144) as byte, Tail(v / 4096), Tail(v / 64), Tail(v)]
  }

  function FromUtf8(b: Bytes): string {
    if b == [] then ""
    else
      var n := Length(b);
      if n == 0 then [REPLACEMENT] + FromUtf8(b[1..]) else [First(b)] + FromUtf8(b[n..])
  }

  function ToUtf8(s: string): Bytes { if s == "" then [] else Sequence(s[0]) + ToUtf8(s[1..]) }

  predicate WellFormed(b: Bytes) { b == [] || (Length(b) > 0 && WellFormed(b[Length(b)..])) }

  predicate Marked(b: Bytes) { |b| >= 3 && b[0] == 0xef && b[1] == 0xbb && b[2] == 0xbf }

  /** A whole text loses the byte order mark it begins with. */
  function TextOfBytes(b: Bytes): string { FromUtf8(if Marked(b) then b[3..] else b) }

  // ---- one character ----

  /** The digits of a number to the base 64. */
  lemma Digits64(v: nat)
    ensures v == 64 * (v / 64) + v % 64 == 4096 * (v / 4096) + 64 * (v / 64 % 64) + v % 64
    ensures v == 262144 * (v / 262144) + 4096 * (v / 4096 % 64) + 64 * (v / 64 % 64) + v % 64
  {
    Shifts(v);
  }

  lemma Shifts(v: nat)
    ensures v / 4096 == v / 64 / 64 && v / 262144 == v / 4096 / 64
  {
  }

  lemma OneDigit(high: nat, low: nat)
    requires low < 64
    ensures (64 * high + low) / 64 == high && (64 * high + low) % 64 == low
  {
  }

  lemma FromDigits64(a: nat, b: nat, c: nat, d: nat)
    requires b < 64 && c < 64 && d < 64
    ensures var v := 262144 * a + 4096 * b + 64 * c + d;
      v / 262144 == a && v / 4096 % 64 == b && v / 64 % 64 == c && v % 64 == d && v / 4096 == 64 * a + b
      && v / 64 == 4096 * a + 64 * b + c
  {
    OneDigit(4096 * a + 64 * b + c, d);
    OneDigit(64 * a + b, c);
    OneDigit(a, b);
    Shifts(262144 * a + 4096 * b + 64 * c + d);
  }

  lemma SequenceOfFirst(b: Bytes)
    requires b != [] && Length(b) > 0
    ensures Sequence(First(b)) == b[..Length(b)]
  {
    var a := b[0] as nat;
    if a < 0x80 {
    } else if a < 0xe0 {
      FromDigits64(0, 0, a - 0xc0, Low(b[1]));
    } else if a < 0xf0 {
      FromDigits64(0, a - 0xe0, Low(b[1]), Low(b[2]));
    } else {
      FromDigits64(a - 0xf0, Low(b[1]), Low(b[2]), Low(b[3]));
    }
  }

  lemma FirstOfSequence(c: char, rest: Bytes)
    ensures Length(Sequence(c) + rest) == |Sequence(c)| && First(Sequence(c) + rest) == c
  {
    Digits64(c as nat);
    var s, b := Sequence(c), Sequence(c) + rest;
    assert forall k | 0 <= k < |s| :: b[k] == s[k];
  }

  // ---- texts ----

  /** What was written is read back. */
  lemma {:induction false} TextBack(s: string)
    ensures WellFormed(ToUtf8(s)) && FromUtf8(ToUtf8(s)) == s
  {
    if s != "" {
      FirstOfSequence(s[0], ToUtf8(s[1..]));
      assert ToUtf8(s)[|Sequence(s[0])|..] == ToUtf8(s[1..]);
      TextBack(s[1..]);
    }
  }

  /** How many bytes are replaced. */
  function Replaced(b: Bytes): nat {
    if b == [] then 0 else if Length(b) == 0 then 1 + Replaced(b[1..]) else Replaced(b[Length(b)..])
  }

  lemma OneMore(c: char, s: string)
    ensures ToUtf8([c] + s) == Sequence(c) + ToUtf8(s)
  {
    assert ([c] + s)[0] == c && ([c] + s)[1..] == s;
  }

  lemma {:induction false} LengthAfter(b: Bytes)
    ensures |ToUtf8(FromUtf8(b))| == |b| + 2 * Replaced(b)
    ensures WellFormed(b) <==> Replaced(b) == 0
  {
    if b != [] {
      if Length(b) == 0 {
        LengthAfter(b[1..]);
        OneMore(REPLACEMENT, FromUtf8(b[1..]));
      } else {
        LengthAfter(b[Length(b)..]);
        SequenceOfFirst(b);
        OneMore(First(b), FromUtf8(b[Length(b)..]));
      }
    }
  }

  lemma InTwo(b: Bytes, n: nat)
    requires n <= |b|
    ensures b[..n] + b[n..] == b
  {
  }

  lemma {:induction false} WellFormedBack(b: Bytes)
    requires WellFormed(b)
    ensures ToUtf8(FromUtf8(b)) == b
  {
    if b != [] {
      var n := Length(b);
      WellFormedBack(b[n..]);
      SequenceOfFirst(b);
      OneMore(First(b), FromUtf8(b[n..]));
      InTwo(b, n);
    }
  }

  /** Bytes survive exactly if they are well formed. */
  lemma BytesBack(b: Bytes)
    ensures ToUtf8(FromUtf8(b)) == b <==> WellFormed(b)
  {
    LengthAfter(b);
    if WellFormed(b) { WellFormedBack(b); }
  }

  lemma OddApart(n: nat, k: nat)
    ensures n + 2 * k != n + 3
  {
  }

  lemma {:induction false} MarkIsLost(b: Bytes, rest: Bytes)
    requires |b| == 3 + |rest|
    ensures ToUtf8(FromUtf8(rest)) != b
  {
    LengthAfter(rest);
    OddApart(|rest|, Replaced(rest));
  }

  /** As a whole text they must not begin with a byte order mark either: replacing adds two bytes at a time. */
  lemma WholeBack(b: Bytes)
    ensures ToUtf8(TextOfBytes(b)) == b <==> WellFormed(b) && !Marked(b)
  {
    if Marked(b) { MarkIsLost(b, b[3..]); } else { BytesBack(b); }
  }
}
