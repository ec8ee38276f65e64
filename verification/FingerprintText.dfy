/** The textual fingerprint of an SDP description, and the digest it stands for. */
module FingerprintText {
  import opened Wrappers
  import opened CompactStream
  import opened SdpCodec

  predicate HexDigit(c: char) { '0' <= c <= '9' || 'a' <= c <= 'f' || 'A' <= c <= 'F' }

  function HexValue(c: char): (v: nat)
    requires HexDigit(c)
    ensures v < 16
  {
    if c <= '9' then c as nat - '0' as nat else if c <= 'F' then c as nat - 'A' as nat + 10
      else c as nat - 'a' as nat + 10
  }

  function UpperHex(v: nat): (c: char)
    requires v < 16
    ensures HexDigit(c) && HexValue(c) == v && !('a' <= c <= 'f') && c != ':'
  {
    if v < 10 then ('0' as nat + v) as char else ('A' as nat + (v - 10)) as char
  }

  function WithoutColons(text: string): string {
    if text == [] then [] else (if text[0] == ':' then [] else [text[0]]) + WithoutColons(text[1..])
  }

  function FromHex(hex: string): Bytes
    requires |hex| % 2 == 0 && forall c <- hex :: HexDigit(c)
  {
    if hex == [] then [] else [(16 * HexValue(hex[0]) + HexValue(hex[1])) as byte] + FromHex(hex[2..])
  }

  predicate AllHex(hex: string) { forall c <- hex :: HexDigit(c) }

  function PackText(a: Algorithm, text: string): Option<Bytes> {
    var hex := WithoutColons(text);
    if |hex| != DigestSize(a) * 2 || !AllHex(hex) then None else Some(FromHex(hex))
  }

  lemma {:induction false} HexLength(hex: string)
    requires |hex| % 2 == 0 && forall c <- hex :: HexDigit(c)
    ensures 2 * |FromHex(hex)| == |hex|
  {
    if hex != [] { HexLength(hex[2..]); }
  }

  lemma HexSize(a: Algorithm, text: string)
    requires PackText(a, text).Some?
    ensures |PackText(a, text).value| == DigestSize(a)
  {
    HexLength(WithoutColons(text));
  }

  /** Upper-case hexadecimal, bytes separated by colons. */
  function Text(digest: Bytes): string {
    if digest == [] then []
    else
      [UpperHex(digest[0] as nat / 16), UpperHex(digest[0] as nat % 16)]
      + (if |digest| == 1 then [] else ":" + Text(digest[1..]))
  }

  function Hex(digest: Bytes): (hex: string)
    ensures |hex| == 2 * |digest| && AllHex(hex)
  {
    if digest == [] then [] else [UpperHex(digest[0] as nat / 16), UpperHex(digest[0] as nat % 16)] + Hex(digest[1..])
  }

  lemma {:induction false} ColonsGone(digest: Bytes)
    ensures WithoutColons(Text(digest)) == Hex(digest)
  {
    if digest != [] {
      ColonsGone(digest[1..]);
      var a, b := UpperHex(digest[0] as nat / 16), UpperHex(digest[0] as nat % 16);
      var rest := if |digest| == 1 then [] else ":" + Text(digest[1..]);
      DropTwo(a, b, rest);
      if |digest| > 1 { assert rest[1..] == Text(digest[1..]); }
    }
  }

  lemma DropTwo(a: char, b: char, rest: string)
    requires a != ':' && b != ':'
    ensures WithoutColons([a, b] + rest) == [a, b] + WithoutColons(rest)
  {
    assert ([a, b] + rest)[1..] == [b] + rest && ([b] + rest)[1..] == rest;
  }

  lemma {:induction false} HexBack(digest: Bytes)
    ensures FromHex(Hex(digest)) == digest
  {
    if digest != [] {
      HexBack(digest[1..]);
      assert Hex(digest)[2..] == Hex(digest[1..]);
    }
  }

  /** The text written for a digest is packed to that digest. */
  lemma TextPacks(a: Algorithm, digest: Bytes)
    requires |digest| == DigestSize(a)
    ensures PackText(a, Text(digest)) == Some(digest)
  {
    ColonsGone(digest);
    HexBack(digest);
  }
}
