/** What is asked of the libraries can be met. */
module CandidateLibrary {
  import opened Wrappers
  import opened CompactStream
  import opened SdpCodec
  import opened CandidateTexts
  import opened CandidateLineProofs
  import opened SdpTextProofs

  /** Some way of showing addresses: one letter for each byte. */
  function Shown(ip: Ip): string {
    match ip
    case V4(word) => Decimal(word)
    case V6(bytes) => ":" + seq(|bytes|, i requires 0 <= i < |bytes| => (0x4e00 + bytes[i] as nat) as char)
  }

  ghost function Parsed(t: string): Option<Ip> {
    if exists ip :: IpOk(ip) && Shown(ip) == t then
      var ip :| IpOk(ip) && Shown(ip) == t;
      Some(ip)
    else None
  }

  ghost function Numbered(t: string): Option<nat> {
    if exists n :: Decimal(n) == t then
      var n :| Decimal(n) == t;
      Some(n)
    else None
  }

  lemma {:induction false} DecimalOnce(a: nat, b: nat)
    requires Decimal(a) == Decimal(b)
    ensures a == b
  {
    if a >= 10 && b >= 10 {
      var x, y := Decimal(a), Decimal(b);
      assert x[..|x| - 1] == Decimal(a / 10) && y[..|y| - 1] == Decimal(b / 10);
      assert x[|x| - 1] == y[|y| - 1];
      DecimalOnce(a / 10, b / 10);
    } else if a >= 10 {
      DecimalDigits(a / 10);
    } else if b >= 10 {
      DecimalDigits(b / 10);
    }
  }

  lemma ShownOnce(a: Ip, b: Ip)
    requires IpOk(a) && IpOk(b) && Shown(a) == Shown(b)
    ensures a == b
  {
    if a.V4? && b.V4? {
      DecimalOnce(a.word, b.word);
    } else if a.V6? && b.V6? {
      forall i | 0 <= i < 16 ensures a.bytes[i] == b.bytes[i] { assert Shown(a)[i + 1] == Shown(b)[i + 1]; }
    } else {
      var word := if a.V4? then a.word else b.word;
      DecimalDigits(word);
    }
  }

  lemma ShownWell(ip: Ip)
    requires IpOk(ip)
    ensures var t := Shown(ip); t != "" && '%' !in t && Unspaced(t) && (':' in t <==> ip.V6?) && Parsed(t) == Some(ip)
  {
    if ip.V4? { DecimalDigits(ip.word); }
    var other :| IpOk(other) && Shown(other) == Shown(ip);
    var found := Parsed(Shown(ip)).value;
    ShownOnce(found, ip);
  }

  lemma NumberedWell(n: nat)
    ensures Numbered(Decimal(n)) == Some(n)
  {
    DecimalOnce(Numbered(Decimal(n)).value, n);
  }

  /** There are libraries of which everything asked for holds. */
  lemma ReliableExists()
    ensures exists lib :: Reliable(lib)
  {
    var lib := Library(Shown, Parsed, Numbered, Decimal, t => true);
    forall ip | IpOk(ip) ensures Shows(lib, ip) { ShownWell(ip); }
    forall n: nat ensures lib.number(Decimal(n)) == Some(n) { NumberedWell(n); }
    forall n: nat ensures lib.local(n) != "" && '%' !in lib.local(n) { DecimalDigits(n); }
    assert Reliable(lib);
  }
}
