/** The signed transcript: a domain, a NUL, and every field behind its decimal length. */
module Transcripts {
  import opened Wrappers

  type Bytes = seq<byte>

  const COLON: byte := 0x3a

  predicate Digit(b: byte) { 0x30 <= b <= 0x39 }

  predicate AllDigits(b: Bytes) { forall i | 0 <= i < |b| :: Digit(b[i]) }

  /** The shortest decimal form of a number. */
  function Decimal(n: nat): (b: Bytes)
    ensures |b| > 0
  {
    if n < 10 then [(0x30 + n) as byte] else Decimal(n / 10) + [(0x30 + n % 10) as byte]
  }

  function Value(b: Bytes): nat
    requires AllDigits(b)
  {
    if b == [] then 0 else 10 * Value(b[..|b| - 1]) + (b[|b| - 1] as nat - 0x30)
  }

  function FieldBytes(field: Bytes): Bytes { Decimal(|field|) + ([COLON] + field) }

  function Body(fields: seq<Bytes>): Bytes { if fields == [] then [] else FieldBytes(fields[0]) + Body(fields[1..]) }

  function Transcript(domain: Bytes, fields: seq<Bytes>): Bytes { domain + ([0] + Body(fields)) }

  /** The transcript is built by appending. */
  method BuildTranscript(domain: Bytes, fields: seq<Bytes>) returns (bytes: Bytes)
    ensures bytes == Transcript(domain, fields)
  {
    bytes := domain + [0];
    for k := 0 to |fields|
      invariant bytes + Body(fields[k..]) == Transcript(domain, fields)
    {
      assert fields[k..][1..] == fields[k + 1..];
      bytes := bytes + FieldBytes(fields[k]);
    }
  }

  // ---- reading it back ----

  /** How many digits the bytes start with. */
  function Leading(b: Bytes): (k: nat)
    ensures k <= |b| && AllDigits(b[..k]) && (k < |b| ==> !Digit(b[k]))
  {
    if b == [] || !Digit(b[0]) then 0
    else
      assert b[..1 + Leading(b[1..])] == [b[0]] + b[1..][..Leading(b[1..])];
      1 + Leading(b[1..])
  }

  function ParseFields(b: Bytes): Option<seq<Bytes>> {
    if b == [] then Some([])
    else
      var k := Leading(b);
      if k == |b| || b[k] != COLON then None
      else
        var n := Value(b[..k]);
        if |b| - k - 1 < n then None
        else match ParseFields(b[k + 1 + n..]) case None => None case Some(rest) => Some([b[k + 1..k + 1 + n]] + rest)
  }

  function DomainEnd(b: Bytes): (k: nat)
    ensures k <= |b| && (k < |b| ==> b[k] == 0) && (forall j | 0 <= j < k :: b[j] != 0)
  {
    if b == [] || b[0] == 0 then 0 else 1 + DomainEnd(b[1..])
  }

  function Parse(b: Bytes): Option<(Bytes, seq<Bytes>)> {
    var k := DomainEnd(b);
    if k == |b| then None
    else match ParseFields(b[k + 1..]) case None => None case Some(fields) => Some((b[..k], fields))
  }

  lemma {:induction false} DecimalValue(n: nat)
    ensures AllDigits(Decimal(n)) && Value(Decimal(n)) == n
  {
    if n >= 10 {
      DecimalValue(n / 10);
      var b := Decimal(n);
      assert b[..|b| - 1] == Decimal(n / 10);
    }
  }

  lemma {:induction false} LeadingDigits(digits: Bytes, rest: Bytes)
    requires AllDigits(digits) && rest != [] && !Digit(rest[0])
    ensures Leading(digits + rest) == |digits|
  {
    if digits == [] {
      assert digits + rest == rest;
    } else {
      assert (digits + rest)[1..] == digits[1..] + rest;
      LeadingDigits(digits[1..], rest);
    }
  }

  /** A length prefix is unambiguous: the first field can only be read as it was written. */
  lemma FieldBack(field: Bytes, rest: Bytes)
    ensures var b := FieldBytes(field) + rest; var k := Leading(b);
      && k < |b| && b[k] == COLON && Value(b[..k]) == |field| && |b| - k - 1 >= |field|
      && b[k + 1..k + 1 + |field|] == field && b[k + 1 + |field|..] == rest
  {
    var digits := Decimal(|field|);
    DecimalValue(|field|);
    assert FieldBytes(field) + rest == digits + ([COLON] + (field + rest));
    LeadingDigits(digits, [COLON] + (field + rest));
    var b := FieldBytes(field) + rest;
    assert b[..|digits|] == digits;
  }

  lemma {:induction false} FieldsBack(fields: seq<Bytes>)
    ensures ParseFields(Body(fields)) == Some(fields)
  {
    if fields != [] {
      FieldBack(fields[0], Body(fields[1..]));
      FieldsBack(fields[1..]);
      assert fields == [fields[0]] + fields[1..];
    }
  }

  predicate NulFree(domain: Bytes) { forall i | 0 <= i < |domain| :: domain[i] != 0 }

  lemma {:induction false} DomainBack(domain: Bytes, rest: Bytes)
    requires NulFree(domain)
    ensures DomainEnd(domain + ([0] + rest)) == |domain|
  {
    var b := domain + ([0] + rest);
    if domain != [] {
      assert b[1..] == domain[1..] + ([0] + rest);
      assert b[0] == domain[0];
      DomainBack(domain[1..], rest);
    }
  }

  /** A transcript names its domain and fields. */
  lemma TranscriptParses(domain: Bytes, fields: seq<Bytes>)
    requires NulFree(domain)
    ensures Parse(Transcript(domain, fields)) == Some((domain, fields))
  {
    DomainBack(domain, Body(fields));
    FieldsBack(fields);
    var b := Transcript(domain, fields);
    assert b[..|domain|] == domain && b[|domain| + 1..] == Body(fields);
  }

  /** Different domains without NUL, or different field lists of any lengths, never give the same bytes. */
  lemma TranscriptsDiffer(d1: Bytes, f1: seq<Bytes>, d2: Bytes, f2: seq<Bytes>)
    requires NulFree(d1) && NulFree(d2)
    ensures Transcript(d1, f1) == Transcript(d2, f2) <==> d1 == d2 && f1 == f2
  {
    TranscriptParses(d1, f1);
    TranscriptParses(d2, f2);
  }

  /** Under one domain, whatever its bytes, the fields are still unambiguous. */
  lemma SameDomain(domain: Bytes, f1: seq<Bytes>, f2: seq<Bytes>)
    ensures Transcript(domain, f1) == Transcript(domain, f2) <==> f1 == f2
  {
    FieldsBack(f1);
    FieldsBack(f2);
    AfterDomain(domain, Body(f1));
    AfterDomain(domain, Body(f2));
  }

  lemma AfterDomain(domain: Bytes, body: Bytes)
    ensures (domain + ([0] + body))[|domain| + 1..] == body
  {
  }

  /** A NUL inside a domain can be mistaken for its end. */
  lemma NulDomainsCollide()
    ensures exists d1: Bytes, f1: seq<Bytes>, d2: Bytes, f2: seq<Bytes> ::
      d1 != d2 && NulFree(d1) && Transcript(d1, f1) == Transcript(d2, f2)
  {
    var d1: Bytes, f1: seq<Bytes> := [], [[0]];
    var d2: Bytes, f2: seq<Bytes> := [0, 0x31, COLON], [];
    assert Decimal(1) == [0x31];
    assert f1[1..] == [] && Body(f1) == [0x31, COLON, 0];
    assert Transcript(d1, f1) == Transcript(d2, f2);
  }
}
