/** Where unpacking and packing part: payloads cut short, and foundations that cannot be read. */
module SdpCutProofs {
  import opened Wrappers
  import opened CompactStream
  import opened SdpCodec
  import opened SdpCodecProofs

  // ---- where the two part ----

  /** A candidate up to its IPv4 address. */
  function Front(c: Candidate): Bytes {
    Digits(1, Flags(c)) + (Digits(1, |c.foundation|) + (c.foundation + (Digits(4, c.priority) + Digits(2, c.port))))
  }

  function Zeroed(c: Candidate): Candidate { c.(address := IPv4(0)) }

  lemma EndpointCut(c: Candidate, b: Bytes)
    requires CandidateOk(c) && c.address.IPv4? && |b| < 4
    ensures ReadEndpoint(Reader(Digits(4, c.priority) + (Digits(2, c.port) + b), true), Flags(c), c.foundation)
      == (Some(Zeroed(c)), Reader([], false))
  {
    UnsignedBack(4, c.priority, Digits(2, c.port) + b, true);
    UnsignedBack(2, c.port, b, true);
    FlagBits(c);
  }

  lemma CandidateCut(c: Candidate, b: Bytes)
    requires CandidateOk(c) && Visible(c.foundation) && c.address.IPv4? && |b| < 4
    ensures ReadCandidate(Reader(Front(c) + b, true)) == (Some(Zeroed(c)), Reader([], false))
  {
    FlagBits(c);
    var end := Digits(4, c.priority) + (Digits(2, c.port) + b);
    FrontRead(Flags(c), c.foundation, end);
    EndpointCut(c, b);
    FrontJoins(Digits(1, Flags(c)), Digits(1, |c.foundation|), c.foundation, Digits(4, c.priority), Digits(2, c.port),
               b);
  }

  lemma FrontJoins(a: Bytes, b: Bytes, c: Bytes, d: Bytes, e: Bytes, rest: Bytes)
    ensures (a + (b + (c + (d + e)))) + rest == a + (b + (c + (d + (e + rest))))
  {
  }

  lemma OneCut(c: Candidate, b: Bytes)
    requires CandidateOk(c) && Visible(c.foundation) && c.address.IPv4? && |b| < 4
    ensures ReadCandidates(Reader(Front(c) + b, true), 1) == (Some([Zeroed(c)]), Reader([], false))
  {
    CandidateCut(c, b);
    assert ReadCandidates(Reader([], false), 0) == (Some([]), Reader([], false));
    assert [Zeroed(c)] + [] == [Zeroed(c)];
  }

  lemma FirstApart(cs: seq<Candidate>, z: Candidate, end: Bytes)
    requires cs != []
    ensures PackCandidates(cs) + end == PackCandidate(cs[0]) + (PackCandidates(cs[1..]) + end)
    ensures cs + [z] == [cs[0]] + (cs[1..] + [z])
  {
    Associate(PackCandidate(cs[0]), PackCandidates(cs[1..]), end);
    Associate([cs[0]], cs[1..], [z]);
    assert [cs[0]] + cs[1..] == cs;
  }

  /** One more candidate in front of a list that is cut short. */
  lemma FirstThen(whole: Bytes, all: seq<Candidate>, c: Candidate, end: Bytes, cs: seq<Candidate>, next: Reader)
    requires CandidateOk(c) && Visible(c.foundation) && whole == PackCandidate(c) + end && all == [c] + cs
    requires ReadCandidates(Reader(end, true), |cs|) == (Some(cs), next)
    ensures ReadCandidates(Reader(whole, true), |all|) == (Some(all), next)
  {
    ConsRead(c, end, |cs|, cs, next);
  }

  lemma {:induction false} CandidatesCut(cs: seq<Candidate>, c: Candidate, b: Bytes)
    requires AllOk(cs) && AllVisible(cs) && CandidateOk(c) && Visible(c.foundation) && c.address.IPv4? && |b| < 4
    ensures ReadCandidates(Reader(PackCandidates(cs) + (Front(c) + b), true), |cs + [Zeroed(c)]|)
      == (Some(cs + [Zeroed(c)]), Reader([], false))
    decreases |cs|
  {
    var z, end := Zeroed(c), Front(c) + b;
    if cs == [] {
      OneCut(c, b);
      assert PackCandidates(cs) + end == end && cs + [z] == [z];
    } else {
      CandidatesCut(cs[1..], c, b);
      FirstApart(cs, z, end);
      FirstThen(PackCandidates(cs) + end, cs + [z], cs[0], PackCandidates(cs[1..]) + end, cs[1..] + [z],
                Reader([], false));
    }
  }

  lemma ListCut(cs: seq<Candidate>, c: Candidate, b: Bytes)
    requires |cs| < MAX_CANDIDATES && AllOk(cs) && AllVisible(cs) && CandidateOk(c) && Visible(c.foundation)
    requires c.address.IPv4? && |b| < 4
    ensures ReadList(Reader(Digits(2, |cs| + 1) + (PackCandidates(cs) + (Front(c) + b)), true))
      == (Some(cs + [Zeroed(c)]), Reader([], false))
  {
    CountBack(|cs| + 1, PackCandidates(cs) + (Front(c) + b));
    CandidatesCut(cs, c, b);
  }

  lemma {:induction false} PackedSnoc(cs: seq<Candidate>, c: Candidate)
    ensures PackCandidates(cs + [c]) == PackCandidates(cs) + PackCandidate(c)
  {
    if cs == [] {
      assert cs + [c] == [c] && [c][1..] == [];
    } else {
      assert (cs + [c])[1..] == cs[1..] + [c];
      PackedSnoc(cs[1..], c);
    }
  }

  /** The packed form of `d` with its last `4 - |b|` bytes gone: all but the start `b` of the last IPv4 address. */
  predicate CutShort(payload: Bytes, d: Description, b: Bytes) {
    && Packable(d) && AllVisible(d.candidates) && |b| < 4
    && var c := d.candidates[|d.candidates| - 1];
       && c.address.IPv4? && b <= Digits(4, c.address.word)
       && PackAll(d) == payload + Digits(4, c.address.word)[|b|..]
  }

  /** All bytes of a packed description before its last address. */
  function Before(d: Description): Bytes
    requires d.candidates != []
  {
    var n := |d.candidates| - 1;
    PackHead(d.role, d.ufrag, d.password) + (PackFingerprint(d.algorithm, d.digest)
      + (Digits(2, n + 1) + (PackCandidates(d.candidates[..n]) + Front(d.candidates[n]))))
  }

  lemma FrontThenAddress(c: Candidate)
    requires c.address.IPv4?
    ensures PackCandidate(c) == Front(c) + Digits(4, c.address.word)
  {
    FrontJoins(Digits(1, Flags(c)), Digits(1, |c.foundation|), c.foundation, Digits(4, c.priority), Digits(2, c.port),
               Digits(4, c.address.word));
  }

  lemma PackedFront(d: Description)
    requires d.candidates != [] && d.candidates[|d.candidates| - 1].address.IPv4?
    ensures PackAll(d) == Before(d) + Digits(4, d.candidates[|d.candidates| - 1].address.word)
  {
    var n := |d.candidates| - 1;
    var c, cs := d.candidates[n], d.candidates[..n];
    assert d.candidates == cs + [c];
    PackedSnoc(cs, c);
    FrontThenAddress(c);
    FrontJoins(PackHead(d.role, d.ufrag, d.password), PackFingerprint(d.algorithm, d.digest), Digits(2, n + 1),
               PackCandidates(cs), Front(c), Digits(4, c.address.word));
  }

  lemma SamePrefix(a: Bytes, b: Bytes, payload: Bytes, k: nat)
    requires k <= |b| && payload + b[k..] == a + b
    ensures payload == a + b[..k]
  {
    assert b == b[..k] + b[k..];
    assert a + b == (a + b[..k]) + b[k..];
    assert payload == (payload + b[k..])[..|payload|];
    assert a + b[..k] == ((a + b[..k]) + b[k..])[..|payload|];
  }

  lemma ReadOn(role: Role, ufrag: Bytes, password: Bytes, a: Algorithm, digest: Bytes, tail: Bytes, cs: seq<Candidate>,
               next: Reader)
    requires CredentialOk(ufrag) && CredentialOk(password) && |digest| == DigestSize(a)
    requires ReadList(Reader(tail, true)) == (Some(cs), next)
    ensures ReadDescription(Reader(PackHead(role, ufrag, password) + (PackFingerprint(a, digest) + tail), true))
      == (Some(Description(role, ufrag, password, a, digest, cs)), next)
  {
    HeadBack(role, ufrag, password, PackFingerprint(a, digest) + tail);
    FingerprintBack(a, digest, tail);
  }

  lemma CutPayload(payload: Bytes, d: Description, b: Bytes)
    requires CutShort(payload, d, b)
    ensures payload == Before(d) + b
  {
    PackedFront(d);
    SamePrefix(Before(d), Digits(4, d.candidates[|d.candidates| - 1].address.word), payload, |b|);
  }

  /** A packed description cut inside its last IPv4 address is accepted, with the address read as 0.0.0.0. */
  lemma CutShortAccepted(payload: Bytes, d: Description, b: Bytes)
    requires CutShort(payload, d, b)
    ensures var n := |d.candidates| - 1;
      Unpack(payload) == Some(d.(candidates := d.candidates[..n] + [Zeroed(d.candidates[n])]))
    ensures !ReadWhole(payload)
  {
    var n := |d.candidates| - 1;
    var c, cs := d.candidates[n], d.candidates[..n];
    CutPayload(payload, d, b);
    FrontJoins(PackHead(d.role, d.ufrag, d.password), PackFingerprint(d.algorithm, d.digest), Digits(2, n + 1),
               PackCandidates(cs), Front(c), b);
    ListCut(cs, c, b);
    ReadOn(d.role, d.ufrag, d.password, d.algorithm, d.digest,
           Digits(2, n + 1) + (PackCandidates(cs) + (Front(c) + b)), cs + [Zeroed(c)], Reader([], false));
  }

  // ---- exactly these ----

  /** The payload is a packed description cut inside its last IPv4 address. */
  ghost predicate IsCutShort(payload: Bytes) { exists d, b :: CutShort(payload, d, b) }

  function Zeros(n: nat): Bytes { seq(n, _ => 0) }

  /** The description whose last address begins with the bytes that were there. */
  function Continued(d: Description, b: Bytes): Description
    requires d.candidates != [] && |b| <= 4
  {
    var n := |d.candidates| - 1;
    d.(candidates := d.candidates[..n] + [d.candidates[n].(address := IPv4(Number(b + Zeros(4 - |b|))))])
  }

  lemma ContinuedOk(d: Description, b: Bytes)
    requires Packable(d) && AllVisible(d.candidates) && EndsAtZero(d.candidates) && |b| < 4
    ensures var m := Continued(d, b); var n := |d.candidates| - 1;
      && Packable(m) && AllVisible(m.candidates) && m.candidates[n].address.IPv4?
      && Digits(4, m.candidates[n].address.word) == b + Zeros(4 - |b|)
  {
    var m, n := Continued(d, b), |d.candidates| - 1;
    DigitsOfNumber(b + Zeros(4 - |b|));
    assert CandidateOk(d.candidates[n]) && Visible(d.candidates[n].foundation);
    forall c | c in m.candidates ensures CandidateOk(c) && Visible(c.foundation) {
      if c != m.candidates[n] { assert c in d.candidates; }
    }
  }

  /** Both descriptions pack to the same bytes up to that address. */
  lemma ContinuedBefore(d: Description, b: Bytes)
    requires d.candidates != [] && |b| <= 4 && EndsAtZero(d.candidates)
    ensures Before(Continued(d, b)) == Before(d)
  {
    var m, n := Continued(d, b), |d.candidates| - 1;
    assert m.candidates[..n] == d.candidates[..n] && Front(m.candidates[n]) == Front(d.candidates[n]);
  }

  lemma ContinuedPacked(d: Description, b: Bytes, front: Bytes)
    requires Packable(d) && AllVisible(d.candidates) && EndsAtZero(d.candidates) && |b| < 4
    requires 4 <= |PackAll(d)| && front == PackAll(d)[..|PackAll(d)| - 4]
    ensures PackAll(Continued(d, b)) == front + (b + Zeros(4 - |b|))
  {
    ContinuedOk(d, b);
    ContinuedBefore(d, b);
    PackedFront(d);
    PackedFront(Continued(d, b));
    assert front == Before(d);
  }

  lemma CutOf(payload: Bytes, m: Description, front: Bytes, b: Bytes)
    requires Packable(m) && AllVisible(m.candidates) && |b| < 4 && payload == front + b
    requires var a := m.candidates[|m.candidates| - 1].address; a.IPv4? && Digits(4, a.word) == b + Zeros(4 - |b|)
    requires PackAll(m) == front + (b + Zeros(4 - |b|))
    ensures CutShort(payload, m, b)
  {
    Padded(payload, front, b, Zeros(4 - |b|));
  }

  lemma NotWholeIsCut(payload: Bytes, d: Description, next: Reader)
    requires Packable(d) && AllVisible(d.candidates) && EndsAtZero(d.candidates)
    requires Cut(payload, PackAll(d), next) && !next.ok
    ensures IsCutShort(payload)
  {
    var k := |PackAll(d)| - 4;
    var front, b := payload[..k], payload[k..];
    assert |b| < 4 && front == PackAll(d)[..k];
    ContinuedOk(d, b);
    ContinuedPacked(d, b, front);
    assert payload == front + b;
    CutOf(payload, Continued(d, b), front, b);
  }

  lemma Padded(payload: Bytes, front: Bytes, b: Bytes, zeros: Bytes)
    requires payload == front + b
    ensures front + (b + zeros) == payload + (b + zeros)[|b|..]
  {
    assert (b + zeros)[|b|..] == zeros;
  }

  /** An accepted payload was not read whole exactly if it is a packed description cut inside its last address. */
  lemma CutIffNotWhole(payload: Bytes)
    requires Unpack(payload).Some?
    ensures IsCutShort(payload) <==> !ReadWhole(payload)
  {
    if IsCutShort(payload) {
      var d, b :| CutShort(payload, d, b);
      CutShortAccepted(payload, d, b);
    } else if !ReadWhole(payload) {
      DescriptionTook(payload);
      NotWholeIsCut(payload, Unpack(payload).value, ReadDescription(Reader(payload, true)).1);
    }
  }

  /** What is accepted packs to itself, unless it is a packed description cut inside its last address. */
  lemma UnpackedPacks(payload: Bytes, d: Description)
    requires Unpack(payload) == Some(d)
    ensures Packable(d) && AllVisible(d.candidates)
    ensures Pack(d) == Some(payload) <==> !IsCutShort(payload)
    ensures IsCutShort(payload) ==> |payload| < |Pack(d).value| <= |payload| + 4
  {
    DescriptionTook(payload);
    CutIffNotWhole(payload);
    assert PackAll(d) + [] == PackAll(d);
  }

  // ---- what is packed and refused ----

  lemma InvisibleRefused(d: Description)
    requires Packable(d) && !AllVisible(d.candidates)
    ensures Unpack(Pack(d).value) == None
  {
    var list := PackList(d.candidates);
    HeadBack(d.role, d.ufrag, d.password, PackFingerprint(d.algorithm, d.digest) + list);
    FingerprintBack(d.algorithm, d.digest, list);
    ListBack(d.candidates);
  }

  // ---- size ----

  const MAX_PACKED := 31560

  lemma {:induction false} CandidatesSize(cs: seq<Candidate>)
    requires AllOk(cs)
    ensures |PackCandidates(cs)| <= 121 * |cs|
  {
    if cs != [] {
      CandidateSize(cs[0]);
      CandidatesSize(cs[1..]);
    }
  }

  lemma CandidateSize(c: Candidate)
    requires CandidateOk(c)
    ensures |PackCandidate(c)| <= 121
  {
  }

  /** Every packed description fits the limit of the outer framing with room to spare. */
  lemma PackedSize(d: Description)
    requires Packable(d)
    ensures 0 < |Pack(d).value| <= MAX_PACKED < 256 * 1024
  {
    CandidatesSize(d.candidates);
  }
}
