/** Packing and unpacking undo each other, as far as they do. */
module SdpCodecProofs {
  import opened Wrappers
  import opened CompactStream
  import opened SdpCodec

  // ---- unpack after pack ----

  lemma CredentialBack(b: Bytes, rest: Bytes)
    requires CredentialOk(b)
    ensures ReadBytes(Reader(PackCredential(b) + rest, true), MAX_CREDENTIAL_BYTES) == (Some(b), Reader(rest, true))
  {
    Limits();
    assert PackCredential(b) + rest == Digits(2, |b|) + (b + rest);
    UnsignedBack(2, |b|, b + rest, true);
    RawBack(b, rest, true);
  }

  lemma ScopeBack(scope: Bytes, rest: Bytes)
    requires 0 < |scope| <= MAX_SCOPE_BYTES
    ensures ReadScope(Reader(PackScope(scope) + rest, true)) == (Some(scope), Reader(rest, true))
  {
    Limits();
    assert PackScope(scope) + rest == Digits(1, |scope|) + (scope + rest);
    UnsignedBack(1, |scope|, scope + rest, true);
    RawBack(scope, rest, true);
  }

  lemma FlagBits(c: Candidate)
    requires !c.kind.PeerReflexive?
    ensures FlagsOk(Flags(c)) && KindOf(Flags(c)) == c.kind
    ensures Bit(Flags(c), 1) == c.address.IPv6? && Bit(Flags(c), 4) == (c.address.IPv6? && c.address.scope != [])
  {
  }

  lemma AddressBack(c: Candidate, rest: Bytes)
    requires AddressOk(c.address) && !c.kind.PeerReflexive?
    ensures ReadAddress(Reader(PackAddress(c.address) + rest, true), Flags(c)) == (Some(c.address), Reader(rest, true))
  {
    FlagBits(c);
    match c.address {
      case IPv4(word) => UnsignedBack(4, word, rest, true);
      case IPv6(bytes, scope) =>
        assert PackAddress(c.address) + rest == bytes + (PackScope(scope) + rest);
        RawBack(bytes, PackScope(scope) + rest, true);
        if scope != [] { ScopeBack(scope, rest); } else { assert PackScope(scope) + rest == rest; }
    }
  }

  lemma EndpointBack(c: Candidate, rest: Bytes)
    requires CandidateOk(c)
    ensures ReadEndpoint(Reader(PackEndpoint(c) + rest, true), Flags(c), c.foundation) == (Some(c), Reader(rest, true))
  {
    var tail := PackAddress(c.address) + rest;
    assert PackEndpoint(c) + rest == Digits(4, c.priority) + (Digits(2, c.port) + tail);
    UnsignedBack(4, c.priority, Digits(2, c.port) + tail, true);
    UnsignedBack(2, c.port, tail, true);
    AddressBack(c, rest);
    FlagBits(c);
  }

  /** The flags and the foundation are read; what follows is read only after a visible foundation. */
  lemma FrontRead(flags: nat, foundation: Bytes, end: Bytes)
    requires FlagsOk(flags) && 0 < |foundation| <= MAX_FOUNDATION_BYTES
    ensures ReadCandidate(Reader(Digits(1, flags) + (Digits(1, |foundation|) + (foundation + end)), true))
      == if Visible(foundation) then ReadEndpoint(Reader(end, true), flags, foundation) else (None, Reader(end, true))
  {
    Limits();
    UnsignedBack(1, flags, Digits(1, |foundation|) + (foundation + end), true);
    UnsignedBack(1, |foundation|, foundation + end, true);
    RawBack(foundation, end, true);
  }

  /** A packed candidate is read back exactly when its foundation is visible, and refused otherwise. */
  lemma CandidateBack(c: Candidate, rest: Bytes)
    requires CandidateOk(c)
    ensures var read := ReadCandidate(Reader(PackCandidate(c) + rest, true));
      if Visible(c.foundation) then read == (Some(c), Reader(rest, true)) else read.0.None?
  {
    FlagBits(c);
    FrontRead(Flags(c), c.foundation, PackEndpoint(c) + rest);
    Regroup(Digits(1, Flags(c)), Digits(1, |c.foundation|), c.foundation, PackEndpoint(c), rest);
    EndpointBack(c, rest);
  }

  lemma Regroup<T>(a: seq<T>, b: seq<T>, c: seq<T>, d: seq<T>, e: seq<T>)
    ensures (a + (b + (c + d))) + e == a + (b + (c + (d + e)))
  {
  }

  predicate AllVisible(cs: seq<Candidate>) { forall c <- cs :: Visible(c.foundation) }

  lemma VisibleApart(cs: seq<Candidate>)
    requires cs != []
    ensures AllVisible(cs) <==> Visible(cs[0].foundation) && AllVisible(cs[1..])
  {
    assert cs == [cs[0]] + cs[1..];
  }

  lemma ConsRead(c: Candidate, end: Bytes, n: nat, cs: seq<Candidate>, next: Reader)
    requires CandidateOk(c) && Visible(c.foundation) && ReadCandidates(Reader(end, true), n) == (Some(cs), next)
    ensures ReadCandidates(Reader(PackCandidate(c) + end, true), n + 1) == (Some([c] + cs), next)
  {
    CandidateBack(c, end);
  }

  lemma Associate<T>(a: seq<T>, b: seq<T>, c: seq<T>)
    ensures (a + b) + c == a + (b + c)
  {
  }

  lemma {:induction false} CandidatesBack(cs: seq<Candidate>, rest: Bytes)
    requires forall c <- cs :: CandidateOk(c)
    ensures var read := ReadCandidates(Reader(PackCandidates(cs) + rest, true), |cs|);
      if AllVisible(cs) then read == (Some(cs), Reader(rest, true)) else read.0.None?
  {
    if cs == [] {
      assert PackCandidates(cs) + rest == rest;
    } else {
      Associate(PackCandidate(cs[0]), PackCandidates(cs[1..]), rest);
      VisibleApart(cs);
      CandidatesBack(cs[1..], rest);
      var end := PackCandidates(cs[1..]) + rest;
      if AllVisible(cs) {
        ConsRead(cs[0], end, |cs| - 1, cs[1..], Reader(rest, true));
        assert cs == [cs[0]] + cs[1..];
      } else {
        ConsRefused(cs[0], end, |cs| - 1);
      }
    }
  }

  lemma ConsRefused(c: Candidate, end: Bytes, n: nat)
    requires CandidateOk(c) && (Visible(c.foundation) ==> ReadCandidates(Reader(end, true), n).0.None?)
    ensures ReadCandidates(Reader(PackCandidate(c) + end, true), n + 1).0.None?
  {
    CandidateBack(c, end);
  }

  lemma ListBack(cs: seq<Candidate>)
    requires 0 < |cs| <= MAX_CANDIDATES && forall c <- cs :: CandidateOk(c)
    ensures var read := ReadList(Reader(PackList(cs), true));
      if AllVisible(cs) then read == (Some(cs), Reader([], true)) else read.0.None?
  {
    var packed := PackCandidates(cs);
    CountBack(|cs|, packed);
    CandidatesBack(cs, []);
    assert packed + [] == packed;
  }

  lemma CountBack(n: nat, packed: Bytes)
    requires n <= MAX_CANDIDATES
    ensures Unsigned(Reader(Digits(2, n) + packed, true), 2) == (n, Reader(packed, true))
  {
    Limits();
    UnsignedBack(2, n, packed, true);
  }

  lemma FingerprintBack(a: Algorithm, digest: Bytes, rest: Bytes)
    requires |digest| == DigestSize(a)
    ensures ReadFingerprint(Reader(PackFingerprint(a, digest) + rest, true)) == (Some((a, digest)), Reader(rest, true))
  {
    Limits();
    assert PackFingerprint(a, digest) + rest == Digits(1, AlgorithmCode(a)) + (digest + rest);
    UnsignedBack(1, AlgorithmCode(a), digest + rest, true);
    RawBack(digest, rest, true);
  }

  lemma HeadBack(role: Role, ufrag: Bytes, password: Bytes, rest: Bytes)
    requires CredentialOk(ufrag) && CredentialOk(password)
    ensures ReadHead(Reader(PackHead(role, ufrag, password) + rest, true))
      == (Some(Head(role, ufrag, password)), Reader(rest, true))
  {
    Limits();
    var end := PackCredential(password) + rest;
    assert PackHead(role, ufrag, password) + rest == Digits(1, RoleCode(role)) + (PackCredential(ufrag) + end);
    UnsignedBack(1, RoleCode(role), PackCredential(ufrag) + end, true);
    CredentialBack(ufrag, end);
    CredentialBack(password, rest);
  }

  /** Unpacking what was packed gives the description back exactly when every foundation is visible text. */
  lemma PackedRead(d: Description)
    requires Packable(d)
    ensures Unpack(Pack(d).value) == Some(d) <==> AllVisible(d.candidates)
    ensures AllVisible(d.candidates) ==> ReadWhole(Pack(d).value)
  {
    var list := PackList(d.candidates);
    HeadBack(d.role, d.ufrag, d.password, PackFingerprint(d.algorithm, d.digest) + list);
    FingerprintBack(d.algorithm, d.digest, list);
    ListBack(d.candidates);
  }

  // ---- pack after unpack ----

  lemma CredentialTook(r: Reader)
    requires r.ok
    ensures var (b, next) := ReadBytes(r, MAX_CREDENTIAL_BYTES);
      b.Some? ==> next.ok && CredentialOk(b.value) && r.rest == PackCredential(b.value) + next.rest
  {
    UnsignedTook(r, 2);
    var (size, r1) := Unsigned(r, 2);
    RawTook(r1, size);
  }

  lemma ScopeTook(r: Reader)
    requires r.ok
    ensures var (b, next) := ReadScope(r);
      b.Some? ==> next.ok && 0 < |b.value| <= MAX_SCOPE_BYTES && r.rest == PackScope(b.value) + next.rest
  {
    UnsignedTook(r, 1);
    var (size, r1) := Unsigned(r, 1);
    RawTook(r1, size);
  }

  /** The reader took the bytes `want`, or found them cut short inside the last four. */
  predicate Cut(have: Bytes, want: Bytes, next: Reader) {
    if next.ok then have == want + next.rest
    else next.rest == [] && 4 <= |want| && |have| < |want| <= |have| + 4 && have[..|want| - 4] == want[..|want| - 4]
  }

  lemma CutAfter(head: Bytes, have: Bytes, want: Bytes, next: Reader)
    requires Cut(have, want, next)
    ensures Cut(head + have, head + want, next)
  {
    assert (head + want) + next.rest == head + (want + next.rest);
    if !next.ok {
      var k := |want| - 4;
      assert (head + have)[..|head| + k] == head + have[..k] && (head + want)[..|head| + k] == head + want[..k];
    }
  }

  /** An address that was read whole is the bytes it came from; only an IPv4 word can be cut short. */
  lemma AddressTook(r: Reader, flags: nat)
    requires r.ok && FlagsOk(flags)
    ensures var (a, next) := ReadAddress(r, flags);
      a.Some? ==>
        && AddressOk(a.value) && a.value.IPv6? == Bit(flags, 1)
        && Bit(flags, 4) == (a.value.IPv6? && a.value.scope != [])
        && Cut(r.rest, PackAddress(a.value), next) && (!next.ok ==> a.value == IPv4(0))
  {
    if !Bit(flags, 1) {
      UnsignedTook(r, 4);
    } else {
      RawTook(r, 16);
      var (bytes, r1) := Raw(r, 16);
      if |bytes| == 16 && Bit(flags, 4) {
        ScopeTook(r1);
        var (scope, r2) := ReadScope(r1);
        if scope.Some? { CutAfter(bytes, r1.rest, PackScope(scope.value), r2); }
      }
    }
  }

  lemma BitsOfFlags(flags: nat)
    requires FlagsOk(flags)
    ensures flags == (if Bit(flags, 1) then 1 else 0) + (if Bit(flags, 2) then 2 else 0)
                     + (if Bit(flags, 4) then 4 else 0) + (if Bit(flags, 8) then 8 else 0)
  {
  }

  lemma EndpointTook(r: Reader, flags: nat, foundation: Bytes)
    requires r.ok && FlagsOk(flags) && 0 < |foundation| <= MAX_FOUNDATION_BYTES && 0x20 !in foundation
    ensures var (c, next) := ReadEndpoint(r, flags, foundation);
      c.Some? ==>
        CandidateOk(c.value) && c.value.foundation == foundation && Flags(c.value) == flags
        && Cut(r.rest, PackEndpoint(c.value), next) && (!next.ok ==> c.value.address == IPv4(0))
  {
    var (priority, r1) := Unsigned(r, 4);
    var (port, r2) := Unsigned(r1, 2);
    UnsignedTook(r, 4);
    UnsignedTook(r1, 2);
    if r2.ok && port != 0 {
      AddressTook(r2, flags);
      BitsOfFlags(flags);
      var (a, next) := ReadAddress(r2, flags);
      if a.Some? {
        CutAfter(Digits(2, port), r2.rest, PackAddress(a.value), next);
        CutAfter(Digits(4, priority), r1.rest, Digits(2, port) + PackAddress(a.value), next);
      }
    }
  }

  lemma FoundationTook(r: Reader, flags: nat, size: nat)
    requires r.ok && FlagsOk(flags) && 0 < size <= MAX_FOUNDATION_BYTES
    ensures var (foundation, r3) := Raw(r, size);
      var (c, next) := ReadEndpoint(r3, flags, foundation);
      |foundation| == size && Visible(foundation) && c.Some? ==>
        CandidateOk(c.value) && c.value.foundation == foundation && Flags(c.value) == flags
        && Cut(r.rest, foundation + PackEndpoint(c.value), next) && (!next.ok ==> c.value.address == IPv4(0))
  {
    RawTook(r, size);
    var (foundation, r3) := Raw(r, size);
    if |foundation| == size && Visible(foundation) {
      EndpointTook(r3, flags, foundation);
      var (c, next) := ReadEndpoint(r3, flags, foundation);
      if c.Some? { CutAfter(foundation, r3.rest, PackEndpoint(c.value), next); }
    }
  }

  lemma CandidateTook(r: Reader)
    requires r.ok
    ensures var (c, next) := ReadCandidate(r);
      c.Some? ==>
        && CandidateOk(c.value) && Visible(c.value.foundation) && Cut(r.rest, PackCandidate(c.value), next)
        && (!next.ok ==> c.value.address == IPv4(0))
  {
    var (flags, r1) := Unsigned(r, 1);
    var (size, r2) := Unsigned(r1, 1);
    UnsignedTook(r, 1);
    UnsignedTook(r1, 1);
    if r2.ok && FlagsOk(flags) && 0 < size <= MAX_FOUNDATION_BYTES {
      FoundationTook(r2, flags, size);
      var (c, next) := ReadCandidate(r);
      if c.Some? {
        CutAfter(Digits(1, size), r2.rest, c.value.foundation + PackEndpoint(c.value), next);
        CutAfter(Digits(1, flags), r1.rest, Digits(1, size) + (c.value.foundation + PackEndpoint(c.value)), next);
      }
    }
  }

  lemma SpentCandidate(r: Reader)
    requires !r.ok && r.rest == []
    ensures ReadCandidate(r).0.None?
  {
  }

  predicate AllOk(cs: seq<Candidate>) { forall c <- cs :: CandidateOk(c) }

  lemma PackedCons(c: Candidate, cs: seq<Candidate>)
    ensures PackCandidates([c] + cs) == PackCandidate(c) + PackCandidates(cs)
    ensures CandidateOk(c) && AllOk(cs) ==> AllOk([c] + cs)
    ensures Visible(c.foundation) && AllVisible(cs) ==> AllVisible([c] + cs)
  {
    assert ([c] + cs)[1..] == cs;
  }

  /** `n` candidates that could have been packed, and the bytes they came from. */
  predicate Taken(have: Bytes, n: nat, cs: seq<Candidate>, next: Reader) {
    && |cs| == n && AllOk(cs) && AllVisible(cs) && Cut(have, PackCandidates(cs), next)
    && (!next.ok ==> EndsAtZero(cs))
  }

  /** The last candidate's address was read as 0.0.0.0. */
  predicate EndsAtZero(cs: seq<Candidate>) { cs != [] && cs[|cs| - 1].address == IPv4(0) }

  lemma TakenOne(have: Bytes, c: Candidate, next: Reader)
    requires CandidateOk(c) && Visible(c.foundation) && Cut(have, PackCandidate(c), next)
    requires !next.ok ==> c.address == IPv4(0)
    ensures Taken(have, 1, [c] + [], next)
  {
    PackedCons(c, []);
    assert PackCandidate(c) + [] == PackCandidate(c);
  }

  lemma TakenMore(have: Bytes, c: Candidate, r1: Reader, n: nat, cs: seq<Candidate>, next: Reader)
    requires CandidateOk(c) && Visible(c.foundation) && have == PackCandidate(c) + r1.rest
      && Taken(r1.rest, n, cs, next)
    ensures Taken(have, n + 1, [c] + cs, next)
  {
    CutAfter(PackCandidate(c), r1.rest, PackCandidates(cs), next);
    PackedCons(c, cs);
  }

  lemma OneTook(r: Reader)
    requires r.ok
    ensures var (cs, next) := ReadCandidates(r, 1); cs.Some? ==> Taken(r.rest, 1, cs.value, next)
  {
    CandidateTook(r);
    var (c, r1) := ReadCandidate(r);
    if c.Some? {
      assert ReadCandidates(r1, 0) == (Some([]), r1);
      TakenOne(r.rest, c.value, r1);
    }
  }

  lemma MoreTook(r: Reader, n: nat, c: Candidate, r1: Reader, cs: seq<Candidate>, next: Reader)
    requires r.ok && ReadCandidate(r) == (Some(c), r1) && r1.ok
    requires ReadCandidates(r1, n) == (Some(cs), next) && Taken(r1.rest, n, cs, next)
    ensures ReadCandidates(r, n + 1) == (Some([c] + cs), next) && Taken(r.rest, n + 1, [c] + cs, next)
  {
    CandidateTook(r);
    TakenMore(r.rest, c, r1, n, cs, next);
  }

  lemma {:induction false} CandidatesTook(r: Reader, n: nat)
    requires r.ok
    ensures var (cs, next) := ReadCandidates(r, n); cs.Some? ==> Taken(r.rest, n, cs.value, next)
    decreases n
  {
    if n == 1 {
      OneTook(r);
    } else if n > 1 && ReadCandidates(r, n).0.Some? {
      var (c, r1) := ReadCandidate(r);
      if !r1.ok { SpentRest(r, n); }
      CandidatesTook(r1, n - 1);
      var (cs, next) := ReadCandidates(r1, n - 1);
      MoreTook(r, n - 1, c.value, r1, cs.value, next);
    }
  }

  lemma SpentRest(r: Reader, n: nat)
    requires r.ok && n > 1 && !ReadCandidate(r).1.ok
    ensures ReadCandidates(r, n).0.None?
  {
    CandidateTook(r);
    if ReadCandidate(r).0.Some? { SpentCandidate(ReadCandidate(r).1); }
  }

  lemma FingerprintTook(r: Reader)
    requires r.ok
    ensures var (f, next) := ReadFingerprint(r);
      (f.Some? ==>
        next.ok && |f.value.1| == DigestSize(f.value.0) && r.rest == PackFingerprint(f.value.0, f.value.1) + next.rest)
  {
    UnsignedTook(r, 1);
    var (code, r1) := Unsigned(r, 1);
    if DecodeAlgorithm(code).Some? { RawTook(r1, DigestSize(DecodeAlgorithm(code).value)); }
  }

  lemma ListTook(r: Reader)
    requires r.ok
    ensures var (cs, next) := ReadList(r);
      cs.Some? ==>
        && 0 < |cs.value| <= MAX_CANDIDATES && AllOk(cs.value) && AllVisible(cs.value)
        && Cut(r.rest, PackList(cs.value), next)
        && (!next.ok ==> EndsAtZero(cs.value))
  {
    UnsignedTook(r, 2);
    var (count, r1) := Unsigned(r, 2);
    if r1.ok && 0 < count <= MAX_CANDIDATES {
      CandidatesTook(r1, count);
      var (cs, next) := ReadCandidates(r1, count);
      if cs.Some? { CutAfter(Digits(2, count), r1.rest, PackCandidates(cs.value), next); }
    }
  }

  lemma SpentBytes(r: Reader)
    requires !r.ok && r.rest == []
    ensures ReadBytes(r, MAX_CREDENTIAL_BYTES).0.None?
  {
  }

  lemma HeadTook(r: Reader)
    requires r.ok
    ensures var (h, next) := ReadHead(r);
      h.Some? ==>
        next.ok && CredentialOk(h.value.ufrag) && CredentialOk(h.value.password)
        && r.rest == PackHead(h.value.role, h.value.ufrag, h.value.password) + next.rest
  {
    UnsignedTook(r, 1);
    var (code, r1) := Unsigned(r, 1);
    if r1.ok && DecodeRole(code).Some? {
      CredentialTook(r1);
      var (ufrag, r2) := ReadBytes(r1, MAX_CREDENTIAL_BYTES);
      if ufrag.Some? {
        CredentialTook(r2);
        var (password, r3) := ReadBytes(r2, MAX_CREDENTIAL_BYTES);
        if password.Some? {
          Three(Digits(1, code), PackCredential(ufrag.value), PackCredential(password.value), r3.rest);
        }
      }
    } else if !r1.ok {
      SpentBytes(r1);
    }
  }

  lemma Three(a: Bytes, b: Bytes, c: Bytes, rest: Bytes)
    ensures a + (b + (c + rest)) == (a + (b + c)) + rest
  {
  }

  lemma DescriptionTook(payload: Bytes)
    ensures var (d, next) := ReadDescription(Reader(payload, true));
      d.Some? ==>
        && Packable(d.value) && AllVisible(d.value.candidates) && Cut(payload, PackAll(d.value), next)
        && (!next.ok ==> EndsAtZero(d.value.candidates))
  {
    var r := Reader(payload, true);
    HeadTook(r);
    var (h, r1) := ReadHead(r);
    if h.Some? {
      FingerprintTook(r1);
      var (f, r2) := ReadFingerprint(r1);
      if f.Some? {
        ListTook(r2);
        var (cs, r3) := ReadList(r2);
        if cs.Some? {
          CutAfter(PackFingerprint(f.value.0, f.value.1), r2.rest, PackList(cs.value), r3);
          CutAfter(PackHead(h.value.role, h.value.ufrag, h.value.password), r1.rest,
                   PackFingerprint(f.value.0, f.value.1) + PackList(cs.value), r3);
        }
      }
    }
  }
}
