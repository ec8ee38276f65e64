/** The compact form of a data-channel description: what is packed, and how it is read back. */
module SdpCodec {
  import opened Wrappers
  import opened CompactStream

  const MAX_CREDENTIAL_BYTES := 256
  const MAX_FOUNDATION_BYTES := 32
  const MAX_SCOPE_BYTES := 64
  const MAX_CANDIDATES := 256

  datatype Role = ActPass | Passive | Active

  datatype Algorithm = Sha1 | Sha224 | Sha256 | Sha384 | Sha512

  datatype CandidateType = Host | ServerReflexive | PeerReflexive | Relayed

  datatype Address = IPv4(word: nat) | IPv6(bytes: Bytes, scope: Bytes)

  datatype Candidate = Candidate(foundation: Bytes, priority: nat, port: nat, address: Address, kind: CandidateType)

  /** The fields of an SDP description of the expected shape. */
  datatype Description = Description(role: Role, ufrag: Bytes, password: Bytes, algorithm: Algorithm, digest: Bytes,
                                     candidates: seq<Candidate>)

  // ---- the tables ----

  function RoleCode(role: Role): nat { match role case ActPass => 0 case Passive => 1 case Active => 2 }

  function DecodeRole(code: nat): Option<Role> {
    if code == 0 then Some(ActPass) else if code == 1 then Some(Passive) else if code == 2 then Some(Active) else None
  }

  function AlgorithmCode(a: Algorithm): nat {
    match a case Sha1 => 0 case Sha224 => 1 case Sha256 => 2 case Sha384 => 3 case Sha512 => 4
  }

  function DecodeAlgorithm(code: nat): Option<Algorithm> {
    match code
    case 0 => Some(Sha1)
    case 1 => Some(Sha224)
    case 2 => Some(Sha256)
    case 3 => Some(Sha384)
    case 4 => Some(Sha512)
    case _ => None
  }

  function DigestSize(a: Algorithm): (size: nat)
    ensures 20 <= size <= 64
  {
    match a case Sha1 => 20 case Sha224 => 28 case Sha256 => 32 case Sha384 => 48 case Sha512 => 64
  }

  // ---- what can be packed ----

  predicate CredentialOk(b: Bytes) { 0 < |b| <= MAX_CREDENTIAL_BYTES }

  predicate AddressOk(a: Address) {
    match a
    case IPv4(word) => word < Limit(4)
    case IPv6(bytes, scope) => |bytes| == 16 && |scope| <= MAX_SCOPE_BYTES
  }

  predicate CandidateOk(c: Candidate) {
    && !c.kind.PeerReflexive? && 0 < |c.foundation| <= MAX_FOUNDATION_BYTES && 0x20 !in c.foundation
    && c.priority < Limit(4) && 0 < c.port < Limit(2) && AddressOk(c.address)
  }

  predicate Packable(d: Description) {
    && CredentialOk(d.ufrag) && CredentialOk(d.password) && |d.digest| == DigestSize(d.algorithm)
    && 0 < |d.candidates| <= MAX_CANDIDATES && (forall c <- d.candidates :: CandidateOk(c))
  }

  // ---- writing ----

  function Flags(c: Candidate): nat {
    (if c.address.IPv6? then 1 else 0) + (if c.kind.ServerReflexive? then 2 else 0)
    + (if c.address.IPv6? && c.address.scope != [] then 4 else 0) + (if c.kind.Relayed? then 8 else 0)
  }

  function PackCredential(b: Bytes): Bytes { Digits(2, |b|) + b }

  function PackScope(scope: Bytes): Bytes { if scope == [] then [] else Digits(1, |scope|) + scope }

  function PackAddress(a: Address): Bytes {
    match a case IPv4(word) => Digits(4, word) case IPv6(bytes, scope) => bytes + PackScope(scope)
  }

  function PackEndpoint(c: Candidate): Bytes { Digits(4, c.priority) + (Digits(2, c.port) + PackAddress(c.address)) }

  function PackCandidate(c: Candidate): Bytes {
    Digits(1, Flags(c)) + (Digits(1, |c.foundation|) + (c.foundation + PackEndpoint(c)))
  }

  function PackCandidates(cs: seq<Candidate>): Bytes {
    if cs == [] then [] else PackCandidate(cs[0]) + PackCandidates(cs[1..])
  }

  function PackList(cs: seq<Candidate>): Bytes { Digits(2, |cs|) + PackCandidates(cs) }

  function PackFingerprint(a: Algorithm, digest: Bytes): Bytes { Digits(1, AlgorithmCode(a)) + digest }

  function PackHead(role: Role, ufrag: Bytes, password: Bytes): Bytes {
    Digits(1, RoleCode(role)) + (PackCredential(ufrag) + PackCredential(password))
  }

  function PackAll(d: Description): Bytes {
    PackHead(d.role, d.ufrag, d.password) + (PackFingerprint(d.algorithm, d.digest) + PackList(d.candidates))
  }

  function Pack(d: Description): Option<Bytes> { if Packable(d) then Some(PackAll(d)) else None }

  // ---- reading ----

  function ReadBytes(r: Reader, max: nat): (Option<Bytes>, Reader) {
    var (size, r1) := Unsigned(r, 2);
    if !r1.ok || size == 0 || size > max then (None, r1)
    else
      var (b, r2) := Raw(r1, size);
      (if |b| == size then Some(b) else None, r2)
  }

  predicate Bit(flags: nat, bit: nat)
    requires bit > 0
  {
    flags / bit % 2 == 1
  }

  predicate FlagsOk(flags: nat) {
    flags < 16 && (Bit(flags, 4) ==> Bit(flags, 1)) && !(Bit(flags, 2) && Bit(flags, 8))
  }

  /** Printable and not a space: what a foundation must be made of to be read. */
  predicate Visible(foundation: Bytes) { forall b <- foundation :: 0x21 <= b <= 0x7e }

  function ReadScope(r: Reader): (Option<Bytes>, Reader) {
    var (size, r1) := Unsigned(r, 1);
    if !r1.ok || size == 0 || size > MAX_SCOPE_BYTES then (None, r1)
    else
      var (b, r2) := Raw(r1, size);
      (if |b| == size then Some(b) else None, r2)
  }

  /** The stream is not looked at after an IPv4 address. */
  function ReadAddress(r: Reader, flags: nat): (Option<Address>, Reader) {
    if !Bit(flags, 1) then
      var (word, r1) := Unsigned(r, 4);
      (Some(IPv4(word)), r1)
    else
      var (bytes, r1) := Raw(r, 16);
      if |bytes| != 16 then (None, r1)
      else if !Bit(flags, 4) then (Some(IPv6(bytes, [])), r1)
      else
        match ReadScope(r1)
        case (None, r2) => (None, r2)
        case (Some(scope), r2) => (Some(IPv6(bytes, scope)), r2)
  }

  function KindOf(flags: nat): CandidateType {
    if Bit(flags, 8) then Relayed else if Bit(flags, 2) then ServerReflexive else Host
  }

  function ReadEndpoint(r: Reader, flags: nat, foundation: Bytes): (Option<Candidate>, Reader) {
    var (priority, r1) := Unsigned(r, 4);
    var (port, r2) := Unsigned(r1, 2);
    if !r2.ok || port == 0 then (None, r2)
    else
      match ReadAddress(r2, flags)
      case (None, r3) => (None, r3)
      case (Some(address), r3) => (Some(Candidate(foundation, priority, port, address, KindOf(flags))), r3)
  }

  function ReadCandidate(r: Reader): (Option<Candidate>, Reader) {
    var (flags, r1) := Unsigned(r, 1);
    var (size, r2) := Unsigned(r1, 1);
    if !r2.ok || !FlagsOk(flags) || size == 0 || size > MAX_FOUNDATION_BYTES then (None, r2)
    else
      var (foundation, r3) := Raw(r2, size);
      if |foundation| != size || !Visible(foundation) then (None, r3) else ReadEndpoint(r3, flags, foundation)
  }

  function ReadCandidates(r: Reader, n: nat): (Option<seq<Candidate>>, Reader)
    decreases n
  {
    if n == 0 then (Some([]), r)
    else
      match ReadCandidate(r)
      case (None, r1) => (None, r1)
      case (Some(c), r1) =>
        match ReadCandidates(r1, n - 1)
        case (None, r2) => (None, r2)
        case (Some(cs), r2) => (Some([c] + cs), r2)
  }

  function ReadList(r: Reader): (Option<seq<Candidate>>, Reader) {
    var (count, r1) := Unsigned(r, 2);
    if !r1.ok || count == 0 || count > MAX_CANDIDATES then (None, r1) else ReadCandidates(r1, count)
  }

  function ReadFingerprint(r: Reader): (Option<(Algorithm, Bytes)>, Reader) {
    var (code, r1) := Unsigned(r, 1);
    match DecodeAlgorithm(code)
    case None => (None, r1)
    case Some(a) =>
      var (digest, r2) := Raw(r1, DigestSize(a));
      (if |digest| == DigestSize(a) then Some((a, digest)) else None, r2)
  }

  datatype Head = Head(role: Role, ufrag: Bytes, password: Bytes)

  function ReadHead(r: Reader): (Option<Head>, Reader) {
    var (code, r1) := Unsigned(r, 1);
    match DecodeRole(code)
    case None => (None, r1)
    case Some(role) =>
      match ReadBytes(r1, MAX_CREDENTIAL_BYTES)
      case (None, r2) => (None, r2)
      case (Some(ufrag), r2) =>
        match ReadBytes(r2, MAX_CREDENTIAL_BYTES)
        case (None, r3) => (None, r3)
        case (Some(password), r3) => (Some(Head(role, ufrag, password)), r3)
  }

  function ReadDescription(r: Reader): (Option<Description>, Reader) {
    match ReadHead(r)
    case (None, r1) => (None, r1)
    case (Some(h), r1) =>
      match ReadFingerprint(r1)
      case (None, r2) => (None, r2)
      case (Some(f), r2) =>
        match ReadList(r2)
        case (None, r3) => (None, r3)
        case (Some(cs), r3) => (Some(Description(h.role, h.ufrag, h.password, f.0, f.1, cs)), r3)
  }

  function Unpack(payload: Bytes): Option<Description> {
    var (d, r) := ReadDescription(Reader(payload, true));
    if r.rest == [] then d else None
  }

  /** No read of the payload came up short. */
  predicate ReadWhole(payload: Bytes) { ReadDescription(Reader(payload, true)).1.ok }
}
