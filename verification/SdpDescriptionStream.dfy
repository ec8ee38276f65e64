/** The codec in its own form: one data stream, written or read piece by piece. */
module SdpStreams {
  import opened Wrappers
  import opened CompactStream
  import opened SdpCodec
  import opened SdpCodecProofs
  import opened SdpCutProofs
  import opened Utf8
  import opened FingerprintText
  import opened CandidateTexts
  import opened SdpTexts

  class DataStream {
    var bytes: Bytes
    var ok: bool

    function View(): Reader
      reads this
    {
      Reader(bytes, ok)
    }

    constructor (bytes: Bytes)
      ensures View() == Reader(bytes, true)
    {
      this.bytes, ok := bytes, true;
    }

    // ---- writing ----

    method WriteRaw(b: Bytes)
      modifies `bytes
      ensures bytes == old(bytes) + b
    {
      bytes := bytes + b;
    }

    /** Big-endian, most significant byte first. */
    method WriteUnsigned(n: nat, value: nat)
      modifies `bytes
      ensures bytes == old(bytes) + Digits(n, value)
    {
      var digits: Bytes, rest := [], value;
      for k := 0 to n
        invariant Digits(n, value) == Digits(n - k, rest) + digits
      {
        digits := [(rest % 256) as byte] + digits;
        rest := rest / 256;
      }
      bytes := bytes + digits;
    }

    method WriteBytes(b: Bytes, max: nat) returns (done: bool)
      modifies `bytes
      ensures done == (0 < |b| <= max)
      ensures done ==> bytes == old(bytes) + PackCredential(b)
    {
      if b == [] || |b| > max { return false; }
      WriteUnsigned(2, |b|);
      WriteRaw(b);
      done := true;
    }

    method WriteConnectionData(role: Role, ufrag: Bytes, password: Bytes) returns (done: bool)
      modifies `bytes
      ensures done == (CredentialOk(ufrag) && CredentialOk(password))
      ensures done ==> bytes == old(bytes) + PackHead(role, ufrag, password)
    {
      ghost var before := bytes;
      WriteUnsigned(1, RoleCode(role));
      done := WriteBytes(ufrag, MAX_CREDENTIAL_BYTES);
      if !done { return; }
      done := WriteBytes(password, MAX_CREDENTIAL_BYTES);
      if done { Pieces(before, Digits(1, RoleCode(role)), PackCredential(ufrag), PackCredential(password)); }
    }

    method WriteAddress(a: Address)
      modifies `bytes
      ensures bytes == old(bytes) + PackAddress(a)
    {
      match a
      case IPv4(word) => WriteUnsigned(4, word);
      case IPv6(raw, scope) =>
        WriteRaw(raw);
        if scope != [] {
          WriteUnsigned(1, |scope|);
          WriteRaw(scope);
        }
    }

    method WriteFields(c: Candidate)
      requires CandidateOk(c)
      modifies `bytes
      ensures bytes == old(bytes) + PackCandidate(c)
    {
      ghost var before := bytes;
      WriteUnsigned(1, Flags(c));
      WriteUnsigned(1, |c.foundation|);
      WriteRaw(c.foundation);
      WriteUnsigned(4, c.priority);
      WriteUnsigned(2, c.port);
      WriteAddress(c.address);
      SixPieces(before, Digits(1, Flags(c)), Digits(1, |c.foundation|), c.foundation, Digits(4, c.priority),
                Digits(2, c.port), PackAddress(c.address));
    }

    /** The candidate comes as text: its fields are split off and checked. */
    method WriteCandidate(lib: Library, text: string) returns (done: bool)
      modifies `bytes
      ensures done == ReadText(lib, text).Some?
      ensures done ==> bytes == old(bytes) + PackCandidate(ReadText(lib, text).value)
    {
      var f := Split(text, Blank);
      if !Shaped(f) { return false; }
      var priority, address, port := lib.number(f[3]), HostAddress(lib, f[4]), lib.number(f[5]);
      if priority.None? || address.None? || port.None? { return false; }
      var foundation := ToLatin1(f[0][|PREFIX|..]);
      var c := Candidate(foundation, priority.value, port.value, address.value, KindNamed(f[7]).value);
      if !CandidateOk(c) { return false; }
      WriteFields(c);
      done := true;
    }

    method WriteCandidates(lib: Library, texts: seq<string>) returns (done: bool)
      modifies `bytes
      ensures done == ReadTexts(lib, texts).Some?
      ensures done ==> bytes == old(bytes) + PackCandidates(ReadTexts(lib, texts).value)
    {
      ghost var before := bytes;
      ghost var cs: seq<Candidate> := [];
      WriteStart(lib, texts);
      for k := 0 to |texts|
        invariant ResumeTexts(lib, cs, texts[k..]) == ReadTexts(lib, texts)
        invariant bytes == before + PackCandidates(cs)
      {
        WriteStep(lib, cs, texts, k);
        done := WriteCandidate(lib, texts[k]);
        if !done { return; }
        OneMorePacked(before, cs, ReadText(lib, texts[k]).value);
        cs := cs + [ReadText(lib, texts[k]).value];
      }
      assert texts[|texts|..] == [] && cs + [] == cs;
      done := true;
    }

    // ---- reading ----

    method ReadRaw(n: nat) returns (b: Bytes)
      modifies this
      ensures (b, View()) == Raw(old(View()), n)
    {
      if n <= |bytes| {
        b, bytes := bytes[..n], bytes[n..];
      } else {
        b, bytes, ok := bytes, [], false;
      }
    }

    method ReadUnsigned(n: nat) returns (value: nat)
      modifies this
      ensures (value, View()) == Unsigned(old(View()), n)
    {
      var b := ReadRaw(n);
      value := 0;
      if |b| != n { return; }
      for k := 0 to n
        invariant value == Number(b[..k])
      {
        assert b[..k + 1][..k] == b[..k];
        value := 256 * value + b[k] as nat;
      }
      assert b[..n] == b;
    }

    method ReadCredential(max: nat) returns (b: Option<Bytes>)
      modifies this
      ensures (b, View()) == ReadBytes(old(View()), max)
    {
      var size := ReadUnsigned(2);
      if !ok || size == 0 || size > max { return None; }
      var raw := ReadRaw(size);
      b := if |raw| == size then Some(raw) else None;
    }

    method ReadScopeId() returns (b: Option<Bytes>)
      modifies this
      ensures (b, View()) == ReadScope(old(View()))
    {
      var size := ReadUnsigned(1);
      if !ok || size == 0 || size > MAX_SCOPE_BYTES { return None; }
      var raw := ReadRaw(size);
      b := if |raw| == size then Some(raw) else None;
    }

    method ReadIpAddress(flags: nat) returns (a: Option<Address>)
      modifies this
      ensures (a, View()) == ReadAddress(old(View()), flags)
    {
      if !Bit(flags, 1) {
        var word := ReadUnsigned(4);
        return Some(IPv4(word));
      }
      var raw := ReadRaw(16);
      if |raw| != 16 { return None; }
      if !Bit(flags, 4) { return Some(IPv6(raw, [])); }
      var scope := ReadScopeId();
      a := if scope.Some? then Some(IPv6(raw, scope.value)) else None;
    }

    method ReadIceEndpoint(flags: nat, foundation: Bytes) returns (c: Option<Candidate>)
      modifies this
      ensures (c, View()) == ReadEndpoint(old(View()), flags, foundation)
    {
      var priority := ReadUnsigned(4);
      var port := ReadUnsigned(2);
      if !ok || port == 0 { return None; }
      var address := ReadIpAddress(flags);
      c := if address.Some? then Some(Candidate(foundation, priority, port, address.value, KindOf(flags))) else None;
    }

    method ReadIceCandidate() returns (c: Option<Candidate>)
      modifies this
      ensures (c, View()) == ReadCandidate(old(View()))
    {
      var flags := ReadUnsigned(1);
      var size := ReadUnsigned(1);
      if !ok || !FlagsOk(flags) || size == 0 || size > MAX_FOUNDATION_BYTES { return None; }
      var foundation := ReadRaw(size);
      if |foundation| != size || !Visible(foundation) { return None; }
      c := ReadIceEndpoint(flags, foundation);
    }

    /** The text is built from the fields, value by value, and handed to the SDP library. */
    method ReadCandidateText(lib: Library) returns (c: Option<Candidate>, text: Option<string>)
      modifies this
      ensures (c, View()) == ReadCandidate(old(View()))
      ensures text == if c.Some? then TakenText(lib, c.value) else None
    {
      c := ReadIceCandidate();
      if c.None? { return c, None; }
      var line := TEMPLATE;
      line := Arg(line, Literal(FromLatin1(c.value.foundation)));
      line := Arg(line, NumberValue(lib, c.value.priority));
      line := Arg(line, Literal(AddressText(lib, c.value.address)));
      line := Arg(line, NumberValue(lib, c.value.port));
      line := Arg(line, Literal(KindText(c.value.kind)));
      text := if lib.takes(line) then Some(line) else None;
    }

    method ReadTextList(lib: Library, n: nat) returns (texts: Option<seq<string>>)
      modifies this
      ensures Printed(lib, ReadCandidates(old(View()), n), texts, View())
    {
      ghost var r := View();
      ghost var result := ReadCandidates(r, n);
      ghost var list: seq<Candidate> := [];
      var lines := [];
      ResumeStart(r, n);
      for k := 0 to n
        invariant View() == r && Midway(lib, list, lines, r, n - k, result)
      {
        var c, text := ReadCandidateText(lib);
        TextStep(lib, list, lines, r, n - k, result, c, View(), text);
        r := View();
        if text.None? { return None; }
        list := list + [c.value];
        lines := lines + [text.value];
      }
      TextEnd(lib, list, lines, r, result);
      texts := Some(lines);
    }

    method ReadFingerprintBytes() returns (f: Option<(Algorithm, Bytes)>)
      modifies this
      ensures (f, View()) == ReadFingerprint(old(View()))
    {
      var code := ReadUnsigned(1);
      var algorithm := DecodeAlgorithm(code);
      if algorithm.None? { return None; }
      var digest := ReadRaw(DigestSize(algorithm.value));
      f := if |digest| == DigestSize(algorithm.value) then Some((algorithm.value, digest)) else None;
    }

    method ReadConnectionData() returns (h: Option<Head>)
      modifies this
      ensures (h, View()) == ReadHead(old(View()))
    {
      var code := ReadUnsigned(1);
      var role := DecodeRole(code);
      if role.None? { return None; }
      var ufrag := ReadCredential(MAX_CREDENTIAL_BYTES);
      if ufrag.None? { return None; }
      var password := ReadCredential(MAX_CREDENTIAL_BYTES);
      h := if password.Some? then Some(Head(role.value, ufrag.value, password.value)) else None;
    }

    method ReadCandidateList(lib: Library) returns (texts: Option<seq<string>>)
      modifies this
      ensures Printed(lib, ReadList(old(View())), texts, View())
    {
      var count := ReadUnsigned(2);
      if !ok || count == 0 || count > MAX_CANDIDATES { return None; }
      texts := ReadTextList(lib, count);
    }
  }

  /** The texts are those of the candidates that were read; there are none if reading failed or one is not taken. */
  ghost predicate Printed(lib: Library, read: (Option<seq<Candidate>>, Reader), texts: Option<seq<string>>,
                          after: Reader)
  {
    match texts
    case Some(t) => read.0.Some? && read.1 == after && t == PrintTexts(lib, read.0.value) && TakesAll(lib, t)
    case None => read.0.Some? ==> !TakesAll(lib, PrintTexts(lib, read.0.value))
  }

  function TakenText(lib: Library, c: Candidate): Option<string> {
    var text := CandidateText(lib, c);
    if lib.takes(text) then Some(text) else None
  }

  ghost predicate PrintedSoFar(lib: Library, list: seq<Candidate>, lines: seq<string>) {
    lines == PrintTexts(lib, list) && TakesAll(lib, lines)
  }

  /** The loop over the candidates when those of `list` have been printed and `more` remain. */
  ghost predicate Midway(lib: Library, list: seq<Candidate>, lines: seq<string>, r: Reader, more: nat,
                         result: (Option<seq<Candidate>>, Reader))
  {
    Resume(list, r, more) == result && PrintedSoFar(lib, list, lines)
  }

  lemma TextStep(lib: Library, list: seq<Candidate>, lines: seq<string>, r: Reader, more: nat,
                 result: (Option<seq<Candidate>>, Reader), c: Option<Candidate>, next: Reader, text: Option<string>)
    requires Midway(lib, list, lines, r, more, result) && more > 0
    requires (c, next) == ReadCandidate(r) && text == if c.Some? then TakenText(lib, c.value) else None
    ensures text.Some? ==> c.Some? && Midway(lib, list + [c.value], lines + [text.value], next, more - 1, result)
    ensures text.None? ==> Printed(lib, result, None, next)
  {
    ResumeStep(list, r, more, c, next);
    if text.Some? { TakenStep(lib, list, lines, c.value, text.value); }
    else if c.Some? && result.0.Some? { NotTaken(lib, list, c.value, result.0.value); }
  }

  lemma TextEnd(lib: Library, list: seq<Candidate>, lines: seq<string>, r: Reader,
                result: (Option<seq<Candidate>>, Reader))
    requires Midway(lib, list, lines, r, 0, result)
    ensures Printed(lib, result, Some(lines), r)
  {
    ResumeEnd(list, r);
  }

  lemma TakenStep(lib: Library, list: seq<Candidate>, lines: seq<string>, c: Candidate, t: string)
    requires PrintedSoFar(lib, list, lines) && TakenText(lib, c) == Some(t)
    ensures PrintedSoFar(lib, list + [c], lines + [t])
  {
    PrintedOneMore(lib, list, c);
    TakesOneMore(lib, lines, t);
  }

  lemma {:induction false} TakesOneMore(lib: Library, lines: seq<string>, t: string)
    requires TakesAll(lib, lines) && lib.takes(t)
    ensures TakesAll(lib, lines + [t])
  {
    if lines == [] {
      assert [t][1..] == [] && lines + [t] == [t];
    } else {
      assert (lines + [t])[0] == lines[0] && (lines + [t])[1..] == lines[1..] + [t];
      TakesOneMore(lib, lines[1..], t);
    }
  }

  lemma OneMorePacked(before: Bytes, cs: seq<Candidate>, c: Candidate)
    ensures before + PackCandidates(cs) + PackCandidate(c) == before + PackCandidates(cs + [c])
  {
    PackedSnoc(cs, c);
    Associate(before, PackCandidates(cs), PackCandidate(c));
  }

  /** All the fields, when those of `cs` have been read and `texts` remain. */
  function ResumeTexts(lib: Library, cs: seq<Candidate>, texts: seq<string>): Option<seq<Candidate>> {
    match ReadTexts(lib, texts) case None => None case Some(rest) => Some(cs + rest)
  }

  lemma WriteStart(lib: Library, texts: seq<string>)
    ensures ResumeTexts(lib, [], texts[0..]) == ReadTexts(lib, texts)
  {
    assert texts[0..] == texts;
    var cs := ReadTexts(lib, texts);
    if cs.Some? { assert [] + cs.value == cs.value; }
  }

  lemma WriteStep(lib: Library, cs: seq<Candidate>, texts: seq<string>, k: nat)
    requires k < |texts|
    ensures var c := ReadText(lib, texts[k]);
      ResumeTexts(lib, cs, texts[k..])
      == if c.None? then None else ResumeTexts(lib, cs + [c.value], texts[k + 1..])
  {
    assert texts[k..][0] == texts[k] && texts[k..][1..] == texts[k + 1..];
    var c, rest := ReadText(lib, texts[k]), ReadTexts(lib, texts[k + 1..]);
    if c.Some? && rest.Some? { Associate(cs, [c.value], rest.value); }
  }

  lemma {:induction false} PrintedOneMore(lib: Library, cs: seq<Candidate>, c: Candidate)
    ensures PrintTexts(lib, cs + [c]) == PrintTexts(lib, cs) + [CandidateText(lib, c)]
  {
    if cs == [] {
      assert cs + [c] == [c] && [c][1..] == [];
    } else {
      assert (cs + [c])[0] == cs[0] && (cs + [c])[1..] == cs[1..] + [c];
      PrintedOneMore(lib, cs[1..], c);
    }
  }

  lemma PrintIs(lib: Library, cs: seq<Candidate>)
    requires cs != []
    ensures PrintTexts(lib, cs) == [CandidateText(lib, cs[0])] + PrintTexts(lib, cs[1..])
  {
  }

  /** A text that is not taken spoils the list, whatever follows. */
  lemma NotTaken(lib: Library, list: seq<Candidate>, c: Candidate, all: seq<Candidate>)
    requires !lib.takes(CandidateText(lib, c)) && list + [c] <= all
    ensures !TakesAll(lib, PrintTexts(lib, all))
  {
    assert all[|list|] == (list + [c])[|list|] == c;
    NotTakenAmong(lib, all, |list|);
  }

  lemma {:induction false} NotTakenAmong(lib: Library, all: seq<Candidate>, k: nat)
    requires k < |all| && !lib.takes(CandidateText(lib, all[k]))
    ensures !TakesAll(lib, PrintTexts(lib, all))
  {
    PrintIs(lib, all);
    assert PrintTexts(lib, all)[1..] == PrintTexts(lib, all[1..]);
    if k > 0 { NotTakenAmong(lib, all[1..], k - 1); }
  }

  /** The whole list, when `list` has been read and `more` candidates remain. */
  function Resume(list: seq<Candidate>, r: Reader, more: nat): (Option<seq<Candidate>>, Reader) {
    match ReadCandidates(r, more) case (None, next) => (None, next) case (Some(cs), next) => (Some(list + cs), next)
  }

  lemma ResumeStart(r: Reader, n: nat)
    ensures Resume([], r, n) == ReadCandidates(r, n)
  {
    var (cs, next) := ReadCandidates(r, n);
    if cs.Some? { assert [] + cs.value == cs.value; }
  }

  lemma ResumeEnd(list: seq<Candidate>, r: Reader)
    ensures Resume(list, r, 0) == (Some(list), r)
  {
    assert list + [] == list;
  }

  lemma ResumeStep(list: seq<Candidate>, r: Reader, more: nat, c: Option<Candidate>, next: Reader)
    requires more > 0 && (c, next) == ReadCandidate(r)
    ensures Resume(list, r, more) == if c.None? then (None, next) else Resume(list + [c.value], next, more - 1)
  {
    if c.Some? {
      var cs := ReadCandidates(next, more - 1).0;
      if cs.Some? { Associate(list, [c.value], cs.value); }
    }
  }

  lemma SixPieces(before: Bytes, a: Bytes, b: Bytes, c: Bytes, d: Bytes, e: Bytes, f: Bytes)
    ensures (((((before + a) + b) + c) + d) + e) + f == before + (a + (b + (c + (d + (e + f)))))
  {
  }

  lemma Pieces(a: Bytes, b: Bytes, c: Bytes, d: Bytes)
    ensures ((a + b) + c) + d == a + (b + (c + d))
  {
  }

  lemma {:induction false} TextsAreOk(lib: Library, texts: seq<string>)
    requires ReadTexts(lib, texts).Some?
    ensures |ReadTexts(lib, texts).value| == |texts| && AllOk(ReadTexts(lib, texts).value)
  {
    if texts != [] { TextsAreOk(lib, texts[1..]); }
  }

  lemma AfterHead(head: Bytes, a: Bytes, b: Bytes, c: Bytes)
    ensures (([] + head) + a) + b + c == (head + (a + b)) + c
  {
  }

  lemma PackedSdp(lib: Library, s: Sdp, digest: Bytes, cs: seq<Candidate>)
    requires PackText(s.algorithm, s.fingerprint) == Some(digest) && ReadTexts(lib, s.candidates) == Some(cs)
    requires 0 < |s.candidates| <= MAX_CANDIDATES && CredentialOk(ToUtf8(s.ufrag)) && CredentialOk(ToUtf8(s.password))
    ensures PackSdp(lib, s) == Some(PackHead(s.role, ToUtf8(s.ufrag), ToUtf8(s.password))
      + (PackFingerprint(s.algorithm, digest) + (Digits(2, |s.candidates|) + PackCandidates(cs))))
  {
    HexSize(s.algorithm, s.fingerprint);
    TextsAreOk(lib, s.candidates);
  }

  lemma WhenPacked(lib: Library, s: Sdp)
    requires PackSdp(lib, s).Some?
    ensures 0 < |s.candidates| <= MAX_CANDIDATES && CredentialOk(ToUtf8(s.ufrag)) && CredentialOk(ToUtf8(s.password))
    ensures PackText(s.algorithm, s.fingerprint).Some? && ReadTexts(lib, s.candidates).Some?
  {
    TextsAreOk(lib, s.candidates);
  }

  method PackDescription(lib: Library, s: Sdp) returns (payload: Option<Bytes>)
    ensures payload == PackSdp(lib, s)
  {
    if PackSdp(lib, s).Some? { WhenPacked(lib, s); }
    if s.candidates == [] || |s.candidates| > MAX_CANDIDATES { return None; }
    var digest := PackText(s.algorithm, s.fingerprint);
    if digest.None? { return None; }
    var stream := new DataStream([]);
    var done := stream.WriteConnectionData(s.role, ToUtf8(s.ufrag), ToUtf8(s.password));
    if !done { return None; }
    stream.WriteUnsigned(1, AlgorithmCode(s.algorithm));
    stream.WriteRaw(digest.value);
    stream.WriteUnsigned(2, |s.candidates|);
    ghost var head := PackHead(s.role, ToUtf8(s.ufrag), ToUtf8(s.password));
    AfterHead(head, Digits(1, AlgorithmCode(s.algorithm)), digest.value, Digits(2, |s.candidates|));
    done := stream.WriteCandidates(lib, s.candidates);
    if !done { return None; }
    ghost var cs := ReadTexts(lib, s.candidates).value;
    Pieces(head, PackFingerprint(s.algorithm, digest.value), Digits(2, |s.candidates|), PackCandidates(cs));
    PackedSdp(lib, s, digest.value, cs);
    payload := Some(stream.bytes);
  }

  method UnpackDescription(lib: Library, payload: Bytes) returns (s: Option<Sdp>)
    ensures s == UnpackSdp(lib, payload)
  {
    var stream := new DataStream(payload);
    var head := stream.ReadConnectionData();
    if head.None? { return None; }
    var f := stream.ReadFingerprintBytes();
    if f.None? { return None; }
    var texts := stream.ReadCandidateList(lib);
    if texts.None? || stream.bytes != [] { return None; }
    var h := head.value;
    s := Some(Sdp(h.role, FromUtf8(h.ufrag), FromUtf8(h.password), f.value.0, FingerprintText.Text(f.value.1),
                  texts.value));
  }
}
