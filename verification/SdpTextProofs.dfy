/** Packing and unpacking undo each other, texts included, as far as they do. */
module SdpTextProofs {
  import opened Wrappers
  import opened Utf8
  import opened CompactStream
  import opened SdpCodec
  import opened SdpCodecProofs
  import opened SdpCutProofs
  import opened FingerprintText
  import opened CandidateTexts
  import opened MarkerProofs
  import opened CandidateLineProofs
  import opened CandidateTextProofs
  import opened SdpTexts

  /** Texts that were built as they should be are taken by the SDP library. */
  ghost predicate Reliable(lib: Library) {
    Sane(lib) && forall c | CandidateOk(c) && Visible(c.foundation) && Plain(c) :: lib.takes(CandidateText(lib, c))
  }

  predicate AllPlain(cs: seq<Candidate>) { forall c <- cs :: Plain(c) }

  lemma PlainCons(c: Candidate, cs: seq<Candidate>)
    ensures AllPlain([c] + cs) <==> Plain(c) && AllPlain(cs)
    ensures AllOk([c] + cs) <==> CandidateOk(c) && AllOk(cs)
    ensures AllVisible([c] + cs) <==> Visible(c.foundation) && AllVisible(cs)
  {
    assert forall x :: x in [c] + cs <==> x == c || x in cs;
  }

  lemma PrintCons(lib: Library, c: Candidate, cs: seq<Candidate>)
    ensures PrintTexts(lib, [c] + cs) == [CandidateText(lib, c)] + PrintTexts(lib, cs)
  {
    assert ([c] + cs)[1..] == cs;
  }

  lemma OneMoreBack(lib: Library, c: Candidate, t: string, texts: seq<string>, cs: seq<Candidate>)
    requires ReadText(lib, t) == Some(c) <==> Plain(c)
    requires ReadTexts(lib, texts) == Some(cs) <==> AllPlain(cs)
    ensures ReadTexts(lib, [t] + texts) == Some([c] + cs) <==> Plain(c) && AllPlain(cs)
  {
    assert ([t] + texts)[1..] == texts;
    var more := ReadTexts(lib, texts);
    if ReadText(lib, t).Some? && more.Some? { SameList(ReadText(lib, t).value, more.value, c, cs); }
  }

  lemma {:induction false} TextsBack(lib: Library, cs: seq<Candidate>)
    requires Sane(lib) && AllOk(cs)
    ensures ReadTexts(lib, PrintTexts(lib, cs)) == Some(cs) <==> AllPlain(cs)
  {
    if cs != [] {
      var c, rest := cs[0], cs[1..];
      assert cs == [c] + rest;
      PlainCons(c, rest);
      PrintCons(lib, c, rest);
      TextReadBack(lib, c);
      TextsBack(lib, rest);
      OneMoreBack(lib, c, CandidateText(lib, c), PrintTexts(lib, rest), rest);
    }
  }

  lemma SameList<T>(a: T, rest: seq<T>, b: T, others: seq<T>)
    ensures [a] + rest == [b] + others <==> a == b && rest == others
  {
    assert ([a] + rest)[1..] == rest && ([b] + others)[1..] == others;
    assert ([a] + rest)[0] == a && ([b] + others)[0] == b;
  }

  lemma PrintedIs(lib: Library, d: Description)
    requires Packable(d)
    ensures ReadSdp(lib, PrintSdp(lib, d)) == match ReadTexts(lib, PrintTexts(lib, d.candidates))
      case None => None
      case Some(cs) =>
        Some(d.(ufrag := ToUtf8(FromUtf8(d.ufrag)), password := ToUtf8(FromUtf8(d.password)), candidates := cs))
  {
    TextPacks(d.algorithm, d.digest);
  }

  /** A printed description is read back exactly if its candidates are plain and its credentials are text. */
  lemma PrintedBack(lib: Library, d: Description)
    requires Sane(lib) && Packable(d)
    ensures ReadSdp(lib, PrintSdp(lib, d)) == Some(d) <==>
      AllPlain(d.candidates) && WellFormed(d.ufrag) && WellFormed(d.password)
  {
    PrintedIs(lib, d);
    TextsBack(lib, d.candidates);
    BytesBack(d.ufrag);
    BytesBack(d.password);
  }

  lemma {:induction false} PlainTaken(lib: Library, cs: seq<Candidate>)
    requires Reliable(lib) && AllOk(cs) && AllVisible(cs) && AllPlain(cs)
    ensures TakesAll(lib, PrintTexts(lib, cs))
  {
    if cs != [] {
      var c, rest := cs[0], cs[1..];
      assert cs == [c] + rest;
      PlainCons(c, rest);
      PrintCons(lib, c, rest);
      PlainTaken(lib, rest);
    }
  }

  // ---- unpack after pack ----

  lemma CredentialsAreText(lib: Library, s: Sdp)
    requires ReadSdp(lib, s).Some?
    ensures WellFormed(ReadSdp(lib, s).value.ufrag) && WellFormed(ReadSdp(lib, s).value.password)
  {
    TextBack(s.ufrag);
    TextBack(s.password);
  }

  lemma UnpackIs(lib: Library, payload: Bytes, d: Description)
    requires Unpack(payload) == Some(d)
    ensures UnpackSdp(lib, payload)
      == if TakesAll(lib, PrintTexts(lib, d.candidates)) then Some(PrintSdp(lib, d)) else None
  {
  }

  lemma VisibleBack(lib: Library, s: Sdp, d: Description, back: Option<Sdp>)
    requires Reliable(lib) && ReadSdp(lib, s) == Some(d) && Packable(d) && AllVisible(d.candidates)
    requires back == UnpackSdp(lib, Pack(d).value)
    ensures back.Some? && ReadSdp(lib, back.value) == Some(d) <==> AllPlain(d.candidates)
    ensures AllPlain(d.candidates) ==> back == Some(PrintSdp(lib, d))
  {
    PackedRead(d);
    UnpackIs(lib, Pack(d).value, d);
    CredentialsAreText(lib, s);
    PrintedBack(lib, d);
    if AllPlain(d.candidates) { PlainTaken(lib, d.candidates); }
  }

  /** Unpacking what was packed says the same exactly if every candidate is visible and plain. */
  lemma UnpackPacked(lib: Library, s: Sdp)
    requires Reliable(lib) && PackSdp(lib, s).Some?
    ensures var d := ReadSdp(lib, s).value; var back := UnpackSdp(lib, PackSdp(lib, s).value);
      && (back.Some? && ReadSdp(lib, back.value) == Some(d) <==> AllVisible(d.candidates) && AllPlain(d.candidates))
      && (AllVisible(d.candidates) && AllPlain(d.candidates) ==> back == Some(PrintSdp(lib, d)))
      && (!AllVisible(d.candidates) ==> back == None)
  {
    var d := ReadSdp(lib, s).value;
    if AllVisible(d.candidates) { VisibleBack(lib, s, d, UnpackSdp(lib, Pack(d).value)); } else { InvisibleRefused(d); }
  }

  // ---- pack after unpack ----

  /** What a payload would have to be for its description to pack to it. */
  lemma PacksToIt(payload: Bytes, d: Description, other: Description)
    requires Unpack(payload) == Some(d) && Pack(other) == Some(payload)
    ensures other == d && !IsCutShort(payload)
  {
    PackedRead(other);
    if !AllVisible(other.candidates) { InvisibleRefused(other); }
    CutIffNotWhole(payload);
  }

  /** What is accepted packs to itself exactly if it is not cut short, its candidates are plain and its credentials
      are text. */
  lemma PackUnpacked(lib: Library, payload: Bytes)
    requires Sane(lib) && UnpackSdp(lib, payload).Some?
    ensures var d := Unpack(payload).value;
      PackSdp(lib, UnpackSdp(lib, payload).value) == Some(payload) <==>
        !IsCutShort(payload) && AllPlain(d.candidates) && WellFormed(d.ufrag) && WellFormed(d.password)
  {
    var d, s := Unpack(payload).value, UnpackSdp(lib, payload).value;
    UnpackedPacks(payload, d);
    PrintedBack(lib, d);
    if PackSdp(lib, s) == Some(payload) { PacksToIt(payload, d, ReadSdp(lib, s).value); }
  }

  // ---- inputs that do not come back ----

  lemma {:induction false} DecimalShort(n: nat, k: nat)
    requires k > 0 && n < Ten(k)
    ensures |Decimal(n)| <= k
    decreases k
  {
    if n >= 10 { DecimalShort(n / 10, k - 1); }
  }

  function Ten(k: nat): nat { if k == 0 then 1 else 10 * Ten(k - 1) }

  lemma {:induction false} AsciiBytes(s: string)
    requires forall k | 0 <= k < |s| :: Digit(s[k])
    ensures |ToLatin1(s)| == |s| && forall k | 0 <= k < |s| :: ToLatin1(s)[k] as int == s[k] as int
  {
    if s != "" {
      var rest := s[1..];
      AsciiBytes(rest);
      assert ToLatin1(s) == [s[0] as byte] + ToLatin1(rest);
      forall k | 1 <= k < |s| ensures ToLatin1(s)[k] as int == s[k] as int {
        assert ToLatin1(s)[k] == ToLatin1(rest)[k - 1] && s[k] == rest[k - 1];
      }
    }
  }

  lemma DigitsAreLatin1(s: string)
    requires forall c <- s :: Digit(c)
    ensures FromLatin1(ToLatin1(s)) == s && |ToLatin1(s)| == |s| && 0x20 !in ToLatin1(s)
  {
    forall k | 0 <= k < |s| ensures Digit(s[k]) { assert s[k] in s; }
    AsciiBytes(s);
  }

  /** An accepted payload, whole and visible, that packs to other bytes: one of its candidates is not plain. */
  lemma AcceptedYetChanged(lib: Library, d: Description)
    requires Sane(lib) && Packable(d) && AllVisible(d.candidates) && !AllPlain(d.candidates)
    requires TakesAll(lib, PrintTexts(lib, d.candidates))
    ensures var payload := Pack(d).value;
      UnpackSdp(lib, payload) == Some(PrintSdp(lib, d)) && !IsCutShort(payload)
      && PackSdp(lib, PrintSdp(lib, d)) != Some(payload)
  {
    var payload := Pack(d).value;
    PackedRead(d);
    UnpackIs(lib, payload, d);
    CutIffNotWhole(payload);
    PackUnpacked(lib, payload);
  }

  /** A foundation of "%2" is overwritten by the priority. */
  lemma FoundationOverwritten(lib: Library, c: Candidate)
    requires Sane(lib) && CandidateOk(c) && c.foundation == [0x25, 0x32] && c.address.IPv4?
    ensures ReadText(lib, CandidateText(lib, c)) == Some(c.(foundation := ToLatin1(Decimal(c.priority))))
  {
    var digits := Decimal(c.priority);
    NumberBegins(lib, c.priority);
    DecimalDigits(c.priority);
    DigitsAreLatin1(digits);
    assert Ten(10) == 10000000000 by { Tens(); }
    Limits();
    DecimalShort(c.priority, 10);
    var n := c.(foundation := ToLatin1(digits));
    LonePercent();
    assert "%" + "" == "%";
    Unspoiled(lib, n);
    TextReadBack(lib, n);
    PriorityTwice(lib, c, n);
  }

  lemma Tens()
    ensures Ten(10) == 10000000000
  {
    assert Ten(5) == 100000;
  }

  lemma PriorityTwice(lib: Library, c: Candidate, n: Candidate)
    requires Sane(lib) && CandidateOk(c) && CandidateOk(n) && c.foundation == [0x25, 0x32]
    requires n == c.(foundation := ToLatin1(Decimal(c.priority))) && Unmarked(FromLatin1(n.foundation))
    requires FromLatin1(n.foundation) == Decimal(c.priority)
    ensures CandidateText(lib, c) == CandidateText(lib, n)
  {
    var p := NumberValue(lib, c.priority);
    assert FromLatin1(c.foundation) == "%2";
    FoundationFirst("%2");
    MarkerOverwritten(Founded("%2"), p);
    FoundationFirst(Decimal(c.priority));
    FirstIsFoundation(Decimal(c.priority));
    StepPriority(lib, Founded(Decimal(c.priority)), c.priority);
  }

  lemma MarkerOverwritten(l: Line, v: Value)
    requires l == Founded("%2")
    ensures Arg(LineText(l), v) == LineText(Founded(v.plain).(priority := v.plain))
  {
    Marks(v);
    AfterPlain(PREFIX, "%2", 2, v);
    ArgOfLine(l, v);
    NothingReplaced("%3", 2, v);
    NothingReplaced("%4", 2, v);
    NothingReplaced("%5", 2, v);
  }

  /** A scope of "4" is overwritten by the port, which then stands behind the address. */
  lemma ScopeOverwritten(lib: Library, c: Candidate)
    requires Sane(lib) && CandidateOk(c) && c.address.IPv6? && c.address.scope == [0x34]
    requires Unmarked(FromLatin1(c.foundation))
    ensures var l := PlainLine(lib, c);
      CandidateText(lib, c) == LineText(l.(address := lib.show(V6(c.address.bytes)) + Decimal(c.port)))
    ensures ReadText(lib, CandidateText(lib, c)) != Some(c)
  {
    var l, q, t := Addressed(lib, c), NumberValue(lib, c.port), lib.show(V6(c.address.bytes));
    assert Shows(lib, V6(c.address.bytes));
    ScopeFour();
    ThreeInPlace(lib, c);
    FirstIsFoundation(FromLatin1(c.foundation));
    NumberBegins(lib, c.priority);
    NumberBegins(lib, c.port);
    AddressBegins(lib, c.address);
    Marks(q);
    AfterPlain(t, "%4", 4, q);
    ArgOfLine(l, q);
    Untouched(l, LineArg(l, q), 4, q);
    NothingReplaced("%5", 4, q);
    LastTwo(lib, c);
    var m := LineArg(l, q);
    NoPercent(t + Decimal(c.port));
    StepKind(m, KindText(c.kind), lib, c.port);
    TextReadBack(lib, c);
  }

  lemma ScopeFour()
    ensures TextOfBytes([0x34]) == "4" && "%" + "4" == "%4"
  {
    assert [0x34 as byte][1..] == [];
  }

  /** A scope that is not text comes back as its replacement. */
  lemma ScopeReplacedByText(lib: Library, c: Candidate)
    requires Sane(lib) && CandidateOk(c) && c.address.IPv6? && c.address.scope == [0xff]
    requires Unmarked(FromLatin1(c.foundation))
    ensures ReadText(lib, CandidateText(lib, c))
      == Some(c.(address := c.address.(scope := [0xef, 0xbf, 0xbd])))
  {
    ScopeFf();
    Unspoiled(lib, c);
    PlainRead(lib, c);
  }

  lemma ScopeFf()
    ensures var s := TextOfBytes([0xff]);
      s == [REPLACEMENT] && ToUtf8(s) == [0xef, 0xbf, 0xbd] && '%' !in s && Unspaced(s) && Unmarked("%" + s)
  {
    assert [0xff as byte][1..] == [];
    var s := [REPLACEMENT];
    assert s[1..] == "" && ("%" + s)[1..] == s;
    assert MarkerAt("%" + s) == None && MarkerAt(s) == None;
  }

  /** A foundation with an accent is packed, and what was packed is refused. */
  lemma AccentRefused(lib: Library)
    requires Reliable(lib)
    ensures exists s :: PackSdp(lib, s).Some? && UnpackSdp(lib, PackSdp(lib, s).value) == None
  {
    var c := Candidate([0xe9], 1, 9, IPv4(0), Host);
    var d := Description(Active, [0x61], [0x62], Sha1, Zeros(20), [c]);
    Limits();
    assert c.foundation[0] in c.foundation && c in d.candidates;
    assert CandidateOk(c) && Packable(d) && !AllVisible(d.candidates);
    NoPercent(FromLatin1(c.foundation));
    assert AllPlain(d.candidates);
    assert WellFormed([0x61]) && WellFormed([0x62]);
    PrintedBack(lib, d);
    UnpackPacked(lib, PrintSdp(lib, d));
  }
}
