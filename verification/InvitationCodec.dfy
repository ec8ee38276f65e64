/** The outer frame of a compact invitation. */
module InvitationFrames {
  import opened Wrappers
  import opened CompactStream
  import opened SdpCodec
  import opened SdpCodecProofs
  import opened SdpCutProofs
  import opened Utf8
  import opened CandidateTexts
  import opened CandidateTextProofs
  import opened CandidateLineProofs
  import opened SdpTexts
  import opened SdpTextProofs

  const MAX_BYTES := 256 * 1024

  datatype Kind = Offer | Answer

  /** Identifiers as their sixteen bytes; an answer's mesh is whatever its sender had at hand. */
  datatype Invitation = Invitation(kind: Kind, mesh: Option<Bytes>, connection: Bytes, sdp: Sdp)

  /** A canonical identifier is any but the null one. */
  predicate Uuid(b: Bytes) { |b| == 16 && exists x <- b :: x != 0 }

  predicate Complete(i: Invitation) {
    (i.kind.Offer? ==> i.mesh.Some? && Uuid(i.mesh.value)) && Uuid(i.connection)
  }

  function MeshBytes(i: Invitation): Bytes
    requires Complete(i)
  {
    if i.kind.Offer? then i.mesh.value else []
  }

  function Frame(i: Invitation, packed: Bytes): Bytes
    requires Complete(i)
  {
    Digits(1, 0)
      + (Digits(1, if i.kind.Offer? then 0 else 1) + (MeshBytes(i) + (i.connection + (Digits(4, |packed|) + packed))))
  }

  function Encode(lib: Library, i: Invitation): Option<Bytes> {
    if !Complete(i) || PackSdp(lib, i.sdp).None? then None else Some(Frame(i, PackSdp(lib, i.sdp).value))
  }

  function ReadUuid(r: Reader): (Option<Bytes>, Reader) {
    var (b, next) := Raw(r, 16);
    (if |b| == 16 && Uuid(b) then Some(b) else None, next)
  }

  function ReadPayload(r: Reader, size: nat): Option<Bytes> {
    var (length, r1) := Unsigned(r, 4);
    if !r1.ok || length == 0 || length > MAX_BYTES || length > size then None
    else
      var (b, r2) := Raw(r1, length);
      if |b| != length || r2.rest != [] then None else Some(b)
  }

  function ReadMesh(r: Reader, kind: Kind): (Option<Option<Bytes>>, Reader) {
    if kind.Answer? then (Some(None), r)
    else match ReadUuid(r) case (None, r1) => (None, r1) case (Some(mesh), r1) => (Some(Some(mesh)), r1)
  }

  /** The parts of a frame, before the description in it is unpacked. */
  datatype Parts = Parts(kind: Kind, mesh: Option<Bytes>, connection: Bytes, payload: Bytes)

  function ReadParts(r: Reader, kind: Kind, size: nat): Option<Parts> {
    match ReadMesh(r, kind)
    case (None, _) => None
    case (Some(mesh), r1) =>
      match ReadUuid(r1)
      case (None, _) => None
      case (Some(connection), r2) =>
        match ReadPayload(r2, size) case None => None case Some(payload) => Some(Parts(kind, mesh, connection, payload))
  }

  function DecodeFrame(raw: Bytes): Option<Parts> {
    var (version, r1) := Unsigned(Reader(raw, true), 1);
    var (code, r2) := Unsigned(r1, 1);
    if version != 0 || code > 1 then None else ReadParts(r2, if code == 0 then Offer else Answer, |raw|)
  }

  function Decode(lib: Library, raw: Bytes): Option<Invitation> {
    match DecodeFrame(raw)
    case None => None
    case Some(p) =>
      match UnpackSdp(lib, p.payload)
      case None => None
      case Some(sdp) => Some(Invitation(p.kind, p.mesh, p.connection, sdp))
  }

  // ---- decode after encode ----

  /** What an invitation says on the wire: an answer carries no mesh. */
  function OnWire(i: Invitation): Invitation { if i.kind.Offer? then i else i.(mesh := None) }

  lemma PayloadBack(packed: Bytes, size: nat)
    requires 0 < |packed| <= MAX_BYTES && |packed| <= size
    ensures ReadPayload(Reader(Digits(4, |packed|) + packed, true), size) == Some(packed)
  {
    Limits();
    UnsignedBack(4, |packed|, packed, true);
    RawBack(packed, [], true);
    assert packed + [] == packed;
  }

  lemma UuidBack(b: Bytes, rest: Bytes)
    requires Uuid(b)
    ensures ReadUuid(Reader(b + rest, true)) == (Some(b), Reader(rest, true))
  {
    RawBack(b, rest, true);
  }

  lemma MeshBack(i: Invitation, rest: Bytes)
    requires Complete(i)
    ensures ReadMesh(Reader(MeshBytes(i) + rest, true), i.kind) == (Some(OnWire(i).mesh), Reader(rest, true))
  {
    if i.kind.Offer? { UuidBack(i.mesh.value, rest); } else { assert MeshBytes(i) + rest == rest; }
  }

  /** The same invitation, its description printed perhaps in another way. */
  predicate SaysSame(lib: Library, a: Invitation, b: Invitation) {
    a.(sdp := b.sdp) == b && ReadSdp(lib, a.sdp) == ReadSdp(lib, b.sdp)
  }

  lemma DecodedFrame(lib: Library, i: Invitation, packed: Bytes)
    requires Complete(i) && 0 < |packed| <= MAX_BYTES
    ensures Decode(lib, Frame(i, packed))
      == match UnpackSdp(lib, packed) case None => None case Some(sdp) => Some(OnWire(i).(sdp := sdp))
  {
    FrameBack(i, packed);
  }

  lemma SameButSdp(lib: Library, i: Invitation, sdp: Sdp)
    ensures SaysSame(lib, OnWire(i).(sdp := sdp), OnWire(i)) <==> ReadSdp(lib, sdp) == ReadSdp(lib, i.sdp)
  {
  }

  /** Decoding an encoded invitation says the same exactly when its candidates are visible and plain. */
  lemma DecodeEncoded(lib: Library, i: Invitation)
    requires Reliable(lib) && Encode(lib, i).Some?
    ensures var d := ReadSdp(lib, i.sdp).value; var back := Decode(lib, Encode(lib, i).value);
      && (back.Some? && SaysSame(lib, back.value, OnWire(i)) <==> AllVisible(d.candidates) && AllPlain(d.candidates))
      && (AllVisible(d.candidates) && AllPlain(d.candidates) ==>
            back == Some(OnWire(i).(sdp := PrintSdp(lib, d))))
  {
    var packed := PackSdp(lib, i.sdp).value;
    EncodedSize(lib, i);
    DecodedFrame(lib, i, packed);
    UnpackPacked(lib, i.sdp);
    var back := UnpackSdp(lib, packed);
    if back.Some? { SameButSdp(lib, i, back.value); }
  }

  lemma EncodedSize(lib: Library, i: Invitation)
    requires Encode(lib, i).Some?
    ensures var packed := PackSdp(lib, i.sdp).value;
      0 < |packed| <= MAX_BYTES && Complete(i) && Encode(lib, i) == Some(Frame(i, packed))
  {
    PackedSize(ReadSdp(lib, i.sdp).value);
  }

  lemma FrameBack(i: Invitation, packed: Bytes)
    requires Complete(i) && 0 < |packed| <= MAX_BYTES
    ensures DecodeFrame(Frame(i, packed)) == Some(Parts(i.kind, OnWire(i).mesh, i.connection, packed))
  {
    Limits();
    var body := i.connection + (Digits(4, |packed|) + packed);
    var code := if i.kind.Offer? then 0 else 1;
    UnsignedBack(1, 0, Digits(1, code) + (MeshBytes(i) + body), true);
    UnsignedBack(1, code, MeshBytes(i) + body, true);
    MeshBack(i, body);
    UuidBack(i.connection, Digits(4, |packed|) + packed);
    PayloadBack(packed, |Frame(i, packed)|);
  }

  // ---- encode after decode ----

  lemma PayloadTook(r: Reader, size: nat)
    requires r.ok
    ensures var b := ReadPayload(r, size);
      b.Some? ==> 0 < |b.value| <= MAX_BYTES && r.rest == Digits(4, |b.value|) + b.value
  {
    UnsignedTook(r, 4);
    var (length, r1) := Unsigned(r, 4);
    RawTook(r1, length);
    if ReadPayload(r, size).Some? { assert ReadPayload(r, size).value + [] == ReadPayload(r, size).value; }
  }

  lemma UuidTook(r: Reader)
    ensures var (b, next) := ReadUuid(r);
      b.Some? ==> Uuid(b.value) && r.rest == b.value + next.rest && next.ok == r.ok
  {
    RawTook(r, 16);
  }

  lemma SpentUuid(r: Reader)
    requires r.rest == []
    ensures ReadUuid(r).0.None?
  {
  }

  lemma HeaderTook(raw: Bytes)
    ensures var (version, r1) := Unsigned(Reader(raw, true), 1); var (code, r2) := Unsigned(r1, 1);
      if r2.ok then raw == Digits(1, version) + (Digits(1, code) + r2.rest) else r2.rest == []
  {
    UnsignedTook(Reader(raw, true), 1);
    UnsignedTook(Unsigned(Reader(raw, true), 1).1, 1);
  }

  function Named(p: Parts, sdp: Sdp): Invitation { Invitation(p.kind, p.mesh, p.connection, sdp) }

  lemma PartsTook(r: Reader, kind: Kind, size: nat, sdp: Sdp)
    requires ReadParts(r, kind, size).Some?
    ensures r.ok || r.rest != []
    ensures var p := ReadParts(r, kind, size).value;
      Complete(Named(p, sdp)) && p.kind == kind
      && (r.ok ==> r.rest == MeshBytes(Named(p, sdp)) + (p.connection + (Digits(4, |p.payload|) + p.payload)))
  {
    var p := ReadParts(r, kind, size).value;
    UuidTook(r);
    if r.rest == [] { SpentUuid(r); }
    var (mesh, r1) := ReadMesh(r, kind);
    UuidTook(r1);
    var r2 := ReadUuid(r1).1;
    if r.ok { PayloadTook(r2, size); }
    assert r.rest == MeshBytes(Named(p, sdp)) + r1.rest;
  }

  lemma FrameTook(raw: Bytes, sdp: Sdp)
    requires DecodeFrame(raw).Some?
    ensures var p := DecodeFrame(raw).value; Complete(Named(p, sdp)) && raw == Frame(Named(p, sdp), p.payload)
  {
    HeaderTook(raw);
    var (version, r1) := Unsigned(Reader(raw, true), 1);
    var (code, r2) := Unsigned(r1, 1);
    PartsTook(r2, if code == 0 then Offer else Answer, |raw|, sdp);
  }

  /** An accepted frame encodes to itself exactly if the description in it is not cut short, and its candidates and
      credentials survive as text. */
  lemma EncodeDecoded(lib: Library, raw: Bytes)
    requires Sane(lib) && Decode(lib, raw).Some?
    ensures DecodeFrame(raw).Some? && Unpack(DecodeFrame(raw).value.payload).Some?
    ensures var payload := DecodeFrame(raw).value.payload; var d := Unpack(payload).value;
      Encode(lib, Decode(lib, raw).value) == Some(raw) <==>
        !IsCutShort(payload) && AllPlain(d.candidates) && WellFormed(d.ufrag) && WellFormed(d.password)
  {
    var p := DecodeFrame(raw).value;
    var sdp := UnpackSdp(lib, p.payload).value;
    FrameTook(raw, sdp);
    PackUnpacked(lib, p.payload);
    EncodedAgain(lib, Named(p, sdp), p.payload);
  }

  lemma EncodedAgain(lib: Library, i: Invitation, payload: Bytes)
    requires Complete(i)
    ensures Encode(lib, i) == Some(Frame(i, payload)) <==> PackSdp(lib, i.sdp) == Some(payload)
  {
    var packed := PackSdp(lib, i.sdp);
    if packed.Some? { SameFrame(i, packed.value, payload); }
  }

  lemma SameFrame(i: Invitation, a: Bytes, b: Bytes)
    requires Complete(i)
    ensures Frame(i, a) == Frame(i, b) <==> a == b
  {
    if |a| != |b| { assert |Frame(i, a)| - |a| == |Frame(i, b)| - |b|; }
    else if Frame(i, a) == Frame(i, b) {
      var n := |Frame(i, a)| - |a|;
      assert Frame(i, a)[n..] == a && Frame(i, b)[n..] == b;
    }
  }
}
