/** Packing and unpacking of whole descriptions, with their texts. */
module SdpTexts {
  import opened Wrappers
  import opened Utf8
  import opened CompactStream
  import opened SdpCodec
  import opened FingerprintText
  import opened CandidateTexts

  /** What the SDP library reads from a description, and prints in one. */
  datatype Sdp = Sdp(role: Role, ufrag: string, password: string, algorithm: Algorithm, fingerprint: string,
                     candidates: seq<string>)

  function ReadTexts(lib: Library, texts: seq<string>): Option<seq<Candidate>> {
    if texts == [] then Some([])
    else match (ReadText(lib, texts[0]), ReadTexts(lib, texts[1..]))
      case (Some(c), Some(cs)) => Some([c] + cs)
      case _ => None
  }

  /** The fields of a description. */
  function ReadSdp(lib: Library, s: Sdp): Option<Description> {
    match (PackText(s.algorithm, s.fingerprint), ReadTexts(lib, s.candidates))
    case (Some(digest), Some(cs)) =>
      Some(Description(s.role, ToUtf8(s.ufrag), ToUtf8(s.password), s.algorithm, digest, cs))
    case _ => None
  }

  function PackSdp(lib: Library, s: Sdp): Option<Bytes> {
    match ReadSdp(lib, s) case Some(d) => Pack(d) case None => None
  }

  function PrintTexts(lib: Library, cs: seq<Candidate>): seq<string> {
    if cs == [] then [] else [CandidateText(lib, cs[0])] + PrintTexts(lib, cs[1..])
  }

  /** The description as it is printed. */
  function PrintSdp(lib: Library, d: Description): Sdp {
    Sdp(d.role, FromUtf8(d.ufrag), FromUtf8(d.password), d.algorithm, FingerprintText.Text(d.digest),
        PrintTexts(lib, d.candidates))
  }

  predicate TakesAll(lib: Library, texts: seq<string>) {
    texts == [] || (lib.takes(texts[0]) && TakesAll(lib, texts[1..]))
  }

  function UnpackSdp(lib: Library, payload: Bytes): Option<Sdp> {
    match Unpack(payload)
    case None => None
    case Some(d) => if TakesAll(lib, PrintTexts(lib, d.candidates)) then Some(PrintSdp(lib, d)) else None
  }
}
