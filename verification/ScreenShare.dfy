/** Screen sharing: images cut into numbered parts, put together again, and who gets to share. */
module ScreenShare {
  import opened Wrappers
  import opened CompactStream

  const HEADER_SIZE := 33
  const PIECE_SIZE := 12000
  const MAX_IMAGE_SIZE := 1024 * 1024
  const MAX_PARTS := 88
  const MAX_STOPPED := 128

  type Peer = nat

  /** A stream of a peer. */
  type Key = (Peer, Bytes)

  datatype Kind = Announce | Stop | Video | Audio

  /** A message: streams are their sixteen UUID bytes. */
  datatype Frame = Frame(kind: Kind, stream: Bytes, sequence: nat, part: nat, count: nat, size: nat, payload: Bytes)

  // ---- the header ----

  const MAGIC: Bytes := [0x54, 0x4d, 0x43, 0x53]

  function KindCode(k: Kind): nat { match k case Announce => 1 case Stop => 2 case Video => 3 case Audio => 4 }

  function KindOf(code: nat): Option<Kind> {
    match code case 1 => Some(Announce) case 2 => Some(Stop) case 3 => Some(Video) case 4 => Some(Audio) case _ => None
  }

  function EncodeFrame(f: Frame): Bytes { MAGIC + (Digits(1, KindCode(f.kind)) + (f.stream + Fields(f))) }

  predicate Null(stream: Bytes) { forall b <- stream :: b == 0 }

  function DecodeFields(kind: Kind, stream: Bytes, r: Reader): Frame {
    var (sequence, r1) := Unsigned(r, 4);
    var (part, r2) := Unsigned(r1, 2);
    var (count, r3) := Unsigned(r2, 2);
    var (size, r4) := Unsigned(r3, 4);
    Frame(kind, stream, sequence, part, count, size, r4.rest)
  }

  function DecodeFrame(bytes: Bytes): Option<Frame> {
    if |bytes| < HEADER_SIZE || |bytes| > HEADER_SIZE + PIECE_SIZE || bytes[..4] != MAGIC then None
    else
      var (code, r1) := Unsigned(Reader(bytes[4..], true), 1);
      var (stream, r2) := Raw(r1, 16);
      if Null(stream) || KindOf(code).None? then None else Some(DecodeFields(KindOf(code).value, stream, r2))
  }

  predicate Sendable(f: Frame) {
    && |f.stream| == 16 && !Null(f.stream) && f.sequence < Limit(4) && f.part < Limit(2) && f.count < Limit(2)
    && f.size < Limit(4) && |f.payload| <= PIECE_SIZE
  }

  function Fields(f: Frame): Bytes {
    Digits(4, f.sequence) + (Digits(2, f.part) + (Digits(2, f.count) + (Digits(4, f.size) + f.payload)))
  }

  lemma FieldsBack(f: Frame)
    requires Sendable(f)
    ensures DecodeFields(f.kind, f.stream, Reader(Fields(f), true)) == f
  {
    UnsignedBack(4, f.sequence, Digits(2, f.part) + (Digits(2, f.count) + (Digits(4, f.size) + f.payload)), true);
    UnsignedBack(2, f.part, Digits(2, f.count) + (Digits(4, f.size) + f.payload), true);
    UnsignedBack(2, f.count, Digits(4, f.size) + f.payload, true);
    UnsignedBack(4, f.size, f.payload, true);
  }

  lemma HeaderBack(kind: Kind, stream: Bytes, fields: Bytes)
    requires |stream| == 16
    ensures var (code, r1) := Unsigned(Reader(Digits(1, KindCode(kind)) + (stream + fields), true), 1);
      KindOf(code) == Some(kind) && Raw(r1, 16) == (stream, Reader(fields, true))
  {
    Limits();
    UnsignedBack(1, KindCode(kind), stream + fields, true);
    RawBack(stream, fields, true);
  }

  /** Every message a sender makes is read back as it was. */
  lemma FrameBack(f: Frame)
    requires Sendable(f)
    ensures DecodeFrame(EncodeFrame(f)) == Some(f)
  {
    var rest := Digits(1, KindCode(f.kind)) + (f.stream + Fields(f));
    assert EncodeFrame(f)[..4] == MAGIC && EncodeFrame(f)[4..] == rest;
    HeaderBack(f.kind, f.stream, Fields(f));
    FieldsBack(f);
  }

  // ---- cutting an image ----

  function Parts(size: nat): nat { (size + PIECE_SIZE - 1) / PIECE_SIZE }

  function PieceEnd(size: nat, part: nat): nat {
    if (part + 1) * PIECE_SIZE <= size then (part + 1) * PIECE_SIZE else size
  }

  function Piece(image: Bytes, part: nat): (b: Bytes)
    requires part < Parts(|image|)
    ensures 0 < |b| <= PIECE_SIZE
  {
    image[part * PIECE_SIZE..PieceEnd(|image|, part)]
  }

  function Fragment(stream: Bytes, sequence: nat, image: Bytes, part: nat): Frame
    requires part < Parts(|image|)
  {
    Frame(Video, stream, sequence, part, Parts(|image|), |image|, Piece(image, part))
  }

  function Fragments(stream: Bytes, sequence: nat, image: Bytes): seq<Frame> {
    seq(Parts(|image|), k requires 0 <= k < Parts(|image|) => Fragment(stream, sequence, image, k))
  }

  /** The sending loop stops at the first part the link refuses; `*` stands for the link. */
  method SendImage(stream: Bytes, sequence: nat, image: Bytes) returns (sent: seq<Frame>)
    requires 0 < |image| <= MAX_IMAGE_SIZE
    ensures sent <= Fragments(stream, sequence, image) && |Fragments(stream, sequence, image)| <= MAX_PARTS
  {
    sent := [];
    for part := 0 to Parts(|image|)
      invariant sent <= Fragments(stream, sequence, image) && |sent| == part
    {
      var accepted: bool := *;
      if !accepted { return; }
      sent := sent + [Fragment(stream, sequence, image, part)];
    }
  }

  // ---- putting it together ----

  datatype Assembly = Assembly(received: nat, displayed: nat, size: nat, pieces: seq<Bytes>, have: nat, decoding: bool)

  const NOTHING := Assembly(0, 0, 0, [], 0, false)

  function Joined(pieces: seq<Bytes>): Bytes { if pieces == [] then [] else pieces[0] + Joined(pieces[1..]) }

  predicate Refused(v: Assembly, f: Frame) {
    || f.sequence == 0 || f.count == 0 || f.count > MAX_PARTS || f.part >= f.count || f.size == 0
      || f.size > MAX_IMAGE_SIZE
    || f.count != Parts(f.size) || |f.payload| != PieceEnd(f.size, f.part) - f.part * PIECE_SIZE
    || f.sequence < v.received || f.sequence <= v.displayed
  }

  function Opened(v: Assembly, f: Frame): Assembly {
    if f.sequence > v.received
      then v.(received := f.sequence, size := f.size, pieces := seq(f.count, _ => []), have := 0) else v
  }

  /** The new state, and the image if this part completed one that can be decoded now. */
  function ReceiveVideo(before: Assembly, f: Frame): (Assembly, Option<Bytes>) {
    if Refused(before, f) then (before, None)
    else
      var v := Opened(before, f);
      if v.size != f.size || |v.pieces| != f.count || v.pieces[f.part] != [] then (v, None)
      else
        var n := v.(pieces := v.pieces[f.part := f.payload], have := v.have + 1);
        if n.have != f.count || n.decoding then (n, None) else (n.(decoding := true), Some(Joined(n.pieces)))
  }

  // ---- who is watched ----

  datatype Job = Job(peer: Peer, stream: Bytes, sequence: nat, image: Bytes)

  /** Stopped streams are kept as a set, and in the order they were stopped. */
  datatype Share = Share(self: Peer, sharing: Option<Bytes>, remote: Option<Key>, video: Assembly, job: Option<Job>,
                         stopped: set<Key>, order: seq<Key>)

  /** Only the last 128 stopped streams are remembered. */
  function Retired(s: Share, key: Option<Key>): Share {
    match key
    case None => s
    case Some(k) =>
      if k in s.stopped then s
      else if |s.order| >= MAX_STOPPED then
        s.(stopped := s.stopped + {k} - {s.order[0]}, order := s.order[1..] + [k])
      else s.(stopped := s.stopped + {k}, order := s.order + [k])
  }

  /** The assembly is emptied, but a decoder that is running stays so. */
  function ClearRemote(s: Share, retire: bool): Share {
    (if retire then Retired(s, s.remote) else s)
      .(remote := None, video := s.video.(received := 0, displayed := 0, pieces := []))
  }

  function StopSharing(s: Share): Share {
    match s.sharing case None => s case Some(stream) => Retired(s, Some((s.self, stream))).(sharing := None)
  }

  /** A simultaneous start is settled by identity: the smaller one keeps sharing. */
  function HearAnnounce(s: Share, peer: Peer, stream: Bytes): Share {
    if (peer, stream) in s.stopped then s
    else if s.sharing.Some? && s.self < peer then s
    else
      var idle := StopSharing(s);
      if idle.remote.Some? && idle.remote.value.0 != peer && idle.remote.value.0 < peer then idle
      else if idle.remote == Some((peer, stream)) then idle
      else ClearRemote(idle, true).(remote := Some((peer, stream)))
  }

  function HearStop(s: Share, peer: Peer, stream: Bytes): Share {
    if (peer, stream) in s.stopped then s
    else if s.remote == Some((peer, stream)) then ClearRemote(s, true)
    else Retired(s, Some((peer, stream)))
  }

  function HearVideo(s: Share, peer: Peer, f: Frame): Share {
    if (peer, f.stream) in s.stopped || s.remote != Some((peer, f.stream)) then s
    else
      var (video, done) := ReceiveVideo(s.video, f);
      s.(video := video, job := if done.Some? then Some(Job(peer, f.stream, f.sequence, done.value)) else s.job)
  }

  /** The decoder's answer counts only for the stream still watched, and only forwards. */
  function Decoded(s: Share, readable: bool): (Share, Option<nat>) {
    match s.job
    case None => (s, None)
    case Some(j) =>
      var idle := s.(job := None, video := s.video.(decoding := false));
      if s.remote != Some((j.peer, j.stream)) || !readable || j.sequence <= s.video.displayed then (idle, None)
      else (idle.(video := idle.video.(displayed := j.sequence)), Some(j.sequence))
  }

  class ScreenShareService {
    const self: Peer
    var sharing: Option<Bytes>
    var remote: Option<Key>
    var video: Assembly
    var job: Option<Job>
    var stopped: set<Key>
    var order: seq<Key>

    function View(): Share
      reads this
    {
      Share(self, sharing, remote, video, job, stopped, order)
    }

    constructor (self: Peer)
      ensures View() == Share(self, None, None, NOTHING, None, {}, [])
    {
      this.self, sharing, remote, video, job, stopped, order := self, None, None, NOTHING, None, {}, [];
    }

    method Retire(key: Key)
      requires |order| <= MAX_STOPPED
      modifies `stopped, `order
      ensures View() == Retired(old(View()), Some(key)) && |order| <= MAX_STOPPED
    {
      if key in stopped { return; }
      stopped := stopped + {key};
      order := order + [key];
      while |order| > MAX_STOPPED
        invariant |order| <= MAX_STOPPED + 1
        invariant if |order| > MAX_STOPPED then stopped == old(stopped) + {key} && order == old(order) + [key]
                  else View() == Retired(old(View()), Some(key))
        decreases |order|
      {
        stopped := stopped - {order[0]};
        order := order[1..];
      }
    }

    method Clear(retire: bool)
      requires |order| <= MAX_STOPPED
      modifies this
      ensures View() == ClearRemote(old(View()), retire) && |order| <= MAX_STOPPED
    {
      if retire && remote.Some? { Retire(remote.value); }
      remote := None;
      video := video.(received := 0, displayed := 0, pieces := []);
    }

    method StopLocal()
      requires |order| <= MAX_STOPPED
      modifies `sharing, `stopped, `order
      ensures View() == StopSharing(old(View())) && |order| <= MAX_STOPPED
    {
      if sharing.None? { return; }
      Retire((self, sharing.value));
      sharing := None;
    }

    method ReceiveAnnounce(peer: Peer, stream: Bytes)
      requires |order| <= MAX_STOPPED
      modifies this
      ensures View() == HearAnnounce(old(View()), peer, stream) && |order| <= MAX_STOPPED
    {
      if (peer, stream) in stopped { return; }
      if sharing.Some? {
        if self < peer { return; }
        StopLocal();
      }
      if remote.Some? && remote.value.0 != peer && remote.value.0 < peer { return; }
      if remote != Some((peer, stream)) {
        Clear(true);
        remote := Some((peer, stream));
      }
    }

    method ReceiveStop(peer: Peer, stream: Bytes)
      requires |order| <= MAX_STOPPED
      modifies this
      ensures View() == HearStop(old(View()), peer, stream) && |order| <= MAX_STOPPED
    {
      if (peer, stream) in stopped { return; }
      if remote == Some((peer, stream)) { Clear(true); } else { Retire((peer, stream)); }
    }

    method Join() returns (image: Bytes)
      ensures image == Joined(video.pieces)
    {
      image := [];
      for k := 0 to |video.pieces|
        invariant image + Joined(video.pieces[k..]) == Joined(video.pieces)
      {
        assert video.pieces[k..][1..] == video.pieces[k + 1..];
        image := image + video.pieces[k];
      }
    }

    method TakeVideo(peer: Peer, f: Frame)
      modifies this
      ensures View() == HearVideo(old(View()), peer, f)
    {
      if (peer, f.stream) in stopped || remote != Some((peer, f.stream)) || Refused(video, f) { return; }
      if f.sequence > video.received {
        video := video.(received := f.sequence, size := f.size, pieces := seq(f.count, _ => []), have := 0);
      }
      if video.size != f.size || |video.pieces| != f.count || video.pieces[f.part] != [] { return; }
      video := video.(pieces := video.pieces[f.part := f.payload], have := video.have + 1);
      if video.have != f.count || video.decoding { return; }
      var image := Join();
      video := video.(decoding := true);
      job := Some(Job(peer, f.stream, f.sequence, image));
    }

    method FinishDecoding(readable: bool) returns (shown: Option<nat>)
      modifies this
      ensures (View(), shown) == Decoded(old(View()), readable)
    {
      if job.None? { return None; }
      var j := job.value;
      job := None;
      video := video.(decoding := false);
      if remote != Some((j.peer, j.stream)) || !readable || j.sequence <= video.displayed { return None; }
      video := video.(displayed := j.sequence);
      shown := Some(j.sequence);
    }
  }
}
