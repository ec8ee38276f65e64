/** Only whole sent images are decoded, and everyone agrees on whose screen is shared. */
module ScreenShareProofs {
  import opened Wrappers
  import opened CompactStream
  import opened ScreenShare

  /** The image each peer sent under each number of each of its streams. */
  type Images = (Peer, Bytes, nat) -> Bytes

  /** A part some peer's sending loop made; the channel may lose, repeat and reorder them at will. */
  predicate Sent(images: Images, peer: Peer, f: Frame) {
    var image := images(peer, f.stream, f.sequence);
    0 < |image| <= MAX_IMAGE_SIZE && f.part < Parts(|image|) && f == Fragment(f.stream, f.sequence, image, f.part)
  }

  // ---- counting and joining ----

  function Filled(pieces: seq<Bytes>): nat {
    if pieces == [] then 0 else (if pieces[0] != [] then 1 else 0) + Filled(pieces[1..])
  }

  lemma {:induction false} FilledNone(n: nat)
    ensures Filled(seq(n, _ => [])) == 0
  {
    if n > 0 {
      var s: seq<Bytes> := seq(n, _ => []);
      assert s[1..] == seq(n - 1, _ => []);
      FilledNone(n - 1);
    }
  }

  lemma {:induction false} FilledOneMore(pieces: seq<Bytes>, p: nat, b: Bytes)
    requires p < |pieces| && pieces[p] == [] && b != []
    ensures Filled(pieces[p := b]) == Filled(pieces) + 1
  {
    if p == 0 {
      assert pieces[p := b][1..] == pieces[1..];
    } else {
      assert pieces[p := b][1..] == pieces[1..][p - 1 := b];
      FilledOneMore(pieces[1..], p - 1, b);
    }
  }

  lemma {:induction false} FilledAll(pieces: seq<Bytes>)
    ensures Filled(pieces) <= |pieces|
    ensures Filled(pieces) == |pieces| ==> forall p | 0 <= p < |pieces| :: pieces[p] != []
  {
    if pieces != [] {
      FilledAll(pieces[1..]);
      if Filled(pieces) == |pieces| {
        forall p | 0 <= p < |pieces| ensures pieces[p] != [] { if p > 0 { assert pieces[p] == pieces[1..][p - 1]; } }
      }
    }
  }

  lemma {:induction false} JoinFrom(pieces: seq<Bytes>, image: Bytes, k: nat)
    requires |pieces| == Parts(|image|) && k <= |pieces| && 0 < |image|
    requires forall p | 0 <= p < |pieces| :: pieces[p] == Piece(image, p)
    ensures (if k < |pieces| then k * PIECE_SIZE else |image|) <= |image|
    ensures Joined(pieces[k..]) == image[if k < |pieces| then k * PIECE_SIZE else |image|..]
    decreases |pieces| - k
  {
    if k < |pieces| {
      JoinFrom(pieces, image, k + 1);
      assert pieces[k..][1..] == pieces[k + 1..];
      assert image[k * PIECE_SIZE..] == image[k * PIECE_SIZE..PieceEnd(|image|, k)] + image[PieceEnd(|image|, k)..];
    }
  }

  /** All the pieces of an image, in their places, are the image. */
  lemma JoinBack(pieces: seq<Bytes>, image: Bytes)
    requires |pieces| == Parts(|image|) && 0 < |image| && forall p | 0 <= p < |pieces| :: pieces[p] == Piece(image, p)
    ensures Joined(pieces) == image
  {
    JoinFrom(pieces, image, 0);
    assert pieces[0..] == pieces && image[0..] == image;
  }

  // ---- the assembly ----

  predicate PiecesOf(pieces: seq<Bytes>, image: Bytes) {
    && 0 < |image| <= MAX_IMAGE_SIZE && |pieces| == Parts(|image|)
    && (forall p {:trigger pieces[p]} | 0 <= p < |pieces| :: pieces[p] == [] || pieces[p] == Piece(image, p))
  }

  predicate AssemblyOk(images: Images, remote: Option<Key>, v: Assembly) {
    v.pieces != [] ==>
      && remote.Some? && v.received > 0
      && var image := images(remote.value.0, remote.value.1, v.received);
         v.size == |image| && PiecesOf(v.pieces, image) && v.have == Filled(v.pieces)
  }

  predicate ImageSize(image: Bytes) { 0 < |image| <= MAX_IMAGE_SIZE }

  /** The decoder runs exactly while it has a job: a whole image that was sent. */
  predicate JobOk(images: Images, job: Option<Job>, decoding: bool) {
    && (decoding <==> job.Some?)
    && (job.Some? ==>
          && job.value.image == images(job.value.peer, job.value.stream, job.value.sequence)
          && ImageSize(job.value.image) && job.value.sequence > 0)
  }

  lemma OpenedOk(images: Images, peer: Peer, v: Assembly, f: Frame)
    requires Sent(images, peer, f) && AssemblyOk(images, Some((peer, f.stream)), v) && !Refused(v, f)
    ensures AssemblyOk(images, Some((peer, f.stream)), Opened(v, f))
    ensures Opened(v, f).received == f.sequence
  {
    FilledNone(f.count);
  }

  lemma PlacedOk(image: Bytes, pieces: seq<Bytes>, p: nat)
    requires PiecesOf(pieces, image) && p < |pieces| && pieces[p] == []
    ensures PiecesOf(pieces[p := Piece(image, p)], image) && Filled(pieces[p := Piece(image, p)]) == Filled(pieces) + 1
  {
    FilledOneMore(pieces, p, Piece(image, p));
  }

  lemma CompleteIsImage(image: Bytes, pieces: seq<Bytes>)
    requires PiecesOf(pieces, image) && Filled(pieces) == |pieces|
    ensures Joined(pieces) == image
  {
    FilledAll(pieces);
    JoinBack(pieces, image);
  }

  /** A completed assembly is one image its peer sent, byte for byte. */
  lemma ReceiveKeeps(images: Images, peer: Peer, v: Assembly, f: Frame)
    requires Sent(images, peer, f) && AssemblyOk(images, Some((peer, f.stream)), v)
    ensures var (n, done) := ReceiveVideo(v, f);
      && AssemblyOk(images, Some((peer, f.stream)), n)
      && (done.Some? ==> done.value == images(peer, f.stream, f.sequence) && !v.decoding && n.decoding)
      && (done.None? ==> n.decoding == v.decoding) && n.displayed == v.displayed
  {
    if !Refused(v, f) {
      OpenedOk(images, peer, v, f);
      var o := Opened(v, f);
      var image := images(peer, f.stream, f.sequence);
      if o.size == f.size && |o.pieces| == f.count && o.pieces[f.part] == [] {
        PlacedOk(image, o.pieces, f.part);
        var pieces := o.pieces[f.part := f.payload];
        if o.have + 1 == f.count { CompleteIsImage(image, pieces); }
      }
    }
  }

  // ---- the service ----

  datatype Action =
    | Announced(peer: Peer, stream: Bytes)
    | Stopped(peer: Peer, stream: Bytes)
    | Part(peer: Peer, f: Frame)
    | Done(readable: bool)
    | Started(stream: Bytes)
    | Ended
    | Lost
    | Left

  /** The service, everything it has ever shown, and every stream it ever retired, oldest first. */
  datatype Watch = Watch(share: Share, shown: seq<(Key, nat)>, retired: seq<Key>)

  function StepShare(s: Share, a: Action): Share {
    match a
    case Announced(peer, stream) => HearAnnounce(s, peer, stream)
    case Stopped(peer, stream) => HearStop(s, peer, stream)
    case Part(peer, f) => HearVideo(s, peer, f)
    case Done(readable) => Decoded(s, readable).0
    case Started(stream) => if s.remote.Some? then s else StopSharing(s).(sharing := Some(stream))
    case Ended => StopSharing(s)
    case Lost => ClearRemote(s, false)
    case Left => ClearRemote(StopSharing(s), true)
  }

  /** What the step puts on the screen. */
  function Shows(s: Share, a: Action): seq<(Key, nat)> {
    if a.Done? && Decoded(s, a.readable).1.Some? then [((s.job.value.peer, s.job.value.stream), s.job.value.sequence)]
      else []
  }

  /** The stream, if any, that the step retired. */
  function NewlyStopped(before: Share, after: Share): seq<Key> {
    if after.order == before.order || after.order == [] then [] else [after.order[|after.order| - 1]]
  }

  function Step(w: Watch, a: Action): Watch {
    var n := StepShare(w.share, a);
    Watch(n, w.shown + Shows(w.share, a), w.retired + NewlyStopped(w.share, n))
  }

  function Run(w: Watch, actions: seq<Action>): Watch
    decreases |actions|
  {
    if actions == [] then w else Run(Step(w, actions[0]), actions[1..])
  }

  function Fresh(self: Peer): Watch { Watch(Share(self, None, None, NOTHING, None, {}, []), [], []) }

  /** Messages come from others, and pictures from sending loops. */
  predicate Honest(images: Images, self: Peer, a: Action) {
    && (a.Part? ==> Sent(images, a.peer, a.f))
    && (a.Part? || a.Announced? || a.Stopped? ==> a.peer != self)
  }

  predicate AllHonest(images: Images, self: Peer, actions: seq<Action>) {
    forall k {:trigger actions[k]} | 0 <= k < |actions| :: Honest(images, self, actions[k])
  }

  // ---- stopped streams ----

  function LastOf(n: nat, s: seq<Key>): seq<Key> { if |s| <= n then s else s[|s| - n..] }

  /** The set and the list agree, and hold the last 128 streams retired. */
  ghost predicate StoppedOk(s: Share, retired: seq<Key>) {
    && (forall k :: k in s.stopped <==> k in s.order)
    && (forall i, j :: 0 <= i < j < |s.order| ==> s.order[i] != s.order[j])
    && s.order == LastOf(MAX_STOPPED, retired)
  }

  lemma RetireKeeps(s: Share, retired: seq<Key>, key: Key)
    requires StoppedOk(s, retired)
    ensures var n := Retired(s, Some(key));
      StoppedOk(n, retired + NewlyStopped(s, n)) && key in n.stopped
  {
    var n := Retired(s, Some(key));
    if key !in s.stopped {
      assert n.order[|n.order| - 1] == key;
      if |s.order| >= MAX_STOPPED { OldestForgotten(s, n, key); }
      assert n.order == LastOf(MAX_STOPPED, retired + [key]);
    }
  }

  lemma OldestForgotten(s: Share, n: Share, key: Key)
    requires (forall k :: k in s.stopped <==> k in s.order) && key !in s.stopped && |s.order| == MAX_STOPPED
    requires forall i, j :: 0 <= i < j < |s.order| ==> s.order[i] != s.order[j]
    requires n == Retired(s, Some(key))
    ensures forall k :: k in n.stopped <==> k in n.order
    ensures forall i, j :: 0 <= i < j < |n.order| ==> n.order[i] != n.order[j]
  {
    forall k ensures k in n.stopped <==> k in n.order {
      assert s.order == [s.order[0]] + s.order[1..];
      if k == s.order[0] { assert k !in s.order[1..]; }
    }
    assert forall i | 0 <= i < |s.order| - 1 :: n.order[i] == s.order[i + 1];
  }

  // ---- what every step keeps ----

  predicate RemoteOk(s: Share) {
    && (s.remote.Some? ==> s.sharing.None? && s.remote.value !in s.stopped && s.remote.value.0 != s.self)
    && (s.remote.None? ==> s.video.displayed == 0)
    && (s.video.pieces == [] ==> s.video.received == 0)
  }

  predicate ShownOk(images: Images, self: Peer, shown: seq<(Key, nat)>) {
    forall k {:trigger shown[k]} | 0 <= k < |shown| ::
      && shown[k].1 > 0 && shown[k].0.0 != self && ImageSize(images(shown[k].0.0, shown[k].0.1, shown[k].1))
  }

  /** The number last shown of a stream, 0 before the first. */
  function LastShown(shown: seq<(Key, nat)>, key: Key): nat {
    if shown == [] then 0
    else if shown[|shown| - 1].0 == key then shown[|shown| - 1].1
    else LastShown(shown[..|shown| - 1], key)
  }

  predicate DisplayedOk(s: Share, shown: seq<(Key, nat)>) {
    s.remote.Some? && s.video.displayed > 0 ==> LastShown(shown, s.remote.value) == s.video.displayed
  }

  ghost predicate Inv(images: Images, w: Watch) {
    && AssemblyOk(images, w.share.remote, w.share.video) && JobOk(images, w.share.job, w.share.video.decoding)
    && StoppedOk(w.share, w.retired) && RemoteOk(w.share)
    && ShownOk(images, w.share.self, w.shown) && DisplayedOk(w.share, w.shown)
  }

  lemma Assemble(images: Images, w: Watch)
    requires AssemblyOk(images, w.share.remote, w.share.video) && JobOk(images, w.share.job, w.share.video.decoding)
    requires StoppedOk(w.share, w.retired) && RemoteOk(w.share)
    requires ShownOk(images, w.share.self, w.shown) && DisplayedOk(w.share, w.shown)
    ensures Inv(images, w)
  {
  }

  lemma PartKeeps(images: Images, w: Watch, peer: Peer, f: Frame)
    requires Inv(images, w) && Sent(images, peer, f) && peer != w.share.self
    ensures Inv(images, Step(w, Part(peer, f)))
  {
    var s := w.share;
    var n := Step(w, Part(peer, f));
    assert w.shown + [] == w.shown && w.retired + [] == w.retired;
    if (peer, f.stream) !in s.stopped && s.remote == Some((peer, f.stream)) { ReceiveKeeps(images, peer, s.video, f); }
    Assemble(images, n);
  }

  lemma ShownMore(shown: seq<(Key, nat)>, key: Key, n: nat)
    ensures LastShown(shown + [(key, n)], key) == n
  {
  }

  lemma DoneKeeps(images: Images, w: Watch, readable: bool)
    requires Inv(images, w)
    ensures Inv(images, Step(w, Done(readable)))
  {
    var n := Step(w, Done(readable));
    assert w.retired + [] == w.retired;
    if Shows(w.share, Done(readable)) == [] { assert n.shown == w.shown; } else {
      ShownMore(w.shown, w.share.remote.value, w.share.job.value.sequence);
    }
    Assemble(images, n);
  }

  predicate Switched(s: Share, n: Share) {
    && n.self == s.self && n.job == s.job && n.video.decoding == s.video.decoding
    && ((n.remote == s.remote && n.video == s.video) || (n.video.pieces == [] && n.video.displayed == 0))
  }

  /** Streams are retired and the watched one changes; nothing is shown. */
  lemma QuietKeeps(images: Images, w: Watch, s: Share)
    requires Inv(images, w) && RemoteOk(s) && Switched(w.share, s)
    requires StoppedOk(s, w.retired + NewlyStopped(w.share, s))
    ensures Inv(images, Watch(s, w.shown, w.retired + NewlyStopped(w.share, s)))
  {
    Assemble(images, Watch(s, w.shown, w.retired + NewlyStopped(w.share, s)));
  }

  lemma StopStopped(w: Watch, peer: Peer, stream: Bytes)
    requires StoppedOk(w.share, w.retired) && RemoteOk(w.share)
    ensures var n := HearStop(w.share, peer, stream);
      StoppedOk(n, w.retired + NewlyStopped(w.share, n)) && RemoteOk(n)
  {
    assert w.retired + [] == w.retired;
    RetireKeeps(w.share, w.retired, (peer, stream));
  }

  /** The local stream is retired when sharing ends; then nothing is watched. */
  lemma EndStopped(w: Watch)
    requires StoppedOk(w.share, w.retired) && RemoteOk(w.share)
    ensures var n := StopSharing(w.share);
      StoppedOk(n, w.retired + NewlyStopped(w.share, n)) && RemoteOk(n)
  {
    var s := w.share;
    assert w.retired + [] == w.retired;
    if s.sharing.Some? { RetireKeeps(s, w.retired, (s.self, s.sharing.value)); }
  }

  lemma ClearStopped(w: Watch, retire: bool)
    requires StoppedOk(w.share, w.retired) && RemoteOk(w.share)
    ensures var n := ClearRemote(w.share, retire);
      StoppedOk(n, w.retired + NewlyStopped(w.share, n)) && RemoteOk(n)
  {
    var s := w.share;
    assert w.retired + [] == w.retired;
    if s.remote.Some? { RetireKeeps(s, w.retired, s.remote.value); }
  }

  lemma AnnounceSharing(w: Watch, peer: Peer, stream: Bytes)
    requires StoppedOk(w.share, w.retired) && RemoteOk(w.share) && peer != w.share.self && w.share.sharing.Some?
    ensures var n := HearAnnounce(w.share, peer, stream);
      StoppedOk(n, w.retired + NewlyStopped(w.share, n)) && RemoteOk(n)
  {
    var n := HearAnnounce(w.share, peer, stream);
    assert w.retired + [] == w.retired;
    EndStopped(w);
    assert n.order == w.share.order || n.order == StopSharing(w.share).order;
  }

  lemma AnnounceWatching(w: Watch, peer: Peer, stream: Bytes)
    requires StoppedOk(w.share, w.retired) && RemoteOk(w.share) && peer != w.share.self && w.share.sharing.None?
    ensures var n := HearAnnounce(w.share, peer, stream);
      StoppedOk(n, w.retired + NewlyStopped(w.share, n)) && RemoteOk(n)
  {
    var n := HearAnnounce(w.share, peer, stream);
    assert w.retired + [] == w.retired;
    ClearStopped(w, true);
    assert n.order == w.share.order || n.order == ClearRemote(w.share, true).order;
  }

  /** At most one stream is retired at a time: what is watched, or what is shared. */
  lemma AnnounceStopped(w: Watch, peer: Peer, stream: Bytes)
    requires StoppedOk(w.share, w.retired) && RemoteOk(w.share) && peer != w.share.self
    ensures var n := HearAnnounce(w.share, peer, stream);
      StoppedOk(n, w.retired + NewlyStopped(w.share, n)) && RemoteOk(n)
  {
    if w.share.sharing.Some? { AnnounceSharing(w, peer, stream); } else { AnnounceWatching(w, peer, stream); }
  }

  lemma LeaveStopped(w: Watch)
    requires StoppedOk(w.share, w.retired) && RemoteOk(w.share)
    ensures var n := ClearRemote(StopSharing(w.share), true);
      StoppedOk(n, w.retired + NewlyStopped(w.share, n)) && RemoteOk(n)
  {
    if w.share.sharing.Some? { EndStopped(w); } else { ClearStopped(w, true); }
  }

  lemma StartStopped(w: Watch, stream: Bytes)
    requires StoppedOk(w.share, w.retired) && RemoteOk(w.share)
    ensures var n := StepShare(w.share, Started(stream));
      StoppedOk(n, w.retired + NewlyStopped(w.share, n)) && RemoteOk(n)
  {
    assert w.retired + [] == w.retired;
    EndStopped(w);
    var n, idle := StepShare(w.share, Started(stream)), StopSharing(w.share);
    if w.share.remote.None? { assert n.order == idle.order && n.stopped == idle.stopped && n.remote == idle.remote; }
  }

  lemma LocalStopped(w: Watch, a: Action)
    requires StoppedOk(w.share, w.retired) && RemoteOk(w.share) && (a.Started? || a.Ended? || a.Lost? || a.Left?)
    ensures var n := StepShare(w.share, a);
      StoppedOk(n, w.retired + NewlyStopped(w.share, n)) && RemoteOk(n)
  {
    match a {
      case Started(stream) => StartStopped(w, stream);
      case Ended => EndStopped(w);
      case Lost => ClearStopped(w, false);
      case Left => LeaveStopped(w);
      case _ =>
    }
  }

  lemma OthersSwitch(s: Share, a: Action)
    requires !a.Part? && !a.Done?
    ensures Switched(s, StepShare(s, a)) && Shows(s, a) == []
  {
  }

  lemma OthersStopped(w: Watch, a: Action)
    requires StoppedOk(w.share, w.retired) && RemoteOk(w.share) && !a.Part? && !a.Done?
    requires a.Announced? ==> a.peer != w.share.self
    ensures var n := StepShare(w.share, a);
      StoppedOk(n, w.retired + NewlyStopped(w.share, n)) && RemoteOk(n)
  {
    match a {
      case Announced(peer, stream) => AnnounceStopped(w, peer, stream);
      case Stopped(peer, stream) => StopStopped(w, peer, stream);
      case _ => LocalStopped(w, a);
    }
  }

  lemma StepKeeps(images: Images, w: Watch, a: Action)
    requires Inv(images, w) && Honest(images, w.share.self, a)
    ensures Inv(images, Step(w, a)) && Step(w, a).share.self == w.share.self
  {
    if a.Part? { PartKeeps(images, w, a.peer, a.f); }
    else if a.Done? { DoneKeeps(images, w, a.readable); }
    else {
      OthersSwitch(w.share, a);
      OthersStopped(w, a);
      assert w.shown + [] == w.shown;
      QuietKeeps(images, w, StepShare(w.share, a));
    }
  }

  lemma {:induction false} RunKeeps(images: Images, w: Watch, actions: seq<Action>)
    requires Inv(images, w) && AllHonest(images, w.share.self, actions)
    ensures Inv(images, Run(w, actions)) && Run(w, actions).share.self == w.share.self
    decreases |actions|
  {
    if actions != [] {
      StepKeeps(images, w, actions[0]);
      RunKeeps(images, Step(w, actions[0]), actions[1..]);
    }
  }

  /** Whatever arrives, in whatever order: what is decoded and what was ever shown are images that were sent. */
  lemma OnlySentImages(images: Images, self: Peer, actions: seq<Action>)
    requires AllHonest(images, self, actions)
    ensures var w := Run(Fresh(self), actions);
      && (w.share.job.Some? ==>
            w.share.job.value.image
              == images(w.share.job.value.peer, w.share.job.value.stream, w.share.job.value.sequence))
      && ShownOk(images, self, w.shown)
  {
    RunKeeps(images, Fresh(self), actions);
  }

  /** A stopped stream is not watched, and it stays stopped exactly while it is one of the last 128 that were. */
  lemma StoppedStaysAway(images: Images, self: Peer, actions: seq<Action>, key: Key)
    requires AllHonest(images, self, actions)
    ensures var w := Run(Fresh(self), actions);
      && (key in w.share.stopped <==> key in LastOf(MAX_STOPPED, w.retired))
      && (key in w.share.stopped ==> w.share.remote != Some(key))
  {
    RunKeeps(images, Fresh(self), actions);
  }

  /** An image within the size limit needs at most 88 parts. */
  lemma PartLimit(size: nat)
    requires size <= MAX_IMAGE_SIZE
    ensures Parts(size) <= MAX_PARTS && (size > (MAX_PARTS - 1) * PIECE_SIZE ==> Parts(size) == MAX_PARTS)
  {
  }
}
