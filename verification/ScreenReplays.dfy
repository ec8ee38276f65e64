/** When the pictures of a stream can go back: exactly which states rule it out. */
module ScreenReplays {
  import opened Wrappers
  import opened CompactStream
  import opened ScreenShare
  import opened ScreenShareProofs

  // ---- continuations ----

  /** A stopped stream is not forgotten along the way, as it is once 128 others have been stopped. */
  predicate Remembers(w: Watch, actions: seq<Action>, key: Key)
    decreases |actions|
  {
    actions == []
    || ((key in w.share.stopped ==> key in Step(w, actions[0]).share.stopped)
        && Remembers(Step(w, actions[0]), actions[1..], key))
  }

  /** The link to the watched peer is not lost, and the peer does not fall silent. */
  predicate Linked(actions: seq<Action>) { forall k {:trigger actions[k]} | 0 <= k < |actions| :: !actions[k].Lost? }

  /** From position `from` on, only larger numbers of the stream were shown. */
  predicate OnlyLarger(shown: seq<(Key, nat)>, from: nat, key: Key, d: nat) {
    forall k {:trigger shown[k]} | from <= k < |shown| && shown[k].0 == key :: shown[k].1 > d
  }

  /** However it goes on, the stream's pictures never go back to the last one shown, or before it. */
  ghost predicate NeverBack(images: Images, w: Watch, key: Key) {
    forall actions {:trigger Run(w, actions)} | AllHonest(images, w.share.self, actions)
      && Remembers(w, actions, key) ::
      OnlyLarger(Run(w, actions).shown, |w.shown|, key, LastShown(w.shown, key))
  }

  /** The same, as long as the link lasts. */
  ghost predicate NeverBackLinked(images: Images, w: Watch, key: Key) {
    forall actions {:trigger Run(w, actions)}
      | AllHonest(images, w.share.self, actions) && Remembers(w, actions, key) && Linked(actions) ::
      OnlyLarger(Run(w, actions).shown, |w.shown|, key, LastShown(w.shown, key))
  }

  // ---- the condition ----

  /** The image `d` cannot be put together any more: a newer one has begun, or all its parts were here already. */
  predicate PastImage(v: Assembly, d: nat) { v.received > d || (v.received == d && v.have == |v.pieces|) }

  /** The decoder still works on an image of the stream that is not newer than `d` and would be shown. */
  predicate StaleJob(s: Share, key: Key, d: nat) {
    s.job.Some? && (s.job.value.peer, s.job.value.stream) == key && s.video.displayed < s.job.value.sequence <= d
  }

  /** The stream is watched, and has caught up with `d`, or can only go past it. */
  predicate Ahead(s: Share, key: Key, d: nat) {
    s.remote == Some(key) && (s.video.displayed >= d || (PastImage(s.video, d) && !StaleJob(s, key, d)))
  }

  // ---- ahead stays ahead ----

  lemma LeavingRetires(s: Share, retired: seq<Key>, a: Action, key: Key)
    requires StoppedOk(s, retired) && RemoteOk(s) && s.remote == Some(key) && !a.Part? && !a.Done? && !a.Lost?
    ensures var n := StepShare(s, a);
      (n.remote == s.remote && n.video == s.video && n.job == s.job) || key in n.stopped
  {
  }

  lemma PartAhead(images: Images, w: Watch, peer: Peer, f: Frame, key: Key, d: nat)
    requires Inv(images, w) && Sent(images, peer, f) && d > 0 && Ahead(w.share, key, d)
    ensures Ahead(Step(w, Part(peer, f)).share, key, d)
  {
    var s := w.share;
    if (peer, f.stream) == key && !Refused(s.video, f) {
      FullHasAll(images, s.video, key);
    }
  }

  /** In a full assembly there is no gap to fill. */
  lemma FullHasAll(images: Images, v: Assembly, key: Key)
    requires AssemblyOk(images, Some(key), v)
    ensures v.pieces != [] && v.have == |v.pieces| ==> forall p | 0 <= p < |v.pieces| :: v.pieces[p] != []
  {
    FilledAll(v.pieces);
  }

  lemma DoneAhead(images: Images, w: Watch, readable: bool, key: Key, d: nat)
    requires Inv(images, w) && d > 0 && Ahead(w.share, key, d)
    ensures Ahead(Step(w, Done(readable)).share, key, d) && OnlyLarger(Shows(w.share, Done(readable)), 0, key, d)
  {
  }

  predicate Safe(s: Share, key: Key, d: nat) { key in s.stopped || Ahead(s, key, d) }

  lemma StepSafe(images: Images, w: Watch, a: Action, key: Key, d: nat)
    requires Inv(images, w) && Honest(images, w.share.self, a) && !a.Lost? && d > 0 && Safe(w.share, key, d)
    requires key in w.share.stopped ==> key in Step(w, a).share.stopped
    ensures Safe(Step(w, a).share, key, d) && OnlyLarger(Shows(w.share, a), 0, key, d)
  {
    if key !in w.share.stopped {
      if a.Part? { PartAhead(images, w, a.peer, a.f, key, d); }
      else if a.Done? { DoneAhead(images, w, a.readable, key, d); }
      else { LeavingRetires(w.share, w.retired, a, key); }
    }
  }

  lemma LargerFurther(a: seq<(Key, nat)>, b: seq<(Key, nat)>, more: seq<(Key, nat)>, key: Key, d: nat)
    requires OnlyLarger(b, 0, key, d) && OnlyLarger(a + b + more, |a + b|, key, d)
    ensures OnlyLarger(a + b + more, |a|, key, d)
  {
    var all := a + b + more;
    forall k | |a| <= k < |all| && all[k].0 == key ensures all[k].1 > d {
      if k < |a + b| { assert all[k] == b[k - |a|]; }
    }
  }

  lemma {:induction false} ShownGrows(w: Watch, actions: seq<Action>)
    ensures |w.shown| <= |Run(w, actions).shown| && Run(w, actions).shown[..|w.shown|] == w.shown
    decreases |actions|
  {
    if actions != [] {
      var m := Step(w, actions[0]);
      ShownGrows(m, actions[1..]);
      assert m.shown[..|w.shown|] == w.shown;
    }
  }

  lemma StepThenRest(w: Watch, a: Action, rest: seq<Action>, key: Key, d: nat)
    requires OnlyLarger(Shows(w.share, a), 0, key, d)
    requires OnlyLarger(Run(Step(w, a), rest).shown, |Step(w, a).shown|, key, d)
    ensures OnlyLarger(Run(Step(w, a), rest).shown, |w.shown|, key, d)
  {
    var m, n := Step(w, a), Run(Step(w, a), rest);
    ShownGrows(m, rest);
    assert n.shown == w.shown + Shows(w.share, a) + n.shown[|m.shown|..];
    LargerFurther(w.shown, Shows(w.share, a), n.shown[|m.shown|..], key, d);
  }

  lemma {:induction false} StaysSafe(images: Images, w: Watch, actions: seq<Action>, key: Key, d: nat)
    requires Inv(images, w) && AllHonest(images, w.share.self, actions) && Linked(actions)
    requires Remembers(w, actions, key) && d > 0 && Safe(w.share, key, d)
    ensures OnlyLarger(Run(w, actions).shown, |w.shown|, key, d)
    decreases |actions|
  {
    if actions != [] {
      var m := Step(w, actions[0]);
      StepKeeps(images, w, actions[0]);
      StepSafe(images, w, actions[0], key, d);
      StaysSafe(images, m, actions[1..], key, d);
      StepThenRest(w, actions[0], actions[1..], key, d);
    }
  }

  lemma {:induction false} StaysStopped(images: Images, w: Watch, actions: seq<Action>, key: Key, d: nat)
    requires Inv(images, w) && AllHonest(images, w.share.self, actions)
    requires Remembers(w, actions, key) && key in w.share.stopped
    ensures OnlyLarger(Run(w, actions).shown, |w.shown|, key, d)
    decreases |actions|
  {
    if actions != [] {
      var m := Step(w, actions[0]);
      StepKeeps(images, w, actions[0]);
      StaysStopped(images, m, actions[1..], key, d);
      StepThenRest(w, actions[0], actions[1..], key, d);
    }
  }

  // ---- the way back ----

  /** The actions lead from `w` to `n`, and the stream is not stopped on the way. */
  ghost predicate Leads(images: Images, w: Watch, actions: seq<Action>, n: Watch, key: Key) {
    && Inv(images, w) && Inv(images, n) && key !in w.share.stopped && key !in n.share.stopped
    && AllHonest(images, w.share.self, actions) && Remembers(w, actions, key) && Run(w, actions) == n
    && n.share.self == w.share.self
  }

  lemma OneLeads(images: Images, w: Watch, a: Action, key: Key)
    requires Inv(images, w) && Honest(images, w.share.self, a)
    requires key !in w.share.stopped && key !in Step(w, a).share.stopped
    ensures Leads(images, w, [a], Step(w, a), key)
  {
    StepKeeps(images, w, a);
    assert [a][1..] == [];
    assert Run(w, [a]) == Run(Step(w, a), []);
    assert Remembers(Step(w, a), [], key);
  }

  lemma NothingLeads(images: Images, w: Watch, key: Key)
    requires Inv(images, w) && key !in w.share.stopped
    ensures Leads(images, w, [], w, key)
  {
  }

  lemma {:induction false} RunOn(w: Watch, a: seq<Action>, b: seq<Action>, key: Key)
    ensures Run(w, a + b) == Run(Run(w, a), b)
    ensures Remembers(w, a, key) && Remembers(Run(w, a), b, key) ==> Remembers(w, a + b, key)
    decreases |a|
  {
    if a == [] {
      assert a + b == b;
    } else {
      assert (a + b)[1..] == a[1..] + b && (a + b)[0] == a[0];
      RunOn(Step(w, a[0]), a[1..], b, key);
    }
  }

  lemma LeadsOn(images: Images, w: Watch, a: seq<Action>, m: Watch, b: seq<Action>, n: Watch, key: Key)
    requires Leads(images, w, a, m, key) && Leads(images, m, b, n, key)
    ensures Leads(images, w, a + b, n, key)
    ensures Linked(a) && Linked(b) ==> Linked(a + b)
  {
    RunOn(w, a, b, key);
  }

  /** The first `k` parts of image `d` have been fed: it is with the decoder, or still has gaps, none among those. */
  predicate Fed(s: Share, key: Key, d: nat, image: Bytes, k: nat) {
    && s.remote == Some(key) && s.video.displayed < d
    && (|| s.job == Some(Job(key.0, key.1, d, image))
        || (s.job.None? && !PastImage(s.video, d)
            && (k > 0 ==> s.video.received == d)
            && (s.video.received == d ==> forall i | 0 <= i < k && i < |s.video.pieces| :: s.video.pieces[i] != [])))
  }

  function PartOf(key: Key, d: nat, image: Bytes, k: nat): Action
    requires k < Parts(|image|)
  {
    Part(key.0, Fragment(key.1, d, image, k))
  }

  predicate CanFeed(images: Images, w: Watch, key: Key, d: nat, image: Bytes) {
    && key !in w.share.stopped && key.0 != w.share.self && d > 0
    && image == images(key.0, key.1, d) && ImageSize(image)
  }

  lemma AllowedPart(v: Assembly, key: Key, d: nat, image: Bytes, k: nat)
    requires d > 0 && ImageSize(image) && k < Parts(|image|)
    ensures Refused(v, Fragment(key.1, d, image, k)) <==> d < v.received || d <= v.displayed
  {
    PartLimit(|image|);
    assert |Piece(image, k)| == PieceEnd(|image|, k) - k * PIECE_SIZE;
  }

  lemma FeedOne(images: Images, w: Watch, key: Key, d: nat, image: Bytes, k: nat)
    requires Inv(images, w) && CanFeed(images, w, key, d, image) && k < Parts(|image|) && Fed(w.share, key, d, image, k)
    ensures Fed(Step(w, PartOf(key, d, image, k)).share, key, d, image, k + 1)
    ensures Step(w, PartOf(key, d, image, k)).share.stopped == w.share.stopped
  {
    var s, f := w.share, Fragment(key.1, d, image, k);
    AllowedPart(s.video, key, d, image, k);
    ReceiveKeeps(images, key.0, s.video, f);
    if s.job.None? && !Refused(s.video, f) { OpenedOk(images, key.0, s.video, f); }
  }

  /** The actions lead to a state in which the first `k` parts have been fed. */
  ghost predicate Feeds(images: Images, w: Watch, feed: seq<Action>, key: Key, d: nat, image: Bytes, k: nat) {
    Leads(images, w, feed, Run(w, feed), key) && Linked(feed) && Fed(Run(w, feed).share, key, d, image, k)
  }

  lemma FeedNone(images: Images, w: Watch, key: Key, d: nat, image: Bytes)
    requires Inv(images, w) && CanFeed(images, w, key, d, image) && Fed(w.share, key, d, image, 0)
    ensures Feeds(images, w, [], key, d, image, 0)
  {
    NothingLeads(images, w, key);
  }

  lemma FeedNext(images: Images, w: Watch, feed: seq<Action>, key: Key, d: nat, image: Bytes, k: nat)
    requires CanFeed(images, w, key, d, image) && k < Parts(|image|) && Feeds(images, w, feed, key, d, image, k)
    ensures Feeds(images, w, feed + [PartOf(key, d, image, k)], key, d, image, k + 1)
  {
    var m, part := Run(w, feed), PartOf(key, d, image, k);
    FeedOne(images, m, key, d, image, k);
    OneLeads(images, m, part, key);
    LeadsOn(images, w, feed, m, [part], Step(m, part), key);
  }

  lemma Feed(images: Images, w: Watch, key: Key, d: nat, image: Bytes) returns (feed: seq<Action>)
    requires Inv(images, w) && CanFeed(images, w, key, d, image) && Fed(w.share, key, d, image, 0)
    ensures Feeds(images, w, feed, key, d, image, Parts(|image|))
  {
    FeedNone(images, w, key, d, image);
    feed := [];
    for k := 0 to Parts(|image|)
      invariant Feeds(images, w, feed, key, d, image, k)
    {
      FeedNext(images, w, feed, key, d, image, k);
      feed := feed + [PartOf(key, d, image, k)];
    }
  }

  lemma {:induction false} FilledWithAll(pieces: seq<Bytes>)
    requires forall p | 0 <= p < |pieces| :: pieces[p] != []
    ensures Filled(pieces) == |pieces|
  {
    if pieces != [] {
      forall p | 0 <= p < |pieces| - 1 ensures pieces[1..][p] != [] { assert pieces[1..][p] == pieces[p + 1]; }
      FilledWithAll(pieces[1..]);
    }
  }

  /** With all its parts fed, the image is with the decoder. */
  lemma AllFed(images: Images, w: Watch, key: Key, d: nat, image: Bytes)
    requires Inv(images, w) && CanFeed(images, w, key, d, image) && Fed(w.share, key, d, image, Parts(|image|))
    ensures w.share.job == Some(Job(key.0, key.1, d, image))
  {
    if w.share.job.None? {
      FilledWithAll(w.share.video.pieces);
    }
  }

  /** From here the image `d` can be shown. */
  lemma ReplayFed(images: Images, w: Watch, key: Key, d: nat) returns (actions: seq<Action>)
    requires Inv(images, w) && CanFeed(images, w, key, d, images(key.0, key.1, d))
    requires w.share.remote == Some(key) && w.share.video.displayed < d && w.share.job.None?
      && !PastImage(w.share.video, d)
    ensures Leads(images, w, actions, Run(w, actions), key) && Linked(actions)
    ensures !OnlyLarger(Run(w, actions).shown, |w.shown|, key, d)
  {
    var image := images(key.0, key.1, d);
    var feed := Feed(images, w, key, d, image);
    var m := Run(w, feed);
    AllFed(images, m, key, d, image);
    ShownGrows(w, feed);
    OneLeads(images, m, Done(true), key);
    var n := Step(m, Done(true));
    LeadsOn(images, w, feed, m, [Done(true)], n, key);
    assert n.shown[|m.shown|] == (key, d);
    actions := feed + [Done(true)];
  }

  /** A decoder that is busy can finish with nothing to show. */
  lemma DecoderFreed(images: Images, w: Watch, key: Key)
    requires Inv(images, w) && key !in w.share.stopped
    ensures var n := Step(w, Done(false));
      && Leads(images, w, [Done(false)], n, key) && n.share.job.None? && n.shown == w.shown
      && n.share.remote == w.share.remote && n.share.sharing == w.share.sharing
      && n.share.video == w.share.video.(decoding := false)
  {
    OneLeads(images, w, Done(false), key);
    assert w.shown + [] == w.shown;
  }

  lemma LeadsTo(images: Images, w: Watch, a: seq<Action>, m: Watch, b: seq<Action>, key: Key, d: nat)
    requires Leads(images, w, a, m, key) && Leads(images, m, b, Run(m, b), key)
    requires !OnlyLarger(Run(m, b).shown, |m.shown|, key, d)
    ensures Leads(images, w, a + b, Run(w, a + b), key) && !OnlyLarger(Run(w, a + b).shown, |w.shown|, key, d)
    ensures Linked(a) && Linked(b) ==> Linked(a + b)
  {
    LeadsOn(images, w, a, m, b, Run(m, b), key);
    ShownGrows(w, a);
  }

  /** A watched stream that is not ahead goes back without any change of the link. */
  lemma ReplayWatched(images: Images, w: Watch, key: Key, d: nat) returns (actions: seq<Action>)
    requires Inv(images, w) && CanFeed(images, w, key, d, images(key.0, key.1, d))
    requires w.share.remote == Some(key) && !Ahead(w.share, key, d)
    ensures Leads(images, w, actions, Run(w, actions), key) && Linked(actions)
    ensures !OnlyLarger(Run(w, actions).shown, |w.shown|, key, d)
  {
    if StaleJob(w.share, key, d) {
      OneLeads(images, w, Done(true), key);
      actions := [Done(true)];
      assert Run(w, actions) == Step(w, Done(true));
      assert Run(w, actions).shown[|w.shown|].0 == key;
    } else {
      DecoderFreed(images, w, key);
      var m := Step(w, Done(false));
      var rest := ReplayFed(images, m, key, d);
      LeadsTo(images, w, [Done(false)], m, rest, key, d);
      actions := [Done(false)] + rest;
    }
  }

  /** With nothing watched or shared, an announcement is all it takes. */
  lemma ReplayIdle(images: Images, w: Watch, key: Key, d: nat) returns (actions: seq<Action>)
    requires Inv(images, w) && CanFeed(images, w, key, d, images(key.0, key.1, d))
    requires w.share.remote.None? && w.share.sharing.None?
    ensures Leads(images, w, actions, Run(w, actions), key) && Linked(actions)
    ensures !OnlyLarger(Run(w, actions).shown, |w.shown|, key, d)
  {
    var hear := Announced(key.0, key.1);
    OneLeads(images, w, hear, key);
    var m := Step(w, hear);
    DecoderFreed(images, m, key);
    var c := Step(m, Done(false));
    var rest := ReplayFed(images, c, key, d);
    LeadsTo(images, m, [Done(false)], c, rest, key, d);
    LeadsTo(images, w, [hear], m, [Done(false)] + rest, key, d);
    actions := [hear] + ([Done(false)] + rest);
  }

  /** Sharing can be ended first. */
  lemma ReplayUnwatched(images: Images, w: Watch, key: Key, d: nat) returns (actions: seq<Action>)
    requires Inv(images, w) && CanFeed(images, w, key, d, images(key.0, key.1, d)) && w.share.remote.None?
    ensures Leads(images, w, actions, Run(w, actions), key) && Linked(actions)
    ensures !OnlyLarger(Run(w, actions).shown, |w.shown|, key, d)
  {
    OneLeads(images, w, Ended, key);
    var m := Step(w, Ended);
    var rest := ReplayIdle(images, m, key, d);
    LeadsTo(images, w, [Ended], m, rest, key, d);
    actions := [Ended] + rest;
  }

  /** A stream that is neither stopped nor watched comes back once the one that is watched stops. */
  lemma ReplayOther(images: Images, w: Watch, key: Key, d: nat) returns (actions: seq<Action>)
    requires Inv(images, w) && CanFeed(images, w, key, d, images(key.0, key.1, d)) && w.share.remote != Some(key)
    ensures Leads(images, w, actions, Run(w, actions), key) && Linked(actions)
    ensures !OnlyLarger(Run(w, actions).shown, |w.shown|, key, d)
  {
    if w.share.remote.None? { actions := ReplayUnwatched(images, w, key, d); } else {
      var stop := Stopped(w.share.remote.value.0, w.share.remote.value.1);
      OneLeads(images, w, stop, key);
      var m := Step(w, stop);
      var rest := ReplayUnwatched(images, m, key, d);
      LeadsTo(images, w, [stop], m, rest, key, d);
      actions := [stop] + rest;
    }
  }

  /** Losing the link brings any stream back that is not stopped. */
  lemma ReplayLost(images: Images, w: Watch, key: Key, d: nat) returns (actions: seq<Action>)
    requires Inv(images, w) && CanFeed(images, w, key, d, images(key.0, key.1, d))
    ensures Leads(images, w, actions, Run(w, actions), key)
    ensures !OnlyLarger(Run(w, actions).shown, |w.shown|, key, d)
  {
    OneLeads(images, w, Lost, key);
    var m := Step(w, Lost);
    var rest := ReplayUnwatched(images, m, key, d);
    LeadsTo(images, w, [Lost], m, rest, key, d);
    actions := [Lost] + rest;
  }

  lemma {:induction false} WasShown(images: Images, self: Peer, shown: seq<(Key, nat)>, key: Key)
    requires ShownOk(images, self, shown) && LastShown(shown, key) > 0
    ensures key.0 != self && ImageSize(images(key.0, key.1, LastShown(shown, key)))
  {
    if shown[|shown| - 1].0 != key { WasShown(images, self, shown[..|shown| - 1], key); }
  }

  // ---- the theorems ----

  /** A stream that was shown can go back to its last picture or before it exactly if it is not stopped. */
  lemma NeverBackIffStopped(images: Images, w: Watch, key: Key)
    requires Inv(images, w) && LastShown(w.shown, key) > 0
    ensures NeverBack(images, w, key) <==> key in w.share.stopped
  {
    var d := LastShown(w.shown, key);
    if key in w.share.stopped {
      forall actions | AllHonest(images, w.share.self, actions) && Remembers(w, actions, key)
        ensures OnlyLarger(Run(w, actions).shown, |w.shown|, key, d)
      {
        StaysStopped(images, w, actions, key, d);
      }
    } else {
      WasShown(images, w.share.self, w.shown, key);
      var actions := ReplayLost(images, w, key, d);
      assert !OnlyLarger(Run(w, actions).shown, |w.shown|, key, d);
    }
  }

  /** While the link lasts, exactly if it is neither stopped nor ahead of that picture. */
  lemma NeverBackLinkedIff(images: Images, w: Watch, key: Key)
    requires Inv(images, w) && LastShown(w.shown, key) > 0
    ensures NeverBackLinked(images, w, key) <==> key in w.share.stopped || Ahead(w.share, key, LastShown(w.shown, key))
  {
    var d := LastShown(w.shown, key);
    if Safe(w.share, key, d) {
      forall actions | AllHonest(images, w.share.self, actions) && Remembers(w, actions, key) && Linked(actions)
        ensures OnlyLarger(Run(w, actions).shown, |w.shown|, key, d)
      {
        StaysSafe(images, w, actions, key, d);
      }
    } else {
      WasShown(images, w.share.self, w.shown, key);
      var actions;
      if w.share.remote == Some(key) { actions := ReplayWatched(images, w, key, d); }
      else { actions := ReplayOther(images, w, key, d); }
      assert !OnlyLarger(Run(w, actions).shown, |w.shown|, key, d);
    }
  }

  /** A picture just shown is the last the stream goes back to: while the link lasts, all later ones are newer. */
  lemma ShownIsAhead(images: Images, w: Watch, readable: bool)
    requires Inv(images, w) && Shows(w.share, Done(readable)) != []
    ensures var n := Step(w, Done(readable)); var (key, d) := Shows(w.share, Done(readable))[0];
      LastShown(n.shown, key) == d && NeverBackLinked(images, n, key)
  {
    var n := Step(w, Done(readable));
    var (key, d) := Shows(w.share, Done(readable))[0];
    StepKeeps(images, w, Done(readable));
    ShownMore(w.shown, key, d);
    NeverBackLinkedIff(images, n, key);
  }

  // ---- the input ----

  predicate Empty(v: Assembly) { v.received == 0 && v.displayed == 0 && v.pieces == [] && !v.decoding }

  /** Nothing is watched, shared or decoded. */
  predicate Idle(s: Share) { s.remote.None? && s.sharing.None? && s.job.None? && Empty(s.video) }

  lemma OnePart(s: Share, key: Key, d: nat, image: Bytes)
    requires s.remote == Some(key) && Empty(s.video) && s.job.None? && key !in s.stopped && d > 0
    requires 0 < |image| <= PIECE_SIZE
    ensures var n := StepShare(s, PartOf(key, d, image, 0));
      && n.job == Some(Job(key.0, key.1, d, image)) && n == s.(job := n.job, video := n.video)
      && n.video.displayed == 0
  {
    AllowedPart(s.video, key, d, image, 0);
    assert Piece(image, 0) == image;
    assert [image][1..] == [] && Joined([image]) == image + [] == image;
    var o := Opened(s.video, Fragment(key.1, d, image, 0));
    assert |o.pieces| == 1 && o.pieces[0 := image] == [image];
  }

  /** A stream is announced, and a picture of it shown. */
  function OnePicture(key: Key, d: nat, image: Bytes): seq<Action>
    requires 0 < |image| <= PIECE_SIZE
  {
    [Announced(key.0, key.1), PartOf(key, d, image, 0), Done(true)]
  }

  lemma PictureShown(w: Watch, key: Key, d: nat, image: Bytes)
    requires Idle(w.share) && key !in w.share.stopped && key.0 != w.share.self && d > 0 && 0 < |image| <= PIECE_SIZE
    ensures var n := Run(w, OnePicture(key, d, image));
      && n.shown == w.shown + [(key, d)] && n.share.job.None? && !n.share.video.decoding
      && n.share.stopped == w.share.stopped && n.share.self == w.share.self && n.share.sharing.None?
  {
    var a := Step(w, Announced(key.0, key.1));
    var b := Step(a, PartOf(key, d, image, 0));
    OnePart(a.share, key, d, image);
    assert b.shown == w.shown;
    var actions := OnePicture(key, d, image);
    assert actions[1..][1..][1..] == [];
    assert Run(w, actions) == Run(a, actions[1..]) == Run(b, actions[1..][1..]);
    var c := Step(b, Done(true));
    assert Run(b, actions[1..][1..]) == c;
    assert c.shown == b.shown + [(key, d)];
  }

  /** The second picture of a stream, then its first: between them the link was lost, and the stream announced again. */
  lemma PicturesGoBack(self: Peer, key: Key, one: Bytes, two: Bytes)
    requires key.0 != self && 0 < |one| <= PIECE_SIZE && 0 < |two| <= PIECE_SIZE
    ensures Run(Fresh(self), OnePicture(key, 2, two) + ([Lost] + OnePicture(key, 1, one))).shown == [(key, 2), (key, 1)]
  {
    var rest := [Lost] + OnePicture(key, 1, one);
    RunOn(Fresh(self), OnePicture(key, 2, two), rest, key);
    PictureShown(Fresh(self), key, 2, two);
    var a := Run(Fresh(self), OnePicture(key, 2, two));
    AfterLost(a, OnePicture(key, 1, one));
    PictureShown(Step(a, Lost), key, 1, one);
  }

  lemma AfterLost(w: Watch, rest: seq<Action>)
    requires w.share.sharing.None? && w.share.job.None? && !w.share.video.decoding
    ensures Run(w, [Lost] + rest) == Run(Step(w, Lost), rest)
    ensures var n := Step(w, Lost);
      && Idle(n.share) && n.shown == w.shown && n.share.stopped == w.share.stopped && n.share.self == w.share.self
  {
    assert ([Lost] + rest)[1..] == rest;
  }
}
