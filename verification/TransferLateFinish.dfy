/**
 The other way an old offer does harm once the dismissed entry is forgotten: it can come between the
 acknowledgement of the whole file and the Finish, which then finds an empty file. One chunk is enough.
 */
module TransferLateFinish {
  import opened Wrappers
  import opened TransferProtocol
  import opened TransferSystem
  import opened TransferProofs
  import opened TransferTheorems
  import opened TransferForgotten

  predicate Short(f: File) { 0 < |f.content| <= CHUNK_SIZE }

  // ---- the states on the way ----

  function Size(f: File): nat { |f.content| }

  function SenderAt(h: Hash, f: File, phase: Phase, acked: nat, sent: nat, lastOffer: int): Endpoint {
    Endpoint(Some(Transfer(true, phase, f.name, Size(f), acked, sent, lastOffer, h(f.content), f.content, None,
                           Source0(f, sent), None)), None, true, None)
  }

  /** The receiver with the whole file, not yet committed. */
  function Whole(h: Hash, f: File, reply: Option<Message>): Endpoint {
    Endpoint(Some(Transfer(false, Receiving, f.name, Size(f), Size(f), 0, -2000, h(f.content), f.content, reply, None,
                           Some(f.content))), None, true, None)
  }

  function Empty(h: Hash, f: File, reply: Option<Message>): Endpoint {
    UNHEARD.(entry := Some(Entry(h, f, Receiving, reply, Some([]))))
  }

  function At(now: int, link: seq<bool>): Tick { Tick(now, 0, 1, 1, link) }

  // ---- the whole file acknowledged ----

  lemma Asked(h: Hash, f: File)
    requires Short(f)
    ensures Reachable(h, f, Linked(SenderAt(h, f, Offered, 0, 0, 0),
      UNHEARD.(entry := Some(Entry(h, f, Incoming, None, None))), [], [], false))
  {
    OfferedOnce(h, f);
    var sys := Linked(Offering(h, f, 0), UNHEARD, [OfferOf(h, f)], [], false);
    Further(h, f, sys, Deliver(Side.Receiver, Good(), true));
    var n := Apply(h, sys, Deliver(Side.Receiver, Good(), true));
    assert n.r == UNHEARD.(entry := Some(Entry(h, f, Incoming, None, None))) && n.toR == [] && n.toS == [];
  }

  lemma Accepting(h: Hash, f: File)
    requires Short(f)
    ensures Reachable(h, f, Linked(SenderAt(h, f, Offered, 0, 0, 0), Empty(h, f, None), [], [Accept(0)], false))
  {
    Asked(h, f);
    var sys := Linked(SenderAt(h, f, Offered, 0, 0, 0), UNHEARD.(entry := Some(Entry(h, f, Incoming, None, None))),
                      [], [], false);
    Further(h, f, sys, UserAccept(true));
    var n := Apply(h, sys, UserAccept(true));
    assert n.r == Empty(h, f, Some(Accept(0)));
    Further(h, f, n, Timer(Side.Receiver, At(0, [true])));
    assert Pump(h, n.r, At(0, [true])) == Reaction(Empty(h, f, None), [Accept(0)]);
  }

  lemma OneChunk(h: Hash, f: File, tick: Tick)
    requires Short(f) && tick == At(0, [true])
    ensures Pump(h, SenderAt(h, f, Sending, 0, 0, 0), tick)
      == Reaction(SenderAt(h, f, Sending, 0, Size(f), 0), [Chunk(0, f.content)])
  {
    var t := SenderAt(h, f, Sending, 0, 0, 0).entry.value;
    assert f.content[0..Size(f)] == f.content;
    assert NextChunk(t) == Chunk(0, f.content) && AfterChunk(t) == SenderAt(h, f, Sending, 0, Size(f), 0).entry.value;
    assert SendChunks(AfterChunk(t), tick, 0, 0, 1) == Pumped(AfterChunk(t), [], 1);
    assert SendChunks(t, tick, 1, 1, 0) == Pumped(AfterChunk(t), [Chunk(0, f.content)], 1);
  }

  lemma ChunkSent(h: Hash, f: File)
    requires Short(f)
    ensures Reachable(h, f,
      Linked(SenderAt(h, f, Sending, 0, Size(f), 0), Empty(h, f, None), [Chunk(0, f.content)], [], false))
  {
    Accepting(h, f);
    var sys := Linked(SenderAt(h, f, Offered, 0, 0, 0), Empty(h, f, None), [], [Accept(0)], false);
    Further(h, f, sys, Deliver(Side.Sender, Good(), true));
    var n := Apply(h, sys, Deliver(Side.Sender, Good(), true));
    assert n.s == SenderAt(h, f, Sending, 0, 0, 0) && n.toS == [] && n.toR == [];
    Further(h, f, n, Timer(Side.Sender, At(0, [true])));
    OneChunk(h, f, At(0, [true]));
  }

  lemma ChunkTaken(h: Hash, f: File)
    requires Short(f)
    ensures Reachable(h, f,
      Linked(SenderAt(h, f, Sending, 0, Size(f), 0), Whole(h, f, Some(Ack(Size(f)))), [], [], false))
  {
    ChunkSent(h, f);
    var sys := Linked(SenderAt(h, f, Sending, 0, Size(f), 0), Empty(h, f, None), [Chunk(0, f.content)], [], false);
    Further(h, f, sys, Deliver(Side.Receiver, Good(), true));
    assert [] + f.content == f.content;
    var n := Apply(h, sys, Deliver(Side.Receiver, Good(), true));
    assert n.r == Whole(h, f, Some(Ack(Size(f)))) && n.toR == [] && n.toS == [];
  }

  lemma Acknowledged(h: Hash, f: File)
    requires Short(f)
    ensures Reachable(h, f, Linked(SenderAt(h, f, Sending, Size(f), Size(f), 0), Whole(h, f, None), [], [], false))
  {
    ChunkTaken(h, f);
    var sys := Linked(SenderAt(h, f, Sending, 0, Size(f), 0), Whole(h, f, Some(Ack(Size(f)))), [], [], false);
    Further(h, f, sys, Timer(Side.Receiver, At(0, [true])));
    assert Pump(h, sys.r, At(0, [true])) == Reaction(Whole(h, f, None), [Ack(Size(f))]);
    var n := Apply(h, sys, Timer(Side.Receiver, At(0, [true])));
    assert n.toS == [Ack(Size(f))] && n.toR == [];
    Further(h, f, n, Deliver(Side.Sender, Good(), true));
  }

  // ---- the link renewed, two offers, and the Finish behind the second ----

  lemma Renewed(h: Hash, f: File)
    requires Short(f)
    ensures Reachable(h, f, Linked(SenderAt(h, f, Offered, Size(f), Size(f), -2000), Whole(h, f, None), [], [], false))
  {
    Acknowledged(h, f);
    var sys := Linked(SenderAt(h, f, Sending, Size(f), Size(f), 0), Whole(h, f, None), [], [], false);
    Further(h, f, sys, LeaveEnd(Side.Sender));
    var a := Apply(h, sys, LeaveEnd(Side.Sender));
    Further(h, f, a, LeaveEnd(Side.Receiver));
    var b := Apply(h, a, LeaveEnd(Side.Receiver));
    Further(h, f, b, NewLink);
    var c := Apply(h, b, NewLink);
    Further(h, f, c, OpenEnd(Side.Sender));
    var d := Apply(h, c, OpenEnd(Side.Sender));
    Further(h, f, d, OpenEnd(Side.Receiver));
  }

  lemma OfferAgain(h: Hash, f: File, lastOffer: int, now: int)
    requires now - lastOffer >= 2000
    ensures Pump(h, SenderAt(h, f, Offered, Size(f), Size(f), lastOffer), At(now, [true]))
      == Reaction(SenderAt(h, f, Offered, Size(f), Size(f), now), [OfferOf(h, f)])
  {
  }

  lemma ReofferedTwice(h: Hash, f: File)
    requires Short(f)
    ensures Reachable(h, f, Linked(SenderAt(h, f, Offered, Size(f), Size(f), 2000), Whole(h, f, None),
                                   [OfferOf(h, f), OfferOf(h, f)], [], false))
  {
    Renewed(h, f);
    var sys := Linked(SenderAt(h, f, Offered, Size(f), Size(f), -2000), Whole(h, f, None), [], [], false);
    Further(h, f, sys, Timer(Side.Sender, At(0, [true])));
    OfferAgain(h, f, -2000, 0);
    var n := Apply(h, sys, Timer(Side.Sender, At(0, [true])));
    assert n == Linked(SenderAt(h, f, Offered, Size(f), Size(f), 0), Whole(h, f, None), [OfferOf(h, f)], [], false);
    Further(h, f, n, Timer(Side.Sender, At(2000, [true])));
    OfferAgain(h, f, 0, 2000);
  }

  /** The first of the two offers finds the whole file received, and is accepted there. */
  lemma Retaken(h: Hash, f: File)
    requires Short(f)
    ensures Reachable(h, f, Linked(SenderAt(h, f, Offered, Size(f), Size(f), 2000),
      Whole(h, f, Some(Accept(Size(f)))), [OfferOf(h, f)], [], false))
  {
    ReofferedTwice(h, f);
    var sys := Linked(SenderAt(h, f, Offered, Size(f), Size(f), 2000), Whole(h, f, None),
                      [OfferOf(h, f), OfferOf(h, f)], [], false);
    Further(h, f, sys, Deliver(Side.Receiver, Good(), true));
    var n := Apply(h, sys, Deliver(Side.Receiver, Good(), true));
    assert n.r == Whole(h, f, Some(Accept(Size(f)))) && n.toR == [OfferOf(h, f)] && n.toS == [];
  }

  lemma Resumed(h: Hash, f: File)
    requires Short(f)
    ensures Reachable(h, f,
      Linked(SenderAt(h, f, Sending, Size(f), Size(f), 2000), Whole(h, f, None), [OfferOf(h, f)], [], false))
  {
    Retaken(h, f);
    var sys := Linked(SenderAt(h, f, Offered, Size(f), Size(f), 2000), Whole(h, f, Some(Accept(Size(f)))),
                      [OfferOf(h, f)], [], false);
    Further(h, f, sys, Timer(Side.Receiver, At(0, [true])));
    assert Pump(h, sys.r, At(0, [true])) == Reaction(Whole(h, f, None), [Accept(Size(f))]);
    var n := Apply(h, sys, Timer(Side.Receiver, At(0, [true])));
    assert n.toS == [Accept(Size(f))];
    Further(h, f, n, Deliver(Side.Sender, Good(), true));
  }

  lemma FinishSent(h: Hash, f: File)
    requires Short(f)
    ensures Reachable(h, f, Linked(SenderAt(h, f, Sending, Size(f), Size(f), 3000), Whole(h, f, None),
                                   [OfferOf(h, f), Finish], [], false))
  {
    Resumed(h, f);
    var sys := Linked(SenderAt(h, f, Sending, Size(f), Size(f), 2000), Whole(h, f, None), [OfferOf(h, f)], [], false);
    Further(h, f, sys, Timer(Side.Sender, At(3000, [true])));
    assert Pump(h, sys.s, At(3000, [true])) == Reaction(SenderAt(h, f, Sending, Size(f), Size(f), 3000), [Finish]);
  }

  // ---- forgotten between the two ----

  lemma ForgottenBetween(h: Hash, f: File)
    requires Short(f)
    ensures Reachable(h, f,
      Linked(SenderAt(h, f, Sending, Size(f), Size(f), 3000), UNHEARD, [OfferOf(h, f), Finish], [], true))
  {
    FinishSent(h, f);
    var sys := Linked(SenderAt(h, f, Sending, Size(f), Size(f), 3000), Whole(h, f, None), [OfferOf(h, f), Finish], [],
      false);
    Further(h, f, sys, UserCancel(Side.Receiver));
    var cancelled := Apply(h, sys, UserCancel(Side.Receiver));
    Further(h, f, cancelled, UserDismiss(Side.Receiver));
    var dismissed := Apply(h, cancelled, UserDismiss(Side.Receiver));
    OthersDismissed(h, f, dismissed, RETIRED_LIMIT - 1);
    Further(h, f, dismissed.(r := dismissed.r.(retired := Some(Retired(Cancel, true, RETIRED_LIMIT - 1)))),
            DismissOther(Side.Receiver));
  }

  lemma EmptyBeforeFinish(h: Hash, f: File)
    requires Short(f)
    ensures Reachable(h, f,
      Linked(SenderAt(h, f, Sending, Size(f), Size(f), 3000), Empty(h, f, Some(Accept(0))), [Finish], [], true))
  {
    ForgottenBetween(h, f);
    var sys := Linked(SenderAt(h, f, Sending, Size(f), Size(f), 3000), UNHEARD, [OfferOf(h, f), Finish], [], true);
    Further(h, f, sys, Deliver(Side.Receiver, Good(), true));
    var n := Apply(h, sys, Deliver(Side.Receiver, Good(), true));
    assert n.r == UNHEARD.(entry := Some(Entry(h, f, Incoming, None, None))) && n.toR == [Finish] && n.toS == [];
    Further(h, f, n, UserAccept(true));
  }

  /** For a file of one chunk, the Finish of a sender that has every byte acknowledged fails the integrity check. */
  lemma ForgettingFailsTheFinish(h: Hash, f: File)
    requires Short(f)
    ensures exists sys :: Reachable(h, f, sys) && sys.forgotten && InPhase(sys.r, Receiving)
                          && InPhase(sys.s, Sending) && sys.s.entry.value.position == sys.s.entry.value.size
                          && sys.toR != [] && sys.toR[0] == Finish
                          && InPhase(Apply(h, sys, Deliver(Side.Receiver, Good(), true)).r, Failed)
  {
    EmptyBeforeFinish(h, f);
    var sys := Linked(SenderAt(h, f, Sending, Size(f), Size(f), 3000), Empty(h, f, Some(Accept(0))), [Finish], [],
      true);
    assert InPhase(Apply(h, sys, Deliver(Side.Receiver, Good(), true)).r, Failed);
  }

  /** Some run of the file ends with a message that fails a receiving entry, though every disk works. */
  ghost predicate CanFail(h: Hash, f: File) {
    exists sys, taken :: Reachable(h, f, sys) && InPhase(sys.r, Receiving)
                         && InPhase(Apply(h, sys, Deliver(Side.Receiver, Good(), taken)).r, Failed)
  }

  /** Exactly the empty file is safe from being forgotten. */
  lemma CanFailIffNotEmpty(h: Hash, f: File)
    requires |f.content| <= MAX_FILE_SIZE
    ensures CanFail(h, f) <==> f.content != []
  {
    if Short(f) { ForgettingFailsTheFinish(h, f); }
    else if Long(f) { ForgettingBreaksTheOrder(h, f); }
    else { EmptyNeverFails(h, f); }
  }

  lemma EmptyNeverFails(h: Hash, f: File)
    requires f.content == []
    ensures !CanFail(h, f)
  {
    forall sys, taken | Reachable(h, f, sys) && InPhase(sys.r, Receiving)
      ensures !InPhase(Apply(h, sys, Deliver(Side.Receiver, Good(), taken)).r, Failed)
    {
      ReachableHolds(h, f, sys);
      if sys.toR != [] { assert sys.toR[0] in sys.toR; }
      FailsIff(h, f, sys, Good(), taken);
    }
  }
}
