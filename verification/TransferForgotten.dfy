/**
 Why the order of a transfer is promised only while the receiver remembers it: once 1024 other
 dismissals have pushed out a dismissed entry, an old offer can start the transfer anew in
 the middle of the old one's chunks. This file has the run for every file of more than one chunk.
 */
module TransferForgotten {
  import opened Wrappers
  import opened TransferProtocol
  import opened TransferSystem
  import opened TransferProofs
  import opened TransferTheorems

  lemma {:induction false} RunOn(h: Hash, sys: System, actions: seq<Action>, a: Action)
    ensures Run(h, sys, actions + [a]) == Apply(h, Run(h, sys, actions), a)
    decreases |actions|
  {
    if actions == [] {
      assert actions + [a] == [a] && [a][1..] == [];
    } else {
      assert (actions + [a])[1..] == actions[1..] + [a];
      RunOn(h, Apply(h, sys, actions[0]), actions[1..], a);
    }
  }

  lemma Further(h: Hash, f: File, sys: System, a: Action)
    requires Reachable(h, f, sys)
    ensures Reachable(h, f, Apply(h, sys, a))
  {
    var actions :| sys == Run(h, Start(f.name, f.content), actions);
    RunOn(h, Start(f.name, f.content), actions, a);
  }

  // ---- the states on the way ----

  predicate Sendable(f: File) { 0 < |f.content| <= MAX_FILE_SIZE }

  predicate Long(f: File) { CHUNK_SIZE < |f.content| <= MAX_FILE_SIZE }

  function OfferOf(h: Hash, f: File): Message { Offer(|f.content|, h(f.content), f.name) }

  function Source0(f: File, at: nat): Option<Source> { Some(Source(f.content, at)) }

  function Offering(h: Hash, f: File, lastOffer: int): Endpoint {
    Endpoint(Some(Transfer(true, Offered, f.name, |f.content|, 0, 0, lastOffer, h(f.content), f.content, None,
                           Source0(f, 0), None)), None, true, None)
  }

  /** Where the second chunk ends. */
  function Second(f: File): nat { if |f.content| < 2 * CHUNK_SIZE then |f.content| else 2 * CHUNK_SIZE }

  function SendingUpTo(h: Hash, f: File, sent: nat): Endpoint {
    Endpoint(Some(Transfer(true, Sending, f.name, |f.content|, 0, sent, 2000, h(f.content), f.content, None,
                           Source0(f, sent), None)), None, true, None)
  }

  function Entry(h: Hash, f: File, phase: Phase, reply: Option<Message>, destination: Option<seq<byte>>): Transfer {
    Transfer(false, phase, f.name, |f.content|, 0, 0, -2000, h(f.content), [], reply, None, destination)
  }

  function Quietly(link: seq<bool>): Tick { Tick(2000, 0, 2, 2, link) }

  function Good(): Env { Env(false, true, true, true) }

  function Linked(s: Endpoint, r: Endpoint, toR: seq<Message>, toS: seq<Message>, forgotten: bool): System {
    System(s, r, Open, Open, toR, toS, forgotten)
  }

  function Chunks(f: File): seq<Message>
    requires Long(f)
  {
    [Chunk(0, f.content[0..CHUNK_SIZE]), Chunk(CHUNK_SIZE, f.content[CHUNK_SIZE..Second(f)])]
  }

  const UNHEARD := Endpoint(None, None, true, None)

  // ---- two offers ----

  lemma Connected(h: Hash, f: File)
    requires Sendable(f)
    ensures var s := NewOutgoing(f.name, f.content).(connected := true);
      Reachable(h, f, Linked(s, UNHEARD, [], [], false))
  {
    var s0 := Start(f.name, f.content);
    assert Run(h, s0, []) == s0;
    Further(h, f, s0, NewLink);
    var s1 := Apply(h, s0, NewLink);
    Further(h, f, s1, OpenEnd(Sender));
    Further(h, f, Apply(h, s1, OpenEnd(Sender)), OpenEnd(Receiver));
  }

  lemma HashAll(h: Hash, f: File, tick: Tick)
    requires Sendable(f) && tick.hashBudget >= |f.content| && tick.readable > 0
    ensures var t := NewOutgoing(f.name, f.content).entry.value;
      HashSome(h, t, tick) == t.(hashed := f.content, digest := h(f.content), source := Source0(f, 0), phase := Offered)
  {
    assert [] + f.content[0..|f.content|] == f.content;
  }

  lemma OfferedOnce(h: Hash, f: File)
    requires Sendable(f)
    ensures Reachable(h, f, Linked(Offering(h, f, 0), UNHEARD, [OfferOf(h, f)], [], false))
  {
    Connected(h, f);
    var sys := Linked(NewOutgoing(f.name, f.content).(connected := true), UNHEARD, [], [], false);
    var tick := Tick(0, |f.content|, 0, 1, [true]);
    HashAll(h, f, tick);
    Further(h, f, sys, Timer(Sender, tick));
    assert Pump(h, sys.s, tick) == Reaction(Offering(h, f, 0), [OfferOf(h, f)]);
    assert [] + [OfferOf(h, f)] == [OfferOf(h, f)];
  }

  lemma OfferedTwice(h: Hash, f: File)
    requires Sendable(f)
    ensures Reachable(h, f, Linked(Offering(h, f, 2000), UNHEARD, [OfferOf(h, f), OfferOf(h, f)], [], false))
  {
    OfferedOnce(h, f);
    var sys := Linked(Offering(h, f, 0), UNHEARD, [OfferOf(h, f)], [], false);
    Further(h, f, sys, Timer(Sender, Quietly([true])));
    assert Pump(h, sys.s, Quietly([true])) == Reaction(Offering(h, f, 2000), [OfferOf(h, f)]);
  }

  // ---- the first acceptance, and all chunks in flight ----

  lemma FirstAccepted(h: Hash, f: File)
    requires Sendable(f)
    ensures Reachable(h, f,
      Linked(Offering(h, f, 2000), UNHEARD.(entry := Some(Entry(h, f, Receiving, Some(Accept(0)), Some([])))),
                                   [OfferOf(h, f)], [], false))
  {
    OfferedTwice(h, f);
    var sys := Linked(Offering(h, f, 2000), UNHEARD, [OfferOf(h, f), OfferOf(h, f)], [], false);
    Further(h, f, sys, Deliver(Receiver, Good(), true));
    var n := Apply(h, sys, Deliver(Receiver, Good(), true));
    assert n.r == UNHEARD.(entry := Some(Entry(h, f, Incoming, None, None)));
    assert n.toS == [] && n.toR == [OfferOf(h, f)];
    Further(h, f, n, UserAccept(true));
  }

  lemma AcceptSent(h: Hash, f: File)
    requires Sendable(f)
    ensures Reachable(h, f,
      Linked(Offering(h, f, 2000), UNHEARD.(entry := Some(Entry(h, f, Receiving, None, Some([])))),
                                   [OfferOf(h, f)], [Accept(0)], false))
  {
    FirstAccepted(h, f);
    var sys := Linked(Offering(h, f, 2000), UNHEARD.(entry := Some(Entry(h, f, Receiving, Some(Accept(0)), Some([])))),
                      [OfferOf(h, f)], [], false);
    Further(h, f, sys, Timer(Receiver, Quietly([true])));
    assert Pump(h, sys.r, Quietly([true]))
        == Reaction(sys.r.(entry := Some(Entry(h, f, Receiving, None, Some([])))), [Accept(0)]);
  }

  lemma BothChunks(h: Hash, f: File, t: Transfer, tick: Tick)
    requires Long(f) && tick.link == [true, true]
    requires t == SendingUpTo(h, f, 0).entry.value
    ensures SendChunks(t, tick, 2, 2, 0) == Pumped(SendingUpTo(h, f, Second(f)).entry.value, Chunks(f), 2)
  {
    var t1 := AfterChunk(t);
    assert t1 == t.(sent := CHUNK_SIZE, source := Source0(f, CHUNK_SIZE));
    var t2 := AfterChunk(t1);
    assert t2 == SendingUpTo(h, f, Second(f)).entry.value;
    assert SendChunks(t2, tick, 0, 0, 2) == Pumped(t2, [], 2);
    assert SendChunks(t1, tick, 1, 1, 1) == Prepend([NextChunk(t1)], Pumped(t2, [], 2));
    assert [NextChunk(t)] + ([NextChunk(t1)] + []) == Chunks(f);
  }

  lemma AllInFlight(h: Hash, f: File)
    requires Long(f)
    ensures Reachable(h, f,
      Linked(SendingUpTo(h, f, Second(f)), UNHEARD.(entry := Some(Entry(h, f, Receiving, None, Some([])))),
                                   [OfferOf(h, f)] + Chunks(f), [], false))
  {
    AcceptSent(h, f);
    var sys := Linked(Offering(h, f, 2000), UNHEARD.(entry := Some(Entry(h, f, Receiving, None, Some([])))),
                      [OfferOf(h, f)], [Accept(0)], false);
    Further(h, f, sys, Deliver(Sender, Good(), true));
    var n := Apply(h, sys, Deliver(Sender, Good(), true));
    var t := SendingUpTo(h, f, 0).entry.value;
    assert n.s.entry == Some(t) && n.toR == [OfferOf(h, f)] && n.toS == [];
    Further(h, f, n, Timer(Sender, Quietly([true, true])));
    BothChunks(h, f, t, Quietly([true, true]));
    assert Pump(h, n.s, Quietly([true, true])) == Reaction(SendingUpTo(h, f, Second(f)), Chunks(f));
  }

  // ---- dismissed and forgotten ----

  lemma {:induction false} OthersDismissed(h: Hash, f: File, sys: System, n: nat)
    requires Reachable(h, f, sys) && n < RETIRED_LIMIT
    requires sys.r.retired == Some(Retired(Cancel, true, 0))
    ensures Reachable(h, f, sys.(r := sys.r.(retired := Some(Retired(Cancel, true, n)))))
  {
    if n > 0 {
      OthersDismissed(h, f, sys, n - 1);
      Further(h, f, sys.(r := sys.r.(retired := Some(Retired(Cancel, true, n - 1)))), DismissOther(Receiver));
    }
  }

  lemma Forgotten(h: Hash, f: File)
    requires Long(f)
    ensures Reachable(h, f, Linked(SendingUpTo(h, f, Second(f)), UNHEARD, [OfferOf(h, f)] + Chunks(f), [], true))
  {
    AllInFlight(h, f);
    var sys := Linked(SendingUpTo(h, f, Second(f)), UNHEARD.(entry := Some(Entry(h, f, Receiving, None, Some([])))),
                      [OfferOf(h, f)] + Chunks(f), [], false);
    Further(h, f, sys, UserCancel(Receiver));
    var cancelled := Apply(h, sys, UserCancel(Receiver));
    Further(h, f, cancelled, UserDismiss(Receiver));
    var dismissed := Apply(h, cancelled, UserDismiss(Receiver));
    OthersDismissed(h, f, dismissed, RETIRED_LIMIT - 1);
    Further(h, f, dismissed.(r := dismissed.r.(retired := Some(Retired(Cancel, true, RETIRED_LIMIT - 1)))),
      DismissOther(Receiver));
  }

  // ---- accepted again, in the middle ----

  lemma AcceptedAgain(h: Hash, f: File)
    requires Long(f)
    ensures Reachable(h, f,
      Linked(SendingUpTo(h, f, Second(f)), UNHEARD.(entry := Some(Entry(h, f, Receiving, Some(Accept(0)), Some([])))),
                                   [Chunks(f)[1]], [], true))
  {
    Forgotten(h, f);
    var sys := Linked(SendingUpTo(h, f, Second(f)), UNHEARD, [OfferOf(h, f)] + Chunks(f), [], true);
    Further(h, f, sys, Deliver(Receiver, Good(), true));
    var n := Apply(h, sys, Deliver(Receiver, Good(), true));
    assert n.toR == Chunks(f) && n.r == UNHEARD.(entry := Some(Entry(h, f, Incoming, None, None)));
    Further(h, f, n, Deliver(Receiver, Good(), true));
    var m := Apply(h, n, Deliver(Receiver, Good(), true));
    assert m.toR == [Chunks(f)[1]] && m.r == n.r;
    Further(h, f, m, UserAccept(true));
  }

  /** A working disk is then not enough: the next chunk does not fit, and the transfer fails. */
  lemma ForgettingBreaksTheOrder(h: Hash, f: File)
    requires Long(f)
    ensures exists sys :: Reachable(h, f, sys) && sys.forgotten && InPhase(sys.r, Receiving)
                          && InPhase(Apply(h, sys, Deliver(Receiver, Good(), true)).r, Failed)
  {
    AcceptedAgain(h, f);
    var sys := Linked(SendingUpTo(h, f, Second(f)),
      UNHEARD.(entry := Some(Entry(h, f, Receiving, Some(Accept(0)), Some([])))),
                      [Chunks(f)[1]], [], true);
    assert InPhase(Apply(h, sys, Deliver(Receiver, Good(), true)).r, Failed);
  }
}
