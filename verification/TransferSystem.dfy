/**
 Two endpoints of one transfer joined by a link that can drop and come back.
 Each side opens and leaves the link on its own; messages of a link the other side has not
 opened yet, or has left, are lost. A new link starts with empty channels.
 */
module TransferSystem {
  import opened Wrappers
  import opened TransferProtocol

  datatype Side = Sender | Receiver

  datatype LinkEnd = Waiting | Open | Gone

  /** `forgotten` records that the receiver's dismissed entry fell out of its bounded list. */
  datatype System = System(
    s: Endpoint, r: Endpoint, sLink: LinkEnd, rLink: LinkEnd,
    toR: seq<Message>, toS: seq<Message>, forgotten: bool)

  datatype Action =
    | NewLink
    | OpenEnd(side: Side)
    | LeaveEnd(side: Side)
    | Deliver(side: Side, env: Env, taken: bool)
    | Timer(side: Side, tick: Tick)
    | UserAccept(opens: bool)
    | UserCancel(side: Side)
    | UserDismiss(side: Side)
    | DismissOther(side: Side)
    | PeerRemoved(side: Side)
    | LeaveMesh(side: Side, taken: bool)

  function Start(name: string, content: seq<byte>): System {
    System(NewOutgoing(name, content), NO_TRANSFER, Gone, Gone, [], [], false)
  }

  function End(sys: System, side: Side): Endpoint { if side == Sender then sys.s else sys.r }

  function Link(sys: System, side: Side): LinkEnd { if side == Sender then sys.sLink else sys.rLink }

  function SetEnd(sys: System, side: Side, e: Endpoint): System {
    if side == Sender then sys.(s := e)
    else sys.(r := e, forgotten := sys.forgotten || (sys.r.retired.Some? && e.retired.None?))
  }

  /** The side's endpoint reacts; what it sends reaches the channel only over an open link. */
  function React(sys: System, side: Side, x: Reaction): System {
    var y := SetEnd(sys, side, x.endpoint);
    if Link(sys, side) != Open then y
    else if side == Sender then y.(toR := y.toR + x.sends)
    else y.(toS := y.toS + x.sends)
  }

  /** Over a closed link end every send is refused. */
  function ThroughLink(sys: System, side: Side, tick: Tick): Tick {
    if Link(sys, side) == Open then tick else tick.(link := [])
  }

  function DirectSends(sys: System, side: Side, x: Reaction, taken: bool): System {
    React(sys, side, if taken then x else x.(sends := []))
  }

  function DeliverTo(h: Hash, sys: System, side: Side, env: Env, taken: bool): System {
    if side == Sender then
      if sys.toS == [] then sys
      else
        var rest := sys.(toS := sys.toS[1..]);
        if sys.sLink != Open then rest
        else DirectSends(rest, Sender, Receive(h, sys.s, sys.toS[0], env), taken)
    else
      if sys.toR == [] then sys
      else
        var rest := sys.(toR := sys.toR[1..]);
        if sys.rLink != Open then rest
        else DirectSends(rest, Receiver, Receive(h, sys.r, sys.toR[0], env), taken)
  }

  function Apply(h: Hash, sys: System, a: Action): System {
    match a
    case NewLink =>
      if sys.sLink == Open || sys.rLink == Open then sys
      else sys.(sLink := Waiting, rLink := Waiting, toR := [], toS := [])
    case OpenEnd(side) =>
      if Link(sys, side) != Waiting then sys
      else
        var y := SetEnd(sys, side, SetPeerConnected(End(sys, side), true));
        if side == Sender then y.(sLink := Open) else y.(rLink := Open)
    case LeaveEnd(side) =>
      if Link(sys, side) != Open then sys
      else
        var y := SetEnd(sys, side, SetPeerConnected(End(sys, side), false));
        if side == Sender then y.(sLink := Gone) else y.(rLink := Gone)
    case Deliver(side, env, taken) => DeliverTo(h, sys, side, env, taken)
    case Timer(side, tick) => React(sys, side, Pump(h, End(sys, side), ThroughLink(sys, side, tick)))
    case UserAccept(opens) => sys.(r := AcceptOffer(sys.r, opens))
    case UserCancel(side) => SetEnd(sys, side, CancelTransfer(End(sys, side)))
    case UserDismiss(side) => SetEnd(sys, side, Dismiss(End(sys, side)))
    case DismissOther(side) => SetEnd(sys, side, OtherDismissed(End(sys, side)))
    case PeerRemoved(side) => SetEnd(sys, side, RemovePeer(End(sys, side)))
    case LeaveMesh(side, taken) => DirectSends(sys, side, Clear(End(sys, side)), taken)
  }

  function Run(h: Hash, sys: System, actions: seq<Action>): System
    decreases |actions|
  {
    if actions == [] then sys else Run(h, Apply(h, sys, actions[0]), actions[1..])
  }

  // ---- truthfulness: what holds in every run ----

  datatype File = File(name: string, content: seq<byte>)

  predicate TruthfulToReceiver(h: Hash, f: File, m: Message) {
    match m
    case Offer(size, digest, name) => size == |f.content| && digest == h(f.content) && name == f.name
    case Chunk(o, payload) => 0 < |payload| <= CHUNK_SIZE && o + |payload| <= |f.content|
      && payload == f.content[o..o + |payload|]
    case Finish => true
    case Cancel => true
    case _ => false
  }

  predicate TruthfulToSender(f: File, saved: bool, m: Message) {
    match m
    case Accept(o) => o <= |f.content|
    case Ack(o) => o <= |f.content|
    case Complete(o) => o == |f.content| && saved
    case Cancel => true
    case _ => false
  }

  predicate SendingEntryOk(h: Hash, f: File, t: Transfer) {
    && t.outgoing && t.size == |f.content| && t.name == f.name
    && t.position <= t.size && t.sent <= t.size
    && (t.source.Some? ==> t.source.value.content == f.content && t.source.value.cursor <= t.size)
    && (t.reply.Some? ==> t.reply.value == Cancel && Terminal(t.phase))
    && match t.phase
       case Hashing => t.source.Some? && t.hashed == f.content[..t.source.value.cursor]
       case Offered => t.source.Some? && t.digest == h(f.content)
       case Sending => t.source.Some? && t.digest == h(f.content) && t.source.value.cursor == t.sent
                       && t.position <= t.sent && t.sent - t.position < WINDOW + CHUNK_SIZE
       case Completed => t.reply.None?
       case Cancelled => true
       case Failed => true
       case _ => false
  }

  predicate SenderOk(h: Hash, f: File, e: Endpoint) {
    && (e.entry.Some? ==> SendingEntryOk(h, f, e.entry.value))
    && (e.entry.Some? && e.entry.value.phase == Sending ==> e.connected)
    && (e.entry.None? || e.retired.None?)
    && (e.retired.Some? && e.retired.value.pending ==> e.retired.value.reply == Cancel)
  }

  predicate ReceivingEntryOk(h: Hash, f: File, t: Transfer, saved: Option<seq<byte>>) {
    && !t.outgoing && t.size == |f.content| && t.name == f.name && t.digest == h(f.content)
    && t.position <= t.size && t.hashed == f.content[..t.position]
    && (t.reply.Some? ==> TruthfulToSender(f, saved.Some?, t.reply.value))
    && match t.phase
       case Incoming => t.position == 0 && t.reply.None?
       case Receiving =>
         t.destination == Some(f.content[..t.position]) &&
         (t.reply.Some? ==> t.reply.value == Accept(t.position) || t.reply.value == Ack(t.position))
       case Completed =>
         t.position == t.size && saved.Some? && (t.reply.Some? ==> t.reply.value == Complete(t.size))
       case Cancelled => t.reply.Some? ==> t.reply.value == Cancel
       case Failed => t.reply.Some? ==> t.reply.value == Cancel
       case _ => false
  }

  predicate ReceiverOk(h: Hash, f: File, e: Endpoint) {
    && (e.entry.Some? ==> ReceivingEntryOk(h, f, e.entry.value, e.saved))
    && (e.saved.Some? ==> e.saved.value == f.content)
    && (e.entry.None? || e.retired.None?)
    && (e.retired.Some? ==> e.retired.value.reply == Cancel
                            || (e.retired.value.reply == Complete(|f.content|) && e.saved.Some?))
  }

  ghost predicate Truthful(h: Hash, f: File, sys: System) {
    && SenderOk(h, f, sys.s)
    && ReceiverOk(h, f, sys.r)
    && (forall m <- sys.toR :: TruthfulToReceiver(h, f, m))
    && (forall m <- sys.toS :: TruthfulToSender(f, sys.r.saved.Some?, m))
    && (sys.s.entry.Some? && sys.s.entry.value.phase == Completed ==> sys.r.saved.Some?)
  }

  // ---- the sliding window ----

  /** Chunks continue one another from `p`, and Finish comes only at the end of the file. */
  predicate Contiguous(q: seq<Message>, p: nat, size: nat) {
    if q == [] then true
    else match q[0]
      case Chunk(o, payload) => o == p && Contiguous(q[1..], p + |payload|, size)
      case Finish => p == size && Contiguous(q[1..], p, size)
      case _ => Contiguous(q[1..], p, size)
  }

  function InFlight(q: seq<Message>): seq<byte> {
    if q == [] then []
    else (if q[0].Chunk? then q[0].payload else []) + InFlight(q[1..])
  }

  predicate Quiet(q: seq<Message>) { forall m <- q :: !m.Chunk? && !m.Finish? }

  predicate InPhase(e: Endpoint, p: Phase) { e.entry.Some? && e.entry.value.phase == p }

  predicate Live(e: Endpoint) { InPhase(e, Receiving) || InPhase(e, Completed) }

  predicate Started(e: Endpoint) { e.retired.Some? || (e.entry.Some? && e.entry.value.phase != Incoming) }

  predicate Unsent(e: Endpoint) { InPhase(e, Hashing) || InPhase(e, Offered) }

  ghost predicate LinkOk(sys: System) {
    && (sys.sLink == Waiting ==> sys.toR == [])
    && (sys.rLink == Waiting ==> sys.toS == [] && Quiet(sys.toR))
    && (sys.s.connected ==> sys.sLink == Open)
    && (Unsent(sys.s) && sys.sLink == Open ==> sys.s.connected)
    && (InPhase(sys.s, Sending) ==> sys.rLink != Waiting)
  }

  ghost predicate AcksOk(sys: System) {
    && (forall m <- sys.toS :: m.Accept? || m.Ack? ==> Started(sys.r))
    && (InPhase(sys.s, Sending) ==> Started(sys.r))
    && (!Started(sys.r) ==> Quiet(sys.toR))
    && (sys.r.entry.Some? ==>
          forall m <- sys.toS :: m.Accept? || m.Ack? ==> Offset(m) <= sys.r.entry.value.position)
  }

  ghost predicate OfferedOk(sys: System) {
    Unsent(sys.s) && sys.sLink != Gone ==>
      && Quiet(sys.toR)
      && (Live(sys.r) ==> forall m <- sys.toS :: m.Accept? ==> m.offset == sys.r.entry.value.position)
  }

  ghost predicate WindowOk(sys: System) {
    && (InPhase(sys.s, Sending) && Live(sys.r) ==>
          sys.s.entry.value.position <= sys.r.entry.value.position <= sys.s.entry.value.sent)
    && (sys.rLink == Open && InPhase(sys.r, Receiving) ==>
          && Contiguous(sys.toR, sys.r.entry.value.position, sys.r.entry.value.size)
          && (InPhase(sys.s, Sending) ==>
                sys.r.entry.value.position + |InFlight(sys.toR)| == sys.s.entry.value.sent))
  }

  ghost predicate Ordered(sys: System) {
    LinkOk(sys) && (!sys.forgotten ==> AcksOk(sys) && OfferedOk(sys) && WindowOk(sys))
  }

  ghost predicate Inv(h: Hash, f: File, sys: System) {
    |f.content| <= MAX_FILE_SIZE && Truthful(h, f, sys) && Ordered(sys)
  }
}
