/**
 The file transfer protocol as functions on values: one transfer id, seen from one endpoint.
 The same record serves the sending and the receiving end, as `State::Transfer` does.
 */
module TransferProtocol {
  import opened Wrappers

  const CHUNK_SIZE := 16 * 1024
  const WINDOW := 256 * 1024
  const MAX_FILE_SIZE := 8 * 1024 * 1024 * 1024 * 1024
  const RETIRED_LIMIT := 1024

  type Hash = seq<byte> -> int

  datatype Message =
    | Offer(size: nat, digest: int, name: string)
    | Accept(offset: nat)
    | Chunk(offset: nat, payload: seq<byte>)
    | Ack(offset: nat)
    | Finish
    | Complete(offset: nat)
    | Cancel

  datatype Phase = Hashing | Offered | Incoming | Sending | Receiving | Completed | Cancelled | Failed

  predicate Terminal(p: Phase) { p == Completed || p == Cancelled || p == Failed }

  /** An open source file: its bytes and the read cursor. */
  datatype Source = Source(content: seq<byte>, cursor: nat)

  datatype Transfer = Transfer(
    outgoing: bool, phase: Phase, name: string,
    size: nat, position: nat, sent: nat, lastOffer: int,
    digest: int, hashed: seq<byte>, reply: Option<Message>,
    source: Option<Source>, destination: Option<seq<byte>>)

  /** What is kept of a dismissed entry; `later` counts the dismissals since. */
  datatype Retired = Retired(reply: Message, pending: bool, later: nat)

  /** `saved` is the file that was committed to disk for this id, if any. */
  datatype Endpoint = Endpoint(
    entry: Option<Transfer>, retired: Option<Retired>, connected: bool, saved: Option<seq<byte>>)

  /** Outcomes of the calls an endpoint makes while it handles one message. */
  datatype Env = Env(full: bool, sourceOk: bool, writeOk: bool, commitOk: bool)

  datatype Reaction = Reaction(endpoint: Endpoint, sends: seq<Message>)

  function Fail(t: Transfer): Transfer {
    t.(phase := Failed, source := None, destination := None, reply := Some(Cancel))
  }

  function NewOutgoing(name: string, content: seq<byte>): Endpoint {
    Endpoint(Some(Transfer(true, Hashing, name, |content|, 0, 0, -2000, 0, [], None,
                           Some(Source(content, 0)), None)), None, false, None)
  }

  const NO_TRANSFER := Endpoint(None, None, false, None)

  // ---- local commands ----

  function AcceptOffer(e: Endpoint, opens: bool): Endpoint {
    if e.entry.None? || e.entry.value.outgoing || e.entry.value.phase != Incoming || !opens then e
    else
      var t := e.entry.value;
      e.(entry := Some(t.(destination := Some([]), phase := Receiving, reply := Some(Accept(t.position)))))
  }

  function CancelTransfer(e: Endpoint): Endpoint {
    if e.entry.None? || Terminal(e.entry.value.phase) then e
    else e.(entry := Some(e.entry.value.(phase := Cancelled, source := None, destination := None,
                                         reply := Some(Cancel))))
  }

  function Dismiss(e: Endpoint): Endpoint {
    if e.entry.None? || !Terminal(e.entry.value.phase) then e
    else
      var t := e.entry.value;
      var reply := if t.phase == Completed then Complete(t.size) else Cancel;
      e.(entry := None, retired := Some(Retired(reply, t.reply.Some?, 0)))
  }

  /** Another entry is dismissed; the oldest ones beyond the limit are forgotten. */
  function OtherDismissed(e: Endpoint): Endpoint {
    if e.retired.None? then e
    else if e.retired.value.later + 1 >= RETIRED_LIMIT then e.(retired := None)
    else e.(retired := Some(e.retired.value.(later := e.retired.value.later + 1)))
  }

  function SetPeerConnected(e: Endpoint, connected: bool): Endpoint {
    if e.connected == connected then e
    else if e.entry.Some? && e.entry.value.outgoing && e.entry.value.phase == Sending then
      e.(connected := connected, entry := Some(e.entry.value.(phase := Offered, lastOffer := -2000)))
    else e.(connected := connected)
  }

  function RemovePeer(e: Endpoint): Endpoint {
    var c := CancelTransfer(e);
    c.(connected := false,
       entry := if c.entry.None? then None else Some(c.entry.value.(reply := None)))
  }

  /** Leaving the mesh: a live transfer is cancelled and the peer is told at once. */
  function Clear(e: Endpoint): Reaction {
    if e.entry.None? then Reaction(e.(connected := false), [])
    else
      var t := e.entry.value;
      if Terminal(t.phase) then Reaction(e.(connected := false, entry := Some(t.(reply := None))), [])
      else Reaction(e.(connected := false,
                       entry := Some(t.(phase := Cancelled, source := None, destination := None, reply := None))),
                    [Cancel])
  }

  // ---- incoming messages ----

  /** The offset field of the 29-byte header. */
  function Offset(m: Message): nat {
    match m
    case Offer(size, _, _) => size
    case Accept(o) => o
    case Chunk(o, _) => o
    case Ack(o) => o
    case Complete(o) => o
    case Finish => 0
    case Cancel => 0
  }

  predicate WellSized(m: Message) {
    Offset(m) <= MAX_FILE_SIZE && (m.Chunk? ==> |m.payload| <= CHUNK_SIZE)
  }

  function Receive(h: Hash, e: Endpoint, m: Message, env: Env): Reaction {
    if !WellSized(m) then Reaction(e, [])
    else if e.retired.Some? then
      Reaction(e, if m.Offer? || m.Finish? then [e.retired.value.reply] else [])
    else if m.Offer? then ReceiveOffer(e, m, env)
    else if e.entry.None? then Reaction(e, [])
    else if m.Cancel? && !Terminal(e.entry.value.phase) then
      Reaction(e.(entry := Some(e.entry.value.(phase := Cancelled, source := None, destination := None,
                                               reply := None))), [])
    else if e.entry.value.outgoing then
      Reaction(e.(entry := Some(SenderReceives(e.entry.value, m, env))), [])
    else ReceiverReceives(h, e, m, env)
  }

  function ReceiveOffer(e: Endpoint, m: Message, env: Env): Reaction
    requires m.Offer?
  {
    if e.entry.None? then
      if env.full then Reaction(e, [Cancel])
      else
        Reaction(e.(entry := Some(Transfer(false, Incoming, m.name, m.size, 0, 0, -2000, m.digest, [], None,
                                           None, None))), [])
    else
      var t := e.entry.value;
      if t.outgoing || t.name != m.name || t.size != m.size || t.digest != m.digest then Reaction(e, [])
      else if t.phase == Receiving then
        Reaction(e.(entry := Some(t.(reply := Some(Accept(t.position))))), [])
      else if t.phase == Completed then
        Reaction(e.(entry := Some(t.(reply := Some(Complete(t.size))))), [])
      else if Terminal(t.phase) then Reaction(e.(entry := Some(t.(reply := Some(Cancel)))), [])
      else Reaction(e, [])
  }

  function SenderReceives(t: Transfer, m: Message, env: Env): Transfer {
    if m.Accept? && t.phase == Offered && m.offset <= t.size then
      if t.source.None? || |t.source.value.content| != t.size || !env.sourceOk then Fail(t)
      else t.(source := Some(t.source.value.(cursor := m.offset)),
              position := m.offset, sent := m.offset, phase := Sending)
    else if m.Ack? && t.phase == Sending && m.offset <= t.sent then
      t.(position := if t.position < m.offset then m.offset else t.position)
    else if m.Complete? && (t.phase == Sending || t.phase == Offered) && m.offset == t.size then
      t.(position := t.size, phase := Completed, source := None)
    else t
  }

  /** The check behind the "order broken" failure. */
  predicate ChunkFits(t: Transfer, m: Message)
    requires m.Chunk?
  {
    m.payload != [] && m.offset == t.position && |m.payload| <= t.size - t.position
  }

  /** The check behind the "integrity" failure. */
  predicate DigestFits(h: Hash, t: Transfer) {
    t.position == t.size && h(t.hashed) == t.digest
  }

  function ReceiverReceives(h: Hash, e: Endpoint, m: Message, env: Env): Reaction
    requires e.entry.Some?
  {
    var t := e.entry.value;
    if m.Finish? && t.phase == Completed then
      Reaction(e.(entry := Some(t.(reply := Some(Complete(t.size))))), [])
    else if t.phase != Receiving || t.destination.None? then Reaction(e, [])
    else if m.Chunk? then
      if !ChunkFits(t, m) || !env.writeOk then Reaction(e.(entry := Some(Fail(t))), [])
      else
        Reaction(e.(entry := Some(t.(destination := Some(t.destination.value + m.payload),
                                     hashed := t.hashed + m.payload,
                                     position := t.position + |m.payload|,
                                     reply := Some(Ack(t.position + |m.payload|))))), [])
    else if m.Finish? then
      if !DigestFits(h, t) || !env.commitOk then Reaction(e.(entry := Some(Fail(t))), [])
      else
        Reaction(e.(saved := t.destination,
                    entry := Some(t.(destination := None, phase := Completed,
                                     reply := Some(Complete(t.size))))), [])
    else Reaction(e, [])
  }

  // ---- the timer ----

  /** One timer tick: the clock, the work budgets, how many file reads succeed, and which
      of the frames offered to the link are taken, in order. */
  datatype Tick = Tick(now: int, hashBudget: nat, chunkBudget: nat, readable: nat, link: seq<bool>)

  predicate Taken(tick: Tick, k: nat) { k < |tick.link| && tick.link[k] }

  datatype Pumped = Pumped(transfer: Transfer, out: seq<Message>, used: nat)

  function Min(a: int, b: int): int { if a < b then a else b }

  function HashSome(h: Hash, t: Transfer, tick: Tick): Transfer {
    if t.phase != Hashing || tick.hashBudget == 0 || t.source.None? then t
    else
      var s := t.source.value;
      if tick.readable == 0 || |s.content| != t.size || s.cursor > |s.content| then Fail(t)
      else
        var end := Min(s.cursor + tick.hashBudget, |s.content|);
        var hashed := t.hashed + s.content[s.cursor..end];
        if end == |s.content| then
          t.(hashed := hashed, digest := h(hashed), source := Some(s.(cursor := 0)), phase := Offered)
        else t.(hashed := hashed, source := Some(s.(cursor := end)))
  }

  function SendReply(t: Transfer, tick: Tick, k: nat): Pumped {
    if t.reply.None? then Pumped(t, [], k)
    else if Taken(tick, k) then Pumped(t.(reply := None), [t.reply.value], k + 1)
    else Pumped(t, [], k + 1)
  }

  function SendOffer(t: Transfer, tick: Tick, k: nat): Pumped {
    if t.phase == Offered && tick.now - t.lastOffer >= 2000 then
      if Taken(tick, k) then Pumped(t.(lastOffer := tick.now), [Offer(t.size, t.digest, t.name)], k + 1)
      else Pumped(t, [], k + 1)
    else Pumped(t, [], k)
  }

  function Prepend(out: seq<Message>, p: Pumped): Pumped { Pumped(p.transfer, out + p.out, p.used) }

  lemma PrependTwice(a: seq<Message>, b: seq<Message>, p: Pumped)
    ensures Prepend(a, Prepend(b, p)) == Prepend(a + b, p)
  {
    assert a + (b + p.out) == a + b + p.out;
  }

  predicate WindowOpen(t: Transfer) {
    t.sent < t.size && t.sent - t.position < WINDOW && t.source.Some?
  }

  /** Where the next chunk ends in the source. */
  function NextEnd(t: Transfer): int
    requires t.source.Some?
  {
    Min(t.source.value.cursor + Min(CHUNK_SIZE, t.size - t.sent), |t.source.value.content|)
  }

  predicate HasChunk(t: Transfer) { t.source.Some? && t.source.value.cursor < NextEnd(t) }

  function NextChunk(t: Transfer): Message
    requires HasChunk(t)
  {
    Chunk(t.sent, t.source.value.content[t.source.value.cursor..NextEnd(t)])
  }

  function AfterChunk(t: Transfer): Transfer
    requires HasChunk(t)
  {
    t.(source := Some(t.source.value.(cursor := NextEnd(t))), sent := t.sent + |NextChunk(t).payload|)
  }

  /** The chunk loop: at most `budget` chunks, while the window has room and the link takes them. */
  function SendChunks(t: Transfer, tick: Tick, budget: nat, readable: nat, k: nat): Pumped
    decreases budget
  {
    if budget == 0 || !WindowOpen(t) then Pumped(t, [], k)
    else if readable == 0 || !HasChunk(t) then Pumped(Fail(t), [], k)
    else if !Taken(tick, k) then
      Pumped(t.(source := Some(t.source.value.(cursor := t.sent))), [], k + 1)
    else
      Prepend([NextChunk(t)], SendChunks(AfterChunk(t), tick, budget - 1, readable - 1, k + 1))
  }

  function SendFinish(t: Transfer, tick: Tick, k: nat): Pumped {
    if t.phase == Sending && t.position == t.size && tick.now - t.lastOffer >= 1000 then
      if Taken(tick, k) then Pumped(t.(lastOffer := tick.now), [Finish], k + 1)
      else Pumped(t, [], k + 1)
    else Pumped(t, [], k)
  }

  function PumpTransfer(h: Hash, t: Transfer, connected: bool, tick: Tick, k: nat): Pumped {
    var a := HashSome(h, t, tick);
    if (t.phase == Hashing && a.phase == Failed) || !connected then Pumped(a, [], k)
    else
      var b := SendReply(a, tick, k);
      var c := SendOffer(b.transfer, tick, b.used);
      if c.transfer.phase != Sending then Pumped(c.transfer, b.out + c.out, c.used)
      else
        var d := SendChunks(c.transfer, tick, tick.chunkBudget, tick.readable, c.used);
        var f := SendFinish(d.transfer, tick, d.used);
        Pumped(f.transfer, b.out + c.out + d.out + f.out, f.used)
  }

  function Pump(h: Hash, e: Endpoint, tick: Tick): Reaction {
    var tell := e.retired.Some? && e.retired.value.pending && e.connected;
    var k := if tell then 1 else 0;
    var told := tell && Taken(tick, 0);
    var e1 := if told then e.(retired := Some(e.retired.value.(pending := false))) else e;
    var out := if told then [e.retired.value.reply] else [];
    if e1.entry.None? then Reaction(e1, out)
    else
      var p := PumpTransfer(h, e1.entry.value, e1.connected, tick, k);
      Reaction(e1.(entry := Some(p.transfer)), out + p.out)
  }
}
