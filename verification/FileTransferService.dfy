/** The service's own form: fields updated step by step, each method equal to its protocol function. */
module FileTransferService {
  import opened Wrappers
  import opened TransferProtocol

  /** What the service holds for one transfer id. */
  class Service {
    const sha256: Hash
    var entry: Option<Transfer>
    var retired: Option<Retired>
    var connected: bool
    var saved: Option<seq<byte>>

    function View(): Endpoint
      reads this
    {
      Endpoint(entry, retired, connected, saved)
    }

    constructor (sha256: Hash)
      ensures View() == NO_TRANSFER && this.sha256 == sha256
    {
      this.sha256 := sha256;
      entry, retired, connected, saved := None, None, false, None;
    }

    method AcceptFile(opens: bool)
      modifies this
      ensures View() == AcceptOffer(old(View()), opens)
    {
      if entry.None? || entry.value.outgoing || entry.value.phase != Incoming || !opens { return; }
      var t := entry.value;
      t := t.(destination := Some([]));
      t := t.(phase := Receiving);
      t := t.(reply := Some(Accept(t.position)));
      entry := Some(t);
    }

    method CancelFile()
      modifies this
      ensures View() == CancelTransfer(old(View()))
    {
      if entry.None? || Terminal(entry.value.phase) { return; }
      var t := entry.value.(phase := Cancelled);
      t := t.(source := None, destination := None);
      entry := Some(t.(reply := Some(Cancel)));
    }

    method DismissFile()
      modifies this
      ensures View() == Dismiss(old(View()))
    {
      if entry.None? || !Terminal(entry.value.phase) { return; }
      var t := entry.value;
      retired := Some(Retired(if t.phase == Completed then Complete(t.size) else Cancel, t.reply.Some?, 0));
      entry := None;
    }

    method SetConnected(up: bool)
      modifies this
      ensures View() == SetPeerConnected(old(View()), up)
    {
      if connected == up { return; }
      connected := up;
      if entry.Some? && entry.value.outgoing && entry.value.phase == Sending {
        entry := Some(entry.value.(phase := Offered, lastOffer := -2000));
      }
    }

    method ForgetPeer()
      modifies this
      ensures View() == RemovePeer(old(View()))
    {
      CancelFile();
      if entry.Some? { entry := Some(entry.value.(reply := None)); }
      connected := false;
    }

    method ClearAll() returns (out: seq<Message>)
      modifies this
      ensures View() == Clear(old(View())).endpoint && out == Clear(old(View())).sends
    {
      out := [];
      if entry.Some? {
        var t := entry.value;
        if !Terminal(t.phase) {
          out := [Cancel];
          t := t.(phase := Cancelled, source := None, destination := None);
        }
        entry := Some(t.(reply := None));
      }
      connected := false;
    }

    method ReceiveMessage(m: Message, env: Env) returns (out: seq<Message>)
      modifies this
      ensures var x := Receive(sha256, old(View()), m, env); View() == x.endpoint && out == x.sends
    {
      out := [];
      if !WellSized(m) { return; }
      if retired.Some? {
        if m.Offer? || m.Finish? { out := [retired.value.reply]; }
        return;
      }
      if m.Offer? {
        out := TakeOffer(m, env);
        return;
      }
      if entry.None? { return; }
      var t := entry.value;
      if m.Cancel? && !Terminal(t.phase) {
        t := t.(phase := Cancelled);
        t := t.(source := None, destination := None);
        entry := Some(t.(reply := None));
        return;
      }
      if t.outgoing {
        var u := TakeAsSender(t, m, env);
        entry := Some(u);
      } else {
        TakeAsReceiver(m, env);
      }
    }

    method TakeOffer(m: Message, env: Env) returns (out: seq<Message>)
      requires m.Offer?
      modifies this
      ensures var x := ReceiveOffer(old(View()), m, env); View() == x.endpoint && out == x.sends
    {
      out := [];
      if entry.None? {
        if env.full { return [Cancel]; }
        entry := Some(Transfer(false, Incoming, m.name, m.size, 0, 0, -2000, m.digest, [], None, None, None));
        return;
      }
      var t := entry.value;
      if t.outgoing || t.name != m.name || t.size != m.size || t.digest != m.digest { return; }
      if t.phase == Receiving {
        t := t.(reply := Some(Accept(t.position)));
      } else if t.phase == Completed {
        t := t.(reply := Some(Complete(t.size)));
      } else if Terminal(t.phase) {
        t := t.(reply := Some(Cancel));
      }
      entry := Some(t);
    }

    method TakeAsSender(from: Transfer, m: Message, env: Env) returns (t: Transfer)
      ensures t == SenderReceives(from, m, env)
    {
      t := from;
      if m.Accept? && t.phase == Offered && m.offset <= t.size {
        if t.source.None? || |t.source.value.content| != t.size || !env.sourceOk { return Fail(t); }
        t := t.(source := Some(t.source.value.(cursor := m.offset)));
        t := t.(position := m.offset, sent := m.offset);
        t := t.(phase := Sending);
      } else if m.Ack? && t.phase == Sending && m.offset <= t.sent {
        if t.position < m.offset { t := t.(position := m.offset); }
      } else if m.Complete? && (t.phase == Sending || t.phase == Offered) && m.offset == t.size {
        t := t.(position := t.size);
        t := t.(phase := Completed);
        t := t.(source := None);
      }
    }

    method TakeAsReceiver(m: Message, env: Env)
      requires entry.Some?
      modifies this
      ensures var x := ReceiverReceives(sha256, old(View()), m, env); View() == x.endpoint && x.sends == []
    {
      var t := entry.value;
      if m.Finish? && t.phase == Completed {
        entry := Some(t.(reply := Some(Complete(t.size))));
        return;
      }
      if t.phase != Receiving || t.destination.None? { return; }
      if m.Chunk? {
        if !ChunkFits(t, m) || !env.writeOk {
          entry := Some(Fail(t));
          return;
        }
        t := t.(destination := Some(t.destination.value + m.payload));
        t := t.(hashed := t.hashed + m.payload);
        t := t.(position := t.position + |m.payload|);
        entry := Some(t.(reply := Some(Ack(t.position))));
      } else if m.Finish? {
        if t.position != t.size || sha256(t.hashed) != t.digest || !env.commitOk {
          entry := Some(Fail(t));
          return;
        }
        saved := t.destination;
        t := t.(destination := None);
        t := t.(phase := Completed);
        entry := Some(t.(reply := Some(Complete(t.size))));
      }
    }

    /** Hash a bounded piece of the source; offer it once the end is reached. */
    method HashPiece(from: Transfer, tick: Tick) returns (t: Transfer)
      ensures t == HashSome(sha256, from, tick)
    {
      t := from;
      if t.phase != Hashing || tick.hashBudget == 0 || t.source.None? { return; }
      var s := t.source.value;
      if tick.readable == 0 || |s.content| != t.size || s.cursor > |s.content| { return Fail(t); }
      var end := Min(s.cursor + tick.hashBudget, |s.content|);
      t := t.(hashed := t.hashed + s.content[s.cursor..end]);
      if end == |s.content| {
        t := t.(digest := sha256(t.hashed));
        t := t.(source := Some(s.(cursor := 0)));
        t := t.(phase := Offered);
      } else {
        t := t.(source := Some(s.(cursor := end)));
      }
    }

    /** Fill the window: the loop the transfer spends its time in. */
    method FillWindow(from: Transfer, tick: Tick, k: nat) returns (t: Transfer, out: seq<Message>, used: nat)
      ensures Pumped(t, out, used) == SendChunks(from, tick, tick.chunkBudget, tick.readable, k)
    {
      t, out, used := from, [], k;
      var budget, readable := tick.chunkBudget, tick.readable;
      while budget > 0 && t.sent < t.size && t.sent - t.position < WINDOW && t.source.Some?
        invariant SendChunks(from, tick, tick.chunkBudget, tick.readable, k)
          == Prepend(out, SendChunks(t, tick, budget, readable, used))
        decreases budget
      {
        if readable == 0 || t.source.value.cursor >= NextEnd(t) {
          t := Fail(t);
          return;
        }
        if !Taken(tick, used) {
          t := t.(source := Some(t.source.value.(cursor := t.sent)));
          used := used + 1;
          return;
        }
        var end := NextEnd(t);
        var chunk := Chunk(t.sent, t.source.value.content[t.source.value.cursor..end]);
        PrependTwice(out, [chunk], SendChunks(AfterChunk(t), tick, budget - 1, readable - 1, used + 1));
        out := out + [chunk];
        t := t.(source := Some(t.source.value.(cursor := end)), sent := t.sent + |chunk.payload|);
        budget, readable, used := budget - 1, readable - 1, used + 1;
      }
    }

    /** The waiting reply first, then the repeated offer. */
    method ReplyAndOffer(from: Transfer, tick: Tick, k: nat) returns (t: Transfer, out: seq<Message>, used: nat)
      ensures var b := SendReply(from, tick, k); var c := SendOffer(b.transfer, tick, b.used);
        t == c.transfer && out == b.out + c.out && used == c.used
    {
      t, out, used := from, [], k;
      if t.reply.Some? {
        if Taken(tick, used) {
          out := [t.reply.value];
          t := t.(reply := None);
        }
        used := used + 1;
      }
      if t.phase == Offered && tick.now - t.lastOffer >= 2000 {
        if Taken(tick, used) {
          out := out + [Offer(t.size, t.digest, t.name)];
          t := t.(lastOffer := tick.now);
        }
        used := used + 1;
      }
    }

    method PumpEntry(from: Transfer, tick: Tick, k: nat) returns (t: Transfer, out: seq<Message>)
      ensures var p := PumpTransfer(sha256, from, connected, tick, k); t == p.transfer && out == p.out
    {
      out := [];
      t := HashPiece(from, tick);
      if (from.phase == Hashing && t.phase == Failed) || !connected { return; }
      var used, chunks;
      t, out, used := ReplyAndOffer(t, tick, k);
      if t.phase != Sending { return; }
      t, chunks, used := FillWindow(t, tick, used);
      out := out + chunks;
      if t.phase == Sending && t.position == t.size && tick.now - t.lastOffer >= 1000 && Taken(tick, used) {
        out := out + [Finish];
        t := t.(lastOffer := tick.now);
      }
    }

    method PumpTick(tick: Tick) returns (out: seq<Message>)
      modifies this
      ensures var x := Pump(sha256, old(View()), tick); View() == x.endpoint && out == x.sends
    {
      out := [];
      var k := 0;
      if retired.Some? && retired.value.pending && connected {
        k := 1;
        if Taken(tick, 0) {
          out := [retired.value.reply];
          retired := Some(retired.value.(pending := false));
        }
      }
      if entry.Some? {
        var t, more := PumpEntry(entry.value, tick, k);
        entry := Some(t);
        out := out + more;
      }
    }
  }
}
