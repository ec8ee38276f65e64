/** Every action of the two-endpoint transfer system keeps its invariant. */
module TransferProofs {
  import opened Wrappers
  import opened TransferProtocol
  import opened TransferSystem

  // ---- channels ----

  lemma {:induction false} InFlightAppend(q: seq<Message>, x: seq<Message>)
    ensures InFlight(q + x) == InFlight(q) + InFlight(x)
  {
    if q == [] {
      assert q + x == x;
    } else {
      assert (q + x)[1..] == q[1..] + x;
      InFlightAppend(q[1..], x);
    }
  }

  lemma {:induction false} ContiguousAppend(q: seq<Message>, x: seq<Message>, p: nat, size: nat)
    ensures Contiguous(q + x, p, size) <==> Contiguous(q, p, size) && Contiguous(x, p + |InFlight(q)|, size)
  {
    if q == [] {
      assert q + x == x;
    } else {
      var rest, n := q[1..], if q[0].Chunk? then |q[0].payload| else 0;
      assert (q + x)[1..] == rest + x;
      ContiguousAppend(rest, x, p + n, size);
      assert |InFlight(q)| == n + |InFlight(rest)|;
    }
  }

  lemma {:induction false} QuietIsEmpty(q: seq<Message>, p: nat, size: nat)
    requires Quiet(q)
    ensures Contiguous(q, p, size) && InFlight(q) == []
  {
    if q != [] { QuietIsEmpty(q[1..], p, size); }
  }

  // ---- the sender's timer ----

  /** What one sent chunk looks like. */
  lemma OneChunk(h: Hash, f: File, t: Transfer)
    requires SendingEntryOk(h, f, t) && t.phase == Sending && WindowOpen(t)
    ensures HasChunk(t) && TruthfulToReceiver(h, f, NextChunk(t))
    ensures SendingEntryOk(h, f, AfterChunk(t)) && AfterChunk(t).phase == Sending
  {
  }

  ghost predicate ChunksSent(h: Hash, f: File, t: Transfer, p: Pumped) {
    && SendingEntryOk(h, f, p.transfer) && (p.transfer.phase == Sending || p.transfer.phase == Failed)
    && p.transfer.position == t.position && p.transfer.lastOffer == t.lastOffer
    && (forall m <- p.out :: TruthfulToReceiver(h, f, m) && m.Chunk?)
    && t.sent + |InFlight(p.out)| == p.transfer.sent
    && Contiguous(p.out, t.sent, t.size)
  }

  lemma ChunkThenRest(h: Hash, f: File, t: Transfer, rest: Pumped)
    requires HasChunk(t) && TruthfulToReceiver(h, f, NextChunk(t))
    requires ChunksSent(h, f, AfterChunk(t), rest)
    ensures ChunksSent(h, f, t, Prepend([NextChunk(t)], rest))
  {
    var out := [NextChunk(t)] + rest.out;
    assert out[1..] == rest.out;
    assert InFlight(out) == NextChunk(t).payload + InFlight(rest.out);
  }

  /** The chunk loop keeps the entry well formed and emits exactly the bytes from `sent` on. */
  lemma {:induction false} ChunksKeep(h: Hash, f: File, t: Transfer, tick: Tick, budget: nat, readable: nat, k: nat)
    requires SendingEntryOk(h, f, t) && t.phase == Sending
    ensures ChunksSent(h, f, t, SendChunks(t, tick, budget, readable, k))
    decreases budget
  {
    if budget > 0 && WindowOpen(t) {
      OneChunk(h, f, t);
      if readable > 0 && Taken(tick, k) {
        ChunksKeep(h, f, AfterChunk(t), tick, budget - 1, readable - 1, k + 1);
        ChunkThenRest(h, f, t, SendChunks(AfterChunk(t), tick, budget - 1, readable - 1, k + 1));
      }
    }
  }

  lemma HashKeeps(h: Hash, f: File, t: Transfer, tick: Tick)
    requires SendingEntryOk(h, f, t)
    ensures SendingEntryOk(h, f, HashSome(h, t, tick))
    ensures t.phase != Hashing ==> HashSome(h, t, tick) == t
    ensures t.phase == Hashing ==> HashSome(h, t, tick).phase in {Hashing, Offered, Failed}
  {
    if t.phase == Hashing && tick.hashBudget > 0 && tick.readable > 0 {
      var s := t.source.value;
      var end := Min(s.cursor + tick.hashBudget, |s.content|);
      assert f.content[..s.cursor] + f.content[s.cursor..end] == f.content[..end];
      assert f.content[..|f.content|] == f.content;
    }
  }

  ghost predicate SenderPumped(h: Hash, f: File, t: Transfer, p: Pumped) {
    && SendingEntryOk(h, f, p.transfer)
    && (forall m <- p.out :: TruthfulToReceiver(h, f, m))
    && p.transfer.position == t.position
    && (t.phase == Sending ==>
          && (p.transfer.phase == Sending || p.transfer.phase == Failed)
          && Contiguous(p.out, t.sent, t.size) && t.sent + |InFlight(p.out)| == p.transfer.sent)
    && (t.phase != Sending ==> Quiet(p.out) && p.transfer.phase != Sending)
    && (p.transfer.phase == Completed ==> t.phase == Completed)
    && (p.transfer.phase in {Hashing, Offered} ==> t.phase in {Hashing, Offered})
  }

  lemma PumpKeeps(h: Hash, f: File, t: Transfer, connected: bool, tick: Tick, k: nat)
    requires SendingEntryOk(h, f, t)
    ensures SenderPumped(h, f, t, PumpTransfer(h, t, connected, tick, k))
  {
    if t.phase == Sending && connected {
      PumpSending(h, f, t, tick, k);
    } else {
      PumpQuietly(h, f, t, connected, tick, k);
    }
  }

  lemma PumpQuietly(h: Hash, f: File, t: Transfer, connected: bool, tick: Tick, k: nat)
    requires SendingEntryOk(h, f, t) && !(t.phase == Sending && connected)
    ensures SenderPumped(h, f, t, PumpTransfer(h, t, connected, tick, k))
  {
    HashKeeps(h, f, t, tick);
  }

  lemma PumpSending(h: Hash, f: File, t: Transfer, tick: Tick, k: nat)
    requires SendingEntryOk(h, f, t) && t.phase == Sending
    ensures SenderPumped(h, f, t, PumpTransfer(h, t, true, tick, k))
  {
    ChunksKeep(h, f, t, tick, tick.chunkBudget, tick.readable, k);
    SendingOutput(h, t, tick, k);
    FinishKeeps(h, f, t, SendChunks(t, tick, tick.chunkBudget, tick.readable, k), tick);
  }

  lemma FinishKeeps(h: Hash, f: File, t: Transfer, d: Pumped, tick: Tick)
    requires SendingEntryOk(h, f, t) && t.phase == Sending && ChunksSent(h, f, t, d)
    ensures var e := SendFinish(d.transfer, tick, d.used);
      SenderPumped(h, f, t, Pumped(e.transfer, d.out + e.out, e.used))
  {
    var e := SendFinish(d.transfer, tick, d.used);
    ContiguousAppend(d.out, e.out, t.sent, t.size);
    InFlightAppend(d.out, e.out);
    FinishAlone(e.out, d.transfer.sent, t.size);
  }

  lemma SendingOutput(h: Hash, t: Transfer, tick: Tick, k: nat)
    requires t.phase == Sending && t.reply.None?
    ensures var d := SendChunks(t, tick, tick.chunkBudget, tick.readable, k);
      var e := SendFinish(d.transfer, tick, d.used);
      PumpTransfer(h, t, true, tick, k) == Pumped(e.transfer, d.out + e.out, e.used)
  {
    var d := SendChunks(t, tick, tick.chunkBudget, tick.readable, k);
    var e := SendFinish(d.transfer, tick, d.used);
    var none: seq<Message> := [];
    assert none + none + d.out + e.out == d.out + e.out;
  }

  lemma FinishAlone(out: seq<Message>, p: nat, size: nat)
    requires out == [] || (out == [Finish] && p == size)
    ensures Contiguous(out, p, size) && InFlight(out) == []
  {
  }

  // ---- appending to the channels ----

  /** The sender moves to `e` and emits `out`. */
  ghost predicate SenderMove(h: Hash, f: File, sys: System, e: Endpoint, out: seq<Message>) {
    && SenderOk(h, f, e)
    && (e.entry.Some? ==> sys.s.entry.Some?)
    && (e.connected ==> sys.sLink == Open)
    && (InPhase(e, Completed) ==> sys.r.saved.Some?)
    && (sys.sLink == Open || out == [])
    && (forall m <- out :: TruthfulToReceiver(h, f, m))
    && (InPhase(sys.s, Sending) ==> Contiguous(out, sys.s.entry.value.sent, sys.s.entry.value.size))
    && (InPhase(e, Sending) ==>
          && InPhase(sys.s, Sending) && e.entry.value.position == sys.s.entry.value.position
          && sys.s.entry.value.sent + |InFlight(out)| == e.entry.value.sent)
    && (!InPhase(sys.s, Sending) ==> Quiet(out))
    && (Unsent(e) ==> Unsent(sys.s) && e.connected == sys.s.connected)
  }

  lemma ToReceiverWindow(h: Hash, f: File, sys: System, e: Endpoint, out: seq<Message>)
    requires Inv(h, f, sys) && SenderMove(h, f, sys, e, out)
    ensures !sys.forgotten ==> WindowOk(sys.(s := e, toR := sys.toR + out))
  {
    if InPhase(sys.r, Receiving) && sys.rLink == Open {
      var p, size := sys.r.entry.value.position, sys.r.entry.value.size;
      ContiguousAppend(sys.toR, out, p, size);
      InFlightAppend(sys.toR, out);
      if !InPhase(sys.s, Sending) { QuietIsEmpty(out, p + |InFlight(sys.toR)|, size); }
    }
  }

  lemma ToReceiverOrdered(h: Hash, f: File, sys: System, e: Endpoint, out: seq<Message>)
    requires Inv(h, f, sys) && SenderMove(h, f, sys, e, out)
    ensures Ordered(sys.(s := e, toR := sys.toR + out))
  {
    var y := sys.(s := e, toR := sys.toR + out);
    assert forall m <- y.toR :: m in sys.toR || m in out;
    ToReceiverWindow(h, f, sys, e, out);
  }

  lemma ToReceiverGrows(h: Hash, f: File, sys: System, e: Endpoint, out: seq<Message>)
    requires Inv(h, f, sys) && SenderMove(h, f, sys, e, out)
    ensures Inv(h, f, sys.(s := e, toR := sys.toR + out))
  {
    var y := sys.(s := e, toR := sys.toR + out);
    assert Truthful(h, f, y) by { assert forall m <- y.toR :: m in sys.toR || m in out; }
    ToReceiverOrdered(h, f, sys, e, out);
  }

  lemma PumpOfEntry(h: Hash, e: Endpoint, tick: Tick)
    requires e.entry.Some? && e.retired.None?
    ensures var p := PumpTransfer(h, e.entry.value, e.connected, tick, 0);
      Pump(h, e, tick) == Reaction(e.(entry := Some(p.transfer)), p.out)
  {
    var p := PumpTransfer(h, e.entry.value, e.connected, tick, 0);
    assert [] + p.out == p.out;
  }

  lemma SenderTimer(h: Hash, f: File, sys: System, tick: Tick)
    requires Inv(h, f, sys)
    ensures Inv(h, f, Apply(h, sys, Timer(Sender, tick)))
  {
    var tk := ThroughLink(sys, Sender, tick);
    var x := Pump(h, sys.s, tk);
    if sys.s.entry.Some? {
      var p := PumpTransfer(h, sys.s.entry.value, sys.s.connected, tk, 0);
      PumpKeeps(h, f, sys.s.entry.value, sys.s.connected, tk, 0);
      NothingWithoutLink(h, sys.s.entry.value, sys.s.connected, tk, 0);
      PumpOfEntry(h, sys.s, tk);
      ToReceiverGrows(h, f, sys, sys.s.(entry := Some(p.transfer)), p.out);
      SenderReacts(sys, x);
    } else {
      ToReceiverGrows(h, f, sys, x.endpoint, x.sends);
      SenderReacts(sys, x);
    }
  }

  lemma SenderReacts(sys: System, x: Reaction)
    requires sys.sLink == Open || x.sends == []
    ensures React(sys, Sender, x) == sys.(s := x.endpoint, toR := sys.toR + x.sends)
  {
    assert sys.toR + [] == sys.toR;
  }

  lemma {:induction false} NoChunksRefused(t: Transfer, tick: Tick, budget: nat, readable: nat, k: nat)
    requires tick.link == []
    ensures SendChunks(t, tick, budget, readable, k).out == []
  {
  }

  lemma NothingWithoutLink(h: Hash, t: Transfer, connected: bool, tick: Tick, k: nat)
    ensures tick.link == [] ==> PumpTransfer(h, t, connected, tick, k).out == []
  {
    var b := SendReply(HashSome(h, t, tick), tick, k);
    var c := SendOffer(b.transfer, tick, b.used);
    if tick.link == [] { NoChunksRefused(c.transfer, tick, tick.chunkBudget, tick.readable, c.used); }
  }

  // ---- the sender's other steps ----

  lemma SenderQuietMove(h: Hash, f: File, sys: System, e: Endpoint, out: seq<Message>)
    requires Inv(h, f, sys) && SenderOk(h, f, e) && !InPhase(e, Sending)
    requires e.entry.Some? ==> sys.s.entry.Some?
    requires e.connected ==> sys.sLink == Open
    requires InPhase(e, Completed) ==> sys.r.saved.Some?
    requires out == [] || (out == [Cancel] && sys.sLink == Open)
    requires Unsent(e) ==> Unsent(sys.s) && e.connected == sys.s.connected
    ensures Inv(h, f, sys.(s := e, toR := sys.toR + out))
  {
    ToReceiverGrows(h, f, sys, e, out);
  }

  lemma SenderLocal(h: Hash, f: File, sys: System, e: Endpoint)
    requires Inv(h, f, sys)
    requires e == CancelTransfer(sys.s) || e == Dismiss(sys.s) || e == OtherDismissed(sys.s)
    ensures Inv(h, f, sys.(s := e))
  {
    assert sys.toR + [] == sys.toR;
    ToReceiverGrows(h, f, sys, e, []);
  }

  lemma CutOffMove(h: Hash, f: File, sys: System)
    requires Inv(h, f, sys)
    ensures SenderMove(h, f, sys, RemovePeer(sys.s), [])
  {
  }

  lemma SenderCutOff(h: Hash, f: File, sys: System)
    requires Inv(h, f, sys)
    ensures Inv(h, f, sys.(s := RemovePeer(sys.s)))
  {
    CutOffMove(h, f, sys);
    assert sys.toR + [] == sys.toR;
    ToReceiverGrows(h, f, sys, RemovePeer(sys.s), []);
  }

  lemma SenderClearMove(h: Hash, f: File, sys: System, sends: seq<Message>)
    requires Inv(h, f, sys) && (sends == [] || (sends == Clear(sys.s).sends && sys.sLink == Open))
    ensures SenderMove(h, f, sys, Clear(sys.s).endpoint, sends)
  {
  }

  lemma SenderClears(h: Hash, f: File, sys: System, taken: bool)
    requires Inv(h, f, sys)
    ensures Inv(h, f, Apply(h, sys, LeaveMesh(Sender, taken)))
  {
    var e := Clear(sys.s).endpoint;
    var sends := if taken && sys.sLink == Open then Clear(sys.s).sends else [];
    SenderClearMove(h, f, sys, sends);
    ToReceiverGrows(h, f, sys, e, sends);
    assert sys.toR + [] == sys.toR;
    assert Apply(h, sys, LeaveMesh(Sender, taken)) == sys.(s := e, toR := sys.toR + sends);
  }

  lemma DropToSender(h: Hash, f: File, sys: System)
    requires Inv(h, f, sys) && sys.toS != []
    ensures Inv(h, f, sys.(toS := sys.toS[1..]))
  {
  }

  lemma SenderHears(h: Hash, f: File, sys: System, env: Env, taken: bool)
    requires Inv(h, f, sys)
    ensures Inv(h, f, Apply(h, sys, Deliver(Sender, env, taken)))
  {
    if sys.toS != [] {
      var rest := sys.(toS := sys.toS[1..]);
      DropToSender(h, f, sys);
      if sys.sLink == Open {
        var m := sys.toS[0];
        assert m in sys.toS && TruthfulToSender(f, sys.r.saved.Some?, m);
        var x := Receive(h, sys.s, m, env);
        assert x.sends == [];
        SenderReacts(rest, x);
        assert rest.toR + [] == rest.toR;
        if sys.s.entry.Some? && WellSized(m) && sys.s.retired.None?
          && !(m.Cancel? && !Terminal(sys.s.entry.value.phase)) {
          SenderHearsReply(h, f, sys, m, env);
        } else if m.Cancel? && x.endpoint != sys.s {
          SenderQuietMove(h, f, rest, x.endpoint, []);
        }
      }
    }
  }

  lemma SenderHearsReply(h: Hash, f: File, sys: System, m: Message, env: Env)
    requires Inv(h, f, sys) && sys.sLink == Open && sys.toS != [] && m == sys.toS[0]
    requires sys.s.entry.Some?
    ensures Inv(h, f, sys.(toS := sys.toS[1..], s := sys.s.(entry := Some(SenderReceives(sys.s.entry.value, m, env)))))
  {
    var rest := sys.(toS := sys.toS[1..]);
    DropToSender(h, f, sys);
    var t := sys.s.entry.value;
    var t1 := SenderReceives(t, m, env);
    var e := sys.s.(entry := Some(t1));
    assert m in sys.toS && TruthfulToSender(f, sys.r.saved.Some?, m);
    assert rest.toR + [] == rest.toR;
    if t1.phase != Sending {
      SenderQuietMove(h, f, rest, e, []);
    } else if t.phase == Offered {
      SenderResumes(h, f, sys, m, env);
    } else {
      SenderAdvances(h, f, sys, m, env);
    }
  }

  lemma SenderResumes(h: Hash, f: File, sys: System, m: Message, env: Env)
    requires Inv(h, f, sys) && sys.sLink == Open && sys.toS != [] && m == sys.toS[0]
    requires InPhase(sys.s, Offered) && SenderReceives(sys.s.entry.value, m, env).phase == Sending
    ensures Inv(h, f, sys.(toS := sys.toS[1..], s := sys.s.(entry := Some(SenderReceives(sys.s.entry.value, m, env)))))
  {
    assert m in sys.toS && m.Accept?;
    DropToSender(h, f, sys);
    if InPhase(sys.r, Receiving) && !sys.forgotten {
      QuietIsEmpty(sys.toR, sys.r.entry.value.position, sys.r.entry.value.size);
    }
  }

  lemma SenderAdvances(h: Hash, f: File, sys: System, m: Message, env: Env)
    requires Inv(h, f, sys) && sys.sLink == Open && sys.toS != [] && m == sys.toS[0]
    requires InPhase(sys.s, Sending) && SenderReceives(sys.s.entry.value, m, env).phase == Sending
    ensures Inv(h, f, sys.(toS := sys.toS[1..], s := sys.s.(entry := Some(SenderReceives(sys.s.entry.value, m, env)))))
  {
    assert m in sys.toS && TruthfulToSender(f, sys.r.saved.Some?, m);
    DropToSender(h, f, sys);
  }

  lemma SenderLeaves(h: Hash, f: File, sys: System)
    requires Inv(h, f, sys)
    ensures Inv(h, f, Apply(h, sys, LeaveEnd(Sender)))
  {
  }

  lemma SenderOpens(h: Hash, f: File, sys: System)
    requires Inv(h, f, sys)
    ensures Inv(h, f, Apply(h, sys, OpenEnd(Sender)))
  {
  }

  lemma LinkRenewed(h: Hash, f: File, sys: System)
    requires Inv(h, f, sys)
    ensures Inv(h, f, Apply(h, sys, NewLink))
  {
  }

  // ---- the receiver's steps ----

  /** The receiver moves to `e`, its inbox to `toR`, and `out` goes to the sender. */
  ghost predicate ReceiverMove(h: Hash, f: File, sys: System, e: Endpoint, toR: seq<Message>, out: seq<Message>) {
    && ReceiverOk(h, f, e)
    && (sys.r.saved.Some? ==> e.saved.Some?)
    && (sys.rLink == Open || out == [])
    && (forall m <- toR :: m in sys.toR)
    && (sys.sLink == Waiting ==> toR == [])
    && (forall m <- out :: TruthfulToSender(f, e.saved.Some?, m))
    && (forall m <- out :: m.Accept? || m.Ack? ==>
          Started(e) && e.entry.Some? && Offset(m) == e.entry.value.position)
    && (Started(sys.r) ==> Started(e) || sys.r.retired.Some?)
    && (sys.r.retired.Some? && e.retired.None? ==> e.entry.None?)
    && (sys.r.entry.Some? && e.entry.Some? ==> sys.r.entry.value.position <= e.entry.value.position)
    && (sys.r.entry.None? && e.entry.Some? ==> !Started(e) && sys.r.retired.None?)
    && (Live(e) ==> Live(sys.r) || InPhase(sys.r, Incoming))
    && (!sys.forgotten ==> KeepsWindow(sys, e, toR))
  }

  ghost predicate KeepsWindow(sys: System, e: Endpoint, toR: seq<Message>) {
    && (Live(e) && Unsent(sys.s) && sys.sLink != Gone && Live(sys.r) ==>
          sys.r.entry.value.position == e.entry.value.position)
    && (InPhase(sys.s, Sending) && Live(e) ==> e.entry.value.position <= sys.s.entry.value.sent)
    && (sys.rLink == Open && InPhase(e, Receiving) ==>
          && Contiguous(toR, e.entry.value.position, e.entry.value.size)
          && (InPhase(sys.s, Sending) ==> e.entry.value.position + |InFlight(toR)| == sys.s.entry.value.sent))
  }

  lemma ReceiverTruthful(h: Hash, f: File, sys: System, e: Endpoint, toR: seq<Message>, out: seq<Message>)
    requires Inv(h, f, sys) && ReceiverMove(h, f, sys, e, toR, out)
    ensures Truthful(h, f, SetEnd(sys, Receiver, e).(toR := toR, toS := sys.toS + out))
  {
    assert forall m <- sys.toS + out :: m in sys.toS || m in out;
  }

  lemma ReceiverOrdered(h: Hash, f: File, sys: System, e: Endpoint, toR: seq<Message>, out: seq<Message>)
    requires Inv(h, f, sys) && ReceiverMove(h, f, sys, e, toR, out)
    ensures Ordered(SetEnd(sys, Receiver, e).(toR := toR, toS := sys.toS + out))
  {
    assert forall m <- sys.toS + out :: m in sys.toS || m in out;
  }

  lemma ReceiverMoves(h: Hash, f: File, sys: System, e: Endpoint, toR: seq<Message>, out: seq<Message>)
    requires Inv(h, f, sys) && ReceiverMove(h, f, sys, e, toR, out)
    ensures Inv(h, f, SetEnd(sys, Receiver, e).(toR := toR, toS := sys.toS + out))
  {
    ReceiverTruthful(h, f, sys, e, toR, out);
    ReceiverOrdered(h, f, sys, e, toR, out);
  }

  lemma ReceiverAccepts(h: Hash, f: File, sys: System, opens: bool)
    requires Inv(h, f, sys)
    ensures Inv(h, f, Apply(h, sys, UserAccept(opens)))
  {
    var e := AcceptOffer(sys.r, opens);
    assert sys.toS + [] == sys.toS;
    if InPhase(sys.r, Incoming) && !sys.forgotten {
      QuietIsEmpty(sys.toR, 0, sys.r.entry.value.size);
    }
    ReceiverMoves(h, f, sys, e, sys.toR, []);
  }

  lemma ReceiverLocal(h: Hash, f: File, sys: System, e: Endpoint)
    requires Inv(h, f, sys)
    requires e == CancelTransfer(sys.r) || e == Dismiss(sys.r) || e == OtherDismissed(sys.r)
    ensures Inv(h, f, SetEnd(sys, Receiver, e))
  {
    assert sys.toS + [] == sys.toS;
    ReceiverMoves(h, f, sys, e, sys.toR, []);
  }

  lemma ReceiverCutOff(h: Hash, f: File, sys: System)
    requires Inv(h, f, sys)
    ensures Inv(h, f, SetEnd(sys, Receiver, RemovePeer(sys.r)))
  {
    assert sys.toS + [] == sys.toS;
    ReceiverMoves(h, f, sys, RemovePeer(sys.r), sys.toR, []);
  }

  lemma ReceiverReacts(sys: System, x: Reaction)
    requires sys.rLink == Open || x.sends == []
    ensures React(sys, Receiver, x)
      == SetEnd(sys, Receiver, x.endpoint).(toR := sys.toR, toS := sys.toS + x.sends)
  {
    assert sys.toS + [] == sys.toS;
  }

  lemma ReceiverClearMove(h: Hash, f: File, sys: System, sends: seq<Message>)
    requires Inv(h, f, sys) && (sends == [] || (sends == Clear(sys.r).sends && sys.rLink == Open))
    ensures ReceiverMove(h, f, sys, Clear(sys.r).endpoint, sys.toR, sends)
  {
  }

  lemma ReceiverClears(h: Hash, f: File, sys: System, taken: bool)
    requires Inv(h, f, sys)
    ensures Inv(h, f, Apply(h, sys, LeaveMesh(Receiver, taken)))
  {
    var e := Clear(sys.r).endpoint;
    var sends := if taken && sys.rLink == Open then Clear(sys.r).sends else [];
    ReceiverClearMove(h, f, sys, sends);
    ReceiverMoves(h, f, sys, e, sys.toR, sends);
    assert sys.toS + [] == sys.toS;
    assert Apply(h, sys, LeaveMesh(Receiver, taken))
      == SetEnd(sys, Receiver, e).(toR := sys.toR, toS := sys.toS + sends);
  }

  /** On the receiving end the timer only sends the waiting reply. */
  lemma ReceiverPump(h: Hash, f: File, e: Endpoint, tick: Tick)
    requires ReceiverOk(h, f, e)
    ensures var x := Pump(h, e, tick);
      && ReceiverOk(h, f, x.endpoint) && x.endpoint.saved == e.saved && x.endpoint.connected == e.connected
      && (e.entry.Some? ==>
        x.endpoint.entry.Some? && x.endpoint.entry.value == e.entry.value.(reply := x.endpoint.entry.value.reply))
      && (e.entry.None? ==> x.endpoint.entry.None?)
      && x.endpoint.retired.Some? == e.retired.Some?
      && (tick.link == [] ==> x.sends == [])
      && (x.sends == [] || (e.entry.Some? && e.entry.value.reply.Some? && x.sends == [e.entry.value.reply.value])
          || (e.retired.Some? && x.sends == [e.retired.value.reply]))
  {
    if e.entry.Some? {
      PumpOfEntry(h, e, tick);
      var b := SendReply(e.entry.value, tick, 0);
      assert b.out + [] == b.out;
    }
  }

  lemma ReceiverTimerMove(h: Hash, f: File, sys: System, tick: Tick)
    requires Inv(h, f, sys) && (sys.rLink == Open || tick.link == [])
    ensures var x := Pump(h, sys.r, tick); ReceiverMove(h, f, sys, x.endpoint, sys.toR, x.sends)
  {
    ReceiverPump(h, f, sys.r, tick);
  }

  lemma ReceiverTimer(h: Hash, f: File, sys: System, tick: Tick)
    requires Inv(h, f, sys)
    ensures Inv(h, f, Apply(h, sys, Timer(Receiver, tick)))
  {
    var tk := ThroughLink(sys, Receiver, tick);
    var x := Pump(h, sys.r, tk);
    ReceiverTimerMove(h, f, sys, tk);
    ReceiverMoves(h, f, sys, x.endpoint, sys.toR, x.sends);
    if sys.rLink != Open { ReceiverPump(h, f, sys.r, tk); }
    ReceiverReacts(sys, x);
  }

  lemma ReceiverOpens(h: Hash, f: File, sys: System)
    requires Inv(h, f, sys)
    ensures Inv(h, f, Apply(h, sys, OpenEnd(Receiver)))
  {
    if sys.rLink == Waiting && InPhase(sys.r, Receiving) {
      QuietIsEmpty(sys.toR, sys.r.entry.value.position, sys.r.entry.value.size);
    }
  }

  lemma ReceiverLeaves(h: Hash, f: File, sys: System)
    requires Inv(h, f, sys)
    ensures Inv(h, f, Apply(h, sys, LeaveEnd(Receiver)))
  {
  }

  // ---- a message reaches the receiver ----

  /** The window as seen by the receiver when `m` heads its inbox. */
  lemma HeadOfWindow(h: Hash, f: File, sys: System)
    requires Inv(h, f, sys) && sys.toR != [] && !sys.forgotten
    requires sys.rLink == Open && InPhase(sys.r, Receiving)
    ensures sys.toR[0].Chunk? ==> ChunkFits(sys.r.entry.value, sys.toR[0])
    ensures sys.toR[0].Finish? ==> DigestFits(h, sys.r.entry.value)
    ensures var t := sys.r.entry.value; var n := if sys.toR[0].Chunk? then |sys.toR[0].payload| else 0;
      Contiguous(sys.toR[1..], t.position + n, t.size) && |InFlight(sys.toR)| == n + |InFlight(sys.toR[1..])|
  {
    assert sys.toR[0] in sys.toR;
    assert f.content[..|f.content|] == f.content;
  }

  /** How one truthful message may change the receiving endpoint. */
  ghost predicate TookMessage(h: Hash, f: File, r: Endpoint, m: Message, x: Reaction) {
    var e := x.endpoint;
    && ReceiverOk(h, f, e)
    && (r.saved.Some? ==> e.saved.Some?)
    && r.retired == e.retired && r.connected == e.connected
    && (x.sends == [] || x.sends == [Cancel] || (r.retired.Some? && x.sends == [r.retired.value.reply]))
    && (e == r || Appeared(r, e) || Progressed(r, m, e) || Reshaped(r, m, e))
    && (InPhase(r, Receiving) && m.Chunk? ==> !InPhase(e, Receiving) || Progressed(r, m, e))
  }

  predicate Appeared(r: Endpoint, e: Endpoint) { r.entry.None? && r.retired.None? && InPhase(e, Incoming) }

  predicate Progressed(r: Endpoint, m: Message, e: Endpoint) {
    && InPhase(r, Receiving) && m.Chunk? && ChunkFits(r.entry.value, m) && InPhase(e, Receiving)
    && e.entry.value.position == r.entry.value.position + |m.payload|
    && e.entry.value.size == r.entry.value.size
  }

  predicate Reshaped(r: Endpoint, m: Message, e: Endpoint) {
    && r.entry.Some? && e.entry.Some? && (InPhase(r, Incoming) ==> InPhase(e, Incoming) || Started(e))
    && (Started(r) ==> Started(e))
    && e.entry.value.position == r.entry.value.position && e.entry.value.size == r.entry.value.size
    && (Live(e) ==> Live(r)) && (InPhase(e, Receiving) ==> InPhase(r, Receiving))
  }

  lemma TakeOffer(h: Hash, f: File, r: Endpoint, m: Message, env: Env)
    requires ReceiverOk(h, f, r) && TruthfulToReceiver(h, f, m) && |f.content| <= MAX_FILE_SIZE
    requires m.Offer?
    ensures TookMessage(h, f, r, m, Receive(h, r, m, env))
  {
    assert f.content[..0] == [];
  }

  lemma TakeChunk(h: Hash, f: File, r: Endpoint, m: Message, env: Env)
    requires ReceiverOk(h, f, r) && TruthfulToReceiver(h, f, m) && |f.content| <= MAX_FILE_SIZE
    requires m.Chunk?
    ensures TookMessage(h, f, r, m, Receive(h, r, m, env))
  {
    if InPhase(r, Receiving) && ChunkFits(r.entry.value, m) {
      var p := r.entry.value.position;
      assert f.content[..p] + f.content[p..p + |m.payload|] == f.content[..p + |m.payload|];
    }
  }

  lemma TakeOther(h: Hash, f: File, r: Endpoint, m: Message, env: Env)
    requires ReceiverOk(h, f, r) && TruthfulToReceiver(h, f, m) && |f.content| <= MAX_FILE_SIZE
    requires m.Finish? || m.Cancel?
    ensures TookMessage(h, f, r, m, Receive(h, r, m, env))
  {
    assert f.content[..|f.content|] == f.content;
  }

  lemma ReceiverHears(h: Hash, f: File, sys: System, env: Env, taken: bool)
    requires Inv(h, f, sys)
    ensures Inv(h, f, Apply(h, sys, Deliver(Receiver, env, taken)))
  {
    if sys.toR != [] && sys.rLink == Open {
      var m := sys.toR[0];
      assert m in sys.toR && TruthfulToReceiver(h, f, m);
      var x := Receive(h, sys.r, m, env);
      if m.Offer? { TakeOffer(h, f, sys.r, m, env); }
      else if m.Chunk? { TakeChunk(h, f, sys.r, m, env); }
      else { TakeOther(h, f, sys.r, m, env); }
      var out := if taken then x.sends else [];
      Heard(h, f, sys, Reaction(x.endpoint, out));
      assert Apply(h, sys, Deliver(Receiver, env, taken))
        == SetEnd(sys, Receiver, x.endpoint).(toR := sys.toR[1..], toS := sys.toS + out);
    }
  }

  lemma Heard(h: Hash, f: File, sys: System, x: Reaction)
    requires Inv(h, f, sys) && sys.toR != [] && sys.rLink == Open
    requires TookMessage(h, f, sys.r, sys.toR[0], x)
    ensures Inv(h, f, SetEnd(sys, Receiver, x.endpoint).(toR := sys.toR[1..], toS := sys.toS + x.sends))
  {
    var m := sys.toR[0];
    assert m in sys.toR;
    if !sys.forgotten && InPhase(sys.r, Receiving) { HeadOfWindow(h, f, sys); }
    ReceiverMoves(h, f, sys, x.endpoint, sys.toR[1..], x.sends);
  }

  // ---- whole runs ----

  lemma StartHolds(h: Hash, f: File)
    requires |f.content| <= MAX_FILE_SIZE
    ensures Inv(h, f, Start(f.name, f.content))
  {
  }

  predicate Concerns(a: Action, side: Side) {
    match a
    case NewLink => false
    case UserAccept(_) => side == Receiver
    case _ => a.side == side
  }

  lemma SenderApplyKeeps(h: Hash, f: File, sys: System, a: Action)
    requires Inv(h, f, sys) && Concerns(a, Sender)
    ensures Inv(h, f, Apply(h, sys, a))
  {
    match a
    case OpenEnd(_) => SenderOpens(h, f, sys);
    case LeaveEnd(_) => SenderLeaves(h, f, sys);
    case Deliver(_, env, taken) => SenderHears(h, f, sys, env, taken);
    case Timer(_, tick) => SenderTimer(h, f, sys, tick);
    case UserCancel(_) => SenderLocal(h, f, sys, CancelTransfer(sys.s));
    case UserDismiss(_) => SenderLocal(h, f, sys, Dismiss(sys.s));
    case DismissOther(_) => SenderLocal(h, f, sys, OtherDismissed(sys.s));
    case PeerRemoved(_) => SenderCutOff(h, f, sys);
    case LeaveMesh(_, taken) => SenderClears(h, f, sys, taken);
  }

  lemma ReceiverApplyKeeps(h: Hash, f: File, sys: System, a: Action)
    requires Inv(h, f, sys) && Concerns(a, Receiver)
    ensures Inv(h, f, Apply(h, sys, a))
  {
    match a
    case OpenEnd(_) => ReceiverOpens(h, f, sys);
    case LeaveEnd(_) => ReceiverLeaves(h, f, sys);
    case Deliver(_, env, taken) => ReceiverHears(h, f, sys, env, taken);
    case Timer(_, tick) => ReceiverTimer(h, f, sys, tick);
    case UserAccept(opens) => ReceiverAccepts(h, f, sys, opens);
    case UserCancel(_) => ReceiverLocal(h, f, sys, CancelTransfer(sys.r));
    case UserDismiss(_) => ReceiverLocal(h, f, sys, Dismiss(sys.r));
    case DismissOther(_) => ReceiverLocal(h, f, sys, OtherDismissed(sys.r));
    case PeerRemoved(_) => ReceiverCutOff(h, f, sys);
    case LeaveMesh(_, taken) => ReceiverClears(h, f, sys, taken);
  }

  lemma ApplyKeeps(h: Hash, f: File, sys: System, a: Action)
    requires Inv(h, f, sys)
    ensures Inv(h, f, Apply(h, sys, a))
  {
    if a == NewLink { LinkRenewed(h, f, sys); }
    else if Concerns(a, Sender) { SenderApplyKeeps(h, f, sys, a); }
    else { ReceiverApplyKeeps(h, f, sys, a); }
  }

  lemma {:induction false} RunKeeps(h: Hash, f: File, sys: System, actions: seq<Action>)
    requires Inv(h, f, sys)
    ensures Inv(h, f, Run(h, sys, actions))
    decreases |actions|
  {
    if actions != [] {
      ApplyKeeps(h, f, sys, actions[0]);
      RunKeeps(h, f, Apply(h, sys, actions[0]), actions[1..]);
    }
  }
}
