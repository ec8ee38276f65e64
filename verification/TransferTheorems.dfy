/** What the transfer protocol promises, over every run of the two endpoints and their link. */
module TransferTheorems {
  import opened Wrappers
  import opened TransferProtocol
  import opened TransferSystem
  import opened TransferProofs

  ghost predicate Reachable(h: Hash, f: File, sys: System) {
    |f.content| <= MAX_FILE_SIZE && exists actions :: sys == Run(h, Start(f.name, f.content), actions)
  }

  lemma ReachableHolds(h: Hash, f: File, sys: System)
    requires Reachable(h, f, sys)
    ensures Inv(h, f, sys)
  {
    var actions :| sys == Run(h, Start(f.name, f.content), actions);
    StartHolds(h, f);
    RunKeeps(h, f, Start(f.name, f.content), actions);
  }

  /** The bytes written so far are the source's prefix, and a committed file is the source. */
  lemma ReceivedIsPrefix(h: Hash, f: File, sys: System)
    requires Reachable(h, f, sys)
    ensures InPhase(sys.r, Receiving) ==>
      && sys.r.entry.value.position <= |f.content|
      && sys.r.entry.value.destination == Some(f.content[..sys.r.entry.value.position])
    ensures sys.r.saved.Some? ==> sys.r.saved.value == f.content
  {
    ReachableHolds(h, f, sys);
  }

  /** The sender shows "complete" only for a file the receiver has on disk, byte for byte. */
  lemma CompleteMeansSaved(h: Hash, f: File, sys: System)
    requires Reachable(h, f, sys)
    ensures InPhase(sys.s, Completed) ==> sys.r.saved == Some(f.content)
    ensures InPhase(sys.r, Completed) ==> sys.r.saved == Some(f.content)
  {
    ReachableHolds(h, f, sys);
  }

  lemma SlicesJoin(content: seq<byte>, p: nat, head: seq<byte>, rest: seq<byte>)
    requires p + |head| + |rest| <= |content| && head == content[p..p + |head|]
    requires rest == content[p + |head|..p + |head| + |rest|]
    ensures head + rest == content[p..p + |head + rest|]
  {
    assert content[p..p + |head| + |rest|][..|head|] == head;
    assert content[p..p + |head| + |rest|][|head|..] == rest;
  }

  function Payload(m: Message): seq<byte> { if m.Chunk? then m.payload else [] }

  lemma FirstInFlight(q: seq<Message>)
    requires q != []
    ensures InFlight(q) == Payload(q[0]) + InFlight(q[1..])
  {
  }

  lemma FirstIsSlice(h: Hash, f: File, q: seq<Message>, p: nat)
    requires q != [] && (forall m <- q :: TruthfulToReceiver(h, f, m))
    requires Contiguous(q, p, |f.content|) && p <= |f.content|
    ensures var first := Payload(q[0]);
      && p + |first| <= |f.content| && first == f.content[p..p + |first|]
      && Contiguous(q[1..], p + |first|, |f.content|)
    ensures forall m <- q[1..] :: TruthfulToReceiver(h, f, m)
  {
    assert TruthfulToReceiver(h, f, q[0]);
    assert forall m <- q[1..] :: m in q;
  }

  lemma {:induction false} InFlightIsSlice(h: Hash, f: File, q: seq<Message>, p: nat)
    requires forall m <- q :: TruthfulToReceiver(h, f, m)
    requires Contiguous(q, p, |f.content|) && p <= |f.content|
    ensures p + |InFlight(q)| <= |f.content| && InFlight(q) == f.content[p..p + |InFlight(q)|]
  {
    if q != [] {
      FirstIsSlice(h, f, q, p);
      InFlightIsSlice(h, f, q[1..], p + |Payload(q[0])|);
      FirstInFlight(q);
      SlicesJoin(f.content, p, Payload(q[0]), InFlight(q[1..]));
    }
  }

  /** The window: the chunks in flight are exactly the bytes the receiver lacks up to `sent`. */
  lemma WindowIsExact(h: Hash, f: File, sys: System)
    requires Reachable(h, f, sys) && !sys.forgotten
    requires InPhase(sys.s, Sending) && InPhase(sys.r, Receiving)
    ensures var s, r := sys.s.entry.value, sys.r.entry.value;
      s.position <= r.position <= s.sent <= s.size == |f.content|
    ensures sys.s.entry.value.sent - sys.s.entry.value.position < 256 * 1024 + 16 * 1024
    ensures sys.rLink == Open ==>
      InFlight(sys.toR) == f.content[sys.r.entry.value.position..sys.s.entry.value.sent]
  {
    ReachableHolds(h, f, sys);
    if sys.rLink == Open { InFlightIsSlice(h, f, sys.toR, sys.r.entry.value.position); }
  }

  /** No message can break the order or fail the integrity check: a receiving entry fails only
      when its own disk does. */
  lemma NeverOutOfOrder(h: Hash, f: File, sys: System, env: Env, taken: bool)
    requires Reachable(h, f, sys) && !sys.forgotten
    requires InPhase(sys.r, Receiving) && env.writeOk && env.commitOk
    ensures !InPhase(Apply(h, sys, Deliver(Receiver, env, taken)).r, Failed)
  {
    ReachableHolds(h, f, sys);
    if sys.toR != [] && sys.rLink == Open { HeadOfWindow(h, f, sys); }
  }

  /** Remembered or forgotten: with a working disk the next message fails a receiving entry exactly if it is a chunk
      that starts elsewhere than where the last one ended, or the end of a file that is not all there. */
  lemma FailsIff(h: Hash, f: File, sys: System, env: Env, taken: bool)
    requires Reachable(h, f, sys) && InPhase(sys.r, Receiving) && env.writeOk && env.commitOk
    ensures InPhase(Apply(h, sys, Deliver(Receiver, env, taken)).r, Failed) <==>
      && sys.toR != [] && sys.rLink == Open
      && var t := sys.r.entry.value;
         (sys.toR[0].Chunk? && sys.toR[0].offset != t.position) || (sys.toR[0].Finish? && t.position != t.size)
  {
    ReachableHolds(h, f, sys);
    if sys.toR != [] {
      assert sys.toR[0] in sys.toR;
      assert f.content[..|f.content|] == f.content;
    }
  }

  /** Resuming: the offset a waiting sender is told is the receiver's position at that moment. */
  lemma ResumeIsExact(h: Hash, f: File, sys: System, env: Env, taken: bool)
    requires Reachable(h, f, sys) && !sys.forgotten
    requires InPhase(sys.s, Offered) && InPhase(sys.r, Receiving)
    ensures var t := Apply(h, sys, Deliver(Sender, env, taken));
      InPhase(t.s, Sending) ==>
        t.s.entry.value.sent == t.s.entry.value.position == t.r.entry.value.position && InFlight(t.toR) == []
  {
    ReachableHolds(h, f, sys);
    if sys.toS != [] && sys.sLink == Open {
      assert sys.toS[0] in sys.toS;
      QuietIsEmpty(sys.toR, 0, 0);
      assert sys.toR + [] == sys.toR;
    }
  }

  /** An acknowledged file finishes: the Finish of a sender that has every byte acknowledged is
      accepted, and answered with Complete. */
  lemma HonestFinishCommits(h: Hash, f: File, sys: System, env: Env, taken: bool)
    requires Reachable(h, f, sys) && !sys.forgotten
    requires InPhase(sys.r, Receiving) && sys.rLink == Open && sys.toR != [] && sys.toR[0] == Finish
    requires env.commitOk
    ensures var t := Apply(h, sys, Deliver(Receiver, env, taken));
      && InPhase(t.r, Completed) && t.r.saved == Some(f.content)
      && t.r.entry.value.reply == Some(Complete(|f.content|))
  {
    ReachableHolds(h, f, sys);
    HeadOfWindow(h, f, sys);
    assert f.content[..|f.content|] == f.content;
  }
}
