/** A packet that came too late, and everything that comes after it. */
module JitterLateness {
  import opened Wrappers
  import opened RtpUnwrap
  import opened JitterBuffer
  import opened JitterProofs

  /** Nothing is held beyond the newest packet, and playout is at most one position beyond it. */
  predicate Led(s: Stream) {
    && (forall k <- s.packets :: s.sequence.Some? && k <= s.sequence.value.extended)
    && (s.playout.started ==> s.sequence.Some? && s.playout.expected <= s.sequence.value.extended + 1)
  }

  /** An extended value is never beyond the newest one, which never goes back. */
  lemma NewestGrows(newest: Option<Counter>, raw: nat, half: int)
    requires half > 0
    ensures var (extended, next) := Unwrap(newest, raw, half);
      && next.Some? && extended <= next.value.extended
      && (newest.Some? ==> newest.value.extended <= next.value.extended)
      && (newest.Some? && extended <= newest.value.extended ==> next == newest)
  {
  }

  lemma {:induction false} EvictedAmong(packets: map<Position, Packet>)
    ensures Evict(packets).Keys <= packets.Keys
    decreases |packets|
  {
  }

  lemma EnqueueLed(s: Stream, ssrc: nat, sequence: nat, timestamp: nat, payload: seq<byte>, at: nat)
    requires Led(s)
    ensures Led(Enqueue(s, ssrc, sequence, timestamp, payload, at).1)
  {
    if payload != [] {
      var t := Tuned(s, ssrc);
      NewestGrows(t.sequence, sequence, SEQUENCE_HALF);
      assert Led(t) && Led(Counted(t, sequence, timestamp));
      var position := Unwrap(t.sequence, sequence, SEQUENCE_HALF).0;
      EvictedAmong(Counted(t, sequence, timestamp).packets[position :=
        Packet(Unwrap(t.timestamp, timestamp, TIMESTAMP_HALF).0, payload, at)]);
    }
  }

  lemma ReadyLed(s: Stream)
    requires Led(s) && Ready(s).Some?
    ensures var n := Ready(s).value;
      && Led(n) && n.playout.started && n.sequence == s.sequence && forall k <- n.packets :: n.playout.expected <= k
  {
    if !s.playout.started {
      var k := First(s.packets);
      assert k in s.packets;
    }
  }

  lemma RenderIs(s: Stream, first: nat, second: nat)
    requires Ready(s).Some?
    ensures var n, r := Render(s, first, second).1, Ready(s).value;
      && n.sequence == r.sequence && n.packets.Keys <= r.packets.Keys && n.playout.started == r.playout.started
      && n.playout.expected == r.playout.expected + if r.packets == map[] then 0 else 1
  {
  }

  lemma RenderLed(s: Stream, first: nat, second: nat)
    requires Led(s)
    ensures Led(Render(s, first, second).1)
  {
    if Ready(s).Some? {
      var r := Ready(s).value;
      ReadyLed(s);
      RenderIs(s, first, second);
      if r.packets != map[] { assert First(r.packets) in r.packets; }
    }
  }

  lemma SeenLed(w: Watch, a: Action)
    requires Led(w.stream)
    ensures Led(Seen(w, a).stream)
  {
    match a {
      case Arrive(ssrc, sequence, timestamp, payload, at) =>
        EnqueueLed(w.stream, ssrc, sequence, timestamp, payload, at);
      case Frame(first, second) => RenderLed(w.stream, first, second);
      case Report(_) =>
    }
  }

  lemma {:induction false} RunLed(w: Watch, actions: seq<Action>)
    requires Led(w.stream)
    ensures Led(Run(w, actions).stream)
    decreases |actions|
  {
    if actions != [] {
      SeenLed(w, actions[0]);
      RunLed(Seen(w, actions[0]), actions[1..]);
    }
  }

  // ---- streams that differ only in what they count ----

  predicate SameStream(s: Stream, t: Stream) { s.(counters := t.counters) == t }

  predicate SameSound(v: Watch, w: Watch) { SameStream(v.stream, w.stream) && v.base == w.base && v.slots == w.slots }

  lemma EnqueueSame(s: Stream, t: Stream, ssrc: nat, sequence: nat, timestamp: nat, payload: seq<byte>, at: nat)
    requires SameStream(s, t)
    ensures var m, n := Enqueue(s, ssrc, sequence, timestamp, payload, at),
                        Enqueue(t, ssrc, sequence, timestamp, payload, at);
      m.0 == n.0 && SameStream(m.1, n.1)
  {
  }

  lemma ReadySame(s: Stream, t: Stream)
    requires SameStream(s, t)
    ensures Ready(s).Some? == Ready(t).Some? && (Ready(s).Some? ==> SameStream(Ready(s).value, Ready(t).value))
  {
  }

  lemma RenderSame(s: Stream, t: Stream, first: nat, second: nat)
    requires SameStream(s, t)
    ensures SameStream(Render(s, first, second).1, Render(t, first, second).1)
  {
  }

  lemma ArrivalSame(v: Watch, w: Watch, a: Action)
    requires SameSound(v, w) && a.Arrive?
    ensures SameSound(SeenArrival(v, a), SeenArrival(w, a))
  {
    EnqueueSame(v.stream, w.stream, a.ssrc, a.sequence, a.timestamp, a.payload, a.at);
  }

  lemma FrameSame(v: Watch, w: Watch, first: nat, second: nat)
    requires SameSound(v, w)
    ensures SameSound(SeenFrame(v, first, second), SeenFrame(w, first, second))
  {
    ReadySame(v.stream, w.stream);
    RenderSame(v.stream, w.stream, first, second);
  }

  lemma {:induction false} RunSame(v: Watch, w: Watch, actions: seq<Action>)
    requires SameSound(v, w)
    ensures SameSound(Run(v, actions), Run(w, actions))
    decreases |actions|
  {
    if actions != [] {
      var a := actions[0];
      match a {
        case Arrive(_, _, _, _, _) => ArrivalSame(v, w, a);
        case Frame(first, second) => FrameSame(v, w, first, second);
        case Report(_) =>
      }
      RunSame(Seen(v, a), Seen(w, a), actions[1..]);
    }
  }

  // ---- the theorem ----

  /** The packet's timestamp is not ahead of the newest one. */
  predicate NotAhead(s: Stream, timestamp: nat) {
    s.timestamp.Some? && Signed(timestamp - s.timestamp.value.raw, TIMESTAMP_HALF) <= 0
  }

  lemma LateIsCounted(s: Stream, a: Action)
    requires Led(s) && TooLate(s, a) && NotAhead(s, a.timestamp)
    ensures SameStream(Enqueue(s, a.ssrc, a.sequence, a.timestamp, a.payload, a.at).1, s)
    ensures !Enqueue(s, a.ssrc, a.sequence, a.timestamp, a.payload, a.at).0
  {
    NewestGrows(s.sequence, a.sequence, SEQUENCE_HALF);
    NewestGrows(s.timestamp, a.timestamp, TIMESTAMP_HALF);
  }

  /** Whatever comes later, other packets included: a packet that came too late is never heard and changes nothing that
      is, unless its timestamp claims to be ahead of all others. */
  lemma LateChangesNothing(before: seq<Action>, a: Action, after: seq<Action>)
    requires var s := Run(START, before).stream; TooLate(s, a) && NotAhead(s, a.timestamp)
    ensures var w := Run(START, before); Run(SeenArrival(w, a), after).slots == Run(w, after).slots
  {
    var w := Run(START, before);
    RunLed(START, before);
    LateIsCounted(w.stream, a);
    assert SameSound(SeenArrival(w, a), w);
    RunSame(SeenArrival(w, a), w, after);
  }
}
