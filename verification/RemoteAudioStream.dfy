/** The jitter buffer of one remote voice: reorder, conceal, adapt. */
module JitterBuffer {
  import opened Wrappers
  import opened RtpUnwrap

  const SAMPLE_RATE := 48000
  const FRAME_SAMPLES := 960
  const MIN_BUFFER_FRAMES := 2
  const MAX_BUFFER_FRAMES := 8
  const MAX_PACKETS := 64
  const STABLE_FRAMES := 500
  const NS := 1_000_000_000
  const STATS_INTERVAL_NS := 2_000_000_000

  /** An extended sequence number: any integer. */
  type Position = p: int | p < 0 || 0 <= p

  datatype Packet = Packet(timestamp: int, payload: seq<byte>, receivedAt: nat)

  datatype Timing = Timing(jitter: real, transit: Option<int>, target: int, stable: nat)

  datatype Counters = Counters(received: nat, late: nat, concealed: nat, recovered: nat)

  datatype Loss = Loss(expected: nat, lost: nat, smoothed: Option<real>, lastAt: int)

  datatype Playout = Playout(started: bool, expected: int, expectedTimestamp: int, lastReceivedAt: nat)

  datatype Stream = Stream(ssrc: Option<nat>, sequence: Option<Counter>, timestamp: Option<Counter>,
                           packets: map<Position, Packet>, playout: Playout, timing: Timing, counters: Counters,
                             loss: Loss)

  const EMPTY := Stream(None, None, None, map[], Playout(false, 0, 0, 0), Timing(0.0, None, MIN_BUFFER_FRAMES, 0),
                        Counters(0, 0, 0, 0), Loss(0, 0, None, 0))

  // ---- the ordered packets ----

  predicate Least(keys: set<Position>, k: Position) { k in keys && forall j <- keys :: k <= j }

  lemma {:induction false} HasLeast(keys: set<Position>)
    requires keys != {}
    ensures exists k :: Least(keys, k)
    decreases |keys|
  {
    var k :| k in keys;
    if keys == {k} {
      assert Least(keys, k);
    } else {
      HasLeast(keys - {k});
      var rest :| Least(keys - {k}, rest);
      var least := if rest < k then rest else k;
      forall j | j in keys ensures least <= j { if j != k { assert j in keys - {k}; } }
      assert Least(keys, least);
    }
  }

  /** The first packet in sequence order. */
  function First(packets: map<Position, Packet>): (k: Position)
    requires packets != map[]
    ensures Least(packets.Keys, k)
  {
    HasLeast(packets.Keys);
    var k :| Least(packets.Keys, k);
    k
  }

  // ---- arrival ----

  function Reset(s: Stream, ssrc: nat): Stream {
    s.(ssrc := Some(ssrc), sequence := None, timestamp := None, packets := map[],
       playout := s.playout.(started := false, lastReceivedAt := 0),
       timing := s.timing.(jitter := 0.0, transit := None, stable := 0))
  }

  function Ceil(x: real): int { -(-x).Floor }

  function Max(a: int, b: int): int { if a >= b then a else b }

  function Clamp(x: int, low: int, high: int): int { if x < low then low else if x > high then high else x }

  function Ticks(at: nat): int { at / NS * SAMPLE_RATE + at % NS * SAMPLE_RATE / NS }

  /** The newest packet's transit time feeds the jitter estimate. */
  function Arrived(t: Timing, newest: bool, at: nat, timestamp: int): Timing {
    if !newest then t
    else
      var transit := Ticks(at) - timestamp;
      match t.transit
      case None => t.(transit := Some(transit))
      case Some(last) =>
        var delta := if transit >= last then transit - last else last - transit;
        t.(jitter := t.jitter + (delta as real - t.jitter) / 16.0, transit := Some(transit))
  }

  function Raised(t: Timing): Timing {
    var frames := Ceil(t.jitter * 1000.0 / (SAMPLE_RATE as real) / 20.0);
    t.(target := Max(t.target, Clamp(MIN_BUFFER_FRAMES + frames, MIN_BUFFER_FRAMES, MAX_BUFFER_FRAMES)))
  }

  function Evict(packets: map<Position, Packet>): (left: map<Position, Packet>)
    ensures |left| <= |packets| && left.Keys <= packets.Keys
    decreases |packets|
  {
    if |packets| <= MAX_PACKETS then packets else Evict(packets - {First(packets)})
  }

  /** The stream a packet is looked at with: its own, or a fresh one when the source changed. */
  function Tuned(s: Stream, ssrc: nat): Stream { if s.ssrc == Some(ssrc) then s else Reset(s, ssrc) }

  /** After both counters have been extended. */
  function Counted(s: Stream, sequence: nat, timestamp: nat): Stream {
    s.(sequence := Unwrap(s.sequence, sequence, SEQUENCE_HALF).1,
      timestamp := Unwrap(s.timestamp, timestamp, TIMESTAMP_HALF).1)
  }

  function Accept(s: Stream, position: int, packet: Packet, newest: bool): Stream {
    var more := s.packets[position := packet];
    s.(packets := Evict(more), timing := Raised(Arrived(s.timing, newest, packet.receivedAt, packet.timestamp)),
       counters := s.counters.(received := s.counters.received + 1, late := s.counters.late + (|more| - |Evict(more)|)))
  }

  function Enqueue(before: Stream, ssrc: nat, sequence: nat, timestamp: nat, payload: seq<byte>, at: nat)
    : (bool, Stream)
  {
    if payload == [] then (false, before)
    else
      var s := Tuned(before, ssrc);
      var position := Unwrap(s.sequence, sequence, SEQUENCE_HALF).0;
      var stamp := Unwrap(s.timestamp, timestamp, TIMESTAMP_HALF).0;
      var counted := Counted(s, sequence, timestamp);
      if counted.playout.started && position < counted.playout.expected then
        (false, counted.(counters := counted.counters.(late := counted.counters.late + 1)))
      else if position in counted.packets then (false, counted)
      else
        (true, Accept(counted, position, Packet(stamp, payload, at), s.sequence.None?
          || position > s.sequence.value.extended))
  }

  // ---- playout ----

  function Begun(s: Stream): Stream
    requires s.packets != map[]
  {
    var k := First(s.packets);
    s.(playout := s.playout.(started := true, expected := k, expectedTimestamp := s.packets[k].timestamp))
  }

  function Current(packets: map<Position, Packet>, expected: int): map<Position, Packet> {
    map k | k in packets && k >= expected :: packets[k]
  }

  function Discard(s: Stream): Stream {
    var left := Current(s.packets, s.playout.expected);
    s.(packets := left,
      counters := s.counters.(late := s.counters.late + (if |s.packets| >= |left| then |s.packets| - |left| else 0)))
  }

  function Adapt(t: Timing, concealed: bool): Timing {
    if concealed
      then t.(target := if t.target + 1 < MAX_BUFFER_FRAMES then t.target + 1 else MAX_BUFFER_FRAMES, stable := 0)
    else if t.stable + 1 >= STABLE_FRAMES && t.target > MIN_BUFFER_FRAMES then t.(target := t.target - 1, stable := 0)
    else t.(stable := t.stable + 1)
  }

  function Stepped(s: Stream, concealed: bool): Stream {
    s.(playout :=
      s.playout.(expected := s.playout.expected + 1, expectedTimestamp := s.playout.expectedTimestamp + FRAME_SAMPLES),
       timing := Adapt(s.timing, concealed),
       loss := s.loss.(expected := s.loss.expected + 1, lost := s.loss.lost + if concealed then 1 else 0))
  }

  function Play(s: Stream): Stream
    requires s.playout.expected in s.packets
  {
    var packet := s.packets[s.playout.expected];
    Stepped(s.(packets := s.packets - {s.playout.expected},
               playout := s.playout.(expectedTimestamp := packet.timestamp, lastReceivedAt := packet.receivedAt)),
                 false)
  }

  /** The next packet can stand in for the missing one if it follows directly. */
  predicate CanRecover(s: Stream)
    requires s.packets != map[]
  {
    var k := First(s.packets);
    k == s.playout.expected + 1 && s.packets[k].timestamp == s.playout.expectedTimestamp + FRAME_SAMPLES
  }

  function Conceal(s: Stream, recovered: bool): Stream {
    Stepped(s.(counters := s.counters.(concealed := s.counters.concealed + 1,
                                       recovered := s.counters.recovered + if recovered then 1 else 0)), true)
  }

  /** `first` and `second` are the sample counts of the decoder's first and fallback calls. */
  function Render(before: Stream, first: nat, second: nat): (bool, Stream) {
    if !before.playout.started && |before.packets| < before.timing.target then (false, before)
    else if !before.playout.started && before.packets == map[] then (false, before)
    else
      var s := Discard(if before.playout.started then before else Begun(before));
      if s.packets == map[] then (false, s)
      else if s.playout.expected in s.packets then (first > 0, Play(s))
      else
        var recovered := CanRecover(s) && first > 0;
        (recovered || (if CanRecover(s) then second else first) > 0, Conceal(s, recovered))
  }

  /** Smoothed loss in percent, once per interval. */
  function TakeStats(l: Loss, now: int): (Option<real>, Loss) {
    if l.lastAt == 0 then (None, l.(lastAt := now))
    else if now - l.lastAt < STATS_INTERVAL_NS then (None, l)
    else
      var sample := if l.expected == 0 then 0.0 else 100.0 * (l.lost as real) / (l.expected as real);
      var smoothed := match l.smoothed case None => sample case Some(last) => last * 0.7 + sample * 0.3;
      (Some(smoothed), Loss(0, 0, Some(smoothed), now))
  }

  // ---- the stream ----

  class RemoteAudioStream {
    var ssrc: Option<nat>
    var sequence: Option<Counter>
    var timestamp: Option<Counter>
    var packets: map<Position, Packet>
    var playout: Playout
    var timing: Timing
    var counters: Counters
    var loss: Loss

    function View(): Stream
      reads this
    {
      Stream(ssrc, sequence, timestamp, packets, playout, timing, counters, loss)
    }

    constructor ()
      ensures View() == EMPTY
    {
      ssrc, sequence, timestamp, packets := None, None, None, map[];
      playout, timing := Playout(false, 0, 0, 0), Timing(0.0, None, MIN_BUFFER_FRAMES, 0);
      counters, loss := Counters(0, 0, 0, 0), Loss(0, 0, None, 0);
    }

    method UnwrapSequence(raw: nat) returns (extended: int)
      modifies `sequence
      ensures (extended, sequence) == Unwrap(old(sequence), raw, SEQUENCE_HALF)
    {
      if sequence.None? {
        sequence := Some(Counter(raw, raw));
        return raw;
      }
      var delta := Signed(raw - sequence.value.raw, SEQUENCE_HALF);
      extended := sequence.value.extended + delta;
      if delta > 0 { sequence := Some(Counter(raw, extended)); }
    }

    method UnwrapTimestamp(raw: nat) returns (extended: int)
      modifies `timestamp
      ensures (extended, timestamp) == Unwrap(old(timestamp), raw, TIMESTAMP_HALF)
    {
      if timestamp.None? {
        timestamp := Some(Counter(raw, raw));
        return raw;
      }
      var delta := Signed(raw - timestamp.value.raw, TIMESTAMP_HALF);
      extended := timestamp.value.extended + delta;
      if delta > 0 { timestamp := Some(Counter(raw, extended)); }
    }

    method ResetStream(source: nat)
      modifies this
      ensures View() == Reset(old(View()), source)
    {
      packets := map[];
      ssrc := Some(source);
      sequence, timestamp := None, None;
      timing := timing.(jitter := 0.0, transit := None, stable := 0);
      playout := playout.(started := false, lastReceivedAt := 0);
    }

    method EvictOldest()
      modifies `packets, `counters
      ensures packets == Evict(old(packets)) && |packets| <= |old(packets)|
      ensures counters == old(counters).(late := old(counters).late + (|old(packets)| - |packets|))
    {
      while |packets| > MAX_PACKETS
        invariant Evict(packets) == Evict(old(packets)) && |packets| <= |old(packets)|
        invariant counters == old(counters).(late := old(counters).late + (|old(packets)| - |packets|))
        decreases |packets|
      {
        SmallerByOne(packets, First(packets));
        packets := packets - {First(packets)};
        counters := counters.(late := counters.late + 1);
      }
    }

    method NoteArrival(newest: bool, at: nat, stamp: int)
      modifies `timing
      ensures timing == Raised(Arrived(old(timing), newest, at, stamp))
    {
      if newest {
        var transit := Ticks(at) - stamp;
        if timing.transit.Some? {
          var last := timing.transit.value;
          var delta := if transit >= last then transit - last else last - transit;
          timing := timing.(jitter := timing.jitter + (delta as real - timing.jitter) / 16.0);
        }
        timing := timing.(transit := Some(transit));
      }
      var frames := Ceil(timing.jitter * 1000.0 / (SAMPLE_RATE as real) / 20.0);
      timing := timing.(target :=
        Max(timing.target, Clamp(MIN_BUFFER_FRAMES + frames, MIN_BUFFER_FRAMES, MAX_BUFFER_FRAMES)));
    }

    method Insert(position: int, packet: Packet, newest: bool)
      modifies `packets, `counters, `timing
      ensures View() == Accept(old(View()), position, packet, newest)
    {
      packets := packets[position := packet];
      counters := counters.(received := counters.received + 1);
      NoteArrival(newest, packet.receivedAt, packet.timestamp);
      EvictOldest();
    }

    method EnqueuePacket(source: nat, sequenceNumber: nat, rtpTimestamp: nat, payload: seq<byte>, at: nat)
      returns (taken: bool)
      modifies this
      ensures (taken, View()) == Enqueue(old(View()), source, sequenceNumber, rtpTimestamp, payload, at)
    {
      if payload == [] { return false; }
      if ssrc != Some(source) { ResetStream(source); }
      var previous := sequence;
      var position := UnwrapSequence(sequenceNumber);
      var stamp := UnwrapTimestamp(rtpTimestamp);
      if playout.started && position < playout.expected {
        counters := counters.(late := counters.late + 1);
        return false;
      }
      if position in packets { return false; }
      Insert(position, Packet(stamp, payload, at), previous.None? || position > previous.value.extended);
      taken := true;
    }

    method DiscardObsolete()
      modifies `packets, `counters
      ensures View() == Discard(old(View()))
    {
      ghost var before := packets;
      while packets != map[] && First(packets) < playout.expected
        invariant packets.Keys <= before.Keys && (forall k <- packets :: packets[k] == before[k])
        invariant forall k <- before :: k >= playout.expected ==> k in packets
        invariant |packets| <= |before|
          && counters == old(counters).(late := old(counters).late + (|before| - |packets|))
        decreases |packets|
      {
        SmallerByOne(packets, First(packets));
        packets := packets - {First(packets)};
        counters := counters.(late := counters.late + 1);
      }
      NoneBelow(packets, playout.expected);
      assert packets == Current(before, playout.expected);
    }

    method PlayExact()
      requires playout.expected in packets
      modifies this
      ensures View() == Play(old(View()))
    {
      var packet := packets[playout.expected];
      playout := playout.(expectedTimestamp := packet.timestamp, lastReceivedAt := packet.receivedAt);
      packets := packets - {playout.expected};
      Advance(false);
    }

    method ConcealMissing(first: nat, second: nat) returns (audible: bool)
      requires packets != map[] && playout.expected !in packets
      modifies this
      ensures View() == Conceal(old(View()), CanRecover(old(View())) && first > 0)
      ensures audible == ((if CanRecover(old(View())) && first == 0 then second else first) > 0)
    {
      counters := counters.(concealed := counters.concealed + 1);
      var next := First(packets);
      var decoded := 0;
      var direct := next == playout.expected + 1
        && packets[next].timestamp == playout.expectedTimestamp + FRAME_SAMPLES;
      if direct {
        decoded := first;
        if decoded > 0 { counters := counters.(recovered := counters.recovered + 1); }
      }
      if decoded <= 0 { decoded := if direct then second else first; }
      Advance(true);
      audible := decoded > 0;
    }

    method Advance(concealed: bool)
      modifies `playout, `timing, `loss
      ensures View() == Stepped(old(View()), concealed)
    {
      loss := loss.(expected := loss.expected + 1, lost := loss.lost + if concealed then 1 else 0);
      playout := playout.(expected := playout.expected + 1,
        expectedTimestamp := playout.expectedTimestamp + FRAME_SAMPLES);
      AdaptBuffer(concealed);
    }

    method AdaptBuffer(concealed: bool)
      modifies `timing
      ensures timing == Adapt(old(timing), concealed)
    {
      if concealed {
        var target := if timing.target + 1 < MAX_BUFFER_FRAMES then timing.target + 1 else MAX_BUFFER_FRAMES;
        timing := timing.(target := target, stable := 0);
        return;
      }
      timing := timing.(stable := timing.stable + 1);
      if timing.stable >= STABLE_FRAMES && timing.target > MIN_BUFFER_FRAMES {
        timing := timing.(target := timing.target - 1, stable := 0);
      }
    }

    method RenderFrame(first: nat, second: nat) returns (audible: bool)
      requires 0 < timing.target
      modifies this
      ensures (audible, View()) == Render(old(View()), first, second)
    {
      if !playout.started {
        if |packets| < timing.target { return false; }
        var k := First(packets);
        playout := playout.(started := true, expected := k, expectedTimestamp := packets[k].timestamp);
      }
      DiscardObsolete();
      if packets == map[] { return false; }
      if playout.expected in packets {
        PlayExact();
        audible := first > 0;
      } else {
        audible := ConcealMissing(first, second);
      }
    }

    method Stats(now: int) returns (percent: Option<real>)
      modifies `loss
      ensures (percent, loss) == TakeStats(old(loss), now)
    {
      if loss.lastAt == 0 {
        loss := loss.(lastAt := now);
        return None;
      }
      if now - loss.lastAt < STATS_INTERVAL_NS { return None; }
      var sample := if loss.expected == 0 then 0.0 else 100.0 * (loss.lost as real) / (loss.expected as real);
      var smoothed := if loss.smoothed.Some? then loss.smoothed.value * 0.7 + sample * 0.3 else sample;
      loss := Loss(0, 0, Some(smoothed), now);
      percent := Some(smoothed);
    }
  }

  lemma SmallerByOne(packets: map<Position, Packet>, k: int)
    requires k in packets
    ensures |packets - {k}| == |packets| - 1
  {
    assert (packets - {k}).Keys == packets.Keys - {k};
    assert |(packets - {k}).Keys| == |packets - {k}| && |packets.Keys| == |packets|;
  }

  lemma NoneBelow(packets: map<Position, Packet>, expected: int)
    requires packets != map[] ==> expected <= First(packets)
    ensures forall k <- packets :: expected <= k
  {
    if packets != map[] {
      var f := First(packets);
      forall k | k in packets ensures expected <= k { assert k in packets.Keys && f <= k; }
    }
  }
}
