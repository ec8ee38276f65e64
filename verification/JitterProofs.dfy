/** What the jitter buffer keeps over every mix of arrivals and frames. */
module JitterProofs {
  import opened Wrappers
  import opened RtpUnwrap
  import opened JitterBuffer

  /** What one position of the stream sounded like. */
  datatype Slot = Played(packet: Packet) | Concealed

  /** The stream with its history since the last reset, and totals since the beginning. */
  datatype Watch = Watch(stream: Stream, base: int, slots: seq<Slot>, taken: map<Position, Packet>,
                         played: nat, evicted: nat, cleared: nat, rejected: nat)

  datatype Action =
    | Arrive(ssrc: nat, sequence: nat, timestamp: nat, payload: seq<byte>, at: nat)
    | Frame(first: nat, second: nat)
    | Report(now: int)

  /** The state a frame is taken from: playout begun, obsolete packets gone; `None` while still buffering. */
  function Ready(s: Stream): Option<Stream> {
    if !s.playout.started && (|s.packets| < s.timing.target || s.packets == map[]) then None
    else Some(Discard(if s.playout.started then s else Begun(s)))
  }

  function SeenReset(w: Watch, ssrc: nat): Watch {
    if w.stream.ssrc == Some(ssrc) then w
    else w.(stream := Reset(w.stream, ssrc), slots := [], taken := map[], cleared := w.cleared + |w.stream.packets|)
  }

  function PositionOf(s: Stream, sequence: nat): int { Unwrap(s.sequence, sequence, SEQUENCE_HALF).0 }

  function SeenArrival(before: Watch, a: Action): Watch
    requires a.Arrive?
  {
    var n := Enqueue(before.stream, a.ssrc, a.sequence, a.timestamp, a.payload, a.at);
    if a.payload == [] then before
    else
      var w := SeenReset(before, a.ssrc);
      var position := PositionOf(w.stream, a.sequence);
      if n.0 then
        var packet := Packet(Unwrap(w.stream.timestamp, a.timestamp, TIMESTAMP_HALF).0, a.payload, a.at);
        var more := w.stream.packets[position := packet];
        w.(stream := n.1, taken := w.taken[position := packet], evicted := w.evicted + (|more| - |Evict(more)|))
      else if w.stream.playout.started && position < w.stream.playout.expected then
        w.(stream := n.1, rejected := w.rejected + 1)
      else w.(stream := n.1)
  }

  function SeenFrame(w: Watch, first: nat, second: nat): Watch {
    var n := Render(w.stream, first, second).1;
    match Ready(w.stream)
    case None => w.(stream := n)
    case Some(s) =>
      var base := if w.stream.playout.started then w.base else s.playout.expected;
      if s.packets == map[] then w.(stream := n, base := base)
      else if s.playout.expected in s.packets then
        w.(stream := n, base := base, slots := w.slots + [Played(s.packets[s.playout.expected])],
          played := w.played + 1)
      else w.(stream := n, base := base, slots := w.slots + [Concealed])
  }

  function Seen(w: Watch, a: Action): Watch {
    match a
    case Arrive(_, _, _, _, _) => SeenArrival(w, a)
    case Frame(first, second) => SeenFrame(w, first, second)
    case Report(now) => w.(stream := w.stream.(loss := TakeStats(w.stream.loss, now).1))
  }

  // ---- the invariant ----

  predicate Fresh(s: Stream) { s.playout.started ==> forall k <- s.packets :: s.playout.expected <= k }

  predicate TimingOk(t: Timing) { MIN_BUFFER_FRAMES <= t.target <= MAX_BUFFER_FRAMES && t.jitter >= 0.0 }

  predicate LossOk(l: Loss) { l.lost <= l.expected && (l.smoothed.Some? ==> 0.0 <= l.smoothed.value <= 100.0) }

  predicate Conserved(w: Watch) {
    && w.stream.counters.received == w.played + |w.stream.packets| + w.evicted + w.cleared
    && w.stream.counters.late == w.rejected + w.evicted
  }

  /** Positions are rendered one after the other. */
  predicate InStep(w: Watch) {
    if w.stream.playout.started then w.stream.playout.expected == w.base + |w.slots| else w.slots == []
  }

  /** What is held or was played is what was last taken for that position. */
  predicate Genuine(packets: map<Position, Packet>, taken: map<Position, Packet>) {
    forall k <- packets :: k in taken && taken[k] == packets[k]
  }

  predicate PlayedGenuine(base: int, slots: seq<Slot>, taken: map<Position, Packet>) {
    forall i {:trigger slots[i]} | 0 <= i < |slots| ::
      slots[i].Played? ==> (base + i) in taken && taken[base + i] == slots[i].packet
  }

  predicate Inv(w: Watch) {
    && Fresh(w.stream) && |w.stream.packets| <= MAX_PACKETS && TimingOk(w.stream.timing) && LossOk(w.stream.loss)
    && Conserved(w) && InStep(w) && Genuine(w.stream.packets, w.taken) && PlayedGenuine(w.base, w.slots, w.taken)
  }

  // ---- arrivals ----

  lemma {:induction false} EvictKeeps(packets: map<Position, Packet>)
    ensures var left := Evict(packets);
      |left| <= MAX_PACKETS && forall k <- left :: k in packets && left[k] == packets[k]
    decreases |packets|
  {
    if |packets| > MAX_PACKETS {
      SmallerByOne(packets, First(packets));
      EvictKeeps(packets - {First(packets)});
    }
  }

  lemma ArrivedKeeps(t: Timing, newest: bool, at: nat, timestamp: int)
    requires TimingOk(t)
    ensures TimingOk(Raised(Arrived(t, newest, at, timestamp)))
  {
  }

  lemma ResetKeeps(w: Watch, ssrc: nat)
    requires Inv(w)
    ensures Inv(SeenReset(w, ssrc))
  {
  }

  /** The watched stream after both counters moved on. */
  function Counting(w: Watch, sequence: nat, timestamp: nat): Watch {
    w.(stream := Counted(w.stream, sequence, timestamp))
  }

  lemma AcceptKeeps(w: Watch, position: int, packet: Packet, newest: bool)
    requires Inv(w) && position !in w.stream.packets
    requires w.stream.playout.started ==> w.stream.playout.expected <= position
    ensures var more := w.stream.packets[position := packet];
      Inv(w.(stream := Accept(w.stream, position, packet, newest), taken := w.taken[position := packet],
             evicted := w.evicted + (|more| - |Evict(more)|)))
  {
    var more := w.stream.packets[position := packet];
    EvictKeeps(more);
    ArrivedKeeps(w.stream.timing, newest, packet.receivedAt, packet.timestamp);
    assert |more| == |w.stream.packets| + 1;
    TakenStays(w.base, w.slots, w.taken, position, packet);
    EvictedGenuine(w.stream.packets, w.taken, position, packet);
  }

  lemma TakenStays(base: int, slots: seq<Slot>, taken: map<Position, Packet>, position: int, packet: Packet)
    requires PlayedGenuine(base, slots, taken) && (slots != [] ==> base + |slots| <= position)
    ensures PlayedGenuine(base, slots, taken[position := packet])
  {
  }

  lemma EvictedGenuine(packets: map<Position, Packet>, taken: map<Position, Packet>, position: int, packet: Packet)
    requires Genuine(packets, taken)
    ensures Genuine(Evict(packets[position := packet]), taken[position := packet])
  {
    EvictKeeps(packets[position := packet]);
  }

  lemma ArrivalKeeps(before: Watch, a: Action)
    requires Inv(before) && a.Arrive?
    ensures Inv(SeenArrival(before, a))
  {
    if a.payload != [] {
      ResetKeeps(before, a.ssrc);
      var w := SeenReset(before, a.ssrc);
      TunedArrivalKeeps(w, a);
      ResetFirst(before, a);
    }
  }

  /** A packet of another source is looked at as the first one after a reset. */
  lemma ResetFirst(before: Watch, a: Action)
    requires a.Arrive? && a.payload != []
    ensures SeenArrival(before, a) == SeenArrival(SeenReset(before, a.ssrc), a)
  {
  }

  lemma CountingKeeps(w: Watch, sequence: nat, timestamp: nat)
    requires Inv(w)
    ensures Inv(Counting(w, sequence, timestamp))
  {
  }

  lemma TunedArrivalKeeps(w: Watch, a: Action)
    requires Inv(w) && a.Arrive? && a.payload != [] && w.stream.ssrc == Some(a.ssrc)
    ensures Inv(SeenArrival(w, a))
  {
    CountingKeeps(w, a.sequence, a.timestamp);
    var c := Counting(w, a.sequence, a.timestamp);
    var position := PositionOf(w.stream, a.sequence);
    if !(c.stream.playout.started && position < c.stream.playout.expected) && position !in c.stream.packets {
      AcceptKeeps(c, position, Packet(Unwrap(w.stream.timestamp, a.timestamp, TIMESTAMP_HALF).0, a.payload, a.at),
                  w.stream.sequence.None? || position > w.stream.sequence.value.extended);
    }
  }

  // ---- frames ----

  lemma CurrentIsAll(packets: map<Position, Packet>, expected: int)
    requires forall k <- packets :: expected <= k
    ensures Current(packets, expected) == packets
  {
  }

  lemma BegunFresh(s: Stream)
    requires s.packets != map[]
    ensures Fresh(Begun(s))
  {
    var f := First(s.packets);
    forall k | k in s.packets ensures f <= k { assert k in s.packets.Keys; }
  }

  /** The discarding loop never finds anything to discard. */
  lemma NothingObsolete(w: Watch)
    requires Inv(w) && Ready(w.stream).Some?
    ensures Ready(w.stream).value == (if w.stream.playout.started then w.stream else Begun(w.stream))
    ensures Fresh(Ready(w.stream).value)
  {
    var s := if w.stream.playout.started then w.stream else Begun(w.stream);
    if !w.stream.playout.started { BegunFresh(w.stream); }
    CurrentIsAll(s.packets, s.playout.expected);
  }

  lemma AdaptKeeps(t: Timing, concealed: bool)
    requires TimingOk(t)
    ensures TimingOk(Adapt(t, concealed))
  {
  }

  lemma SlotAdded(base: int, slots: seq<Slot>, slot: Slot, taken: map<Position, Packet>)
    requires PlayedGenuine(base, slots, taken)
    requires slot.Played? ==> (base + |slots|) in taken && taken[base + |slots|] == slot.packet
    ensures PlayedGenuine(base, slots + [slot], taken)
  {
  }

  lemma PlayKeeps(w: Watch, base: int, s: Stream)
    requires Inv(w) && Fresh(s) && s.playout.started && s.playout.expected in s.packets
      && base + |w.slots| == s.playout.expected
    requires s == w.stream.(playout := s.playout) && (w.stream.playout.started ==> base == w.base)
    ensures Inv(w.(stream := Play(s), base := base, slots := w.slots + [Played(s.packets[s.playout.expected])],
      played := w.played + 1))
  {
    SmallerByOne(s.packets, s.playout.expected);
    AdaptKeeps(s.timing, false);
    assert w.stream.playout.started || w.slots == [];
    SlotAdded(base, w.slots, Played(s.packets[s.playout.expected]), w.taken);
  }

  lemma ConcealKeeps(w: Watch, base: int, s: Stream, recovered: bool)
    requires Inv(w) && Fresh(s) && s.playout.started && s.playout.expected !in s.packets
      && base + |w.slots| == s.playout.expected
    requires s == w.stream.(playout := s.playout) && (w.stream.playout.started ==> base == w.base)
    ensures Inv(w.(stream := Conceal(s, recovered), base := base, slots := w.slots + [Concealed]))
  {
    AdaptKeeps(s.timing, true);
    SlotAdded(base, w.slots, Concealed, w.taken);
  }

  lemma FrameKeeps(w: Watch, first: nat, second: nat)
    requires Inv(w)
    ensures Inv(SeenFrame(w, first, second))
  {
    if Ready(w.stream).Some? {
      NothingObsolete(w);
      var s := Ready(w.stream).value;
      var base := if w.stream.playout.started then w.base else s.playout.expected;
      if s.packets != map[] {
        if s.playout.expected in s.packets { PlayKeeps(w, base, s); }
        else { ConcealKeeps(w, base, s, CanRecover(s) && first > 0); }
      }
    }
  }

  // ---- statistics ----

  lemma SampleInRange(lost: nat, expected: nat)
    requires lost <= expected && expected > 0
    ensures 0.0 <= 100.0 * (lost as real) / (expected as real) <= 100.0
  {
  }

  lemma MixInRange(a: real, b: real)
    requires 0.0 <= a <= 100.0 && 0.0 <= b <= 100.0
    ensures 0.0 <= a * 0.7 + b * 0.3 <= 100.0
  {
  }

  /** The reported loss is a percentage. */
  lemma ReportKeeps(l: Loss, now: int)
    requires LossOk(l)
    ensures LossOk(TakeStats(l, now).1)
    ensures TakeStats(l, now).0.Some? ==> 0.0 <= TakeStats(l, now).0.value <= 100.0
  {
    if l.expected > 0 { SampleInRange(l.lost, l.expected); }
    var sample := if l.expected == 0 then 0.0 else 100.0 * (l.lost as real) / (l.expected as real);
    if l.smoothed.Some? { MixInRange(l.smoothed.value, sample); }
  }

  // ---- whole runs ----

  const START := Watch(EMPTY, 0, [], map[], 0, 0, 0, 0)

  function Run(w: Watch, actions: seq<Action>): Watch
    decreases |actions|
  {
    if actions == [] then w else Run(Seen(w, actions[0]), actions[1..])
  }

  lemma SeenKeeps(w: Watch, a: Action)
    requires Inv(w)
    ensures Inv(Seen(w, a))
  {
    match a {
      case Arrive(_, _, _, _, _) => ArrivalKeeps(w, a);
      case Frame(first, second) => FrameKeeps(w, first, second);
      case Report(now) => ReportKeeps(w.stream.loss, now);
    }
  }

  lemma {:induction false} RunKeeps(w: Watch, actions: seq<Action>)
    requires Inv(w)
    ensures Inv(Run(w, actions))
    decreases |actions|
  {
    if actions != [] {
      SeenKeeps(w, actions[0]);
      RunKeeps(Seen(w, actions[0]), actions[1..]);
    }
  }

  ghost predicate Reachable(w: Watch) { exists actions: seq<Action> :: w == Run(START, actions) }

  lemma StartHolds()
    ensures Inv(START)
  {
  }

  lemma ReachableHolds(w: Watch)
    requires Reachable(w)
    ensures Inv(w)
  {
    var actions: seq<Action> :| w == Run(START, actions);
    StartHolds();
    RunKeeps(START, actions);
  }

  // ---- the theorems ----

  /** Every packet taken was played, is still held, was evicted, or went with a reset. */
  lemma NothingIsLost(w: Watch)
    requires Reachable(w)
    ensures w.stream.counters.received == w.played + |w.stream.packets| + w.evicted + w.cleared
    ensures w.stream.counters.late == w.rejected + w.evicted
    ensures |w.stream.packets| <= MAX_PACKETS && MIN_BUFFER_FRAMES <= w.stream.timing.target <= MAX_BUFFER_FRAMES
  {
    ReachableHolds(w);
  }

  /** Positions play once each, in order, and with the packet that was taken for them. */
  lemma PlaysInOrder(w: Watch, i: nat)
    requires Reachable(w) && i < |w.slots|
    ensures w.stream.playout.started && w.base + i < w.stream.playout.expected == w.base + |w.slots|
    ensures w.slots[i].Played? ==> (w.base + i) in w.taken && w.taken[w.base + i] == w.slots[i].packet
    ensures (w.base + i) !in w.stream.packets
  {
    ReachableHolds(w);
  }

  /** A frame is concealed only when its packet is missing and a newer one is held. */
  lemma ConcealedOnlyWithNewer(w: Watch, first: nat, second: nat)
    requires Reachable(w)
    ensures var n := SeenFrame(w, first, second);
      |n.slots| > |w.slots| && n.slots[|w.slots|].Concealed? ==>
        n.base + |w.slots| !in w.stream.packets && exists k <- w.stream.packets :: k > n.base + |w.slots|
  {
    ReachableHolds(w);
    if Ready(w.stream).Some? {
      NothingObsolete(w);
      var s := Ready(w.stream).value;
      if s.packets != map[] && s.playout.expected !in s.packets { NewerHeld(s); }
    }
  }

  lemma NewerHeld(s: Stream)
    requires Fresh(s) && s.playout.started && s.packets != map[] && s.playout.expected !in s.packets
    ensures exists k <- s.packets :: k > s.playout.expected
  {
    var k := First(s.packets);
    assert k in s.packets;
  }

  predicate TooLate(s: Stream, a: Action) {
    && a.Arrive? && a.payload != [] && s.ssrc == Some(a.ssrc) && s.playout.started
    && PositionOf(s, a.sequence) < s.playout.expected
  }

  /** A packet for a position already rendered is turned away and changes nothing that will be heard. */
  lemma LateIsRefused(s: Stream, a: Action)
    requires TooLate(s, a)
    ensures var n := Enqueue(s, a.ssrc, a.sequence, a.timestamp, a.payload, a.at);
      !n.0 && n.1.packets == s.packets && n.1.playout == s.playout && n.1.timing == s.timing
  {
  }

  /** Streams that hold the same packets and are at the same place. */
  predicate Alike(s: Stream, t: Stream) { s.packets == t.packets && s.playout == t.playout && s.timing == t.timing }

  predicate SoundAlike(v: Watch, w: Watch) { Alike(v.stream, w.stream) && v.base == w.base && v.slots == w.slots }

  lemma ReadyAlike(s: Stream, t: Stream)
    requires Alike(s, t)
    ensures Ready(s).Some? == Ready(t).Some? && (Ready(s).Some? ==> Alike(Ready(s).value, Ready(t).value))
  {
  }

  lemma RenderAlike(s: Stream, t: Stream, first: nat, second: nat)
    requires Alike(s, t)
    ensures Alike(Render(s, first, second).1, Render(t, first, second).1)
  {
  }

  lemma FrameSoundsAlike(v: Watch, w: Watch, first: nat, second: nat)
    requires SoundAlike(v, w)
    ensures SoundAlike(SeenFrame(v, first, second), SeenFrame(w, first, second))
  {
    ReadyAlike(v.stream, w.stream);
    RenderAlike(v.stream, w.stream, first, second);
  }

  predicate Listening(a: Action) { a.Frame? || a.Report? }

  lemma {:induction false} ListeningSoundsAlike(v: Watch, w: Watch, actions: seq<Action>)
    requires SoundAlike(v, w) && forall k | 0 <= k < |actions| :: Listening(actions[k])
    ensures SoundAlike(Run(v, actions), Run(w, actions))
    decreases |actions|
  {
    if actions != [] {
      if actions[0].Frame? { FrameSoundsAlike(v, w, actions[0].first, actions[0].second); }
      ListeningSoundsAlike(Seen(v, actions[0]), Seen(w, actions[0]), actions[1..]);
    }
  }

  /** However long one listens on, a packet that came too late is never heard, and changes nothing that is. */
  lemma LateIsUnheard(w: Watch, a: Action, actions: seq<Action>)
    requires TooLate(w.stream, a) && forall k | 0 <= k < |actions| :: Listening(actions[k])
    ensures Run(SeenArrival(w, a), actions).slots == Run(w, actions).slots
  {
    LateIsRefused(w.stream, a);
    ListeningSoundsAlike(SeenArrival(w, a), w, actions);
  }
}
