/** Whole runs of the audio worker: which frames are queued, over which route, and in what order they leave. */
module AudioRouteProofs {
  import opened Wrappers
  import opened AudioTransport

  datatype AudioEvent =
    | Register(connection: Name, endpoint: Endpoint)
    | Update(connection: Name, peer: Name, open: bool)
    | Unregister(connection: Name)
    | SetSink(alive: bool)
    | SetReceive(on: bool)
    | SetTransmit(on: bool)
    | Arrive(connection: Name, packet: Packet)
    | Speak(frame: Outgoing)
    | ClearSpeech
    | Take
    | Hand(alive: bool)
    | Halt

  /** The worker, the frames its thread has taken but not handed over, and the history of frames. */
  datatype Audio = Audio(worker: Worker, held: seq<Incoming>, accepted: seq<Incoming>, handed: seq<Incoming>)

  const SILENT := Audio(Worker(map[], [], [], false, false, false, false, 0, 0, 0), [], [], [])

  function StepWorker(w: Worker, e: AudioEvent): Worker {
    match e
    case Register(connection, endpoint) => Registered(w, connection, endpoint)
    case Update(connection, peer, open) => Updated(w, connection, peer, open)
    case Unregister(connection) => Unregistered(w, connection)
    case SetSink(alive) => SinkSet(w, alive)
    case SetReceive(on) => ReceiveSet(w, on)
    case SetTransmit(on) => TransmitSet(w, on)
    case Arrive(connection, packet) => Received(w, connection, packet)
    case Speak(frame) => Spoken(w, frame)
    case ClearSpeech => OutgoingCleared(w)
    case Take => Taken(w)
    case Hand(_) => w
    case Halt => Stopped(w)
  }

  /** The thread takes a new batch only when it is through with the last one. */
  function StepAudio(a: Audio, e: AudioEvent): Audio {
    match e
    case Arrive(connection, packet) =>
      a.(worker := StepWorker(a.worker, e),
         accepted := if Takes(a.worker, connection, packet)
                     then a.accepted + [Incoming(connection, a.worker.routes[connection].peer, packet)] else a.accepted)
    case Take => if a.held != [] then a else a.(worker := StepWorker(a.worker, e), held := a.worker.incoming)
    case Hand(alive) => a.(held := [], handed := if a.worker.receiving && alive then a.handed + a.held else a.handed)
    case _ => a.(worker := StepWorker(a.worker, e))
  }

  function RunAudio(a: Audio, events: seq<AudioEvent>): Audio
    decreases |events|
  {
    if events == [] then a else RunAudio(StepAudio(a, events[0]), events[1..])
  }

  // ---- subsequences ----

  predicate Subsequence<T(==)>(a: seq<T>, b: seq<T>)
    decreases |b|
  {
    || a == []
    || (b != [] && (|| (a[|a| - 1] == b[|b| - 1] && Subsequence(a[..|a| - 1], b[..|b| - 1]))
                    || Subsequence(a, b[..|b| - 1])))
  }

  lemma SkipLast<T>(a: seq<T>, b: seq<T>, x: T)
    requires Subsequence(a, b)
    ensures Subsequence(a, b + [x]) && Subsequence(a + [x], b + [x])
  {
    assert (b + [x])[..|b|] == b && (a + [x])[..|a|] == a;
  }

  lemma {:induction false} Whole<T>(a: seq<T>)
    ensures Subsequence(a, a)
  {
    if a != [] { Whole(a[..|a| - 1]); }
  }

  lemma {:induction false} FurtherDown<T>(a: seq<T>, b: seq<T>, c: seq<T>)
    requires Subsequence(a, b) && Subsequence(b, c)
    ensures Subsequence(a, c)
    decreases |c|
  {
    if a != [] {
      var b1, c1 := b[..|b| - 1], c[..|c| - 1];
      if b[|b| - 1] == c[|c| - 1] && Subsequence(b1, c1) {
        if Subsequence(a, b1) { FurtherDown(a, b1, c1); } else { FurtherDown(a[..|a| - 1], b1, c1); }
      } else {
        FurtherDown(a, b, c1);
      }
    }
  }

  lemma LastApart<T>(p: seq<T>, s: seq<T>)
    requires s != []
    ensures p + s == (p + s[..|s| - 1]) + [s[|s| - 1]]
  {
  }

  lemma {:induction false} After<T>(p: seq<T>, a: seq<T>, b: seq<T>)
    requires Subsequence(a, b)
    ensures Subsequence(p + a, p + b)
    decreases |b|
  {
    if b == [] {
      Whole(p);
      assert p + a == p && p + b == p;
    } else {
      var x, b1 := b[|b| - 1], b[..|b| - 1];
      LastApart(p, b);
      if Subsequence(a, b1) {
        After(p, a, b1);
        SkipLast(p + a, p + b1, x);
      } else {
        After(p, a[..|a| - 1], b1);
        SkipLast(p + a[..|a| - 1], p + b1, x);
        LastApart(p, a);
      }
    }
  }

  lemma {:induction false} KeepsOrder(frames: seq<Incoming>, p: Incoming -> bool)
    ensures Subsequence(Keep(frames, p), frames)
  {
    if frames != [] {
      var rest, x := frames[..|frames| - 1], frames[|frames| - 1];
      KeepsOrder(rest, p);
      OneMoreInOrder(rest, x, p);
      assert frames == rest + [x];
    }
  }

  lemma OneMoreInOrder(frames: seq<Incoming>, x: Incoming, p: Incoming -> bool)
    requires Subsequence(Keep(frames, p), frames)
    ensures Subsequence(Keep(frames + [x], p), frames + [x])
  {
    SkipLast(Keep(frames, p), frames, x);
    KeepMore(frames, x, p);
  }

  lemma KeepMore(frames: seq<Incoming>, x: Incoming, p: Incoming -> bool)
    ensures Keep(frames + [x], p) == if p(x) then Keep(frames, p) + [x] else Keep(frames, p)
  {
    assert (frames + [x])[..|frames|] == frames;
  }

  lemma {:induction false} OldestGoes(frames: seq<Incoming>, connection: Name)
    ensures Subsequence(WithoutOldest(frames, connection), frames)
  {
    if frames != [] {
      assert frames == [frames[0]] + frames[1..];
      if frames[0].connection == connection { Suffix([frames[0]], frames[1..]); } else {
        OldestGoes(frames[1..], connection);
        After([frames[0]], WithoutOldest(frames[1..], connection), frames[1..]);
      }
    }
  }

  lemma {:induction false} Suffix<T>(p: seq<T>, s: seq<T>)
    ensures Subsequence(s, p + s)
  {
    if s != [] {
      var x := s[|s| - 1];
      Suffix(p, s[..|s| - 1]);
      SkipLast(s[..|s| - 1], p + s[..|s| - 1], x);
      assert s == s[..|s| - 1] + [x] && p + s == (p + s[..|s| - 1]) + [x];
    }
  }

  /** Frames that are handed over, held or queued are accepted ones, in the order they were accepted. */
  predicate InOrder(a: Audio) { Subsequence(a.handed + a.held + a.worker.incoming, a.accepted) }

  lemma FewerQueued(a: Audio, n: Audio)
    requires InOrder(a) && n.handed == a.handed && n.held == a.held && n.accepted == a.accepted
    requires Subsequence(n.worker.incoming, a.worker.incoming)
    ensures InOrder(n)
  {
    FewerLast(a.handed + a.held, n.worker.incoming, a.worker.incoming, a.accepted);
  }

  lemma FewerLast<T>(p: seq<T>, few: seq<T>, last: seq<T>, all: seq<T>)
    requires Subsequence(p + last, all) && Subsequence(few, last)
    ensures Subsequence(p + few, all)
  {
    After(p, few, last);
    FurtherDown(p + few, p + last, all);
  }

  lemma QueueShrinks(w: Worker, e: AudioEvent)
    requires !e.Arrive?
    ensures Subsequence(StepWorker(w, e).incoming, w.incoming)
  {
    Whole(w.incoming);
    match e {
      case Update(connection, peer, _) =>
        KeepsOrder(w.incoming, NotSuperseded(connection, peer));
        KeepsOrder(w.incoming, NotFrom(connection));
      case Unregister(connection) => KeepsOrder(w.incoming, NotFrom(connection));
      case _ =>
    }
  }

  /** What is queued before the new frame. */
  function MadeRoom(incoming: seq<Incoming>, connection: Name): seq<Incoming> {
    if HowMany(incoming, connection) >= MAX_INCOMING then WithoutOldest(incoming, connection) else incoming
  }

  lemma RoomIsInOrder(incoming: seq<Incoming>, connection: Name)
    ensures Subsequence(MadeRoom(incoming, connection), incoming)
  {
    OldestGoes(incoming, connection);
    Whole(incoming);
  }

  lemma OneMoreLast<T>(p: seq<T>, few: seq<T>, last: seq<T>, all: seq<T>, x: T)
    requires Subsequence(p + last, all) && Subsequence(few, last)
    ensures Subsequence(p + (few + [x]), all + [x])
  {
    FewerLast(p, few, last, all);
    SkipLast(p + few, all, x);
    assert p + (few + [x]) == (p + few) + [x];
  }

  lemma ArrivesInOrder(a: Audio, connection: Name, packet: Packet)
    requires InOrder(a)
    ensures InOrder(StepAudio(a, Arrive(connection, packet)))
  {
    if Takes(a.worker, connection, packet) {
      var n := StepAudio(a, Arrive(connection, packet));
      var frame := Incoming(connection, a.worker.routes[connection].peer, packet);
      var room := MadeRoom(a.worker.incoming, connection);
      assert n.worker.incoming == room + [frame] && n.accepted == a.accepted + [frame];
      RoomIsInOrder(a.worker.incoming, connection);
      OneMoreLast(a.handed + a.held, room, a.worker.incoming, a.accepted, frame);
    }
  }

  lemma StaysInOrder(a: Audio, e: AudioEvent)
    requires InOrder(a)
    ensures InOrder(StepAudio(a, e))
  {
    var n := StepAudio(a, e);
    if e.Arrive? { ArrivesInOrder(a, e.connection, e.packet); }
    else if e.Take? && a.held == [] {
      assert n.handed + n.held + n.worker.incoming == a.handed + a.held + a.worker.incoming;
    } else if e.Hand? {
      HandsInOrder(a, e.alive);
    } else if !e.Take? {
      QueueShrinks(a.worker, e);
      FewerQueued(a, n);
    }
  }

  lemma HandsInOrder(a: Audio, alive: bool)
    requires InOrder(a)
    ensures InOrder(StepAudio(a, Hand(alive)))
  {
    var n := StepAudio(a, Hand(alive));
    if a.worker.receiving && alive {
      assert n.handed + n.held == a.handed + a.held;
    } else {
      WithoutMiddle(a.handed, a.held, a.worker.incoming, a.accepted);
      assert n.handed + n.held == a.handed;
    }
  }

  lemma WithoutMiddle<T>(p: seq<T>, m: seq<T>, s: seq<T>, all: seq<T>)
    requires Subsequence(p + m + s, all)
    ensures Subsequence(p + s, all)
  {
    Suffix(m, s);
    After(p, s, m + s);
    assert p + m + s == p + (m + s);
    FurtherDown(p + s, p + m + s, all);
  }

  // ---- the bound of each connection ----

  lemma {:induction false} HowManyFrom(frames: seq<Incoming>, connection: Name)
    requires frames != []
    ensures HowMany(frames, connection)
      == HowMany(frames[1..], connection) + if frames[0].connection == connection then 1 else 0
  {
    var k := |frames| - 1;
    if k > 0 {
      HowManyFrom(frames[..k], connection);
      assert frames[1..][..k - 1] == frames[..k][1..] && frames[1..][k - 1] == frames[k];
    }
  }

  /** Only the evicted connection loses a frame. */
  lemma {:induction false} OneFewer(frames: seq<Incoming>, connection: Name, c: Name)
    ensures var n := HowMany(WithoutOldest(frames, connection), c);
      if c == connection && HowMany(frames, c) > 0 then n == HowMany(frames, c) - 1 else n == HowMany(frames, c)
  {
    if frames != [] {
      HowManyFrom(frames, c);
      if frames[0].connection != connection {
        OneFewer(frames[1..], connection, c);
        var rest := WithoutOldest(frames[1..], connection);
        HowManyFrom([frames[0]] + rest, c);
        assert ([frames[0]] + rest)[1..] == rest;
      }
    }
  }

  lemma {:induction false} FewerOf(a: seq<Incoming>, b: seq<Incoming>, c: Name)
    requires Subsequence(a, b)
    ensures HowMany(a, c) <= HowMany(b, c)
    decreases |b|
  {
    if a != [] {
      if Subsequence(a, b[..|b| - 1]) { FewerOf(a, b[..|b| - 1], c); } else { FewerOf(a[..|a| - 1], b[..|b| - 1], c); }
    }
  }

  ghost predicate Bounded(w: Worker) {
    |w.outgoing| <= MAX_OUTGOING && forall c :: HowMany(w.incoming, c) <= MAX_INCOMING
  }

  lemma StaysBounded(w: Worker, e: AudioEvent)
    requires Bounded(w)
    ensures Bounded(StepWorker(w, e))
  {
    var n := StepWorker(w, e);
    forall c ensures HowMany(n.incoming, c) <= MAX_INCOMING {
      if !e.Arrive? {
        QueueShrinks(w, e);
        FewerOf(n.incoming, w.incoming, c);
      } else if Takes(w, e.connection, e.packet) {
        OneFewer(w.incoming, e.connection, c);
        var queue := n.incoming[..|n.incoming| - 1];
        assert n.incoming[..|n.incoming| - 1] == queue;
      }
    }
  }

  // ---- one route for each peer ----

  /** Live routes were activated at different times, none later than the last activation. */
  predicate OrderedRoutes(routes: map<Name, Route>, last: nat) {
    && (forall c <- routes :: routes[c].order <= last)
    && (forall c <- routes, d <- routes :: c != d && Live(routes[c]) && Live(routes[d]) ==>
      routes[c].order != routes[d].order)
  }

  predicate Ordered(w: Worker) { OrderedRoutes(w.routes, w.lastOrder) }

  lemma OneRouteChanged(routes: map<Name, Route>, last: nat, connection: Name, r: Route, now: nat)
    requires OrderedRoutes(routes, last) && last <= now && r.order <= now && (Live(r) ==> last < r.order)
    ensures OrderedRoutes(routes[connection := r], now)
  {
  }

  lemma UpdateStaysOrdered(w: Worker, connection: Name, peer: Name, open: bool)
    requires Ordered(w)
    ensures Ordered(Updated(w, connection, peer, open))
  {
    if connection != "" && connection in w.routes {
      var n := Updated(w, connection, peer, open);
      OneRouteChanged(w.routes, w.lastOrder, connection, n.routes[connection], n.lastOrder);
    }
  }

  lemma StaysOrdered(w: Worker, e: AudioEvent)
    requires Ordered(w)
    ensures Ordered(StepWorker(w, e))
  {
    match e {
      case Update(connection, peer, open) => UpdateStaysOrdered(w, connection, peer, open);
      case _ => FewerLive(w.routes, StepWorker(w, e).routes, w.lastOrder);
    }
  }

  lemma FewerLive(routes: map<Name, Route>, n: map<Name, Route>, last: nat)
    requires OrderedRoutes(routes, last)
    requires forall c <- n ::
      n[c].order <= last && (Live(n[c]) ==> c in routes && Live(routes[c]) && n[c].order == routes[c].order)
    ensures OrderedRoutes(n, last)
  {
  }

  /** Every queued frame came over what is now its peer's newest live route. */
  predicate OverNewest(w: Worker) {
    forall f <- w.incoming :: Newest(w.routes, f.peer, f.connection)
  }

  /** The event gives an open connection another peer while frames of the old one are queued. */
  predicate Relabels(w: Worker, e: AudioEvent) {
    && e.Update? && e.open && e.connection != ""
    && (exists f <- w.incoming :: f.connection == e.connection && f.peer != e.peer)
  }

  lemma {:induction false} Kept(frames: seq<Incoming>, p: Incoming -> bool, f: Incoming)
    ensures f in Keep(frames, p) <==> f in frames && p(f)
  {
    if frames != [] {
      Kept(frames[..|frames| - 1], p, f);
      assert frames == frames[..|frames| - 1] + [frames[|frames| - 1]];
    }
  }

  lemma {:induction false} StillThere(a: seq<Incoming>, b: seq<Incoming>, f: Incoming)
    requires Subsequence(a, b) && f in a
    ensures f in b
    decreases |b|
  {
    if !Subsequence(a, b[..|b| - 1]) {
      if f != a[|a| - 1] { StillThere(a[..|a| - 1], b[..|b| - 1], f); }
    } else {
      StillThere(a, b[..|b| - 1], f);
    }
  }

  /** The connection of another peer's frame is still the newest of that peer. */
  lemma OtherRoute(w: Worker, connection: Name, peer: Name, open: bool, f: Incoming)
    requires Newest(w.routes, f.peer, f.connection) && f.connection != connection && connection in w.routes
    requires open && peer != "" ==> f.peer != peer
    ensures Newest(Updated(w, connection, peer, open).routes, f.peer, f.connection)
  {
    var n := Updated(w, connection, peer, open).routes;
    forall d | d in n && n[d].open && n[d].peer == f.peer ensures n[d].order <= n[f.connection].order {
      assert d != connection ==> n[d] == w.routes[d];
    }
  }

  lemma OwnRoute(w: Worker, connection: Name, peer: Name)
    requires Ordered(w) && connection in w.routes && connection != "" && peer != ""
    ensures Newest(Updated(w, connection, peer, true).routes, peer, connection)
  {
    var n := Updated(w, connection, peer, true).routes;
    forall d | d in n ensures n[d].order <= n[connection].order {
      assert d != connection ==> n[d] == w.routes[d];
    }
  }

  lemma UpdateOverNewest(w: Worker, connection: Name, peer: Name, open: bool)
    requires Ordered(w) && OverNewest(w) && !Relabels(w, Update(connection, peer, open))
    ensures OverNewest(Updated(w, connection, peer, open))
  {
    if connection != "" && connection in w.routes {
      var n := Updated(w, connection, peer, open);
      forall f | f in n.incoming ensures Newest(n.routes, f.peer, f.connection) {
        Kept(w.incoming, NotSuperseded(connection, peer), f);
        Kept(w.incoming, NotFrom(connection), f);
        if f.connection != connection {
          OtherRoute(w, connection, peer, open, f);
        } else {
          OwnRoute(w, connection, peer);
        }
      }
    }
  }

  lemma ReceivedOverNewest(w: Worker, connection: Name, packet: Packet)
    requires OverNewest(w)
    ensures OverNewest(Received(w, connection, packet))
  {
    var n := Received(w, connection, packet);
    if Takes(w, connection, packet) {
      OldestGoes(w.incoming, connection);
      var frame := Incoming(connection, w.routes[connection].peer, packet);
      forall f | f in n.incoming ensures Newest(n.routes, f.peer, f.connection) {
        if f != frame && f in WithoutOldest(w.incoming, connection) {
          StillThere(WithoutOldest(w.incoming, connection), w.incoming, f);
        }
      }
    }
  }

  lemma OthersOverNewest(w: Worker, e: AudioEvent)
    requires OverNewest(w) && !e.Update? && !e.Arrive?
    ensures OverNewest(StepWorker(w, e))
  {
    var n := StepWorker(w, e);
    QueueShrinks(w, e);
    forall f | f in n.incoming ensures Newest(n.routes, f.peer, f.connection) {
      StillThere(n.incoming, w.incoming, f);
      assert Newest(w.routes, f.peer, f.connection);
      if e.Unregister? { Kept(w.incoming, NotFrom(e.connection), f); }
    }
  }

  lemma RelabelledIsStale(w: Worker, e: AudioEvent)
    requires OverNewest(w) && Relabels(w, e)
    ensures !OverNewest(StepWorker(w, e))
  {
    var f :| f in w.incoming && f.connection == e.connection && f.peer != e.peer;
    assert Newest(w.routes, f.peer, f.connection);
    Kept(w.incoming, NotSuperseded(e.connection, e.peer), f);
    assert f in StepWorker(w, e).incoming;
  }

  /** The queue holds nothing from a superseded route, exactly as long as no busy connection changes its peer. */
  lemma NewestIffNotRelabelled(w: Worker, e: AudioEvent)
    requires Ordered(w) && OverNewest(w)
    ensures OverNewest(StepWorker(w, e)) <==> !Relabels(w, e)
  {
    if Relabels(w, e) { RelabelledIsStale(w, e); }
    else if e.Update? { UpdateOverNewest(w, e.connection, e.peer, e.open); }
    else if e.Arrive? { ReceivedOverNewest(w, e.connection, e.packet); }
    else { OthersOverNewest(w, e); }
  }

  // ---- whole runs ----

  ghost predicate AudioInv(a: Audio) { InOrder(a) && Bounded(a.worker) && Ordered(a.worker) }

  lemma StepHolds(a: Audio, e: AudioEvent)
    requires AudioInv(a)
    ensures AudioInv(StepAudio(a, e))
  {
    StaysInOrder(a, e);
    StaysBounded(a.worker, e);
    StaysOrdered(a.worker, e);
  }

  predicate NeverRelabels(a: Audio, events: seq<AudioEvent>)
    decreases |events|
  {
    events == [] || (!Relabels(a.worker, events[0]) && NeverRelabels(StepAudio(a, events[0]), events[1..]))
  }

  lemma {:induction false} RunHolds(a: Audio, events: seq<AudioEvent>)
    requires AudioInv(a)
    ensures AudioInv(RunAudio(a, events))
    ensures OverNewest(a.worker) && NeverRelabels(a, events) ==> OverNewest(RunAudio(a, events).worker)
    decreases |events|
  {
    if events != [] {
      StepHolds(a, events[0]);
      if OverNewest(a.worker) { NewestIffNotRelabelled(a.worker, events[0]); }
      RunHolds(StepAudio(a, events[0]), events[1..]);
    }
  }

  /** What the engine hears are accepted frames, in the order they came, at most sixteen of a connection waiting. */
  lemma HeardInOrder(events: seq<AudioEvent>)
    ensures var a := RunAudio(SILENT, events);
      && Subsequence(a.handed, a.accepted)
      && |a.worker.outgoing| <= MAX_OUTGOING && forall c :: HowMany(a.worker.incoming, c) <= MAX_INCOMING
  {
    RunHolds(SILENT, events);
    var a := RunAudio(SILENT, events);
    assert a.handed + a.held + a.worker.incoming == a.handed + (a.held + a.worker.incoming) + [];
    WithoutMiddle(a.handed, a.held + a.worker.incoming, [], a.accepted);
    assert a.handed + [] == a.handed;
  }

  /** Two streams of one peer never mix in the queue. */
  lemma OneStreamEach(events: seq<AudioEvent>, f: Incoming, g: Incoming)
    requires NeverRelabels(SILENT, events)
    requires f in RunAudio(SILENT, events).worker.incoming && g in RunAudio(SILENT, events).worker.incoming
      && f.peer == g.peer
    ensures f.connection == g.connection
  {
    RunHolds(SILENT, events);
    var w := RunAudio(SILENT, events).worker;
    assert Newest(w.routes, f.peer, f.connection) && Newest(w.routes, g.peer, g.connection);
  }

  function TwoRoutes(c: Name, d: Name, peer: Name): seq<AudioEvent> {
    [Register(c, 0)]
      + ([Register(d, 1)] + ([SetReceive(true)] + ([Update(d, peer, true)] + ([Update(c, peer, true)] + []))))
  }

  function OverTwo(c: Name, d: Name, peer: Name): Worker {
    Worker(map[c := Route(peer, 0, true, 2), d := Route(peer, 1, true, 1)], [], [], false, true, false, false, 2, 0, 0)
  }

  lemma OneEvent(a: Audio, e: AudioEvent, rest: seq<AudioEvent>)
    ensures RunAudio(a, [e] + rest) == RunAudio(StepAudio(a, e), rest)
  {
    assert ([e] + rest)[0] == e && ([e] + rest)[1..] == rest;
  }

  lemma {:induction false} RunOn(a: Audio, first: seq<AudioEvent>, rest: seq<AudioEvent>)
    ensures RunAudio(a, first + rest) == RunAudio(RunAudio(a, first), rest)
    decreases |first|
  {
    if first == [] { assert first + rest == rest; } else {
      assert (first + rest)[1..] == first[1..] + rest;
      RunOn(StepAudio(a, first[0]), first[1..], rest);
    }
  }

  lemma BothUpdated(c: Name, d: Name, peer: Name)
    requires c != "" && d != "" && c != d && peer != ""
    ensures var w := ReceiveSet(Registered(Registered(SILENT.worker, c, 0), d, 1), true);
      Updated(Updated(w, d, peer, true), c, peer, true) == OverTwo(c, d, peer)
  {
  }

  lemma TwoRoutesOpen(c: Name, d: Name, peer: Name)
    requires c != "" && d != "" && c != d && peer != ""
    ensures RunAudio(SILENT, TwoRoutes(c, d, peer)) == SILENT.(worker := OverTwo(c, d, peer))
  {
    BothUpdated(c, d, peer);
    var w1 := Registered(SILENT.worker, c, 0);
    var w2 := Registered(w1, d, 1);
    var w3 := ReceiveSet(w2, true);
    var w4 := Updated(w3, d, peer, true);
    var last: seq<AudioEvent> := [Update(c, peer, true)] + [];
    var fourth := [Update(d, peer, true)] + last;
    var third := [SetReceive(true)] + fourth;
    OneEvent(SILENT, Register(c, 0), [Register(d, 1)] + third);
    OneEvent(SILENT.(worker := w1), Register(d, 1), third);
    OneEvent(SILENT.(worker := w2), SetReceive(true), fourth);
    OneEvent(SILENT.(worker := w3), Update(d, peer, true), last);
    OneEvent(SILENT.(worker := w4), Update(c, peer, true), []);
  }

  lemma OneReceived(w: Worker, c: Name, x: Packet)
    requires Takes(w, c, x) && HowMany(w.incoming, c) < MAX_INCOMING
    ensures Received(w, c, x) == w.(incoming := w.incoming + [Incoming(c, w.routes[c].peer, x)])
  {
  }

  lemma NotSupersededStays(f: Incoming, c: Name, peer: Name)
    requires f.connection == c
    ensures Keep([f], NotSuperseded(c, peer)) == [f]
  {
    assert [f][..0] == [];
  }

  /** A connection's frames outlive its change of peer, and the other route of the old peer adds its own. */
  lemma Relabelled(c: Name, d: Name, a: Name, b: Name, x: Packet, y: Packet)
    requires c != "" && d != "" && c != d && a != "" && b != "" && a != b && x.opus != [] && y.opus != []
    ensures var w := Updated(Received(OverTwo(c, d, a), c, x), c, b, true);
      Received(w, d, y).incoming == [Incoming(c, a, x), Incoming(d, a, y)]
  {
    var f := Incoming(c, a, x);
    OneReceived(OverTwo(c, d, a), c, x);
    NotSupersededStays(f, c, b);
    var w := Updated(Received(OverTwo(c, d, a), c, x), c, b, true);
    assert w.incoming == [f] && w.routes == map[c := Route(b, 0, true, 3), d := Route(a, 1, true, 1)];
    assert [f][..0] == [] && HowMany([f], d) == 0;
    OneReceived(w, d, y);
  }

  lemma ThreeEvents(s: Audio, c: Name, d: Name, b: Name, x: Packet, y: Packet)
    ensures RunAudio(s, [Arrive(c, x)] + ([Update(c, b, true)] + ([Arrive(d, y)] + []))).worker
      == Received(Updated(Received(s.worker, c, x), c, b, true), d, y)
  {
    var last: seq<AudioEvent> := [Arrive(d, y)] + [];
    var s2 := StepAudio(s, Arrive(c, x));
    var s3 := StepAudio(s2, Update(c, b, true));
    OneEvent(s, Arrive(c, x), [Update(c, b, true)] + last);
    OneEvent(s2, Update(c, b, true), last);
    OneEvent(s3, Arrive(d, y), []);
  }

  /** With a connection that changes its peer they do. */
  lemma RelabellingMixes(c: Name, d: Name, a: Name, b: Name, x: Packet, y: Packet) returns (events: seq<AudioEvent>)
    requires c != "" && d != "" && c != d && a != "" && b != "" && a != b && x.opus != [] && y.opus != []
    ensures RunAudio(SILENT, events).worker.incoming == [Incoming(c, a, x), Incoming(d, a, y)]
  {
    var more := [Arrive(c, x)] + ([Update(c, b, true)] + ([Arrive(d, y)] + []));
    events := TwoRoutes(c, d, a) + more;
    RunOn(SILENT, TwoRoutes(c, d, a), more);
    TwoRoutesOpen(c, d, a);
    ThreeEvents(SILENT.(worker := OverTwo(c, d, a)), c, d, b, x, y);
    Relabelled(c, d, a, b, x, y);
  }
}
