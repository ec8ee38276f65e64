/** Audio frames between the network and the engine: routes of peers, and two bounded queues. */
module AudioTransport {
  import opened Wrappers

  const MAX_OUTGOING := 2
  const MAX_INCOMING := 16

  /** An identifier; the empty one is none. */
  type Name = string

  type Endpoint = nat

  /** A connection's track, the peer behind it, and when it was last activated. */
  datatype Route = Route(peer: Name, endpoint: Endpoint, open: bool, order: nat)

  datatype Packet = Packet(ssrc: nat, sequence: nat, timestamp: nat, opus: seq<byte>, receivedAt: int)

  datatype Incoming = Incoming(connection: Name, peer: Name, packet: Packet)

  datatype Outgoing = Outgoing(opus: seq<byte>, timestamp: nat)

  datatype Worker = Worker(routes: map<Name, Route>, incoming: seq<Incoming>, outgoing: seq<Outgoing>, sink: bool,
                           receiving: bool, transmitting: bool, stopping: bool, lastOrder: nat,
                           droppedIncoming: nat, droppedOutgoing: nat)

  // ---- the queue of received frames ----

  /** The frames that satisfy `p`, in order. */
  function Keep(frames: seq<Incoming>, p: Incoming -> bool): seq<Incoming> {
    if frames == [] then []
    else Keep(frames[..|frames| - 1], p) + if p(frames[|frames| - 1]) then [frames[|frames| - 1]] else []
  }

  function NotFrom(connection: Name): Incoming -> bool { (f: Incoming) => f.connection != connection }

  /** What stays when `connection` becomes the newest route of `peer`. */
  function NotSuperseded(connection: Name, peer: Name): Incoming -> bool {
    (f: Incoming) => f.connection == connection || f.peer != peer
  }

  function HowMany(frames: seq<Incoming>, connection: Name): nat {
    if frames == [] then 0
    else HowMany(frames[..|frames| - 1], connection) + if frames[|frames| - 1].connection == connection then 1 else 0
  }

  /** The queue without its first frame from the connection. */
  function WithoutOldest(frames: seq<Incoming>, connection: Name): seq<Incoming> {
    if frames == [] then [] else if frames[0].connection == connection then frames[1..]
    else [frames[0]] + WithoutOldest(frames[1..], connection)
  }

  // ---- steps ----

  predicate Live(r: Route) { r.open && r.peer != "" }

  /** Another open route of the same peer was activated later. */
  predicate Superseded(routes: map<Name, Route>, connection: Name)
    requires connection in routes
  {
    exists d <- routes :: routes[d].open && routes[d].peer == routes[connection].peer
      && routes[d].order > routes[connection].order
  }

  function Registered(w: Worker, connection: Name, endpoint: Endpoint): Worker {
    if connection == "" then w
    else
      var before := if connection in w.routes then w.routes[connection] else Route("", endpoint, false, 0);
      w.(routes := w.routes[connection := before.(endpoint := endpoint)])
  }

  function Updated(w: Worker, connection: Name, peer: Name, open: bool): Worker {
    if connection == "" || connection !in w.routes then w
    else
      var route := w.routes[connection].(peer := peer, open := open);
      if open && peer != "" then
        w.(routes := w.routes[connection := route.(order := w.lastOrder + 1)], lastOrder := w.lastOrder + 1,
           incoming := Keep(w.incoming, NotSuperseded(connection, peer)))
      else
        w.(routes := w.routes[connection := route],
           incoming := if open then w.incoming else Keep(w.incoming, NotFrom(connection)))
  }

  function Unregistered(w: Worker, connection: Name): Worker {
    if connection == "" then w
    else w.(routes := w.routes - {connection}, incoming := Keep(w.incoming, NotFrom(connection)))
  }

  function SinkSet(w: Worker, alive: bool): Worker { w.(sink := alive, incoming := if alive then w.incoming else []) }

  function ReceiveSet(w: Worker, on: bool): Worker { w.(receiving := on, incoming := if on then w.incoming else []) }

  function TransmitSet(w: Worker, on: bool): Worker {
    w.(transmitting := on, outgoing := if on then w.outgoing else [])
  }

  /** A received frame is taken only over the newest open route of its peer. */
  predicate Takes(w: Worker, connection: Name, packet: Packet) {
    && connection != "" && packet.opus != [] && !w.stopping && w.receiving
    && connection in w.routes && Live(w.routes[connection]) && !Superseded(w.routes, connection)
  }

  function Received(w: Worker, connection: Name, packet: Packet): Worker {
    if !Takes(w, connection, packet) then w
    else
      var full := HowMany(w.incoming, connection) >= MAX_INCOMING;
      var queue := if full then WithoutOldest(w.incoming, connection) else w.incoming;
      w.(incoming := queue + [Incoming(connection, w.routes[connection].peer, packet)],
         droppedIncoming := w.droppedIncoming + if full then 1 else 0)
  }

  function OutgoingCleared(w: Worker): Worker { w.(outgoing := []) }

  function Spoken(w: Worker, frame: Outgoing): Worker {
    if frame.opus == [] || w.stopping || !w.transmitting then w
    else
      var full := |w.outgoing| >= MAX_OUTGOING;
      w.(outgoing := (if full then w.outgoing[1..] else w.outgoing) + [frame],
         droppedOutgoing := w.droppedOutgoing + if full then 1 else 0)
  }

  function Taken(w: Worker): Worker { w.(incoming := [], outgoing := []) }

  function Stopped(w: Worker): Worker {
    w.(stopping := true, receiving := false, transmitting := false, incoming := [], outgoing := [], sink := false,
      routes := map[])
  }

  /** `connection` is the live route of `peer` that was activated last. */
  predicate Newest(routes: map<Name, Route>, peer: Name, connection: Name) {
    && connection in routes && Live(routes[connection]) && routes[connection].peer == peer
    && !Superseded(routes, connection)
  }

  /** One connection for each peer that can be reached: its newest route. */
  predicate Chosen(routes: map<Name, Route>, chosen: map<Name, Name>) {
    && (forall peer <- chosen :: Newest(routes, peer, chosen[peer]))
    && (forall c <- routes :: Live(routes[c]) ==> routes[c].peer in chosen)
  }

  /** The same as a list: the newest route of every peer that has a live one, each peer once. */
  predicate Targets(routes: map<Name, Route>, targets: seq<Name>) {
    && (forall k :: 0 <= k < |targets| ==> targets[k] in routes && Newest(routes, routes[targets[k]].peer, targets[k]))
    && (forall j, k :: 0 <= j < k < |targets| ==> routes[targets[j]].peer != routes[targets[k]].peer)
    && (forall c <- routes :: Live(routes[c]) ==>
      exists k :: 0 <= k < |targets| && routes[targets[k]].peer == routes[c].peer)
  }

  /** What goes out over one connection. */
  function Over(sends: seq<(Outgoing, Name)>, connection: Name): seq<Outgoing> {
    if sends == [] then []
    else
      var (frame, c) := sends[|sends| - 1];
      Over(sends[..|sends| - 1], connection) + if c == connection then [frame] else []
  }

  lemma OverMore(sends: seq<(Outgoing, Name)>, frame: Outgoing, c: Name, connection: Name)
    ensures Over(sends + [(frame, c)], connection) == Over(sends, connection) + if c == connection then [frame] else []
  {
    assert (sends + [(frame, c)])[..|sends|] == sends;
  }

  // ---- the worker's own code ----

  class AudioTransportWorker {
    var routes: map<Name, Route>
    var incoming: seq<Incoming>
    var outgoing: seq<Outgoing>
    var sink: bool
    var receiving: bool
    var transmitting: bool
    var stopping: bool
    var lastOrder: nat
    var droppedIncoming: nat
    var droppedOutgoing: nat

    function View(): Worker
      reads this
    {
      Worker(routes, incoming, outgoing, sink, receiving, transmitting, stopping, lastOrder, droppedIncoming,
        droppedOutgoing)
    }

    constructor ()
      ensures View() == Worker(map[], [], [], false, false, false, false, 0, 0, 0)
    {
      routes, incoming, outgoing, sink := map[], [], [], false;
      receiving, transmitting, stopping := false, false, false;
      lastOrder, droppedIncoming, droppedOutgoing := 0, 0, 0;
    }

    method RegisterConnection(connection: Name, endpoint: Endpoint)
      modifies this
      ensures View() == Registered(old(View()), connection, endpoint)
    {
      if connection == "" { return; }
      if connection !in routes { routes := routes[connection := Route("", endpoint, false, 0)]; }
      routes := routes[connection := routes[connection].(endpoint := endpoint)];
    }

    method UpdateConnection(connection: Name, peer: Name, open: bool)
      modifies this
      ensures View() == Updated(old(View()), connection, peer, open)
    {
      if connection == "" || connection !in routes { return; }
      routes := routes[connection := routes[connection].(peer := peer, open := open)];
      if open && peer != "" {
        lastOrder := lastOrder + 1;
        routes := routes[connection := routes[connection].(order := lastOrder)];
        incoming := Keep(incoming, NotSuperseded(connection, peer));
      }
      if !open { incoming := Keep(incoming, NotFrom(connection)); }
    }

    method UnregisterConnection(connection: Name)
      modifies this
      ensures View() == Unregistered(old(View()), connection)
    {
      if connection == "" { return; }
      routes := routes - {connection};
      incoming := Keep(incoming, NotFrom(connection));
    }

    method SetIncomingSink(alive: bool)
      modifies this
      ensures View() == SinkSet(old(View()), alive)
    {
      sink := alive;
      if !sink { incoming := []; }
    }

    method SetReceiveEnabled(on: bool)
      modifies this
      ensures View() == ReceiveSet(old(View()), on)
    {
      receiving := on;
      if !on { incoming := []; }
    }

    method SetTransmitEnabled(on: bool)
      modifies this
      ensures View() == TransmitSet(old(View()), on)
    {
      transmitting := on;
      if !on { outgoing := []; }
    }

    method ClearOutgoing()
      modifies this
      ensures View() == OutgoingCleared(old(View()))
    {
      outgoing := [];
    }

    /** Looks for a newer open route of the same peer. */
    method HasNewer(connection: Name) returns (found: bool)
      requires connection in routes
      ensures found == Superseded(routes, connection)
    {
      var left := routes.Keys;
      while left != {}
        invariant left <= routes.Keys
        invariant forall d <- routes :: d in left || !routes[d].open || routes[d].peer != routes[connection].peer
                                         || routes[d].order <= routes[connection].order
        decreases |left|
      {
        var d :| d in left;
        if routes[d].open && routes[d].peer == routes[connection].peer && routes[d].order > routes[connection].order {
          return true;
        }
        left := left - {d};
      }
      found := false;
    }

    method EnqueueIncoming(connection: Name, packet: Packet)
      modifies this
      ensures View() == Received(old(View()), connection, packet)
    {
      if connection == "" || packet.opus == [] { return; }
      if stopping || !receiving || connection !in routes || !Live(routes[connection]) { return; }
      var newer := HasNewer(connection);
      if newer { return; }
      if HowMany(incoming, connection) >= MAX_INCOMING {
        incoming := WithoutOldest(incoming, connection);
        droppedIncoming := droppedIncoming + 1;
      }
      incoming := incoming + [Incoming(connection, routes[connection].peer, packet)];
    }

    method Enqueue(frame: Outgoing)
      modifies this
      ensures View() == Spoken(old(View()), frame)
    {
      if frame.opus == [] || stopping || !transmitting { return; }
      if |outgoing| >= MAX_OUTGOING {
        outgoing := outgoing[1..];
        droppedOutgoing := droppedOutgoing + 1;
      }
      outgoing := outgoing + [frame];
    }

    /** The newest live route of every peer, found in whatever order the table is walked. */
    method SelectRoutes() returns (chosen: map<Name, Name>)
      ensures Chosen(routes, chosen)
    {
      chosen := map[];
      var left := routes.Keys;
      while left != {}
        invariant left <= routes.Keys
        invariant Chosen(map c | c in routes && c !in left :: routes[c], chosen)
        decreases |left|
      {
        var c :| c in left;
        ghost var seen, was := map d | d in routes && d !in left :: routes[d], chosen;
        var route := routes[c];
        if Live(route) && (route.peer !in chosen || route.order > routes[chosen[route.peer]].order) {
          chosen := chosen[route.peer := c];
        }
        left := left - {c};
        assert (map d | d in routes && d !in left :: routes[d]) == seen[c := route];
        OneMoreRoute(seen, was, c, route);
      }
      assert (map c | c in routes && c !in left :: routes[c]) == routes;
    }

    /** The part of a round under the main lock: both queues, and where encoded frames are to go. */
    method TakeBatch() returns (received: seq<Incoming>, encoded: seq<Outgoing>, targets: seq<Name>)
      modifies this
      ensures View() == Taken(old(View()))
      ensures received == old(incoming) && encoded == old(outgoing)
      ensures if old(outgoing) != [] && transmitting then Targets(routes, targets) else targets == []
    {
      received, encoded, targets := incoming, outgoing, [];
      incoming, outgoing := [], [];
      if encoded != [] && transmitting {
        var chosen := SelectRoutes();
        targets := ListTargets(chosen);
      }
    }

    method ListTargets(chosen: map<Name, Name>) returns (targets: seq<Name>)
      requires Chosen(routes, chosen)
      ensures Targets(routes, targets)
    {
      targets := [];
      var left := chosen.Keys;
      while left != {}
        invariant left <= chosen.Keys
        invariant forall k :: 0 <= k < |targets| ==>
          targets[k] in routes && routes[targets[k]].peer in chosen && routes[targets[k]].peer !in left
          && targets[k] == chosen[routes[targets[k]].peer]
        invariant forall j, k :: 0 <= j < k < |targets| ==> routes[targets[j]].peer != routes[targets[k]].peer
        invariant forall peer <- chosen ::
          peer in left || exists k :: 0 <= k < |targets| && routes[targets[k]].peer == peer
        decreases |left|
      {
        var peer :| peer in left;
        ghost var before := targets;
        targets := targets + [chosen[peer]];
        left := left - {peer};
        assert targets[|before|] == chosen[peer];
        assert forall k :: 0 <= k < |before| ==> targets[k] == before[k];
      }
    }

    /** The part under the transmitting gate: every frame over every target, in order. */
    method Transmit(encoded: seq<Outgoing>, targets: seq<Name>) returns (sends: seq<(Outgoing, Name)>)
      requires forall j, k :: 0 <= j < k < |targets| ==> targets[j] != targets[k]
      ensures forall c :: Over(sends, c) == if transmitting && c in targets then encoded else []
    {
      sends := [];
      if !transmitting { return; }
      for k := 0 to |encoded|
        invariant forall c :: Over(sends, c) == if c in targets then encoded[..k] else []
      {
        assert encoded[..k + 1] == encoded[..k] + [encoded[k]];
        ghost var before := sends;
        for j := 0 to |targets|
          invariant forall c :: Over(sends, c) == Over(before, c) + if c in targets[..j] then [encoded[k]] else []
        {
          forall c { OverMore(sends, encoded[k], targets[j], c); }
          sends := sends + [(encoded[k], targets[j])];
          assert targets[..j + 1] == targets[..j] + [targets[j]];
        }
        assert targets[..|targets|] == targets;
      }
      assert encoded[..|encoded|] == encoded;
    }

    /** The part under the receiving gate. */
    method HandOver(received: seq<Incoming>, alive: bool) returns (handed: seq<Incoming>)
      ensures handed == if receiving && alive then received else []
    {
      handed := [];
      if receiving {
        for k := 0 to |received|
          invariant handed == if alive then received[..k] else []
        {
          if alive { handed := handed + [received[k]]; }
        }
      }
    }

    method Stop()
      modifies this
      ensures View() == Stopped(old(View()))
    {
      stopping, receiving, transmitting := true, false, false;
      incoming, outgoing, sink, routes := [], [], false, map[];
    }
  }

  lemma OneMoreRoute(routes: map<Name, Route>, chosen: map<Name, Name>, c: Name, r: Route)
    requires Chosen(routes, chosen) && c !in routes
    ensures var n := routes[c := r];
      if Live(r) && (r.peer !in chosen || r.order > routes[chosen[r.peer]].order) then Chosen(n, chosen[r.peer := c])
      else Chosen(n, chosen)
  {
    var n := routes[c := r];
    forall peer | peer in chosen && (r.peer != peer || r.order <= routes[chosen[peer]].order)
      ensures Newest(n, peer, chosen[peer])
    {
      assert Newest(routes, peer, chosen[peer]);
    }
    if Live(r) && (r.peer !in chosen || r.order > routes[chosen[r.peer]].order) {
      forall d | d in routes && routes[d].open && routes[d].peer == r.peer ensures routes[d].order < r.order {
        if r.peer in chosen { assert !Superseded(routes, chosen[r.peer]); }
      }
      assert Newest(n, r.peer, c);
    }
  }
}
