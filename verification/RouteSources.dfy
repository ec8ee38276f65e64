/** Where routes come from: what each source must say for every hop count to stay the length of a real walk. */
module RouteSources {
  import opened Wrappers
  import opened SignalingRouter
  import opened PacketHandlers
  import opened Flooding
  import opened FloodProofs
  import opened ReplyProofs
  import opened FloodTheorems
  import opened RouteWalks
  import opened FloodTraffic

  // ---- one route ----

  /** The observed way is shorter than what is known, or nothing is. */
  predicate Shorter(t: Tables, peer: Node, hops: int, now: int) {
    hops > 0 && (peer !in Expire(t, now).routes || hops < Expire(t, now).routes[peer].hops)
  }

  ghost predicate TableReal(c: Config, v: Node, t: Tables) {
    forall peer <- t.routes :: RealRoute(c, v, peer, t.routes[peer].connection, t.routes[peer].hops)
  }

  lemma RealTables(c: Config, tables: map<Node, Tables>)
    ensures AllReal(c, tables) <==> forall v <- tables :: TableReal(c, v, tables[v])
  {
    if AllReal(c, tables) {
      forall v | v in tables ensures TableReal(c, v, tables[v]) {
        forall peer | peer in tables[v].routes
          ensures RealRoute(c, v, peer, tables[v].routes[peer].connection, tables[v].routes[peer].hops) {
        }
      }
    }
  }

  lemma OneTable(c: Config, tables: map<Node, Tables>, at: Node, u: Tables)
    requires AllReal(c, tables) && at in tables
    ensures AllReal(c, tables[at := u]) <==> TableReal(c, at, u)
  {
    var n := tables[at := u];
    RealTables(c, tables);
    RealTables(c, n);
    assert AllReal(c, n) ==> TableReal(c, at, n[at]);
    if TableReal(c, at, u) {
      forall v | v in n ensures TableReal(c, v, n[v]) {
        if v != at { assert n[v] == tables[v] && TableReal(c, v, tables[v]); }
      }
    }
  }

  /** Observing a route keeps every hop count real exactly if the way is real, or not shorter than the known one. */
  lemma ObservedRealIff(c: Config, v: Node, t: Tables, peer: Node, via: Node, hops: int, now: int)
    requires TableReal(c, v, t)
    ensures TableReal(c, v, ObserveRoute(t, peer, via, hops, now))
      <==> (Shorter(t, peer, hops, now) ==> RealRoute(c, v, peer, via, hops))
  {
    var e, u := Expire(t, now), ObserveRoute(t, peer, via, hops, now);
    assert forall q <- e.routes :: q in t.routes && e.routes[q] == t.routes[q];
    if Shorter(t, peer, hops, now) {
      assert u.routes == e.routes[peer := Route(via, hops, now)];
      if RealRoute(c, v, peer, via, hops) {
        forall q | q in u.routes ensures RealRoute(c, v, q, u.routes[q].connection, u.routes[q].hops) {
          if q != peer { assert u.routes[q] == e.routes[q]; }
        }
      } else {
        assert u.routes[peer].connection == via && u.routes[peer].hops == hops;
      }
    } else {
      forall q | q in u.routes ensures RealRoute(c, v, q, u.routes[q].connection, u.routes[q].hops) {
        assert q in t.routes;
        assert u.routes[q].connection == t.routes[q].connection && u.routes[q].hops == t.routes[q].hops;
      }
    }
  }

  /** Two hops over a neighbour are real exactly to its own neighbours. */
  lemma TwoHops(c: Config, v: Node, via: Node, peer: Node)
    requires v in c.links && via in c.links[v]
    ensures RealRoute(c, v, peer, via, 2) <==> via in c.links && peer in c.links[via]
  {
    if via in c.links && peer in c.links[via] {
      var w := [v, via, peer];
      assert WalkTo(c, w, v, peer, via);
    }
    if RealRoute(c, v, peer, via, 2) {
      var w :| WalkTo(c, w, v, peer, via) && |w| == 3;
      assert w[1] in c.links && w[2] in c.links[w[1]];
    }
  }

  lemma OneHop(c: Config, v: Node, peer: Node)
    requires v in c.links && peer in c.links[v]
    ensures RealRoute(c, v, peer, peer, 1)
  {
    assert WalkTo(c, [v, peer], v, peer, peer);
  }

  // ---- peer lists ----

  predicate Current(t: Tables, now: int) { forall q <- t.routes :: t.routes[q].updatedAt >= now - ROUTE_LIFETIME_MS }

  /** The peers a snapshot says nothing about. */
  predicate Skipped(me: Node, links: seq<Node>, from: Node, p: Node) { p == me || p == from || p in links }

  /** The peer's route is as it was, but for its time. */
  predicate SameWay(t: Tables, u: Tables, p: Node) {
    && (p in t.routes <==> p in u.routes)
    && (p in t.routes ==>
          u.routes[p].connection == t.routes[p].connection && u.routes[p].hops == t.routes[p].hops)
  }

  predicate TwoOver(u: Tables, from: Node, p: Node) {
    p in u.routes && u.routes[p].connection == from && u.routes[p].hops == 2
  }

  predicate Near(t: Tables, p: Node) { p in t.routes && t.routes[p].hops <= 2 }

  lemma ObserveTwo(t: Tables, from: Node, q: Node, p: Node, now: int)
    requires Current(t, now)
    ensures var u := ObserveRoute(t, q, from, 2, now);
      Current(u, now) && (if p == q && !Near(t, p) then TwoOver(u, from, p) else SameWay(t, u, p))
  {
    assert forall x <- t.routes :: x in Expire(t, now).routes && Expire(t, now).routes[x] == t.routes[x];
  }

  lemma {:induction false} ListAt(t: Tables, me: Node, links: seq<Node>, from: Node, known: seq<Node>, now: int,
                                  p: Node)
    requires Current(t, now)
    ensures var u := ListHeard(t, me, links, from, known, now);
      && Current(u, now)
      && if p in known && !Skipped(me, links, from, p) && !Near(t, p) then TwoOver(u, from, p) else SameWay(t, u, p)
  {
    if known != [] {
      var k := |known| - 1;
      var before := ListHeard(t, me, links, from, known[..k], now);
      ListAt(t, me, links, from, known[..k], now, p);
      assert p in known <==> p in known[..k] || p == known[k];
      ObserveTwo(before, from, known[k], p, now);
    }
  }

  /** The peers a snapshot gives a route of two hops. */
  predicate Listed(t: Tables, me: Node, links: seq<Node>, from: Node, known: seq<Node>, now: int, p: Node) {
    p in known && !Skipped(me, links, from, p) && Shorter(t, p, 2, now)
  }

  lemma DirectAt(t: Tables, from: Node, now: int, p: Node)
    ensures var u := ObserveRoute(t, from, from, 1, now);
      && Current(u, now) && (p != from ==> SameWay(Expire(t, now), u, p))
      && from in u.routes && (u.routes[from] == Route(from, 1, now) || SameWay(Expire(t, now), u, from))
  {
  }

  lemma SnapshotAt(t: Tables, me: Node, links: seq<Node>, from: Node, known: seq<Node>, now: int, p: Node)
    requires p != from
    ensures var u := HandleSnapshot(t, me, links, from, known, now);
      if Listed(t, me, links, from, known, now, p) then TwoOver(u, from, p) else SameWay(Expire(t, now), u, p)
  {
    DirectAt(t, from, now, p);
    ListAt(ObserveRoute(t, from, from, 1, now), me, links, from, known, now, p);
  }

  lemma SnapshotDirect(t: Tables, me: Node, links: seq<Node>, from: Node, known: seq<Node>, now: int)
    ensures SameWay(ObserveRoute(t, from, from, 1, now), HandleSnapshot(t, me, links, from, known, now), from)
  {
    DirectAt(t, from, now, from);
    ListAt(ObserveRoute(t, from, from, 1, now), me, links, from, known, now, from);
  }

  lemma SnapshotTable(c: Config, at: Node, t: Tables, from: Node, known: seq<Node>, now: int)
    requires Topology(c) && at in c.links && from in c.links[at] && TableReal(c, at, t)
    ensures TableReal(c, at, HandleSnapshot(t, at, c.links[at], from, known, now))
      <==> forall p <- known :: Listed(t, at, c.links[at], from, known, now, p) ==> p in c.links[from]
  {
    var u := HandleSnapshot(t, at, c.links[at], from, known, now);
    forall p | p in known && Listed(t, at, c.links[at], from, known, now, p)
      ensures TwoOver(u, from, p) && (RealRoute(c, at, p, from, 2) <==> p in c.links[from])
    {
      SnapshotAt(t, at, c.links[at], from, known, now, p);
      TwoHops(c, at, from, p);
    }
    if forall p <- known :: Listed(t, at, c.links[at], from, known, now, p) ==> p in c.links[from] {
      forall q | q in u.routes ensures RealRoute(c, at, q, u.routes[q].connection, u.routes[q].hops) {
        if q == from { DirectReal(c, at, t, from, known, now); } else {
          SnapshotAt(t, at, c.links[at], from, known, now, q);
        }
      }
    }
  }

  lemma DirectReal(c: Config, at: Node, t: Tables, from: Node, known: seq<Node>, now: int)
    requires at in c.links && from in c.links[at] && TableReal(c, at, t)
    ensures var u := HandleSnapshot(t, at, c.links[at], from, known, now);
      from in u.routes && RealRoute(c, at, from, u.routes[from].connection, u.routes[from].hops)
  {
    SnapshotDirect(t, at, c.links[at], from, known, now);
    DirectAt(t, from, now, from);
    OneHop(c, at, from);
  }

  /** A snapshot keeps every hop count real exactly if each peer it gives a new route is a neighbour of its sender. */
  lemma SnapshotRealIff(c: Config, tables: map<Node, Tables>, at: Node, from: Node, known: seq<Node>, now: int)
    requires Topology(c) && AllReal(c, tables) && at in tables && at in c.links && from in c.links[at]
    ensures AllReal(c, tables[at := HandleSnapshot(tables[at], at, c.links[at], from, known, now)])
      <==> forall p <- known :: Listed(tables[at], at, c.links[at], from, known, now, p) ==> p in c.links[from]
  {
    RealTables(c, tables);
    OneTable(c, tables, at, HandleSnapshot(tables[at], at, c.links[at], from, known, now));
    SnapshotTable(c, at, tables[at], from, known, now);
  }

  /** So does an offer or answer for a link exactly if it was seen before, its sender is known to be as near, or the
      sender is a neighbour of who passed it on. */
  lemma SignalRealIff(c: Config, tables: map<Node, Tables>, at: Node, from: Node, p: Packet, now: int)
    requires Topology(c) && AllReal(c, tables) && at in tables && at in c.links && from in c.links[at]
    ensures AllReal(c, tables[at := HandleSignal(tables[at], at, c.links[at], from, p, now).tables])
      <==> (RememberPacket(tables[at], p.id, now).0 && Shorter(tables[at], p.sender, 2, now) ==>
              p.sender in c.links[from])
  {
    var t := tables[at];
    var (first, seen) := RememberPacket(t, p.id, now);
    RealTables(c, tables);
    OneTable(c, tables, at, HandleSignal(t, at, c.links[at], from, p, now).tables);
    RememberedReal(c, at, t, p.id, now);
    ShorterStill(t, p.id, p.sender, now);
    ObservedRealIff(c, at, seen, p.sender, from, 2, now);
    TwoHops(c, at, from, p.sender);
  }

  lemma RememberedReal(c: Config, v: Node, t: Tables, id: Id, now: int)
    requires TableReal(c, v, t)
    ensures TableReal(c, v, RememberPacket(t, id, now).1)
  {
  }

  lemma ShorterStill(t: Tables, id: Id, peer: Node, now: int)
    ensures Shorter(RememberPacket(t, id, now).1, peer, 2, now) <==> Shorter(t, peer, 2, now)
  {
  }

  /** A line of four members, the first of which hears of the last from the second: two hops, where there are three. A
      later announcement over the same connection does not correct it. */
  lemma LineOfFour(c: Config, now: int)
    requires Topology(c) && c.links == map[1 := [2], 2 := [1, 3], 3 := [2, 4], 4 := [3]]
    ensures var t := HandleSnapshot(Tables(map[], map[], map[]), 1, c.links[1], 2, [1, 2, 3, 4], now);
      && TwoOver(t, 2, 4) && !RealRoute(c, 1, 4, 2, 2) && RealRoute(c, 1, 4, 2, 3)
      && TwoOver(ObserveRoute(t, 4, 2, 3, now), 2, 4)
  {
    TwoHops(c, 1, 2, 4);
    assert WalkTo(c, [1, 2, 3, 4], 1, 4, 2);
    ListedFourth(now);
  }

  lemma ListedFourth(now: int)
    ensures var t := HandleSnapshot(Tables(map[], map[], map[]), 1, [2], 2, [1, 2, 3, 4], now);
      TwoOver(t, 2, 4) && TwoOver(ObserveRoute(t, 4, 2, 3, now), 2, 4)
  {
    var t0 := Tables(map[], map[], map[]);
    var known := [1, 2, 3, 4];
    assert known[3] in known && Listed(t0, 1, [2], 2, known, now, 4);
    SnapshotAt(t0, 1, [2], 2, known, now, 4);
    DirectAt(t0, 2, now, 4);
    ListAt(ObserveRoute(t0, 2, 2, 1, now), 1, [2], 2, known, now, 4);
  }

  // ---- whole runs ----

  predicate Neighbours(c: Config, u: Node, v: Node) { u in c.links && v in c.links[u] }

  /** What an event says of routes is true wherever it would be believed. */
  ghost predicate Truthful(c: Config, net: Net, e: Event) {
    e.Arrives? || (e.at in net.tables && e.at in c.links ==>
      match e
      case Heard(at, from, p, _, now) => from in c.links[at] && RealRoute(c, at, p.sender, from, p.hops + 1)
      case Signalled(at, from, p, now) => from in c.links[at] && Neighbours(c, from, p.sender)
      case Told(at, from, known, now) =>
        from in c.links[at] && forall p <- known ::
          Listed(net.tables[at], at, c.links[at], from, known, now, p) ==> Neighbours(c, from, p)
      case Opened(at, peer, _) => peer in c.links[at]
      case Departed(_, _, _, _) => true)
  }

  ghost predicate AllTruthful(c: Config, net: Net, events: seq<Event>)
    decreases |events|
  {
    events == [] || (Truthful(c, net, events[0]) && AllTruthful(c, After(c, net, events[0]), events[1..]))
  }

  lemma LearnedTable(c: Config, v: Node, t: Tables, u: Tables, first: bool, peer: Node, via: Node, hops: int)
    requires TableReal(c, v, t) && LearnedOnly(t, u, first, peer, via, hops)
    requires first ==> RealRoute(c, v, peer, via, hops)
    ensures TableReal(c, v, u)
  {
  }

  function TableAt(c: Config, net: Net, i: nat, now: int): Tables
    requires i < |net.wires| && net.wires[i].to in net.tables && net.wires[i].to in c.links
  {
    var f := net.wires[i];
    Handle(net.tables[f.to], f.to, c.links[f.to], f.from, f.packet, now, c.replyId, c.maxPeers).tables
  }

  lemma DeliveredTables(c: Config, net: Net, i: nat, now: int)
    requires i < |net.wires| && net.wires[i].to in net.tables && net.wires[i].to in c.links
    ensures Deliver(c, net, i, now).tables == net.tables[net.wires[i].to := TableAt(c, net, i, now)]
  {
  }

  lemma ArrivalReal(c: Config, net: Net, i: nat, now: int)
    requires FlowInv(c, net) && i < |net.wires| && net.wires[i].to in net.tables && net.wires[i].to in c.links
    requires TableReal(c, net.wires[i].to, net.tables[net.wires[i].to]) && Within(c, now)
    ensures TableReal(c, net.wires[i].to, TableAt(c, net, i, now))
  {
    var f := net.wires[i];
    var t, first := net.tables[f.to], RememberPacket(net.tables[f.to], f.packet.id, now).0;
    HandledRoutes(t, f.to, c.links[f.to], f.from, f.packet, now, c.replyId, c.maxPeers);
    if first { LearnsWalks(c, net, i, now); }
    LearnedTable(c, f.to, t, TableAt(c, net, i, now), first, f.packet.sender, f.from, f.packet.hops + 1);
  }

  lemma ArriveReal(c: Config, net: Net, a: Arrival)
    requires FlowInv(c, net) && AllReal(c, net.tables) && Within(c, a.now)
    ensures AllReal(c, Arrive(c, net, a).tables)
  {
    if a.flight < |net.wires| && net.wires[a.flight].to in net.tables && net.wires[a.flight].to in c.links {
      RealTables(c, net.tables);
      ArrivalReal(c, net, a.flight, a.now);
      DeliveredTables(c, net, a.flight, a.now);
      OneTable(c, net.tables, net.wires[a.flight].to, TableAt(c, net, a.flight, a.now));
    }
  }

  lemma HeardReal(c: Config, t: Tables, at: Node, from: Node, p: Packet, replyId: Id, now: int)
    requires at in c.links && TableReal(c, at, t) && RealRoute(c, at, p.sender, from, p.hops + 1)
    ensures TableReal(c, at, Handle(t, at, c.links[at], from, p, now, replyId, c.maxPeers).tables)
  {
    var u := Handle(t, at, c.links[at], from, p, now, replyId, c.maxPeers).tables;
    HandledRoutes(t, at, c.links[at], from, p, now, replyId, c.maxPeers);
    LearnedTable(c, at, t, u, RememberPacket(t, p.id, now).0, p.sender, from, p.hops + 1);
  }

  lemma OpenedReal(c: Config, t: Tables, at: Node, peer: Node, now: int)
    requires at in c.links && TableReal(c, at, t) && peer in c.links[at]
    ensures TableReal(c, at, ObserveRoute(t, peer, peer, 1, now))
  {
    OneHop(c, at, peer);
    ObservedRealIff(c, at, t, peer, peer, 1, now);
  }

  lemma SignalledReal(c: Config, t: Tables, at: Node, from: Node, p: Packet, now: int)
    requires at in c.links && TableReal(c, at, t) && from in c.links[at] && Neighbours(c, from, p.sender)
    ensures TableReal(c, at, HandleSignal(t, at, c.links[at], from, p, now).tables)
  {
    RememberedReal(c, at, t, p.id, now);
    TwoHops(c, at, from, p.sender);
    ObservedRealIff(c, at, RememberPacket(t, p.id, now).1, p.sender, from, 2, now);
  }

  lemma EventReal(c: Config, net: Net, e: Event)
    requires Topology(c) && AllReal(c, net.tables) && Truthful(c, net, e)
    requires !e.Arrives? && e.at in net.tables && e.at in c.links
    ensures TableReal(c, e.at, TablesAfter(c, net.tables[e.at], e))
  {
    var t := net.tables[e.at];
    RealTables(c, net.tables);
    match e {
      case Heard(at, from, p, replyId, now) => HeardReal(c, t, at, from, p, replyId, now);
      case Signalled(at, from, p, now) => SignalledReal(c, t, at, from, p, now);
      case Told(at, from, known, now) => SnapshotTable(c, at, t, from, known, now);
      case Opened(at, peer, now) => OpenedReal(c, t, at, peer, now);
      case Departed(at, id, _, now) => RememberedReal(c, at, t, id, now);
    }
  }

  lemma AfterReal(c: Config, net: Net, e: Event)
    requires FlowInv(c, net) && AllReal(c, net.tables) && Fits(c, net, e) && Truthful(c, net, e)
    ensures AllReal(c, After(c, net, e).tables)
  {
    if e.Arrives? {
      ArriveReal(c, net, e.arrival);
    } else if e.at in net.tables && e.at in c.links {
      EventReal(c, net, e);
      OneTable(c, net.tables, e.at, TablesAfter(c, net.tables[e.at], e));
    }
  }

  lemma {:induction false} RunReal(c: Config, net: Net, events: seq<Event>)
    requires FlowInv(c, net) && AllReal(c, net.tables) && AllFit(c, net, events) && AllTruthful(c, net, events)
    ensures AllReal(c, RunAll(c, net, events).tables)
    decreases |events|
  {
    if events != [] {
      AfterReal(c, net, events[0]);
      AfterKeeps(c, net, events[0]);
      RunReal(c, After(c, net, events[0]), events[1..]);
    }
  }

  lemma LaunchReal(c: Config)
    requires WellStarted(c) && AllReal(c, c.before)
    ensures AllReal(c, Launch(c).tables)
  {
    var o := c.flood.sender;
    RealTables(c, c.before);
    RememberedReal(c, o, c.before[o], c.flood.id, c.start);
    OneTable(c, c.before, o, Launch(c).tables[o]);
  }

  /** If every hop count was the length of a real walk over its connection before the flood, all are, at every moment of
      the flood and of the reply, and whatever else is heard, as long as it is true. */
  lemma HopCountsStayReal(c: Config, events: seq<Event>)
    requires WellStarted(c) && AllReal(c, c.before)
    requires AllFit(c, Launch(c), events) && AllTruthful(c, Launch(c), events)
    ensures AllReal(c, RunAll(c, Launch(c), events).tables)
  {
    LaunchHolds(c);
    LaunchReal(c);
    RunReal(c, Launch(c), events);
  }
}
