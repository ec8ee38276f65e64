/** One flood among everything else that reaches the members: other packets, peer lists, link offers, new links. */
module FloodTraffic {
  import opened Wrappers
  import opened SignalingRouter
  import opened PacketHandlers
  import opened Flooding
  import opened FloodProofs
  import opened ReplyProofs
  import opened FloodTheorems
  import opened RouteWalks

  /** What a member handles besides the flood and its reply; `Heard` are announcements, requests and replies. */
  datatype Event =
    | Arrives(arrival: Arrival)
    | Heard(at: Node, from: Node, packet: Packet, replyId: Id, now: int)
    | Signalled(at: Node, from: Node, packet: Packet, now: int)
    | Told(at: Node, from: Node, known: seq<Node>, now: int)
    | Opened(at: Node, peer: Node, now: int)
    | Departed(at: Node, id: Id, peer: Node, now: int)

  function TablesAfter(c: Config, t: Tables, e: Event): Tables
    requires !e.Arrives? && e.at in c.links
  {
    match e
    case Heard(at, from, p, replyId, now) => Handle(t, at, c.links[at], from, p, now, replyId, c.maxPeers).tables
    case Signalled(at, from, p, now) => HandleSignal(t, at, c.links[at], from, p, now).tables
    case Told(at, from, known, now) => HandleSnapshot(t, at, c.links[at], from, known, now)
    case Opened(_, peer, now) => ObserveRoute(t, peer, peer, 1, now)
    case Departed(_, id, peer, now) => var n := RememberPacket(t, id, now).1; n.(routes := n.routes - {peer})
  }

  function After(c: Config, net: Net, e: Event): Net {
    if e.Arrives? then Arrive(c, net, e.arrival)
    else if e.at in net.tables && e.at in c.links then
      net.(tables := net.tables[e.at := TablesAfter(c, net.tables[e.at], e)])
    else net
  }

  predicate Foreign(c: Config, id: Id) { id != c.flood.id && id != c.replyId }

  /** Other packets have other identifiers, and the duplicate filter has room for them. */
  predicate Fits(c: Config, net: Net, e: Event) {
    match e
    case Arrives(arrival) => Within(c, arrival.now)
    case Heard(at, _, p, replyId, now) =>
      && Within(c, now) && Foreign(c, p.id) && Foreign(c, replyId) && p.request != c.flood.request && Room(net, at)
    case Signalled(at, _, p, now) => Within(c, now) && Foreign(c, p.id) && Room(net, at)
    case Told(_, _, _, now) => Within(c, now)
    case Opened(_, _, now) => Within(c, now)
    case Departed(at, id, _, now) => Within(c, now) && Foreign(c, id) && Room(net, at)
  }

  predicate Room(net: Net, at: Node) { at in net.tables ==> |net.tables[at].seen| + 4 <= MAX_REMEMBERED_PACKETS }

  function RunAll(c: Config, net: Net, events: seq<Event>): Net
    decreases |events|
  {
    if events == [] then net else RunAll(c, After(c, net, events[0]), events[1..])
  }

  predicate AllFit(c: Config, net: Net, events: seq<Event>)
    decreases |events|
  {
    events == [] || (Fits(c, net, events[0]) && AllFit(c, After(c, net, events[0]), events[1..]))
  }

  // ---- what is left of the invariant when routes come from elsewhere ----

  ghost predicate FlowInv(c: Config, net: Net) {
    FloodOk(c, net) && ReplyOk(c, net) && HopsOk(c, net)
  }

  /** The same flood among members that know routes already, about which nothing is promised. */
  function Informed(c: Config): Config {
    var r := Route(0, 1, 0);
    c.(before := map v | v in c.before :: c.before[v].(routes := map[c.flood.sender := r, c.flood.target := r]))
  }

  /** All but what the members knew before. */
  predicate SameFlood(c: Config, d: Config) {
    c.links == d.links && c.maxPeers == d.maxPeers && c.flood == d.flood && c.replyId == d.replyId && c.start == d.start
  }

  lemma SameTree(c: Config, d: Config, paths: map<Node, seq<Node>>)
    requires SameFlood(c, d) && TreeOk(c, paths)
    ensures TreeOk(d, paths)
  {
    forall v | v in paths ensures PathOk(d, paths, v) {
      assert PathOk(c, paths, v);
      assert forall k | 0 <= k < |paths[v]| - 1 :: !Sink(c, paths[v][k]) && !Sink(d, paths[v][k]);
    }
  }

  lemma SameWires(c: Config, d: Config, net: Net)
    requires SameFlood(c, d) && WiresOk(c, net)
    ensures WiresOk(d, net)
  {
    forall f | f in net.wires ensures f.to in d.links && FlightOk(d, net, f) { assert FlightOk(c, net, f); }
  }

  lemma SameCoverage(c: Config, d: Config, net: Net)
    requires SameFlood(c, d) && CoverageOk(c, net)
    ensures CoverageOk(d, net)
  {
    forall u | u in net.paths && !Sink(d, u)
      ensures u in d.links && forall v <- d.links[u] :: Covered(d, net, u, v)
    {
      assert !Sink(c, u);
      forall v | v in d.links[u] ensures Covered(d, net, u, v) { assert Covered(c, net, u, v); }
    }
  }

  lemma SameFilters(c: Config, d: Config, net: Net)
    requires SameFlood(c, d) && FiltersOk(c, net)
    ensures FiltersOk(d, net)
  {
    forall v | v in net.tables ensures SeenOk(d, net.tables[v].seen, v in net.paths, Replied(d, net, v)) {
      assert Replied(c, net, v) == Replied(d, net, v);
    }
  }

  lemma SameReply(c: Config, d: Config, net: Net)
    requires SameFlood(c, d) && ReplyOk(c, net)
    ensures ReplyOk(d, net)
  {
    if net.replyAt.Some? {
      var at := net.replyAt.value;
      assert ReplyOnItsWay(c, net, at);
      forall g | g in net.wires && g.packet.kind == Reply
        ensures (at >= 2 && g == ReplyFlight(d, net.paths[d.flood.target], at))
          || (g.packet.id == d.replyId && Replied(d, net, g.to))
      {
        assert Replied(c, net, g.to) == Replied(d, net, g.to);
      }
    }
  }

  lemma SameHops(c: Config, d: Config, net: Net)
    requires SameFlood(c, d) && HopsOk(c, net)
    ensures HopsOk(d, net)
  {
    if d.flood.kind == Request {
      forall v | v in net.tables && Later(d, net, v) ensures HopOk(d, net, v) {
        assert Later(c, net, v) && HopOk(c, net, v);
      }
    }
  }

  lemma SameFlow(c: Config, d: Config, net: Net)
    requires SameFlood(c, d) && WellStarted(d) && FlowInv(c, net)
    ensures FlowInv(d, net)
  {
    SameTree(c, d, net.paths);
    SameWires(c, d, net);
    SameCoverage(c, d, net);
    SameFilters(c, d, net);
    SameReply(c, d, net);
    SameHops(c, d, net);
  }

  lemma InformedStarts(c: Config)
    requires WellStarted(c)
    ensures WellStarted(Informed(c))
  {
    var d := Informed(c);
    forall v | v in d.before ensures SeenOk(d, d.before[v].seen, false, false) {
      assert SeenOk(c, c.before[v].seen, false, false);
    }
  }

  /** Nothing is promised about the routes of members that know them already. */
  lemma InformedRoutes(c: Config, net: Net)
    requires FlowInv(c, net)
    ensures RouteInv(Informed(c), net)
  {
    var d := Informed(c);
    InformedStarts(c);
    SameFlow(c, d, net);
    forall v | v in net.tables
      ensures SenderRouteOk(d, net, v) && (d.flood.kind == Request ==> TargetRouteOk(d, net, v))
    {
      assert v in d.before && c.flood.sender in d.before[v].routes && c.flood.target in d.before[v].routes;
    }
  }

  lemma SameDelivery(c: Config, d: Config, net: Net, i: nat, now: int)
    requires SameFlood(c, d) && i < |net.wires| && net.wires[i].to in net.tables && net.wires[i].to in c.links
    ensures Deliver(d, net, i, now) == Deliver(c, net, i, now)
  {
  }

  lemma FlowStep(c: Config, net: Net, i: nat, now: int)
    requires FlowInv(c, net) && i < |net.wires| && Within(c, now)
    ensures net.wires[i].to in net.tables && net.wires[i].to in c.links
    ensures FlowInv(c, Deliver(c, net, i, now))
  {
    var d := Informed(c);
    InformedRoutes(c, net);
    StepKeeps(d, net, i, now);
    SameDelivery(c, d, net, i, now);
    SameFlow(d, c, Deliver(d, net, i, now));
  }

  // ---- other events ----

  /** For the flood's two packets and its request, `u` is as `t`. */
  ghost predicate Quiet(c: Config, t: Tables, u: Tables) {
    && (forall a, b :: SeenOk(c, t.seen, a, b) ==> SeenOk(c, u.seen, a, b))
    && (forall via :: HasHop(c, t, c.flood.request, via) ==> HasHop(c, u, c.flood.request, via))
  }

  lemma QuietOn(c: Config, t: Tables, u: Tables, w: Tables)
    requires Quiet(c, t, u) && Quiet(c, u, w)
    ensures Quiet(c, t, w)
  {
  }

  lemma ExpireQuiet(c: Config, t: Tables, now: int)
    requires Within(c, now)
    ensures Quiet(c, t, Expire(t, now))
  {
    forall a, b | SeenOk(c, t.seen, a, b) ensures SeenOk(c, Expire(t, now).seen, a, b) { ExpireKeeps(c, t, a, b, now); }
  }

  lemma ObserveQuiet(c: Config, t: Tables, peer: Node, via: Node, hops: int, now: int)
    requires Within(c, now)
    ensures var u := ObserveRoute(t, peer, via, hops, now); Quiet(c, t, u) && |u.seen| <= |t.seen|
  {
    ExpireQuiet(c, t, now);
    FewerSeen(t, now);
  }

  lemma FewerSeen(t: Tables, now: int)
    ensures |Expire(t, now).seen| <= |t.seen|
  {
    SmallerSet(Expire(t, now).seen.Keys, t.seen.Keys);
    assert |Expire(t, now).seen| == |Expire(t, now).seen.Keys| && |t.seen| == |t.seen.Keys|;
  }

  /** Another packet takes one place in the filter. */
  lemma ForeignQuiet(c: Config, t: Tables, id: Id, now: int)
    requires Within(c, now) && Foreign(c, id) && |t.seen| + 3 <= MAX_REMEMBERED_PACKETS
    ensures Quiet(c, t, RememberPacket(t, id, now).1) && |RememberPacket(t, id, now).1.seen| <= |t.seen| + 1
  {
    var e, u := Expire(t, now), RememberPacket(t, id, now).1;
    ExpireQuiet(c, t, now);
    FewerSeen(t, now);
    OneMoreSeen(e.seen, id, now);
    forall a, b | SeenOk(c, e.seen, a, b) ensures SeenOk(c, u.seen, a, b) {
    }
  }

  lemma OneMoreSeen(seen: map<Id, int>, id: Id, now: int)
    ensures |seen[id := now]| <= |seen| + 1
  {
    var n := seen[id := now];
    SmallerSet(n.Keys, seen.Keys + {id});
    assert |n| == |n.Keys| && |seen| == |seen.Keys|;
  }

  lemma ReverseQuiet(c: Config, t: Tables, request: Id, via: Node, now: int)
    requires request != c.flood.request
    ensures Quiet(c, t, RememberReverse(t, request, via, now))
  {
  }

  lemma LearnedQuiet(c: Config, t: Tables, id: Id, peer: Node, via: Node, hops: int, now: int)
    requires Within(c, now) && Foreign(c, id) && |t.seen| + 3 <= MAX_REMEMBERED_PACKETS
    ensures var u := ObserveRoute(RememberPacket(t, id, now).1, peer, via, hops, now);
      Quiet(c, t, u) && |u.seen| <= |t.seen| + 1
  {
    var seen := RememberPacket(t, id, now).1;
    ForeignQuiet(c, t, id, now);
    ObserveQuiet(c, seen, peer, via, hops, now);
    QuietOn(c, t, seen, ObserveRoute(seen, peer, via, hops, now));
  }

  lemma AskedQuiet(c: Config, t: Tables, from: Node, p: Packet, now: int)
    requires Within(c, now) && Foreign(c, p.id) && p.request != c.flood.request
    requires |t.seen| + 4 <= MAX_REMEMBERED_PACKETS
    ensures var known := Asked(RememberPacket(t, p.id, now).1, from, p, now);
      Quiet(c, t, known) && |known.seen| <= |t.seen| + 1
  {
    var learned := ObserveRoute(RememberPacket(t, p.id, now).1, p.sender, from, p.hops + 1, now);
    LearnedQuiet(c, t, p.id, p.sender, from, p.hops + 1, now);
    ReverseQuiet(c, learned, p.request, from, now);
    QuietOn(c, t, learned, RememberReverse(learned, p.request, from, now));
  }

  lemma RequestQuiet(c: Config, t: Tables, me: Node, links: seq<Node>, from: Node, p: Packet, replyId: Id, now: int)
    requires Within(c, now) && Foreign(c, p.id) && Foreign(c, replyId) && p.request != c.flood.request
    requires |t.seen| + 4 <= MAX_REMEMBERED_PACKETS
    ensures Quiet(c, t, HandleRequest(t, me, links, from, p, now, replyId, c.maxPeers).tables)
  {
    var known := Asked(RememberPacket(t, p.id, now).1, from, p, now);
    ForeignQuiet(c, t, p.id, now);
    AskedQuiet(c, t, from, p, now);
    ForeignQuiet(c, known, replyId, now);
    QuietOn(c, t, known, RememberPacket(known, replyId, now).1);
    HandledRequest(t, me, links, from, p, now, replyId, c.maxPeers);
  }

  lemma HandledRequest(t: Tables, me: Node, links: seq<Node>, from: Node, p: Packet, now: int, replyId: Id,
                       maxPeers: nat)
    ensures var (first, seen) := RememberPacket(t, p.id, now); var known := Asked(seen, from, p, now);
      HandleRequest(t, me, links, from, p, now, replyId, maxPeers).tables
      == if !first then seen else if p.target == me then RememberPacket(known, replyId, now).1 else known
  {
  }

  lemma HeardQuiet(c: Config, t: Tables, me: Node, links: seq<Node>, from: Node, p: Packet, replyId: Id, now: int)
    requires Within(c, now) && Foreign(c, p.id) && Foreign(c, replyId) && p.request != c.flood.request
    requires |t.seen| + 4 <= MAX_REMEMBERED_PACKETS
    ensures Quiet(c, t, Handle(t, me, links, from, p, now, replyId, c.maxPeers).tables)
  {
    if p.kind == Request {
      RequestQuiet(c, t, me, links, from, p, replyId, now);
    } else {
      ForeignQuiet(c, t, p.id, now);
      LearnedQuiet(c, t, p.id, p.sender, from, p.hops + 1, now);
      HandledNoRequest(t, me, links, from, p, now, replyId, c.maxPeers);
    }
  }

  lemma HandledNoRequest(t: Tables, me: Node, links: seq<Node>, from: Node, p: Packet, now: int, replyId: Id,
                         maxPeers: nat)
    requires p.kind != Request
    ensures Handle(t, me, links, from, p, now, replyId, maxPeers).tables
      == if RememberPacket(t, p.id, now).0 then Learned(t, from, p, now) else RememberPacket(t, p.id, now).1
  {
  }

  lemma SignalQuiet(c: Config, t: Tables, me: Node, links: seq<Node>, from: Node, p: Packet, now: int)
    requires Within(c, now) && Foreign(c, p.id) && |t.seen| + 3 <= MAX_REMEMBERED_PACKETS
    ensures Quiet(c, t, HandleSignal(t, me, links, from, p, now).tables)
  {
    ForeignQuiet(c, t, p.id, now);
    LearnedQuiet(c, t, p.id, p.sender, from, 2, now);
  }

  lemma {:induction false} ListQuiet(c: Config, t: Tables, me: Node, links: seq<Node>, from: Node, known: seq<Node>,
                                     now: int)
    requires Within(c, now)
    ensures Quiet(c, t, ListHeard(t, me, links, from, known, now))
  {
    if known != [] {
      var k := |known| - 1;
      var before := ListHeard(t, me, links, from, known[..k], now);
      ListQuiet(c, t, me, links, from, known[..k], now);
      ObserveQuiet(c, before, known[k], from, 2, now);
      QuietOn(c, t, before, ObserveRoute(before, known[k], from, 2, now));
    }
  }

  lemma SnapshotQuiet(c: Config, t: Tables, me: Node, links: seq<Node>, from: Node, known: seq<Node>, now: int)
    requires Within(c, now)
    ensures Quiet(c, t, HandleSnapshot(t, me, links, from, known, now))
  {
    var direct := ObserveRoute(t, from, from, 1, now);
    ObserveQuiet(c, t, from, from, 1, now);
    ListQuiet(c, direct, me, links, from, known, now);
    QuietOn(c, t, direct, HandleSnapshot(t, me, links, from, known, now));
  }

  lemma DepartedQuiet(c: Config, t: Tables, id: Id, peer: Node, now: int)
    requires Within(c, now) && Foreign(c, id) && |t.seen| + 3 <= MAX_REMEMBERED_PACKETS
    ensures var n := RememberPacket(t, id, now).1; Quiet(c, t, n.(routes := n.routes - {peer}))
  {
    ForeignQuiet(c, t, id, now);
  }

  lemma EventQuiet(c: Config, net: Net, e: Event)
    requires !e.Arrives? && e.at in net.tables && e.at in c.links && Fits(c, net, e)
    ensures Quiet(c, net.tables[e.at], TablesAfter(c, net.tables[e.at], e))
  {
    var t := net.tables[e.at];
    match e {
      case Heard(at, from, p, replyId, now) => HeardQuiet(c, t, at, c.links[at], from, p, replyId, now);
      case Signalled(at, from, p, now) => SignalQuiet(c, t, at, c.links[at], from, p, now);
      case Told(at, from, known, now) => SnapshotQuiet(c, t, at, c.links[at], from, known, now);
      case Opened(_, peer, now) => ObserveQuiet(c, t, peer, peer, 1, now);
      case Departed(_, id, peer, now) => DepartedQuiet(c, t, id, peer, now);
    }
  }

  /** A change that is quiet at one member keeps the flood's invariant. */
  lemma QuietStep(c: Config, net: Net, n: Net, at: Node)
    requires FlowInv(c, net) && at in net.tables && at in n.tables && Quiet(c, net.tables[at], n.tables[at])
    requires n == net.(tables := net.tables[at := n.tables[at]])
    ensures FlowInv(c, n)
  {
    QuietFilters(c, net, n, at);
    QuietHops(c, net, n, at);
    QuietReply(c, net, n);
    QuietWires(c, net, n);
    Flows(c, n);
  }

  lemma Flows(c: Config, n: Net)
    requires WellStarted(c) && TreeOk(c, n.paths) && WiresOk(c, n) && CoverageOk(c, n) && FiltersOk(c, n)
    requires forall e <- n.sent :: e.0 in n.paths
    requires n.replyAt.Some? ==> c.flood.kind == Request && c.flood.target in n.paths
    requires ReplyOk(c, n) && HopsOk(c, n)
    ensures FlowInv(c, n)
  {
  }

  lemma QuietFilters(c: Config, net: Net, n: Net, at: Node)
    requires FiltersOk(c, net) && at in net.tables && at in n.tables && Quiet(c, net.tables[at], n.tables[at])
    requires n == net.(tables := net.tables[at := n.tables[at]])
    ensures FiltersOk(c, n)
  {
    forall v | v in n.tables ensures SeenOk(c, n.tables[v].seen, v in n.paths, Replied(c, n, v)) {
      assert Replied(c, n, v) == Replied(c, net, v);
      assert SeenOk(c, net.tables[v].seen, v in net.paths, Replied(c, net, v));
    }
  }

  lemma QuietHops(c: Config, net: Net, n: Net, at: Node)
    requires HopsOk(c, net) && at in net.tables && at in n.tables && Quiet(c, net.tables[at], n.tables[at])
    requires n == net.(tables := net.tables[at := n.tables[at]])
    ensures HopsOk(c, n)
  {
    if c.flood.kind == Request {
      forall v | v in n.tables && Later(c, n, v) ensures HopOk(c, n, v) {
        assert Later(c, net, v) && HopOk(c, net, v);
      }
    }
  }

  lemma QuietReply(c: Config, net: Net, n: Net)
    requires ReplyOk(c, net) && n == net.(tables := n.tables)
    ensures ReplyOk(c, n)
  {
    if net.replyAt.Some? {
      var at := net.replyAt.value;
      assert ReplyOnItsWay(c, net, at);
      assert forall v :: Replied(c, n, v) == Replied(c, net, v);
      assert ReplyOnItsWay(c, n, at);
    }
  }

  lemma QuietWires(c: Config, net: Net, n: Net)
    requires FloodOk(c, net) && n == net.(tables := n.tables)
    ensures WiresOk(c, n) && CoverageOk(c, n)
  {
    forall f | f in n.wires ensures f.to in c.links && FlightOk(c, n, f) { assert FlightOk(c, net, f); }
    forall u | u in n.paths && !Sink(c, u) ensures u in c.links && forall v <- c.links[u] :: Covered(c, n, u, v) {
      forall v | v in c.links[u] ensures Covered(c, n, u, v) { assert Covered(c, net, u, v); }
    }
  }

  lemma AfterKeeps(c: Config, net: Net, e: Event)
    requires FlowInv(c, net) && Fits(c, net, e)
    ensures FlowInv(c, After(c, net, e))
  {
    if e.Arrives? {
      var a := e.arrival;
      if a.flight < |net.wires| {
        FlowStep(c, net, a.flight, a.now);
        assert After(c, net, e) == Deliver(c, net, a.flight, a.now);
      }
    } else if e.at in net.tables && e.at in c.links {
      EventQuiet(c, net, e);
      QuietStep(c, net, After(c, net, e), e.at);
    }
  }

  lemma {:induction false} TrafficKeeps(c: Config, net: Net, events: seq<Event>)
    requires FlowInv(c, net) && AllFit(c, net, events)
    ensures FlowInv(c, RunAll(c, net, events))
    decreases |events|
  {
    if events != [] {
      AfterKeeps(c, net, events[0]);
      TrafficKeeps(c, After(c, net, events[0]), events[1..]);
    }
  }

  // ---- the theorems ----

  lemma RestIsCovered(c: Config, net: Net, v: Node)
    requires TreeOk(c, net.paths) && CoverageOk(c, net) && net.wires == []
    ensures v in net.paths <==> exists w :: Walk(c, w, v)
  {
    if v in net.paths {
      assert PathOk(c, net.paths, v);
      assert Walk(c, net.paths[v], v);
    }
    if exists w :: Walk(c, w, v) {
      var w :| Walk(c, w, v);
      WalkIsCovered(c, net, w, v);
    }
  }

  /** Whatever else goes on, a flood that has come to rest has reached exactly the members connected to its sender, and
      the reply to a request that reached its target is home. */
  lemma FloodAmidTraffic(c: Config, events: seq<Event>, v: Node)
    requires WellStarted(c) && AllFit(c, Launch(c), events) && RunAll(c, Launch(c), events).wires == []
    ensures var net := RunAll(c, Launch(c), events);
      && (v in net.paths <==> exists w :: Walk(c, w, v))
      && (c.flood.kind == Request && c.flood.target in net.paths ==> net.replyAt == Some(1))
  {
    var net := RunAll(c, Launch(c), events);
    LaunchHolds(c);
    TrafficKeeps(c, Launch(c), events);
    RestIsCovered(c, net, v);
    if c.flood.kind == Request && c.flood.target in net.paths { ReplyIsHome(c, net); }
  }

  /** And no directed connection carries it twice. */
  lemma OnceAmidTraffic(c: Config, events: seq<Event>, i: nat, now: int)
    requires WellStarted(c) && AllFit(c, Launch(c), events) && i < |RunAll(c, Launch(c), events).wires|
    requires Within(c, now)
    ensures var net := RunAll(c, Launch(c), events); var f := net.wires[i];
      && f.to in net.tables && f.to in c.links
      && net.sent <= Deliver(c, net, i, now).sent
      && var h := Handle(net.tables[f.to], f.to, c.links[f.to], f.from, f.packet, now, c.replyId, c.maxPeers);
         forall s <- h.sends :: s.packet.kind != Reply ==>
           (f.to, s.to) !in net.sent && (f.to, s.to) in Deliver(c, net, i, now).sent
  {
    var net := RunAll(c, Launch(c), events);
    LaunchHolds(c);
    TrafficKeeps(c, Launch(c), events);
    FlowStep(c, net, i, now);
    SentOnce(c, net, i, now);
  }

  lemma SentOnce(c: Config, net: Net, i: nat, now: int)
    requires FlowInv(c, net) && i < |net.wires| && Within(c, now)
    requires net.wires[i].to in net.tables && net.wires[i].to in c.links
    ensures var f := net.wires[i];
      var h := Handle(net.tables[f.to], f.to, c.links[f.to], f.from, f.packet, now, c.replyId, c.maxPeers);
      forall s <- h.sends :: s.packet.kind != Reply ==>
        (f.to, s.to) !in net.sent && (f.to, s.to) in Deliver(c, net, i, now).sent
    ensures net.sent <= Deliver(c, net, i, now).sent
  {
    var f := net.wires[i];
    assert f in net.wires && FlightOk(c, net, f);
    if f.packet.kind == Reply || f.to in net.paths {
      OthersSendNone(c, net, i, now);
    } else {
      FirstSendsOnce(c, net, i, now);
      FirstUnreplied(c, net, f, now);
    }
  }
}
