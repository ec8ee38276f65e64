/** What a flood guarantees over every delivery order. */
module FloodTheorems {
  import opened Wrappers
  import opened SignalingRouter
  import opened PacketHandlers
  import opened Flooding
  import opened FloodProofs
  import opened ReplyProofs

  // ---- one step ----

  lemma StepDuplicate(c: Config, net: Net, i: nat, now: int)
    requires RouteInv(c, net) && i < |net.wires| && Within(c, now)
    requires net.wires[i].packet.kind != Reply && net.wires[i].to in net.paths
    requires net.wires[i].to in net.tables && net.wires[i].to in c.links
    ensures RouteInv(c, Deliver(c, net, i, now))
  {
    DuplicateStep(c, net, i, now);
    var n := Deliver(c, net, i, now);
    ReplyShrinks(c, net, n, i);
    ExpiredMember(c, net, n, net.wires[i].to, now);
  }

  lemma StepFirst(c: Config, net: Net, i: nat, now: int)
    requires RouteInv(c, net) && i < |net.wires| && Within(c, now)
    requires net.wires[i].packet.kind != Reply && net.wires[i].to !in net.paths
    requires net.wires[i].to in net.tables && net.wires[i].to in c.links
    ensures RouteInv(c, Deliver(c, net, i, now))
  {
    GrowStep(c, net, i, now);
    var f, n := net.wires[i], Grown(c, net, i, now);
    var more := Flights(f.to, FirstSends(c, f.to, c.links[f.to], f));
    assert Follows(c, net, n, i, more);
    FirstReplyFlights(c, net, i);
    GrownReply(c, net, n, i, more);
    forall v ensures Replied(c, n, v) == if v == f.to then Sink(c, v) else Replied(c, net, v) {
      GrownReplied(c, net, n, i, more, v);
    }
    FirstMember(c, net, n, i, more, now);
  }

  lemma FirstReplyFlights(c: Config, net: Net, i: nat)
    requires WellStarted(c) && TreeOk(c, net.paths) && GrowsAt(c, net, i)
    ensures var f := net.wires[i];
      var more := Flights(f.to, FirstSends(c, f.to, c.links[f.to], f));
      if Sink(c, f.to) then
        0 < |net.paths[f.from]| && more == [ReplyFlight(c, net.paths[f.from] + [f.to], |net.paths[f.from]| + 1)]
      else forall g <- more :: g.packet.kind != Reply
  {
    var f := net.wires[i];
    if Sink(c, f.to) { TargetFlights(c, net, i); } else {
      RoomToForward(c, net, i);
      ForwardFlights(f.to, c.links[f.to], Forwarded(f.packet), f.from);
    }
  }

  lemma TargetFlights(c: Config, net: Net, i: nat)
    requires WellStarted(c) && TreeOk(c, net.paths) && GrowsAt(c, net, i) && Sink(c, net.wires[i].to)
    ensures var f := net.wires[i];
      0 < |net.paths[f.from]| && Flights(f.to, FirstSends(c, f.to, c.links[f.to], f))
        == [ReplyFlight(c, net.paths[f.from] + [f.to], |net.paths[f.from]| + 1)]
  {
    var f := net.wires[i];
    LastIsOwn(c, net.paths, f.from);
    OneFlight(f.to, Send(f.from, ReplyTo(f.to, f.packet, c.replyId, c.maxPeers)));
  }

  lemma OneFlight(from: Node, s: Send)
    ensures Flights(from, [s]) == [Flight(from, s.to, s.packet)]
  {
    assert [s][1..] == [];
  }

  lemma StaleReply(c: Config, net: Net, i: nat, now: int)
    requires RouteInv(c, net) && i < |net.wires| && Within(c, now)
    requires net.wires[i].packet.kind == Reply && net.wires[i].packet.id == c.replyId
    requires Replied(c, net, net.wires[i].to)
    requires net.wires[i].to in net.tables && net.wires[i].to in c.links
    ensures RouteInv(c, Deliver(c, net, i, now))
  {
    var f := net.wires[i];
    var t := net.tables[f.to];
    Duplicate(c, t, c.replyId, true, true, now);
    ExpireKeeps(c, t, true, true, now);
    var n := Deliver(c, net, i, now);
    assert n == net.(tables := net.tables[f.to := Expire(t, now)], wires := net.wires[..i] + net.wires[i + 1..] + []);
    Shrinks(c, net, i, Expire(t, now));
    ReplyShrinks(c, net, n, i);
    ExpiredMember(c, net, n, f.to, now);
  }

  lemma MovedWires(c: Config, net: Net, n: Net, i: nat, d: nat)
    requires BeforeOk(c, net, d) && WiresOk(c, net) && CoverageOk(c, net) && i < |net.wires|
    requires net.wires[i].packet.kind == Reply && n.paths == net.paths && n.sent == net.sent
    requires n.wires == net.wires[..i] + net.wires[i + 1..]
      + if d == 2 then [] else [ReplyFlight(c, net.paths[c.flood.target], d - 1)]
    ensures WiresOk(c, n) && CoverageOk(c, n)
  {
    var more := if d == 2 then [] else [ReplyFlight(c, net.paths[c.flood.target], d - 1)];
    CoverageShrinks(c, net, n, i, more);
    WiresShrink(c, net, n, i, more);
  }

  lemma MovedFloodKeeps(c: Config, net: Net, n: Net, i: nat, d: nat, now: int)
    requires BeforeOk(c, net, d) && i < |net.wires|
    requires WiresOk(c, net) && CoverageOk(c, net) && FiltersOk(c, net)
    requires net.wires[i] == ReplyFlight(c, net.paths[c.flood.target], d) && net.replyAt == Some(d)
    requires net.wires[i].to in net.tables && n == ReplyMoved(c, net, i, d, now)
    requires SeenOk(c, n.tables[net.wires[i].to].seen, true, true)
    ensures WiresOk(c, n) && CoverageOk(c, n) && FiltersOk(c, n)
  {
    MovedFilters(c, net, n, d);
    MovedWires(c, net, n, i, d);
  }

  lemma MovedReplyKeeps(c: Config, net: Net, n: Net, i: nat, d: nat, now: int)
    requires BeforeOk(c, net, d) && i < |net.wires| && ReplyOnItsWay(c, net, d)
    requires net.wires[i] == ReplyFlight(c, net.paths[c.flood.target], d) && net.replyAt == Some(d)
    requires net.wires[i].to in net.tables && n == ReplyMoved(c, net, i, d, now)
    ensures ReplyOk(c, n)
  {
    MovedWay(c, net, n, i, d);
    ReplyPlaced(c, n, d - 1);
  }

  lemma MovedTablesKeep(c: Config, net: Net, n: Net, i: nat, d: nat, now: int)
    requires BeforeOk(c, net, d) && i < |net.wires| && Within(c, now) && c.flood.target != c.flood.sender
    requires HopsOk(c, net) && RoutesOk(c, net)
    requires net.wires[i] == ReplyFlight(c, net.paths[c.flood.target], d) && net.replyAt == Some(d)
    requires net.wires[i].to in net.tables && n == ReplyMoved(c, net, i, d, now)
    ensures HopsOk(c, n) && RoutesOk(c, n)
  {
    assert OnlyAt(net, n, net.wires[i].to);
    MovedMember(c, net, n, d, now);
  }

  lemma ReplyPlaced(c: Config, n: Net, d: nat)
    requires n.replyAt == Some(d) && ReplyOnItsWay(c, n, d)
    ensures ReplyOk(c, n)
  {
  }

  lemma StepReply(c: Config, net: Net, i: nat, d: nat, now: int)
    requires RouteInv(c, net) && i < |net.wires| && Within(c, now)
    requires net.replyAt == Some(d) && BeforeOk(c, net, d)
    requires net.wires[i] == ReplyFlight(c, net.paths[c.flood.target], d)
    requires net.wires[i].to in net.tables && net.wires[i].to in c.links
    ensures RouteInv(c, Deliver(c, net, i, now))
  {
    ReplyDelivered(c, net, i, d, now);
    var n := ReplyMoved(c, net, i, d, now);
    MovedFloodKeeps(c, net, n, i, d, now);
    MovedReplyKeeps(c, net, n, i, d, now);
    MovedTablesKeep(c, net, n, i, d, now);
  }

  lemma StepKeeps(c: Config, net: Net, i: nat, now: int)
    requires RouteInv(c, net) && i < |net.wires| && Within(c, now)
    ensures net.wires[i].to in net.tables && net.wires[i].to in c.links
    ensures RouteInv(c, Deliver(c, net, i, now))
  {
    var f := net.wires[i];
    assert f in net.wires && f.to in c.links;
    if f.packet.kind != Reply {
      if f.to in net.paths { StepDuplicate(c, net, i, now); } else { StepFirst(c, net, i, now); }
    } else {
      var d := net.replyAt.value;
      assert ReplyOnItsWay(c, net, d);
      if Replied(c, net, f.to) && f.packet.id == c.replyId { StaleReply(c, net, i, now); } else {
        PathBefore(c, net, d);
        StepReply(c, net, i, d, now);
      }
    }
  }

  // ---- the start ----

  lemma LaunchFilters(c: Config)
    requires WellStarted(c)
    ensures FiltersOk(c, Launch(c))
  {
    RememberOne(c, c.before[c.flood.sender], c.flood.id, false, false, c.start);
  }

  lemma LaunchRoutes(c: Config)
    requires WellStarted(c)
    ensures RoutesOk(c, Launch(c))
  {
    var o := c.flood.sender;
    RememberKeepsEntries(c, c.before[o], c.flood.id, 0, o, 0, 0, c.start);
    RememberKeepsEntries(c, c.before[o], c.flood.id, 0, c.flood.target, 0, 0, c.start);
  }

  lemma LaunchFlights(c: Config)
    requires WellStarted(c)
    ensures forall g <- Launch(c).wires ::
      g == Flight(c.flood.sender, g.to, Copy(c, 0)) && g.to in c.links[c.flood.sender]
    ensures forall v <- c.links[c.flood.sender] :: Flight(c.flood.sender, v, Copy(c, 0)) in Launch(c).wires
  {
    var o := c.flood.sender;
    var sends := Broadcast(c.links[o], c.flood, None);
    BroadcastSends(c.links[o], c.flood, None);
    FlightsOf(o, sends);
    assert c.flood == Copy(c, 0);
    forall g | g in Launch(c).wires ensures g == Flight(o, g.to, Copy(c, 0)) && g.to in c.links[o] {
      assert Send(g.to, g.packet) in sends;
    }
    forall v | v in c.links[o] ensures Flight(o, v, Copy(c, 0)) in Launch(c).wires { assert Send(v, c.flood) in sends; }
  }

  lemma LaunchWires(c: Config)
    requires WellStarted(c)
    ensures WiresOk(c, Launch(c)) && forall g <- Launch(c).wires :: g.packet.kind != Reply
  {
    LaunchFlights(c);
    var n := Launch(c);
    forall g | g in n.wires ensures g.to in c.links && FlightOk(c, n, g) && g.packet.kind != Reply {
      assert g == Flight(c.flood.sender, g.to, Copy(c, 0));
    }
  }

  lemma LaunchCovers(c: Config)
    requires WellStarted(c)
    ensures CoverageOk(c, Launch(c))
  {
    var n, o := Launch(c), c.flood.sender;
    LaunchFlights(c);
    forall v | v in c.links[o] ensures Covered(c, n, o, v) { assert Flight(o, v, Copy(c, 0)) in n.wires; }
    assert n.paths.Keys == {o} && o in c.links;
  }

  lemma LaunchTree(c: Config)
    requires WellStarted(c)
    ensures TreeOk(c, Launch(c).paths) && HopsOk(c, Launch(c))
    ensures forall e <- Launch(c).sent :: e.0 in Launch(c).paths
  {
    assert PathOk(c, Launch(c).paths, c.flood.sender);
  }

  lemma LaunchHolds(c: Config)
    requires WellStarted(c)
    ensures RouteInv(c, Launch(c))
  {
    LaunchFilters(c);
    LaunchRoutes(c);
    LaunchWires(c);
    LaunchCovers(c);
    LaunchTree(c);
  }

  // ---- whole runs ----

  /** The `flight`-th copy on the wires arrives at time `now`. */
  datatype Arrival = Arrival(flight: nat, now: int)

  function Arrive(c: Config, net: Net, a: Arrival): Net {
    if a.flight < |net.wires| && net.wires[a.flight].to in net.tables && net.wires[a.flight].to in c.links
    then Deliver(c, net, a.flight, a.now) else net
  }

  function Run(c: Config, net: Net, arrivals: seq<Arrival>): Net
    decreases |arrivals|
  {
    if arrivals == [] then net else Run(c, Arrive(c, net, arrivals[0]), arrivals[1..])
  }

  lemma ArriveKeeps(c: Config, net: Net, a: Arrival)
    requires RouteInv(c, net) && Within(c, a.now)
    ensures RouteInv(c, Arrive(c, net, a))
  {
    if a.flight < |net.wires| {
      StepKeeps(c, net, a.flight, a.now);
      assert Arrive(c, net, a) == Deliver(c, net, a.flight, a.now);
    }
  }

  predicate Timely(c: Config, arrivals: seq<Arrival>) { forall a <- arrivals :: Within(c, a.now) }

  lemma {:induction false} RunKeeps(c: Config, net: Net, arrivals: seq<Arrival>)
    requires RouteInv(c, net) && Timely(c, arrivals)
    ensures RouteInv(c, Run(c, net, arrivals))
    decreases |arrivals|
  {
    if arrivals != [] {
      ArriveKeeps(c, net, arrivals[0]);
      RunKeeps(c, Arrive(c, net, arrivals[0]), arrivals[1..]);
    }
  }

  /** Any order of arrivals inside the route lifetime. */
  ghost predicate Reachable(c: Config, net: Net)
    requires WellStarted(c)
  {
    exists arrivals: seq<Arrival> :: Timely(c, arrivals) && net == Run(c, Launch(c), arrivals)
  }

  // ---- the theorems ----

  /** A walk along open connections in which no member but the last absorbs the packet. */
  predicate Walk(c: Config, w: seq<Node>, v: Node) {
    && 0 < |w| && w[0] == c.flood.sender && w[|w| - 1] == v
    && (forall k | 0 <= k < |w| - 1 :: w[k] in c.links && w[k + 1] in c.links[w[k]] && !Sink(c, w[k]))
  }

  lemma {:induction false} WalkIsCovered(c: Config, net: Net, w: seq<Node>, v: Node)
    requires TreeOk(c, net.paths) && CoverageOk(c, net) && net.wires == [] && Walk(c, w, v)
    ensures v in net.paths
  {
    if |w| > 1 {
      var n := |w| - 1;
      WalkShorter(c, w, v);
      WalkIsCovered(c, net, w[..n], w[n - 1]);
      LastStep(c, net, w[n - 1], v);
    }
  }

  lemma WalkShorter(c: Config, w: seq<Node>, v: Node)
    requires Walk(c, w, v) && |w| > 1
    ensures Walk(c, w[..|w| - 1], w[|w| - 2])
    ensures w[|w| - 2] in c.links && v in c.links[w[|w| - 2]] && !Sink(c, w[|w| - 2])
  {
  }

  lemma LastStep(c: Config, net: Net, u: Node, v: Node)
    requires CoverageOk(c, net) && net.wires == [] && u in net.paths && u in c.links && v in c.links[u] && !Sink(c, u)
    ensures v in net.paths
  {
    assert Covered(c, net, u, v);
  }

  /** When no copy is left in flight, exactly the members connected to the sender have the packet. */
  lemma FloodReachesAll(c: Config, net: Net, v: Node)
    requires WellStarted(c) && Reachable(c, net) && net.wires == []
    ensures v in net.paths <==> exists w :: Walk(c, w, v)
    ensures v in net.paths && v in net.tables ==> c.flood.id in net.tables[v].seen
  {
    ReachableHolds(c, net);
    if v in net.paths {
      assert PathOk(c, net.paths, v);
      assert Walk(c, net.paths[v], v);
    }
    if exists w :: Walk(c, w, v) {
      var w :| Walk(c, w, v);
      WalkIsCovered(c, net, w, v);
    }
  }

  lemma ReachableHolds(c: Config, net: Net)
    requires WellStarted(c) && Reachable(c, net)
    ensures RouteInv(c, net)
  {
    var arrivals :| Timely(c, arrivals) && net == Run(c, Launch(c), arrivals);
    LaunchHolds(c);
    RunKeeps(c, Launch(c), arrivals);
  }

  /** Any path of open connections to the target carries the request there. */
  predicate Path(c: Config, w: seq<Node>, v: Node) {
    && 0 < |w| && w[0] == c.flood.sender && w[|w| - 1] == v
    && (forall k | 0 <= k < |w| - 1 :: w[k] in c.links && w[k + 1] in c.links[w[k]])
  }

  /** A path to the target can be cut at its first visit to it. */
  lemma {:induction false} CutAtTarget(c: Config, w: seq<Node>, k: nat)
    requires Path(c, w, c.flood.target) && k < |w|
    requires forall j | 0 <= j < k :: w[j] != c.flood.target
    ensures exists u :: Walk(c, u, c.flood.target)
    decreases |w| - k
  {
    if w[k] == c.flood.target { assert Walk(c, w[..k + 1], c.flood.target); }
    else { CutAtTarget(c, w, k + 1); }
  }

  /** With nothing in flight the reply cannot still be on its way. */
  lemma ReplyIsHome(c: Config, net: Net)
    requires ReplyOk(c, net) && c.flood.kind == Request && c.flood.target in net.paths && net.wires == []
    ensures net.replyAt == Some(1)
  {
    assert ReplyOnItsWay(c, net, net.replyAt.value);
  }

  lemma RouteAlongPath(c: Config, net: Net, k: nat)
    requires TreeOk(c, net.paths) && RoutesOk(c, net) && c.flood.target in net.paths && net.replyAt == Some(1)
    requires net.tables.Keys == c.links.Keys == c.before.Keys && c.flood.kind == Request
    requires k < |net.paths[c.flood.target]| - 1
    ensures var path := net.paths[c.flood.target];
      && path[k] in c.before && path[k] in net.tables
      && (c.flood.target !in c.before[path[k]].routes ==>
            RouteIs(c, net.tables[path[k]], c.flood.target, path[k + 1], |path| - 1 - k))
  {
    var path := net.paths[c.flood.target];
    assert PathOk(c, net.paths, c.flood.target);
    assert |net.paths[path[k]]| == k + 1;
    assert TargetRouteOk(c, net, path[k]);
  }

  /** Route discovery: a connected target is found, its reply is back at the requester, and each
      member on the first-receipt path that knew no route has the path's own next hop and length. */
  lemma RouteIsFound(c: Config, net: Net, w: seq<Node>)
    requires WellStarted(c) && c.flood.kind == Request && Reachable(c, net) && net.wires == []
    requires Path(c, w, c.flood.target)
    ensures c.flood.target in net.paths && net.replyAt == Some(1)
    ensures var path := net.paths[c.flood.target];
      forall k {:trigger path[k]} | 0 <= k < |path| - 1 ::
        && path[k] in c.before && path[k] in net.tables
        && (c.flood.target !in c.before[path[k]].routes ==>
              RouteIs(c, net.tables[path[k]], c.flood.target, path[k + 1], |path| - 1 - k))
  {
    ReachableHolds(c, net);
    CutAtTarget(c, w, 0);
    var u :| Walk(c, u, c.flood.target);
    WalkIsCovered(c, net, u, c.flood.target);
    ReplyIsHome(c, net);
    var path := net.paths[c.flood.target];
    forall k {:trigger path[k]} | 0 <= k < |path| - 1
      ensures path[k] in c.before && path[k] in net.tables
        && (c.flood.target !in c.before[path[k]].routes ==>
              RouteIs(c, net.tables[path[k]], c.flood.target, path[k + 1], |path| - 1 - k))
    {
      RouteAlongPath(c, net, k);
    }
  }

  /** Whoever heard the flood, and knew no route to its sender, has one of the real length. */
  lemma HopsAreReal(c: Config, net: Net, v: Node)
    requires WellStarted(c) && Reachable(c, net)
    requires v in net.paths && v != c.flood.sender && v in c.before && c.flood.sender !in c.before[v].routes
    ensures var path := net.paths[v];
      && Walk(c, path, v) && Distinct(path) && 2 <= |path| <= c.maxPeers
      && v in net.tables && RouteIs(c, net.tables[v], c.flood.sender, path[|path| - 2], |path| - 1)
  {
    ReachableHolds(c, net);
    assert PathOk(c, net.paths, v);
    PathsAreSimple(c, net.paths, v);
    assert SenderRouteOk(c, net, v);
  }

  lemma ReplySendsReplies(t: Tables, me: Node, from: Node, p: Packet, now: int)
    requires p.kind == Reply
    ensures forall s <- HandleReply(t, me, from, p, now).sends :: s.packet.kind == Reply
  {
  }

  lemma FirstSendsOnce(c: Config, net: Net, i: nat, now: int)
    requires FloodOk(c, net) && i < |net.wires| && Within(c, now)
    requires net.wires[i].packet.kind != Reply && net.wires[i].to !in net.paths
    requires net.wires[i].to in net.tables && net.wires[i].to in c.links
    ensures forall s <- FirstSends(c, net.wires[i].to, c.links[net.wires[i].to], net.wires[i]) ::
      s.packet.kind != Reply ==>
      (net.wires[i].to, s.to) !in net.sent && (net.wires[i].to, s.to) in Deliver(c, net, i, now).sent
    ensures net.sent <= Deliver(c, net, i, now).sent
  {
    GrowStep(c, net, i, now);
    GrownSent(c, net, i, now);
  }

  lemma GrownSent(c: Config, net: Net, i: nat, now: int)
    requires GrowsAt(c, net, i) && net.wires[i].to in net.tables
    requires (forall e <- net.sent :: e.0 in net.paths) && net.wires[i].packet.kind != Reply
    ensures forall s <- FirstSends(c, net.wires[i].to, c.links[net.wires[i].to], net.wires[i]) ::
      s.packet.kind != Reply ==>
      (net.wires[i].to, s.to) !in net.sent && (net.wires[i].to, s.to) in Grown(c, net, i, now).sent
    ensures net.sent <= Grown(c, net, i, now).sent
  {
    var f := net.wires[i];
    var sends := FirstSends(c, f.to, c.links[f.to], f);
    forall s | s in sends ensures (f.to, s.to) in SetOf(f.to, sends) && (f.to, s.to) !in net.sent {
    }
  }

  /** Only a first receipt forwards the flood packet. */
  lemma OthersSendNone(c: Config, net: Net, i: nat, now: int)
    requires FloodOk(c, net) && i < |net.wires| && Within(c, now)
    requires net.wires[i].to in net.tables && net.wires[i].to in c.links && FlightOk(c, net, net.wires[i])
    requires net.wires[i].packet.kind == Reply || net.wires[i].to in net.paths
    ensures var f := net.wires[i];
      var h := Handle(net.tables[f.to], f.to, c.links[f.to], f.from, f.packet, now, c.replyId, c.maxPeers);
      forall s <- h.sends :: s.packet.kind == Reply
    ensures net.sent <= Deliver(c, net, i, now).sent
  {
    var f := net.wires[i];
    if f.packet.kind == Reply { ReplySendsReplies(net.tables[f.to], f.to, f.from, f.packet, now); }
    else { DuplicateHandled(c, net.tables[f.to], Replied(c, net, f.to), f, now); }
  }

  /** No directed connection carries the flood packet twice. */
  lemma EachLinkOnce(c: Config, net: Net, i: nat, now: int)
    requires WellStarted(c) && Reachable(c, net) && i < |net.wires| && Within(c, now)
    ensures net.wires[i].to in net.tables && net.wires[i].to in c.links
    ensures var f := net.wires[i];
      var h := Handle(net.tables[f.to], f.to, c.links[f.to], f.from, f.packet, now, c.replyId, c.maxPeers);
      forall s <- h.sends :: s.packet.kind != Reply ==>
        (f.to, s.to) !in net.sent && (f.to, s.to) in Deliver(c, net, i, now).sent
    ensures net.sent <= Deliver(c, net, i, now).sent
  {
    ReachableHolds(c, net);
    var f := net.wires[i];
    assert f in net.wires && f.to in c.links && FlightOk(c, net, f);
    if f.packet.kind == Reply || f.to in net.paths {
      OthersSendNone(c, net, i, now);
    } else {
      FirstSendsOnce(c, net, i, now);
      FirstUnreplied(c, net, f, now);
    }
  }

  lemma FirstUnreplied(c: Config, net: Net, f: Flight, now: int)
    requires FiltersOk(c, net) && f.to !in net.paths && f.to in net.tables && f.to in c.links
    requires Within(c, now) && c.flood.id != c.replyId
    requires f.packet.kind == c.flood.kind != Reply && f.packet.id == c.flood.id && f.packet.target == c.flood.target
    ensures Handle(net.tables[f.to], f.to, c.links[f.to], f.from, f.packet, now, c.replyId, c.maxPeers).sends
      == FirstSends(c, f.to, c.links[f.to], f)
  {
    assert !Replied(c, net, f.to);
    FirstHandled(c, net.tables[f.to], f, now);
  }
}
