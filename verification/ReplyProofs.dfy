/** The reply to a route request walks the requester's first-receipt path backwards. */
module ReplyProofs {
  import opened Wrappers
  import opened SignalingRouter
  import opened PacketHandlers
  import opened Flooding
  import opened FloodProofs

  /** The reply as the `d`-th member of the target's path hands it to the one before. */
  function ReplyFlight(c: Config, path: seq<Node>, d: nat): Flight
    requires 2 <= d <= |path|
  {
    Flight(path[d - 1], path[d - 2],
           Packet(Reply, c.replyId, c.flood.target, c.flood.sender, c.maxPeers - (|path| - d), c.flood.request,
                  |path| - d))
  }

  /** `d` members of the path, counted from the requester, are still to be passed. */
  ghost predicate ReplyOnItsWay(c: Config, net: Net, d: nat) {
    && c.flood.target in net.paths
    && var path := net.paths[c.flood.target];
       && 1 <= d <= |path|
       && (d >= 2 ==> ReplyFlight(c, path, d) in net.wires)
       && forall g <- net.wires :: g.packet.kind == Reply ==>
            (d >= 2 && g == ReplyFlight(c, path, d)) || (g.packet.id == c.replyId && Replied(c, net, g.to))
  }

  ghost predicate ReplyOk(c: Config, net: Net) {
    && (c.flood.kind == Request && c.flood.target in net.paths ==> net.replyAt.Some?)
    && match net.replyAt
       case None => forall g <- net.wires :: g.packet.kind != Reply
       case Some(d) => ReplyOnItsWay(c, net, d)
  }

  predicate Later(c: Config, net: Net, v: Node) { v in net.paths && 2 <= |net.paths[v]| }

  predicate HasHop(c: Config, t: Tables, request: Id, via: Node) {
    request in t.reverse && t.reverse[request].connection == via && t.reverse[request].updatedAt >= c.start
  }

  predicate HopOk(c: Config, net: Net, v: Node)
    requires v in net.tables && Later(c, net, v)
  {
    HasHop(c, net.tables[v], c.flood.request, net.paths[v][|net.paths[v]| - 2])
  }

  /** Every reverse hop is the member the request was first heard from. */
  ghost predicate HopsOk(c: Config, net: Net) {
    c.flood.kind == Request ==>
      forall v {:trigger Later(c, net, v)} | v in net.tables && Later(c, net, v) :: HopOk(c, net, v)
  }

  predicate RouteIs(c: Config, t: Tables, peer: Node, via: Node, hops: int) {
    peer in t.routes && t.routes[peer].connection == via && t.routes[peer].hops == hops
    && t.routes[peer].updatedAt >= c.start
  }

  /** Where no route to the sender was known, the learned one is the first-receipt path. */
  predicate SenderRouteOk(c: Config, net: Net, v: Node)
    requires v in net.tables && v in c.before
  {
    c.flood.sender !in c.before[v].routes ==>
      if Later(c, net, v) then
        RouteIs(c, net.tables[v], c.flood.sender, net.paths[v][|net.paths[v]| - 2], |net.paths[v]| - 1)
      else c.flood.sender !in net.tables[v].routes
  }

  /** Likewise for the target, along the part of the path the reply has walked. */
  predicate TargetRouteOk(c: Config, net: Net, v: Node)
    requires v in net.tables && v in c.before
  {
    c.flood.target !in c.before[v].routes ==>
      if Replied(c, net, v) && |net.paths[v]| < |net.paths[c.flood.target]| then
        var path := net.paths[c.flood.target];
        RouteIs(c, net.tables[v], c.flood.target, path[|net.paths[v]|], |path| - |net.paths[v]|)
      else c.flood.target !in net.tables[v].routes
  }

  ghost predicate RoutesOk(c: Config, net: Net) {
    && net.tables.Keys == c.before.Keys
    && forall v {:trigger net.tables[v]} | v in net.tables ::
         SenderRouteOk(c, net, v) && (c.flood.kind == Request ==> TargetRouteOk(c, net, v))
  }

  ghost predicate RouteInv(c: Config, net: Net) {
    FloodOk(c, net) && ReplyOk(c, net) && HopsOk(c, net) && RoutesOk(c, net)
  }

  // ---- tables over time ----

  lemma ExpireKeepsEntries(c: Config, t: Tables, request: Id, peer: Node, via: Node, hops: int, now: int)
    requires Within(c, now)
    ensures HasHop(c, t, request, via) ==> HasHop(c, Expire(t, now), request, via)
    ensures RouteIs(c, t, peer, via, hops) ==> RouteIs(c, Expire(t, now), peer, via, hops)
    ensures peer !in t.routes ==> peer !in Expire(t, now).routes
  {
  }

  lemma RememberKeepsEntries(c: Config, t: Tables, id: Id, request: Id, peer: Node, via: Node, hops: int, now: int)
    requires Within(c, now)
    ensures var u := RememberPacket(t, id, now).1;
      && (HasHop(c, t, request, via) ==> HasHop(c, u, request, via))
      && (RouteIs(c, t, peer, via, hops) ==> RouteIs(c, u, peer, via, hops))
      && (peer !in t.routes ==> peer !in u.routes)
  {
    ExpireKeepsEntries(c, t, request, peer, via, hops, now);
  }

  /** A first receipt keeps what is fresh and learns a route to a sender none was known to. */
  lemma LearnedEntries(c: Config, t: Tables, from: Node, p: Packet, request: Id, peer: Node, via: Node, hops: int,
                       now: int)
    requires Within(c, now) && p.hops >= 0
    ensures var u := Learned(t, from, p, now);
      && (HasHop(c, t, request, via) ==> HasHop(c, u, request, via))
      && (peer != p.sender && RouteIs(c, t, peer, via, hops) ==> RouteIs(c, u, peer, via, hops))
      && (peer != p.sender && peer !in t.routes ==> peer !in u.routes)
      && (p.sender !in t.routes ==> RouteIs(c, u, p.sender, from, p.hops + 1))
  {
    RememberKeepsEntries(c, t, p.id, request, peer, via, hops, now);
    RememberKeepsEntries(c, t, p.id, request, p.sender, via, hops, now);
    ExpireKeepsEntries(c, RememberPacket(t, p.id, now).1, request, peer, via, hops, now);
    ExpireKeepsEntries(c, RememberPacket(t, p.id, now).1, request, p.sender, via, hops, now);
  }

  // ---- the reply's own step ----

  /** The path to the target, seen from the member just before its `d`-th one. */
  ghost predicate BeforeOk(c: Config, net: Net, d: nat) {
    && c.flood.target in net.paths && 2 <= d <= |net.paths[c.flood.target]| <= c.maxPeers
    && c.flood.kind == Request && c.flood.id != c.replyId
    && var path := net.paths[c.flood.target]; var w := path[d - 2];
       && w in net.paths && w in c.links && |net.paths[w]| == d - 1
       && w != c.flood.target && (w == c.flood.sender <==> d == 2)
       && (d > 2 ==> path[d - 3] != path[d - 1] && path[d - 3] in c.links && net.paths[w][d - 3] == path[d - 3])
  }

  lemma PathBefore(c: Config, net: Net, d: nat)
    requires WellStarted(c) && c.flood.kind == Request && TreeOk(c, net.paths) && c.flood.target in net.paths
    requires 2 <= d <= |net.paths[c.flood.target]|
    ensures BeforeOk(c, net, d)
  {
    var path := net.paths[c.flood.target];
    var w := path[d - 2];
    assert PathOk(c, net.paths, c.flood.target);
    assert net.paths[w] == path[..d - 1];
    assert PathOk(c, net.paths, w);
    PathsAreSimple(c, net.paths, c.flood.target);
    if d > 2 { assert PathOk(c, net.paths, path[d - 3]); }
  }

  /** A member that remembers where the request came from passes the reply on. */
  lemma PassOn(c: Config, t: Tables, w: Node, from: Node, p: Packet, hop: Node, now: int)
    requires SeenOk(c, t.seen, true, false) && Within(c, now) && c.flood.id != c.replyId
    requires p.id == c.replyId && p.hops >= 0 && p.target != w && p.ttl > 1 && hop != from
    requires HasHop(c, t, p.request, hop)
    ensures RememberPacket(t, p.id, now).0
    ensures HandleReply(t, w, from, p, now) == Handled(Learned(t, from, p, now), [Send(hop, Forwarded(p))])
  {
    RememberOne(c, t, c.replyId, true, false, now);
    LearnedEntries(c, t, from, p, p.request, p.sender, hop, 0, now);
  }

  /** The tables of the member a reply reaches, and what it sends on. */
  lemma ReplyHandled(c: Config, net: Net, t: Tables, d: nat, now: int)
    requires BeforeOk(c, net, d) && Within(c, now) && SeenOk(c, t.seen, true, false)
    requires d > 2 ==> HasHop(c, t, c.flood.request, net.paths[c.flood.target][d - 3])
    ensures RememberPacket(t, c.replyId, now).0
    ensures var path := net.paths[c.flood.target]; var w, g := path[d - 2], ReplyFlight(c, path, d);
      HandleReply(t, w, g.from, g.packet, now)
        == Handled(Learned(t, g.from, g.packet, now),
                   if d == 2 then [] else [Send(path[d - 3], ReplyFlight(c, path, d - 1).packet)])
  {
    var path := net.paths[c.flood.target];
    var w, g := path[d - 2], ReplyFlight(c, path, d);
    if d > 2 {
      PassOn(c, t, w, g.from, g.packet, path[d - 3], now);
      assert Forwarded(g.packet) == ReplyFlight(c, path, d - 1).packet;
    } else {
      RememberOne(c, t, c.replyId, true, false, now);
    }
  }

  /** The network after the reply has passed one more member. */
  function ReplyMoved(c: Config, net: Net, i: nat, d: nat, now: int): Net
    requires i < |net.wires| && c.flood.target in net.paths && 2 <= d <= |net.paths[c.flood.target]|
    requires net.paths[c.flood.target][d - 2] in net.tables
  {
    var path := net.paths[c.flood.target];
    var w, g := path[d - 2], ReplyFlight(c, path, d);
    net.(tables := net.tables[w := Learned(net.tables[w], g.from, g.packet, now)],
         wires := net.wires[..i] + net.wires[i + 1..] + if d == 2 then [] else [ReplyFlight(c, path, d - 1)],
         replyAt := Some(d - 1))
  }

  lemma ReplyLearned(c: Config, t: Tables, from: Node, p: Packet, now: int)
    requires SeenOk(c, t.seen, true, false) && Within(c, now) && c.flood.id != c.replyId && p.id == c.replyId
    ensures SeenOk(c, Learned(t, from, p, now).seen, true, true)
  {
    RememberOne(c, t, c.replyId, true, false, now);
    ObserveKeeps(c, RememberPacket(t, p.id, now).1, true, true, p.sender, from, p.hops + 1, now);
  }

  lemma ReplyDelivered(c: Config, net: Net, i: nat, d: nat, now: int)
    requires BeforeOk(c, net, d) && FiltersOk(c, net) && HopsOk(c, net)
    requires net.replyAt == Some(d) && Within(c, now)
    requires i < |net.wires| && net.wires[i] == ReplyFlight(c, net.paths[c.flood.target], d)
    ensures net.wires[i].to in net.tables && net.wires[i].to in c.links
    ensures Deliver(c, net, i, now) == ReplyMoved(c, net, i, d, now)
    ensures SeenOk(c, ReplyMoved(c, net, i, d, now).tables[net.wires[i].to].seen, true, true)
  {
    var path := net.paths[c.flood.target];
    var g := net.wires[i];
    var t := net.tables[g.to];
    assert SeenOk(c, t.seen, true, false);
    if d > 2 { assert Later(c, net, g.to) && HopOk(c, net, g.to); }
    ReplyHandled(c, net, t, d, now);
    ReplyLearned(c, t, g.from, g.packet, now);
    var sends := if d == 2 then [] else [Send(path[d - 3], ReplyFlight(c, path, d - 1).packet)];
    assert Flights(g.to, sends) == if d == 2 then [] else [ReplyFlight(c, path, d - 1)];
  }

  lemma MovedReplied(c: Config, net: Net, n: Net, d: nat, v: Node)
    requires BeforeOk(c, net, d) && n.paths == net.paths
    requires net.replyAt == Some(d) && n.replyAt == Some(d - 1)
    ensures Replied(c, n, v) == (Replied(c, net, v) || v == net.paths[c.flood.target][d - 2])
  {
  }

  lemma MovedFilters(c: Config, net: Net, n: Net, d: nat)
    requires BeforeOk(c, net, d) && FiltersOk(c, net) && n.paths == net.paths
    requires net.replyAt == Some(d) && n.replyAt == Some(d - 1)
    requires var w := net.paths[c.flood.target][d - 2];
      w in n.tables && n.tables == net.tables[w := n.tables[w]] && SeenOk(c, n.tables[w].seen, true, true)
    ensures FiltersOk(c, n)
  {
    var w := net.paths[c.flood.target][d - 2];
    forall v | v in n.tables ensures SeenOk(c, n.tables[v].seen, v in n.paths, Replied(c, n, v)) {
      MovedReplied(c, net, n, d, v);
      if v != w { assert n.tables[v] == net.tables[v]; }
    }
  }

  lemma MovedWay(c: Config, net: Net, n: Net, i: nat, d: nat)
    requires BeforeOk(c, net, d) && ReplyOnItsWay(c, net, d) && n.paths == net.paths
    requires net.replyAt == Some(d) && n.replyAt == Some(d - 1)
    requires i < |net.wires| && net.wires[i] == ReplyFlight(c, net.paths[c.flood.target], d)
    requires n.wires == net.wires[..i] + net.wires[i + 1..]
      + if d == 2 then [] else [ReplyFlight(c, net.paths[c.flood.target], d - 1)]
    ensures ReplyOnItsWay(c, n, d - 1)
  {
    var path := net.paths[c.flood.target];
    var more := if d == 2 then [] else [ReplyFlight(c, path, d - 1)];
    Taken(net.wires, i, more);
    if d > 2 { assert ReplyFlight(c, path, d - 1) in more; }
    forall g | g in n.wires && g.packet.kind == Reply
      ensures (d - 1 >= 2 && g == ReplyFlight(c, path, d - 1)) || (g.packet.id == c.replyId && Replied(c, n, g.to))
    {
      MovedReplied(c, net, n, d, g.to);
    }
  }

  // ---- what the other steps leave of the reply ----

  lemma WayShrinks(c: Config, net: Net, n: Net, i: nat, d: nat)
    requires ReplyOnItsWay(c, net, d) && n.paths == net.paths && n.replyAt == net.replyAt == Some(d)
    requires i < |net.wires| && n.wires == net.wires[..i] + net.wires[i + 1..] + []
    requires net.wires[i].packet.kind != Reply || Replied(c, net, net.wires[i].to)
    requires d >= 2 ==> BeforeOk(c, net, d)
    ensures ReplyOnItsWay(c, n, d)
  {
    Taken(net.wires, i, []);
    assert forall v :: Replied(c, n, v) == Replied(c, net, v);
  }

  lemma ReplyShrinks(c: Config, net: Net, n: Net, i: nat)
    requires ReplyOk(c, net) && n.paths == net.paths && n.replyAt == net.replyAt
    requires i < |net.wires| && n.wires == net.wires[..i] + net.wires[i + 1..] + []
    requires net.wires[i].packet.kind != Reply || Replied(c, net, net.wires[i].to)
    requires WellStarted(c) && TreeOk(c, net.paths)
    requires net.replyAt.Some? ==> c.flood.kind == Request
    ensures ReplyOk(c, n)
  {
    Taken(net.wires, i, []);
    if net.replyAt.Some? && net.replyAt.value >= 2 { PathBefore(c, net, net.replyAt.value); }
    if net.replyAt.Some? { WayShrinks(c, net, n, i, net.replyAt.value); }
  }

  lemma GrownReply(c: Config, net: Net, n: Net, i: nat, more: seq<Flight>)
    requires WellStarted(c) && Follows(c, net, n, i, more) && TreeOk(c, net.paths) && TreeOk(c, n.paths)
    requires net.replyAt.Some? ==> c.flood.kind == Request && c.flood.target in net.paths
    requires n.replyAt == if Sink(c, net.wires[i].to) then Some(|n.paths[net.wires[i].to]|) else net.replyAt
    requires ReplyOk(c, net)
    requires var f := net.wires[i];
      if Sink(c, f.to) then more == [ReplyFlight(c, net.paths[f.from] + [f.to], |net.paths[f.from]| + 1)]
      else forall g <- more :: g.packet.kind != Reply
    ensures ReplyOk(c, n)
  {
    var f := net.wires[i];
    Taken(net.wires, i, more);
    if Sink(c, f.to) {
      assert net.replyAt.None?;
      assert ReplyFlight(c, n.paths[f.to], |n.paths[f.to]|) in more;
    } else if net.replyAt.Some? {
      var d := net.replyAt.value;
      if d >= 2 { PathBefore(c, net, d); }
      forall g | g in n.wires && g.packet.kind == Reply
        ensures (d >= 2 && g == ReplyFlight(c, n.paths[c.flood.target], d))
          || (g.packet.id == c.replyId && Replied(c, n, g.to))
      {
        GrownReplied(c, net, n, i, more, g.to);
      }
    }
  }

  // ---- reverse hops and routes, one member at a time ----

  ghost predicate OnlyAt(net: Net, n: Net, to: Node) {
    && to in net.tables && to in n.tables && n.tables == net.tables[to := n.tables[to]]
    && forall v | v != to :: (v in n.paths <==> v in net.paths) && (v in net.paths ==> n.paths[v] == net.paths[v])
  }

  lemma HopsStep(c: Config, net: Net, n: Net, to: Node)
    requires HopsOk(c, net) && OnlyAt(net, n, to)
    requires c.flood.kind == Request && Later(c, n, to) ==> HopOk(c, n, to)
    ensures HopsOk(c, n)
  {
    if c.flood.kind == Request {
      forall v | v in n.tables && Later(c, n, v) ensures HopOk(c, n, v) {
        if v != to { assert Later(c, net, v); }
      }
    }
  }

  lemma RoutesStep(c: Config, net: Net, n: Net, to: Node)
    requires RoutesOk(c, net) && OnlyAt(net, n, to)
    requires forall v | v != to :: Replied(c, n, v) == Replied(c, net, v)
    requires to != c.flood.target || c.flood.target !in net.paths || n.paths == net.paths
    requires SenderRouteOk(c, n, to) && (c.flood.kind == Request ==> TargetRouteOk(c, n, to))
    ensures RoutesOk(c, n)
  {
    forall v | v in n.tables
      ensures SenderRouteOk(c, n, v) && (c.flood.kind == Request ==> TargetRouteOk(c, n, v))
    {
      if v != to {
        assert n.tables[v] == net.tables[v];
        assert Later(c, n, v) == Later(c, net, v);
        assert SenderRouteOk(c, net, v);
      }
    }
  }

  /** Expiry inside the window disturbs none of this. */
  lemma ExpiredMember(c: Config, net: Net, n: Net, to: Node, now: int)
    requires HopsOk(c, net) && RoutesOk(c, net) && OnlyAt(net, n, to) && Within(c, now)
    requires n.tables[to] == Expire(net.tables[to], now)
    requires n.paths == net.paths && n.replyAt == net.replyAt
    ensures HopsOk(c, n) && RoutesOk(c, n)
  {
    assert forall v :: Replied(c, n, v) == Replied(c, net, v);
    assert SenderRouteOk(c, net, to);
    SameMember(c, net, n, to, now);
    HopsStep(c, net, n, to);
    RoutesStep(c, net, n, to);
  }

  lemma SameMember(c: Config, net: Net, n: Net, to: Node, now: int)
    requires Within(c, now) && to in net.tables && to in n.tables && to in c.before
    requires n.tables[to] == Expire(net.tables[to], now) && n.paths == net.paths && n.replyAt == net.replyAt
    ensures SenderRouteOk(c, net, to) ==> SenderRouteOk(c, n, to)
    ensures TargetRouteOk(c, net, to) ==> TargetRouteOk(c, n, to)
    ensures Later(c, net, to) && HopOk(c, net, to) ==> HopOk(c, n, to)
  {
  }

  /** A first receipt records the neighbour it came through. */
  lemma FirstMember(c: Config, net: Net, n: Net, i: nat, more: seq<Flight>, now: int)
    requires WellStarted(c) && HopsOk(c, net) && RoutesOk(c, net) && Within(c, now)
    requires Follows(c, net, n, i, more) && TreeOk(c, net.paths)
    requires OnlyAt(net, n, net.wires[i].to)
    requires var f := net.wires[i]; n.tables[f.to] == FirstTables(c, net.tables[f.to], f.to, f, now)
    requires forall v :: Replied(c, n, v) == if v == net.wires[i].to then Sink(c, v) else Replied(c, net, v)
    ensures HopsOk(c, n) && RoutesOk(c, n)
  {
    var f := net.wires[i];
    KnownAt(c, net, f.to);
    LastIsOwn(c, net.paths, f.from);
    FirstLocal(c, net, n, f, net.paths[f.from], now);
    OneMember(c, net, n, f.to);
  }

  lemma KnownAt(c: Config, net: Net, v: Node)
    requires RoutesOk(c, net) && v in net.tables
    ensures v in c.before && SenderRouteOk(c, net, v) && (c.flood.kind == Request ==> TargetRouteOk(c, net, v))
  {
    assert v in net.tables.Keys;
  }

  lemma OneMember(c: Config, net: Net, n: Net, to: Node)
    requires HopsOk(c, net) && RoutesOk(c, net) && OnlyAt(net, n, to) && to in c.before && to !in net.paths
    requires forall v | v != to :: Replied(c, n, v) == Replied(c, net, v)
    requires SenderRouteOk(c, n, to)
    requires c.flood.kind == Request ==> TargetRouteOk(c, n, to) && (Later(c, n, to) ==> HopOk(c, n, to))
    ensures HopsOk(c, n) && RoutesOk(c, n)
  {
    HopsStep(c, net, n, to);
    RoutesStep(c, net, n, to);
  }

  lemma LastIsOwn(c: Config, paths: map<Node, seq<Node>>, v: Node)
    requires TreeOk(c, paths) && v in paths
    ensures paths[v] != [] && paths[v][|paths[v]| - 1] == v
  {
    assert PathOk(c, paths, v);
  }

  lemma FirstLocal(c: Config, net: Net, n: Net, f: Flight, path: seq<Node>, now: int)
    requires WellStarted(c) && Within(c, now)
    requires path != [] && path[|path| - 1] == f.from && f.packet == Copy(c, |path| - 1)
    requires f.to !in net.paths && f.to in n.paths && n.paths[f.to] == path + [f.to]
    requires f.to in net.tables && f.to in n.tables && f.to in c.before
    requires SenderRouteOk(c, net, f.to) && (c.flood.kind == Request ==> TargetRouteOk(c, net, f.to))
    requires n.tables[f.to] == FirstTables(c, net.tables[f.to], f.to, f, now)
    requires Replied(c, n, f.to) == Sink(c, f.to)
    ensures SenderRouteOk(c, n, f.to)
    ensures c.flood.kind == Request ==> TargetRouteOk(c, n, f.to) && (Later(c, n, f.to) ==> HopOk(c, n, f.to))
  {
    var p := n.paths[f.to];
    assert |p| == |path| + 1 && p[|p| - 2] == f.from;
    FirstEntries(c, net.tables[f.to], f, |path|, now);
    assert !Later(c, net, f.to) && !Replied(c, net, f.to);
  }

  lemma FirstEntries(c: Config, t: Tables, f: Flight, depth: nat, now: int)
    requires Within(c, now) && WellStarted(c) && depth > 0
    requires f.packet == Copy(c, depth - 1)
    ensures var u := FirstTables(c, t, f.to, f, now);
      && (c.flood.sender !in t.routes ==> RouteIs(c, u, c.flood.sender, f.from, depth))
      && (c.flood.target !in t.routes ==> c.flood.target !in u.routes)
      && (c.flood.kind == Request ==> HasHop(c, u, c.flood.request, f.from))
  {
    LearnedEntries(c, t, f.from, f.packet, c.flood.request, c.flood.target, f.from, depth, now);
    var b := RememberReverse(Learned(t, f.from, f.packet, now), f.packet.request, f.from, now);
    RememberKeepsEntries(c, b, c.replyId, c.flood.request, c.flood.sender, f.from, depth, now);
    RememberKeepsEntries(c, b, c.replyId, c.flood.request, c.flood.target, f.from, depth, now);
  }

  /** The reply records the neighbour it came through, and keeps what the request recorded. */
  lemma MovedMember(c: Config, net: Net, n: Net, d: nat, now: int)
    requires BeforeOk(c, net, d) && Within(c, now) && c.flood.target != c.flood.sender
    requires HopsOk(c, net) && RoutesOk(c, net) && net.replyAt == Some(d) && n.replyAt == Some(d - 1)
    requires n.paths == net.paths
    requires var path := net.paths[c.flood.target]; var w, g := path[d - 2], ReplyFlight(c, path, d);
      OnlyAt(net, n, w) && n.tables[w] == Learned(net.tables[w], g.from, g.packet, now)
    ensures HopsOk(c, n) && RoutesOk(c, n)
  {
    var w := net.paths[c.flood.target][d - 2];
    assert w in c.before && SenderRouteOk(c, net, w);
    forall v ensures Replied(c, n, v) == (Replied(c, net, v) || v == w) { MovedReplied(c, net, n, d, v); }
    assert Later(c, net, w) ==> HopOk(c, net, w);
    MovedEntries(c, net, n, d, now);
    HopsStep(c, net, n, w);
    RoutesStep(c, net, n, w);
  }

  lemma MovedEntries(c: Config, net: Net, n: Net, d: nat, now: int)
    requires c.flood.kind == Request && Within(c, now) && c.flood.target != c.flood.sender
    requires c.flood.target in net.paths && 2 <= d <= |net.paths[c.flood.target]| && n.paths == net.paths
    requires var path := net.paths[c.flood.target]; var w, g := path[d - 2], ReplyFlight(c, path, d);
      && w in net.tables && w in n.tables && w in c.before && w in net.paths && |net.paths[w]| == d - 1
      && n.tables[w] == Learned(net.tables[w], g.from, g.packet, now)
      && SenderRouteOk(c, net, w) && TargetRouteOk(c, net, w) && (Later(c, net, w) ==> HopOk(c, net, w))
      && !Replied(c, net, w) && Replied(c, n, w)
    ensures var w := net.paths[c.flood.target][d - 2];
      SenderRouteOk(c, n, w) && TargetRouteOk(c, n, w) && (Later(c, n, w) ==> HopOk(c, n, w))
  {
    var path := net.paths[c.flood.target];
    var w, g := path[d - 2], ReplyFlight(c, path, d);
    var via := if d > 2 then net.paths[w][d - 3] else 0;
    LearnedEntries(c, net.tables[w], g.from, g.packet, c.flood.request, c.flood.sender, via, d - 2, now);
  }
}
