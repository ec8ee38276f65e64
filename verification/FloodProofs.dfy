/** Every delivery keeps the flood's invariant. */
module FloodProofs {
  import opened Wrappers
  import opened SignalingRouter
  import opened PacketHandlers
  import opened Flooding

  // ---- one member's tables ----

  lemma ExpireKeeps(c: Config, t: Tables, a: bool, b: bool, now: int)
    requires SeenOk(c, t.seen, a, b) && Within(c, now)
    ensures SeenOk(c, Expire(t, now).seen, a, b)
  {
    var e := Expire(t, now);
    SmallerSet(e.seen.Keys, t.seen.Keys);
    assert |e.seen| == |e.seen.Keys| && |t.seen| == |t.seen.Keys|;
  }

  /** Neither the lifetime nor the table limit touches this flood while the window lasts. */
  lemma RememberOne(c: Config, t: Tables, id: Id, a: bool, b: bool, now: int)
    requires SeenOk(c, t.seen, a, b) && Within(c, now) && c.flood.id != c.replyId
    requires (id == c.flood.id && !a) || (id == c.replyId && !b)
    ensures var (first, u) := RememberPacket(t, id, now);
      && first && u.routes == Expire(t, now).routes && u.reverse == Expire(t, now).reverse
      && SeenOk(c, u.seen, a || id == c.flood.id, b || id == c.replyId)
  {
    var e := Expire(t, now);
    ExpireKeeps(c, t, a, b, now);
  }

  lemma Duplicate(c: Config, t: Tables, id: Id, a: bool, b: bool, now: int)
    requires SeenOk(c, t.seen, a, b) && Within(c, now)
    requires (id == c.flood.id && a) || (id == c.replyId && b)
    ensures RememberPacket(t, id, now) == (false, Expire(t, now))
  {
  }

  lemma ObserveKeeps(c: Config, t: Tables, a: bool, b: bool, peer: Node, via: Node, hops: int, now: int)
    requires SeenOk(c, t.seen, a, b) && Within(c, now)
    ensures var u := ObserveRoute(t, peer, via, hops, now);
      SeenOk(c, u.seen, a, b) && u.reverse == (if hops <= 0 then t.reverse else Expire(t, now).reverse)
  {
    ExpireKeeps(c, t, a, b, now);
  }

  /** The tables after a first receipt, before anything is forwarded. */
  function Learned(t: Tables, from: Node, p: Packet, now: int): Tables {
    ObserveRoute(RememberPacket(t, p.id, now).1, p.sender, from, p.hops + 1, now)
  }

  lemma LearnedKeeps(c: Config, t: Tables, b: bool, from: Node, p: Packet, now: int)
    requires SeenOk(c, t.seen, false, b) && Within(c, now) && c.flood.id != c.replyId && p.id == c.flood.id
    ensures RememberPacket(t, p.id, now).0
    ensures SeenOk(c, Learned(t, from, p, now).seen, true, b)
  {
    RememberOne(c, t, c.flood.id, false, b, now);
    ObserveKeeps(c, RememberPacket(t, p.id, now).1, true, b, p.sender, from, p.hops + 1, now);
  }

  // ---- what a broadcast puts on the wire ----

  lemma {:induction false} BroadcastSends(links: seq<Node>, packet: Packet, except: Option<Node>)
    ensures forall s :: s in Broadcast(links, packet, except) <==>
      s.packet == packet && s.to in links && Some(s.to) != except
  {
    if links != [] { BroadcastSends(links[1..], packet, except); }
  }

  lemma {:induction false} FlightsOf(from: Node, sends: seq<Send>)
    ensures forall f :: f in Flights(from, sends) <==> f.from == from && Send(f.to, f.packet) in sends
  {
    if sends != [] { FlightsOf(from, sends[1..]); }
  }

  // ---- the tree of first receipts ----

  lemma ExtendTree(c: Config, paths: map<Node, seq<Node>>, u: Node, v: Node)
    requires TreeOk(c, paths) && u in paths && !Sink(c, u)
    requires u in c.links && v in c.links[u] && v in c.links && v !in paths
    ensures TreeOk(c, paths[v := paths[u] + [v]])
  {
    var bigger := paths[v := paths[u] + [v]];
    forall w | w in bigger ensures PathOk(c, bigger, w) {
      assert PathOk(c, paths, if w == v then u else w);
      var p := bigger[w];
      if w == v {
        assert p[..|p| - 1] == paths[u];
        forall k | 0 <= k < |p| ensures p[k] in bigger && bigger[p[k]] == p[..k + 1] {
          if k < |p| - 1 { assert p[..k + 1] == paths[u][..k + 1]; }
        }
      }
    }
  }

  /** First-receipt routes visit no member twice, so none is longer than the mesh is large. */
  lemma PathsAreSimple(c: Config, paths: map<Node, seq<Node>>, v: Node)
    requires TreeOk(c, paths) && v in paths
    ensures Distinct(paths[v]) && |paths[v]| <= |c.links|
  {
    assert PathOk(c, paths, v);
    var p := paths[v];
    forall i, j | 0 <= i < j < |p| ensures p[i] != p[j] {
      assert paths[p[i]] == p[..i + 1] && paths[p[j]] == p[..j + 1];
    }
    forall k | 0 <= k < |p| ensures p[k] in c.links.Keys { assert PathOk(c, paths, p[k]); }
    DistinctFits(p, c.links.Keys);
  }

  lemma {:induction false} DistinctFits(p: seq<Node>, s: set<Node>)
    requires Distinct(p) && forall v <- p :: v in s
    ensures |p| <= |s|
  {
    if p != [] {
      var last := p[|p| - 1];
      DistinctFits(p[..|p| - 1], s - {last});
    }
  }

  // ---- one delivery of the flood packet ----

  lemma Taken(wires: seq<Flight>, i: nat, more: seq<Flight>)
    requires i < |wires|
    ensures forall f :: f in wires[..i] + wires[i + 1..] + more ==> f in wires || f in more
    ensures forall f :: f in wires && f != wires[i] ==> f in wires[..i] + wires[i + 1..] + more
    ensures forall f :: f in more ==> f in wires[..i] + wires[i + 1..] + more
  {
    assert wires == wires[..i] + [wires[i]] + wires[i + 1..];
  }

  lemma DuplicateHandled(c: Config, t: Tables, b: bool, f: Flight, now: int)
    requires SeenOk(c, t.seen, true, b) && Within(c, now) && f.to in c.links
    requires f.packet.kind != Reply && f.packet.id == c.flood.id
    ensures Handle(t, f.to, c.links[f.to], f.from, f.packet, now, c.replyId, c.maxPeers) == Handled(Expire(t, now), [])
    ensures !RememberPacket(t, f.packet.id, now).0
  {
    Duplicate(c, t, c.flood.id, true, b, now);
  }

  /** Losing a flight whose end is already covered uncovers nothing. */
  lemma CoverageShrinks(c: Config, net: Net, n: Net, i: nat, more: seq<Flight>)
    requires CoverageOk(c, net) && i < |net.wires| && n.paths == net.paths
    requires n.wires == net.wires[..i] + net.wires[i + 1..] + more
    requires net.wires[i].packet.kind == Reply || net.wires[i].to in net.paths
    requires c.flood.kind != Reply
    ensures CoverageOk(c, n)
  {
    Taken(net.wires, i, more);
    forall u | u in n.paths && !Sink(c, u)
      ensures u in c.links && forall v <- c.links[u] :: Covered(c, n, u, v)
    {
      forall v | v in c.links[u] ensures Covered(c, n, u, v) { assert Covered(c, net, u, v); }
    }
  }

  lemma DuplicateStep(c: Config, net: Net, i: nat, now: int)
    requires FloodOk(c, net) && i < |net.wires| && Within(c, now)
    requires net.wires[i].packet.kind != Reply && net.wires[i].to in net.paths
    ensures var to := net.wires[i].to;
      Deliver(c, net, i, now) == net.(tables := net.tables[to := Expire(net.tables[to], now)],
                                      wires := net.wires[..i] + net.wires[i + 1..] + [])
    ensures FloodOk(c, Deliver(c, net, i, now))
  {
    var f := net.wires[i];
    assert f in net.wires && FlightOk(c, net, f);
    var b := Replied(c, net, f.to);
    DuplicateHandled(c, net.tables[f.to], b, f, now);
    ExpireKeeps(c, net.tables[f.to], true, b, now);
    Shrinks(c, net, i, Expire(net.tables[f.to], now));
  }

  lemma WiresShrink(c: Config, net: Net, n: Net, i: nat, more: seq<Flight>)
    requires WiresOk(c, net) && i < |net.wires| && n.paths == net.paths && n.sent == net.sent
    requires n.wires == net.wires[..i] + net.wires[i + 1..] + more
    requires forall g <- more :: g.packet.kind == Reply && g.to in c.links
    ensures WiresOk(c, n)
  {
    Taken(net.wires, i, more);
    forall g | g in n.wires ensures g.to in c.links && FlightOk(c, n, g) {
      if g in net.wires { assert FlightOk(c, net, g); }
    }
  }

  lemma OneFilter(c: Config, net: Net, n: Net, to: Node, t: Tables)
    requires FiltersOk(c, net) && to in net.tables
    requires n.paths == net.paths && n.replyAt == net.replyAt && n.tables == net.tables[to := t]
    requires SeenOk(c, t.seen, to in net.paths, Replied(c, net, to))
    ensures FiltersOk(c, n)
  {
    forall v | v in n.tables ensures SeenOk(c, n.tables[v].seen, v in n.paths, Replied(c, n, v)) {
      SameReplied(c, net, n, v);
      if v != to { assert n.tables[v] == net.tables[v]; }
    }
  }

  lemma SameReplied(c: Config, net: Net, n: Net, v: Node)
    requires n.paths == net.paths && n.replyAt == net.replyAt
    ensures Replied(c, n, v) == Replied(c, net, v)
  {
  }

  /** A delivery that only updates the receiver's tables. */
  lemma Shrinks(c: Config, net: Net, i: nat, t: Tables)
    requires FloodOk(c, net) && i < |net.wires| && net.wires[i].to in net.tables
    requires net.wires[i].packet.kind == Reply || net.wires[i].to in net.paths
    requires SeenOk(c, t.seen, net.wires[i].to in net.paths, Replied(c, net, net.wires[i].to))
    ensures FloodOk(c, net.(tables := net.tables[net.wires[i].to := t],
                            wires := net.wires[..i] + net.wires[i + 1..] + []))
  {
    var n := net.(tables := net.tables[net.wires[i].to := t], wires := net.wires[..i] + net.wires[i + 1..] + []);
    CoverageShrinks(c, net, n, i, []);
    WiresShrink(c, net, n, i, []);
    OneFilter(c, net, n, net.wires[i].to, t);
  }

  // ---- a first receipt ----

  /** What a first receipt of the flood packet sends. */
  function FirstSends(c: Config, me: Node, links: seq<Node>, f: Flight): seq<Send> {
    if Sink(c, me) then [Send(f.from, ReplyTo(me, f.packet, c.replyId, c.maxPeers))]
    else if f.packet.ttl > 1 then Broadcast(links, Forwarded(f.packet), Some(f.from)) else []
  }

  function FirstTables(c: Config, t: Tables, me: Node, f: Flight, now: int): Tables {
    var a := Learned(t, f.from, f.packet, now);
    if c.flood.kind == Announce then a
    else
      var b := RememberReverse(a, f.packet.request, f.from, now);
      if Sink(c, me) then RememberPacket(b, c.replyId, now).1 else b
  }

  lemma FirstHandled(c: Config, t: Tables, f: Flight, now: int)
    requires SeenOk(c, t.seen, false, false) && Within(c, now) && c.flood.id != c.replyId && f.to in c.links
    requires f.packet.kind == c.flood.kind != Reply && f.packet.id == c.flood.id && f.packet.target == c.flood.target
    ensures Handle(t, f.to, c.links[f.to], f.from, f.packet, now, c.replyId, c.maxPeers)
      == Handled(FirstTables(c, t, f.to, f, now), FirstSends(c, f.to, c.links[f.to], f))
    ensures SeenOk(c, FirstTables(c, t, f.to, f, now).seen, true, Sink(c, f.to))
    ensures RememberPacket(t, f.packet.id, now).0
  {
    LearnedKeeps(c, t, false, f.from, f.packet, now);
    if Sink(c, f.to) {
      var b := RememberReverse(Learned(t, f.from, f.packet, now), f.packet.request, f.from, now);
      RememberOne(c, b, c.replyId, true, false, now);
    }
  }

  /** The network after a first receipt at `f.to`. */
  function Grown(c: Config, net: Net, i: nat, now: int): Net
    requires i < |net.wires|
    requires var f := net.wires[i]; f.to in net.tables && f.to in c.links && f.from in net.paths
  {
    var f := net.wires[i];
    var path := net.paths[f.from] + [f.to];
    var sends := FirstSends(c, f.to, c.links[f.to], f);
    Net(net.tables[f.to := FirstTables(c, net.tables[f.to], f.to, f, now)],
        net.wires[..i] + net.wires[i + 1..] + Flights(f.to, sends),
        net.paths[f.to := path],
        if Sink(c, f.to) then net.sent else net.sent + SetOf(f.to, sends),
        if Sink(c, f.to) then Some(|path|) else net.replyAt)
  }

  lemma FirstDelivered(c: Config, net: Net, i: nat, now: int)
    requires FloodOk(c, net) && i < |net.wires| && Within(c, now)
    requires net.wires[i].packet.kind != Reply && net.wires[i].to !in net.paths
    ensures net.wires[i].from in net.paths && net.wires[i].to in net.tables && net.wires[i].to in c.links
    ensures Deliver(c, net, i, now) == Grown(c, net, i, now)
    ensures SeenOk(c, Grown(c, net, i, now).tables[net.wires[i].to].seen, true, Sink(c, net.wires[i].to))
  {
    var f := net.wires[i];
    assert f in net.wires && FlightOk(c, net, f);
    assert !Replied(c, net, f.to);
    FirstHandled(c, net.tables[f.to], f, now);
  }

  ghost predicate GrowsAt(c: Config, net: Net, i: nat) {
    && i < |net.wires|
    && var f := net.wires[i];
       && f.from in net.paths && f.to in net.tables && f.to in c.links && f.to !in net.paths
       && f.packet.kind != Reply && FlightOk(c, net, f)
  }

  /** `n` follows `net` by a first receipt at flight `i` that puts `more` on the wires. */
  ghost predicate Follows(c: Config, net: Net, n: Net, i: nat, more: seq<Flight>) {
    && GrowsAt(c, net, i)
    && var f := net.wires[i];
       && n.paths == net.paths[f.to := net.paths[f.from] + [f.to]]
       && n.wires == net.wires[..i] + net.wires[i + 1..] + more
       && net.sent <= n.sent
  }

  lemma RoomToForward(c: Config, net: Net, i: nat)
    requires WellStarted(c) && TreeOk(c, net.paths) && GrowsAt(c, net, i)
    ensures var f := net.wires[i]; TreeOk(c, net.paths[f.to := net.paths[f.from] + [f.to]])
    ensures var f := net.wires[i]; |net.paths[f.from]| < c.maxPeers && f.packet.ttl > 1
  {
    var f := net.wires[i];
    ExtendTree(c, net.paths, f.from, f.to);
    PathsAreSimple(c, net.paths[f.to := net.paths[f.from] + [f.to]], f.to);
  }

  /** A forwarding member reaches every neighbour but the one it heard the packet from. */
  lemma ForwardFlights(me: Node, links: seq<Node>, packet: Packet, from: Node)
    ensures var more := Flights(me, Broadcast(links, packet, Some(from)));
      && (forall g <- more :: g == Flight(me, g.to, packet) && g.to in links)
      && (forall v <- links :: v != from ==> Flight(me, v, packet) in more)
  {
    var sends := Broadcast(links, packet, Some(from));
    FlightsOf(me, sends);
    BroadcastSends(links, packet, Some(from));
    forall g | g in Flights(me, sends) ensures g == Flight(me, g.to, packet) && g.to in links {
      assert Send(g.to, g.packet) in sends;
    }
    forall v | v in links && v != from ensures Flight(me, v, packet) in Flights(me, sends) {
      assert Send(v, packet) in sends;
    }
  }

  lemma GrownWires(c: Config, net: Net, n: Net, i: nat, more: seq<Flight>)
    requires WiresOk(c, net) && Follows(c, net, n, i, more)
    requires forall g <- more :: g.to in c.links && FlightOk(c, n, g)
    ensures WiresOk(c, n)
  {
    Taken(net.wires, i, more);
    forall g | g in n.wires ensures g.to in c.links && FlightOk(c, n, g) {
      if g in net.wires { assert FlightOk(c, net, g); }
    }
  }

  lemma GrownCoverage(c: Config, net: Net, n: Net, i: nat, more: seq<Flight>)
    requires CoverageOk(c, net) && Follows(c, net, n, i, more)
    requires var f := net.wires[i]; !Sink(c, f.to) ==>
      forall v <- c.links[f.to] :: v != f.from ==> Flight(f.to, v, Copy(c, |net.paths[f.from]|)) in more
    ensures CoverageOk(c, n)
  {
    var f := net.wires[i];
    Taken(net.wires, i, more);
    forall u | u in n.paths && !Sink(c, u)
      ensures u in c.links && forall v <- c.links[u] :: Covered(c, n, u, v)
    {
      forall v | v in c.links[u] ensures Covered(c, n, u, v) {
        if u != f.to { assert Covered(c, net, u, v); }
      }
    }
  }

  lemma GrownReplied(c: Config, net: Net, n: Net, i: nat, more: seq<Flight>, v: Node)
    requires Follows(c, net, n, i, more) && TreeOk(c, net.paths) && TreeOk(c, n.paths)
    requires net.replyAt.Some? ==> c.flood.kind == Request && c.flood.target in net.paths
    requires n.replyAt == if Sink(c, net.wires[i].to) then Some(|n.paths[net.wires[i].to]|) else net.replyAt
    ensures var f := net.wires[i];
      Replied(c, n, v) == if v == f.to then Sink(c, f.to) else Replied(c, net, v)
  {
    var f := net.wires[i];
    if c.flood.target in n.paths && v in n.paths {
      assert PathOk(c, n.paths, v) && PathOk(c, n.paths, c.flood.target);
      if c.flood.target in net.paths { assert PathOk(c, net.paths, c.flood.target); }
    }
  }

  lemma GrownFilters(c: Config, net: Net, n: Net, i: nat, more: seq<Flight>)
    requires Follows(c, net, n, i, more) && TreeOk(c, net.paths) && TreeOk(c, n.paths) && FiltersOk(c, net)
    requires net.replyAt.Some? ==> c.flood.kind == Request && c.flood.target in net.paths
    requires n.replyAt == if Sink(c, net.wires[i].to) then Some(|n.paths[net.wires[i].to]|) else net.replyAt
    requires var to := net.wires[i].to; to in n.tables && n.tables == net.tables[to := n.tables[to]]
    requires var to := net.wires[i].to; SeenOk(c, n.tables[to].seen, true, Sink(c, to))
    ensures FiltersOk(c, n)
  {
    forall v | v in n.tables ensures SeenOk(c, n.tables[v].seen, v in n.paths, Replied(c, n, v)) {
      GrownReplied(c, net, n, i, more, v);
      if v != net.wires[i].to { assert n.tables[v] == net.tables[v]; }
    }
  }

  lemma FlightsAreOk(c: Config, n: Net, me: Node, sends: seq<Send>, packet: Packet)
    requires Topology(c) && me in n.paths && me in c.links && !Sink(c, me) && 0 < |n.paths[me]|
    requires packet == Copy(c, |n.paths[me]| - 1)
    requires forall s <- sends :: s.packet == packet && s.to in c.links[me]
    requires SetOf(me, sends) <= n.sent
    ensures forall g <- Flights(me, sends) :: g.to in c.links && FlightOk(c, n, g)
  {
    FlightsOf(me, sends);
    forall g | g in Flights(me, sends) ensures g.to in c.links && FlightOk(c, n, g) {
      assert Send(g.to, g.packet) in sends;
      assert (me, g.to) in SetOf(me, sends);
    }
  }

  lemma FirstFlights(c: Config, net: Net, i: nat, now: int)
    requires WellStarted(c) && TreeOk(c, net.paths) && GrowsAt(c, net, i)
    ensures var f := net.wires[i]; var n := Grown(c, net, i, now);
      var more := Flights(f.to, FirstSends(c, f.to, c.links[f.to], f));
      && (forall g <- more :: g.to in c.links && FlightOk(c, n, g))
      && (!Sink(c, f.to) ==>
           forall v <- c.links[f.to] :: v != f.from ==> Flight(f.to, v, Copy(c, |net.paths[f.from]|)) in more)
  {
    var f := net.wires[i];
    if !Sink(c, f.to) {
      RoomToForward(c, net, i);
      ForwardFlights(f.to, c.links[f.to], Forwarded(f.packet), f.from);
      BroadcastSends(c.links[f.to], Forwarded(f.packet), Some(f.from));
      FlightsAreOk(c, Grown(c, net, i, now), f.to, Broadcast(c.links[f.to], Forwarded(f.packet), Some(f.from)),
                   Forwarded(f.packet));
    }
  }

  lemma GrowStep(c: Config, net: Net, i: nat, now: int)
    requires FloodOk(c, net) && i < |net.wires| && Within(c, now)
    requires net.wires[i].packet.kind != Reply && net.wires[i].to !in net.paths
    ensures GrowsAt(c, net, i) && Deliver(c, net, i, now) == Grown(c, net, i, now)
    ensures FloodOk(c, Grown(c, net, i, now))
  {
    FirstDelivered(c, net, i, now);
    assert net.wires[i] in net.wires && FlightOk(c, net, net.wires[i]);
    GrownKeeps(c, net, i, now);
  }

  lemma GrownKeeps(c: Config, net: Net, i: nat, now: int)
    requires FloodOk(c, net) && GrowsAt(c, net, i)
    requires SeenOk(c, Grown(c, net, i, now).tables[net.wires[i].to].seen, true, Sink(c, net.wires[i].to))
    ensures FloodOk(c, Grown(c, net, i, now))
    ensures forall e <- Grown(c, net, i, now).sent - net.sent :: e.0 == net.wires[i].to
  {
    var f, n := net.wires[i], Grown(c, net, i, now);
    var more := Flights(f.to, FirstSends(c, f.to, c.links[f.to], f));
    RoomToForward(c, net, i);
    FirstFlights(c, net, i, now);
    assert Follows(c, net, n, i, more);
    GrownWires(c, net, n, i, more);
    GrownCoverage(c, net, n, i, more);
    GrownFilters(c, net, n, i, more);
  }
}
