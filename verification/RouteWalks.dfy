/** Hop counts are lengths of real walks, also for members that knew a route before the flood. */
module RouteWalks {
  import opened Wrappers
  import opened SignalingRouter
  import opened PacketHandlers
  import opened Flooding
  import opened FloodProofs
  import opened ReplyProofs
  import opened FloodTheorems

  /** Over open connections from member `v`, first to `via`, to the peer in this many hops. */
  predicate WalkTo(c: Config, w: seq<Node>, v: Node, peer: Node, via: Node) {
    && 2 <= |w| && w[0] == v && w[1] == via && w[|w| - 1] == peer
    && (forall k | 0 <= k < |w| - 1 :: w[k] in c.links && w[k + 1] in c.links[w[k]])
  }

  ghost predicate RealRoute(c: Config, v: Node, peer: Node, via: Node, hops: int) {
    exists w :: WalkTo(c, w, v, peer, via) && |w| == hops + 1
  }

  /** Every route of every member has the length of a real walk over its connection. */
  ghost predicate AllReal(c: Config, tables: map<Node, Tables>) {
    forall v, peer | v in tables && peer in tables[v].routes ::
      RealRoute(c, v, peer, tables[v].routes[peer].connection, tables[v].routes[peer].hops)
  }

  function Backwards(p: seq<Node>): (r: seq<Node>)
    ensures |r| == |p| && forall k | 0 <= k < |p| :: r[k] == p[|p| - 1 - k]
  {
    if p == [] then [] else [p[|p| - 1]] + Backwards(p[..|p| - 1])
  }

  /** Connections are there from both ends. */
  predicate Linked(c: Config, u: Node, v: Node) { u in c.links && v in c.links && v in c.links[u] && u in c.links[v] }

  lemma Symmetric(c: Config, u: Node, v: Node)
    requires Topology(c) && u in c.links && v in c.links[u]
    ensures Linked(c, u, v)
  {
  }

  lemma PathLinked(c: Config, paths: map<Node, seq<Node>>, v: Node, k: nat)
    requires Topology(c) && v in paths && PathOk(c, paths, v) && k < |paths[v]| - 1
    ensures Linked(c, paths[v][k], paths[v][k + 1])
  {
    Symmetric(c, paths[v][k], paths[v][k + 1]);
  }

  lemma BackwardsWalk(c: Config, p: seq<Node>, to: Node)
    requires p != [] && Linked(c, p[|p| - 1], to)
    requires forall k {:trigger p[k]} | 0 <= k < |p| - 1 :: Linked(c, p[k], p[k + 1])
    ensures RealRoute(c, to, p[0], p[|p| - 1], |p|)
  {
    var w := [to] + Backwards(p);
    forall k | 0 <= k < |w| - 1 ensures w[k] in c.links && w[k + 1] in c.links[w[k]] {
      if k > 0 {
        var j := |p| - 1 - k;
        assert Linked(c, p[j], p[j + 1]) && w[k] == p[j + 1] && w[k + 1] == p[j];
      }
    }
    assert WalkTo(c, w, to, p[0], p[|p| - 1]);
  }

  /** A copy of the flood came along the first-receipt path of its sender; back along it is a walk. */
  lemma FloodWalk(c: Config, net: Net, f: Flight)
    requires WellStarted(c) && TreeOk(c, net.paths) && FlightOk(c, net, f) && f.packet.kind != Reply
    ensures RealRoute(c, f.to, f.packet.sender, f.from, f.packet.hops + 1)
  {
    var p := net.paths[f.from];
    assert PathOk(c, net.paths, f.from);
    forall k {:trigger p[k]} | 0 <= k < |p| - 1
      ensures Linked(c, p[k], p[k + 1]) { PathLinked(c, net.paths, f.from, k); }
    Symmetric(c, f.from, f.to);
    BackwardsWalk(c, p, f.to);
  }

  /** The reply came along the rest of the target's path. */
  lemma ReplyWalk(c: Config, net: Net, d: nat)
    requires TreeOk(c, net.paths) && c.flood.target in net.paths && 2 <= d <= |net.paths[c.flood.target]|
    ensures var f := ReplyFlight(c, net.paths[c.flood.target], d);
      RealRoute(c, f.to, f.packet.sender, f.from, f.packet.hops + 1)
  {
    var path := net.paths[c.flood.target];
    assert PathOk(c, net.paths, c.flood.target);
    assert WalkTo(c, path[d - 2..], path[d - 2], c.flood.target, path[d - 1]);
  }

  /** Routes are as they were, but that one may have been learned. */
  predicate LearnedOnly(t: Tables, n: Tables, first: bool, peer: Node, via: Node, hops: int) {
    forall q <- n.routes ::
      || (q in t.routes && n.routes[q].connection == t.routes[q].connection && n.routes[q].hops == t.routes[q].hops)
      || (first && q == peer && n.routes[q].connection == via && n.routes[q].hops == hops)
  }

  lemma LearnedRoutes(t: Tables, from: Node, p: Packet, now: int)
    requires RememberPacket(t, p.id, now).0
    ensures LearnedOnly(t, Learned(t, from, p, now), true, p.sender, from, p.hops + 1)
  {
  }

  lemma DuplicateHandledRoutes(t: Tables, me: Node, links: seq<Node>, from: Node, p: Packet, now: int, replyId: Id,
                               maxPeers: nat)
    requires !RememberPacket(t, p.id, now).0
    ensures Handle(t, me, links, from, p, now, replyId, maxPeers).tables == Expire(t, now)
  {
  }

  lemma FirstHandledRoutes(t: Tables, me: Node, links: seq<Node>, from: Node, p: Packet, now: int, replyId: Id,
                           maxPeers: nat)
    requires RememberPacket(t, p.id, now).0 && p.kind != Request
    ensures Handle(t, me, links, from, p, now, replyId, maxPeers).tables == Learned(t, from, p, now)
  {
  }

  lemma RequestHandledRoutes(t: Tables, me: Node, links: seq<Node>, from: Node, p: Packet, now: int, replyId: Id,
                             maxPeers: nat)
    requires RememberPacket(t, p.id, now).0 && p.kind == Request
    ensures var known := RememberReverse(Learned(t, from, p, now), p.request, from, now);
      Handle(t, me, links, from, p, now, replyId, maxPeers).tables
        == if p.target == me then RememberPacket(known, replyId, now).1 else known
  {
  }

  lemma ExpiredRoutes(t: Tables, n: Tables, first: bool, peer: Node, via: Node, hops: int, id: Id, now: int)
    requires LearnedOnly(t, n, first, peer, via, hops)
    ensures LearnedOnly(t, RememberPacket(n, id, now).1, first, peer, via, hops)
  {
  }

  /** What a packet can do to a routing table. */
  lemma HandledRoutes(t: Tables, me: Node, links: seq<Node>, from: Node, p: Packet, now: int, replyId: Id,
                      maxPeers: nat)
    ensures LearnedOnly(t, Handle(t, me, links, from, p, now, replyId, maxPeers).tables,
                        RememberPacket(t, p.id, now).0, p.sender, from, p.hops + 1)
  {
    if !RememberPacket(t, p.id, now).0 { DuplicateHandledRoutes(t, me, links, from, p, now, replyId, maxPeers); } else {
      LearnedRoutes(t, from, p, now);
      if p.kind != Request { FirstHandledRoutes(t, me, links, from, p, now, replyId, maxPeers); } else {
        var known := RememberReverse(Learned(t, from, p, now), p.request, from, now);
        RequestHandledRoutes(t, me, links, from, p, now, replyId, maxPeers);
        ExpiredRoutes(t, known, true, p.sender, from, p.hops + 1, replyId, now);
      }
    }
  }

  /** Whatever a member learns from is a walk. */
  lemma LearnsWalks(c: Config, net: Net, i: nat, now: int)
    requires WellStarted(c) && TreeOk(c, net.paths) && WiresOk(c, net) && FiltersOk(c, net) && ReplyOk(c, net)
    requires i < |net.wires| && Within(c, now)
    requires net.wires[i].to in net.tables && RememberPacket(net.tables[net.wires[i].to], net.wires[i].packet.id, now).0
    ensures var f := net.wires[i]; RealRoute(c, f.to, f.packet.sender, f.from, f.packet.hops + 1)
  {
    var f := net.wires[i];
    assert f in net.wires;
    if f.packet.kind != Reply { FloodWalk(c, net, f); } else { LearnsReply(c, net, f, now); }
  }

  /** A reply that a member meets for the first time is the one on its way. */
  lemma LearnsReply(c: Config, net: Net, f: Flight, now: int)
    requires TreeOk(c, net.paths) && FiltersOk(c, net) && ReplyOk(c, net) && Within(c, now)
    requires f in net.wires && f.packet.kind == Reply
    requires f.to in net.tables && RememberPacket(net.tables[f.to], f.packet.id, now).0
    ensures RealRoute(c, f.to, f.packet.sender, f.from, f.packet.hops + 1)
  {
    var d := net.replyAt.value;
    assert ReplyOnItsWay(c, net, d);
    if f.packet.id == c.replyId && Replied(c, net, f.to) {
      Duplicate(c, net.tables[f.to], c.replyId, f.to in net.paths, true, now);
    } else {
      ReplyWalk(c, net, d);
    }
  }
}
