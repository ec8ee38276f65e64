/** The three routed packet handlers of one mesh member. */
module PacketHandlers {
  import opened Wrappers
  import opened SignalingRouter

  datatype Kind = Announce | Request | Reply

  datatype Packet = Packet(kind: Kind, id: Id, sender: Node, target: Node, ttl: int, request: Id, hops: int)

  datatype Send = Send(to: Node, packet: Packet)

  datatype Handled = Handled(tables: Tables, sends: seq<Send>)

  /** A copy on every open connection but the one the packet came from. */
  function Broadcast(links: seq<Node>, packet: Packet, except: Option<Node>): seq<Send> {
    if links == [] then []
    else (if except == Some(links[0]) then [] else [Send(links[0], packet)]) + Broadcast(links[1..], packet, except)
  }

  lemma BroadcastNext(out: seq<Send>, links: seq<Node>, packet: Packet, except: Option<Node>)
    requires links != []
    ensures out + Broadcast(links, packet, except)
      == (if Some(links[0]) == except then out else out + [Send(links[0], packet)])
         + Broadcast(links[1..], packet, except)
  {
  }

  function Forwarded(p: Packet): Packet { p.(ttl := p.ttl - 1, hops := p.hops + 1) }

  function HandleAnnounce(t: Tables, links: seq<Node>, from: Node, p: Packet, now: int): Handled {
    var (first, seen) := RememberPacket(t, p.id, now);
    if !first then Handled(seen, [])
    else
      Handled(ObserveRoute(seen, p.sender, from, p.hops + 1, now),
              if p.ttl > 1 then Broadcast(links, Forwarded(p), Some(from)) else [])
  }

  function ReplyTo(me: Node, p: Packet, replyId: Id, maxPeers: nat): Packet {
    Packet(Reply, replyId, me, p.sender, maxPeers, p.request, 0)
  }

  function Asked(seen: Tables, from: Node, p: Packet, now: int): Tables {
    RememberReverse(ObserveRoute(seen, p.sender, from, p.hops + 1, now), p.request, from, now)
  }

  function HandleRequest(t: Tables, me: Node, links: seq<Node>, from: Node, p: Packet, now: int, replyId: Id,
                         maxPeers: nat): Handled
  {
    var (first, seen) := RememberPacket(t, p.id, now);
    if !first then Handled(seen, [])
    else
      var known := Asked(seen, from, p, now);
      if p.target == me then
        Handled(RememberPacket(known, replyId, now).1, [Send(from, ReplyTo(me, p, replyId, maxPeers))])
      else
        Handled(known, if p.ttl > 1 then Broadcast(links, Forwarded(p), Some(from)) else [])
  }

  function HandleReply(t: Tables, me: Node, from: Node, p: Packet, now: int): Handled {
    var (first, seen) := RememberPacket(t, p.id, now);
    if !first then Handled(seen, [])
    else
      var known := ObserveRoute(seen, p.sender, from, p.hops + 1, now);
      if p.target == me then Handled(known, [])
      else
        match ReverseHop(known, p.request, now)
        case None => Handled(known, [])
        case Some(hop) =>
          Handled(known, if hop != from && p.ttl > 1 then [Send(hop, Forwarded(p))] else [])
  }

  /** Two hops over the sender, whatever the distance, to every known peer without an open connection. */
  function ListHeard(t: Tables, me: Node, links: seq<Node>, from: Node, known: seq<Node>, now: int): Tables {
    if known == [] then t
    else
      var p := known[|known| - 1];
      var before := ListHeard(t, me, links, from, known[..|known| - 1], now);
      if p == me || p == from || p in links then before else ObserveRoute(before, p, from, 2, now)
  }

  function HandleSnapshot(t: Tables, me: Node, links: seq<Node>, from: Node, known: seq<Node>, now: int): Tables {
    ListHeard(ObserveRoute(t, from, from, 1, now), me, links, from, known, now)
  }

  /** An offer or answer for a link: learned from, and flooded until it is at its target. */
  function HandleSignal(t: Tables, me: Node, links: seq<Node>, from: Node, p: Packet, now: int): Handled {
    var (first, seen) := RememberPacket(t, p.id, now);
    if !first then Handled(seen, [])
    else
      Handled(ObserveRoute(seen, p.sender, from, 2, now),
              if p.target != me && p.ttl > 1 then Broadcast(links, p.(ttl := p.ttl - 1), Some(from)) else [])
  }

  function Handle(t: Tables, me: Node, links: seq<Node>, from: Node, p: Packet, now: int,
                  replyId: Id, maxPeers: nat): Handled
  {
    match p.kind
    case Announce => HandleAnnounce(t, links, from, p, now)
    case Request => HandleRequest(t, me, links, from, p, now, replyId, maxPeers)
    case Reply => HandleReply(t, me, from, p, now)
  }

  /** The handlers in the session's own form: the router is updated, the sends are collected. */
  class Session {
    const me: Node
    const maxPeers: nat
    const router: Router
    var openConnections: seq<Node>

    constructor (me: Node, maxPeers: nat, links: seq<Node>)
      ensures this.me == me && this.maxPeers == maxPeers && openConnections == links
      ensures fresh(router) && router.View() == Tables(map[], map[], map[])
    {
      this.me, this.maxPeers, openConnections := me, maxPeers, links;
      router := new Router();
    }

    method BroadcastService(packet: Packet, except: Option<Node>) returns (out: seq<Send>)
      ensures out == Broadcast(openConnections, packet, except)
    {
      out := [];
      for i := 0 to |openConnections|
        invariant out + Broadcast(openConnections[i..], packet, except) == Broadcast(openConnections, packet, except)
      {
        BroadcastNext(out, openConnections[i..], packet, except);
        assert openConnections[i..][0] == openConnections[i] && openConnections[i..][1..] == openConnections[i + 1..];
        if Some(openConnections[i]) != except {
          out := out + [Send(openConnections[i], packet)];
        }
      }
    }

    method HandlePeerAnnounce(from: Node, packet: Packet, now: int) returns (out: seq<Send>)
      modifies router
      ensures Handled(router.View(), out) == HandleAnnounce(old(router.View()), openConnections, from, packet, now)
    {
      out := [];
      var first := router.Remember(packet.id, now);
      if !first { return; }
      router.Observe(packet.sender, from, packet.hops + 1, now);
      if packet.ttl > 1 {
        out := BroadcastService(Forwarded(packet), Some(from));
      }
    }

    /** `known` are the peers of the mesh, those of the snapshot among them, in any order. */
    method HandlePeerSnapshot(from: Node, known: seq<Node>, now: int)
      modifies router
      ensures router.View() == HandleSnapshot(old(router.View()), me, openConnections, from, known, now)
    {
      router.Observe(from, from, 1, now);
      ghost var t := router.View();
      for i := 0 to |known|
        invariant router.View() == ListHeard(t, me, openConnections, from, known[..i], now)
      {
        assert known[..i + 1][..i] == known[..i];
        if known[i] != me && known[i] != from && known[i] !in openConnections {
          router.Observe(known[i], from, 2, now);
        }
      }
      assert known[..|known|] == known;
    }

    method RouteLinkSignaling(from: Node, packet: Packet, now: int) returns (mine: bool, out: seq<Send>)
      modifies router
      ensures Handled(router.View(), out) == HandleSignal(old(router.View()), me, openConnections, from, packet, now)
      ensures mine <==> RememberPacket(old(router.View()), packet.id, now).0 && packet.target == me
    {
      out := [];
      var first := router.Remember(packet.id, now);
      if !first { return false, out; }
      router.Observe(packet.sender, from, 2, now);
      mine := packet.target == me;
      if !mine && packet.ttl > 1 {
        out := BroadcastService(packet.(ttl := packet.ttl - 1), Some(from));
      }
    }

    method SendReply(from: Node, packet: Packet, now: int, replyId: Id) returns (out: seq<Send>)
      modifies router
      ensures router.View() == RememberPacket(old(router.View()), replyId, now).1
      ensures out == [Send(from, ReplyTo(me, packet, replyId, maxPeers))]
    {
      var reply := Packet(Reply, replyId, me, packet.sender, maxPeers, packet.request, 0);
      var _ := router.Remember(replyId, now);
      out := [Send(from, reply)];
    }

    /** What a request teaches: the route back to its sender, and the hop its reply will take. */
    method LearnRequest(from: Node, packet: Packet, now: int) returns (first: bool)
      modifies router
      ensures var (isNew, seen) := RememberPacket(old(router.View()), packet.id, now);
        && first == isNew
        && router.View() == if isNew then Asked(seen, from, packet, now) else seen
    {
      first := router.Remember(packet.id, now);
      if first {
        router.Observe(packet.sender, from, packet.hops + 1, now);
        router.RememberHop(packet.request, from, now);
      }
    }

    method HandleRouteRequest(from: Node, packet: Packet, now: int, replyId: Id) returns (out: seq<Send>)
      modifies router
      ensures Handled(router.View(), out)
        == HandleRequest(old(router.View()), me, openConnections, from, packet, now, replyId, maxPeers)
    {
      out := [];
      var first := LearnRequest(from, packet, now);
      if !first { return; }
      if packet.target == me {
        out := SendReply(from, packet, now, replyId);
      } else if packet.ttl > 1 {
        out := BroadcastService(Forwarded(packet), Some(from));
      }
    }

    method HandleRouteReply(from: Node, packet: Packet, now: int) returns (out: seq<Send>)
      modifies router
      ensures Handled(router.View(), out) == HandleReply(old(router.View()), me, from, packet, now)
    {
      out := [];
      var first := router.Remember(packet.id, now);
      if !first { return; }
      router.Observe(packet.sender, from, packet.hops + 1, now);
      if packet.target == me { return; }
      var hop := ReverseHop(router.View(), packet.request, now);
      if hop.Some? && hop.value != from && packet.ttl > 1 {
        out := [Send(hop.value, Forwarded(packet))];
      }
    }
  }
}
