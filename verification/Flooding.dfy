/**
 A flood in a mesh: one packet starts at one member, every member runs the handlers, and the
 copies in flight are delivered in any order. `paths` and `sent` only record history: the
 route of each first receipt, and the directed edges the flood has used.
 */
module Flooding {
  import opened Wrappers
  import opened SignalingRouter
  import opened PacketHandlers

  /** `flood` is the packet as its sender first puts it on the wire; `before` the members' tables then. */
  datatype Config = Config(links: map<Node, seq<Node>>, maxPeers: nat, flood: Packet, replyId: Id, start: int,
                           before: map<Node, Tables>)

  datatype Flight = Flight(from: Node, to: Node, packet: Packet)

  datatype Net = Net(tables: map<Node, Tables>, wires: seq<Flight>,
                     paths: map<Node, seq<Node>>, sent: set<(Node, Node)>, replyAt: Option<nat>)

  predicate Distinct(s: seq<Node>) { forall i, j :: 0 <= i < j < |s| ==> s[i] != s[j] }

  /** A fixed symmetric graph of at most `maxPeers` members. */
  predicate Topology(c: Config) {
    && |c.links| <= c.maxPeers
    && (forall u <- c.links :: Distinct(c.links[u]) && u !in c.links[u])
    && (forall u <- c.links, v <- c.links[u] :: v in c.links && u in c.links[v])
  }

  ghost predicate WellStarted(c: Config) {
    && Topology(c)
    && c.flood.sender in c.links && c.flood.kind != Reply && c.flood.id != c.replyId
    && c.flood.ttl == c.maxPeers && c.flood.hops == 0 && c.flood.target != c.flood.sender
    && c.before.Keys == c.links.Keys
    && (forall v <- c.before :: SeenOk(c, c.before[v].seen, false, false))
  }

  function Flights(from: Node, sends: seq<Send>): seq<Flight> {
    if sends == [] then [] else [Flight(from, sends[0].to, sends[0].packet)] + Flights(from, sends[1..])
  }

  /** The sender remembers its own packet and sends it on every connection. */
  function Launch(c: Config): Net
    requires WellStarted(c)
  {
    var o := c.flood.sender;
    Net(c.before[o := RememberPacket(c.before[o], c.flood.id, c.start).1],
        Flights(o, Broadcast(c.links[o], c.flood, None)),
        map[o := [o]], set v | v in c.links[o] :: (o, v), None)
  }

  function SetOf(from: Node, sends: seq<Send>): set<(Node, Node)> { set s | s in sends :: (from, s.to) }

  function Deliver(c: Config, net: Net, i: nat, now: int): Net
    requires i < |net.wires| && net.wires[i].to in net.tables && net.wires[i].to in c.links
  {
    var f := net.wires[i];
    var t := net.tables[f.to];
    var h := Handle(t, f.to, c.links[f.to], f.from, f.packet, now, c.replyId, c.maxPeers);
    var first := RememberPacket(t, f.packet.id, now).0;
    var flooded := f.packet.kind != Reply && first && f.from in net.paths;
    var paths := if flooded then net.paths[f.to := net.paths[f.from] + [f.to]] else net.paths;
    var forwards := flooded && !(f.packet.kind == Request && f.packet.target == f.to);
    Net(net.tables[f.to := h.tables],
        net.wires[..i] + net.wires[i + 1..] + Flights(f.to, h.sends),
        paths,
        if forwards then net.sent + SetOf(f.to, h.sends) else net.sent,
        if first && f.to in paths && (f.packet.kind == Reply || (f.packet.kind == Request && f.packet.target == f.to))
        then Some(|paths[f.to]|) else net.replyAt)
  }

  // ---- the invariant ----

  predicate Sink(c: Config, v: Node) { c.flood.kind == Request && v == c.flood.target }

  /** The copy a member at this depth puts on the wire. */
  function Copy(c: Config, depth: nat): Packet { c.flood.(ttl := c.maxPeers - depth, hops := depth) }

  ghost predicate PathOk(c: Config, paths: map<Node, seq<Node>>, v: Node)
    requires v in paths
  {
    var p := paths[v];
    && v in c.links && 0 < |p| && p[0] == c.flood.sender && p[|p| - 1] == v
    && (forall k | 0 <= k < |p| :: p[k] in paths && paths[p[k]] == p[..k + 1])
    && (forall k | 0 <= k < |p| - 1 :: p[k] in c.links && p[k + 1] in c.links[p[k]] && !Sink(c, p[k]))
  }

  ghost predicate TreeOk(c: Config, paths: map<Node, seq<Node>>) {
    && c.flood.sender in paths && paths[c.flood.sender] == [c.flood.sender]
    && (forall v {:trigger PathOk(c, paths, v)} | v in paths :: PathOk(c, paths, v))
  }

  ghost predicate FlightOk(c: Config, net: Net, f: Flight) {
    f.packet.kind != Reply ==>
      && f.from in net.paths && f.from in c.links && f.to in c.links[f.from] && !Sink(c, f.from)
      && 0 < |net.paths[f.from]| && f.packet == Copy(c, |net.paths[f.from]| - 1)
      && (f.from, f.to) in net.sent
  }

  ghost predicate Covered(c: Config, net: Net, u: Node, v: Node)
    requires u in net.paths
  {
    v in net.paths || (0 < |net.paths[u]| && Flight(u, v, Copy(c, |net.paths[u]| - 1)) in net.wires)
  }

  predicate Within(c: Config, now: int) { c.start <= now <= c.start + ROUTE_LIFETIME_MS }

  /** What a member's duplicate filter says about this flood, with room for its two packets. */
  predicate SeenOk(c: Config, seen: map<Id, int>, received: bool, replied: bool) {
    && (c.flood.id in seen <==> received) && (c.flood.id in seen ==> seen[c.flood.id] >= c.start)
    && (c.replyId in seen <==> replied) && (c.replyId in seen ==> seen[c.replyId] >= c.start)
    && |seen| + (if received then 0 else 1) + (if replied then 0 else 1) <= MAX_REMEMBERED_PACKETS
  }

  /** Members the reply has already visited: those from the target back to the `replyAt`-th of its path. */
  predicate Replied(c: Config, net: Net, v: Node) {
    && net.replyAt.Some? && c.flood.target in net.paths && v in net.paths
    && 1 <= net.replyAt.value <= |net.paths[v]| <= |net.paths[c.flood.target]|
    && net.paths[c.flood.target][|net.paths[v]| - 1] == v
  }

  ghost predicate WiresOk(c: Config, net: Net) {
    forall f <- net.wires :: f.to in c.links && FlightOk(c, net, f)
  }

  ghost predicate CoverageOk(c: Config, net: Net) {
    forall u <- net.paths :: !Sink(c, u) ==> u in c.links && forall v <- c.links[u] :: Covered(c, net, u, v)
  }

  ghost predicate FiltersOk(c: Config, net: Net) {
    && net.tables.Keys == c.links.Keys
    && forall v {:trigger net.tables[v]} | v in net.tables ::
         SeenOk(c, net.tables[v].seen, v in net.paths, Replied(c, net, v))
  }

  ghost predicate FloodOk(c: Config, net: Net) {
    && WellStarted(c) && TreeOk(c, net.paths)
    && WiresOk(c, net) && CoverageOk(c, net) && FiltersOk(c, net)
    && (forall e <- net.sent :: e.0 in net.paths)
    && (net.replyAt.Some? ==> c.flood.kind == Request && c.flood.target in net.paths)
  }
}
