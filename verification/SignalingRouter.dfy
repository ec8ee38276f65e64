/** The router's three tables: learned routes, reverse hops of requests, packets already seen. */
module SignalingRouter {
  import opened Wrappers

  const ROUTE_LIFETIME_MS := 2 * 60 * 1000
  const MAX_REMEMBERED_PACKETS := 2048

  /** A peer; a connection is named by the peer at its other end. */
  type Node = nat

  /** A packet or request UUID. */
  type Id = nat

  datatype Route = Route(connection: Node, hops: int, updatedAt: int)

  datatype ReverseRoute = ReverseRoute(connection: Node, updatedAt: int)

  datatype Tables = Tables(routes: map<Node, Route>, reverse: map<Id, ReverseRoute>, seen: map<Id, int>)

  function Expire(t: Tables, now: int): Tables {
    Tables(map p | p in t.routes && t.routes[p].updatedAt >= now - ROUTE_LIFETIME_MS :: t.routes[p],
           map q | q in t.reverse && t.reverse[q].updatedAt >= now - ROUTE_LIFETIME_MS :: t.reverse[q],
           map k | k in t.seen && t.seen[k] >= now - ROUTE_LIFETIME_MS :: t.seen[k])
  }

  /** True for a packet met for the first time. */
  function RememberPacket(t: Tables, id: Id, now: int): (bool, Tables) {
    var e := Expire(t, now);
    if id in e.seen then (false, e)
    else (true, e.(seen := (if |e.seen| >= MAX_REMEMBERED_PACKETS then map[] else e.seen)[id := now]))
  }

  function ObserveRoute(t: Tables, peer: Node, connection: Node, hops: int, now: int): Tables {
    if hops <= 0 then t
    else
      var e := Expire(t, now);
      if peer !in e.routes || hops < e.routes[peer].hops then
        e.(routes := e.routes[peer := Route(connection, hops, now)])
      else if e.routes[peer].connection == connection then
        var r := e.routes[peer];
        e.(routes := e.routes[peer := Route(connection, if hops < r.hops then hops else r.hops, now)])
      else e
  }

  function RememberReverse(t: Tables, request: Id, connection: Node, now: int): Tables {
    t.(reverse := t.reverse[request := ReverseRoute(connection, now)])
  }

  function ReverseHop(t: Tables, request: Id, now: int): Option<Node> {
    if request !in t.reverse || now - t.reverse[request].updatedAt > ROUTE_LIFETIME_MS then None
    else Some(t.reverse[request].connection)
  }

  function ForgetConnection(t: Tables, connection: Node): Tables {
    t.(routes := map p | p in t.routes && t.routes[p].connection != connection :: t.routes[p],
       reverse := map q | q in t.reverse && t.reverse[q].connection != connection :: t.reverse[q])
  }

  class Router {
    var routes: map<Node, Route>
    var reverse: map<Id, ReverseRoute>
    var seen: map<Id, int>

    function View(): Tables
      reads this
    {
      Tables(routes, reverse, seen)
    }

    constructor ()
      ensures View() == Tables(map[], map[], map[])
    {
      routes, reverse, seen := map[], map[], map[];
    }

    /** The erasing scans visit their table in whatever order it iterates. */
    method DropOldRoutes(threshold: int)
      modifies `routes
      ensures routes == map p | p in old(routes) && old(routes)[p].updatedAt >= threshold :: old(routes)[p]
    {
      var peers := routes.Keys;
      while peers != {}
        invariant peers <= old(routes).Keys
        invariant routes == map p | p in old(routes) && (p in peers || old(routes)[p].updatedAt >= threshold) ::
          old(routes)[p]
        decreases |peers|
      {
        var p :| p in peers;
        if routes[p].updatedAt < threshold { routes := routes - {p}; }
        peers := peers - {p};
      }
    }

    method DropOldPackets(threshold: int)
      modifies `seen
      ensures seen == map k | k in old(seen) && old(seen)[k] >= threshold :: old(seen)[k]
    {
      var packets := seen.Keys;
      while packets != {}
        invariant packets <= old(seen).Keys
        invariant seen == map k | k in old(seen) && (k in packets || old(seen)[k] >= threshold) :: old(seen)[k]
        decreases |packets|
      {
        var k :| k in packets;
        if seen[k] < threshold { seen := seen - {k}; }
        packets := packets - {k};
      }
    }

    method DropOldRequests(threshold: int)
      modifies `reverse
      ensures reverse == map q | q in old(reverse) && old(reverse)[q].updatedAt >= threshold :: old(reverse)[q]
    {
      var requests := reverse.Keys;
      while requests != {}
        invariant requests <= old(reverse).Keys
        invariant reverse == map q | q in old(reverse) && (q in requests || old(reverse)[q].updatedAt >= threshold) ::
          old(reverse)[q]
        decreases |requests|
      {
        var q :| q in requests;
        if reverse[q].updatedAt < threshold { reverse := reverse - {q}; }
        requests := requests - {q};
      }
    }

    method DropExpired(now: int)
      modifies this
      ensures View() == Expire(old(View()), now)
    {
      DropOldRoutes(now - ROUTE_LIFETIME_MS);
      DropOldPackets(now - ROUTE_LIFETIME_MS);
      DropOldRequests(now - ROUTE_LIFETIME_MS);
    }

    method Remember(id: Id, now: int) returns (first: bool)
      modifies this
      ensures (first, View()) == RememberPacket(old(View()), id, now)
    {
      DropExpired(now);
      if id in seen { return false; }
      if |seen| >= MAX_REMEMBERED_PACKETS { seen := map[]; }
      seen := seen[id := now];
      first := true;
    }

    method Observe(peer: Node, connection: Node, hops: int, now: int)
      modifies this
      ensures View() == ObserveRoute(old(View()), peer, connection, hops, now)
    {
      if hops <= 0 { return; }
      DropExpired(now);
      if peer !in routes || hops < routes[peer].hops {
        routes := routes[peer := Route(connection, hops, now)];
      } else if routes[peer].connection == connection {
        var best := if hops < routes[peer].hops then hops else routes[peer].hops;
        routes := routes[peer := Route(connection, best, now)];
      }
    }

    method RememberHop(request: Id, connection: Node, now: int)
      modifies this
      ensures View() == RememberReverse(old(View()), request, connection, now)
    {
      reverse := reverse[request := ReverseRoute(connection, now)];
    }

    method ForgetRoutes(connection: Node)
      modifies `routes
      ensures routes == map p | p in old(routes) && old(routes)[p].connection != connection :: old(routes)[p]
    {
      var peers := routes.Keys;
      while peers != {}
        invariant peers <= old(routes).Keys
        invariant routes == map p | p in old(routes) && (p in peers || old(routes)[p].connection != connection) ::
          old(routes)[p]
        decreases |peers|
      {
        var p :| p in peers;
        if routes[p].connection == connection { routes := routes - {p}; }
        peers := peers - {p};
      }
    }

    method ForgetRequests(connection: Node)
      modifies `reverse
      ensures reverse == map q | q in old(reverse) && old(reverse)[q].connection != connection :: old(reverse)[q]
    {
      var requests := reverse.Keys;
      while requests != {}
        invariant requests <= old(reverse).Keys
        invariant reverse == map q | q in old(reverse) && (q in requests || old(reverse)[q].connection != connection) ::
          old(reverse)[q]
        decreases |requests|
      {
        var q :| q in requests;
        if reverse[q].connection == connection { reverse := reverse - {q}; }
        requests := requests - {q};
      }
    }

    method Forget(connection: Node)
      modifies this
      ensures View() == ForgetConnection(old(View()), connection)
    {
      ForgetRoutes(connection);
      ForgetRequests(connection);
    }
  }
}
