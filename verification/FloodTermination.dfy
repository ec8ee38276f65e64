/** The TTL alone bounds a flood, whatever the duplicate filters remember or forget. */
module FloodTermination {
  import opened Wrappers
  import opened SignalingRouter
  import opened PacketHandlers
  import opened Flooding

  function ReplyWeight(ttl: int): nat { if ttl <= 1 then 1 else ttl }

  /** How many deliveries one copy can still cause with at most `fan` connections per member. */
  function FloodWeight(fan: nat, maxPeers: nat, ttl: int): nat
    decreases if ttl < 0 then 0 else ttl
  {
    1 + ReplyWeight(maxPeers) + if ttl <= 1 then 0 else fan * FloodWeight(fan, maxPeers, ttl - 1)
  }

  function Weight(fan: nat, maxPeers: nat, p: Packet): nat {
    if p.kind == Reply then ReplyWeight(p.ttl) else FloodWeight(fan, maxPeers, p.ttl)
  }

  function Total(fan: nat, maxPeers: nat, wires: seq<Flight>): nat {
    if wires == [] then 0 else Weight(fan, maxPeers, wires[0].packet) + Total(fan, maxPeers, wires[1..])
  }

  lemma {:induction false} TotalAppend(fan: nat, maxPeers: nat, a: seq<Flight>, b: seq<Flight>)
    ensures Total(fan, maxPeers, a + b) == Total(fan, maxPeers, a) + Total(fan, maxPeers, b)
  {
    if a == [] {
      assert a + b == b;
    } else {
      assert (a + b)[1..] == a[1..] + b;
      TotalAppend(fan, maxPeers, a[1..], b);
    }
  }

  lemma {:induction false} BroadcastTotal(fan: nat, maxPeers: nat, me: Node, links: seq<Node>, p: Packet,
                                          except: Option<Node>)
    ensures Total(fan, maxPeers, Flights(me, Broadcast(links, p, except))) <= Times(|links|, Weight(fan, maxPeers, p))
  {
    if links != [] {
      BroadcastTotal(fan, maxPeers, me, links[1..], p, except);
      var rest := Broadcast(links[1..], p, except);
      assert ([Send(links[0], p)] + rest)[1..] == rest;
      assert [] + rest == rest;
      FlightsCons(fan, maxPeers, me, Send(links[0], p), rest);
      OneMore(|links|, Weight(fan, maxPeers, p));
    }
  }

  lemma FlightsCons(fan: nat, maxPeers: nat, me: Node, s: Send, rest: seq<Send>)
    ensures Total(fan, maxPeers, Flights(me, [s] + rest))
      == Weight(fan, maxPeers, s.packet) + Total(fan, maxPeers, Flights(me, rest))
  {
    assert ([s] + rest)[1..] == rest;
    var f := Flight(me, s.to, s.packet);
    assert ([f] + Flights(me, rest))[1..] == Flights(me, rest);
  }

  /** What a handler can send: nothing, one step of a reply, one reply, or the forwarded copies. */
  predicate Answer(c: Config, links: seq<Node>, f: Flight, sends: seq<Send>) {
    || sends == []
    || (f.packet.kind != Reply && |sends| == 1 && sends[0].packet.kind == Reply && sends[0].packet.ttl == c.maxPeers)
    || (f.packet.kind == Reply && f.packet.ttl > 1 && |sends| == 1 && sends[0].packet == Forwarded(f.packet))
    || (f.packet.kind != Reply && f.packet.ttl > 1 && sends == Broadcast(links, Forwarded(f.packet), Some(f.from)))
  }

  lemma ReplyAnswer(c: Config, t: Tables, links: seq<Node>, f: Flight, now: int)
    requires f.packet.kind == Reply
    ensures Answer(c, links, f, HandleReply(t, f.to, f.from, f.packet, now).sends)
  {
  }

  lemma AnyAnswer(c: Config, t: Tables, links: seq<Node>, f: Flight, now: int)
    ensures Answer(c, links, f, Handle(t, f.to, links, f.from, f.packet, now, c.replyId, c.maxPeers).sends)
  {
    if f.packet.kind == Reply { ReplyAnswer(c, t, links, f, now); }
  }

  lemma OneSend(fan: nat, maxPeers: nat, me: Node, sends: seq<Send>)
    requires |sends| == 1
    ensures Total(fan, maxPeers, Flights(me, sends)) == Weight(fan, maxPeers, sends[0].packet)
  {
    FlightsCons(fan, maxPeers, me, sends[0], []);
    assert sends == [sends[0]] + [];
  }

  lemma ForwardTotal(c: Config, fan: nat, links: seq<Node>, f: Flight)
    requires f.packet.kind != Reply && f.packet.ttl > 1 && |links| <= fan
    ensures Total(fan, c.maxPeers, Flights(f.to, Broadcast(links, Forwarded(f.packet), Some(f.from))))
      < Weight(fan, c.maxPeers, f.packet)
  {
    BroadcastTotal(fan, c.maxPeers, f.to, links, Forwarded(f.packet), Some(f.from));
    FloodUnfold(fan, c.maxPeers, f.packet.ttl);
    Scale(|links|, fan, FloodWeight(fan, c.maxPeers, f.packet.ttl - 1));
  }

  lemma FloodUnfold(fan: nat, maxPeers: nat, ttl: int)
    requires ttl > 1
    ensures FloodWeight(fan, maxPeers, ttl) > Times(fan, FloodWeight(fan, maxPeers, ttl - 1))
  {
  }

  /** Products are kept behind a name, away from the sums. */
  function Times(a: nat, b: nat): nat { a * b }

  lemma Scale(a: nat, b: nat, w: nat)
    requires a <= b
    ensures Times(a, w) <= Times(b, w)
  {
  }

  lemma OneMore(a: nat, w: nat)
    requires a > 0
    ensures Times(a, w) == w + Times(a - 1, w)
  {
  }

  lemma AnswerTotal(c: Config, fan: nat, links: seq<Node>, f: Flight, sends: seq<Send>)
    requires Answer(c, links, f, sends) && |links| <= fan
    ensures Total(fan, c.maxPeers, Flights(f.to, sends)) < Weight(fan, c.maxPeers, f.packet)
  {
    if sends == [] {
    } else if f.packet.kind != Reply && f.packet.ttl > 1 && sends == Broadcast(links, Forwarded(f.packet), Some(f.from))
      {
      ForwardTotal(c, fan, links, f);
    } else {
      OneSend(fan, c.maxPeers, f.to, sends);
    }
  }

  /** Every delivery lowers the total weight, from any state and at any time. */
  lemma DeliveryLowersWeight(c: Config, net: Net, fan: nat, i: nat, now: int)
    requires i < |net.wires| && net.wires[i].to in net.tables && net.wires[i].to in c.links
    requires |c.links[net.wires[i].to]| <= fan
    ensures Total(fan, c.maxPeers, Deliver(c, net, i, now).wires) < Total(fan, c.maxPeers, net.wires)
  {
    var f := net.wires[i];
    AnyAnswer(c, net.tables[f.to], c.links[f.to], f, now);
    var h := Handle(net.tables[f.to], f.to, c.links[f.to], f.from, f.packet, now, c.replyId, c.maxPeers);
    AnswerTotal(c, fan, c.links[f.to], f, h.sends);
    var before, after, more := net.wires[..i], net.wires[i + 1..], Flights(f.to, h.sends);
    assert net.wires == before + ([f] + after);
    assert ([f] + after)[1..] == after;
    TotalAppend(fan, c.maxPeers, before, [f] + after);
    TotalAppend(fan, c.maxPeers, before, after);
    TotalAppend(fan, c.maxPeers, before + after, more);
  }
}
