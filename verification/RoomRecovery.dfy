/** How the members of a mesh find back into one signaling room. */
module RoomRecovery {
  import opened Wrappers

  /** Peers and rooms are compared as their identifiers are. */
  type Peer = nat

  type RoomId = nat

  const PEER_TIMEOUT_MS := 15000
  const JOIN_TIMEOUT_MS := 10000

  /** What a peer last said: whether it has a session on this client's server, and its room there. */
  datatype State = State(here: bool, room: Option<RoomId>)

  // ---- the choice ----

  predicate IsLeast(s: set<nat>, x: nat) { x in s && forall y <- s :: x <= y }

  lemma {:induction false} HasLeast(s: set<nat>)
    requires s != {}
    ensures exists x :: IsLeast(s, x)
    decreases |s|
  {
    var x :| x in s;
    if s == {x} {
      assert IsLeast(s, x);
    } else {
      HasLeast(s - {x});
      var rest :| IsLeast(s - {x}, rest);
      var least := if rest < x then rest else x;
      forall y | y in s ensures least <= y { if y != x { assert y in s - {x}; } }
      assert IsLeast(s, least);
    }
  }

  function Least(s: set<nat>): (x: nat)
    requires s != {}
    ensures IsLeast(s, x)
  {
    HasLeast(s);
    var x :| IsLeast(s, x);
    x
  }

  function LeastOf(s: set<nat>): Option<nat> { if s == {} then None else Some(Least(s)) }

  function Usable(peers: map<Peer, State>): set<Peer> { set p | p in peers && peers[p].here }

  /** The rooms this client knows of, its own included. */
  function Rooms(own: Option<RoomId>, peers: map<Peer, State>, among: set<Peer>): set<RoomId> {
    (if own.Some? then {own.value} else {}) + set p | p in among && p in peers && peers[p].room.Some? ::
      peers[p].room.value
  }

  /** Those who could invite into a room. */
  function Holders(peers: map<Peer, State>, among: set<Peer>, room: Option<RoomId>): set<Peer> {
    set p | p in among && p in peers && room.Some? && peers[p].room == room
  }

  datatype Choice = Choice(room: Option<RoomId>, issuer: Option<Peer>, leader: Peer)

  /** The smallest room, the smallest of its holders, and the smallest client of this server. */
  function Choose(self: Peer, own: Option<RoomId>, peers: map<Peer, State>, among: set<Peer>): Choice {
    var room := LeastOf(Rooms(own, peers, among));
    Choice(room, LeastOf(Holders(peers, among, room)), Least({self} + among))
  }

  datatype Decision = Stay | LeaveRoom | AskFor(issuer: Peer, room: RoomId) | CreateRoom | Wait

  function Decide(self: Peer, own: Option<RoomId>, c: Choice): Decision {
    if own.Some? && own == c.room then Stay
    else if own.Some? then LeaveRoom
    else if c.room.Some? && c.issuer.Some? then AskFor(c.issuer.value, c.room.value)
    else if c.leader == self then CreateRoom
    else Wait
  }

  // ---- the session's part ----

  datatype Operation = Idle | Leaving | Joining | Creating | Other

  datatype Asked = Asked(issuer: Peer, room: RoomId, at: int)

  datatype Seen = Seen(state: State, at: int)

  datatype Session = Session(room: Option<RoomId>, operation: Operation, peers: map<Peer, Seen>, asked: Option<Asked>,
    after: int)

  function Live(peers: map<Peer, Seen>, linked: set<Peer>, now: int): map<Peer, Seen> {
    map p | p in peers && now - peers[p].at <= PEER_TIMEOUT_MS && p in linked :: peers[p]
  }

  function States(peers: map<Peer, Seen>): map<Peer, State> { map p | p in peers :: peers[p].state }

  /** A request to join that is still worth waiting for. */
  predicate Waiting(s: Session, c: Choice, now: int) {
    && s.asked.Some? && now - s.asked.value.at < JOIN_TIMEOUT_MS
    && c.issuer == Some(s.asked.value.issuer) && c.room == Some(s.asked.value.room)
  }

  /** What is carried out; `accepted` tells whether the request or packet could be sent. */
  function CarryOut(before: Session, d: Decision, now: int, accepted: bool): Session {
    var s := before.(asked := None);
    match d
    case LeaveRoom =>
      s.(room := None, operation := if accepted then Leaving else Idle,
         after := if accepted then s.after else now + 5000)
    case AskFor(issuer, room) =>
      if accepted then s.(asked := Some(Asked(issuer, room, now))) else s.(after := now + 3000)
    case CreateRoom =>
      s.(operation := if accepted then Creating else Idle, after := if accepted then s.after else now + 5000)
    case _ => s
  }

  function Recovered(self: Peer, before: Session, linked: set<Peer>, connected: bool, now: int,
                     accepted: bool): Session {
    var s := before.(peers := Live(before.peers, linked, now));
    if !connected || s.operation != Idle || now < s.after then s
    else
      var states := States(s.peers);
      var c := Choose(self, s.room, states, Usable(states));
      var d := Decide(self, s.room, c);
      if d != Stay && Waiting(s, c, now) then s else CarryOut(s, d, now, accepted)
  }

  /** An invitation counts only while it is waited for, from the peer and into the room that were asked for. */
  predicate Expected(s: Session, from: Peer, room: RoomId) {
    && s.asked.Some? && s.operation == Idle && s.room.None?
    && s.asked.value.issuer == from && s.asked.value.room == room
    && from in s.peers && s.peers[from].state.room == Some(room)
  }

  function Invited(s: Session, from: Peer, room: RoomId, now: int, accepted: bool): Session {
    if !Expected(s, from, room) then s
    else if accepted then s.(operation := Joining)
    else s.(operation := Idle, asked := None, after := now + 5000)
  }

  /** The server's answer; a join into another room than the one asked for makes the client connect anew. */
  function Answered(s: Session, room: RoomId, now: int): Session {
    match s.operation
    case Creating => s.(operation := Idle, room := Some(room), asked := None, after := now + 1000)
    case Joining =>
      if s.asked.None? || s.asked.value.room != room then s.(operation := Idle)
      else s.(operation := Idle, room := Some(room), asked := None, after := now + 1000)
    case Leaving => s.(operation := Idle, after := now + 1000)
    case _ => s
  }

  class Recovery {
    const self: Peer
    var room: Option<RoomId>
    var operation: Operation
    var peers: map<Peer, Seen>
    var asked: Option<Asked>
    var after: int

    function View(): Session
      reads this
    {
      Session(room, operation, peers, asked, after)
    }

    constructor (self: Peer)
      ensures this.self == self && View() == Session(None, Idle, map[], None, 0)
    {
      this.self, room, operation, peers, asked, after := self, None, Idle, map[], None, 0;
    }

    method ForgetSilent(linked: set<Peer>, now: int)
      modifies `peers
      ensures peers == Live(old(peers), linked, now)
    {
      var left := peers.Keys;
      while left != {}
        invariant left <= old(peers).Keys
        invariant peers == map p | p in old(peers)
                                   && (p in left || (now - old(peers)[p].at <= PEER_TIMEOUT_MS && p in linked)) ::
                                     old(peers)[p]
        decreases |left|
      {
        var p :| p in left;
        if now - peers[p].at > PEER_TIMEOUT_MS || p !in linked { peers := peers - {p}; }
        left := left - {p};
      }
    }

    /** One pass over the peers in whatever order their table iterates. */
    method Scan() returns (c: Choice)
      ensures c == Choose(self, room, States(peers), Usable(States(peers)))
    {
      ghost var states := States(peers);
      var best, issuer, leader := room, None, self;
      FirstChoice(self, room, states);
      var left := peers.Keys;
      assert Usable(states) - left == {};
      while left != {}
        invariant left <= states.Keys
        invariant Choice(best, issuer, leader) == Choose(self, room, states, Usable(states) - left)
        decreases |left|
      {
        var p :| p in left;
        var state := peers[p].state;
        UsableStep(states, left, p);
        if state.here {
          NextChoice(self, room, states, Usable(states) - left, p, Choice(best, issuer, leader));
          if p < leader { leader := p; }
          if state.room.Some? && (best.None? || state.room.value < best.value
              || (state.room == best && (issuer.None? || p < issuer.value))) {
            best, issuer := state.room, Some(p);
          }
        }
        left := left - {p};
      }
      assert Usable(states) - left == Usable(states);
      c := Choice(best, issuer, leader);
    }

    method Recover(linked: set<Peer>, connected: bool, now: int, accepted: bool)
      modifies this
      ensures View() == Recovered(self, old(View()), linked, connected, now, accepted)
    {
      ForgetSilent(linked, now);
      if !connected || operation != Idle || now < after { return; }
      var c := Scan();
      ghost var s, d := View(), Decide(self, room, c);
      assert Recovered(self, old(View()), linked, connected, now, accepted)
        == if d != Stay && Waiting(s, c, now) then s else CarryOut(s, d, now, accepted);
      if room.Some? && room == c.room {
        asked := None;
        return;
      }
      if asked.Some? {
        if now - asked.value.at < JOIN_TIMEOUT_MS && c.issuer == Some(asked.value.issuer)
          && c.room == Some(asked.value.room) {
          return;
        }
        asked := None;
      }
      if room.Some? {
        operation, room := if accepted then Leaving else Idle, None;
        if !accepted { after := now + 5000; }
      } else if c.room.Some? && c.issuer.Some? {
        if accepted { asked := Some(Asked(c.issuer.value, c.room.value, now)); } else { after := now + 3000; }
      } else if c.leader == self {
        operation := if accepted then Creating else Idle;
        if !accepted { after := now + 5000; }
      }
    }

    method HandleInvitation(from: Peer, invited: RoomId, now: int, accepted: bool)
      modifies this
      ensures View() == Invited(old(View()), from, invited, now, accepted)
    {
      if asked.None? || operation != Idle || room.Some? || asked.value.issuer != from || asked.value.room != invited
         || from !in peers || peers[from].state.room != Some(invited) {
        return;
      }
      operation := Joining;
      if !accepted { operation, asked, after := Idle, None, now + 5000; }
    }

    method HandleResponse(joined: RoomId, now: int)
      modifies this
      ensures View() == Answered(old(View()), joined, now)
    {
      if operation == Idle || operation == Other { return; }
      var was := operation;
      operation := Idle;
      if was == Creating || was == Joining {
        if was == Joining && (asked.None? || asked.value.room != joined) { return; }
        room, asked := Some(joined), None;
      }
      after := now + 1000;
    }
  }

  // ---- why any order gives the same choice ----

  lemma LeastIs(s: set<nat>, x: nat)
    requires IsLeast(s, x)
    ensures LeastOf(s) == Some(x)
  {
    assert IsLeast(s, Least(s));
  }

  lemma FirstChoice(self: Peer, own: Option<RoomId>, peers: map<Peer, State>)
    ensures Choose(self, own, peers, {}) == Choice(own, None, self)
  {
    if own.Some? { LeastIs({own.value}, own.value); }
    assert Rooms(own, peers, {}) == if own.Some? then {own.value} else {};
    assert Holders(peers, {}, own) == {};
    LeastIs({self} + {}, self);
  }

  function Improves(best: Option<RoomId>, issuer: Option<Peer>, p: Peer, room: Option<RoomId>): bool {
    room.Some? && (best.None? || room.value < best.value || (room == best && (issuer.None? || p < issuer.value)))
  }

  lemma RoomsGrow(own: Option<RoomId>, peers: map<Peer, State>, among: set<Peer>, p: Peer)
    requires p in peers
    ensures Rooms(own, peers, among + {p})
      == Rooms(own, peers, among) + if peers[p].room.Some? then {peers[p].room.value} else {}
  {
  }

  /** The best room after one more peer. */
  lemma NextRoom(own: Option<RoomId>, peers: map<Peer, State>, among: set<Peer>, p: Peer, best: Option<RoomId>)
    requires p in peers && best == LeastOf(Rooms(own, peers, among))
    ensures LeastOf(Rooms(own, peers, among + {p}))
      == if peers[p].room.Some? && (best.None? || peers[p].room.value < best.value) then peers[p].room else best
  {
    RoomsGrow(own, peers, among, p);
    var after := Rooms(own, peers, among + {p});
    if peers[p].room.Some? {
      var r := peers[p].room.value;
      if best.None? || r < best.value { LeastIs(after, r); } else { LeastIs(after, best.value); }
    } else {
      assert after == Rooms(own, peers, among);
    }
  }

  lemma NextIssuer(own: Option<RoomId>, peers: map<Peer, State>, among: set<Peer>, p: Peer, best: Option<RoomId>,
                   issuer: Option<Peer>)
    requires p in peers && p !in among && best == LeastOf(Rooms(own, peers, among))
      && issuer == LeastOf(Holders(peers, among, best))
    ensures var room := LeastOf(Rooms(own, peers, among + {p}));
      LeastOf(Holders(peers, among + {p}, room)) == if Improves(best, issuer, p, peers[p].room) then Some(p) else issuer
  {
    NextRoom(own, peers, among, p, best);
    var room := LeastOf(Rooms(own, peers, among + {p}));
    var before, after := Holders(peers, among, room), Holders(peers, among + {p}, room);
    if peers[p].room.Some? && (best.None? || peers[p].room.value < best.value) {
      NoHolderYet(own, peers, among, best, room);
      assert after == {p};
      LeastIs(after, p);
    } else if peers[p].room.Some? && peers[p].room == best {
      assert after == before + {p};
      if issuer.None? || p < issuer.value { LeastIs(after, p); } else { LeastIs(after, issuer.value); }
    } else {
      assert after == before;
    }
  }

  lemma HolderAbove(own: Option<RoomId>, peers: map<Peer, State>, among: set<Peer>, best: Option<RoomId>,
                    room: Option<RoomId>, q: Peer)
    requires best == LeastOf(Rooms(own, peers, among)) && room.Some? && q in Holders(peers, among, room)
    ensures best.Some? && best.value <= room.value
  {
    assert room.value in Rooms(own, peers, among);
  }

  lemma NoHolderYet(own: Option<RoomId>, peers: map<Peer, State>, among: set<Peer>, best: Option<RoomId>,
                    room: Option<RoomId>)
    requires best == LeastOf(Rooms(own, peers, among)) && room.Some? && (best.None? || room.value < best.value)
    ensures Holders(peers, among, room) == {}
  {
    if Holders(peers, among, room) != {} {
      var q :| q in Holders(peers, among, room);
      HolderAbove(own, peers, among, best, room, q);
    }
  }

  lemma UsableStep(states: map<Peer, State>, left: set<Peer>, p: Peer)
    requires p in left && p in states
    ensures p !in Usable(states) - left
    ensures Usable(states) - (left - {p})
      == if states[p].here then (Usable(states) - left) + {p} else Usable(states) - left
  {
  }

  lemma NextChoice(self: Peer, own: Option<RoomId>, peers: map<Peer, State>, among: set<Peer>, p: Peer, c: Choice)
    requires p in peers && p !in among && c == Choose(self, own, peers, among)
    ensures Choose(self, own, peers, among + {p})
      == (if Improves(c.room, c.issuer, p, peers[p].room)
        then Choice(peers[p].room, Some(p), if p < c.leader then p else c.leader)
          else c.(leader := if p < c.leader then p else c.leader))
  {
    NextRoom(own, peers, among, p, c.room);
    NextIssuer(own, peers, among, p, c.room, c.issuer);
    assert {self} + (among + {p}) == ({self} + among) + {p};
    LeastIs({self} + (among + {p}), if p < c.leader then p else c.leader);
  }
}
