/** Rooms of at most six members, entered with one-shot invitations. */
module Rooms {
  import opened Wrappers
  import opened ServerMessages

  const ROOM_CAPACITY := 6
  const MAX_ROOMS := 16
  const MAX_INVITATIONS_PER_ROOM := 16
  const INVITATION_LIFETIME_SECONDS := 10 * 60

  datatype Invitation = Invitation(issuer: Id, expiresAt: int)

  datatype Room = Room(peers: map<Id, Id>, invitations: map<Id, Invitation>)

  datatype Member = Member(room: Id, peer: Id)

  datatype Registry = Registry(members: map<Id, Member>, rooms: map<Id, Room>)

  /** Identifiers as the generator hands them out, once they are free. */
  datatype Drawn = Drawn(room: Id, peer: Id, token: Option<Id>)

  /** State after a request, the replies in order, and the sessions that are told `notice` afterwards. */
  datatype Handled = Handled(registry: Registry, replies: seq<Delivery>, told: map<Id, Id>, notice: Message)

  function RoomOf(reg: Registry, session: Id): Option<Id> {
    if session in reg.members then Some(reg.members[session].room) else None
  }

  predicate CanJoin(reg: Registry, room: Option<Id>) {
    room.Some? && room.value in reg.rooms && |reg.rooms[room.value].peers| < ROOM_CAPACITY
  }

  /** A member's room is always there; looking up another would make an empty one. */
  function Found(reg: Registry, room: Id): Room {
    if room in reg.rooms then reg.rooms[room] else Room(map[], map[])
  }

  // ---- the operations as functions ----

  function Unexpired(invitations: map<Id, Invitation>, now: int): map<Id, Invitation> {
    map t | t in invitations && invitations[t].expiresAt > now :: invitations[t]
  }

  function Expire(reg: Registry, now: int): Registry {
    reg.(rooms := map r | r in reg.rooms :: reg.rooms[r].(invitations := Unexpired(reg.rooms[r].invitations, now)))
  }

  /** `CreateInvitation` after the expired ones are gone. */
  function Issue(reg: Registry, session: Id, room: Id, now: int, token: Option<Id>): (Registry, Result<Id, Code>) {
    if session !in reg.members then (reg, Failure(NotInRoom))
    else if reg.members[session].room != room then (reg, Failure(RoomMismatch))
    else if |Found(reg, room).invitations| >= MAX_INVITATIONS_PER_ROOM then (reg, Failure(ResourceLimit))
    else match token
      case None => (reg, Failure(InternalError))
      case Some(t) =>
        var invitation := Invitation(reg.members[session].peer, now + INVITATION_LIFETIME_SECONDS * 1000);
        (reg.(rooms :=
          reg.rooms[room := Found(reg, room).(invitations := Found(reg, room).invitations[t := invitation])]),
            Success(t))
  }

  function Failed(reg: Registry, session: Id, id: Id, code: Code): Handled {
    Handled(reg, [Delivery(session, Refused(id, code))], map[], PeerJoined(0, 0))
  }

  function Replied(reg: Registry, session: Id, message: Message): Handled {
    Handled(reg, [Delivery(session, message)], map[], PeerJoined(0, 0))
  }

  function Create(reg: Registry, session: Id, id: Id, drawn: Drawn): Handled {
    if session in reg.members then Failed(reg, session, id, AlreadyInRoom)
    else if |reg.rooms| >= MAX_ROOMS then Failed(reg, session, id, ResourceLimit)
    else
      Replied(Registry(reg.members[session := Member(drawn.room, drawn.peer)],
                       reg.rooms[drawn.room := Room(map[drawn.peer := session], map[])]),
              session, RoomCreated(id, drawn.room, drawn.peer))
  }

  function Join(reg: Registry, session: Id, id: Id, room: Id, token: Id, drawn: Drawn): Handled {
    if session in reg.members then Failed(reg, session, id, AlreadyInRoom)
    else if room !in reg.rooms || token !in reg.rooms[room].invitations then Failed(reg, session, id, InvalidInvitation)
    else if |reg.rooms[room].peers| >= ROOM_CAPACITY then Failed(reg, session, id, RoomFull)
    else
      var entered := reg.rooms[room];
      Handled(Registry(reg.members[session := Member(room, drawn.peer)],
                       reg.rooms[room := Room(entered.peers[drawn.peer := session], entered.invitations - {token})]),
              [Delivery(session, RoomJoined(id, room, drawn.peer, entered.peers.Keys))],
              entered.peers, PeerJoined(room, drawn.peer))
  }

  function Invite(reg: Registry, session: Id, id: Id, room: Id, now: int, drawn: Drawn): Handled {
    match Issue(reg, session, room, now, drawn.token)
    case (_, Failure(code)) => Failed(reg, session, id, code)
    case (issued, Success(t)) => Replied(issued, session, InviteCreated(id, room, t, INVITATION_LIFETIME_SECONDS))
  }

  /** The tokens a leaving member does not take with it. */
  function NotIssuedBy(invitations: map<Id, Invitation>, peer: Id): map<Id, Invitation> {
    map t | t in invitations && invitations[t].issuer != peer :: invitations[t]
  }

  function Leave(reg: Registry, session: Id, disconnected: bool): Handled {
    if session !in reg.members then Handled(reg, [], map[], PeerJoined(0, 0))
    else
      var m := reg.members[session];
      var members := reg.members - {session};
      if m.room !in reg.rooms then Handled(Registry(members, reg.rooms), [], map[], PeerJoined(0, 0))
      else
        var left := Room(reg.rooms[m.room].peers - {m.peer}, NotIssuedBy(reg.rooms[m.room].invitations, m.peer));
        Handled(Registry(members, if left.peers == map[] then reg.rooms - {m.room} else reg.rooms[m.room := left]),
                [], left.peers, PeerLeft(m.room, m.peer, disconnected))
  }

  function LeaveRoom(reg: Registry, session: Id, id: Id, room: Id): Handled {
    if session !in reg.members then Failed(reg, session, id, NotInRoom)
    else if reg.members[session].room != room then Failed(reg, session, id, RoomMismatch)
    else Leave(reg, session, false).(replies := [Delivery(session, RoomLeft(id, room))])
  }

  function Signal(reg: Registry, session: Id, id: Id, room: Id, to: Id, payload: seq<byte>): Handled {
    if session !in reg.members then Failed(reg, session, id, NotInRoom)
    else if reg.members[session].room != room then Failed(reg, session, id, RoomMismatch)
    else if to == reg.members[session].peer then Failed(reg, session, id, InvalidTarget)
    else if to !in Found(reg, room).peers then Failed(reg, session, id, PeerNotFound)
    else
      Handled(reg, [Delivery(Found(reg, room).peers[to], SignalReceived(room, reg.members[session].peer, payload)),
                    Delivery(session, SignalAccepted(id))], map[], PeerJoined(0, 0))
  }

  function Respond(reg: Registry, session: Id, id: Id, request: Request, now: int, drawn: Drawn): Handled {
    match request
    case RoomCreate => Create(reg, session, id, drawn)
    case RoomJoin(room, token) => Join(reg, session, id, room, token, drawn)
    case InviteCreate(room) => Invite(reg, session, id, room, now, drawn)
    case RoomLeave(room) => LeaveRoom(reg, session, id, room)
    case SignalSend(room, to, payload) => Signal(reg, session, id, room, to, payload)
    case _ => if session in reg.members then Failed(reg, session, id, UnknownType)
      else Failed(reg, session, id, NotInRoom)
  }

  function Handle(reg: Registry, session: Id, id: Id, request: Request, now: int, drawn: Drawn): Handled {
    Respond(Expire(reg, now), session, id, request, now, drawn)
  }

  // ---- the invariant ----

  predicate MemberOk(reg: Registry, s: Id)
    requires s in reg.members
  {
    var m := reg.members[s];
    m.room in reg.rooms && m.peer in reg.rooms[m.room].peers && reg.rooms[m.room].peers[m.peer] == s
  }

  predicate RoomOk(reg: Registry, r: Id)
    requires r in reg.rooms
  {
    var room := reg.rooms[r];
    && 1 <= |room.peers| <= ROOM_CAPACITY && |room.invitations| <= MAX_INVITATIONS_PER_ROOM
    && (forall p {:trigger room.peers[p]} | p in room.peers ::
          room.peers[p] in reg.members && reg.members[room.peers[p]] == Member(r, p))
    && (forall t {:trigger room.invitations[t]} | t in room.invitations :: room.invitations[t].issuer in room.peers)
  }

  /** Memberships and rooms are inverse, rooms are never empty, and every token's issuer is a member. */
  predicate Consistent(reg: Registry) {
    && |reg.rooms| <= MAX_ROOMS
    && (forall s {:trigger MemberOk(reg, s)} | s in reg.members :: MemberOk(reg, s))
    && (forall r {:trigger RoomOk(reg, r)} | r in reg.rooms :: RoomOk(reg, r))
  }

  /** The generator retries until an identifier is free where it will be inserted. */
  predicate Free(reg: Registry, request: Request, drawn: Drawn) {
    match request
    case RoomCreate => drawn.room !in reg.rooms
    case RoomJoin(room, _) => room in reg.rooms ==> drawn.peer !in reg.rooms[room].peers
    case _ => true
  }

  // ---- the registry ----

  class RoomRegistry {
    var members: map<Id, Member>
    var rooms: map<Id, Room>

    function View(): Registry
      reads this
    {
      Registry(members, rooms)
    }

    constructor ()
      ensures View() == Registry(map[], map[])
    {
      members, rooms := map[], map[];
    }

    method Clear()
      modifies this
      ensures View() == Registry(map[], map[])
    {
      members, rooms := map[], map[];
    }

    static method DropExpired(invitations: map<Id, Invitation>, now: int) returns (left: map<Id, Invitation>)
      ensures left == Unexpired(invitations, now)
    {
      left := invitations;
      var tokens := invitations.Keys;
      while tokens != {}
        invariant tokens <= invitations.Keys
        invariant left == map t | t in invitations && (t in tokens || invitations[t].expiresAt > now) :: invitations[t]
        decreases |tokens|
      {
        var t :| t in tokens;
        if invitations[t].expiresAt <= now { left := left - {t}; }
        tokens := tokens - {t};
      }
    }

    method ExpireInvitations(now: int)
      modifies `rooms
      ensures View() == Expire(old(View()), now)
    {
      var names := rooms.Keys;
      while names != {}
        invariant names <= old(rooms).Keys == rooms.Keys
        invariant forall r <- rooms ::
          rooms[r] == if r in names then old(rooms)[r]
            else old(rooms)[r].(invitations := Unexpired(old(rooms)[r].invitations, now))
        decreases |names|
      {
        var r :| r in names;
        var left := DropExpired(rooms[r].invitations, now);
        rooms := rooms[r := rooms[r].(invitations := left)];
        names := names - {r};
      }
    }

    method CreateInvitation(session: Id, room: Id, now: int, token: Option<Id>) returns (result: Result<Id, Code>)
      modifies `rooms
      ensures (View(), result) == Issue(Expire(old(View()), now), session, room, now, token)
    {
      ExpireInvitations(now);
      result := IssueNow(session, room, now, token);
    }

    method IssueNow(session: Id, room: Id, now: int, token: Option<Id>) returns (result: Result<Id, Code>)
      modifies `rooms
      ensures (View(), result) == Issue(old(View()), session, room, now, token)
    {
      if session !in members { return Failure(NotInRoom); }
      if members[session].room != room { return Failure(RoomMismatch); }
      var found := Found(View(), room);
      if |found.invitations| >= MAX_INVITATIONS_PER_ROOM { return Failure(ResourceLimit); }
      if token.None? { return Failure(InternalError); }
      var invitation := Invitation(members[session].peer, now + INVITATION_LIFETIME_SECONDS * 1000);
      rooms := rooms[room := found.(invitations := found.invitations[token.value := invitation])];
      result := Success(token.value);
    }

    static method Tell(peers: map<Id, Id>, message: Message) returns (out: seq<Delivery>)
      ensures ToAll(out, peers, message)
    {
      out := [];
      var left := peers.Keys;
      while left != {}
        invariant left <= peers.Keys && |out| == |peers| - |left|
        invariant forall d <- out :: d.message == message && d.session in peers.Values
        invariant forall p <- peers :: p in left || Delivery(peers[p], message) in out
        decreases |left|
      {
        var p :| p in left;
        var next := Delivery(peers[p], message);
        assert next in out + [next];
        out := out + [next];
        left := left - {p};
      }
    }

    static method WithoutIssuer(invitations: map<Id, Invitation>, peer: Id) returns (left: map<Id, Invitation>)
      ensures left == NotIssuedBy(invitations, peer)
    {
      left := invitations;
      var tokens := invitations.Keys;
      while tokens != {}
        invariant tokens <= invitations.Keys
        invariant left == map t | t in invitations && (t in tokens || invitations[t].issuer != peer) :: invitations[t]
        decreases |tokens|
      {
        var t :| t in tokens;
        if invitations[t].issuer == peer { left := left - {t}; }
        tokens := tokens - {t};
      }
    }

    /** Takes the member and its tokens out of the room, which stays even when it is empty. */
    method TakeOut(m: Member) returns (left: Room)
      requires m.room in rooms
      modifies `rooms
      ensures left == Room(old(rooms)[m.room].peers - {m.peer}, NotIssuedBy(old(rooms)[m.room].invitations, m.peer))
      ensures rooms == old(rooms)[m.room := left]
    {
      var invitations := WithoutIssuer(rooms[m.room].invitations, m.peer);
      left := Room(rooms[m.room].peers - {m.peer}, invitations);
      rooms := rooms[m.room := left];
    }

    method LeaveAs(session: Id, disconnected: bool) returns (out: seq<Delivery>)
      modifies this
      ensures var h := Leave(old(View()), session, disconnected);
        View() == h.registry && ToAll(out, h.told, h.notice)
    {
      out := [];
      if session !in members { return; }
      var m := members[session];
      members := members - {session};
      if m.room !in rooms { return; }
      var left := TakeOut(m);
      out := Tell(left.peers, PeerLeft(m.room, m.peer, disconnected));
      if left.peers == map[] { rooms := rooms - {m.room}; }
    }

    method Disconnect(session: Id) returns (out: seq<Delivery>)
      modifies this
      ensures var h := Leave(old(View()), session, true);
        View() == h.registry && ToAll(out, h.told, h.notice)
    {
      out := LeaveAs(session, true);
    }

    method CreateRoom(session: Id, id: Id, drawn: Drawn) returns (out: seq<Delivery>)
      modifies this
      ensures Answers(out, Create(old(View()), session, id, drawn), View())
    {
      if session in members { return [Delivery(session, Refused(id, AlreadyInRoom))]; }
      if |rooms| >= MAX_ROOMS { return [Delivery(session, Refused(id, ResourceLimit))]; }
      rooms := rooms[drawn.room := Room(map[drawn.peer := session], map[])];
      members := members[session := Member(drawn.room, drawn.peer)];
      out := [Delivery(session, RoomCreated(id, drawn.room, drawn.peer))];
    }

    method JoinRoom(session: Id, id: Id, room: Id, token: Id, drawn: Drawn) returns (out: seq<Delivery>)
      modifies this
      ensures Answers(out, Join(old(View()), session, id, room, token, drawn), View())
    {
      if session in members { return [Delivery(session, Refused(id, AlreadyInRoom))]; }
      if room !in rooms || token !in rooms[room].invitations {
        return [Delivery(session, Refused(id, InvalidInvitation))];
      }
      if |rooms[room].peers| >= ROOM_CAPACITY { return [Delivery(session, Refused(id, RoomFull))]; }
      var entered := rooms[room];
      var notices := Tell(entered.peers, PeerJoined(room, drawn.peer));
      out := [Delivery(session, RoomJoined(id, room, drawn.peer, entered.peers.Keys))] + notices;
      rooms := rooms[room := Room(entered.peers[drawn.peer := session], entered.invitations - {token})];
      members := members[session := Member(room, drawn.peer)];
    }

    method SendSignal(session: Id, id: Id, room: Id, to: Id, payload: seq<byte>) returns (out: seq<Delivery>)
      ensures Answers(out, Signal(View(), session, id, room, to, payload), View())
    {
      if session !in members { return [Delivery(session, Refused(id, NotInRoom))]; }
      if members[session].room != room { return [Delivery(session, Refused(id, RoomMismatch))]; }
      if to == members[session].peer { return [Delivery(session, Refused(id, InvalidTarget))]; }
      if to !in Found(View(), room).peers { return [Delivery(session, Refused(id, PeerNotFound))]; }
      out := [Delivery(Found(View(), room).peers[to], SignalReceived(room, members[session].peer, payload)),
              Delivery(session, SignalAccepted(id))];
    }

    method LeaveAsked(session: Id, id: Id, room: Id) returns (out: seq<Delivery>)
      modifies this
      ensures Answers(out, LeaveRoom(old(View()), session, id, room), View())
    {
      if session !in members { return [Delivery(session, Refused(id, NotInRoom))]; }
      if members[session].room != room { return [Delivery(session, Refused(id, RoomMismatch))]; }
      var notices := LeaveAs(session, false);
      out := [Delivery(session, RoomLeft(id, room))] + notices;
    }

    method InviteAsked(session: Id, id: Id, room: Id, now: int, drawn: Drawn) returns (out: seq<Delivery>)
      modifies `rooms
      ensures Answers(out, Invite(old(View()), session, id, room, now, drawn), View())
    {
      var result := IssueNow(session, room, now, drawn.token);
      match result
      case Failure(code) => out := [Delivery(session, Refused(id, code))];
      case Success(t) => out := [Delivery(session, InviteCreated(id, room, t, INVITATION_LIFETIME_SECONDS))];
    }

    method HandleRequest(session: Id, id: Id, request: Request, now: int, drawn: Drawn) returns (out: seq<Delivery>)
      modifies this
      ensures Answers(out, Handle(old(View()), session, id, request, now, drawn), View())
    {
      ExpireInvitations(now);
      match request {
        case RoomCreate => out := CreateRoom(session, id, drawn);
        case RoomJoin(room, token) => out := JoinRoom(session, id, room, token, drawn);
        case InviteCreate(room) => out := InviteAsked(session, id, room, now, drawn);
        case RoomLeave(room) => out := LeaveAsked(session, id, room);
        case SignalSend(room, to, payload) => out := SendSignal(session, id, room, to, payload);
        case _ => out := [Delivery(session, Refused(id, if session in members then UnknownType else NotInRoom))];
      }
    }
  }

  /** The replies in order, then the notices in any order. */
  predicate Answers(out: seq<Delivery>, h: Handled, after: Registry) {
    && after == h.registry && |h.replies| <= |out| && out[..|h.replies|] == h.replies
    && ToAll(out[|h.replies|..], h.told, h.notice)
  }
}
