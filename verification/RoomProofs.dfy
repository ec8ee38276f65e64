/** What every run of the room registry keeps, and where every invitation ends. */
module RoomProofs {
  import opened Wrappers
  import opened ServerMessages
  import opened Rooms

  // ---- inverse indexes ----

  lemma ExpireKeeps(reg: Registry, now: int)
    requires Consistent(reg)
    ensures Consistent(Expire(reg, now))
  {
    var e := Expire(reg, now);
    assert e.rooms.Keys == reg.rooms.Keys;
    SameSize(e.rooms, reg.rooms);
    forall s | s in e.members ensures MemberOk(e, s) { assert MemberOk(reg, s); }
    forall r | r in e.rooms ensures RoomOk(e, r) {
      assert RoomOk(reg, r);
      SmallerMap(e.rooms[r].invitations, reg.rooms[r].invitations);
    }
  }

  lemma SameSize<A, B>(a: map<Id, A>, b: map<Id, B>)
    requires a.Keys == b.Keys
    ensures |a| == |b|
  {
    assert |a| == |a.Keys| && |b| == |b.Keys|;
  }

  lemma SmallerMap<A>(a: map<Id, A>, b: map<Id, A>)
    requires a.Keys <= b.Keys
    ensures |a| <= |b|
  {
    SmallerSet(a.Keys, b.Keys);
  }

  lemma IssueKeeps(reg: Registry, session: Id, room: Id, now: int, token: Option<Id>)
    requires Consistent(reg)
    ensures Consistent(Issue(reg, session, room, now, token).0)
  {
    var (n, result) := Issue(reg, session, room, now, token);
    if result.Success? {
      assert MemberOk(reg, session) && RoomOk(reg, room);
      forall s | s in n.members ensures MemberOk(n, s) { assert MemberOk(reg, s); }
      forall r | r in n.rooms ensures RoomOk(n, r) { assert RoomOk(reg, r); }
      SameSize(n.rooms, reg.rooms);
    }
  }

  lemma CreateKeeps(reg: Registry, session: Id, id: Id, drawn: Drawn)
    requires Consistent(reg) && drawn.room !in reg.rooms
    ensures Consistent(Create(reg, session, id, drawn).registry)
  {
    if session !in reg.members && |reg.rooms| < MAX_ROOMS {
      var n := Create(reg, session, id, drawn).registry;
      forall s | s in n.members ensures MemberOk(n, s) { if s != session { assert MemberOk(reg, s); } }
      forall r | r in n.rooms ensures RoomOk(n, r) { if r != drawn.room { assert RoomOk(reg, r); } }
    }
  }

  predicate Enters(reg: Registry, session: Id, room: Id, token: Id) {
    && session !in reg.members && room in reg.rooms && token in reg.rooms[room].invitations
    && |reg.rooms[room].peers| < ROOM_CAPACITY
  }

  lemma JoinKeeps(reg: Registry, session: Id, id: Id, room: Id, token: Id, drawn: Drawn)
    requires Consistent(reg) && (room in reg.rooms ==> drawn.peer !in reg.rooms[room].peers)
    ensures Consistent(Join(reg, session, id, room, token, drawn).registry)
  {
    if Enters(reg, session, room, token) {
      var n := Join(reg, session, id, room, token, drawn).registry;
      assert RoomOk(reg, room);
      SmallerMap(n.rooms[room].invitations, reg.rooms[room].invitations);
      forall s | s in n.members ensures MemberOk(n, s) { if s != session { assert MemberOk(reg, s); } }
      forall r | r in n.rooms ensures RoomOk(n, r) { assert RoomOk(reg, r); }
      SameSize(n.rooms, reg.rooms);
    }
  }

  /** The room after a member left it. */
  function LeftRoom(reg: Registry, m: Member): Room
    requires m.room in reg.rooms
  {
    Room(reg.rooms[m.room].peers - {m.peer}, NotIssuedBy(reg.rooms[m.room].invitations, m.peer))
  }

  lemma LeftRoomOk(reg: Registry, session: Id)
    requires Consistent(reg) && session in reg.members
    ensures var m := reg.members[session];
      && m.room in reg.rooms && |LeftRoom(reg, m).peers| < ROOM_CAPACITY
      && |LeftRoom(reg, m).invitations| <= MAX_INVITATIONS_PER_ROOM
      && (forall p {:trigger LeftRoom(reg, m).peers[p]} | p in LeftRoom(reg, m).peers ::
            var s := LeftRoom(reg, m).peers[p]; s != session && s in reg.members && reg.members[s] == Member(m.room, p))
      && (forall t {:trigger LeftRoom(reg, m).invitations[t]} | t in LeftRoom(reg, m).invitations ::
            LeftRoom(reg, m).invitations[t].issuer in LeftRoom(reg, m).peers)
  {
    var m := reg.members[session];
    assert MemberOk(reg, session) && RoomOk(reg, m.room);
    SmallerMap(LeftRoom(reg, m).invitations, reg.rooms[m.room].invitations);
    var left := LeftRoom(reg, m);
    assert left.peers.Keys == reg.rooms[m.room].peers.Keys - {m.peer};
    assert |left.peers| == |left.peers.Keys| && |reg.rooms[m.room].peers| == |reg.rooms[m.room].peers.Keys|;
    forall p | p in left.peers
      ensures left.peers[p] != session && left.peers[p] in reg.members
        && reg.members[left.peers[p]] == Member(m.room, p)
    {
      assert left.peers[p] == reg.rooms[m.room].peers[p];
    }
  }

  lemma LeaveKeeps(reg: Registry, session: Id, disconnected: bool)
    requires Consistent(reg)
    ensures Consistent(Leave(reg, session, disconnected).registry)
  {
    if session in reg.members {
      var m := reg.members[session];
      assert MemberOk(reg, session);
      LeftRoomOk(reg, session);
      var n := Leave(reg, session, disconnected).registry;
      SmallerMap(n.rooms, reg.rooms);
      forall s | s in n.members ensures MemberOk(n, s) { OtherMember(reg, session, disconnected, s); }
      forall r | r in n.rooms ensures RoomOk(n, r) {
        if r != m.room { OtherRoom(reg, session, disconnected, r); }
      }
    }
  }

  lemma OtherMember(reg: Registry, session: Id, disconnected: bool, s: Id)
    requires Consistent(reg) && session in reg.members && s in reg.members && s != session
    ensures MemberOk(Leave(reg, session, disconnected).registry, s)
  {
    var m, o := reg.members[session], reg.members[s];
    assert MemberOk(reg, session) && MemberOk(reg, s);
    if o.room == m.room {
      assert o.peer != m.peer;
      assert o.peer in LeftRoom(reg, m).peers;
    }
  }

  lemma OtherRoom(reg: Registry, session: Id, disconnected: bool, r: Id)
    requires Consistent(reg) && session in reg.members && r in reg.rooms && r != reg.members[session].room
    ensures var n := Leave(reg, session, disconnected).registry; r in n.rooms && RoomOk(n, r)
  {
    assert MemberOk(reg, session) && RoomOk(reg, r);
    var n := Leave(reg, session, disconnected).registry;
    forall p | p in n.rooms[r].peers
      ensures n.rooms[r].peers[p] in n.members && n.members[n.rooms[r].peers[p]] == Member(r, p)
    {
      assert n.rooms[r] == reg.rooms[r];
    }
  }

  /** Every request leaves the indexes inverse and the limits kept. */
  lemma HandleKeeps(reg: Registry, session: Id, id: Id, request: Request, now: int, drawn: Drawn)
    requires Consistent(reg) && Free(reg, request, drawn)
    ensures Consistent(Handle(reg, session, id, request, now, drawn).registry)
  {
    ExpireKeeps(reg, now);
    var e := Expire(reg, now);
    match request {
      case RoomCreate => CreateKeeps(e, session, id, drawn);
      case RoomJoin(room, token) => JoinKeeps(e, session, id, room, token, drawn);
      case InviteCreate(room) => IssueKeeps(e, session, room, now, drawn.token);
      case RoomLeave(room) => LeaveKeeps(e, session, false);
      case _ =>
    }
  }

  /** A newcomer that leaves again puts the room back, but for the invitation it used up. */
  lemma JoinThenLeave(reg: Registry, session: Id, id: Id, room: Id, token: Id, drawn: Drawn)
    requires Consistent(reg) && Enters(reg, session, room, token) && drawn.peer !in reg.rooms[room].peers
    ensures var back := Leave(Join(reg, session, id, room, token, drawn).registry, session, false).registry;
      && back.members == reg.members
      && back.rooms == reg.rooms[room := reg.rooms[room].(invitations := reg.rooms[room].invitations - {token})]
  {
    assert RoomOk(reg, room);
    var n := Join(reg, session, id, room, token, drawn).registry;
    var left := LeftRoom(n, Member(room, drawn.peer));
    assert left.peers == reg.rooms[room].peers;
    assert left.invitations == reg.rooms[room].invitations - {token};
    assert left.peers != map[];
    assert n.members - {session} == reg.members;
    assert n.rooms[room := left] == reg.rooms[room := left];
  }

  /** Whoever enters a room is told of exactly the members that are told of the newcomer; at most five. */
  lemma JoinIntroduces(reg: Registry, session: Id, id: Id, room: Id, token: Id, drawn: Drawn)
    requires Consistent(reg) && Enters(reg, session, room, token) && drawn.peer !in reg.rooms[room].peers
    ensures var h := Join(reg, session, id, room, token, drawn);
      && h.replies == [Delivery(session, RoomJoined(id, room, drawn.peer, h.told.Keys))]
      && h.told.Keys == h.registry.rooms[room].peers.Keys - {drawn.peer} && |h.told.Keys| <= ROOM_CAPACITY - 1
      && (forall s :: s in h.told.Values <==> s in reg.members && reg.members[s].room == room)
  {
    var told := reg.rooms[room].peers;
    assert |told.Keys| == |told|;
    assert RoomOk(reg, room);
    forall s ensures s in told.Values <==> s in reg.members && reg.members[s].room == room {
      if s in reg.members && reg.members[s].room == room {
        assert MemberOk(reg, s); assert told[reg.members[s].peer] == s;
      }
    }
  }

  // ---- where every invitation ends ----

  /** The invitations that can still be used, each named by its room and token. */
  function Tokens(reg: Registry): set<(Id, Id)> {
    set r, t | r in reg.rooms && t in reg.rooms[r].invitations :: (r, t)
  }

  function Lapsed(reg: Registry, now: int): set<(Id, Id)> {
    set r, t | r in reg.rooms && t in reg.rooms[r].invitations && reg.rooms[r].invitations[t].expiresAt <= now :: (r, t)
  }

  function Revoked(reg: Registry, session: Id): set<(Id, Id)> {
    set r, t | session in reg.members && r == reg.members[session].room && r in reg.rooms
      && t in reg.rooms[r].invitations && reg.rooms[r].invitations[t].issuer == reg.members[session].peer :: (r, t)
  }

  datatype Ledger = Ledger(issued: nat, consumed: nat, expired: nat, revoked: nat)

  predicate Balanced(reg: Registry, l: Ledger) {
    l.issued == l.consumed + |Tokens(reg)| + l.expired + l.revoked
  }

  datatype Event =
    | Asked(session: Id, id: Id, request: Request, now: int, drawn: Drawn)
    | Granted(session: Id, room: Id, now: int, token: Option<Id>)
    | Dropped(session: Id)
    | Ticked(now: int)

  function Apply(reg: Registry, e: Event): Registry {
    match e
    case Asked(session, id, request, now, drawn) => Handle(reg, session, id, request, now, drawn).registry
    case Granted(session, room, now, token) => Issue(Expire(reg, now), session, room, now, token).0
    case Dropped(session) => Leave(reg, session, true).registry
    case Ticked(now) => Expire(reg, now)
  }

  predicate Legal(reg: Registry, e: Event) {
    match e
    case Asked(session, _, request, now, drawn) =>
      && Free(reg, request, drawn)
      && (request.InviteCreate? && drawn.token.Some? ==> NewToken(Expire(reg, now), request.room, drawn.token.value))
    case Granted(session, room, now, token) => token.Some? ==> NewToken(Expire(reg, now), room, token.value)
    case _ => true
  }

  predicate NewToken(reg: Registry, room: Id, token: Id) { (room, token) !in Tokens(reg) }

  function Count(l: Ledger, reg: Registry, session: Id, h: Handled): Ledger {
    if h.replies == [] then l
    else match h.replies[0].message
      case InviteCreated(_, _, _, _) => l.(issued := l.issued + 1)
      case RoomJoined(_, _, _, _) => l.(consumed := l.consumed + 1)
      case RoomLeft(_, _) => l.(revoked := l.revoked + |Revoked(reg, session)|)
      case _ => l
  }

  /** Counted from what callers see: tokens handed out, rooms entered, time passed, members gone. */
  function Record(reg: Registry, l: Ledger, e: Event): Ledger {
    match e
    case Asked(session, id, request, now, drawn) =>
      Count(l.(expired := l.expired + |Lapsed(reg, now)|), Expire(reg, now), session,
            Handle(reg, session, id, request, now, drawn))
    case Granted(session, room, now, token) =>
      var x := l.(expired := l.expired + |Lapsed(reg, now)|);
      if Issue(Expire(reg, now), session, room, now, token).1.Success? then x.(issued := x.issued + 1) else x
    case Dropped(session) => l.(revoked := l.revoked + |Revoked(reg, session)|)
    case Ticked(now) => l.(expired := l.expired + |Lapsed(reg, now)|)
  }

  lemma ExpireTokens(reg: Registry, now: int)
    ensures Lapsed(reg, now) <= Tokens(reg) && Tokens(Expire(reg, now)) == Tokens(reg) - Lapsed(reg, now)
  {
  }

  lemma IssueTokens(reg: Registry, session: Id, room: Id, now: int, token: Option<Id>)
    requires Consistent(reg)
    ensures var (n, result) := Issue(reg, session, room, now, token);
      Tokens(n) == if result.Success? then Tokens(reg) + {(room, result.value)} else Tokens(reg)
  {
    if session in reg.members && reg.members[session].room == room { assert MemberOk(reg, session); }
  }

  lemma CreateTokens(reg: Registry, session: Id, id: Id, drawn: Drawn)
    requires drawn.room !in reg.rooms
    ensures Tokens(Create(reg, session, id, drawn).registry) == Tokens(reg)
  {
  }

  lemma JoinTokens(reg: Registry, session: Id, id: Id, room: Id, token: Id, drawn: Drawn)
    ensures var h := Join(reg, session, id, room, token, drawn);
      Tokens(h.registry) == if Enters(reg, session, room, token) then Tokens(reg) - {(room, token)} else Tokens(reg)
    ensures Enters(reg, session, room, token) ==> (room, token) in Tokens(reg)
    ensures Enters(reg, session, room, token) <==>
      Join(reg, session, id, room, token, drawn).replies[0].message.RoomJoined?
  {
    if Enters(reg, session, room, token) {
      var n := Join(reg, session, id, room, token, drawn).registry;
      assert n.rooms == reg.rooms[room := n.rooms[room]];
      assert n.rooms[room].invitations == reg.rooms[room].invitations - {token};
    }
  }

  /** A room that disappears takes no token with it: the last member issued all that were left. */
  lemma LeaveTokens(reg: Registry, session: Id, disconnected: bool)
    requires Consistent(reg)
    ensures Revoked(reg, session) <= Tokens(reg)
    ensures Tokens(Leave(reg, session, disconnected).registry) == Tokens(reg) - Revoked(reg, session)
  {
    if session in reg.members {
      var m := reg.members[session];
      assert MemberOk(reg, session);
      LeftRoomOk(reg, session);
      var left := LeftRoom(reg, m);
      assert left.peers == map[] ==> left.invitations == map[] by {
        if left.peers == map[] { assert forall t :: t !in left.invitations; }
      }
      var n := Leave(reg, session, disconnected).registry;
      forall r, t ensures (r, t) in Tokens(n) <==> (r, t) in Tokens(reg) - Revoked(reg, session) {
        if r == m.room {
          assert (r, t) in Tokens(n) <==> t in left.invitations;
        }
      }
    }
  }

  lemma SizeWithout(a: set<(Id, Id)>, b: set<(Id, Id)>)
    requires b <= a
    ensures |a - b| == |a| - |b|
  {
    assert a == (a - b) + b;
  }

  lemma TickBalances(reg: Registry, l: Ledger, now: int)
    requires Balanced(reg, l)
    ensures Balanced(Expire(reg, now), l.(expired := l.expired + |Lapsed(reg, now)|))
  {
    ExpireTokens(reg, now);
    SizeWithout(Tokens(reg), Lapsed(reg, now));
  }

  lemma LeaveBalances(reg: Registry, l: Ledger, session: Id, disconnected: bool)
    requires Consistent(reg) && Balanced(reg, l)
    ensures Balanced(Leave(reg, session, disconnected).registry, l.(revoked := l.revoked + |Revoked(reg, session)|))
  {
    LeaveTokens(reg, session, disconnected);
    SizeWithout(Tokens(reg), Revoked(reg, session));
  }

  lemma IssueBalances(reg: Registry, l: Ledger, session: Id, room: Id, now: int, token: Option<Id>)
    requires Consistent(reg) && Balanced(reg, l) && (token.Some? ==> NewToken(reg, room, token.value))
    ensures var (n, result) := Issue(reg, session, room, now, token);
      Balanced(n, if result.Success? then l.(issued := l.issued + 1) else l)
  {
    IssueTokens(reg, session, room, now, token);
  }

  lemma JoinBalances(reg: Registry, l: Ledger, session: Id, id: Id, room: Id, token: Id, drawn: Drawn)
    requires Balanced(reg, l)
    ensures var h := Join(reg, session, id, room, token, drawn); Balanced(h.registry, Count(l, reg, session, h))
  {
    JoinTokens(reg, session, id, room, token, drawn);
    if Enters(reg, session, room, token) { SizeWithout(Tokens(reg), {(room, token)}); }
  }

  lemma InviteBalances(reg: Registry, l: Ledger, session: Id, id: Id, room: Id, now: int, drawn: Drawn)
    requires Consistent(reg) && Balanced(reg, l) && (drawn.token.Some? ==> NewToken(reg, room, drawn.token.value))
    ensures var h := Invite(reg, session, id, room, now, drawn); Balanced(h.registry, Count(l, reg, session, h))
  {
    IssueBalances(reg, l, session, room, now, drawn.token);
  }

  lemma LeaveRoomBalances(reg: Registry, l: Ledger, session: Id, id: Id, room: Id)
    requires Consistent(reg) && Balanced(reg, l)
    ensures var h := LeaveRoom(reg, session, id, room); Balanced(h.registry, Count(l, reg, session, h))
  {
    LeaveBalances(reg, l, session, false);
  }

  lemma CreateBalances(reg: Registry, l: Ledger, session: Id, id: Id, drawn: Drawn)
    requires Balanced(reg, l) && drawn.room !in reg.rooms
    ensures var h := Create(reg, session, id, drawn); Balanced(h.registry, Count(l, reg, session, h))
  {
    CreateTokens(reg, session, id, drawn);
  }

  lemma SignalBalances(reg: Registry, l: Ledger, session: Id, id: Id, room: Id, to: Id, payload: seq<byte>)
    requires Balanced(reg, l)
    ensures var h := Signal(reg, session, id, room, to, payload); Balanced(h.registry, Count(l, reg, session, h))
  {
  }

  lemma RespondBalances(reg: Registry, l: Ledger, session: Id, id: Id, request: Request, now: int, drawn: Drawn)
    requires Consistent(reg) && Balanced(reg, l) && Free(reg, request, drawn)
    requires request.InviteCreate? && drawn.token.Some? ==> NewToken(reg, request.room, drawn.token.value)
    ensures var h := Respond(reg, session, id, request, now, drawn); Balanced(h.registry, Count(l, reg, session, h))
  {
    match request {
      case RoomCreate => CreateBalances(reg, l, session, id, drawn);
      case RoomJoin(room, token) => JoinBalances(reg, l, session, id, room, token, drawn);
      case InviteCreate(room) => InviteBalances(reg, l, session, id, room, now, drawn);
      case RoomLeave(room) => LeaveRoomBalances(reg, l, session, id, room);
      case SignalSend(room, to, payload) => SignalBalances(reg, l, session, id, room, to, payload);
      case _ =>
    }
  }

  lemma AskedRecord(reg: Registry, l: Ledger, session: Id, id: Id, request: Request, now: int, drawn: Drawn)
    ensures Record(reg, l, Asked(session, id, request, now, drawn))
      == Count(l.(expired := l.expired + |Lapsed(reg, now)|), Expire(reg, now), session,
               Respond(Expire(reg, now), session, id, request, now, drawn))
  {
  }

  lemma AskedBalances(reg: Registry, l: Ledger, session: Id, id: Id, request: Request, now: int, drawn: Drawn)
    requires Consistent(reg) && Balanced(reg, l) && Legal(reg, Asked(session, id, request, now, drawn))
    ensures Balanced(Handle(reg, session, id, request, now, drawn).registry,
                     Record(reg, l, Asked(session, id, request, now, drawn)))
  {
    var e, x := Expire(reg, now), l.(expired := l.expired + |Lapsed(reg, now)|);
    ReadyToRespond(reg, l, session, id, request, now, drawn, e, x);
    RespondBalances(e, x, session, id, request, now, drawn);
    AskedRecord(reg, l, session, id, request, now, drawn);
  }

  lemma ReadyToRespond(reg: Registry, l: Ledger, session: Id, id: Id, request: Request, now: int, drawn: Drawn,
                       e: Registry, x: Ledger)
    requires Consistent(reg) && Balanced(reg, l) && Legal(reg, Asked(session, id, request, now, drawn))
    requires e == Expire(reg, now) && x == l.(expired := l.expired + |Lapsed(reg, now)|)
    ensures Consistent(e) && Balanced(e, x) && Free(e, request, drawn)
    ensures request.InviteCreate? && drawn.token.Some? ==> NewToken(e, request.room, drawn.token.value)
  {
    TickBalances(reg, l, now);
    ExpireKeeps(reg, now);
    FreeAfterExpiry(reg, request, now, drawn);
  }

  lemma FreeAfterExpiry(reg: Registry, request: Request, now: int, drawn: Drawn)
    requires Free(reg, request, drawn)
    ensures Free(Expire(reg, now), request, drawn)
  {
  }

  lemma ApplyBalances(reg: Registry, l: Ledger, e: Event)
    requires Consistent(reg) && Balanced(reg, l) && Legal(reg, e)
    ensures Consistent(Apply(reg, e)) && Balanced(Apply(reg, e), Record(reg, l, e))
  {
    match e {
      case Asked(session, id, request, now, drawn) =>
        HandleKeeps(reg, session, id, request, now, drawn);
        AskedBalances(reg, l, session, id, request, now, drawn);
      case Granted(session, room, now, token) =>
        ExpireKeeps(reg, now);
        TickBalances(reg, l, now);
        IssueKeeps(Expire(reg, now), session, room, now, token);
        IssueBalances(Expire(reg, now), l.(expired := l.expired + |Lapsed(reg, now)|), session, room, now, token);
      case Dropped(session) =>
        LeaveKeeps(reg, session, true);
        LeaveBalances(reg, l, session, true);
      case Ticked(now) =>
        ExpireKeeps(reg, now);
        TickBalances(reg, l, now);
    }
  }

  function Run(reg: Registry, events: seq<Event>): Registry
    decreases |events|
  {
    if events == [] then reg else Run(Apply(reg, events[0]), events[1..])
  }

  function RunLedger(reg: Registry, l: Ledger, events: seq<Event>): Ledger
    decreases |events|
  {
    if events == [] then l else RunLedger(Apply(reg, events[0]), Record(reg, l, events[0]), events[1..])
  }

  predicate AllLegal(reg: Registry, events: seq<Event>)
    decreases |events|
  {
    events == [] || (Legal(reg, events[0]) && AllLegal(Apply(reg, events[0]), events[1..]))
  }

  lemma {:induction false} RunFrom(reg: Registry, l: Ledger, events: seq<Event>)
    requires Consistent(reg) && Balanced(reg, l) && AllLegal(reg, events)
    ensures Consistent(Run(reg, events)) && Balanced(Run(reg, events), RunLedger(reg, l, events))
    decreases |events|
  {
    if events != [] {
      ApplyBalances(reg, l, events[0]);
      RunFrom(Apply(reg, events[0]), Record(reg, l, events[0]), events[1..]);
    }
  }

  /** From an empty registry: issued == consumed + outstanding + expired + revoked, and all indexes inverse. */
  lemma EveryInvitationIsAccounted(events: seq<Event>)
    requires AllLegal(Registry(map[], map[]), events)
    ensures Consistent(Run(Registry(map[], map[]), events))
    ensures Balanced(Run(Registry(map[], map[]), events), RunLedger(Registry(map[], map[]), Ledger(0, 0, 0, 0), events))
  {
    var none := Registry(map[], map[]);
    assert Tokens(none) == {};
    RunFrom(none, Ledger(0, 0, 0, 0), events);
  }
}
