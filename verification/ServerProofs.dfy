/** What every run of the server keeps. */
module ServerProofs {
  import opened Wrappers
  import opened ServerMessages
  import opened Rooms
  import opened RoomProofs
  import opened Presences
  import opened PresenceService
  import opened PresenceProofs
  import opened ServerSystem

  // ---- clients ----

  lemma NewClient(clients: map<Id, Option<Identity>>, session: Id)
    requires OwnIdentities(clients) && session !in clients && |clients| < MAX_SESSIONS
    ensures OwnIdentities(clients[session := None])
  {
  }

  /** Rooms and presence only ask that proved identities stay. */
  lemma SameProofs(srv: Server, session: Id, proof: Option<Identity>)
    requires MembersLive(srv.clients, srv.rooms) && ProfilesLive(srv.clients, srv.presence.profiles)
    requires session in srv.clients ==> srv.clients[session].None?
    ensures var n := srv.clients[session := proof]; MembersLive(n, srv.rooms) && ProfilesLive(n, srv.presence.profiles)
  {
  }

  lemma ConnectKeeps(srv: Server, session: Id)
    requires Inv(srv) && session !in srv.clients
    ensures Inv(Connected(srv, session))
  {
    if |srv.clients| < MAX_SESSIONS {
      NewClient(srv.clients, session);
      SameProofs(srv, session, None);
      Assemble(srv.clients[session := None], srv.rooms, srv.presence);
    }
  }

  lemma NamedClient(clients: map<Id, Option<Identity>>, session: Id, identity: Identity)
    requires OwnIdentities(clients) && session in clients && clients[session].None? && !Claimed(clients, identity)
    ensures OwnIdentities(clients[session := Some(identity)])
  {
    var n := clients[session := Some(identity)];
    SameSize(n, clients);
    forall s, t | s in n && t in n && s != t && n[s].Some? ensures n[s] != n[t] {
      if s != session && t != session { assert clients[s] != clients[t]; }
    }
  }

  lemma AuthenticateKeeps(srv: Server, session: Id, identity: Identity)
    requires Inv(srv)
    ensures Inv(Proved(srv, session, identity))
  {
    if session in srv.clients && srv.clients[session].None? && !Claimed(srv.clients, identity) {
      var n := srv.clients[session := Some(identity)];
      NamedClient(srv.clients, session, identity);
      SameProofs(srv, session, Some(identity));
      Assemble(n, srv.rooms, srv.presence);
      assert Proved(srv, session, identity) == Server(n, srv.rooms, srv.presence);
    }
  }

  // ---- requests ----

  lemma RespondMembers(reg: Registry, session: Id, id: Id, r: Request, now: int, drawn: Drawn)
    ensures Respond(reg, session, id, r, now, drawn).registry.members.Keys <= reg.members.Keys + {session}
    ensures !MovesMembers(r) ==> Respond(reg, session, id, r, now, drawn).registry.members == reg.members
  {
    match r {
      case RoomCreate => assert Respond(reg, session, id, r, now, drawn) == Create(reg, session, id, drawn);
      case RoomJoin(room, token) =>
        assert Respond(reg, session, id, r, now, drawn) == Join(reg, session, id, room, token, drawn);
      case InviteCreate(room) =>
        assert Respond(reg, session, id, r, now, drawn) == Invite(reg, session, id, room, now, drawn);
      case RoomLeave(room) => assert Respond(reg, session, id, r, now, drawn) == LeaveRoom(reg, session, id, room);
      case _ =>
    }
  }

  lemma RoomMembers(reg: Registry, session: Id, id: Id, r: Request, now: int, drawn: Drawn)
    ensures Handle(reg, session, id, r, now, drawn).registry.members.Keys <= reg.members.Keys + {session}
    ensures !MovesMembers(r) ==> Handle(reg, session, id, r, now, drawn).registry.members == reg.members
  {
    RespondMembers(Expire(reg, now), session, id, r, now, drawn);
  }

  /** An accepted answer issues a token; no other request touches the rooms. */
  lemma AnswersIssue(p: Presence, reg: Registry, session: Id, id: Id, r: Request, now: int, drawn: Fresh)
    ensures var after := HandlePresence(p, reg, session, id, r, now, drawn).1;
      || after == reg
      || exists issuer, room :: after == Issue(Expire(reg, now), issuer, room, now, drawn.token).0
  {
  }

  lemma Handled(p: Presence, reg: Registry, session: Id, id: Id, r: Request, now: int, drawn: Fresh)
    ensures var (n, after) := HandlePresence(p, reg, session, id, r, now, drawn); after.members == reg.members
  {
    AnswersIssue(p, reg, session, id, r, now, drawn);
    var after := HandlePresence(p, reg, session, id, r, now, drawn).1;
    if after != reg {
      var issuer, room :| after == Issue(Expire(reg, now), issuer, room, now, drawn.token).0;
    }
  }

  lemma FacesAfter(p: Presence, reg: Registry, now: int)
    ensures After(p, reg, now).profiles.Keys == p.profiles.Keys
    ensures forall s <- p.profiles :: After(p, reg, now).profiles[s].identity == p.profiles[s].identity
  {
  }

  /** A request changes no identity, and adds at most the session's own profile. */
  lemma ProfilesAfter(p: Presence, reg: Registry, session: Id, id: Id, r: Request, now: int, drawn: Fresh)
    ensures var n := HandlePresence(p, reg, session, id, r, now, drawn).0;
      forall s <- n.profiles ::
        || (s in p.profiles && n.profiles[s].identity == p.profiles[s].identity)
        || (s == session && r.PresencePublish? && n.profiles[s].identity == r.identity)
  {
    WhatProfilesDo(p, reg, session, id, r, now, drawn);
    if r.PresencePublish? { FacesAfter(Published(p, session, r), reg, now); }
    else if r.MeshLeave? { if session in p.profiles { FacesAfter(Departed(p, session), reg, now); } }
    else if session !in p.profiles { OthersKeep(p, reg, session, id, r, now, drawn); }
    else if r.KnockRespond? || r.ContactRespond? { OnlyAnswers(p, reg, session, id, r, now, drawn); }
    else if r.KnockRequest? || r.ContactInvite? { AskedFaces(p, reg, session, id, r, now, drawn); }
    else { OthersKeep(p, reg, session, id, r, now, drawn); }
  }

  lemma AskedFaces(p: Presence, reg: Registry, session: Id, id: Id, r: Request, now: int, drawn: Fresh)
    requires session in p.profiles && (r.KnockRequest? || r.ContactInvite?)
    ensures var n := HandlePresence(p, reg, session, id, r, now, drawn).0;
      forall s <- n.profiles :: s in p.profiles && n.profiles[s].identity == p.profiles[s].identity
  {
    WhatAskingDoes(p, reg, session, id, r, now, drawn);
  }

  lemma IssuedConsistent(p: Presence, reg: Registry, session: Id, id: Id, r: Request, now: int, drawn: Fresh)
    requires Consistent(reg)
    ensures Consistent(HandlePresence(p, reg, session, id, r, now, drawn).1)
  {
    AnswersIssue(p, reg, session, id, r, now, drawn);
    var after := HandlePresence(p, reg, session, id, r, now, drawn).1;
    if after != reg {
      var issuer, room :| after == Issue(Expire(reg, now), issuer, room, now, drawn.token).0;
      ExpireKeeps(reg, now);
      IssueKeeps(Expire(reg, now), issuer, room, now, drawn.token);
    }
  }

  lemma StillLive(srv: Server, session: Id, r: Request, n: map<Id, Profile>)
    requires Admitted(srv.clients, session, r) && ProfilesLive(srv.clients, srv.presence.profiles)
    requires forall s <- n ::
      || (s in srv.presence.profiles && n[s].identity == srv.presence.profiles[s].identity)
      || (s == session && r.PresencePublish? && n[s].identity == r.identity)
    ensures ProfilesLive(srv.clients, n)
  {
  }

  lemma PresenceAskKeeps(srv: Server, session: Id, id: Id, r: Request, now: int, draw: Draw)
    requires Inv(srv) && Admitted(srv.clients, session, r) && ForPresence(r)
    ensures Inv(Dispatch(srv, session, id, r, now, draw))
  {
    var h := HandlePresence(srv.presence, srv.rooms, session, id, r, now, draw.presence);
    HandlePresenceKeeps(srv.presence, srv.rooms, session, id, r, now, draw.presence);
    Handled(srv.presence, srv.rooms, session, id, r, now, draw.presence);
    IssuedConsistent(srv.presence, srv.rooms, session, id, r, now, draw.presence);
    ProfilesAfter(srv.presence, srv.rooms, session, id, r, now, draw.presence);
    StillLive(srv, session, r, h.0.profiles);
    Assemble(srv.clients, h.1, h.0);
  }

  lemma Assemble(clients: map<Id, Option<Identity>>, reg: Registry, p: Presence)
    requires OwnIdentities(clients) && MembersLive(clients, reg) && ProfilesLive(clients, p.profiles)
    requires Consistent(reg) && PresenceOk(p, reg)
    ensures Inv(Server(clients, reg, p))
  {
  }

  /** The maintenance after a room request restores what the room change broke. */
  lemma MovedKeeps(srv: Server, session: Id, reg: Registry, now: int)
    requires Inv(srv) && session in srv.clients && srv.clients[session].Some?
    requires Consistent(reg) && reg.members.Keys <= srv.rooms.members.Keys + {session}
    ensures Inv(Server(srv.clients, reg, Maintain(srv.presence, reg, now)))
  {
    MovedPresence(srv.presence, srv.rooms, reg, now);
    StayLive(srv.clients, srv.presence, reg, now);
    MovedLive(srv, session, reg);
    Assemble(srv.clients, reg, Maintain(srv.presence, reg, now));
  }

  lemma MovedLive(srv: Server, session: Id, reg: Registry)
    requires MembersLive(srv.clients, srv.rooms) && session in srv.clients && srv.clients[session].Some?
    requires reg.members.Keys <= srv.rooms.members.Keys + {session}
    ensures MembersLive(srv.clients, reg)
  {
  }

  lemma MovedPresence(p: Presence, before: Registry, reg: Registry, now: int)
    requires PresenceOk(p, before)
    ensures PresenceOk(Maintain(p, reg, now), reg)
  {
    NamedRooms(p, before);
    MaintainKeeps(p, reg, now);
  }

  lemma StayLive(clients: map<Id, Option<Identity>>, p: Presence, reg: Registry, now: int)
    requires ProfilesLive(clients, p.profiles)
    ensures ProfilesLive(clients, Maintain(p, reg, now).profiles)
  {
  }

  lemma UnmovedKeeps(srv: Server, reg: Registry)
    requires Inv(srv) && Consistent(reg) && reg.members == srv.rooms.members
    ensures Inv(srv.(rooms := reg))
  {
    SameRooms(srv.presence, srv.rooms, reg);
  }

  lemma RoomAskKeeps(srv: Server, session: Id, id: Id, r: Request, now: int, draw: Draw)
    requires Inv(srv) && Admitted(srv.clients, session, r) && !ForPresence(r) && Free(srv.rooms, r, draw.room)
    ensures Inv(Dispatch(srv, session, id, r, now, draw))
  {
    var reg := Handle(srv.rooms, session, id, r, now, draw.room).registry;
    HandleKeeps(srv.rooms, session, id, r, now, draw.room);
    RoomMembers(srv.rooms, session, id, r, now, draw.room);
    if MovesMembers(r) { MovedKeeps(srv, session, reg, now); } else { UnmovedKeeps(srv, reg); }
  }

  lemma AskKeeps(srv: Server, session: Id, id: Id, r: Request, now: int, draw: Draw)
    requires Inv(srv) && Free(srv.rooms, r, draw.room)
    ensures Inv(Dispatch(srv, session, id, r, now, draw))
  {
    if Admitted(srv.clients, session, r) {
      if ForPresence(r) { PresenceAskKeeps(srv, session, id, r, now, draw); }
      else { RoomAskKeeps(srv, session, id, r, now, draw); }
    }
  }

  lemma LeaveMembers(reg: Registry, session: Id)
    ensures Leave(reg, session, true).registry.members == reg.members - {session}
  {
  }

  lemma RemovedProfiles(p: Presence, reg: Registry, session: Id, now: int)
    ensures var n := DisconnectPresence(p, reg, session, now);
      n.profiles.Keys == p.profiles.Keys - {session} && forall s <- n.profiles ::
        n.profiles[s].identity == p.profiles[s].identity
  {
  }

  lemma RemoveKeeps(srv: Server, session: Id, now: int)
    requires Inv(srv)
    ensures Inv(Remove(srv, session, now))
  {
    if session in srv.clients {
      var n := Remove(srv, session, now);
      LeaveKeeps(srv.rooms, session, true);
      LeaveMembers(srv.rooms, session);
      DisconnectKeeps(srv.presence, srv.rooms, n.rooms, session, now);
      RemovedProfiles(srv.presence, n.rooms, session, now);
      SmallerMap(n.clients, srv.clients);
    }
  }

  lemma TickKeeps(srv: Server, now: int)
    requires Inv(srv)
    ensures Inv(Tidied(srv, now))
  {
    var reg := Expire(srv.rooms, now);
    ExpireKeeps(srv.rooms, now);
    MovedPresence(srv.presence, srv.rooms, reg, now);
    StayLive(srv.clients, srv.presence, reg, now);
    assert reg.members == srv.rooms.members;
    Assemble(srv.clients, reg, Maintain(srv.presence, reg, now));
  }

  lemma StepKeeps(srv: Server, e: ServerEvent)
    requires Inv(srv) && Fits(srv, e)
    ensures Inv(Step(srv, e))
  {
    match e {
      case Connect(session) => ConnectKeeps(srv, session); assert Step(srv, e) == Connected(srv, session);
      case Authenticate(session, identity) =>
        AuthenticateKeeps(srv, session, identity);
        assert Step(srv, e) == Proved(srv, session, identity);
      case Ask(session, id, r, now, draw) =>
        AskKeeps(srv, session, id, r, now, draw);
        assert Step(srv, e) == Dispatch(srv, session, id, r, now, draw);
      case Lose(session, now) => RemoveKeeps(srv, session, now); assert Step(srv, e) == Remove(srv, session, now);
      case Tick(now) => TickKeeps(srv, now); assert Step(srv, e) == Tidied(srv, now);
    }
  }

  lemma {:induction false} RunKeeps(srv: Server, events: seq<ServerEvent>)
    requires Inv(srv) && AllFit(srv, events)
    ensures Inv(RunServer(srv, events))
    decreases |events|
  {
    if events != [] {
      StepKeeps(srv, events[0]);
      RunKeeps(Step(srv, events[0]), events[1..]);
    }
  }

  // ---- the theorems ----

  lemma EveryRunHolds(events: seq<ServerEvent>)
    requires AllFit(START, events)
    ensures Inv(RunServer(START, events))
  {
    assert forall s :: Outgoing(START.presence.invitations, s) == {};
    RunKeeps(START, events);
  }

  /** In every reachable state each pending invitation and knock can still be answered with yes. */
  lemma PendingStaysAnswerable(events: seq<ServerEvent>)
    requires AllFit(START, events)
    ensures var srv := RunServer(START, events); InvitesOk(srv.presence, srv.rooms) && KnocksOk(srv.presence, srv.rooms)
  {
    EveryRunHolds(events);
  }

  /** An authenticated client that publishes its own identity is never refused: no other session can hold the
      identity, and there are never more profiles than sessions. */
  lemma PublishNeverRefused(srv: Server, session: Id, r: Request)
    requires Inv(srv) && r.PresencePublish? && Admitted(srv.clients, session, r)
    ensures !PublishRefused(srv.presence, session, r.identity)
  {
    OwnName(srv.clients, srv.presence, session, r.identity);
    if session !in srv.presence.profiles { RoomForOne(srv.clients, srv.presence.profiles, session); }
  }

  lemma OwnName(clients: map<Id, Option<Identity>>, p: Presence, session: Id, identity: Identity)
    requires OwnIdentities(clients) && ProfilesLive(clients, p.profiles) && Bijection(p)
    requires session in clients && clients[session] == Some(identity)
    ensures !IdentityTaken(p, session, identity)
  {
    if identity in p.byIdentity { assert p.byIdentity[identity] in p.profiles; }
  }

  lemma RoomForOne(clients: map<Id, Option<Identity>>, profiles: map<Id, Profile>, session: Id)
    requires OwnIdentities(clients) && ProfilesLive(clients, profiles) && session in clients && session !in profiles
    ensures |profiles| < MAX_SESSIONS
  {
    SmallerSet(profiles.Keys, clients.Keys - {session});
    assert |clients.Keys| == |clients| && |profiles.Keys| == |profiles|;
  }
}
