/** The cached snapshot of every profile is the last one its session was sent. */
module SnapshotDelivery {
  import opened Wrappers
  import opened ServerMessages
  import opened Rooms
  import opened RoomProofs
  import opened Presences
  import opened PresenceService
  import opened PresenceProofs
  import opened ServerSystem
  import opened ServerProofs

  /** What each session has on screen: the last snapshot it was sent. */
  type Screens = map<Id, map<Identity, Sight>>

  function Show(screens: Screens, d: Delivery): Screens {
    if d.message.PresenceSnapshot? then screens[d.session := d.message.peersSeen] else screens
  }

  function ShowAll(screens: Screens, out: seq<Delivery>): Screens {
    if out == [] then screens else Show(ShowAll(screens, out[..|out| - 1]), out[|out| - 1])
  }

  predicate NoSnapshots(out: seq<Delivery>) { forall d <- out :: !d.message.PresenceSnapshot? }

  lemma {:induction false} ShowTwo(screens: Screens, a: seq<Delivery>, b: seq<Delivery>)
    ensures ShowAll(screens, a + b) == ShowAll(ShowAll(screens, a), b)
  {
    if b == [] {
      assert a + b == a;
    } else {
      assert (a + b)[..|a + b| - 1] == a + b[..|b| - 1];
      ShowTwo(screens, a, b[..|b| - 1]);
    }
  }

  lemma {:induction false} QuietShows(screens: Screens, out: seq<Delivery>)
    requires NoSnapshots(out)
    ensures ShowAll(screens, out) == screens
  {
    if out != [] { QuietShows(screens, out[..|out| - 1]); }
  }

  lemma SkipQuiet(screens: Screens, a: seq<Delivery>, b: seq<Delivery>)
    requires NoSnapshots(a)
    ensures ShowAll(screens, a + b) == ShowAll(screens, b)
  {
    ShowTwo(screens, a, b);
    QuietShows(screens, a);
  }

  // ---- the parts of an answer ----

  lemma {:induction false} QuietKnocks(p: Presence, reg: Registry, now: int, order: seq<Id>)
    requires forall k <- order :: k in p.knocks
    ensures NoSnapshots(KnockEndings(p, reg, now, order))
  {
    if order != [] { QuietKnocks(p, reg, now, order[..|order| - 1]); }
  }

  lemma {:induction false} QuietInvitations(p: Presence, reg: Registry, now: int, order: seq<Id>)
    requires forall i <- order :: i in p.invitations
    ensures NoSnapshots(InvitationEndings(p, reg, now, order))
  {
    if order != [] { QuietInvitations(p, reg, now, order[..|order| - 1]); }
  }

  lemma QuietMaintenance(out: seq<Delivery>, p: Presence, reg: Registry, now: int)
    requires MaintainOut(out, p, reg, now)
    ensures NoSnapshots(out)
  {
    var a, b :| KnocksClosed(a, p, reg, now) && InvitationsClosed(b, p, reg, now) && out == a + b;
    var ks :| Visits(ks, p.knocks.Keys) && a == KnockEndings(p, reg, now, ks);
    var js :| Visits(js, p.invitations.Keys) && b == InvitationEndings(p, reg, now, js);
    QuietKnocks(p, reg, now, ks);
    QuietInvitations(p, reg, now, js);
  }

  /** A session in `out` gets its view on screen; the others keep what they had. */
  lemma {:induction false} RefreshShowsView(screens: Screens, out: seq<Delivery>, profiles: map<Id, Profile>,
                                            byIdentity: map<Identity, Id>, s: Id)
    requires forall d <- out ::
      d.session in profiles && d.message == PresenceSnapshot(View(profiles, byIdentity, d.session))
    requires s in profiles
    ensures var n := ShowAll(screens, out);
      if exists d <- out :: d.session == s then s in n && n[s] == View(profiles, byIdentity, s)
      else (s in n <==> s in screens) && (s in n ==> n[s] == screens[s])
  {
    if out != [] { RefreshShowsView(screens, out[..|out| - 1], profiles, byIdentity, s); }
  }

  /** Every published profile caches what its session has on screen. */
  predicate Current(screens: Screens, profiles: map<Id, Profile>) {
    forall s <- profiles :: profiles[s].published ==> s in screens && screens[s] == profiles[s].snapshot
  }

  lemma RefreshDelivers(screens: Screens, out: seq<Delivery>, profiles: map<Id, Profile>, byIdentity: map<Identity, Id>)
    requires RefreshOut(out, profiles, byIdentity) && Current(screens, profiles)
    ensures Current(ShowAll(screens, out), Refreshed(profiles, byIdentity))
  {
    var n := ShowAll(screens, out);
    forall s | s in profiles ensures s in n && n[s] == View(profiles, byIdentity, s) {
      RefreshShowsView(screens, out, profiles, byIdentity, s);
      if s in Stale(profiles, byIdentity) {
        assert Delivery(s, PresenceSnapshot(View(profiles, byIdentity, s))) in out;
      }
    }
  }

  lemma AfterDelivers(screens: Screens, out: seq<Delivery>, p: Presence, reg: Registry, now: int)
    requires AfterOut(out, p, reg, now) && Current(screens, p.profiles)
    ensures Current(ShowAll(screens, out), After(p, reg, now).profiles)
  {
    var a, b :| MaintainOut(a, p, reg, now) && RefreshOut(b, Forget(p.profiles, now), p.byIdentity) && out == a + b;
    QuietMaintenance(a, p, reg, now);
    SkipQuiet(screens, a, b);
    RefreshDelivers(screens, b, Forget(p.profiles, now), p.byIdentity);
  }

  // ---- every kind of answer ----

  lemma PublishDelivers(screens: Screens, out: seq<Delivery>, p: Presence, reg: Registry, session: Id, id: Id,
                        r: Request, now: int, drawn: Fresh)
    requires Current(screens, p.profiles) && r.PresencePublish? && !PublishRefused(p, session, r.identity)
    requires Answered(out, p, reg, session, id, r, now, drawn)
    ensures Current(ShowAll(screens, out), After(Published(p, session, r), reg, now).profiles)
  {
    assert out == [out[0]] + out[1..];
    SkipQuiet(screens, [out[0]], out[1..]);
    AfterDelivers(screens, out[1..], Published(p, session, r), reg, now);
  }

  lemma QuietFarewell(told: seq<Delivery>, session: Id, id: Id, mesh: Id, mates: set<Id>, identity: Identity)
    requires ToEach(told, mates, MeshDeparted(mesh, identity))
    ensures NoSnapshots([Delivery(session, MeshLeft(id))] + told)
  {
  }

  lemma FarewellParts(out: seq<Delivery>, p: Presence, reg: Registry, session: Id, id: Id, mesh: Id, now: int,
                      drawn: Fresh)
    returns (told: seq<Delivery>, rest: seq<Delivery>)
    requires session in p.profiles && p.profiles[session].mesh == Some(mesh)
    requires Answered(out, p, reg, session, id, MeshLeave(mesh), now, drawn)
    ensures ToEach(told, MeshMates(p, session, mesh), MeshDeparted(mesh, p.profiles[session].identity))
    ensures AfterOut(rest, Departed(p, session), reg, now) && out == [Delivery(session, MeshLeft(id))] + told + rest
  {
    told, rest :| ToEach(told, MeshMates(p, session, mesh), MeshDeparted(mesh, p.profiles[session].identity))
      && AfterOut(rest, Departed(p, session), reg, now)
      && out == [Delivery(session, MeshLeft(id))] + told + rest;
  }

  lemma MeshLeaveDelivers(screens: Screens, out: seq<Delivery>, p: Presence, reg: Registry, session: Id, id: Id,
                          mesh: Id, now: int, drawn: Fresh)
    requires Current(screens, p.profiles) && session in p.profiles && p.profiles[session].mesh == Some(mesh)
    requires Answered(out, p, reg, session, id, MeshLeave(mesh), now, drawn)
    ensures Current(ShowAll(screens, out), After(Departed(p, session), reg, now).profiles)
  {
    var told, rest := FarewellParts(out, p, reg, session, id, mesh, now, drawn);
    QuietFarewell(told, session, id, mesh, MeshMates(p, session, mesh), p.profiles[session].identity);
    SkipQuiet(screens, [Delivery(session, MeshLeft(id))] + told, rest);
    AfterDelivers(screens, rest, Departed(p, session), reg, now);
  }

  lemma QuietKnock(p: Presence, reg: Registry, session: Id, id: Id, peer: Identity, now: int, drawn: Id)
    requires session in p.profiles
    ensures NoSnapshots(Knock(p, reg, session, id, peer, now, drawn).out)
  {
  }

  lemma QuietInvite(p: Presence, reg: Registry, session: Id, id: Id, peer: Identity, room: Id, mesh: Id, now: int,
                    drawn: Id)
    requires session in p.profiles
    ensures NoSnapshots(InviteContact(p, reg, session, id, peer, room, mesh, now, drawn).out)
  {
  }

  lemma QuietKnockAnswer(p: Presence, reg: Registry, session: Id, id: Id, invitation: Id, decision: Decision,
                         offered: Option<Id>, now: int, token: Option<Id>)
    ensures NoSnapshots(RespondKnock(p, reg, session, id, invitation, decision, offered, now, token).out)
  {
  }

  lemma QuietContactAnswer(p: Presence, reg: Registry, session: Id, id: Id, invitation: Id, decision: Decision,
                           now: int, token: Option<Id>)
    ensures NoSnapshots(RespondContact(p, reg, session, id, invitation, decision, now, token).out)
  {
  }

  lemma QuietRequests(out: seq<Delivery>, p: Presence, reg: Registry, session: Id, id: Id, r: Request, now: int,
                      drawn: Fresh)
    requires Answered(out, p, reg, session, id, r, now, drawn)
    requires Unrefreshed(p, session, r)
    ensures NoSnapshots(out)
  {
    if session in p.profiles && !r.PresencePublish? {
      match r {
        case KnockRequest(peer) => QuietKnock(p, reg, session, id, peer, now, drawn.invitation);
        case ContactInvite(peer, room, mesh) => QuietInvite(p, reg, session, id, peer, room, mesh, now,
          drawn.invitation);
        case KnockRespond(i, decision, offered) => QuietKnockAnswer(p, reg, session, id, i, decision, offered, now,
          drawn.token);
        case ContactRespond(i, decision) => QuietContactAnswer(p, reg, session, id, i, decision, now, drawn.token);
        case _ =>
      }
    }
  }

  /** Requests after which no profile is refreshed. */
  predicate Unrefreshed(p: Presence, session: Id, r: Request) {
    if r.PresencePublish? then PublishRefused(p, session, r.identity)
    else r.MeshLeave? ==> session !in p.profiles || p.profiles[session].mesh != Some(r.mesh)
  }

  predicate SameCaches(a: map<Id, Profile>, b: map<Id, Profile>) {
    forall s <- b :: s in a && b[s].published == a[s].published && b[s].snapshot == a[s].snapshot
  }

  lemma UnrefreshedCaches(p: Presence, reg: Registry, session: Id, id: Id, r: Request, now: int, drawn: Fresh)
    requires Unrefreshed(p, session, r)
    ensures SameCaches(p.profiles, HandlePresence(p, reg, session, id, r, now, drawn).0.profiles)
  {
    if session in p.profiles && !r.PresencePublish? && !r.MeshLeave? {
      if r.KnockRespond? || r.ContactRespond? {
        OnlyAnswers(p, reg, session, id, r, now, drawn);
      } else if r.KnockRequest? || r.ContactInvite? {
        AskedCaches(p, reg, session, id, r, now, drawn);
      } else {
        OthersKeep(p, reg, session, id, r, now, drawn);
      }
    }
  }

  lemma AskedCaches(p: Presence, reg: Registry, session: Id, id: Id, r: Request, now: int, drawn: Fresh)
    requires session in p.profiles && (r.KnockRequest? || r.ContactInvite?)
    ensures SameCaches(p.profiles, HandlePresence(p, reg, session, id, r, now, drawn).0.profiles)
  {
    WhatAskingDoes(p, reg, session, id, r, now, drawn);
    if r.KnockRequest? { KnockCaches(p, reg, session, id, r.peer, now, drawn.invitation); }
    else { InviteCaches(p, reg, session, id, r.peer, r.room, r.mesh, now, drawn.invitation); }
  }

  lemma KnockCaches(p: Presence, reg: Registry, session: Id, id: Id, peer: Identity, now: int, drawn: Id)
    requires session in p.profiles
    ensures SameCaches(p.profiles, Knock(p, reg, session, id, peer, now, drawn).presence.profiles)
  {
  }

  lemma InviteCaches(p: Presence, reg: Registry, session: Id, id: Id, peer: Identity, room: Id, mesh: Id, now: int,
                     drawn: Id)
    requires session in p.profiles
    ensures SameCaches(p.profiles, InviteContact(p, reg, session, id, peer, room, mesh, now, drawn).presence.profiles)
  {
  }

  lemma QuietDelivers(screens: Screens, out: seq<Delivery>, a: map<Id, Profile>, b: map<Id, Profile>)
    requires NoSnapshots(out) && Current(screens, a) && SameCaches(a, b)
    ensures Current(ShowAll(screens, out), b)
  {
    QuietShows(screens, out);
  }

  /** After every presence request each session has on screen what its profile caches. */
  lemma RequestDelivers(screens: Screens, out: seq<Delivery>, p: Presence, reg: Registry, session: Id, id: Id,
                        r: Request, now: int, drawn: Fresh)
    requires Current(screens, p.profiles) && Answered(out, p, reg, session, id, r, now, drawn)
    ensures Current(ShowAll(screens, out), HandlePresence(p, reg, session, id, r, now, drawn).0.profiles)
  {
    if Unrefreshed(p, session, r) {
      QuietRequests(out, p, reg, session, id, r, now, drawn);
      UnrefreshedCaches(p, reg, session, id, r, now, drawn);
      QuietDelivers(screens, out, p.profiles, HandlePresence(p, reg, session, id, r, now, drawn).0.profiles);
    } else if r.PresencePublish? {
      PublishDelivers(screens, out, p, reg, session, id, r, now, drawn);
    } else {
      MeshLeaveDelivers(screens, out, p, reg, session, id, r.mesh, now, drawn);
    }
  }

  lemma MaintenanceDelivers(screens: Screens, out: seq<Delivery>, p: Presence, reg: Registry, now: int)
    requires Current(screens, p.profiles) && MaintainOut(out, p, reg, now)
    ensures Current(ShowAll(screens, out), Maintain(p, reg, now).profiles)
  {
    QuietMaintenance(out, p, reg, now);
    QuietDelivers(screens, out, p.profiles, Maintain(p, reg, now).profiles);
  }

  lemma DisconnectDelivers(screens: Screens, out: seq<Delivery>, p: Presence, reg: Registry, session: Id, now: int)
    requires Current(screens, p.profiles)
    requires if session in p.profiles then AfterOut(out, Without(p, session), reg, now)
      else MaintainOut(out, p, reg, now)
    ensures Current(ShowAll(screens, out), DisconnectPresence(p, reg, session, now).profiles)
  {
    if session in p.profiles { AfterDelivers(screens, out, Without(p, session), reg, now); }
    else { MaintenanceDelivers(screens, out, p, reg, now); }
  }

  lemma QuietRoomRequests(reg: Registry, session: Id, id: Id, r: Request, now: int, drawn: Drawn)
    ensures var h := Handle(reg, session, id, r, now, drawn);
      NoSnapshots(h.replies) && !h.notice.PresenceSnapshot?
  {
  }

  lemma QuietAnswers(out: seq<Delivery>, h: Handled, after: Registry)
    requires Answers(out, h, after) && NoSnapshots(h.replies) && !h.notice.PresenceSnapshot?
    ensures NoSnapshots(out)
  {
    assert out == out[..|h.replies|] + out[|h.replies|..];
  }

  lemma QuietRooms(out: seq<Delivery>, reg: Registry, after: Registry, session: Id, id: Id, r: Request, now: int,
                   drawn: Drawn)
    requires Answers(out, Handle(reg, session, id, r, now, drawn), after)
    ensures NoSnapshots(out)
  {
    QuietRoomRequests(reg, session, id, r, now, drawn);
    QuietAnswers(out, Handle(reg, session, id, r, now, drawn), after);
  }

  // ---- whole runs ----

  ghost predicate RoomEmits(srv: Server, session: Id, id: Id, r: Request, now: int, draw: Draw, out: seq<Delivery>) {
    var h := Handle(srv.rooms, session, id, r, now, draw.room);
    exists a, b ::
      && Answers(a, h, h.registry)
      && (if MovesMembers(r) then MaintainOut(b, srv.presence, h.registry, now) else b == [])
      && out == a + b
  }

  ghost predicate DisconnectOut(out: seq<Delivery>, p: Presence, reg: Registry, session: Id, now: int) {
    if session in p.profiles then AfterOut(out, Without(p, session), reg, now) else MaintainOut(out, p, reg, now)
  }

  ghost predicate LoseEmits(srv: Server, session: Id, now: int, out: seq<Delivery>) {
    if session !in srv.clients then out == []
    else
      var left := Leave(srv.rooms, session, true);
      exists a, b ::
        ToAll(a, left.told, left.notice) && DisconnectOut(b, srv.presence, left.registry, session, now) && out == a + b
  }

  /** What the server hands to its delivery queue for one event. */
  ghost predicate Emits(srv: Server, e: ServerEvent, out: seq<Delivery>) {
    match e
    case Ask(session, id, r, now, draw) =>
      if !Admitted(srv.clients, session, r) then out == []
      else if ForPresence(r) then Answered(out, srv.presence, srv.rooms, session, id, r, now, draw.presence)
      else RoomEmits(srv, session, id, r, now, draw, out)
    case Lose(session, now) => LoseEmits(srv, session, now, out)
    case Tick(now) => MaintainOut(out, srv.presence, Expire(srv.rooms, now), now)
    case _ => out == []
  }

  lemma RoomAskDelivers(srv: Server, screens: Screens, out: seq<Delivery>, session: Id, id: Id, r: Request, now: int,
                        draw: Draw)
    requires Current(screens, srv.presence.profiles) && RoomEmits(srv, session, id, r, now, draw, out)
    ensures var after := Handle(srv.rooms, session, id, r, now, draw.room).registry;
      Current(ShowAll(screens, out),
              if MovesMembers(r) then Maintain(srv.presence, after, now).profiles else srv.presence.profiles)
  {
    var h := Handle(srv.rooms, session, id, r, now, draw.room);
    var a, b :| Answers(a, h, h.registry)
      && (if MovesMembers(r) then MaintainOut(b, srv.presence, h.registry, now) else b == [])
      && out == a + b;
    QuietRooms(a, srv.rooms, h.registry, session, id, r, now, draw.room);
    SkipQuiet(screens, a, b);
    if MovesMembers(r) { MaintenanceDelivers(screens, b, srv.presence, h.registry, now); }
  }

  lemma LeaveNotice(reg: Registry, session: Id)
    ensures !Leave(reg, session, true).notice.PresenceSnapshot?
  {
  }

  lemma LoseDelivers(srv: Server, screens: Screens, out: seq<Delivery>, session: Id, now: int)
    requires Current(screens, srv.presence.profiles) && session in srv.clients && LoseEmits(srv, session, now, out)
    ensures var after := Leave(srv.rooms, session, true).registry;
      Current(ShowAll(screens, out), DisconnectPresence(srv.presence, after, session, now).profiles)
  {
    var left := Leave(srv.rooms, session, true);
    var a, b :| ToAll(a, left.told, left.notice) && DisconnectOut(b, srv.presence, left.registry, session, now)
      && out == a + b;
    LeaveNotice(srv.rooms, session);
    SkipQuiet(screens, a, b);
    DisconnectDelivers(screens, b, srv.presence, left.registry, session, now);
  }

  lemma StepDelivers(srv: Server, screens: Screens, e: ServerEvent, out: seq<Delivery>)
    requires Current(screens, srv.presence.profiles) && Emits(srv, e, out)
    ensures Current(ShowAll(screens, out), Step(srv, e).presence.profiles)
  {
    match e {
      case Ask(session, id, r, now, draw) =>
        if Admitted(srv.clients, session, r) {
          if ForPresence(r) {
            RequestDelivers(screens, out, srv.presence, srv.rooms, session, id, r, now, draw.presence);
          }
          else { RoomAskDelivers(srv, screens, out, session, id, r, now, draw); }
        }
      case Lose(session, now) => if session in srv.clients { LoseDelivers(srv, screens, out, session, now); }
      case Tick(now) => MaintenanceDelivers(screens, out, srv.presence, Expire(srv.rooms, now), now);
      case _ =>
    }
  }

  datatype Turn = Turn(event: ServerEvent, out: seq<Delivery>)

  datatype Watched = Watched(server: Server, screens: Screens)

  function Play(w: Watched, turns: seq<Turn>): Watched
    decreases |turns|
  {
    if turns == [] then w
    else Play(Watched(Step(w.server, turns[0].event), ShowAll(w.screens, turns[0].out)), turns[1..])
  }

  ghost predicate Played(srv: Server, turns: seq<Turn>)
    decreases |turns|
  {
    turns == []
    || (Fits(srv, turns[0].event) && Emits(srv, turns[0].event, turns[0].out)
      && Played(Step(srv, turns[0].event), turns[1..]))
  }

  lemma {:induction false} PlayFrom(w: Watched, turns: seq<Turn>)
    requires Inv(w.server) && Current(w.screens, w.server.presence.profiles) && Played(w.server, turns)
    ensures Inv(Play(w, turns).server) && Current(Play(w, turns).screens, Play(w, turns).server.presence.profiles)
    decreases |turns|
  {
    if turns != [] {
      var n := Watched(Step(w.server, turns[0].event), ShowAll(w.screens, turns[0].out));
      StepKeeps(w.server, turns[0].event);
      StepDelivers(w.server, w.screens, turns[0].event, turns[0].out);
      PlayFrom(n, turns[1..]);
    }
  }

  /** In every run, whatever order the tables iterate in, each present session has on screen exactly what
      a snapshot computed from all the current profiles would show. */
  lemma ScreensAreCurrent(turns: seq<Turn>, s: Id)
    requires Played(START, turns) && s in Play(Watched(START, map[]), turns).server.presence.profiles
    ensures var w := Play(Watched(START, map[]), turns); var p := w.server.presence;
      s in w.screens && w.screens[s] == p.profiles[s].snapshot == View(p.profiles, p.byIdentity, s)
  {
    assert forall t :: Outgoing(START.presence.invitations, t) == {};
    PlayFrom(Watched(START, map[]), turns);
  }
}
