/** The presence registry in its own form: four tables, updated by loops over them. */
module PresenceService {
  import opened Wrappers
  import opened ServerMessages
  import opened Rooms
  import opened Presences

  class PresenceRegistry {
    var profiles: map<Id, Profile>
    var byIdentity: map<Identity, Id>
    var invitations: map<Id, Pending>
    var knocks: map<Id, Pending>

    function State(): Presence
      reads this
    {
      Presence(profiles, byIdentity, invitations, knocks)
    }

    constructor ()
      ensures State() == Presence(map[], map[], map[], map[])
    {
      profiles, byIdentity, invitations, knocks := map[], map[], map[], map[];
    }

    method Clear()
      modifies this
      ensures State() == Presence(map[], map[], map[], map[])
    {
      profiles, byIdentity, invitations, knocks := map[], map[], map[], map[];
    }

    // ---- maintenance ----

    method CloseKnocks(rooms: RoomRegistry, now: int) returns (out: seq<Delivery>)
      modifies `knocks
      ensures knocks == LiveKnocks(old(State()), rooms.View(), now)
      ensures KnocksClosed(out, old(State()), rooms.View(), now)
    {
      ghost var p, order := State(), [];
      out := [];
      var left := knocks.Keys;
      while left != {}
        invariant left <= p.knocks.Keys && |order| + |left| == |p.knocks.Keys|
        invariant forall k <- order :: k in p.knocks
        invariant forall k <- p.knocks :: k in left || k in order
        invariant out == KnockEndings(p, rooms.View(), now, order)
        invariant knocks == KnocksIn(p, rooms.View(), now, left)
        decreases |left|
      {
        var k :| k in left;
        KnockSeen(p, rooms.View(), now, left, k);
        var fate := KnockFate(profiles, rooms.View(), knocks[k], now);
        if fate.Some? {
          out := out + KnockEnds(knocks[k], fate.value);
          knocks := knocks - {k};
        }
        left := left - {k};
        assert (order + [k])[..|order|] == order;
        order := order + [k];
      }
    }

    method CloseInvitations(rooms: RoomRegistry, now: int) returns (out: seq<Delivery>)
      modifies `invitations
      ensures invitations == LiveInvitations(old(State()), rooms.View(), now)
      ensures InvitationsClosed(out, old(State()), rooms.View(), now)
    {
      ghost var p, order := State(), [];
      out := [];
      var left := invitations.Keys;
      while left != {}
        invariant left <= p.invitations.Keys && |order| + |left| == |p.invitations.Keys|
        invariant forall i <- order :: i in p.invitations
        invariant forall i <- p.invitations :: i in left || i in order
        invariant out == InvitationEndings(p, rooms.View(), now, order)
        invariant invitations == InvitationsIn(p, rooms.View(), now, left)
        decreases |left|
      {
        var i :| i in left;
        InvitationSeen(p, rooms.View(), now, left, i);
        var fate := InvitationFate(profiles, rooms.View(), invitations[i], now);
        if fate.Some? {
          out := out + InvitationEnds(invitations[i], fate.value);
          invitations := invitations - {i};
        }
        left := left - {i};
        assert (order + [i])[..|order|] == order;
        order := order + [i];
      }
    }

    static method DropOldInvites(invites: map<Identity, int>, now: int) returns (recent: map<Identity, int>)
      ensures recent == RecentOnly(invites, now)
    {
      recent := invites;
      var left := invites.Keys;
      while left != {}
        invariant left <= invites.Keys
        invariant recent == map i | i in invites && (i in left || now - invites[i] < RATE_LIMIT_MS) :: invites[i]
        decreases |left|
      {
        var i :| i in left;
        if now - invites[i] >= RATE_LIMIT_MS { recent := recent - {i}; }
        left := left - {i};
      }
    }

    method ForgetInvites(now: int)
      modifies `profiles
      ensures profiles == Forget(old(profiles), now)
    {
      var left := profiles.Keys;
      while left != {}
        invariant left <= old(profiles).Keys == profiles.Keys
        invariant forall s <- profiles ::
          profiles[s] == if s in left then old(profiles)[s]
                         else old(profiles)[s].(lastInvite := RecentOnly(old(profiles)[s].lastInvite, now))
        decreases |left|
      {
        var s :| s in left;
        var recent := DropOldInvites(profiles[s].lastInvite, now);
        profiles := profiles[s := profiles[s].(lastInvite := recent)];
        left := left - {s};
      }
    }

    method MaintainInvitations(rooms: RoomRegistry, now: int) returns (out: seq<Delivery>)
      modifies this
      ensures State() == Maintain(old(State()), rooms.View(), now)
      ensures MaintainOut(out, old(State()), rooms.View(), now)
    {
      var a := CloseKnocks(rooms, now);
      ghost var p := State();
      var b := CloseInvitations(rooms, now);
      assert InvitationsClosed(b, old(State()), rooms.View(), now) by {
        InvitationsOnly(b, p, old(State()), rooms.View(), now);
      }
      ForgetInvites(now);
      out := a + b;
    }

    /** A snapshot depends on no other snapshot, so the pass may update them as it goes. */
    method UpdateSnapshots() returns (out: seq<Delivery>)
      modifies `profiles
      ensures profiles == Refreshed(old(profiles), byIdentity)
      ensures RefreshOut(out, old(profiles), byIdentity)
    {
      out := [];
      ghost var before := profiles;
      var left := profiles.Keys;
      NothingShown(before, byIdentity);
      while left != {}
        invariant left <= before.Keys && Midway(profiles, out, before, byIdentity, left)
        decreases |left|
      {
        var s :| s in left;
        assert s in profiles;
        var snapshot := View(profiles, byIdentity, s);
        if profiles[s].published && snapshot == profiles[s].snapshot {
          KeepCurrent(profiles, out, before, byIdentity, left, s);
        } else {
          ShowStale(profiles, out, before, byIdentity, left, s);
          profiles := profiles[s := profiles[s].(published := true, snapshot := snapshot)];
          out := out + [Delivery(s, PresenceSnapshot(snapshot))];
        }
        left := left - {s};
      }
      AllShown(profiles, out, before, byIdentity);
    }

    method Settle(rooms: RoomRegistry, now: int) returns (out: seq<Delivery>)
      modifies this
      ensures State() == After(old(State()), rooms.View(), now)
      ensures AfterOut(out, old(State()), rooms.View(), now)
    {
      var a := MaintainInvitations(rooms, now);
      var b := UpdateSnapshots();
      out := a + b;
    }

    method Disconnect(session: Id, rooms: RoomRegistry, now: int) returns (out: seq<Delivery>)
      modifies this
      ensures State() == DisconnectPresence(old(State()), rooms.View(), session, now)
      ensures if session in old(profiles) then AfterOut(out, Without(old(State()), session), rooms.View(), now)
              else MaintainOut(out, old(State()), rooms.View(), now)
    {
      var had := session in profiles;
      if had {
        byIdentity := byIdentity - {profiles[session].identity};
        profiles := profiles - {session};
      }
      out := MaintainInvitations(rooms, now);
      if had {
        var b := UpdateSnapshots();
        out := out + b;
      }
    }

    // ---- requests ----

    method Publish(session: Id, id: Id, r: Request, rooms: RoomRegistry, now: int, drawn: Fresh)
      returns (out: seq<Delivery>)
      requires r.PresencePublish?
      modifies this
      ensures (State(), rooms.View()) == HandlePresence(old(State()), rooms.View(), session, id, r, now, drawn)
      ensures Answered(out, old(State()), rooms.View(), session, id, r, now, drawn)
    {
      if (r.identity in byIdentity && byIdentity[r.identity] != session)
         || (session in profiles && profiles[session].identity != r.identity) {
        return [Delivery(session, Refused(id, IdentityInUse))];
      }
      if session !in profiles && |profiles| >= MAX_SESSIONS { return [Delivery(session, Refused(id, ResourceLimit))]; }
      var profile := if session in profiles then profiles[session]
                     else Profile(r.identity, r.name, None, {}, false, map[], false, map[]);
      profiles := profiles[session := profile.(identity := r.identity, name := r.name, busy := r.busy,
                                               mesh := r.publishedMesh, known := r.known)];
      byIdentity := byIdentity[r.identity := session];
      var rest := Settle(rooms, now);
      out := [Delivery(session, PresencePublished(id))] + rest;
      assert out[1..] == rest;
    }

    method TellMates(session: Id, mesh: Id) returns (out: seq<Delivery>)
      requires session in profiles
      ensures ToEach(out, MeshMates(State(), session, mesh), MeshDeparted(mesh, profiles[session].identity))
    {
      out := [];
      ghost var told: set<Id> := {};
      var left := profiles.Keys;
      while left != {}
        invariant left <= profiles.Keys && told == MeshMates(State(), session, mesh) - left && |out| == |told|
        invariant forall d <- out :: d.session in told && d.message == MeshDeparted(mesh, profiles[session].identity)
        invariant forall s <- told :: Delivery(s, MeshDeparted(mesh, profiles[session].identity)) in out
        decreases |left|
      {
        var s :| s in left;
        if s != session && profiles[s].mesh == Some(mesh) {
          var next := Delivery(s, MeshDeparted(mesh, profiles[session].identity));
          assert next in out + [next];
          out := out + [next];
          told := told + {s};
        }
        left := left - {s};
      }
    }

    method LeaveMesh(session: Id, id: Id, mesh: Id, rooms: RoomRegistry, now: int, drawn: Fresh)
      returns (out: seq<Delivery>)
      requires session in profiles
      modifies this
      ensures (State(), rooms.View())
        == HandlePresence(old(State()), rooms.View(), session, id, MeshLeave(mesh), now, drawn)
      ensures Answered(out, old(State()), rooms.View(), session, id, MeshLeave(mesh), now, drawn)
    {
      if profiles[session].mesh != Some(mesh) { return [Delivery(session, Refused(id, NotInMesh))]; }
      profiles := profiles[session := profiles[session].(mesh := None)];
      var told := TellMates(session, mesh);
      assert MeshMates(State(), session, mesh) == MeshMates(old(State()), session, mesh);
      var rest := Settle(rooms, now);
      out := [Delivery(session, MeshLeft(id))] + told + rest;
    }

    method SendDirect(session: Id, id: Id, peer: Identity, sdp: seq<byte>) returns (out: seq<Delivery>)
      requires session in profiles
      ensures out == Direct(State(), session, id, peer, sdp)
    {
      if peer !in byIdentity || !Mutual(profiles, session, byIdentity[peer]) {
        return [Delivery(session, Refused(id, RecipientUnavailable))];
      }
      out := [Delivery(byIdentity[peer], DirectReceived(profiles[session].identity, sdp)),
        Delivery(session, DirectAccepted(id))];
    }

    method RelayMesh(session: Id, id: Id, mesh: Id, peer: Identity, payload: seq<byte>) returns (out: seq<Delivery>)
      requires session in profiles
      ensures out == Relay(State(), session, id, mesh, peer, payload)
    {
      if profiles[session].mesh != Some(mesh) { return [Delivery(session, Refused(id, NotInMesh))]; }
      if peer !in byIdentity || byIdentity[peer] == session || byIdentity[peer] !in profiles {
        return [Delivery(session, Refused(id, RecipientUnavailable))];
      }
      if profiles[byIdentity[peer]].mesh != Some(mesh) { return [Delivery(session, Refused(id, RecipientLeft))]; }
      out := [Delivery(byIdentity[peer], MeshReceived(mesh, profiles[session].identity, payload)),
              Delivery(session, MeshRelayed(id))];
    }

    method AnyKnock(session: Id, target: Id) returns (found: bool)
      ensures found == KnockPending(State(), session, target)
    {
      found := false;
      var left := knocks.Keys;
      while left != {}
        invariant left <= knocks.Keys
        invariant forall k <- knocks :: k in left || (knocks[k].sender != session && knocks[k].recipient != target)
        decreases |left|
      {
        var k :| k in left;
        if knocks[k].sender == session || knocks[k].recipient == target { return true; }
        left := left - {k};
      }
    }

    method RequestKnock(session: Id, id: Id, peer: Identity, rooms: RoomRegistry, now: int, drawn: Id)
      returns (out: seq<Delivery>)
      requires session in profiles
      modifies `profiles, `knocks
      ensures Outcome(State(), rooms.View(), out) == Knock(old(State()), rooms.View(), session, id, peer, now, drawn)
    {
      if peer !in byIdentity || !Mutual(profiles, session, byIdentity[peer]) {
        return [Delivery(session, Refused(id, RecipientUnavailable))];
      }
      var target := byIdentity[peer];
      if profiles[session].busy || session in rooms.members { return [Delivery(session, Refused(id, RecipientBusy))]; }
      var mesh := profiles[target].mesh;
      if mesh.None? { return [Delivery(session, Refused(id, NotInMesh))]; }
      var waiting := AnyKnock(session, target);
      if waiting { return [Delivery(session, Refused(id, RecipientBusy))]; }
      if |knocks| >= MAX_PENDING { return [Delivery(session, Refused(id, ResourceLimit))]; }
      var profile := profiles[session];
      if peer in profile.lastInvite && now - profile.lastInvite[peer] < RATE_LIMIT_MS {
        return [Delivery(session, Refused(id, RateLimited))];
      }
      profiles := profiles[session := profile.(lastInvite := profile.lastInvite[peer := now])];
      knocks := knocks[drawn := Pending(drawn, session, target, peer, None, mesh.value, now + KNOCK_LIFETIME_MS)];
      out := [Delivery(session, KnockRequested(id, drawn)),
              Delivery(target, KnockInvitation(drawn, profile.identity, profile.name, mesh.value))];
    }

    method RespondToKnock(session: Id, id: Id, invitation: Id, decision: Decision, offered: Option<Id>,
                          rooms: RoomRegistry, now: int, token: Option<Id>) returns (out: seq<Delivery>)
      modifies `knocks, rooms`rooms
      ensures Outcome(State(), rooms.View(), out)
        == RespondKnock(old(State()), old(rooms.View()), session, id, invitation, decision, offered, now, token)
    {
      if invitation !in knocks || knocks[invitation].recipient != session {
        return [Delivery(session, Refused(id, InvitationUnavailable))];
      }
      var k := knocks[invitation];
      knocks := knocks - {invitation};
      out := [Delivery(session, KnockResponded(id))];
      var answer := KnockAnswer(State(), rooms.View(), session, k, decision, offered, now);
      if answer.Some? { return out + KnockEnds(k, answer.value); }
      var result := rooms.CreateInvitation(session, offered.value, now, token);
      if result.Failure? { return out + KnockEnds(k, Unavailable); }
      out := out + [Delivery(k.sender, KnockAccepted(invitation, offered.value, k.mesh, result.value))];
      out := out + KnockEnds(k, Accepted);
    }

    /** The scan stops at the first invitation the target already has; `None` means it found one. */
    method CountOutgoing(session: Id, target: Id) returns (outgoing: Option<nat>)
      ensures outgoing == if InvitedAlready(State(), target) then None else Some(|Outgoing(invitations, session)|)
    {
      var count := 0;
      ghost var counted: set<Id> := {};
      var left := invitations.Keys;
      while left != {}
        invariant left <= invitations.Keys && counted == Outgoing(invitations, session) - left && count == |counted|
        invariant forall i <- invitations :: i in left || invitations[i].recipient != target
        decreases |left|
      {
        var i :| i in left;
        if invitations[i].recipient == target { return None; }
        if invitations[i].sender == session { count := count + 1; counted := counted + {i}; }
        left := left - {i};
      }
      outgoing := Some(count);
    }

    method Invite(session: Id, id: Id, peer: Identity, room: Id, mesh: Id, rooms: RoomRegistry, now: int, drawn: Id)
      returns (out: seq<Delivery>)
      requires session in profiles
      modifies `profiles, `invitations
      ensures Outcome(State(), rooms.View(), out)
        == InviteContact(old(State()), rooms.View(), session, id, peer, room, mesh, now, drawn)
    {
      if peer !in byIdentity || !Mutual(profiles, session, byIdentity[peer]) {
        return [Delivery(session, Refused(id, RecipientUnavailable))];
      }
      var target := byIdentity[peer];
      if RoomOf(rooms.View(), session) != Some(room) { return [Delivery(session, Refused(id, NotInRoom))]; }
      if !CanJoin(rooms.View(), Some(room)) { return [Delivery(session, Refused(id, RoomFull))]; }
      if profiles[target].busy || target in rooms.members { return [Delivery(session, Refused(id, RecipientBusy))]; }
      var outgoing := CountOutgoing(session, target);
      if outgoing.None? { return [Delivery(session, Refused(id, RecipientBusy))]; }
      if outgoing.value >= ROOM_CAPACITY - 1 || |invitations| >= MAX_PENDING {
        return [Delivery(session, Refused(id, ResourceLimit))];
      }
      var profile := profiles[session];
      if peer in profile.lastInvite && now - profile.lastInvite[peer] < RATE_LIMIT_MS {
        return [Delivery(session, Refused(id, RateLimited))];
      }
      profiles := profiles[session := profile.(lastInvite := profile.lastInvite[peer := now])];
      invitations := invitations[drawn :=
        Pending(drawn, session, target, peer, Some(room), mesh, now + ONLINE_INVITATION_LIFETIME_SECONDS * 1000)];
      out := [Delivery(session, ContactInvited(id, drawn)),
              Delivery(target, ContactInvitation(drawn, profile.identity, profile.name, mesh))];
    }

    method RespondToContact(session: Id, id: Id, invitation: Id, decision: Decision, rooms: RoomRegistry, now: int,
                            token: Option<Id>) returns (out: seq<Delivery>)
      modifies `invitations, rooms`rooms
      ensures Outcome(State(), rooms.View(), out)
        == RespondContact(old(State()), old(rooms.View()), session, id, invitation, decision, now, token)
    {
      if invitation !in invitations || invitations[invitation].recipient != session {
        return [Delivery(session, Refused(id, InvitationUnavailable))];
      }
      var i := invitations[invitation];
      invitations := invitations - {invitation};
      out := [Delivery(session, ContactResponded(id))];
      var answer := ContactAnswer(State(), rooms.View(), session, i, decision, now);
      if answer.Some? { return out + InvitationEnds(i, answer.value); }
      var result := rooms.CreateInvitation(i.sender, i.room.value, now, token);
      if result.Failure? { return out + InvitationEnds(i, Unavailable); }
      out := out + [Delivery(session, ContactAccepted(invitation, i.room.value, i.mesh, result.value))];
      out := out + InvitationEnds(i, Accepted);
    }

    method HandleRequest(session: Id, id: Id, r: Request, rooms: RoomRegistry, now: int, drawn: Fresh)
      returns (out: seq<Delivery>)
      modifies this, rooms`rooms
      ensures (State(), rooms.View()) == HandlePresence(old(State()), old(rooms.View()), session, id, r, now, drawn)
      ensures Answered(out, old(State()), old(rooms.View()), session, id, r, now, drawn)
    {
      if r.PresencePublish? { out := Publish(session, id, r, rooms, now, drawn); return; }
      if session !in profiles { return [Delivery(session, Refused(id, PresenceRequired))]; }
      ghost var p, reg := State(), rooms.View();
      match r {
        case MeshLeave(mesh) => out := LeaveMesh(session, id, mesh, rooms, now, drawn);
        case DirectSend(peer, sdp) => out := SendDirect(session, id, peer, sdp);
        case MeshRelay(mesh, peer, payload) => out := RelayMesh(session, id, mesh, peer, payload);
        case KnockRequest(peer) =>
          out := RequestKnock(session, id, peer, rooms, now, drawn.invitation);
          KnockIsAnswer(p, reg, session, id, r, now, drawn);
        case KnockRespond(invitation, decision, offered) =>
          out := RespondToKnock(session, id, invitation, decision, offered, rooms, now, drawn.token);
          ResponseIsAnswer(p, reg, session, id, r, now, drawn);
        case ContactInvite(peer, room, mesh) =>
          out := Invite(session, id, peer, room, mesh, rooms, now, drawn.invitation);
          InviteIsAnswer(p, reg, session, id, r, now, drawn);
        case ContactRespond(invitation, decision) =>
          out := RespondToContact(session, id, invitation, decision, rooms, now, drawn.token);
          ContactIsAnswer(p, reg, session, id, r, now, drawn);
        case _ => out := [Delivery(session, Refused(id, InvalidMessage))];
      }
    }
  }

  /** An outcome that is the answer to a presence request. */
  ghost predicate IsAnswer(x: Outcome, p: Presence, reg: Registry, session: Id, id: Id, r: Request, now: int,
                           drawn: Fresh)
  {
    && (x.presence, x.registry) == HandlePresence(p, reg, session, id, r, now, drawn)
    && Answered(x.out, p, reg, session, id, r, now, drawn)
  }

  lemma KnockIsAnswer(p: Presence, reg: Registry, session: Id, id: Id, r: Request, now: int, drawn: Fresh)
    requires session in p.profiles && r.KnockRequest?
    ensures IsAnswer(Knock(p, reg, session, id, r.peer, now, drawn.invitation), p, reg, session, id, r, now, drawn)
  {
  }

  lemma ResponseIsAnswer(p: Presence, reg: Registry, session: Id, id: Id, r: Request, now: int, drawn: Fresh)
    requires session in p.profiles && r.KnockRespond?
    ensures IsAnswer(RespondKnock(p, reg, session, id, r.invitation, r.decision, r.offered, now, drawn.token),
                     p, reg, session, id, r, now, drawn)
  {
  }

  lemma InviteIsAnswer(p: Presence, reg: Registry, session: Id, id: Id, r: Request, now: int, drawn: Fresh)
    requires session in p.profiles && r.ContactInvite?
    ensures IsAnswer(InviteContact(p, reg, session, id, r.peer, r.room, r.mesh, now, drawn.invitation),
                     p, reg, session, id, r, now, drawn)
  {
  }

  lemma ContactIsAnswer(p: Presence, reg: Registry, session: Id, id: Id, r: Request, now: int, drawn: Fresh)
    requires session in p.profiles && r.ContactRespond?
    ensures IsAnswer(RespondContact(p, reg, session, id, r.invitation, r.decision, now, drawn.token),
                     p, reg, session, id, r, now, drawn)
  {
  }

  lemma InvitationsOnly(out: seq<Delivery>, p: Presence, q: Presence, reg: Registry, now: int)
    requires InvitationsClosed(out, p, reg, now) && p.invitations == q.invitations && p.profiles == q.profiles
    ensures InvitationsClosed(out, q, reg, now)
  {
    var order :| Visits(order, p.invitations.Keys) && out == InvitationEndings(p, reg, now, order);
    SameEndings(p, q, reg, now, order);
  }

  lemma {:induction false} SameEndings(p: Presence, q: Presence, reg: Registry, now: int, order: seq<Id>)
    requires p.invitations == q.invitations && p.profiles == q.profiles && forall i <- order :: i in p.invitations
    ensures InvitationEndings(p, reg, now, order) == InvitationEndings(q, reg, now, order)
  {
    if order != [] { SameEndings(p, q, reg, now, order[..|order| - 1]); }
  }

  /** The knocks that are there when all but `left` have been looked at. */
  function KnocksIn(p: Presence, reg: Registry, now: int, left: set<Id>): map<Id, Pending> {
    map k | k in p.knocks && (k in left || KnockFate(p.profiles, reg, p.knocks[k], now).None?) :: p.knocks[k]
  }

  lemma KnockSeen(p: Presence, reg: Registry, now: int, left: set<Id>, k: Id)
    requires k in left && k in p.knocks
    ensures var all := KnocksIn(p, reg, now, left);
      && k in all && all[k] == p.knocks[k]
      && KnocksIn(p, reg, now, left - {k}) == if KnockFate(p.profiles, reg, p.knocks[k], now).Some? then all - {k}
        else all
  {
  }

  function InvitationsIn(p: Presence, reg: Registry, now: int, left: set<Id>): map<Id, Pending> {
    map i | i in p.invitations && (i in left || InvitationFate(p.profiles, reg, p.invitations[i], now).None?)
      :: p.invitations[i]
  }

  lemma InvitationSeen(p: Presence, reg: Registry, now: int, left: set<Id>, i: Id)
    requires i in left && i in p.invitations
    ensures var all := InvitationsIn(p, reg, now, left);
      && i in all && all[i] == p.invitations[i]
      && InvitationsIn(p, reg, now, left - {i})
           == if InvitationFate(p.profiles, reg, p.invitations[i], now).Some? then all - {i} else all
  {
  }

  /** The pass has refreshed every profile but those still in `left`. */
  predicate Partly(profiles: map<Id, Profile>, before: map<Id, Profile>, byIdentity: map<Identity, Id>, left: set<Id>) {
    && profiles.Keys == before.Keys
    && (forall s <- before ::
          (profiles[s] == if s in left then before[s]
            else before[s].(published := true, snapshot := View(before, byIdentity, s))))
  }

  /** What a snapshot shows does not depend on the cached snapshots. */
  lemma SameLooks(a: map<Id, Profile>, b: map<Id, Profile>, byIdentity: map<Identity, Id>, s: Id)
    requires a.Keys == b.Keys && s in a
    requires forall t <- a :: b[t].identity == a[t].identity && b[t].known == a[t].known && b[t].mesh == a[t].mesh
    ensures View(a, byIdentity, s) == View(b, byIdentity, s)
  {
    forall i | i in a[s].known ensures Look(a, byIdentity, s, i) == Look(b, byIdentity, s, i) {
    }
  }

  lemma PartlyLooks(profiles: map<Id, Profile>, before: map<Id, Profile>, byIdentity: map<Identity, Id>, left: set<Id>,
                    s: Id)
    requires Partly(profiles, before, byIdentity, left) && s in left && s in before
    ensures profiles[s] == before[s] && View(profiles, byIdentity, s) == View(before, byIdentity, s)
    ensures var next := profiles[s := profiles[s].(published := true, snapshot := View(profiles, byIdentity, s))];
      Partly(next, before, byIdentity, left - {s})
    ensures profiles[s].published && profiles[s].snapshot == View(profiles, byIdentity, s) ==>
      Partly(profiles, before, byIdentity, left - {s})
  {
    SameLooks(before, profiles, byIdentity, s);
  }

  /** The pass over the profiles when all but `left` have been brought up to date. */
  predicate Midway(profiles: map<Id, Profile>, out: seq<Delivery>, before: map<Id, Profile>,
                   byIdentity: map<Identity, Id>, left: set<Id>)
  {
    Partly(profiles, before, byIdentity, left) && ShownTo(out, before, byIdentity, Stale(before, byIdentity) - left)
  }

  lemma NothingShown(profiles: map<Id, Profile>, byIdentity: map<Identity, Id>)
    ensures Midway(profiles, [], profiles, byIdentity, profiles.Keys)
  {
  }

  lemma ShowStale(profiles: map<Id, Profile>, out: seq<Delivery>, before: map<Id, Profile>,
                  byIdentity: map<Identity, Id>, left: set<Id>, s: Id)
    requires Midway(profiles, out, before, byIdentity, left) && s in left && s in before && s in profiles
    requires !profiles[s].published || View(profiles, byIdentity, s) != profiles[s].snapshot
    ensures var snapshot := View(profiles, byIdentity, s);
      Midway(profiles[s := profiles[s].(published := true, snapshot := snapshot)],
             out + [Delivery(s, PresenceSnapshot(snapshot))], before, byIdentity, left - {s})
  {
    PartlyLooks(profiles, before, byIdentity, left, s);
    var stale := Stale(before, byIdentity);
    assert stale - (left - {s}) == (stale - left) + {s};
    ShowOne(out, before, byIdentity, stale - left, s);
  }

  lemma KeepCurrent(profiles: map<Id, Profile>, out: seq<Delivery>, before: map<Id, Profile>,
                    byIdentity: map<Identity, Id>, left: set<Id>, s: Id)
    requires Midway(profiles, out, before, byIdentity, left) && s in left && s in before && s in profiles
    requires profiles[s].published && View(profiles, byIdentity, s) == profiles[s].snapshot
    ensures Midway(profiles, out, before, byIdentity, left - {s})
  {
    PartlyLooks(profiles, before, byIdentity, left, s);
    var stale := Stale(before, byIdentity);
    assert stale - (left - {s}) == stale - left;
  }

  lemma AllShown(profiles: map<Id, Profile>, out: seq<Delivery>, before: map<Id, Profile>,
                 byIdentity: map<Identity, Id>)
    requires Midway(profiles, out, before, byIdentity, {})
    ensures profiles == Refreshed(before, byIdentity) && RefreshOut(out, before, byIdentity)
  {
    assert Stale(before, byIdentity) - {} == Stale(before, byIdentity);
  }

  lemma ShowOne(out: seq<Delivery>, profiles: map<Id, Profile>, byIdentity: map<Identity, Id>, done: set<Id>, s: Id)
    requires done <= profiles.Keys && s in profiles && s !in done && ShownTo(out, profiles, byIdentity, done)
    ensures ShownTo(out + [Delivery(s, PresenceSnapshot(View(profiles, byIdentity, s)))], profiles, byIdentity,
                    done + {s})
  {
    var next := Delivery(s, PresenceSnapshot(View(profiles, byIdentity, s)));
    assert next in out + [next];
  }
}
