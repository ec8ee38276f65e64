/** What the presence registry keeps between calls. */
module PresenceProofs {
  import opened Wrappers
  import opened ServerMessages
  import opened Rooms
  import opened Presences
  import opened PresenceService
  import opened RoomProofs

  // ---- the invariant ----

  /** Identities and sessions index each other. */
  predicate Bijection(p: Presence) {
    && (forall s <- p.profiles :: p.profiles[s].identity in p.byIdentity && p.byIdentity[p.profiles[s].identity] == s)
    && (forall i <- p.byIdentity :: p.byIdentity[i] in p.profiles && p.profiles[p.byIdentity[i]].identity == i)
  }

  /** An invitation its recipient could accept, but for the clock and the room's space. */
  predicate InvitationOk(profiles: map<Id, Profile>, reg: Registry, i: Pending) {
    && Mutual(profiles, i.sender, i.recipient) && i.room.Some? && RoomOf(reg, i.sender) == i.room
    && !Occupied(profiles, reg, i.recipient)
  }

  predicate KnockOk(profiles: map<Id, Profile>, reg: Registry, k: Pending) {
    Mutual(profiles, k.sender, k.recipient) && MeshOf(profiles, k.recipient) == Some(k.mesh)
      && !Occupied(profiles, reg, k.sender)
  }

  predicate InvitesOk(p: Presence, reg: Registry) {
    forall i {:trigger p.invitations[i]} | i in p.invitations :: InvitationOk(p.profiles, reg, p.invitations[i])
  }

  predicate KnocksOk(p: Presence, reg: Registry) {
    forall k {:trigger p.knocks[k]} | k in p.knocks :: KnockOk(p.profiles, reg, p.knocks[k])
  }

  /** Nobody has two open invitations or knocks to answer, or two knocks of its own. */
  predicate OneEach(p: Presence) {
    && (forall i <- p.invitations, j <- p.invitations :: i != j ==>
      p.invitations[i].recipient != p.invitations[j].recipient)
    && (forall i <- p.knocks, j <- p.knocks :: i != j ==>
          p.knocks[i].recipient != p.knocks[j].recipient && p.knocks[i].sender != p.knocks[j].sender)
  }

  ghost predicate Limited(p: Presence) {
    && |p.invitations| <= MAX_PENDING && |p.knocks| <= MAX_PENDING
    && (forall s {:trigger Outgoing(p.invitations, s)} :: |Outgoing(p.invitations, s)| <= ROOM_CAPACITY - 1)
  }

  predicate SnapshotsOk(p: Presence) {
    forall s {:trigger p.profiles[s]} | s in p.profiles ::
      p.profiles[s].published && p.profiles[s].snapshot == View(p.profiles, p.byIdentity, s)
  }

  ghost predicate PresenceOk(p: Presence, reg: Registry) {
    Bijection(p) && InvitesOk(p, reg) && KnocksOk(p, reg) && OneEach(p) && Limited(p) && SnapshotsOk(p)
  }

  // ---- profiles that differ only in bookkeeping ----

  predicate SameFaces(a: map<Id, Profile>, b: map<Id, Profile>) {
    && a.Keys == b.Keys
    && (forall t <- a ::
          && b[t].identity == a[t].identity && b[t].known == a[t].known
          && b[t].mesh == a[t].mesh && b[t].busy == a[t].busy)
  }

  predicate Fewer(a: Presence, b: Presence) {
    && b.invitations.Keys <= a.invitations.Keys && b.knocks.Keys <= a.knocks.Keys
    && (forall i <- b.invitations :: b.invitations[i] == a.invitations[i])
    && (forall k <- b.knocks :: b.knocks[k] == a.knocks[k])
  }

  lemma FewerLimits(a: Presence, b: Presence)
    requires Fewer(a, b) && OneEach(a) && Limited(a)
    ensures OneEach(b) && Limited(b)
  {
    SmallerMap(b.invitations, a.invitations);
    SmallerMap(b.knocks, a.knocks);
    forall s ensures |Outgoing(b.invitations, s)| <= ROOM_CAPACITY - 1 {
      SmallerSet(Outgoing(b.invitations, s), Outgoing(a.invitations, s));
    }
  }

  lemma FewerPending(a: Presence, b: Presence, reg: Registry)
    requires Fewer(a, b) && SameFaces(a.profiles, b.profiles) && InvitesOk(a, reg) && KnocksOk(a, reg)
    ensures InvitesOk(b, reg) && KnocksOk(b, reg)
  {
    forall i | i in b.invitations ensures InvitationOk(b.profiles, reg, b.invitations[i]) {
      assert InvitationOk(a.profiles, reg, a.invitations[i]);
    }
    forall k | k in b.knocks ensures KnockOk(b.profiles, reg, b.knocks[k]) {
      assert KnockOk(a.profiles, reg, a.knocks[k]);
    }
  }

  lemma SameIndexes(a: Presence, b: Presence)
    requires SameFaces(a.profiles, b.profiles) && a.byIdentity == b.byIdentity && Bijection(a)
    ensures Bijection(b)
  {
  }

  lemma SameSnapshots(a: Presence, b: Presence)
    requires SameFaces(a.profiles, b.profiles) && a.byIdentity == b.byIdentity && SnapshotsOk(a)
    requires forall s <- a.profiles ::
      && b.profiles[s].published == a.profiles[s].published
      && b.profiles[s].snapshot == a.profiles[s].snapshot
    ensures SnapshotsOk(b)
  {
    forall s | s in b.profiles
      ensures b.profiles[s].published && b.profiles[s].snapshot == View(b.profiles, b.byIdentity, s) {
      SameLooks(a.profiles, b.profiles, a.byIdentity, s);
    }
  }

  // ---- maintenance ----

  predicate RoomsNamed(p: Presence) {
    forall i {:trigger p.invitations[i]} | i in p.invitations :: p.invitations[i].room.Some?
  }

  lemma OldFates(a: map<Id, Profile>, b: map<Id, Profile>, reg: Registry, x: Pending, now: int)
    requires SameFaces(a, b)
    ensures InvitationFate(a, reg, x, now).None? && x.room.Some? ==> InvitationOk(b, reg, x)
    ensures KnockFate(a, reg, x, now).None? ==> KnockOk(b, reg, x)
  {
  }

  /** Whatever happened before, maintenance leaves only answerable invitations and knocks. */
  lemma MaintainRestores(p: Presence, reg: Registry, now: int)
    requires RoomsNamed(p)
    ensures var m := Maintain(p, reg, now);
      InvitesOk(m, reg) && KnocksOk(m, reg) && RoomsNamed(m) && SameFaces(p.profiles, m.profiles) && Fewer(p, m)
  {
    var m := Maintain(p, reg, now);
    assert SameFaces(p.profiles, m.profiles);
    forall i | i in m.invitations ensures InvitationOk(m.profiles, reg, m.invitations[i]) {
      OldFates(p.profiles, m.profiles, reg, p.invitations[i], now);
    }
    forall k | k in m.knocks ensures KnockOk(m.profiles, reg, m.knocks[k]) {
      OldFates(p.profiles, m.profiles, reg, p.knocks[k], now);
    }
  }

  lemma Maintained(p: Presence, reg: Registry, now: int, m: Presence)
    requires RoomsNamed(p) && Bijection(p) && OneEach(p) && Limited(p) && m == Maintain(p, reg, now)
    ensures InvitesOk(m, reg) && KnocksOk(m, reg) && RoomsNamed(m) && SameFaces(p.profiles, m.profiles)
    ensures Bijection(m) && OneEach(m) && Limited(m)
  {
    MaintainRestores(p, reg, now);
    FewerLimits(p, m);
    SameIndexes(p, m);
  }

  lemma MaintainKeeps(p: Presence, reg: Registry, now: int)
    requires RoomsNamed(p) && Bijection(p) && OneEach(p) && Limited(p) && SnapshotsOk(p)
    ensures PresenceOk(Maintain(p, reg, now), reg)
  {
    var m := Maintain(p, reg, now);
    Maintained(p, reg, now, m);
    SameSnapshots(p, m);
  }

  lemma RefreshShows(p: Presence)
    ensures SnapshotsOk(Refresh(p)) && SameFaces(p.profiles, Refresh(p).profiles)
  {
    var n := Refresh(p);
    forall s | s in n.profiles
      ensures n.profiles[s].published && n.profiles[s].snapshot == View(n.profiles, n.byIdentity, s) {
      SameLooks(p.profiles, n.profiles, p.byIdentity, s);
    }
  }

  lemma AfterKeeps(p: Presence, reg: Registry, now: int)
    requires RoomsNamed(p) && Bijection(p) && OneEach(p) && Limited(p)
    ensures PresenceOk(After(p, reg, now), reg)
  {
    var m := Maintain(p, reg, now);
    Maintained(p, reg, now, m);
    RefreshShows(m);
    SameIndexes(m, Refresh(m));
    FewerPending(m, Refresh(m), reg);
  }

  lemma NamedRooms(p: Presence, reg: Registry)
    requires InvitesOk(p, reg)
    ensures RoomsNamed(p)
  {
    forall i | i in p.invitations ensures p.invitations[i].room.Some? {
      assert InvitationOk(p.profiles, reg, p.invitations[i]);
    }
  }

  // ---- requests ----

  lemma PublishedIndexes(p: Presence, session: Id, r: Request)
    requires Bijection(p) && r.PresencePublish? && !IdentityTaken(p, session, r.identity)
    ensures Bijection(Published(p, session, r))
  {
  }

  lemma PublishKeeps(p: Presence, reg: Registry, session: Id, r: Request, now: int)
    requires PresenceOk(p, reg) && r.PresencePublish? && !IdentityTaken(p, session, r.identity)
    ensures PresenceOk(After(Published(p, session, r), reg, now), reg)
  {
    NamedRooms(p, reg);
    PublishedIndexes(p, session, r);
    FewerLimits(p, Published(p, session, r));
    AfterKeeps(Published(p, session, r), reg, now);
  }

  lemma MeshLeaveKeeps(p: Presence, reg: Registry, session: Id, now: int)
    requires PresenceOk(p, reg) && session in p.profiles
    ensures PresenceOk(After(Departed(p, session), reg, now), reg)
  {
    NamedRooms(p, reg);
    FewerLimits(p, Departed(p, session));
    AfterKeeps(Departed(p, session), reg, now);
  }

  lemma DisconnectKeeps(p: Presence, before: Registry, reg: Registry, session: Id, now: int)
    requires PresenceOk(p, before)
    ensures PresenceOk(DisconnectPresence(p, reg, session, now), reg)
  {
    NamedRooms(p, before);
    if session in p.profiles {
      FewerLimits(p, Without(p, session));
      AfterKeeps(Without(p, session), reg, now);
    } else {
      MaintainKeeps(p, reg, now);
    }
  }

  lemma NoteFaces(p: Presence, session: Id, identity: Identity, now: int)
    requires session in p.profiles
    ensures var n := NoteInvite(p, session, identity, now);
      && SameFaces(p.profiles, n)
      && forall s <- p.profiles ::
           n[s].published == p.profiles[s].published && n[s].snapshot == p.profiles[s].snapshot
  {
  }

  lemma NoteKeeps(p: Presence, n: Presence, reg: Registry, session: Id, identity: Identity, now: int)
    requires PresenceOk(p, reg) && session in p.profiles
    requires n.profiles == NoteInvite(p, session, identity, now) && n.byIdentity == p.byIdentity
    ensures SameFaces(p.profiles, n.profiles) && Bijection(n) && SnapshotsOk(n)
  {
    NoteFaces(p, session, identity, now);
    SameIndexes(p, n);
    SameSnapshots(p, n);
  }

  lemma KnockAdds(p: Presence, session: Id, k: Pending, target: Id, drawn: Id)
    requires OneEach(p) && |p.knocks| < MAX_PENDING && Limited(p) && !KnockPending(p, session, target)
    requires k.sender == session && k.recipient == target
    ensures var n := p.(knocks := p.knocks[drawn := k]); OneEach(n) && Limited(n)
  {
    var n := p.(knocks := p.knocks[drawn := k]);
    assert n.invitations == p.invitations;
    assert forall s :: Outgoing(n.invitations, s) == Outgoing(p.invitations, s);
  }

  /** What was checked before a knock is taken. */
  lemma KnockGranted(p: Presence, reg: Registry, session: Id, peer: Identity, now: int, k: Pending)
    requires session in p.profiles && KnockRefusal(p, reg, session, peer, now).None?
    requires k.sender == session && k.recipient == p.byIdentity[peer]
    requires k.recipient in p.profiles ==> Some(k.mesh) == p.profiles[k.recipient].mesh
    ensures KnockOk(p.profiles, reg, k) && !KnockPending(p, session, k.recipient) && |p.knocks| < MAX_PENDING
  {
  }

  lemma KnockTaken(p: Presence, n: Presence, reg: Registry, session: Id, peer: Identity, now: int, k: Pending,
                   drawn: Id)
    requires PresenceOk(p, reg) && session in p.profiles && k.sender == session
    requires n == p.(profiles := NoteInvite(p, session, peer, now), knocks := p.knocks[drawn := k])
    requires KnockOk(p.profiles, reg, k) && !KnockPending(p, session, k.recipient) && |p.knocks| < MAX_PENDING
    ensures PresenceOk(n, reg)
  {
    NoteKeeps(p, n, reg, session, peer, now);
    KnockAdds(p, session, k, k.recipient, drawn);
    SameLimits(p.(knocks := n.knocks), n);
    AddedKnockOk(p, n, reg, drawn);
  }

  lemma KnockKeeps(p: Presence, reg: Registry, session: Id, id: Id, peer: Identity, now: int, drawn: Id)
    requires PresenceOk(p, reg) && session in p.profiles
    ensures PresenceOk(Knock(p, reg, session, id, peer, now, drawn).presence, reg)
  {
    if KnockRefusal(p, reg, session, peer, now).None? {
      var n := Knock(p, reg, session, id, peer, now, drawn).presence;
      KnockGranted(p, reg, session, peer, now, n.knocks[drawn]);
      KnockTaken(p, n, reg, session, peer, now, n.knocks[drawn], drawn);
    }
  }

  lemma AddedKnockOk(p: Presence, n: Presence, reg: Registry, drawn: Id)
    requires InvitesOk(p, reg) && KnocksOk(p, reg) && SameFaces(p.profiles, n.profiles)
      && n.invitations == p.invitations
    requires drawn in n.knocks && n.knocks == p.knocks[drawn := n.knocks[drawn]]
      && KnockOk(n.profiles, reg, n.knocks[drawn])
    ensures InvitesOk(n, reg) && KnocksOk(n, reg)
  {
    var shown := p.(profiles := n.profiles);
    FewerPending(p, shown, reg);
    forall k | k in n.knocks ensures KnockOk(n.profiles, reg, n.knocks[k]) {
      if k != drawn { assert KnockOk(shown.profiles, reg, shown.knocks[k]); }
    }
    forall i | i in n.invitations ensures InvitationOk(n.profiles, reg, n.invitations[i]) {
      assert InvitationOk(shown.profiles, reg, shown.invitations[i]);
    }
  }

  lemma SameLimits(a: Presence, b: Presence)
    requires a.invitations == b.invitations && a.knocks == b.knocks && OneEach(a) && Limited(a)
    ensures OneEach(b) && Limited(b)
  {
    assert forall s :: Outgoing(b.invitations, s) == Outgoing(a.invitations, s);
  }

  lemma OutgoingAdds(invitations: map<Id, Pending>, i: Pending, drawn: Id, s: Id)
    ensures |Outgoing(invitations[drawn := i], s)| <= |Outgoing(invitations, s)| + if s == i.sender then 1 else 0
  {
    if s == i.sender {
      SmallerSet(Outgoing(invitations[drawn := i], s), Outgoing(invitations, s) + {drawn});
    } else {
      SmallerSet(Outgoing(invitations[drawn := i], s), Outgoing(invitations, s));
    }
  }

  lemma InvitationAdds(p: Presence, session: Id, i: Pending, target: Id, drawn: Id)
    requires OneEach(p) && Limited(p) && |p.invitations| < MAX_PENDING && !InvitedAlready(p, target)
    requires i.sender == session && i.recipient == target && |Outgoing(p.invitations, session)| < ROOM_CAPACITY - 1
    ensures var n := p.(invitations := p.invitations[drawn := i]); OneEach(n) && Limited(n)
  {
    var n := p.(invitations := p.invitations[drawn := i]);
    forall s ensures |Outgoing(n.invitations, s)| <= ROOM_CAPACITY - 1 { OutgoingAdds(p.invitations, i, drawn, s); }
  }

  /** What was checked before a contact invitation is taken. */
  lemma InviteGranted(p: Presence, reg: Registry, session: Id, peer: Identity, room: Id, now: int, i: Pending)
    requires session in p.profiles && InviteRefusal(p, reg, session, peer, room, now).None?
    requires i.sender == session && i.recipient == p.byIdentity[peer] && i.room == Some(room)
    ensures InvitationOk(p.profiles, reg, i) && !InvitedAlready(p, i.recipient) && |p.invitations| < MAX_PENDING
    ensures |Outgoing(p.invitations, session)| < ROOM_CAPACITY - 1
  {
  }

  lemma InviteTaken(p: Presence, n: Presence, reg: Registry, session: Id, peer: Identity, now: int, i: Pending,
                    drawn: Id)
    requires PresenceOk(p, reg) && session in p.profiles && i.sender == session
    requires n == p.(profiles := NoteInvite(p, session, peer, now), invitations := p.invitations[drawn := i])
    requires InvitationOk(p.profiles, reg, i) && !InvitedAlready(p, i.recipient) && |p.invitations| < MAX_PENDING
    requires |Outgoing(p.invitations, session)| < ROOM_CAPACITY - 1
    ensures PresenceOk(n, reg)
  {
    NoteKeeps(p, n, reg, session, peer, now);
    InvitationAdds(p, session, i, i.recipient, drawn);
    SameLimits(p.(invitations := n.invitations), n);
    AddedInvitationOk(p, n, reg, drawn);
  }

  lemma InviteKeeps(p: Presence, reg: Registry, session: Id, id: Id, peer: Identity, room: Id, mesh: Id, now: int,
                    drawn: Id)
    requires PresenceOk(p, reg) && session in p.profiles
    ensures PresenceOk(InviteContact(p, reg, session, id, peer, room, mesh, now, drawn).presence, reg)
  {
    if InviteRefusal(p, reg, session, peer, room, now).None? {
      var n := InviteContact(p, reg, session, id, peer, room, mesh, now, drawn).presence;
      InviteGranted(p, reg, session, peer, room, now, n.invitations[drawn]);
      InviteTaken(p, n, reg, session, peer, now, n.invitations[drawn], drawn);
    }
  }

  lemma AddedInvitationOk(p: Presence, n: Presence, reg: Registry, drawn: Id)
    requires InvitesOk(p, reg) && KnocksOk(p, reg) && SameFaces(p.profiles, n.profiles) && n.knocks == p.knocks
    requires drawn in n.invitations && n.invitations == p.invitations[drawn := n.invitations[drawn]]
    requires InvitationOk(n.profiles, reg, n.invitations[drawn])
    ensures InvitesOk(n, reg) && KnocksOk(n, reg)
  {
    var shown := p.(profiles := n.profiles);
    FewerPending(p, shown, reg);
    forall i | i in n.invitations ensures InvitationOk(n.profiles, reg, n.invitations[i]) {
      if i != drawn { assert InvitationOk(shown.profiles, reg, shown.invitations[i]); }
    }
    forall k | k in n.knocks ensures KnockOk(n.profiles, reg, n.knocks[k]) {
      assert KnockOk(shown.profiles, reg, shown.knocks[k]);
    }
  }

  /** Handing out a room token changes nobody's room. */
  lemma SameRooms(p: Presence, reg: Registry, n: Registry)
    requires reg.members == n.members && InvitesOk(p, reg) && KnocksOk(p, reg)
    ensures InvitesOk(p, n) && KnocksOk(p, n)
  {
    forall i | i in p.invitations ensures InvitationOk(p.profiles, n, p.invitations[i]) {
      assert InvitationOk(p.profiles, reg, p.invitations[i]);
    }
    forall k | k in p.knocks ensures KnockOk(p.profiles, n, p.knocks[k]) {
      assert KnockOk(p.profiles, reg, p.knocks[k]);
    }
  }

  /** Nothing changed but that something pending is gone, and nobody entered or left a room. */
  predicate OnlyAnswered(p: Presence, reg: Registry, n: Presence, after: Registry) {
    Fewer(p, n) && n.profiles == p.profiles && n.byIdentity == p.byIdentity && reg.members == after.members
  }

  lemma FewerKeeps(p: Presence, reg: Registry, n: Presence, after: Registry)
    requires PresenceOk(p, reg) && OnlyAnswered(p, reg, n, after)
    ensures PresenceOk(n, after)
  {
    FewerLimits(p, n);
    FewerPending(p, n, reg);
    SameRooms(n, reg, after);
  }

  lemma IssueStays(reg: Registry, issuer: Id, room: Id, now: int, token: Option<Id>)
    ensures Issue(Expire(reg, now), issuer, room, now, token).0.members == reg.members
  {
  }

  lemma KnockAnswered(p: Presence, reg: Registry, session: Id, id: Id, invitation: Id, decision: Decision,
                      offered: Option<Id>, now: int, token: Option<Id>)
    ensures var x := RespondKnock(p, reg, session, id, invitation, decision, offered, now, token);
      OnlyAnswered(p, reg, x.presence, x.registry)
  {
    var x := RespondKnock(p, reg, session, id, invitation, decision, offered, now, token);
    if offered.Some? { IssueStays(reg, session, offered.value, now, token); }
    assert x.presence == p || x.presence == p.(knocks := p.knocks - {invitation});
  }

  lemma ContactAnswered(p: Presence, reg: Registry, session: Id, id: Id, invitation: Id, decision: Decision, now: int,
                        token: Option<Id>)
    ensures var x := RespondContact(p, reg, session, id, invitation, decision, now, token);
      OnlyAnswered(p, reg, x.presence, x.registry)
  {
    var x := RespondContact(p, reg, session, id, invitation, decision, now, token);
    if invitation in p.invitations && p.invitations[invitation].room.Some? {
      IssueStays(reg, p.invitations[invitation].sender, p.invitations[invitation].room.value, now, token);
    }
    assert x.presence == p || x.presence == p.(invitations := p.invitations - {invitation});
  }

  lemma OnlyAnswers(p: Presence, reg: Registry, session: Id, id: Id, r: Request, now: int, drawn: Fresh)
    requires session in p.profiles && (r.KnockRespond? || r.ContactRespond?)
    ensures var h := HandlePresence(p, reg, session, id, r, now, drawn); OnlyAnswered(p, reg, h.0, h.1)
  {
    if r.KnockRespond? {
      KnockAnswered(p, reg, session, id, r.invitation, r.decision, r.offered, now, drawn.token);
      ResponseIsAnswer(p, reg, session, id, r, now, drawn);
    } else {
      ContactAnswered(p, reg, session, id, r.invitation, r.decision, now, drawn.token);
      ContactIsAnswer(p, reg, session, id, r, now, drawn);
    }
  }

  lemma WhatAskingDoes(p: Presence, reg: Registry, session: Id, id: Id, r: Request, now: int, drawn: Fresh)
    requires session in p.profiles
    ensures var h := HandlePresence(p, reg, session, id, r, now, drawn);
      && (r.KnockRequest? ==> h == (Knock(p, reg, session, id, r.peer, now, drawn.invitation).presence, reg))
      && (r.ContactInvite? ==>
            h == (InviteContact(p, reg, session, id, r.peer, r.room, r.mesh, now, drawn.invitation).presence, reg))
  {
  }

  lemma AskKeeps(p: Presence, reg: Registry, session: Id, id: Id, r: Request, now: int, drawn: Fresh, n: Presence)
    requires PresenceOk(p, reg) && session in p.profiles && (r.KnockRequest? || r.ContactInvite?)
    requires r.KnockRequest? ==> n == Knock(p, reg, session, id, r.peer, now, drawn.invitation).presence
    requires r.ContactInvite? ==>
      n == InviteContact(p, reg, session, id, r.peer, r.room, r.mesh, now, drawn.invitation).presence
    ensures PresenceOk(n, reg)
  {
    if r.KnockRequest? { KnockKeeps(p, reg, session, id, r.peer, now, drawn.invitation); }
    else { InviteKeeps(p, reg, session, id, r.peer, r.room, r.mesh, now, drawn.invitation); }
  }

  lemma AnswerKeeps(p: Presence, reg: Registry, session: Id, id: Id, r: Request, now: int, drawn: Fresh, n: Presence,
                    after: Registry)
    requires PresenceOk(p, reg) && session in p.profiles && (r.KnockRespond? || r.ContactRespond?)
    requires (n, after) == HandlePresence(p, reg, session, id, r, now, drawn)
    ensures PresenceOk(n, after)
  {
    OnlyAnswers(p, reg, session, id, r, now, drawn);
    FewerKeeps(p, reg, n, after);
  }

  lemma WhatProfilesDo(p: Presence, reg: Registry, session: Id, id: Id, r: Request, now: int, drawn: Fresh)
    ensures var h := HandlePresence(p, reg, session, id, r, now, drawn);
      && (r.PresencePublish? ==>
            h == (if PublishRefused(p, session, r.identity) then p else After(Published(p, session, r), reg, now), reg))
      && (r.MeshLeave? ==>
            h == (p, reg) || (session in p.profiles && h == (After(Departed(p, session), reg, now), reg)))
  {
  }

  lemma ProfileKeeps(p: Presence, reg: Registry, session: Id, id: Id, r: Request, now: int, drawn: Fresh, n: Presence)
    requires PresenceOk(p, reg) && (r.PresencePublish? || r.MeshLeave?)
    requires r.PresencePublish? ==>
      n == if PublishRefused(p, session, r.identity) then p else After(Published(p, session, r), reg, now)
    requires r.MeshLeave? ==> n == p || (session in p.profiles && n == After(Departed(p, session), reg, now))
    ensures PresenceOk(n, reg)
  {
    if r.PresencePublish? {
      if !PublishRefused(p, session, r.identity) { PublishKeeps(p, reg, session, r, now); }
    } else if session in p.profiles {
      MeshLeaveKeeps(p, reg, session, now);
    }
  }

  lemma OthersKeep(p: Presence, reg: Registry, session: Id, id: Id, r: Request, now: int, drawn: Fresh)
    requires !r.PresencePublish? && !r.MeshLeave?
    requires session !in p.profiles || (!r.KnockRequest? && !r.KnockRespond? && !r.ContactInvite? && !r.ContactRespond?)
    ensures HandlePresence(p, reg, session, id, r, now, drawn) == (p, reg)
  {
  }

  /** Every presence request keeps the invariant. */
  lemma HandlePresenceKeeps(p: Presence, reg: Registry, session: Id, id: Id, r: Request, now: int, drawn: Fresh)
    requires PresenceOk(p, reg)
    ensures var (n, after) := HandlePresence(p, reg, session, id, r, now, drawn); PresenceOk(n, after)
  {
    var h := HandlePresence(p, reg, session, id, r, now, drawn);
    if r.PresencePublish? || r.MeshLeave? {
      WhatProfilesDo(p, reg, session, id, r, now, drawn);
      ProfileKeeps(p, reg, session, id, r, now, drawn, h.0);
    }
    else if session !in p.profiles { OthersKeep(p, reg, session, id, r, now, drawn); }
    else if r.KnockRequest? || r.ContactInvite? {
      WhatAskingDoes(p, reg, session, id, r, now, drawn);
      AskKeeps(p, reg, session, id, r, now, drawn, h.0);
    }
    else if r.KnockRespond? || r.ContactRespond? { AnswerKeeps(p, reg, session, id, r, now, drawn, h.0, h.1); }
    else { OthersKeep(p, reg, session, id, r, now, drawn); }
  }

  // ---- what acceptance leads to ----

  predicate CanIssue(reg: Registry, room: Id, now: int, token: Option<Id>) {
    && room in reg.rooms && |Unexpired(reg.rooms[room].invitations, now)| < MAX_INVITATIONS_PER_ROOM && token.Some?
  }

  lemma IssueSucceeds(reg: Registry, session: Id, room: Id, now: int, token: Option<Id>)
    requires session in reg.members && reg.members[session].room == room && room in reg.rooms
    ensures var result := Issue(Expire(reg, now), session, room, now, token).1;
      if CanIssue(reg, room, now, token) then result == Success(token.value) else result.Failure?
  {
  }

  lemma AcceptAnswer(p: Presence, reg: Registry, i: Pending, now: int)
    requires InvitationOk(p.profiles, reg, i) && now < i.expiresAt
    ensures ContactAnswer(p, reg, i.recipient, i, Accept, now)
      == if CanJoin(reg, i.room) then None else Some(Unavailable)
  {
  }

  lemma PlacedInRoom(reg: Registry, session: Id, room: Option<Id>)
    requires Consistent(reg) && RoomOf(reg, session) == room && room.Some?
    ensures session in reg.members && reg.members[session].room == room.value && room.value in reg.rooms
  {
    assert MemberOk(reg, session);
  }

  /** Accepting an unexpired invitation is never answered cancelled or busy: it succeeds exactly when the room
      has space and a token could be issued, and is unavailable otherwise. */
  lemma ContactAcceptEnds(p: Presence, reg: Registry, session: Id, id: Id, invitation: Id, now: int, token: Option<Id>)
    requires InvitesOk(p, reg) && Consistent(reg)
    requires invitation in p.invitations && p.invitations[invitation].recipient == session
    requires now < p.invitations[invitation].expiresAt
    ensures var i := p.invitations[invitation];
      var x := RespondContact(p, reg, session, id, invitation, Accept, now, token);
      && i.room.Some?
      && x.presence == p.(invitations := p.invitations - {invitation})
      && x.out == [Delivery(session, ContactResponded(id))]
           + (if CanJoin(reg, i.room) && CanIssue(reg, i.room.value, now, token) then
                [Delivery(session, ContactAccepted(invitation, i.room.value, i.mesh, token.value))]
                  + InvitationEnds(i, Accepted)
              else InvitationEnds(i, Unavailable))
  {
    var i := p.invitations[invitation];
    assert InvitationOk(p.profiles, reg, i);
    var left := p.(invitations := p.invitations - {invitation});
    PlacedInRoom(reg, i.sender, i.room);
    AcceptAnswer(left, reg, i, now);
    IssueSucceeds(reg, i.sender, i.room.value, now, token);
  }

  lemma KnockAcceptEnds(p: Presence, reg: Registry, session: Id, id: Id, invitation: Id, room: Id, now: int,
                        token: Option<Id>)
    requires KnocksOk(p, reg) && Consistent(reg)
    requires invitation in p.knocks && p.knocks[invitation].recipient == session && now < p.knocks[invitation].expiresAt
    ensures var k := p.knocks[invitation];
      var x := RespondKnock(p, reg, session, id, invitation, Accept, Some(room), now, token);
      && x.presence == p.(knocks := p.knocks - {invitation})
      && x.out == [Delivery(session, KnockResponded(id))]
           + (if RoomOf(reg, session) == Some(room) && CanJoin(reg, Some(room)) && CanIssue(reg, room, now, token) then
                [Delivery(k.sender, KnockAccepted(invitation, room, k.mesh, token.value))] + KnockEnds(k, Accepted)
              else KnockEnds(k, Unavailable))
  {
    var k := p.knocks[invitation];
    var left := p.(knocks := p.knocks - {invitation});
    assert KnockOk(p.profiles, reg, k);
    KnockAcceptAnswer(left, reg, session, k, room, now);
    if RoomOf(reg, session) == Some(room) {
      PlacedInRoom(reg, session, Some(room));
      IssueSucceeds(reg, session, room, now, token);
    }
  }

  lemma KnockAcceptAnswer(p: Presence, reg: Registry, session: Id, k: Pending, room: Id, now: int)
    requires KnockOk(p.profiles, reg, k) && k.recipient == session && now < k.expiresAt
    ensures KnockAnswer(p, reg, session, k, Accept, Some(room), now)
      == if RoomOf(reg, session) == Some(room) && CanJoin(reg, Some(room)) then None else Some(Unavailable)
  {
  }

  /** The token that came with an acceptance opens the room to the accepting peer. */
  lemma AcceptedCanEnter(p: Presence, reg: Registry, session: Id, id: Id, invitation: Id, now: int, token: Option<Id>)
    requires InvitesOk(p, reg) && Consistent(reg)
    requires invitation in p.invitations && p.invitations[invitation].recipient == session
    requires now < p.invitations[invitation].expiresAt
    requires var i := p.invitations[invitation];
      i.room.Some? && CanJoin(reg, i.room) && CanIssue(reg, i.room.value, now, token)
    ensures var after := RespondContact(p, reg, session, id, invitation, Accept, now, token).registry;
      && Enters(after, session, p.invitations[invitation].room.value, token.value)
      && Enters(Expire(after, now), session, p.invitations[invitation].room.value, token.value)
  {
    var i := p.invitations[invitation];
    assert InvitationOk(p.profiles, reg, i);
    assert MemberOk(reg, i.sender);
    var left := p.(invitations := p.invitations - {invitation});
    assert ContactAnswer(left, reg, session, i, Accept, now).None?;
  }
}
