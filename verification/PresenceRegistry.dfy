/** Who is present, who knows whom, and the invitations and knocks between them. */
module Presences {
  import opened Wrappers
  import opened ServerMessages
  import opened Rooms

  const MAX_SESSIONS := 128
  const MAX_PENDING := 64
  const RATE_LIMIT_MS := 10000
  const KNOCK_LIFETIME_MS := 60000
  const ONLINE_INVITATION_LIFETIME_SECONDS := 60

  datatype Profile = Profile(identity: Identity, name: string, mesh: Option<Id>, known: set<Identity>, busy: bool,
                             snapshot: map<Identity, Sight>, published: bool, lastInvite: map<Identity, int>)

  /** An unanswered contact invitation, or a knock, whose room stays empty. */
  datatype Pending = Pending(id: Id, sender: Id, recipient: Id, identity: Identity, room: Option<Id>, mesh: Id,
                             expiresAt: int)

  datatype Presence = Presence(profiles: map<Id, Profile>, byIdentity: map<Identity, Id>,
                               invitations: map<Id, Pending>, knocks: map<Id, Pending>)

  datatype Outcome = Outcome(presence: Presence, registry: Registry, out: seq<Delivery>)

  predicate Mutual(profiles: map<Id, Profile>, a: Id, b: Id) {
    && a in profiles && b in profiles && a != b
    && profiles[b].identity in profiles[a].known && profiles[a].identity in profiles[b].known
  }

  /** The session behind an identity, if one is present. */
  function SessionOf(byIdentity: map<Identity, Id>, identity: Identity): Option<Id> {
    if identity in byIdentity then Some(byIdentity[identity]) else None
  }

  predicate MutualWith(p: Presence, a: Id, target: Option<Id>) { target.Some? && Mutual(p.profiles, a, target.value) }

  predicate Occupied(profiles: map<Id, Profile>, reg: Registry, session: Id) {
    (session in profiles && profiles[session].busy) || session in reg.members
  }

  function MeshOf(profiles: map<Id, Profile>, session: Id): Option<Id> {
    if session in profiles then profiles[session].mesh else None
  }

  // ---- maintenance ----

  /** Why a knock can no longer be answered. */
  function KnockFate(profiles: map<Id, Profile>, reg: Registry, k: Pending, now: int): Option<Status> {
    if now >= k.expiresAt then Some(Expired)
    else if !Mutual(profiles, k.sender, k.recipient) || MeshOf(profiles, k.recipient) != Some(k.mesh) then
      Some(Cancelled)
    else if Occupied(profiles, reg, k.sender) then Some(TooBusy)
    else None
  }

  function InvitationFate(profiles: map<Id, Profile>, reg: Registry, i: Pending, now: int): Option<Status> {
    if now >= i.expiresAt then Some(Expired)
    else if !Mutual(profiles, i.sender, i.recipient) || RoomOf(reg, i.sender) != i.room then Some(Cancelled)
    else if Occupied(profiles, reg, i.recipient) then Some(TooBusy)
    else None
  }

  function LiveKnocks(p: Presence, reg: Registry, now: int): map<Id, Pending> {
    map k | k in p.knocks && KnockFate(p.profiles, reg, p.knocks[k], now).None? :: p.knocks[k]
  }

  function LiveInvitations(p: Presence, reg: Registry, now: int): map<Id, Pending> {
    map i | i in p.invitations && InvitationFate(p.profiles, reg, p.invitations[i], now).None? :: p.invitations[i]
  }

  function RecentOnly(invites: map<Identity, int>, now: int): map<Identity, int> {
    map i | i in invites && now - invites[i] < RATE_LIMIT_MS :: invites[i]
  }

  function Forget(profiles: map<Id, Profile>, now: int): map<Id, Profile> {
    map s | s in profiles :: profiles[s].(lastInvite := RecentOnly(profiles[s].lastInvite, now))
  }

  function Maintain(p: Presence, reg: Registry, now: int): Presence {
    Presence(Forget(p.profiles, now), p.byIdentity, LiveInvitations(p, reg, now), LiveKnocks(p, reg, now))
  }

  function KnockEnds(k: Pending, status: Status): seq<Delivery> {
    [Delivery(k.sender, KnockResult(k.id, k.identity, status)), Delivery(k.recipient, KnockClosed(k.id, status))]
  }

  function InvitationEnds(i: Pending, status: Status): seq<Delivery> {
    [Delivery(i.sender, ContactResult(i.id, i.identity, status)), Delivery(i.recipient, ContactClosed(i.id, status))]
  }

  // ---- snapshots ----

  predicate Online(profiles: map<Id, Profile>, byIdentity: map<Identity, Id>, s: Id, identity: Identity) {
    identity in byIdentity && Mutual(profiles, s, byIdentity[identity])
  }

  function Look(profiles: map<Id, Profile>, byIdentity: map<Identity, Id>, s: Id, identity: Identity): Sight {
    var online := Online(profiles, byIdentity, s, identity);
    Sight(online, online && MeshOf(profiles, byIdentity[identity]).Some?)
  }

  function View(profiles: map<Id, Profile>, byIdentity: map<Identity, Id>, s: Id): map<Identity, Sight>
    requires s in profiles
  {
    map i | i in profiles[s].known :: Look(profiles, byIdentity, s, i)
  }

  function Refreshed(profiles: map<Id, Profile>, byIdentity: map<Identity, Id>): map<Id, Profile> {
    map s | s in profiles :: profiles[s].(published := true, snapshot := View(profiles, byIdentity, s))
  }

  function Refresh(p: Presence): Presence { p.(profiles := Refreshed(p.profiles, p.byIdentity)) }

  /** Sessions whose last snapshot is missing or out of date. */
  function Stale(profiles: map<Id, Profile>, byIdentity: map<Identity, Id>): set<Id> {
    set s | s in profiles && (!profiles[s].published || profiles[s].snapshot != View(profiles, byIdentity, s))
  }

  // ---- requests ----

  predicate IdentityTaken(p: Presence, session: Id, identity: Identity) {
    || (identity in p.byIdentity && p.byIdentity[identity] != session)
    || (session in p.profiles && p.profiles[session].identity != identity)
  }

  predicate PublishRefused(p: Presence, session: Id, identity: Identity) {
    IdentityTaken(p, session, identity) || (session !in p.profiles && |p.profiles| >= MAX_SESSIONS)
  }

  function Published(p: Presence, session: Id, r: Request): Presence
    requires r.PresencePublish?
  {
    var before := if session in p.profiles then p.profiles[session]
                  else Profile(r.identity, r.name, None, {}, false, map[], false, map[]);
    p.(profiles := p.profiles[session := before.(identity := r.identity, name := r.name, busy := r.busy,
                                                 mesh := r.publishedMesh, known := r.known)],
       byIdentity := p.byIdentity[r.identity := session])
  }

  function Departed(p: Presence, session: Id): Presence
    requires session in p.profiles
  {
    p.(profiles := p.profiles[session := p.profiles[session].(mesh := None)])
  }

  function MeshMates(p: Presence, session: Id, mesh: Id): set<Id> {
    set s | s in p.profiles && s != session && p.profiles[s].mesh == Some(mesh)
  }

  function Refuse(session: Id, id: Id, code: Code): seq<Delivery> { [Delivery(session, Refused(id, code))] }

  function Direct(p: Presence, session: Id, id: Id, peer: Identity, sdp: seq<byte>): seq<Delivery>
    requires session in p.profiles
  {
    var target := SessionOf(p.byIdentity, peer);
    if !MutualWith(p, session, target) then Refuse(session, id, RecipientUnavailable)
    else [Delivery(target.value, DirectReceived(p.profiles[session].identity, sdp)),
      Delivery(session, DirectAccepted(id))]
  }

  function Relay(p: Presence, session: Id, id: Id, mesh: Id, peer: Identity, payload: seq<byte>): seq<Delivery>
    requires session in p.profiles
  {
    var target := SessionOf(p.byIdentity, peer);
    if p.profiles[session].mesh != Some(mesh) then Refuse(session, id, NotInMesh)
    else if target.None? || target.value == session || target.value !in p.profiles then
      Refuse(session, id, RecipientUnavailable)
    else if p.profiles[target.value].mesh != Some(mesh) then Refuse(session, id, RecipientLeft)
    else [Delivery(target.value, MeshReceived(mesh, p.profiles[session].identity, payload)),
      Delivery(session, MeshRelayed(id))]
  }

  predicate TooSoon(profile: Profile, identity: Identity, now: int) {
    identity in profile.lastInvite && now - profile.lastInvite[identity] < RATE_LIMIT_MS
  }

  predicate KnockPending(p: Presence, session: Id, target: Id) {
    exists k <- p.knocks :: p.knocks[k].sender == session || p.knocks[k].recipient == target
  }

  function NoteInvite(p: Presence, session: Id, identity: Identity, now: int): map<Id, Profile>
    requires session in p.profiles
  {
    p.profiles[session := p.profiles[session].(lastInvite := p.profiles[session].lastInvite[identity := now])]
  }

  function KnockRefusal(p: Presence, reg: Registry, session: Id, peer: Identity, now: int): Option<Code>
    requires session in p.profiles
  {
    var target := SessionOf(p.byIdentity, peer);
    if !MutualWith(p, session, target) then Some(RecipientUnavailable)
    else if Occupied(p.profiles, reg, session) then Some(RecipientBusy)
    else if p.profiles[target.value].mesh.None? then Some(NotInMesh)
    else if KnockPending(p, session, target.value) then Some(RecipientBusy)
    else if |p.knocks| >= MAX_PENDING then Some(ResourceLimit)
    else if TooSoon(p.profiles[session], peer, now) then Some(RateLimited)
    else None
  }

  function Knock(p: Presence, reg: Registry, session: Id, id: Id, peer: Identity, now: int, drawn: Id): Outcome
    requires session in p.profiles
  {
    match KnockRefusal(p, reg, session, peer, now)
    case Some(code) => Outcome(p, reg, Refuse(session, id, code))
    case None =>
      var target := p.byIdentity[peer];
      var mesh := p.profiles[target].mesh.value;
      Outcome(p.(profiles := NoteInvite(p, session, peer, now),
                 knocks := p.knocks[drawn :=
                   Pending(drawn, session, target, peer, None, mesh, now + KNOCK_LIFETIME_MS)]),
              reg,
              [Delivery(session, KnockRequested(id, drawn)),
               Delivery(target, KnockInvitation(drawn, p.profiles[session].identity, p.profiles[session].name, mesh))])
  }

  /** The answer to a knock that is still there; `None` when it is to be let in. */
  function KnockAnswer(p: Presence, reg: Registry, session: Id, k: Pending, decision: Decision, offered: Option<Id>,
                       now: int): Option<Status>
  {
    if now >= k.expiresAt then Some(Expired)
    else if !Mutual(p.profiles, k.sender, session) || MeshOf(p.profiles, session) != Some(k.mesh) then Some(Cancelled)
    else if Occupied(p.profiles, reg, k.sender) || decision == Busy then Some(TooBusy)
    else if decision == Decline then Some(Declined)
    else if RoomOf(reg, session) != offered || !CanJoin(reg, offered) then Some(Unavailable)
    else None
  }

  function RespondKnock(p: Presence, reg: Registry, session: Id, id: Id, invitation: Id, decision: Decision,
                        offered: Option<Id>, now: int, token: Option<Id>): Outcome
  {
    if invitation !in p.knocks || p.knocks[invitation].recipient != session then
      Outcome(p, reg, Refuse(session, id, InvitationUnavailable))
    else
      var k := p.knocks[invitation];
      var left := p.(knocks := p.knocks - {invitation});
      match KnockAnswer(left, reg, session, k, decision, offered, now)
      case Some(status) => Outcome(left, reg, [Delivery(session, KnockResponded(id))] + KnockEnds(k, status))
      case None =>
        var (issued, result) := Issue(Expire(reg, now), session, offered.value, now, token);
        if result.Failure? then
          Outcome(left, issued, [Delivery(session, KnockResponded(id))] + KnockEnds(k, Unavailable))
        else
          Outcome(left, issued,
                  [Delivery(session, KnockResponded(id)),
                   Delivery(k.sender, KnockAccepted(invitation, offered.value, k.mesh, result.value))]
                  + KnockEnds(k, Accepted))
  }

  predicate InvitedAlready(p: Presence, target: Id) {
    exists i <- p.invitations :: p.invitations[i].recipient == target
  }

  function Outgoing(invitations: map<Id, Pending>, session: Id): set<Id> {
    set i | i in invitations && invitations[i].sender == session
  }

  function InviteRefusal(p: Presence, reg: Registry, session: Id, peer: Identity, room: Id, now: int): Option<Code>
    requires session in p.profiles
  {
    var target := SessionOf(p.byIdentity, peer);
    if !MutualWith(p, session, target) then Some(RecipientUnavailable)
    else if RoomOf(reg, session) != Some(room) then Some(NotInRoom)
    else if !CanJoin(reg, Some(room)) then Some(RoomFull)
    else if Occupied(p.profiles, reg, target.value) then Some(RecipientBusy)
    else if InvitedAlready(p, target.value) then Some(RecipientBusy)
    else if |Outgoing(p.invitations, session)| >= ROOM_CAPACITY - 1 || |p.invitations| >= MAX_PENDING then
      Some(ResourceLimit)
    else if TooSoon(p.profiles[session], peer, now) then Some(RateLimited)
    else None
  }

  function InviteContact(p: Presence, reg: Registry, session: Id, id: Id, peer: Identity, room: Id, mesh: Id, now: int,
                         drawn: Id): Outcome
    requires session in p.profiles
  {
    match InviteRefusal(p, reg, session, peer, room, now)
    case Some(code) => Outcome(p, reg, Refuse(session, id, code))
    case None =>
      var target := p.byIdentity[peer];
      var pending :=
        Pending(drawn, session, target, peer, Some(room), mesh, now + ONLINE_INVITATION_LIFETIME_SECONDS * 1000);
      Outcome(p.(profiles := NoteInvite(p, session, peer, now), invitations := p.invitations[drawn := pending]), reg,
              [Delivery(session, ContactInvited(id, drawn)),
               Delivery(target,
                 ContactInvitation(drawn, p.profiles[session].identity, p.profiles[session].name, mesh))])
  }

  function ContactAnswer(p: Presence, reg: Registry, session: Id, i: Pending, decision: Decision,
                         now: int): Option<Status> {
    if now >= i.expiresAt then Some(Expired)
    else if !Mutual(p.profiles, i.sender, session) || RoomOf(reg, i.sender) != i.room then Some(Cancelled)
    else if Occupied(p.profiles, reg, session) || decision == Busy then Some(TooBusy)
    else if decision == Decline then Some(Declined)
    else if !CanJoin(reg, i.room) then Some(Unavailable)
    else None
  }

  function RespondContact(p: Presence, reg: Registry, session: Id, id: Id, invitation: Id, decision: Decision, now: int,
                          token: Option<Id>): Outcome
  {
    if invitation !in p.invitations || p.invitations[invitation].recipient != session then
      Outcome(p, reg, Refuse(session, id, InvitationUnavailable))
    else
      var i := p.invitations[invitation];
      var left := p.(invitations := p.invitations - {invitation});
      match ContactAnswer(left, reg, session, i, decision, now)
      case Some(status) => Outcome(left, reg, [Delivery(session, ContactResponded(id))] + InvitationEnds(i, status))
      case None =>
        var (issued, result) := Issue(Expire(reg, now), i.sender, i.room.value, now, token);
        if result.Failure? then
          Outcome(left, issued, [Delivery(session, ContactResponded(id))] + InvitationEnds(i, Unavailable))
        else
          Outcome(left, issued,
                  [Delivery(session, ContactResponded(id)),
                   Delivery(session, ContactAccepted(invitation, i.room.value, i.mesh, result.value))]
                  + InvitationEnds(i, Accepted))
  }

  // ---- the whole request ----

  /** Identifiers drawn for one request: the invitation's own, and the room token a grant needs. */
  datatype Fresh = Fresh(invitation: Id, token: Option<Id>)

  function After(p: Presence, reg: Registry, now: int): Presence { Refresh(Maintain(p, reg, now)) }

  function HandlePresence(p: Presence, reg: Registry, session: Id, id: Id, r: Request, now: int,
                          drawn: Fresh): (Presence, Registry) {
    if r.PresencePublish? then
      (if PublishRefused(p, session, r.identity) then p else After(Published(p, session, r), reg, now), reg)
    else if session !in p.profiles then (p, reg)
    else match r
      case MeshLeave(mesh) =>
        (if p.profiles[session].mesh != Some(mesh) then p else After(Departed(p, session), reg, now), reg)
      case KnockRequest(peer) => (Knock(p, reg, session, id, peer, now, drawn.invitation).presence, reg)
      case KnockRespond(invitation, decision, offered) =>
        var x := RespondKnock(p, reg, session, id, invitation, decision, offered, now, drawn.token);
        (x.presence, x.registry)
      case ContactInvite(peer, room, mesh) =>
        (InviteContact(p, reg, session, id, peer, room, mesh, now, drawn.invitation).presence, reg)
      case ContactRespond(invitation, decision) =>
        var x := RespondContact(p, reg, session, id, invitation, decision, now, drawn.token);
        (x.presence, x.registry)
      case _ => (p, reg)
  }

  function Without(p: Presence, session: Id): Presence {
    if session !in p.profiles then p
    else p.(profiles := p.profiles - {session}, byIdentity := p.byIdentity - {p.profiles[session].identity})
  }

  function DisconnectPresence(p: Presence, reg: Registry, session: Id, now: int): Presence {
    if session in p.profiles then After(Without(p, session), reg, now) else Maintain(p, reg, now)
  }

  // ---- what the loops send, in the order their table iterates ----

  predicate Visits(order: seq<Id>, keys: set<Id>) {
    && |order| == |keys| && (forall k <- order :: k in keys) && (forall k <- keys :: k in order)
  }

  function KnockEndings(p: Presence, reg: Registry, now: int, order: seq<Id>): seq<Delivery>
    requires forall k <- order :: k in p.knocks
  {
    if order == [] then []
    else
      var k := p.knocks[order[|order| - 1]];
      KnockEndings(p, reg, now, order[..|order| - 1])
      + match KnockFate(p.profiles, reg, k, now) case None => [] case Some(status) => KnockEnds(k, status)
  }

  function InvitationEndings(p: Presence, reg: Registry, now: int, order: seq<Id>): seq<Delivery>
    requires forall i <- order :: i in p.invitations
  {
    if order == [] then []
    else
      var i := p.invitations[order[|order| - 1]];
      InvitationEndings(p, reg, now, order[..|order| - 1])
      + match InvitationFate(p.profiles, reg, i, now) case None => [] case Some(status) => InvitationEnds(i, status)
  }

  ghost predicate KnocksClosed(out: seq<Delivery>, p: Presence, reg: Registry, now: int) {
    exists order :: Visits(order, p.knocks.Keys) && out == KnockEndings(p, reg, now, order)
  }

  ghost predicate InvitationsClosed(out: seq<Delivery>, p: Presence, reg: Registry, now: int) {
    exists order :: Visits(order, p.invitations.Keys) && out == InvitationEndings(p, reg, now, order)
  }

  ghost predicate MaintainOut(out: seq<Delivery>, p: Presence, reg: Registry, now: int) {
    exists a, b :: KnocksClosed(a, p, reg, now) && InvitationsClosed(b, p, reg, now) && out == a + b
  }

  predicate ShownTo(out: seq<Delivery>, profiles: map<Id, Profile>, byIdentity: map<Identity, Id>, done: set<Id>)
    requires done <= profiles.Keys
  {
    && |out| == |done|
    && (forall d <- out :: d.session in done && d.message == PresenceSnapshot(View(profiles, byIdentity, d.session)))
    && (forall s <- done :: Delivery(s, PresenceSnapshot(View(profiles, byIdentity, s))) in out)
  }

  /** One snapshot for every stale session, and none for the others. */
  predicate RefreshOut(out: seq<Delivery>, profiles: map<Id, Profile>, byIdentity: map<Identity, Id>) {
    ShownTo(out, profiles, byIdentity, Stale(profiles, byIdentity))
  }

  ghost predicate AfterOut(out: seq<Delivery>, p: Presence, reg: Registry, now: int) {
    exists a, b ::
      MaintainOut(a, p, reg, now) && RefreshOut(b, Forget(p.profiles, now), p.byIdentity) && out == a + b
  }

  /** What one request sends back. */
  ghost predicate Answered(out: seq<Delivery>, p: Presence, reg: Registry, session: Id, id: Id, r: Request, now: int,
                           drawn: Fresh)
  {
    if r.PresencePublish? then
      if PublishRefused(p, session, r.identity) then
        out == Refuse(session, id, if IdentityTaken(p, session, r.identity) then IdentityInUse else ResourceLimit)
      else
        && |out| > 0 && out[0] == Delivery(session, PresencePublished(id))
        && AfterOut(out[1..], Published(p, session, r), reg, now)
    else if session !in p.profiles then out == Refuse(session, id, PresenceRequired)
    else match r
      case MeshLeave(mesh) =>
        if p.profiles[session].mesh != Some(mesh) then out == Refuse(session, id, NotInMesh)
        else
          exists told, rest ::
            && ToEach(told, MeshMates(p, session, mesh), MeshDeparted(mesh, p.profiles[session].identity))
            && AfterOut(rest, Departed(p, session), reg, now)
            && out == [Delivery(session, MeshLeft(id))] + told + rest
      case DirectSend(peer, sdp) => out == Direct(p, session, id, peer, sdp)
      case MeshRelay(mesh, peer, payload) => out == Relay(p, session, id, mesh, peer, payload)
      case KnockRequest(peer) => out == Knock(p, reg, session, id, peer, now, drawn.invitation).out
      case KnockRespond(invitation, decision, offered) =>
        out == RespondKnock(p, reg, session, id, invitation, decision, offered, now, drawn.token).out
      case ContactInvite(peer, room, mesh) =>
        out == InviteContact(p, reg, session, id, peer, room, mesh, now, drawn.invitation).out
      case ContactRespond(invitation, decision) =>
        out == RespondContact(p, reg, session, id, invitation, decision, now, drawn.token).out
      case _ => out == Refuse(session, id, InvalidMessage)
  }
}
