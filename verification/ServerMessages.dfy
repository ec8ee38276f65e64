/** What clients ask the signaling server for, and what it sends back. */
module ServerMessages {
  import opened Wrappers

  /** A session, room, member, mesh, token or invitation identifier. */
  type Id = nat

  /** A public key. */
  type Identity = nat

  datatype Decision = Accept | Decline | Busy

  datatype Request =
    | RoomCreate
    | RoomJoin(room: Id, token: Id)
    | InviteCreate(room: Id)
    | RoomLeave(room: Id)
    | SignalSend(room: Id, to: Id, payload: seq<byte>)
    | PresencePublish(identity: Identity, name: string, busy: bool, publishedMesh: Option<Id>, known: set<Identity>)
    | MeshLeave(mesh: Id)
    | DirectSend(peer: Identity, sdp: seq<byte>)
    | MeshRelay(mesh: Id, peer: Identity, payload: seq<byte>)
    | KnockRequest(peer: Identity)
    | KnockRespond(invitation: Id, decision: Decision, offered: Option<Id>)
    | ContactInvite(peer: Identity, room: Id, mesh: Id)
    | ContactRespond(invitation: Id, decision: Decision)

  datatype Code =
    | AlreadyInRoom | ResourceLimit | InvalidInvitation | RoomFull | NotInRoom | RoomMismatch | InternalError
    | InvalidTarget | PeerNotFound | UnknownType | IdentityInUse | PresenceRequired | NotInMesh
    | RecipientUnavailable | RecipientLeft | RecipientBusy | RateLimited | InvitationUnavailable
    | InvalidMessage | AuthenticationRequired | AuthenticationFailed | IdentityMismatch

  datatype Status = Accepted | Declined | TooBusy | Expired | Cancelled | Unavailable

  /** One row of a presence snapshot; the rows are sorted by identity, so a map says the same. */
  datatype Sight = Sight(online: bool, inConversation: bool)

  datatype Message =
    | Challenge
    | Authenticated(request: Id)
    | Refused(request: Id, code: Code)
    | RoomCreated(request: Id, room: Id, peer: Id)
    | RoomJoined(request: Id, room: Id, peer: Id, peers: set<Id>)
    | RoomLeft(request: Id, room: Id)
    | PeerJoined(room: Id, peer: Id)
    | PeerLeft(room: Id, peer: Id, disconnected: bool)
    | InviteCreated(request: Id, room: Id, token: Id, seconds: int)
    | SignalReceived(room: Id, peer: Id, payload: seq<byte>)
    | SignalAccepted(request: Id)
    | PresencePublished(request: Id)
    | PresenceSnapshot(peersSeen: map<Identity, Sight>)
    | MeshLeft(request: Id)
    | MeshDeparted(mesh: Id, identity: Identity)
    | DirectReceived(identity: Identity, payload: seq<byte>)
    | DirectAccepted(request: Id)
    | MeshReceived(mesh: Id, identity: Identity, payload: seq<byte>)
    | MeshRelayed(request: Id)
    | KnockRequested(request: Id, invitation: Id)
    | KnockInvitation(invitation: Id, identity: Identity, name: string, mesh: Id)
    | KnockResponded(request: Id)
    | KnockAccepted(invitation: Id, room: Id, mesh: Id, token: Id)
    | KnockResult(invitation: Id, identity: Identity, status: Status)
    | KnockClosed(invitation: Id, status: Status)
    | ContactInvited(request: Id, invitation: Id)
    | ContactInvitation(invitation: Id, identity: Identity, name: string, mesh: Id)
    | ContactResponded(request: Id)
    | ContactAccepted(invitation: Id, room: Id, mesh: Id, token: Id)
    | ContactResult(invitation: Id, identity: Identity, status: Status)
    | ContactClosed(invitation: Id, status: Status)

  datatype Delivery = Delivery(session: Id, message: Message)

  /** The same message to every session of a table, each once, in whatever order the table iterates. */
  predicate ToAll(out: seq<Delivery>, sessions: map<Id, Id>, message: Message) {
    && |out| == |sessions|
    && (forall d <- out :: d.message == message && d.session in sessions.Values)
    && (forall p <- sessions :: Delivery(sessions[p], message) in out)
  }

  predicate ToEach(out: seq<Delivery>, sessions: set<Id>, message: Message) {
    && |out| == |sessions|
    && (forall d <- out :: d.message == message && d.session in sessions)
    && (forall s <- sessions :: Delivery(s, message) in out)
  }
}
