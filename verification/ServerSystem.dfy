/** The server as one state machine: authenticated clients, rooms, and presence. */
module ServerSystem {
  import opened Wrappers
  import opened ServerMessages
  import opened Rooms
  import opened Presences
  import opened PresenceService
  import opened PresenceProofs

  /** Live sessions, with the identity each has proved. */
  datatype Server = Server(clients: map<Id, Option<Identity>>, rooms: Registry, presence: Presence)

  datatype Draw = Draw(room: Drawn, presence: Fresh)

  datatype ServerEvent =
    | Connect(session: Id)
    | Authenticate(session: Id, identity: Identity)
    | Ask(session: Id, id: Id, request: Request, now: int, draw: Draw)
    | Lose(session: Id, now: int)
    | Tick(now: int)

  predicate ForPresence(r: Request) {
    r.PresencePublish? || r.MeshLeave? || r.DirectSend? || r.MeshRelay? || r.KnockRequest? || r.KnockRespond?
    || r.ContactInvite? || r.ContactRespond?
  }

  predicate MovesMembers(r: Request) { r.RoomCreate? || r.RoomJoin? || r.RoomLeave? }

  predicate Claimed(clients: map<Id, Option<Identity>>, identity: Identity) {
    exists s <- clients :: clients[s] == Some(identity)
  }

  /** The requests that reach a registry: from an authenticated session, publishing only its own identity. */
  predicate Admitted(clients: map<Id, Option<Identity>>, session: Id, r: Request) {
    && session in clients && clients[session].Some?
    && (r.PresencePublish? ==> r.identity == clients[session].value)
  }

  function Dispatch(srv: Server, session: Id, id: Id, r: Request, now: int, draw: Draw): Server {
    if !Admitted(srv.clients, session, r) then srv
    else if ForPresence(r) then
      var (presence, rooms) := HandlePresence(srv.presence, srv.rooms, session, id, r, now, draw.presence);
      Server(srv.clients, rooms, presence)
    else
      var rooms := Handle(srv.rooms, session, id, r, now, draw.room).registry;
      Server(srv.clients, rooms, if MovesMembers(r) then Maintain(srv.presence, rooms, now) else srv.presence)
  }

  function Remove(srv: Server, session: Id, now: int): Server {
    if session !in srv.clients then srv
    else
      var rooms := Leave(srv.rooms, session, true).registry;
      Server(srv.clients - {session}, rooms, DisconnectPresence(srv.presence, rooms, session, now))
  }

  function Connected(srv: Server, session: Id): Server {
    if |srv.clients| >= MAX_SESSIONS then srv else srv.(clients := srv.clients[session := None])
  }

  function Proved(srv: Server, session: Id, identity: Identity): Server {
    if session !in srv.clients || srv.clients[session].Some? || Claimed(srv.clients, identity) then srv
    else srv.(clients := srv.clients[session := Some(identity)])
  }

  function Tidied(srv: Server, now: int): Server {
    var rooms := Expire(srv.rooms, now);
    Server(srv.clients, rooms, Maintain(srv.presence, rooms, now))
  }

  function Step(srv: Server, e: ServerEvent): Server {
    match e
    case Connect(session) => Connected(srv, session)
    case Authenticate(session, identity) => Proved(srv, session, identity)
    case Ask(session, id, request, now, draw) => Dispatch(srv, session, id, request, now, draw)
    case Lose(session, now) => Remove(srv, session, now)
    case Tick(now) => Tidied(srv, now)
  }

  /** New session and room identifiers are drawn until they are free. */
  predicate Fits(srv: Server, e: ServerEvent) {
    match e
    case Connect(session) => session !in srv.clients
    case Ask(_, _, request, _, draw) => Free(srv.rooms, request, draw.room)
    case _ => true
  }

  function RunServer(srv: Server, events: seq<ServerEvent>): Server
    decreases |events|
  {
    if events == [] then srv else RunServer(Step(srv, events[0]), events[1..])
  }

  predicate AllFit(srv: Server, events: seq<ServerEvent>)
    decreases |events|
  {
    events == [] || (Fits(srv, events[0]) && AllFit(Step(srv, events[0]), events[1..]))
  }

  const START := Server(map[], Registry(map[], map[]), Presence(map[], map[], map[], map[]))

  // ---- the invariant across both registries ----

  predicate OwnIdentities(clients: map<Id, Option<Identity>>) {
    && |clients| <= MAX_SESSIONS
    && (forall s <- clients, t <- clients :: s != t && clients[s].Some? ==> clients[s] != clients[t])
  }

  predicate MembersLive(clients: map<Id, Option<Identity>>, reg: Registry) {
    forall s <- reg.members :: s in clients && clients[s].Some?
  }

  predicate ProfilesLive(clients: map<Id, Option<Identity>>, profiles: map<Id, Profile>) {
    forall s <- profiles :: s in clients && clients[s] == Some(profiles[s].identity)
  }

  ghost predicate Inv(srv: Server) {
    && OwnIdentities(srv.clients) && MembersLive(srv.clients, srv.rooms)
    && ProfilesLive(srv.clients, srv.presence.profiles)
    && Consistent(srv.rooms) && PresenceOk(srv.presence, srv.rooms)
  }
}
