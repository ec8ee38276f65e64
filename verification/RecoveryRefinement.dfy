/** The session's own steps are those of the mesh of members. */
module RecoveryRefinement {
  import opened Wrappers
  import opened RoomRecovery
  import opened RecoveryProofs

  /** A session that waits for an invitation counts as joining the room it has asked for. */
  predicate Refines(s: Session, m: Member) {
    && m.room == s.room
    && match s.operation
       case Idle => if s.asked.None? then m.operation == Idle else m == Member(None, Joining, Some(s.asked.value.room))
       case Joining => s.asked.Some? && m == Member(None, Joining, Some(s.asked.value.room))
       case Leaving => s.asked.None? && m == Member(None, Leaving, None)
       case Creating => s.asked.None? && m == Member(None, Creating, None)
       case Other => m.operation == Other
  }

  /** The session knows of everyone else what is the case. */
  predicate Accurate(s: Session, mesh: Mesh, self: Peer, linked: set<Peer>, now: int) {
    self in mesh && States(Live(s.peers, linked, now)) == ViewOf(mesh, self)
  }

  predicate Due(s: Session, connected: bool, now: int) { connected && now >= s.after }

  /** Who waits for an invitation asks the same room again, whatever its holder: the choice cannot have moved. */
  lemma AsksAgain(mesh: Mesh, self: Peer, room: RoomId)
    requires Inv(mesh) && self in mesh && mesh[self] == Member(None, Joining, Some(room))
    ensures var d := Decide(self, None, Chosen(mesh, self)); d.AskFor? && d.room == room
  {
    assert MemberOk(mesh, self);
    SameChoice(mesh, self);
  }

  // ---- requests that are not sent ----

  /** The member gives up what it was about, and has no room. */
  function GiveUp(mesh: Mesh, self: Peer): Mesh
    requires self in mesh
  {
    if mesh[self].operation == Idle then mesh else mesh[self := Member(None, Idle, None)]
  }

  lemma GiveUpKeeps(mesh: Mesh, self: Peer)
    requires Inv(mesh) && self in mesh
    ensures Inv(GiveUp(mesh, self))
  {
    if mesh[self].operation != Idle {
      assert MemberOk(mesh, self);
      RequestKeeps(mesh, self, Member(None, Idle, None));
    }
  }

  lemma DecisionKeeps(mesh: Mesh, self: Peer)
    requires Inv(mesh) && self in mesh
    ensures Inv(DecideStep(mesh, self))
  {
    StepKeeps(mesh, Decides(self));
  }

  // ---- one session ----

  /** The tick comes to a decision that is to be sent. */
  predicate Sends(s: Session, self: Peer, linked: set<Peer>, connected: bool, now: int) {
    var live := s.(peers := Live(s.peers, linked, now));
    var states := States(live.peers);
    Due(s, connected, now) && s.operation == Idle && !Waiting(live, Choose(self, s.room, states, Usable(states)), now)
  }

  /** What one recovery tick is among the members: nothing yet, a decision, or a decision that is given up at once
      because its request could not be sent. */
  function TickStep(mesh: Mesh, s: Session, self: Peer, linked: set<Peer>, connected: bool, now: int,
                    accepted: bool): Mesh
    requires self in mesh
  {
    if !Due(s, connected, now) then mesh
    else if accepted || !Sends(s, self, linked, connected, now) then DecideStep(mesh, self)
    else GiveUp(DecideStep(mesh, self), self)
  }

  lemma CarriesOut(s: Session, mesh: Mesh, self: Peer, now: int, accepted: bool)
    requires Inv(mesh) && self in mesh && Refines(s, mesh[self]) && s.operation == Idle && s.asked.None?
    ensures var d := DecideStep(mesh, self);
      Refines(CarryOut(s, Decide(self, s.room, Chosen(mesh, self)), now, accepted),
              if accepted then d[self] else GiveUp(d, self)[self])
  {
  }

  /** One recovery tick is that step of the member, whether its requests can be sent or not. */
  lemma TickRefines(s: Session, mesh: Mesh, self: Peer, linked: set<Peer>, connected: bool, now: int, accepted: bool)
    requires Inv(mesh) && Accurate(s, mesh, self, linked, now) && Refines(s, mesh[self])
    ensures Refines(Recovered(self, s, linked, connected, now, accepted),
                    TickStep(mesh, s, self, linked, connected, now, accepted)[self])
  {
    var live := s.(peers := Live(s.peers, linked, now));
    if Due(s, connected, now) && s.operation == Idle {
      if s.asked.Some? { AsksAgain(mesh, self, s.asked.value.room); }
      else { CarriesOut(live, mesh, self, now, accepted); }
    }
  }

  lemma TickKeeps(mesh: Mesh, s: Session, self: Peer, linked: set<Peer>, connected: bool, now: int, accepted: bool)
    requires Inv(mesh) && self in mesh
    ensures Inv(TickStep(mesh, s, self, linked, connected, now, accepted))
  {
    DecisionKeeps(mesh, self);
    GiveUpKeeps(DecideStep(mesh, self), self);
  }

  /** An invitation that is taken up starts the join the member is already counted for; if that cannot be sent, it gives
      up. */
  lemma InvitationRefines(s: Session, mesh: Mesh, self: Peer, from: Peer, room: RoomId, now: int, accepted: bool)
    requires self in mesh && Refines(s, mesh[self])
    ensures var n := Invited(s, from, room, now, accepted);
      Refines(n, if accepted || !Expected(s, from, room) then mesh[self] else GiveUp(mesh, self)[self])
  {
  }

  /** What an answer of the server is among the members: the end of the operation, or nothing when a join was answered
      with another room than the one asked for. */
  function AnswerStep(mesh: Mesh, s: Session, self: Peer, room: RoomId): Mesh
    requires self in mesh
  {
    if s.operation == Idle || (s.operation == Joining && s.asked.Some? && s.asked.value.room != room) then mesh
    else FinishStep(mesh, self, room)
  }

  lemma AnswerRefines(s: Session, mesh: Mesh, self: Peer, room: RoomId, now: int)
    requires self in mesh && Refines(s, mesh[self]) && s.operation != Other
    ensures Refines(Answered(s, room, now), AnswerStep(mesh, s, self, room)[self])
  {
  }

  // ---- all sessions ----

  type Sessions = map<Peer, Session>

  predicate AllRefine(sessions: Sessions, mesh: Mesh) {
    sessions.Keys == mesh.Keys && forall p <- mesh :: Refines(sessions[p], mesh[p])
  }

  datatype SessionEvent =
    | Tick(self: Peer, linked: set<Peer>, connected: bool, now: int, accepted: bool)
    | Invitation(self: Peer, from: Peer, room: RoomId, now: int, accepted: bool)
    | Answer(self: Peer, room: RoomId, now: int)

  function SessionsStep(sessions: Sessions, e: SessionEvent): Sessions {
    if e.self !in sessions then sessions
    else
      var s := sessions[e.self];
      sessions[e.self := match e
        case Tick(self, linked, connected, now, accepted) => Recovered(self, s, linked, connected, now, accepted)
        case Invitation(_, from, room, now, accepted) => Invited(s, from, room, now, accepted)
        case Answer(_, room, now) => Answered(s, room, now)]
  }

  function MeshStep(mesh: Mesh, sessions: Sessions, e: SessionEvent): Mesh
    requires mesh.Keys == sessions.Keys
  {
    if e.self !in mesh then mesh
    else
      var s := sessions[e.self];
      match e
      case Tick(self, linked, connected, now, accepted) => TickStep(mesh, s, self, linked, connected, now, accepted)
      case Invitation(self, from, room, _, accepted) =>
        if accepted || !Expected(s, from, room) then mesh else GiveUp(mesh, self)
      case Answer(self, room, _) => AnswerStep(mesh, s, self, room)
  }

  /** Ticks find accurate views. */
  predicate Informed(mesh: Mesh, sessions: Sessions, e: SessionEvent) {
    e.Tick? && e.self in sessions ==> Accurate(sessions[e.self], mesh, e.self, e.linked, e.now)
  }

  /** A step of one member changes nobody else. */
  lemma OthersUnchanged(mesh: Mesh, sessions: Sessions, e: SessionEvent, p: Peer)
    requires mesh.Keys == sessions.Keys && p in mesh && p != e.self
    ensures MeshStep(mesh, sessions, e).Keys == mesh.Keys && MeshStep(mesh, sessions, e)[p] == mesh[p]
    ensures SessionsStep(sessions, e).Keys == sessions.Keys && SessionsStep(sessions, e)[p] == sessions[p]
  {
  }

  lemma OwnStepRefines(mesh: Mesh, sessions: Sessions, e: SessionEvent)
    requires Inv(mesh) && AllRefine(sessions, mesh) && Informed(mesh, sessions, e) && e.self in mesh
    ensures var n := MeshStep(mesh, sessions, e);
      e.self in n && Refines(SessionsStep(sessions, e)[e.self], n[e.self])
  {
    var s := sessions[e.self];
    assert MemberOk(mesh, e.self);
    match e {
      case Tick(self, linked, connected, now, accepted) =>
        TickRefines(s, mesh, self, linked, connected, now, accepted);
      case Invitation(self, from, room, now, accepted) =>
        InvitationRefines(s, mesh, self, from, room, now, accepted);
      case Answer(self, room, now) => AnswerRefines(s, mesh, self, room, now);
    }
  }

  lemma MeshStepKeeps(mesh: Mesh, sessions: Sessions, e: SessionEvent)
    requires Inv(mesh) && mesh.Keys == sessions.Keys
    ensures Inv(MeshStep(mesh, sessions, e))
  {
    if e.self in mesh {
      match e {
        case Tick(self, linked, connected, now, accepted) =>
          TickKeeps(mesh, sessions[self], self, linked, connected, now, accepted);
        case Invitation(self, _, _, _, _) => GiveUpKeeps(mesh, self);
        case Answer(self, room, _) => StepKeeps(mesh, Finishes(self, room));
      }
    }
  }

  lemma SameKeys(mesh: Mesh, sessions: Sessions, e: SessionEvent)
    requires mesh.Keys == sessions.Keys
    ensures MeshStep(mesh, sessions, e).Keys == SessionsStep(sessions, e).Keys == mesh.Keys
  {
  }

  /** One event of all sessions is one step of the mesh. */
  lemma StepRefines(mesh: Mesh, sessions: Sessions, e: SessionEvent)
    requires Inv(mesh) && AllRefine(sessions, mesh) && Informed(mesh, sessions, e)
    ensures AllRefine(SessionsStep(sessions, e), MeshStep(mesh, sessions, e)) && Inv(MeshStep(mesh, sessions, e))
  {
    var n, after := MeshStep(mesh, sessions, e), SessionsStep(sessions, e);
    SameKeys(mesh, sessions, e);
    MeshStepKeeps(mesh, sessions, e);
    forall p | p in n ensures Refines(after[p], n[p]) {
      if p == e.self { OwnStepRefines(mesh, sessions, e); } else { OthersUnchanged(mesh, sessions, e, p); }
    }
  }

  function RunSessions(sessions: Sessions, events: seq<SessionEvent>): Sessions
    decreases |events|
  {
    if events == [] then sessions else RunSessions(SessionsStep(sessions, events[0]), events[1..])
  }

  /** Every tick of the run finds accurate views of the mesh the sessions are. */
  predicate AllInformed(mesh: Mesh, sessions: Sessions, events: seq<SessionEvent>)
    requires mesh.Keys == sessions.Keys
    decreases |events|
  {
    events == []
    || (&& Informed(mesh, sessions, events[0])
        && MeshStep(mesh, sessions, events[0]).Keys == SessionsStep(sessions, events[0]).Keys
        && AllInformed(MeshStep(mesh, sessions, events[0]), SessionsStep(sessions, events[0]), events[1..]))
  }

  lemma {:induction false} RunRefines(mesh: Mesh, sessions: Sessions, events: seq<SessionEvent>) returns (n: Mesh)
    requires Inv(mesh) && AllRefine(sessions, mesh) && AllInformed(mesh, sessions, events)
    ensures Inv(n) && AllRefine(RunSessions(sessions, events), n)
    decreases |events|
  {
    if events == [] { n := mesh; } else {
      StepRefines(mesh, sessions, events[0]);
      n := RunRefines(MeshStep(mesh, sessions, events[0]), SessionsStep(sessions, events[0]), events[1..]);
    }
  }

  /** In every run of the clients themselves, requests lost or not, at most one is creating a room. */
  lemma OneClientCreates(mesh: Mesh, sessions: Sessions, events: seq<SessionEvent>, p: Peer, q: Peer)
    requires Inv(mesh) && AllRefine(sessions, mesh) && AllInformed(mesh, sessions, events)
    requires var n := RunSessions(sessions, events);
      p in n && q in n && n[p].operation == Creating && n[q].operation == Creating
    ensures p == q
  {
    var n := RunRefines(mesh, sessions, events);
    OneCreator(n, p, q);
  }
}
