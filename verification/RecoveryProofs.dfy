/** Accurate views lead every member into the smallest room. */
module RecoveryProofs {
  import opened Wrappers
  import opened RoomRecovery

  /** A member as the others see it, and what it has asked the server for. */
  datatype Member = Member(room: Option<RoomId>, operation: Operation, joining: Option<RoomId>)

  type Mesh = map<Peer, Member>

  /** What `self` knows when its view is accurate: everyone else, all with sessions on the same server. */
  function ViewOf(mesh: Mesh, self: Peer): map<Peer, State> {
    map p | p in mesh && p != self :: State(true, mesh[p].room)
  }

  function Chosen(mesh: Mesh, self: Peer): Choice
    requires self in mesh
  {
    Choose(self, mesh[self].room, ViewOf(mesh, self), Usable(ViewOf(mesh, self)))
  }

  function AllRooms(mesh: Mesh): set<RoomId> { set p | p in mesh && mesh[p].room.Some? :: mesh[p].room.value }

  datatype Event = Decides(self: Peer) | Finishes(self: Peer, created: RoomId)

  /** A decision sends a request; the room is given up when the leave is sent. */
  function DecideStep(mesh: Mesh, self: Peer): Mesh
    requires self in mesh
  {
    var m := mesh[self];
    if m.operation != Idle then mesh
    else match Decide(self, m.room, Chosen(mesh, self))
      case LeaveRoom => mesh[self := Member(None, Leaving, None)]
      case AskFor(issuer, room) => mesh[self := Member(None, Joining, Some(room))]
      case CreateRoom => mesh[self := Member(None, Creating, None)]
      case _ => mesh
  }

  function FinishStep(mesh: Mesh, self: Peer, created: RoomId): Mesh
    requires self in mesh
  {
    var m := mesh[self];
    match m.operation
    case Leaving => mesh[self := Member(None, Idle, None)]
    case Joining => mesh[self := Member(m.joining, Idle, None)]
    case Creating => mesh[self := Member(Some(created), Idle, None)]
    case _ => mesh
  }

  function Step(mesh: Mesh, e: Event): Mesh {
    if e.self !in mesh then mesh
    else match e
      case Decides(self) => DecideStep(mesh, self)
      case Finishes(self, created) => FinishStep(mesh, self, created)
  }

  /** Only the leader may be creating, and only while there is no room; joins aim at the smallest room. */
  predicate MemberOk(mesh: Mesh, p: Peer)
    requires p in mesh
  {
    && mesh[p].operation != Other && (mesh[p].operation != Idle ==> mesh[p].room.None?)
    && (mesh[p].operation == Joining ==> AllRooms(mesh) != {} && mesh[p].joining == LeastOf(AllRooms(mesh)))
    && (mesh[p].operation == Creating ==> AllRooms(mesh) == {} && p == Least(mesh.Keys))
  }

  predicate Inv(mesh: Mesh) { forall p {:trigger MemberOk(mesh, p)} | p in mesh :: MemberOk(mesh, p) }

  // ---- accurate choices ----

  lemma SeesAll(mesh: Mesh, self: Peer)
    requires self in mesh
    ensures Rooms(mesh[self].room, ViewOf(mesh, self), Usable(ViewOf(mesh, self))) == AllRooms(mesh)
    ensures {self} + Usable(ViewOf(mesh, self)) == mesh.Keys
  {
    var v := ViewOf(mesh, self);
    assert Usable(v) == mesh.Keys - {self};
    forall r ensures r in Rooms(mesh[self].room, v, Usable(v)) <==> r in AllRooms(mesh) {
      if r in AllRooms(mesh) {
        var p :| p in mesh && mesh[p].room == Some(r);
        if p != self { assert p in Usable(v) && v[p].room == Some(r); }
      }
    }
  }

  /** Everyone chooses the same room and the same leader. */
  lemma SameChoice(mesh: Mesh, self: Peer)
    requires self in mesh
    ensures Chosen(mesh, self).room == LeastOf(AllRooms(mesh)) && Chosen(mesh, self).leader == Least(mesh.Keys)
    ensures mesh[self].room.None? && AllRooms(mesh) != {} ==> Chosen(mesh, self).issuer.Some?
  {
    SeesAll(mesh, self);
    if mesh[self].room.None? && AllRooms(mesh) != {} {
      var r := Least(AllRooms(mesh));
      var p :| p in mesh && mesh[p].room == Some(r);
      assert p in Holders(ViewOf(mesh, self), Usable(ViewOf(mesh, self)), Some(r));
    }
  }

  /** Nobody ever leaves the smallest room. */
  lemma SmallestIsKept(mesh: Mesh, self: Peer)
    requires self in mesh && mesh[self].room.Some? && mesh[self].room == LeastOf(AllRooms(mesh))
    ensures Decide(self, mesh[self].room, Chosen(mesh, self)) == Stay && DecideStep(mesh, self) == mesh
  {
    SameChoice(mesh, self);
  }

  // ---- rooms over one step ----

  lemma RoomsWithout(mesh: Mesh, self: Peer, m: Member)
    requires self in mesh && m.room.None?
    ensures AllRooms(mesh[self := m]) <= AllRooms(mesh)
    ensures mesh[self].room.None? ==> AllRooms(mesh[self := m]) == AllRooms(mesh)
    ensures mesh[self].room.Some? ==> forall r <- AllRooms(mesh) :: r != mesh[self].room.value ==>
      r in AllRooms(mesh[self := m])
  {
    var n := mesh[self := m];
    forall r | r in AllRooms(mesh) && (mesh[self].room != Some(r)) ensures r in AllRooms(n) {
      var p :| p in mesh && mesh[p].room == Some(r);
      assert n[p].room == Some(r);
    }
    forall r | r in AllRooms(n) ensures r in AllRooms(mesh) {
      var p :| p in n && n[p].room == Some(r);
      assert mesh[p].room == Some(r);
    }
  }

  lemma LeastKept(a: set<nat>, b: set<nat>)
    requires b <= a && a != {} && Least(a) in b
    ensures LeastOf(b) == LeastOf(a)
  {
    LeastIs(b, Least(a));
  }

  lemma LeaveKeeps(mesh: Mesh, self: Peer)
    requires Inv(mesh) && self in mesh && mesh[self].room.Some? && mesh[self].room != LeastOf(AllRooms(mesh))
    ensures var n := mesh[self := Member(None, Leaving, None)];
      Inv(n) && LeastOf(AllRooms(n)) == LeastOf(AllRooms(mesh)) && AllRooms(n) != {}
  {
    var n := mesh[self := Member(None, Leaving, None)];
    RoomsWithout(mesh, self, n[self]);
    assert mesh[self].room.value in AllRooms(mesh);
    LeastKept(AllRooms(mesh), AllRooms(n));
    assert n.Keys == mesh.Keys;
    forall p | p in n ensures MemberOk(n, p) { assert MemberOk(mesh, p); }
  }

  lemma RequestKeeps(mesh: Mesh, self: Peer, m: Member)
    requires Inv(mesh) && self in mesh && mesh[self].room.None? && m.room.None? && m.operation != Other
    requires m.operation == Joining ==> AllRooms(mesh) != {} && m.joining == LeastOf(AllRooms(mesh))
    requires m.operation == Creating ==> AllRooms(mesh) == {} && self == Least(mesh.Keys)
    ensures Inv(mesh[self := m]) && AllRooms(mesh[self := m]) == AllRooms(mesh)
  {
    RoomsWithout(mesh, self, m);
    var n := mesh[self := m];
    assert n.Keys == mesh.Keys;
    forall p | p in n ensures MemberOk(n, p) { assert MemberOk(mesh, p); }
  }

  lemma DecideKeeps(mesh: Mesh, self: Peer)
    requires Inv(mesh) && self in mesh
    ensures Inv(DecideStep(mesh, self))
    ensures AllRooms(mesh) != {} ==> LeastOf(AllRooms(DecideStep(mesh, self))) == LeastOf(AllRooms(mesh))
  {
    if mesh[self].operation == Idle {
      SameChoice(mesh, self);
      match Decide(self, mesh[self].room, Chosen(mesh, self)) {
        case LeaveRoom => LeaveKeeps(mesh, self);
        case AskFor(issuer, room) => RequestKeeps(mesh, self, Member(None, Joining, Some(room)));
        case CreateRoom => RequestKeeps(mesh, self, Member(None, Creating, None));
        case _ =>
      }
    }
  }

  lemma RoomsWith(mesh: Mesh, self: Peer, room: RoomId)
    requires self in mesh && mesh[self].room.None?
    ensures AllRooms(mesh[self := Member(Some(room), Idle, None)]) == AllRooms(mesh) + {room}
  {
    var n := mesh[self := Member(Some(room), Idle, None)];
    forall r | r in AllRooms(mesh) ensures r in AllRooms(n) {
      var p :| p in mesh && mesh[p].room == Some(r);
      assert n[p].room == Some(r);
    }
    assert n[self].room == Some(room);
  }

  lemma JoinKeeps(mesh: Mesh, self: Peer)
    requires Inv(mesh) && self in mesh && mesh[self].operation == Joining
    ensures var n := mesh[self := Member(mesh[self].joining, Idle, None)];
      Inv(n) && AllRooms(n) == AllRooms(mesh)
  {
    assert MemberOk(mesh, self);
    RoomsWith(mesh, self, mesh[self].joining.value);
    var n := mesh[self := Member(mesh[self].joining, Idle, None)];
    assert AllRooms(n) == AllRooms(mesh);
    assert n.Keys == mesh.Keys;
    forall p | p in n ensures MemberOk(n, p) { assert MemberOk(mesh, p); }
  }

  lemma CreateKeeps(mesh: Mesh, self: Peer, created: RoomId)
    requires Inv(mesh) && self in mesh && mesh[self].operation == Creating
    ensures var n := mesh[self := Member(Some(created), Idle, None)];
      Inv(n) && AllRooms(n) == {created}
  {
    assert MemberOk(mesh, self);
    RoomsWith(mesh, self, created);
    var n := mesh[self := Member(Some(created), Idle, None)];
    assert n.Keys == mesh.Keys;
    forall p | p in n ensures MemberOk(n, p) { assert MemberOk(mesh, p); }
  }

  lemma FinishKeeps(mesh: Mesh, self: Peer, created: RoomId)
    requires Inv(mesh) && self in mesh
    ensures Inv(FinishStep(mesh, self, created))
  {
    match mesh[self].operation {
      case Leaving =>
        assert MemberOk(mesh, self);
        RequestKeeps(mesh, self, Member(None, Idle, None));
      case Joining => JoinKeeps(mesh, self);
      case Creating => CreateKeeps(mesh, self, created);
      case _ =>
    }
  }

  lemma StepKeeps(mesh: Mesh, e: Event)
    requires Inv(mesh)
    ensures Inv(Step(mesh, e))
  {
    if e.self in mesh {
      match e {
        case Decides(self) => DecideKeeps(mesh, self);
        case Finishes(self, created) => FinishKeeps(mesh, self, created);
      }
    }
  }

  /** At most one member is ever creating a room. */
  lemma OneCreator(mesh: Mesh, p: Peer, q: Peer)
    requires Inv(mesh) && p in mesh && q in mesh && mesh[p].operation == Creating && mesh[q].operation == Creating
    ensures p == q
  {
    assert MemberOk(mesh, p) && MemberOk(mesh, q);
  }

  // ---- progress ----

  /** How far a member is from the smallest room. */
  function Rank(m: Member, smallest: Option<RoomId>): nat {
    match m.operation
    case Leaving => 3
    case Joining => 1
    case Creating => 1
    case _ => if m.room.None? then 2 else if m.room == smallest then 0 else 4
  }

  function Total(mesh: Mesh, among: set<Peer>): nat
    requires among <= mesh.Keys
  {
    if among == {} then 0
    else var p := Least(among); Rank(mesh[p], LeastOf(AllRooms(mesh))) + Total(mesh, among - {p})
  }

  lemma {:induction false} TotalFalls(mesh: Mesh, n: Mesh, among: set<Peer>, self: Peer)
    requires among <= mesh.Keys && among <= n.Keys
    requires forall p <- among :: p != self ==>
      Rank(n[p], LeastOf(AllRooms(n))) <= Rank(mesh[p], LeastOf(AllRooms(mesh)))
    requires self in among ==> Rank(n[self], LeastOf(AllRooms(n))) < Rank(mesh[self], LeastOf(AllRooms(mesh)))
    ensures Total(n, among) <= Total(mesh, among) && (self in among ==> Total(n, among) < Total(mesh, among))
    decreases |among|
  {
    if among != {} { TotalFalls(mesh, n, among - {Least(among)}, self); }
  }

  lemma SameSmallest(mesh: Mesh, n: Mesh, self: Peer)
    requires self in mesh && n.Keys == mesh.Keys && (forall p <- mesh :: p != self ==> n[p] == mesh[p])
    requires LeastOf(AllRooms(n)) == LeastOf(AllRooms(mesh))
    requires Rank(n[self], LeastOf(AllRooms(n))) < Rank(mesh[self], LeastOf(AllRooms(mesh)))
    ensures Total(n, n.Keys) < Total(mesh, mesh.Keys)
  {
    TotalFalls(mesh, n, mesh.Keys, self);
  }

  lemma DecideFalls(mesh: Mesh, self: Peer)
    requires Inv(mesh) && self in mesh && DecideStep(mesh, self) != mesh
    ensures DecideStep(mesh, self).Keys == mesh.Keys
    ensures Total(DecideStep(mesh, self), mesh.Keys) < Total(mesh, mesh.Keys)
  {
    var n := DecideStep(mesh, self);
    SameChoice(mesh, self);
    assert n.Keys == mesh.Keys;
    if mesh[self].room.Some? { LeaveKeeps(mesh, self); } else { RoomsWithout(mesh, self, n[self]); }
    SameSmallest(mesh, n, self);
  }

  lemma RoomIsListed(mesh: Mesh, p: Peer)
    requires p in mesh
    ensures mesh[p].room.Some? ==> mesh[p].room.value in AllRooms(mesh)
  {
  }

  lemma CreateFalls(mesh: Mesh, self: Peer, created: RoomId)
    requires Inv(mesh) && self in mesh && mesh[self].operation == Creating
    ensures var n := mesh[self := Member(Some(created), Idle, None)];
      n.Keys == mesh.Keys && Total(n, mesh.Keys) < Total(mesh, mesh.Keys)
  {
    var n := mesh[self := Member(Some(created), Idle, None)];
    assert MemberOk(mesh, self);
    CreateKeeps(mesh, self, created);
    LeastIs({created}, created);
    assert n.Keys == mesh.Keys;
    forall p | p in mesh && p != self
      ensures Rank(n[p], LeastOf(AllRooms(n))) <= Rank(mesh[p], LeastOf(AllRooms(mesh))) {
      RoomIsListed(mesh, p);
    }
    TotalFalls(mesh, n, mesh.Keys, self);
  }

  lemma FinishFalls(mesh: Mesh, self: Peer, created: RoomId)
    requires Inv(mesh) && self in mesh && mesh[self].operation != Idle
    ensures FinishStep(mesh, self, created).Keys == mesh.Keys
    ensures Total(FinishStep(mesh, self, created), mesh.Keys) < Total(mesh, mesh.Keys)
  {
    assert MemberOk(mesh, self);
    var n := FinishStep(mesh, self, created);
    assert n.Keys == mesh.Keys;
    match mesh[self].operation {
      case Leaving =>
        RoomsWithout(mesh, self, n[self]);
        SameSmallest(mesh, n, self);
      case Joining =>
        JoinKeeps(mesh, self);
        SameSmallest(mesh, n, self);
      case Creating => CreateFalls(mesh, self, created);
    }
  }

  /** Every step that does anything brings the mesh closer to one room, so there are only finitely many. */
  lemma EveryStepFalls(mesh: Mesh, e: Event)
    requires Inv(mesh) && Step(mesh, e) != mesh
    ensures Step(mesh, e).Keys == mesh.Keys && Total(Step(mesh, e), mesh.Keys) < Total(mesh, mesh.Keys)
  {
    match e {
      case Decides(self) => DecideFalls(mesh, self);
      case Finishes(self, created) => FinishFalls(mesh, self, created);
    }
  }

  ghost predicate AtRest(mesh: Mesh) { forall e: Event :: Step(mesh, e) == mesh }

  lemma RestingIsIdle(mesh: Mesh, p: Peer)
    requires Inv(mesh) && AtRest(mesh) && p in mesh
    ensures mesh[p].operation == Idle
  {
    assert Step(mesh, Finishes(p, 0)) == mesh;
    if mesh[p].operation != Idle { FinishFalls(mesh, p, 0); }
  }

  lemma LeaderCreates(mesh: Mesh, p: Peer)
    requires p in mesh && mesh[p].operation == Idle && AllRooms(mesh) == {} && p == Least(mesh.Keys)
    ensures DecideStep(mesh, p)[p].operation == Creating
  {
    SameChoice(mesh, p);
    RoomIsListed(mesh, p);
  }

  lemma RoomlessAsks(mesh: Mesh, p: Peer)
    requires p in mesh && mesh[p].operation == Idle && mesh[p].room.None? && AllRooms(mesh) != {}
    ensures DecideStep(mesh, p)[p].operation == Joining
  {
    SameChoice(mesh, p);
  }

  lemma AstrayLeaves(mesh: Mesh, p: Peer)
    requires p in mesh && mesh[p].operation == Idle && mesh[p].room.Some? && mesh[p].room != LeastOf(AllRooms(mesh))
    ensures DecideStep(mesh, p)[p].operation == Leaving
  {
    SameChoice(mesh, p);
  }

  lemma RestingHasRoom(mesh: Mesh)
    requires Inv(mesh) && AtRest(mesh) && mesh.Keys != {}
    ensures AllRooms(mesh) != {}
  {
    var leader := Least(mesh.Keys);
    RestingIsIdle(mesh, leader);
    assert Step(mesh, Decides(leader)) == mesh;
    if AllRooms(mesh) == {} { LeaderCreates(mesh, leader); }
  }

  /** When nothing more happens, every member is in the same room. */
  lemma OneRoomAtRest(mesh: Mesh, p: Peer)
    requires Inv(mesh) && AtRest(mesh) && p in mesh
    ensures mesh[p].operation == Idle && mesh[p].room.Some? && mesh[p].room == LeastOf(AllRooms(mesh))
  {
    RestingIsIdle(mesh, p);
    RestingHasRoom(mesh);
    assert Step(mesh, Decides(p)) == mesh;
    if mesh[p].room.None? { RoomlessAsks(mesh, p); }
    else if mesh[p].room != LeastOf(AllRooms(mesh)) { AstrayLeaves(mesh, p); }
  }

  function Effective(mesh: Mesh, events: seq<Event>): nat
    decreases |events|
  {
    if events == [] then 0
    else (if Step(mesh, events[0]) != mesh then 1 else 0) + Effective(Step(mesh, events[0]), events[1..])
  }

  /** However the steps are scheduled, only as many as the starting distance ever change anything. */
  lemma {:induction false} FewSteps(mesh: Mesh, events: seq<Event>)
    requires Inv(mesh)
    ensures Effective(mesh, events) <= Total(mesh, mesh.Keys)
    decreases |events|
  {
    if events != [] {
      StepKeeps(mesh, events[0]);
      if Step(mesh, events[0]) != mesh { EveryStepFalls(mesh, events[0]); }
      FewSteps(Step(mesh, events[0]), events[1..]);
    }
  }
}
