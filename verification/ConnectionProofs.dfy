/** No attempt hangs, and no stale timer ends one. */
module ConnectionProofs {
  import opened Wrappers
  import opened Connections

  /** A started link that is not open yet is watched by its newest deadline; no timer is from the future. */
  predicate LinkOk(m: Manager, id: Id)
    requires id in m.links
  {
    var l := m.links[id];
    && l.serial < m.nextSerial && (l.started && !l.open ==> l.deadline.Some?)
    && (l.deadline.Some? ==>
      l.deadline.value == l.deadlineGeneration && Timer(id, l.serial, l.deadlineGeneration) in m.deadlines)
    && (l.attempt == Suspect ==> l.open && Timer(id, l.serial, l.disconnectGeneration) in m.graces)
  }

  predicate DeadlineOk(m: Manager, t: Timer) {
    && t.serial < m.nextSerial
    && (forall id <- m.links :: m.links[id].serial == t.serial ==>
          t.id == id && t.generation <= m.links[id].deadlineGeneration
          && (t.generation == m.links[id].deadlineGeneration ==> m.links[id].deadline.Some?))
  }

  predicate GraceOk(m: Manager, t: Timer) {
    && t.serial < m.nextSerial
    && (forall id <- m.links :: m.links[id].serial == t.serial ==>
          t.id == id && t.generation <= m.links[id].disconnectGeneration)
  }

  predicate SerialsOk(m: Manager) {
    && (forall a <- m.links, b <- m.links :: a != b ==> m.links[a].serial != m.links[b].serial)
    && (forall k | 0 <= k < |m.removed| :: m.removed[k] < m.nextSerial)
    && (forall id <- m.links, k | 0 <= k < |m.removed| :: m.removed[k] != m.links[id].serial)
    && (forall j, k :: 0 <= j < k < |m.removed| ==> m.removed[j] != m.removed[k])
  }

  predicate Inv(m: Manager) {
    && SerialsOk(m)
    && (forall id {:trigger LinkOk(m, id)} | id in m.links :: LinkOk(m, id))
    && (forall t {:trigger DeadlineOk(m, t)} | t in m.deadlines :: DeadlineOk(m, t))
    && (forall t {:trigger GraceOk(m, t)} | t in m.graces :: GraceOk(m, t))
  }

  /** A grace timer that would not end its link does not come back to life. */
  predicate Spares(m: Manager, n: Manager) {
    forall t <- m.graces :: t in n.graces && (GraceBites(n, t) ==> GraceBites(m, t))
  }

  // ---- the building blocks ----

  lemma RemoveKeeps(m: Manager, id: Id)
    requires Inv(m) && id in m.links
    ensures Inv(Remove(m, id)) && Spares(m, Remove(m, id))
  {
    var n := Remove(m, id);
    assert LinkOk(m, id);
    forall i | i in n.links ensures LinkOk(n, i) { assert LinkOk(m, i); }
    forall t | t in n.deadlines ensures DeadlineOk(n, t) { assert DeadlineOk(m, t); }
    forall t | t in n.graces ensures GraceOk(n, t) { assert GraceOk(m, t); }
  }

  /** A change of one link that keeps its serial and its timers' place. */
  predicate Gentle(m: Manager, id: Id, l: Link)
    requires id in m.links
  {
    var o := m.links[id];
    && l.serial == o.serial && l.deadlineGeneration >= o.deadlineGeneration
    && l.disconnectGeneration >= o.disconnectGeneration
    && (o.open ==> l.open)
    && (l.deadlineGeneration == o.deadlineGeneration ==> l.deadline == o.deadline)
    && (l.deadlineGeneration > o.deadlineGeneration ==> l.deadline.None?)
    && (l.attempt == Suspect ==> o.attempt == Suspect && l.disconnectGeneration == o.disconnectGeneration)
  }

  /** Everything but a link's own deadline promise survives a gentle change. */
  lemma PutKeeps(m: Manager, id: Id, l: Link)
    requires Inv(m) && id in m.links && Gentle(m, id, l) && (l.started && !l.open ==> l.deadline.Some?)
    ensures Inv(Put(m, id, l)) && Spares(m, Put(m, id, l))
  {
    var n := Put(m, id, l);
    assert LinkOk(m, id);
    forall i | i in n.links ensures LinkOk(n, i) { assert LinkOk(m, i); }
    forall t | t in n.deadlines ensures DeadlineOk(n, t) { assert DeadlineOk(m, t); }
    forall t | t in n.graces ensures GraceOk(n, t) { assert GraceOk(m, t); }
  }

  /** A link may lose its deadline for a moment if a new one is started at once. */
  lemma RestartKeeps(m: Manager, id: Id, l: Link)
    requires Inv(m) && id in m.links && Gentle(m, id, l)
    ensures Inv(StartDeadline(Put(m, id, l), id)) && Spares(m, StartDeadline(Put(m, id, l), id))
  {
    var n := StartDeadline(Put(m, id, l), id);
    assert LinkOk(m, id);
    forall i | i in n.links ensures LinkOk(n, i) { assert LinkOk(m, i); }
    var added := Timer(id, l.serial, l.deadlineGeneration + 1);
    forall t | t in n.deadlines ensures DeadlineOk(n, t) { if t != added { assert DeadlineOk(m, t); } }
    forall t | t in n.graces ensures GraceOk(n, t) { assert GraceOk(m, t); }
  }

  lemma CreateKeeps(m: Manager, id: Id, offer: bool, mesh: bool)
    requires Inv(m)
    ensures Inv(Create(m, id, offer, mesh)) && Spares(m, Create(m, id, offer, mesh))
  {
    if id !in m.links {
      var n := Create(m, id, offer, mesh);
      forall i | i in n.links ensures LinkOk(n, i) { if i != id { assert LinkOk(m, i); } }
      forall a, b | a in n.links && b in n.links && a != b ensures n.links[a].serial != n.links[b].serial {
        if a != id { assert LinkOk(m, a); }
        if b != id { assert LinkOk(m, b); }
      }
      forall t | t in n.deadlines ensures DeadlineOk(n, t) { assert DeadlineOk(m, t); }
      forall t | t in n.graces ensures GraceOk(n, t) { assert GraceOk(m, t); }
    }
  }

  lemma SuspicionKeeps(m: Manager, id: Id)
    requires Inv(m) && id in m.links
    ensures Inv(Suspicion(m, id)) && Spares(m, Suspicion(m, id))
  {
    var l := m.links[id];
    if l.open && l.attempt != Suspect {
      var n := Suspicion(m, id);
      assert LinkOk(m, id);
      forall i | i in n.links ensures LinkOk(n, i) { assert LinkOk(m, i); }
      forall t | t in n.deadlines ensures DeadlineOk(n, t) { assert DeadlineOk(m, t); }
      var added := Timer(id, l.serial, l.disconnectGeneration + 1);
      forall t | t in n.graces ensures GraceOk(n, t) { if t != added { assert GraceOk(m, t); } }
      forall t | t in m.graces ensures GraceBites(n, t) ==> GraceBites(m, t) { assert GraceOk(m, t); }
    }
  }

  // ---- the operations ----

  lemma BeginKeeps(m: Manager, id: Id, works: bool)
    requires Inv(m)
    ensures Inv(Begin(m, id, works)) && Spares(m, Begin(m, id, works))
  {
    if id in m.links {
      RestartKeeps(m, id, m.links[id].(started := true));
      if !works { RemoveKeeps(StartDeadline(Put(m, id, m.links[id].(started := true)), id), id); }
    }
  }

  lemma PutTwice(m: Manager, id: Id, a: Link, b: Link)
    requires id in m.links
    ensures Put(Put(m, id, a), id, b) == Put(m, id, b)
  {
  }

  lemma PutThenRemove(m: Manager, id: Id, l: Link)
    requires id in m.links && l.serial == m.links[id].serial
    ensures Remove(Put(m, id, l), id) == Remove(m, id)
  {
  }

  /** A refused answer ends a link of the mesh, and leaves any other waiting for the next one. */
  lemma RefusedIs(m: Manager, id: Id)
    requires id in m.links
    ensures var l := Applied(m, id).links[id].(answerApplied := false);
      Refused(Applied(m, id), id)
      == if l.mesh then Remove(m, id) else StartDeadline(Put(m, id, l.(attempt := AwaitingAnswer)), id)
  {
    var l := Applied(m, id).links[id].(answerApplied := false);
    PutTwice(m, id, Applied(m, id).links[id], if l.mesh then l.(attempt := Failed) else l.(attempt := AwaitingAnswer));
    if l.mesh { PutThenRemove(m, id, l.(attempt := Failed)); }
  }

  lemma RefusedKeeps(m: Manager, id: Id)
    requires Inv(m) && id in m.links
    ensures Inv(Refused(Applied(m, id), id)) && Spares(m, Refused(Applied(m, id), id))
  {
    var l := Applied(m, id).links[id].(answerApplied := false);
    RefusedIs(m, id);
    if l.mesh { RemoveKeeps(m, id); } else { RestartKeeps(m, id, l.(attempt := AwaitingAnswer)); }
  }

  lemma AnswerKeeps(m: Manager, id: Id, works: bool)
    requires Inv(m)
    ensures Inv(AcceptAnswer(m, id, works)) && Spares(m, AcceptAnswer(m, id, works))
  {
    if id in m.links && !m.links[id].answerApplied {
      if works { RestartKeeps(m, id, Applied(m, id).links[id]); } else { RefusedKeeps(m, id); }
    }
  }

  lemma HandshakeKeeps(m: Manager, id: Id)
    requires Inv(m) && id in m.links
    ensures Inv(Handshake(m, id)) && Spares(m, Handshake(m, id))
  {
    var l := m.links[id];
    if !l.open && l.transportOpen && l.hello {
      PutKeeps(m, id, WithoutDeadline(l).(open := true, attempt := Connected));
    }
  }

  lemma OpenedKeeps(m: Manager, id: Id, control: bool)
    requires Inv(m) && id in m.links
    ensures Inv(ChannelOpened(m, id, control)) && Spares(m, ChannelOpened(m, id, control))
  {
    assert LinkOk(m, id);
    var l := if control then m.links[id].(control := true) else m.links[id].(chat := true);
    PutKeeps(m, id, l);
    var n := Put(m, id, l);
    if !l.transportOpen && l.control && l.chat {
      RestartKeeps(n, id, WithoutDeadline(l).(transportOpen := true, attempt := AwaitingHello));
      HandshakeKeeps(StartDeadline(Put(n, id, WithoutDeadline(l).(transportOpen := true, attempt := AwaitingHello)),
        id), id);
    }
  }

  lemma ClosedKeeps(m: Manager, id: Id, control: bool)
    requires Inv(m) && id in m.links
    ensures Inv(ChannelClosed(m, id, control)) && Spares(m, ChannelClosed(m, id, control))
  {
    assert LinkOk(m, id);
    var l := if control then m.links[id].(control := false) else m.links[id].(chat := false);
    PutKeeps(m, id, l);
    if l.open { SuspicionKeeps(Put(m, id, l), id); } else { RemoveKeeps(Put(m, id, l), id); }
  }

  lemma StateKeeps(m: Manager, id: Id, state: Transport)
    requires Inv(m) && id in m.links
    ensures Inv(StateChanged(m, id, state)) && Spares(m, StateChanged(m, id, state))
  {
    var l := m.links[id];
    assert LinkOk(m, id);
    match state {
      case TransportConnected => ReconnectKeeps(m, id);
      case TransportDisconnected => if l.open { SuspicionKeeps(m, id); }
      case TransportConnecting =>
        if !l.open && (l.attempt == AwaitingAnswer || l.attempt == AwaitingConnection) {
          PutKeeps(m, id, l.(attempt := Connecting));
        }
      case TransportFailed => RemoveKeeps(m, id);
      case TransportOther =>
    }
  }

  lemma ReconnectKeeps(m: Manager, id: Id)
    requires Inv(m) && id in m.links
    ensures Inv(Put(m, id, Reconnected(m.links[id]))) && Spares(m, Put(m, id, Reconnected(m.links[id])))
  {
    assert LinkOk(m, id);
    PutKeeps(m, id, Reconnected(m.links[id]));
  }

  lemma DescriptionKeeps(m: Manager, id: Id)
    requires Inv(m) && id in m.links
    ensures Inv(LocalDescription(m, id)) && Spares(m, LocalDescription(m, id))
  {
    var l := m.links[id];
    if !l.produced {
      RestartKeeps(m, id,
        WithoutDeadline(l).(produced := true, attempt := if l.offer then AwaitingAnswer else AwaitingConnection));
    }
  }

  lemma HelloKeeps(m: Manager, id: Id)
    requires Inv(m)
    ensures Inv(Hello(m, id)) && Spares(m, Hello(m, id))
  {
    if id in m.links {
      assert LinkOk(m, id);
      PutKeeps(m, id, m.links[id].(hello := true));
      HandshakeKeeps(Put(m, id, m.links[id].(hello := true)), id);
    }
  }

  lemma SignalKeeps(m: Manager, id: Id, serial: nat, signal: Signal)
    requires Inv(m)
    ensures Inv(OnSignal(m, id, serial, signal)) && Spares(m, OnSignal(m, id, serial, signal))
  {
    if id in m.links && m.links[id].serial == serial {
      match signal {
        case DescriptionReady => DescriptionKeeps(m, id);
        case StateIs(state) => StateKeeps(m, id, state);
        case ErrorOccurred => if !m.links[id].open { RemoveKeeps(m, id); }
        case Opened(control) => OpenedKeeps(m, id, control);
        case Closed(control) => ClosedKeeps(m, id, control);
        case TransferClosed => SuspicionKeeps(m, id);
      }
    }
  }

  lemma StepKeeps(m: Manager, e: Event)
    requires Inv(m)
    ensures Inv(Step(m, e)) && Spares(m, Step(m, e))
  {
    match e {
      case CreateLink(id, offer, mesh) => CreateKeeps(m, id, offer, mesh);
      case Start(id, works) => BeginKeeps(m, id, works);
      case Answer(id, works) => AnswerKeeps(m, id, works);
      case HelloReceived(id) => HelloKeeps(m, id);
      case Discard(id) => if id in m.links { RemoveKeeps(m, id); }
      case MarkTimedOut(id) => if id in m.links && m.links[id].open { RemoveKeeps(m, id); }
      case FromTransport(id, serial, signal) => SignalKeeps(m, id, serial, signal);
      case DeadlineFires(t) => if DeadlineBites(m, t) { RemoveKeeps(m, t.id); }
      case GraceFires(t) => if GraceBites(m, t) { RemoveKeeps(m, t.id); }
    }
  }

  function Run(m: Manager, events: seq<Event>): Manager
    decreases |events|
  {
    if events == [] then m else Run(Step(m, events[0]), events[1..])
  }

  lemma {:induction false} RunKeeps(m: Manager, events: seq<Event>)
    requires Inv(m)
    ensures Inv(Run(m, events))
    decreases |events|
  {
    if events != [] {
      StepKeeps(m, events[0]);
      RunKeeps(Step(m, events[0]), events[1..]);
    }
  }

  ghost predicate Reachable(m: Manager) { exists events: seq<Event> :: m == Run(NONE, events) }

  lemma ReachableHolds(m: Manager)
    requires Reachable(m)
    ensures Inv(m)
  {
    var events: seq<Event> :| m == Run(NONE, events);
    RunKeeps(NONE, events);
  }

  // ---- the theorems ----

  /** A started attempt that is not open has exactly one timer that can end it, and that timer does. */
  lemma NoAttemptHangs(m: Manager, id: Id)
    requires Reachable(m) && id in m.links && m.links[id].started && !m.links[id].open
    ensures var l := m.links[id]; var live := Timer(id, l.serial, l.deadlineGeneration);
      && l.deadline == Some(l.deadlineGeneration) && live in m.deadlines
      && (forall t <- m.deadlines :: DeadlineBites(m, t) && t.id == id <==> t == live)
      && Step(m, DeadlineFires(live)) == Remove(m, id)
  {
    ReachableHolds(m);
    assert LinkOk(m, id);
  }

  /** A deadline ends a link exactly when it is the link's newest and the link has not opened. */
  lemma OnlyTheNewestDeadline(m: Manager, t: Timer)
    requires Reachable(m) && t in m.deadlines
    ensures Step(m, DeadlineFires(t)) != m <==>
      t.id in m.links && m.links[t.id].serial == t.serial && !m.links[t.id].open
        && m.links[t.id].deadline == Some(t.generation)
  {
    ReachableHolds(m);
    assert DeadlineOk(m, t);
    if t.id in m.links {
      assert LinkOk(m, t.id);
      if DeadlineBites(m, t) { assert |Remove(m, t.id).removed| == |m.removed| + 1; }
    }
  }

  /** Each attempt ends at most once, and never while it is still listed. */
  lemma EndsOnce(m: Manager, i: nat, j: nat, id: Id)
    requires Reachable(m) && i < j < |m.removed|
    ensures m.removed[i] != m.removed[j]
      && (id in m.links ==> m.links[id].serial != m.removed[i] && m.links[id].serial != m.removed[j])
  {
    ReachableHolds(m);
  }

  /** A suspect link has the grace timer that will end it. */
  lemma NoSuspicionHangs(m: Manager, id: Id)
    requires Reachable(m) && id in m.links && m.links[id].attempt == Suspect
    ensures var t := Timer(id, m.links[id].serial, m.links[id].disconnectGeneration);
      t in m.graces && Step(m, GraceFires(t)) == Remove(m, id)
  {
    ReachableHolds(m);
    assert LinkOk(m, id);
  }

  // ---- grace periods ----

  /** The grace timers whose link has stopped being suspect since they were started. */
  datatype Watch = Watch(manager: Manager, settled: set<Timer>)

  predicate StillSuspect(m: Manager, t: Timer) {
    t.id in m.links && m.links[t.id].serial == t.serial && m.links[t.id].attempt == Suspect
  }

  function StepWatch(w: Watch, e: Event): Watch {
    var n := Step(w.manager, e);
    Watch(n, w.settled + set t | t in n.graces && !StillSuspect(n, t))
  }

  predicate SettledOk(w: Watch) { forall t <- w.settled :: t in w.manager.graces && !GraceBites(w.manager, t) }

  function RunWatch(w: Watch, events: seq<Event>): Watch
    decreases |events|
  {
    if events == [] then w else RunWatch(StepWatch(w, events[0]), events[1..])
  }

  lemma {:induction false} WatchKeeps(w: Watch, events: seq<Event>)
    requires Inv(w.manager) && SettledOk(w)
    ensures Inv(RunWatch(w, events).manager) && SettledOk(RunWatch(w, events))
    decreases |events|
  {
    if events != [] {
      var n := StepWatch(w, events[0]);
      StepKeeps(w.manager, events[0]);
      forall t | t in n.settled ensures t in n.manager.graces && !GraceBites(n.manager, t) {
      }
      WatchKeeps(n, events[1..]);
    }
  }

  /** A grace timer ends a link only if the link has been suspect without a break since the timer started. */
  lemma RecoveredIsSpared(events: seq<Event>, t: Timer)
    requires t in RunWatch(Watch(NONE, {}), events).settled
    ensures var m := RunWatch(Watch(NONE, {}), events).manager; Step(m, GraceFires(t)) == m
  {
    WatchKeeps(Watch(NONE, {}), events);
  }
}
