/** Links between connection attempts and their timers. */
module Connections {
  import opened Wrappers

  type Id = nat

  datatype Attempt =
    | Gathering | AwaitingAnswer | AwaitingConnection | Connecting | AwaitingHello | Connected | Suspect
    | TimedOut | Failed | Cancelled

  datatype Transport =
    | TransportConnecting | TransportConnected | TransportDisconnected | TransportFailed | TransportOther

  /** One attempt; `serial` tells apart links that reuse a connection identifier. */
  datatype Link = Link(serial: nat, offer: bool, mesh: bool, started: bool, answerApplied: bool, produced: bool,
                       control: bool, chat: bool, transportOpen: bool, hello: bool, open: bool, attempt: Attempt,
                       deadlineGeneration: nat, deadline: Option<nat>, disconnectGeneration: nat)

  /** What a timer remembers of the link it was started for. */
  datatype Timer = Timer(id: Id, serial: nat, generation: nat)

  /** Timers are never forgotten here: a stopped or superseded one might still be about to fire. */
  datatype Manager = Manager(links: map<Id, Link>, nextSerial: nat, deadlines: set<Timer>, graces: set<Timer>,
    removed: seq<nat>)

  const NONE := Manager(map[], 0, {}, {}, [])

  function WithoutDeadline(l: Link): Link { l.(deadlineGeneration := l.deadlineGeneration + 1, deadline := None) }

  function Put(m: Manager, id: Id, l: Link): Manager { m.(links := m.links[id := l]) }

  function StartDeadline(m: Manager, id: Id): Manager
    requires id in m.links
  {
    var l := WithoutDeadline(m.links[id]);
    Put(m, id, l.(deadline := Some(l.deadlineGeneration)))
      .(deadlines := m.deadlines + {Timer(id, l.serial, l.deadlineGeneration)})
  }

  function Remove(m: Manager, id: Id): Manager
    requires id in m.links
  {
    m.(links := m.links - {id}, removed := m.removed + [m.links[id].serial])
  }

  function NewLink(serial: nat, offer: bool, mesh: bool): Link {
    Link(serial, offer, mesh, false, false, false, false, false, false, false, false, Gathering, 0, None, 0)
  }

  function Create(m: Manager, id: Id, offer: bool, mesh: bool): Manager {
    if id in m.links then m
    else
      m.(links := m.links[id := NewLink(m.nextSerial, offer, mesh)],
         nextSerial := m.nextSerial + 1)
  }

  /** `startOffer` and `acceptOffer`; `works` is false when the transport throws. */
  function Begin(m: Manager, id: Id, works: bool): Manager {
    if id !in m.links then m
    else
      var n := StartDeadline(Put(m, id, m.links[id].(started := true)), id);
      if works then n else Remove(n, id)
  }

  function Applied(m: Manager, id: Id): Manager
    requires id in m.links
  {
    Put(m, id, WithoutDeadline(m.links[id].(answerApplied := true)).(attempt := Connecting))
  }

  /** An answer the transport refuses ends a mesh attempt; a manual one may be answered again. */
  function Refused(m: Manager, id: Id): Manager
    requires id in m.links
  {
    var l := m.links[id].(answerApplied := false);
    if l.mesh then Remove(Put(m, id, l.(attempt := Failed)), id)
    else StartDeadline(Put(m, id, l.(attempt := AwaitingAnswer)), id)
  }

  function AcceptAnswer(m: Manager, id: Id, works: bool): Manager {
    if id !in m.links || m.links[id].answerApplied then m
    else if works then StartDeadline(Applied(m, id), id)
    else Refused(Applied(m, id), id)
  }

  function LocalDescription(m: Manager, id: Id): Manager
    requires id in m.links
  {
    if m.links[id].produced then m
    else
      var l := WithoutDeadline(m.links[id]);
      StartDeadline(Put(m, id, l.(produced := true, attempt := if l.offer then AwaitingAnswer else AwaitingConnection)),
        id)
  }

  function Handshake(m: Manager, id: Id): Manager
    requires id in m.links
  {
    var l := m.links[id];
    if l.open || !l.transportOpen || !l.hello then m
    else Put(m, id, WithoutDeadline(l).(open := true, attempt := Connected))
  }

  function Readiness(m: Manager, id: Id): Manager
    requires id in m.links
  {
    var l := m.links[id];
    if l.transportOpen || !l.control || !l.chat then m
    else Handshake(StartDeadline(Put(m, id, WithoutDeadline(l).(transportOpen := true, attempt := AwaitingHello)), id),
      id)
  }

  function Hello(m: Manager, id: Id): Manager {
    if id !in m.links then m else Handshake(Put(m, id, m.links[id].(hello := true)), id)
  }

  function Suspicion(m: Manager, id: Id): Manager
    requires id in m.links
  {
    var l := m.links[id];
    if !l.open || l.attempt == Suspect then m
    else
      var n := l.(attempt := Suspect, disconnectGeneration := l.disconnectGeneration + 1);
      Put(m, id, n).(graces := m.graces + {Timer(id, l.serial, n.disconnectGeneration)})
  }

  function Reconnected(l: Link): Link {
    if !(l.control && l.chat) then l
    else
      l.(disconnectGeneration := l.disconnectGeneration + 1,
         attempt := if l.open && l.attempt == Suspect then Connected else l.attempt)
  }

  function StateChanged(m: Manager, id: Id, state: Transport): Manager
    requires id in m.links
  {
    var l := m.links[id];
    match state
    case TransportConnected => Put(m, id, Reconnected(l))
    case TransportDisconnected => if l.open then Suspicion(m, id) else m
    case TransportConnecting =>
      if !l.open && (l.attempt == AwaitingAnswer || l.attempt == AwaitingConnection)
        then Put(m, id, l.(attempt := Connecting)) else m
    case TransportFailed => Remove(m, id)
    case TransportOther => m
  }

  function ChannelOpened(m: Manager, id: Id, control: bool): Manager
    requires id in m.links
  {
    var l := m.links[id];
    Readiness(Put(m, id, if control then l.(control := true) else l.(chat := true)), id)
  }

  function ChannelClosed(m: Manager, id: Id, control: bool): Manager
    requires id in m.links
  {
    var l := m.links[id];
    var n := Put(m, id, if control then l.(control := false) else l.(chat := false));
    if l.open then Suspicion(n, id) else Remove(n, id)
  }

  /** The guard of the deadline's callback. */
  predicate DeadlineBites(m: Manager, t: Timer) {
    && t.id in m.links && m.links[t.id].serial == t.serial
    && !m.links[t.id].open && m.links[t.id].deadlineGeneration == t.generation
  }

  predicate GraceBites(m: Manager, t: Timer) {
    && t.id in m.links && m.links[t.id].serial == t.serial
    && m.links[t.id].disconnectGeneration == t.generation && m.links[t.id].attempt == Suspect
  }

  datatype Signal =
    | DescriptionReady | StateIs(state: Transport) | ErrorOccurred | Opened(control: bool) | Closed(control: bool)
    | TransferClosed

  /** Signals of a transport whose link is no longer current are ignored. */
  function OnSignal(m: Manager, id: Id, serial: nat, signal: Signal): Manager {
    if id !in m.links || m.links[id].serial != serial then m
    else match signal
      case DescriptionReady => LocalDescription(m, id)
      case StateIs(state) => StateChanged(m, id, state)
      case ErrorOccurred => if m.links[id].open then m else Remove(m, id)
      case Opened(control) => ChannelOpened(m, id, control)
      case Closed(control) => ChannelClosed(m, id, control)
      case TransferClosed => Suspicion(m, id)
  }

  datatype Event =
    | CreateLink(id: Id, offer: bool, mesh: bool)
    | Start(id: Id, works: bool)
    | Answer(id: Id, works: bool)
    | HelloReceived(id: Id)
    | Discard(id: Id)
    | MarkTimedOut(id: Id)
    | FromTransport(id: Id, serial: nat, signal: Signal)
    | DeadlineFires(timer: Timer)
    | GraceFires(timer: Timer)

  function Step(m: Manager, e: Event): Manager {
    match e
    case CreateLink(id, offer, mesh) => Create(m, id, offer, mesh)
    case Start(id, works) => Begin(m, id, works)
    case Answer(id, works) => AcceptAnswer(m, id, works)
    case HelloReceived(id) => Hello(m, id)
    case Discard(id) => if id in m.links then Remove(m, id) else m
    case MarkTimedOut(id) => if id in m.links && m.links[id].open then Remove(m, id) else m
    case FromTransport(id, serial, signal) => OnSignal(m, id, serial, signal)
    case DeadlineFires(t) => if DeadlineBites(m, t) then Remove(m, t.id) else m
    case GraceFires(t) => if GraceBites(m, t) then Remove(m, t.id) else m
  }

  /** Only timers that were started fire. */
  predicate Possible(m: Manager, e: Event) {
    match e
    case DeadlineFires(t) => t in m.deadlines
    case GraceFires(t) => t in m.graces
    case _ => true
  }

  class ConnectionManager {
    var links: map<Id, Link>
    var nextSerial: nat
    var deadlines: set<Timer>
    var graces: set<Timer>
    var removed: seq<nat>

    function View(): Manager
      reads this
    {
      Manager(links, nextSerial, deadlines, graces, removed)
    }

    constructor ()
      ensures View() == NONE
    {
      links, nextSerial, deadlines, graces, removed := map[], 0, {}, {}, [];
    }

    method CancelTimer(id: Id)
      requires id in links
      modifies `links
      ensures links == old(links)[id := WithoutDeadline(old(links)[id])]
    {
      links := links[id := links[id].(deadlineGeneration := links[id].deadlineGeneration + 1, deadline := None)];
    }

    method StartTimer(id: Id)
      requires id in links
      modifies `links, `deadlines
      ensures View() == StartDeadline(old(View()), id)
    {
      CancelTimer(id);
      var generation := links[id].deadlineGeneration;
      links := links[id := links[id].(deadline := Some(generation))];
      deadlines := deadlines + {Timer(id, links[id].serial, generation)};
    }

    method RemoveLink(id: Id)
      requires id in links
      modifies `links, `removed
      ensures View() == Remove(old(View()), id)
    {
      removed := removed + [links[id].serial];
      links := links - {id};
    }

    method CreateAttempt(id: Id, offer: bool, mesh: bool) returns (done: bool)
      modifies `links, `nextSerial
      ensures View() == Create(old(View()), id, offer, mesh) && done == (id !in old(links))
    {
      if id in links { return false; }
      links := links[id := NewLink(nextSerial, offer, mesh)];
      nextSerial := nextSerial + 1;
      done := true;
    }

    method StartAttempt(id: Id, works: bool)
      modifies this
      ensures View() == Begin(old(View()), id, works)
    {
      if id !in links { return; }
      links := links[id := links[id].(started := true)];
      StartTimer(id);
      if !works { RemoveLink(id); }
    }

    method MarkApplied(id: Id)
      requires id in links
      modifies `links
      ensures View() == Applied(old(View()), id)
    {
      links := links[id := links[id].(answerApplied := true)];
      CancelTimer(id);
      links := links[id := links[id].(attempt := Connecting)];
    }

    method AnswerRefused(id: Id)
      requires id in links
      modifies this
      ensures View() == Refused(old(View()), id)
    {
      var l := links[id].(answerApplied := false);
      if l.mesh {
        links := links[id := l.(attempt := Failed)];
        RemoveLink(id);
      } else {
        links := links[id := l.(attempt := AwaitingAnswer)];
        StartTimer(id);
      }
    }

    method ApplyAnswer(id: Id, works: bool)
      modifies this
      ensures View() == AcceptAnswer(old(View()), id, works)
    {
      if id !in links || links[id].answerApplied { return; }
      MarkApplied(id);
      if works { StartTimer(id); } else { AnswerRefused(id); }
    }

    method DescriptionProduced(id: Id)
      requires id in links
      modifies `links, `deadlines
      ensures View() == LocalDescription(old(View()), id)
    {
      if links[id].produced { return; }
      CancelTimer(id);
      links := links[id :=
        links[id].(produced := true, attempt := if links[id].offer then AwaitingAnswer else AwaitingConnection)];
      StartTimer(id);
    }

    method UpdateHandshake(id: Id)
      requires id in links
      modifies `links
      ensures View() == Handshake(old(View()), id)
    {
      var l := links[id];
      if l.open || !l.transportOpen || !l.hello { return; }
      CancelTimer(id);
      links := links[id := links[id].(open := true, attempt := Connected)];
    }

    method UpdateReadiness(id: Id)
      requires id in links
      modifies `links, `deadlines
      ensures View() == Readiness(old(View()), id)
    {
      var l := links[id];
      if l.transportOpen || !l.control || !l.chat { return; }
      CancelTimer(id);
      links := links[id := links[id].(transportOpen := true, attempt := AwaitingHello)];
      StartTimer(id);
      UpdateHandshake(id);
    }

    method MarkHello(id: Id)
      modifies `links
      ensures View() == Hello(old(View()), id)
    {
      if id !in links { return; }
      links := links[id := links[id].(hello := true)];
      UpdateHandshake(id);
    }

    method MakeSuspect(id: Id)
      requires id in links
      modifies `links, `graces
      ensures View() == Suspicion(old(View()), id)
    {
      var l := links[id];
      if !l.open || l.attempt == Suspect { return; }
      links := links[id := l.(attempt := Suspect, disconnectGeneration := l.disconnectGeneration + 1)];
      graces := graces + {Timer(id, l.serial, links[id].disconnectGeneration)};
    }

    method ChannelIsOpen(id: Id, control: bool)
      requires id in links
      modifies `links, `deadlines
      ensures View() == ChannelOpened(old(View()), id, control)
    {
      links := links[id := if control then links[id].(control := true) else links[id].(chat := true)];
      UpdateReadiness(id);
    }

    method ChannelIsClosed(id: Id, control: bool)
      requires id in links
      modifies this
      ensures View() == ChannelClosed(old(View()), id, control)
    {
      links := links[id := if control then links[id].(control := false) else links[id].(chat := false)];
      if links[id].open { MakeSuspect(id); } else { RemoveLink(id); }
    }

    method TransportSignal(id: Id, serial: nat, signal: Signal)
      modifies this
      ensures View() == OnSignal(old(View()), id, serial, signal)
    {
      if id !in links || links[id].serial != serial { return; }
      match signal {
        case DescriptionReady => DescriptionProduced(id);
        case StateIs(state) => TransportState(id, state);
        case ErrorOccurred => if !links[id].open { RemoveLink(id); }
        case Opened(control) => ChannelIsOpen(id, control);
        case Closed(control) => ChannelIsClosed(id, control);
        case TransferClosed => MakeSuspect(id);
      }
    }

    method TransportState(id: Id, state: Transport)
      requires id in links
      modifies this
      ensures View() == StateChanged(old(View()), id, state)
    {
      var l := links[id];
      match state {
        case TransportConnected =>
          if l.control && l.chat { l := l.(disconnectGeneration := l.disconnectGeneration + 1); }
          if l.open && l.control && l.chat && l.attempt == Suspect { l := l.(attempt := Connected); }
          links := links[id := l];
        case TransportDisconnected => if l.open { MakeSuspect(id); }
        case TransportConnecting =>
          if !l.open && (l.attempt == AwaitingAnswer || l.attempt == AwaitingConnection) {
            links := links[id := l.(attempt := Connecting)];
          }
        case TransportFailed => RemoveLink(id);
        case TransportOther =>
      }
    }

    method DeadlineFired(t: Timer)
      modifies `links, `removed
      ensures View() == Step(old(View()), DeadlineFires(t))
    {
      if t.id !in links || links[t.id].serial != t.serial || links[t.id].open
        || links[t.id].deadlineGeneration != t.generation {
        return;
      }
      RemoveLink(t.id);
    }

    method GraceFired(t: Timer)
      modifies `links, `removed
      ensures View() == Step(old(View()), GraceFires(t))
    {
      if t.id !in links || links[t.id].serial != t.serial || links[t.id].disconnectGeneration != t.generation
         || links[t.id].attempt != Suspect {
        return;
      }
      RemoveLink(t.id);
    }
  }
}
