/** Why no connection ever changes its peer: the handshake that names the peer of an audio route. */
module AudioHandshakes {
  import opened Wrappers
  import opened AudioTransport
  import opened AudioRouteProofs

  type Key = nat

  /** The first hello of a connection; later ones must repeat it. */
  datatype Hello = Hello(key: Key, nonce: nat)

  datatype Link = Link(remote: Name, helloReceived: bool, transportOpen: bool, open: bool)

  datatype Session = Session(links: map<Name, Link>, hellos: map<Name, Hello>, audio: Audio)

  const NO_SESSION := Session(map[], map[], SILENT)

  /** The identity that belongs to a public key. */
  type Identities = Key -> Name

  datatype SessionEvent =
    | Create(connection: Name, remote: Name)
    | Expect(connection: Name, remote: Name)
    | PeerHello(connection: Name, sender: Name, hello: Hello)
    | PeerProof(connection: Name, sender: Name, verified: bool, ready: bool)
    | ChannelsOpen(connection: Name)
    | Remove(connection: Name)
    | ForgetHellos
    | Worker(event: AudioEvent)

  // ---- the connection manager's part ----

  function PutLink(s: Session, c: Name, l: Link, a: AudioEvent): Session {
    s.(links := s.links[c := l], audio := StepAudio(s.audio, a))
  }

  function Gone(s: Session, c: Name): Session {
    if c !in s.links then s
    else Session(s.links - {c}, s.hellos - {c}, StepAudio(s.audio, Unregister(c)))
  }

  /** Hello and channels: the link opens, and its audio route with it. */
  function Readiness(s: Session, c: Name): Session {
    if c !in s.links || s.links[c].open || !s.links[c].transportOpen || !s.links[c].helloReceived then s
    else PutLink(s, c, s.links[c].(open := true), Update(c, s.links[c].remote, true))
  }

  function MarkHello(s: Session, c: Name, remote: Name): Session {
    if c !in s.links then s
    else
      var l := s.links[c].(remote := remote, helloReceived := true);
      Readiness(PutLink(s, c, l, Update(c, remote, l.open)), c)
  }

  // ---- the session's part ----

  /** A hello is refused under a name that is not its key's, under another than the link's, or if it differs from the
      first. */
  predicate HelloRefused(ids: Identities, s: Session, c: Name, sender: Name, hello: Hello) {
    || c !in s.links || ids(hello.key) != sender
    || (s.links[c].remote != "" && s.links[c].remote != sender)
    || (c in s.hellos && s.hellos[c] != hello)
  }

  function Hear(ids: Identities, s: Session, c: Name, sender: Name, hello: Hello): Session {
    if HelloRefused(ids, s, c, sender, hello) then Gone(s, c) else s.(hellos := s.hellos[c := hello])
  }

  function Check(ids: Identities, s: Session, c: Name, sender: Name, verified: bool, ready: bool): Session {
    if c !in s.hellos || !ready then s
    else if sender != ids(s.hellos[c].key) || !verified then Gone(s, c)
    else MarkHello(s, c, ids(s.hellos[c].key))
  }

  function StepSession(ids: Identities, s: Session, e: SessionEvent): Session {
    match e
    case Create(c, remote) =>
      if c == "" || c in s.links then s else PutLink(s, c, Link(remote, false, false, false), Register(c, 0))
    case Expect(c, remote) =>
      if c !in s.links || remote == "" || s.links[c].helloReceived
         || (s.links[c].remote != "" && s.links[c].remote != remote) then s
      else s.(links := s.links[c := s.links[c].(remote := remote)])
    case PeerHello(c, sender, hello) => Hear(ids, s, c, sender, hello)
    case PeerProof(c, sender, verified, ready) => Check(ids, s, c, sender, verified, ready)
    case ChannelsOpen(c) =>
      if c !in s.links then s else Readiness(s.(links := s.links[c := s.links[c].(transportOpen := true)]), c)
    case Remove(c) => Gone(s, c)
    case ForgetHellos => s.(hellos := map[])
    case Worker(a) => s.(audio := StepAudio(s.audio, a))
  }

  /** Packets name their sender; only the connection manager touches the routes. */
  predicate Proper(e: SessionEvent) {
    && (e.PeerHello? ==> e.sender != "")
    && (e.Worker? ==> !e.event.Register? && !e.event.Update? && !e.event.Unregister?)
  }

  function RunSession(ids: Identities, s: Session, events: seq<SessionEvent>): Session
    decreases |events|
  {
    if events == [] then s else RunSession(ids, StepSession(ids, s, events[0]), events[1..])
  }

  predicate AllProper(events: seq<SessionEvent>) {
    forall k {:trigger events[k]} | 0 <= k < |events| :: Proper(events[k])
  }

  // ---- what every step keeps ----

  /** A link whose hello was proved has the peer of that hello, and a cached hello is of the same peer. */
  predicate LinksOk(ids: Identities, links: map<Name, Link>, hellos: map<Name, Hello>) {
    && (forall c <- links :: c != "" && (links[c].open ==> links[c].helloReceived))
    && (forall c <- links :: links[c].helloReceived ==> links[c].remote != "")
    && (forall c <- hellos :: c in links && ids(hellos[c].key) != "")
    && (forall c <- hellos :: links[c].helloReceived ==> ids(hellos[c].key) == links[c].remote)
  }

  predicate RouteOk(links: map<Name, Link>, c: Name, r: Route) {
    c in links && r.peer == if links[c].helloReceived then links[c].remote else ""
  }

  /** Routes and queued frames are under the peer that was proved. */
  predicate NamedOk(links: map<Name, Link>, w: Worker) {
    && (forall c <- w.routes :: RouteOk(links, c, w.routes[c]))
    && (forall f <- w.incoming :: f.connection in w.routes && f.peer == w.routes[f.connection].peer)
  }

  predicate SessionOk(ids: Identities, s: Session) {
    && LinksOk(ids, s.links, s.hellos) && NamedOk(s.links, s.audio.worker)
    && Ordered(s.audio.worker) && OverNewest(s.audio.worker)
  }

  lemma GoneKeeps(ids: Identities, s: Session, c: Name)
    requires SessionOk(ids, s)
    ensures SessionOk(ids, Gone(s, c))
  {
    if c in s.links {
      var w, n := s.audio.worker, Gone(s, c).audio.worker;
      StaysOrdered(w, Unregister(c));
      OthersOverNewest(w, Unregister(c));
      forall f | f in n.incoming ensures f.connection in n.routes && f.peer == n.routes[f.connection].peer {
        Kept(w.incoming, NotFrom(c), f);
      }
    }
  }

  /** An update under the peer already proved, or the first one, changes no frame's name. */
  lemma UpdateNamed(s: Session, c: Name, l: Link, open: bool)
    requires NamedOk(s.links, s.audio.worker) && Ordered(s.audio.worker) && OverNewest(s.audio.worker)
    requires c != "" && c in s.links && l.helloReceived && l.remote != ""
    requires s.links[c].helloReceived ==> l.remote == s.links[c].remote
    ensures var n := PutLink(s, c, l, Update(c, l.remote, open));
      NamedOk(n.links, n.audio.worker) && Ordered(n.audio.worker) && OverNewest(n.audio.worker)
  {
    var w, e := s.audio.worker, Update(c, l.remote, open);
    var n := PutLink(s, c, l, e);
    forall f | f in w.incoming && f.connection == c ensures f.peer == l.remote {
      assert Newest(w.routes, f.peer, c) && RouteOk(s.links, c, w.routes[c]);
    }
    StaysOrdered(w, e);
    NewestIffNotRelabelled(w, e);
    forall f | f in n.audio.worker.incoming
      ensures f.connection in n.audio.worker.routes && f.peer == n.audio.worker.routes[f.connection].peer
    {
      Kept(w.incoming, NotSuperseded(c, l.remote), f);
      Kept(w.incoming, NotFrom(c), f);
    }
  }

  lemma ReadinessKeeps(ids: Identities, s: Session, c: Name)
    requires SessionOk(ids, s)
    ensures SessionOk(ids, Readiness(s, c))
  {
    if Readiness(s, c) != s { UpdateNamed(s, c, s.links[c].(open := true), true); }
  }

  lemma MarkKeeps(ids: Identities, s: Session, c: Name)
    requires SessionOk(ids, s) && c in s.hellos
    ensures SessionOk(ids, MarkHello(s, c, ids(s.hellos[c].key)))
  {
    var remote := ids(s.hellos[c].key);
    var l := s.links[c].(remote := remote, helloReceived := true);
    UpdateNamed(s, c, l, l.open);
    ReadinessKeeps(ids, PutLink(s, c, l, Update(c, remote, l.open)), c);
  }

  lemma WorkerKeeps(ids: Identities, s: Session, a: AudioEvent)
    requires SessionOk(ids, s) && !a.Register? && !a.Update? && !a.Unregister?
    ensures SessionOk(ids, s.(audio := StepAudio(s.audio, a)))
  {
    var w, n := s.audio.worker, StepAudio(s.audio, a).worker;
    StaysOrdered(w, a);
    if a.Arrive? {
      ReceivedOverNewest(w, a.connection, a.packet);
    } else {
      OthersOverNewest(w, a);
    }
    forall f | f in n.incoming ensures f.connection in n.routes && f.peer == n.routes[f.connection].peer {
      assert Newest(n.routes, f.peer, f.connection);
    }
  }

  lemma CreateKeeps(ids: Identities, s: Session, c: Name, remote: Name)
    requires SessionOk(ids, s) && c != "" && c !in s.links
    ensures SessionOk(ids, PutLink(s, c, Link(remote, false, false, false), Register(c, 0)))
  {
    var w := s.audio.worker;
    StaysOrdered(w, Register(c, 0));
    OthersOverNewest(w, Register(c, 0));
  }

  lemma SessionStepKeeps(ids: Identities, s: Session, e: SessionEvent)
    requires SessionOk(ids, s) && Proper(e)
    ensures SessionOk(ids, StepSession(ids, s, e))
  {
    match e {
      case Create(c, remote) => if c != "" && c !in s.links { CreateKeeps(ids, s, c, remote); }
      case Expect(c, remote) =>
      case PeerHello(c, sender, hello) => if HelloRefused(ids, s, c, sender, hello) { GoneKeeps(ids, s, c); }
      case PeerProof(c, sender, verified, ready) =>
        GoneKeeps(ids, s, c);
        if c in s.hellos { MarkKeeps(ids, s, c); }
      case ChannelsOpen(c) =>
        if c in s.links { ReadinessKeeps(ids, s.(links := s.links[c := s.links[c].(transportOpen := true)]), c); }
      case Remove(c) => GoneKeeps(ids, s, c);
      case ForgetHellos =>
      case Worker(a) => WorkerKeeps(ids, s, a);
    }
  }

  lemma {:induction false} SessionRunKeeps(ids: Identities, s: Session, events: seq<SessionEvent>)
    requires SessionOk(ids, s) && AllProper(events)
    ensures SessionOk(ids, RunSession(ids, s, events))
    decreases |events|
  {
    if events != [] {
      SessionStepKeeps(ids, s, events[0]);
      SessionRunKeeps(ids, StepSession(ids, s, events[0]), events[1..]);
    }
  }

  /** In every run of the client, whoever says hello and under whatever name: frames queued for one peer all came over
      one connection, the newest that is open to it. */
  lemma OneStreamEachPeer(ids: Identities, events: seq<SessionEvent>, f: Incoming, g: Incoming)
    requires AllProper(events)
    requires var queue := RunSession(ids, NO_SESSION, events).audio.worker.incoming;
      f in queue && g in queue && f.peer == g.peer
    ensures f.connection == g.connection
    ensures Newest(RunSession(ids, NO_SESSION, events).audio.worker.routes, f.peer, f.connection)
  {
    SessionRunKeeps(ids, NO_SESSION, events);
    var w := RunSession(ids, NO_SESSION, events).audio.worker;
    assert Newest(w.routes, f.peer, f.connection) && Newest(w.routes, g.peer, g.connection);
  }
}
