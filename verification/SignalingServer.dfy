/**
 The server with its delivery queue. Sending may close a slow recipient, closing removes it from both
 registries, and that produces deliveries of its own, which wait until the current batch is through.
 */
module Signaling {
  import opened Wrappers
  import opened ServerMessages
  import opened Rooms
  import opened Presences
  import opened PresenceService
  import opened ServerSystem
  import opened ServerProofs
  import opened SnapshotDelivery

  type Batch = seq<Delivery>

  /** Something the loop tried to send, and whether it was queued on the socket. */
  datatype Attempt = Attempt(delivery: Delivery, sent: bool)

  datatype Round = Round(batch: Batch, attempts: seq<Attempt>)

  /** History: the steps of the state machine so far, the batches taken, what became of each that is through,
      and what has been sent since the last one was taken. */
  datatype History = History(turns: seq<Turn>, taken: seq<Batch>, rounds: seq<Round>, current: seq<Attempt>)

  predicate Forwards(m: Message) { m.SignalReceived? || m.MeshReceived? || m.DirectReceived? }

  predicate Confirms(m: Message) { m.SignalAccepted? || m.MeshRelayed? || m.DirectAccepted? }

  /** One of the first `k` forwarded messages of the batch did not go out. */
  predicate RelayFailed(batch: Batch, attempts: seq<Attempt>, k: nat)
    requires k <= |batch| && k <= |attempts|
  {
    exists j :: 0 <= j < k && Forwards(batch[j].message) && !attempts[j].sent
  }

  /** A confirmation after a failed relay goes out as an error instead; everything else as it is. */
  function Rendered(d: Delivery, failed: bool): Delivery {
    if failed && Confirms(d.message) then Delivery(d.session, Refused(d.message.request, RecipientUnavailable)) else d
  }

  predicate Renders(batch: Batch, attempts: seq<Attempt>) {
    && |attempts| == |batch|
    && (forall k {:trigger attempts[k]} | 0 <= k < |batch| ::
          attempts[k].delivery == Rendered(batch[k], RelayFailed(batch, attempts, k)))
  }

  /** The first `k` deliveries of the batch have been tried. */
  predicate SentSoFar(batch: Batch, k: nat, attempts: seq<Attempt>, relayFailed: bool) {
    k <= |batch| && Renders(batch[..k], attempts) && relayFailed == RelayFailed(batch[..k], attempts, k)
  }

  function Batches(rounds: seq<Round>): seq<Batch> { seq(|rounds|, k requires 0 <= k < |rounds| => rounds[k].batch) }

  function Piece(batch: Batch): seq<Batch> { if batch == [] then [] else [batch] }

  /** Every batch ever handed to the queue, in order. */
  function Queued(turns: seq<Turn>): seq<Batch> {
    if turns == [] then [] else Queued(turns[..|turns| - 1]) + Piece(turns[|turns| - 1].out)
  }

  function Reached(turns: seq<Turn>): Server { Play(Watched(START, map[]), turns).server }

  lemma {:induction false} ExtendFrom(w: Watched, turns: seq<Turn>, t: Turn)
    requires Played(w.server, turns)
    requires Fits(Play(w, turns).server, t.event) && Emits(Play(w, turns).server, t.event, t.out)
    ensures Played(w.server, turns + [t])
    ensures Play(w, turns + [t]).server == Step(Play(w, turns).server, t.event)
    decreases |turns|
  {
    if turns == [] {
      assert turns + [t] == [t] && [t][1..] == [];
    } else {
      assert (turns + [t])[1..] == turns[1..] + [t];
      ExtendFrom(Watched(Step(w.server, turns[0].event), ShowAll(w.screens, turns[0].out)), turns[1..], t);
    }
  }

  lemma Extend(turns: seq<Turn>, e: ServerEvent, out: Batch)
    requires Played(START, turns) && Fits(Reached(turns), e) && Emits(Reached(turns), e, out)
    ensures Played(START, turns + [Turn(e, out)])
    ensures Reached(turns + [Turn(e, out)]) == Step(Reached(turns), e)
    ensures Queued(turns + [Turn(e, out)]) == Queued(turns) + Piece(out)
  {
    ExtendFrom(Watched(START, map[]), turns, Turn(e, out));
    assert (turns + [Turn(e, out)])[..|turns|] == turns;
  }

  /** Since `before` the server has only lost clients. */
  predicate OnlyLost(before: seq<Turn>, after: seq<Turn>) {
    && |before| <= |after| && after[..|before|] == before
    && (forall k {:trigger after[k]} | |before| <= k < |after| :: after[k].event.Lose?)
  }

  lemma LostFurther(a: seq<Turn>, b: seq<Turn>, c: seq<Turn>)
    requires OnlyLost(a, b) && OnlyLost(b, c)
    ensures OnlyLost(a, c)
  {
    assert c[..|a|] == c[..|b|][..|a|];
    forall k | |a| <= k < |c| ensures c[k].event.Lose? {
      if k < |b| { assert c[k] == c[..|b|][k]; }
    }
  }

  /** The next step taken after `before` was this event, and clients were lost at most. */
  predicate Took(before: seq<Turn>, after: seq<Turn>, e: ServerEvent) {
    |before| < |after| && after[..|before|] == before && after[|before|].event == e
      && OnlyLost(after[..|before| + 1], after)
  }

  lemma TookThen(before: seq<Turn>, t: Turn, after: seq<Turn>)
    requires OnlyLost(before + [t], after)
    ensures Took(before, after, t.event)
  {
    assert after[..|before|] == after[..|before| + 1][..|before|] == before;
    assert after[|before|] == after[..|before| + 1][|before|];
  }

  lemma TookLoss(before: seq<Turn>, after: seq<Turn>, e: ServerEvent)
    requires Took(before, after, e) && e.Lose?
    ensures OnlyLost(before, after)
  {
  }

  // ---- the history as a story ----

  datatype Chapter = Turned(turn: Turn) | Taken(batch: Batch) | Tried(attempt: Attempt) | Ended(batch: Batch)

  /** A client that joins begins with nothing tried. */
  function NextHistory(h: History, c: Chapter): History {
    match c
    case Turned(t) => h.(turns := h.turns + [t], current := if t.event.Connect? then [] else h.current)
    case Taken(batch) => h.(taken := h.taken + [batch], current := [])
    case Tried(a) => h.(current := h.current + [a])
    case Ended(batch) => h.(rounds := h.rounds + [Round(batch, h.current)])
  }

  /** Clients join when everything queued is through, and a round ends when all of its batch has been tried. */
  predicate Follows(h: History, c: Chapter) {
    match c
    case Turned(t) => t.event.Connect? ==> t.out == [] && Queued(h.turns) == Batches(h.rounds)
    case Ended(batch) => Renders(batch, h.current)
    case _ => true
  }

  function Told(story: seq<Chapter>): History {
    if story == [] then History([], [], [], []) else NextHistory(Told(story[..|story| - 1]), story[|story| - 1])
  }

  predicate WellTold(story: seq<Chapter>) {
    story == [] || (WellTold(story[..|story| - 1]) && Follows(Told(story[..|story| - 1]), story[|story| - 1]))
  }

  /** Who has missed something since joining. */
  function Missed(story: seq<Chapter>): set<Id> {
    if story == [] then {} else NowMissed(Missed(story[..|story| - 1]), story[|story| - 1])
  }

  function NowMissed(missed: set<Id>, c: Chapter): set<Id> {
    match c
    case Turned(t) => if t.event.Connect? then missed - {t.event.session} else missed
    case Tried(a) => if a.sent then missed else missed + {a.delivery.session}
    case _ => missed
  }

  lemma ToldOn(story: seq<Chapter>, c: Chapter)
    requires WellTold(story) && Follows(Told(story), c)
    ensures WellTold(story + [c]) && Told(story + [c]) == NextHistory(Told(story), c)
    ensures Missed(story + [c]) == NowMissed(Missed(story), c)
  {
    assert (story + [c])[..|story|] == story;
  }

  /** Every finished round rendered its batch. */
  lemma {:induction false} RoundsRender(story: seq<Chapter>)
    requires WellTold(story)
    ensures forall r <- Told(story).rounds :: Renders(r.batch, r.attempts)
  {
    if story != [] { RoundsRender(story[..|story| - 1]); }
  }

  predicate SameRounds(before: History, after: History) { after.taken == before.taken && after.rounds == before.rounds }

  class SignalingServer {
    const rooms: RoomRegistry
    const presence: PresenceRegistry
    var clients: map<Id, Option<Identity>>
    var pending: seq<Batch>
    var delivering: bool

    /** Sockets whose client is gone, but which are not closed yet. */
    var closing: nat
    ghost var history: History
    ghost var story: seq<Chapter>

    /** Those whose socket has refused something and takes nothing any more. */
    var dropped: set<Id>

    function State(): Server
      reads this, rooms, presence
    {
      Server(clients, rooms.View(), presence.State())
    }

    /** The state is the one the state machine reaches, the history is honest, and there are at most 128 sockets. */
    ghost predicate Sound()
      reads this, rooms, presence
    {
      && Played(START, history.turns) && State() == Reached(history.turns)
      && |clients| + closing <= MAX_SESSIONS && Honest()
    }

    /** The history is the one that was told, and `dropped` holds exactly those who missed something since joining. */
    ghost predicate Honest()
      reads this
    {
      WellTold(story) && history == Told(story) && dropped == Missed(story)
    }

    /** Nothing queued is lost or reordered; outside the loop everything has been sent. */
    ghost predicate InOrder()
      reads this
    {
      && history.taken + pending == Queued(history.turns)
      && (!delivering ==> pending == [] && Batches(history.rounds) == history.taken)
    }

    /** What a nested call may do while a batch is being sent. */
    twostate predicate Nested()
      reads this
    {
      && delivering == old(delivering) && clients.Keys <= old(clients).Keys && |clients| <= |old(clients)|
      && |clients| + closing <= |old(clients)| + old(closing)
      && OnlyLost(old(history).turns, history.turns)
      && (delivering ==> SameRounds(old(history), history))
      && (delivering && |clients| == |old(clients)| ==> pending == old(pending))
    }

    constructor ()
      ensures Sound() && InOrder() && !delivering && State() == START
      ensures fresh(rooms) && fresh(presence)
    {
      rooms := new RoomRegistry();
      presence := new PresenceRegistry();
      clients, pending, delivering, closing := map[], [], false, 0;
      history, story, dropped := History([], [], [], []), [], {};
    }

    ghost method Tell(c: Chapter)
      requires WellTold(story) && history == Told(story) && Follows(history, c)
      modifies `history, `story
      ensures WellTold(story) && history == Told(story) && history == NextHistory(old(history), c)
      ensures Missed(story) == NowMissed(Missed(old(story)), c)
    {
      ToldOn(story, c);
      history, story := NextHistory(history, c), story + [c];
    }

    // ---- the delivery loop ----

    /** Both registries have taken the step `e`; what they emitted is delivered. */
    method Finish(ghost e: ServerEvent, out: Batch, now: int)
      requires Played(START, history.turns) && InOrder()
      requires |clients| + closing <= MAX_SESSIONS && Honest() && !e.Connect?
      requires Fits(Reached(history.turns), e) && Emits(Reached(history.turns), e, out)
      requires State() == Step(Reached(history.turns), e)
      modifies this, rooms, presence
      ensures Sound() && InOrder() && delivering == old(delivering)
      ensures clients.Keys <= old(clients).Keys && |clients| <= |old(clients)|
      ensures |clients| + closing <= |old(clients)| + old(closing)
      ensures delivering ==> SameRounds(old(history), history) && history.current == old(history).current
      ensures Took(old(history).turns, history.turns, e)
      decreases |clients|, 8
    {
      ghost var turns := history.turns;
      Extend(turns, e, out);
      Tell(Turned(Turn(e, out)));
      assert Sound();
      Deliver(out, now);
      TookThen(turns, Turn(e, out), history.turns);
    }

    method Deliver(batch: Batch, now: int)
      requires Sound() && history.taken + pending + Piece(batch) == Queued(history.turns)
      requires !delivering ==> pending == [] && Batches(history.rounds) == history.taken
      modifies this, rooms, presence
      ensures Sound() && InOrder() && delivering == old(delivering)
      ensures clients.Keys <= old(clients).Keys && |clients| <= |old(clients)|
      ensures |clients| + closing <= |old(clients)| + old(closing)
      ensures OnlyLost(old(history).turns, history.turns)
      ensures delivering ==>
        history == old(history) && clients == old(clients) && closing == old(closing)
          && pending == old(pending) + Piece(batch)
      decreases |clients|, 7
    {
      if batch == [] { return; }
      assert history.taken + (pending + [batch]) == history.taken + pending + [batch];
      pending := pending + [batch];
      if delivering { return; }
      delivering := true;
      DeliverAll(now);
      delivering := false;
    }

    method DeliverAll(now: int)
      requires Sound() && InOrder() && delivering && Batches(history.rounds) == history.taken
      modifies this, rooms, presence
      ensures Sound() && InOrder() && delivering && pending == [] && Batches(history.rounds) == history.taken
      ensures clients.Keys <= old(clients).Keys && |clients| <= |old(clients)|
      ensures |clients| + closing <= |old(clients)| + old(closing)
      ensures OnlyLost(old(history).turns, history.turns)
      decreases |clients|, 6
    {
      while pending != []
        invariant Sound() && InOrder() && delivering
        invariant Batches(history.rounds) == history.taken
        invariant clients.Keys <= old(clients).Keys && |clients| <= |old(clients)|
        invariant |clients| + closing <= |old(clients)| + old(closing)
        invariant OnlyLost(old(history).turns, history.turns)
        decreases |clients|, |pending|
      {
        ghost var before := history.turns;
        DeliverNext(now);
        LostFurther(old(history).turns, before, history.turns);
      }
    }

    /** One round of the loop; it loses a client or leaves fewer batches to send. */
    method DeliverNext(now: int)
      requires Sound() && InOrder() && delivering && pending != [] && Batches(history.rounds) == history.taken
      modifies this, rooms, presence
      ensures Sound() && InOrder() && delivering && Batches(history.rounds) == history.taken
      ensures clients.Keys <= old(clients).Keys && |clients| <= |old(clients)|
      ensures |clients| + closing <= |old(clients)| + old(closing)
      ensures OnlyLost(old(history).turns, history.turns)
      ensures |clients| < |old(clients)| || |pending| < |old(pending)|
      decreases |clients|, 5
    {
      var next := TakeNext();
      DeliverBatch(next, now);
    }

    method TakeNext() returns (next: Batch)
      requires pending != []
      requires Honest()
      modifies `pending, `history, `story
      ensures Honest() && [next] + pending == old(pending)
        && history == old(history).(taken := old(history).taken + [next], current := [])
      ensures history.taken + pending == old(history).taken + old(pending)
    {
      next := pending[0];
      assert history.taken + pending == (history.taken + [next]) + pending[1..];
      pending := pending[1..];
      Tell(Taken(next));
    }

    method DeliverBatch(batch: Batch, now: int)
      requires Sound() && InOrder() && delivering && Batches(history.rounds) + [batch] == history.taken
      requires history.current == []
      modifies this, rooms, presence
      ensures Sound() && InOrder() && delivering && Batches(history.rounds) == history.taken
      ensures clients.Keys <= old(clients).Keys && |clients| <= |old(clients)|
      ensures |clients| + closing <= |old(clients)| + old(closing)
      ensures OnlyLost(old(history).turns, history.turns)
      ensures |clients| == |old(clients)| ==> pending == old(pending)
      decreases |clients|, 4
    {
      var relayFailed := false;
      for k := 0 to |batch|
        invariant Sound() && InOrder() && Nested()
        invariant SentSoFar(batch, k, history.current, relayFailed)
      {
        ghost var before := history.turns;
        relayFailed := SendNext(batch, k, relayFailed, now);
        LostFurther(old(history).turns, before, history.turns);
      }
      EndBatch(batch, relayFailed);
    }

    /** The batch is through. */
    ghost method EndBatch(batch: Batch, relayFailed: bool)
      requires Sound() && InOrder() && delivering && Batches(history.rounds) + [batch] == history.taken
      requires SentSoFar(batch, |batch|, history.current, relayFailed)
      modifies `history, `story
      ensures Sound() && InOrder() && Batches(history.rounds) == history.taken && history.turns == old(history).turns
    {
      assert batch[..|batch|] == batch;
      ghost var rounds := history.rounds;
      Tell(Ended(batch));
      assert Batches(history.rounds) == Batches(rounds) + [batch];
    }

    /** Sends the next delivery of a batch in which a relay may have failed. */
    method SendNext(batch: Batch, k: nat, relayFailed: bool, now: int) returns (failed: bool)
      requires Sound() && InOrder() && delivering && k < |batch| && SentSoFar(batch, k, history.current, relayFailed)
      modifies this, rooms, presence
      ensures Sound() && InOrder() && Nested() && SentSoFar(batch, k + 1, history.current, failed)
      ensures exists sent :: history.current == old(history).current + [Attempt(Rendered(batch[k], relayFailed), sent)]
      decreases |clients|, 3
    {
      var delivery := batch[k];
      ghost var before := history.current;
      failed := relayFailed;
      var sent;
      if Confirms(delivery.message) && relayFailed {
        sent := Send(Delivery(delivery.session, Refused(delivery.message.request, RecipientUnavailable)), now);
      } else {
        sent := Send(delivery, now);
        if Forwards(delivery.message) && !sent { failed := true; }
      }
      assert batch[..k + 1] == batch[..k] + [delivery];
      RenderNext(batch[..k], before, delivery, sent);
    }

    /** Puts a message on the session's socket; `*` stands for the socket's answer. */
    method Send(d: Delivery, now: int) returns (sent: bool)
      requires Sound() && InOrder()
      modifies this, rooms, presence
      ensures Sound() && InOrder() && Nested()
      ensures sent ==> d.session in clients && clients == old(clients)
      ensures sent || delivering ==> history.current == old(history).current + [Attempt(d, sent)]
      decreases |clients|, 2
    {
      var connected: bool := *;
      var accepted: bool := *;
      connected := connected && d.session !in dropped;
      sent := d.session in clients && connected && accepted;
      if !sent { dropped := dropped + {d.session}; }
      Tell(Tried(Attempt(d, sent)));
      if d.session in clients && connected && !accepted { CloseClient(d.session, now); }
    }

    /** The socket goes on closing after its client is gone. */
    method CloseClient(session: Id, now: int)
      requires Sound() && InOrder()
      modifies this, rooms, presence
      ensures Sound() && InOrder() && Nested() && session !in clients
      ensures delivering ==> history.current == old(history).current
      decreases |clients|, 1
    {
      var had := session in clients;
      RemoveClient(session, now);
      if had { closing := closing + 1; }
    }

    /** Erases the session everywhere and collects what the others are to be told. */
    method Erase(session: Id, now: int) returns (out: Batch)
      requires session in clients
      modifies `clients, rooms, presence
      ensures clients == old(clients) - {session} && |clients| == |old(clients)| - 1
        && State() == Remove(old(State()), session, now)
      ensures LoseEmits(old(State()), session, now, out)
    {
      clients := clients - {session};
      var left := rooms.Disconnect(session);
      var gone := presence.Disconnect(session, rooms, now);
      out := left + gone;
    }

    method RemoveClient(session: Id, now: int)
      requires Sound() && InOrder()
      modifies this, rooms, presence
      ensures Sound() && InOrder() && Nested() && session !in clients
      ensures delivering ==> history.current == old(history).current
      ensures session in old(clients) ==> |clients| + closing < |old(clients)| + old(closing)
      decreases |clients|, 0
    {
      if session !in clients { return; }
      var out := Erase(session, now);
      Finish(Lose(session, now), out, now);
      TookLoss(old(history).turns, history.turns, Lose(session, now));
    }

    // ---- the entry points ----

    /** A socket that has been closing is gone. */
    method SocketClosed()
      requires Sound() && InOrder() && closing > 0
      modifies `closing
      ensures Sound() && InOrder() && closing == old(closing) - 1
    {
      closing := closing - 1;
    }

    method Enlist(session: Id)
      requires Sound() && InOrder() && !delivering && session !in clients && |clients| + closing < MAX_SESSIONS
      modifies `clients, `history, `story, `dropped
      ensures Sound() && InOrder() && session in clients && session !in dropped
      ensures history == old(history).(turns := old(history).turns + [Turn(Connect(session), [])], current := [])
      ensures State() == Step(old(State()), Connect(session))
    {
      Extend(history.turns, Connect(session), []);
      assert history.taken + [] == history.taken;
      StepConnects(State(), session);
      Tell(Turned(Turn(Connect(session), [])));
      clients := clients[session := None];
      dropped := dropped - {session};
      OneMore(old(clients), session);
    }

    /** At most 128 sockets are served, those still closing included; a new one is sent its challenge, which may already
        fail. */
    method RegisterClient(session: Id, now: int) returns (admitted: bool)
      requires Sound() && InOrder() && !delivering && session !in clients
      modifies this, rooms, presence
      ensures Sound() && InOrder() && delivering == old(delivering)
      ensures admitted == (|old(clients)| + old(closing) < MAX_SESSIONS)
      ensures if admitted then Took(old(history).turns, history.turns, Connect(session)) else State() == old(State())
    {
      if |clients| + closing >= MAX_SESSIONS { return false; }
      ghost var turns := history.turns;
      Enlist(session);
      var _ := Send(Delivery(session, Challenge), now);
      TookThen(turns, Turn(Connect(session), []), history.turns);
      admitted := true;
    }

    method AnyoneIs(identity: Identity) returns (found: bool)
      ensures found == Claimed(clients, identity)
    {
      found := false;
      var left := clients.Keys;
      while left != {}
        invariant left <= clients.Keys && forall s <- clients :: s in left || clients[s] != Some(identity)
        decreases |left|
      {
        var s :| s in left;
        if clients[s] == Some(identity) { return true; }
        left := left - {s};
      }
    }

    method Identify(session: Id, identity: Identity)
      requires Sound() && InOrder() && session in clients && clients[session].None? && !Claimed(clients, identity)
      modifies `clients, `history, `story
      ensures Sound() && InOrder() && clients == old(clients)[session := Some(identity)]
      ensures history
        == old(history).(turns := old(history).turns + [Turn(ServerEvent.Authenticate(session, identity), [])])
      ensures State() == Step(old(State()), ServerEvent.Authenticate(session, identity))
    {
      Extend(history.turns, ServerEvent.Authenticate(session, identity), []);
      assert history.taken + [] == history.taken;
      StepProves(State(), session, identity);
      Tell(Turned(Turn(ServerEvent.Authenticate(session, identity), [])));
      clients := clients[session := Some(identity)];
      AsMany(old(clients), session, identity);
    }

    method Reject(session: Id, id: Id, code: Code, now: int)
      requires Sound() && InOrder()
      modifies this, rooms, presence
      ensures Sound() && InOrder() && delivering == old(delivering) && session !in clients
      ensures OnlyLost(old(history).turns, history.turns)
    {
      var _ := Send(Delivery(session, Refused(id, code)), now);
      ghost var turns := history.turns;
      CloseClient(session, now);
      LostFurther(old(history).turns, turns, history.turns);
    }

    predicate MayAuthenticate(session: Id, identity: Identity, proved: bool)
      reads this
    {
      session in clients && clients[session].None? && proved && !Claimed(clients, identity)
    }

    /** A session proves an identity at most once, and no two sessions hold the same. The confirmation may fail in
        turn. */
    method Authenticate(session: Id, id: Id, identity: Identity, proved: bool, now: int)
      requires Sound() && InOrder()
      modifies this, rooms, presence
      ensures Sound() && InOrder() && delivering == old(delivering)
      ensures if old(MayAuthenticate(session, identity, proved))
              then Took(old(history).turns, history.turns, ServerEvent.Authenticate(session, identity))
              else session !in clients && OnlyLost(old(history).turns, history.turns)
    {
      if session !in clients { return; }
      var taken := AnyoneIs(identity);
      if clients[session].Some? || !proved { Reject(session, id, AuthenticationFailed, now); return; }
      if taken { Reject(session, id, IdentityInUse, now); return; }
      ghost var turns := history.turns;
      Identify(session, identity);
      var _ := Send(Delivery(session, Authenticated(id)), now);
      TookThen(turns, Turn(ServerEvent.Authenticate(session, identity), []), history.turns);
    }

    /** One validated request from a socket. */
    method Receive(session: Id, id: Id, r: Request, now: int, draw: Draw)
      requires Sound() && InOrder() && Free(rooms.View(), r, draw.room)
      modifies this, rooms, presence
      ensures Sound() && InOrder() && delivering == old(delivering)
      ensures if Admitted(old(clients), session, r)
        then Took(old(history).turns, history.turns, Ask(session, id, r, now, draw))
              else OnlyLost(old(history).turns, history.turns)
    {
      if session !in clients { return; }
      if clients[session].None? {
        Reject(session, id, AuthenticationRequired, now);
        return;
      }
      if r.PresencePublish? && r.identity != clients[session].value {
        var _ := Send(Delivery(session, Refused(id, IdentityMismatch)), now);
        return;
      }
      var out := Consult(session, id, r, now, draw);
      Finish(Ask(session, id, r, now, draw), out, now);
    }

    method ConsultRooms(session: Id, id: Id, r: Request, now: int, draw: Draw) returns (out: Batch)
      requires !ForPresence(r)
      modifies rooms, presence
      ensures var before := old(State()); var h := Handle(before.rooms, session, id, r, now, draw.room);
        && RoomEmits(before, session, id, r, now, draw, out) && rooms.View() == h.registry
        && presence.State() == if MovesMembers(r) then Maintain(before.presence, h.registry, now) else before.presence
    {
      var answer := rooms.HandleRequest(session, id, r, now, draw.room);
      var closed := [];
      if r.RoomCreate? || r.RoomJoin? || r.RoomLeave? {
        closed := presence.MaintainInvitations(rooms, now);
      }
      out := answer + closed;
    }

    /** The registry the request is for answers it; room changes also tidy the invitations. */
    method Consult(session: Id, id: Id, r: Request, now: int, draw: Draw) returns (out: Batch)
      requires Admitted(clients, session, r)
      modifies rooms, presence
      ensures State() == Dispatch(old(State()), session, id, r, now, draw)
      ensures Emits(old(State()), Ask(session, id, r, now, draw), out)
    {
      if ForPresence(r) {
        out := presence.HandleRequest(session, id, r, rooms, now, draw.presence);
      } else {
        out := ConsultRooms(session, id, r, now, draw);
      }
    }

    /** The part of the maintenance tick that concerns rooms and invitations. */
    method MaintainAll(now: int)
      requires Sound() && InOrder()
      modifies this, rooms, presence
      ensures Sound() && InOrder() && delivering == old(delivering)
      ensures Took(old(history).turns, history.turns, Tick(now))
    {
      rooms.ExpireInvitations(now);
      var out := presence.MaintainInvitations(rooms, now);
      Finish(Tick(now), out, now);
    }

    /** Then everyone whose login or heartbeat is overdue is closed. */
    method MaintainConnections(overdue: seq<Id>, now: int)
      requires Sound() && InOrder()
      modifies this, rooms, presence
      ensures Sound() && InOrder() && delivering == old(delivering)
      ensures forall s <- overdue :: s !in clients
    {
      MaintainAll(now);
      CloseAll(overdue, now);
    }

    method CloseNext(overdue: seq<Id>, k: nat, now: int)
      requires Sound() && InOrder() && k < |overdue| && Gone(overdue, k, clients.Keys)
      modifies this, rooms, presence
      ensures Sound() && InOrder() && delivering == old(delivering)
      ensures Gone(overdue, k + 1, clients.Keys)
    {
      CloseClient(overdue[k], now);
    }

    method CloseAll(overdue: seq<Id>, now: int)
      requires Sound() && InOrder()
      modifies this, rooms, presence
      ensures Sound() && InOrder() && delivering == old(delivering)
      ensures Gone(overdue, |overdue|, clients.Keys)
    {
      for k := 0 to |overdue|
        invariant Sound() && InOrder() && delivering == old(delivering)
        invariant Gone(overdue, k, clients.Keys)
      {
        CloseNext(overdue, k, now);
      }
    }
  }

  lemma OneMore(clients: map<Id, Option<Identity>>, s: Id)
    requires s !in clients
    ensures |clients[s := None]| == |clients| + 1
  {
    assert clients[s := None].Keys == clients.Keys + {s};
  }

  lemma StepConnects(srv: Server, s: Id)
    requires |srv.clients| < MAX_SESSIONS
    ensures Step(srv, Connect(s)) == srv.(clients := srv.clients[s := None])
  {
  }

  lemma StepProves(srv: Server, s: Id, identity: Identity)
    requires s in srv.clients && srv.clients[s].None? && !Claimed(srv.clients, identity)
    ensures Step(srv, ServerEvent.Authenticate(s, identity)) == srv.(clients := srv.clients[s := Some(identity)])
  {
  }

  lemma AsMany(clients: map<Id, Option<Identity>>, s: Id, identity: Identity)
    requires s in clients
    ensures |clients[s := Some(identity)]| == |clients| && clients[s := Some(identity)].Keys == clients.Keys
  {
    assert clients[s := Some(identity)].Keys == clients.Keys && |clients| == |clients.Keys|;
  }

  /** The first `k` of these are no clients. */
  predicate Gone(overdue: seq<Id>, k: nat, clients: set<Id>)
    requires k <= |overdue|
  {
    forall j | 0 <= j < k :: overdue[j] !in clients
  }

  lemma RenderNext(batch: Batch, attempts: seq<Attempt>, d: Delivery, sent: bool)
    requires Renders(batch, attempts)
    ensures var failed := RelayFailed(batch, attempts, |batch|);
      var more := attempts + [Attempt(Rendered(d, failed), sent)];
      && Renders(batch + [d], more)
      && (RelayFailed(batch + [d], more, |batch| + 1) <==> failed || (Forwards(d.message) && !sent))
  {
    var failed := RelayFailed(batch, attempts, |batch|);
    var more := attempts + [Attempt(Rendered(d, failed), sent)];
    forall k | 0 <= k <= |batch| ensures RelayFailed(batch + [d], more, k) == RelayFailed(batch, attempts, k) {
      SamePrefix(batch, attempts, batch + [d], more, k);
    }
    assert (batch + [d])[|batch|] == d && more[|batch|].sent == sent;
  }

  lemma SamePrefix(batch: Batch, attempts: seq<Attempt>, longer: Batch, more: seq<Attempt>, k: nat)
    requires k <= |batch| <= |longer| && |attempts| == |batch| && |attempts| <= |more|
    requires longer[..|batch|] == batch && more[..|attempts|] == attempts
    ensures RelayFailed(longer, more, k) == RelayFailed(batch, attempts, k)
  {
    assert forall j :: 0 <= j < k ==> longer[j] == batch[j] && more[j] == attempts[j];
  }

  /** A relayed message is confirmed to its sender exactly when it was queued for its recipient. */
  lemma ConfirmedIffRelayed(from: Id, to: Id, m: Message, confirmation: Message, attempts: seq<Attempt>)
    requires Forwards(m) && Confirms(confirmation)
    requires Renders([Delivery(to, m), Delivery(from, confirmation)], attempts)
    ensures attempts[0].delivery == Delivery(to, m)
    ensures attempts[1].delivery == if attempts[0].sent then Delivery(from, confirmation)
                                    else Delivery(from, Refused(confirmation.request, RecipientUnavailable))
  {
    var batch := [Delivery(to, m), Delivery(from, confirmation)];
    assert attempts[0].delivery == Rendered(batch[0], RelayFailed(batch, attempts, 0));
    assert attempts[1].delivery == Rendered(batch[1], RelayFailed(batch, attempts, 1));
    if !attempts[0].sent { assert Forwards(batch[0].message) && !attempts[0].sent; }
  }

  lemma {:induction false} PlaySteps(w: Watched, turns: seq<Turn>)
    requires Played(w.server, turns)
    ensures AllFit(w.server, Events(turns)) && Play(w, turns).server == RunServer(w.server, Events(turns))
    decreases |turns|
  {
    if turns != [] {
      PlaySteps(Watched(Step(w.server, turns[0].event), ShowAll(w.screens, turns[0].out)), turns[1..]);
      assert Events(turns)[1..] == Events(turns[1..]);
    }
  }

  function Events(turns: seq<Turn>): seq<ServerEvent> {
    if turns == [] then [] else [turns[0].event] + Events(turns[1..])
  }

  /** So a server at rest, however its sends went, meets the invariant of both registries, and has tried every batch, in
      order. */
  lemma AtRest(server: SignalingServer)
    requires server.Sound() && server.InOrder() && !server.delivering
    ensures Inv(server.State())
    ensures Batches(server.history.rounds) == Queued(server.history.turns)
    ensures forall r <- server.history.rounds :: Renders(r.batch, r.attempts)
  {
    var turns := server.history.turns;
    PlaySteps(Watched(START, map[]), turns);
    EveryRunHolds(Events(turns));
    RoundsRender(server.story);
    assert server.history.taken + [] == server.history.taken;
  }
}
