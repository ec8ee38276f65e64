/** What reaches the clients: sends may fail, and a client that missed nothing has the newest snapshot on screen. */
module SnapshotArrival {
  import opened Wrappers
  import opened ServerMessages
  import opened Presences
  import opened PresenceService
  import opened PresenceProofs
  import opened ServerSystem
  import opened ServerProofs
  import opened SnapshotDelivery
  import opened Signaling

  /** What the clients have on screen after these attempts: only what went out shows. */
  function Heard(screens: Screens, attempts: seq<Attempt>): Screens {
    if attempts == [] then screens
    else
      var before, last := Heard(screens, attempts[..|attempts| - 1]), attempts[|attempts| - 1];
      if last.sent then Show(before, last.delivery) else before
  }

  function HeardAll(screens: Screens, rounds: seq<Round>): Screens {
    if rounds == [] then screens else Heard(HeardAll(screens, rounds[..|rounds| - 1]), rounds[|rounds| - 1].attempts)
  }

  /** What the clients would have on screen had everything gone out. */
  function ShowBatches(screens: Screens, batches: seq<Batch>): Screens {
    if batches == [] then screens
    else ShowAll(ShowBatches(screens, batches[..|batches| - 1]), batches[|batches| - 1])
  }

  // ---- runs in two parts ----

  lemma {:induction false} PlayTwo(w: Watched, a: seq<Turn>, b: seq<Turn>)
    requires Played(w.server, a + b)
    ensures Played(w.server, a) && Played(Play(w, a).server, b) && Play(w, a + b) == Play(Play(w, a), b)
    decreases |a|
  {
    if a == [] {
      assert a + b == b;
    } else {
      assert (a + b)[0] == a[0] && (a + b)[1..] == a[1..] + b;
      PlayTwo(Watched(Step(w.server, a[0].event), ShowAll(w.screens, a[0].out)), a[1..], b);
    }
  }

  lemma {:induction false} ScreensAside(w: Watched, v: Watched, turns: seq<Turn>)
    requires w.server == v.server
    ensures Play(w, turns).server == Play(v, turns).server
    decreases |turns|
  {
    if turns != [] {
      var t := turns[0];
      ScreensAside(Watched(Step(w.server, t.event), ShowAll(w.screens, t.out)),
                   Watched(Step(v.server, t.event), ShowAll(v.screens, t.out)), turns[1..]);
    }
  }

  lemma {:induction false} QueuedTwo(a: seq<Turn>, b: seq<Turn>)
    ensures Queued(a + b) == Queued(a) + Queued(b)
  {
    if b == [] {
      assert a + b == a;
    } else {
      assert (a + b)[..|a + b| - 1] == a + b[..|b| - 1];
      QueuedTwo(a, b[..|b| - 1]);
    }
  }

  lemma ShowPiece(screens: Screens, batches: seq<Batch>, out: Batch)
    ensures ShowBatches(screens, batches + Piece(out)) == ShowAll(ShowBatches(screens, batches), out)
  {
    if out == [] { assert batches + [] == batches; } else { assert (batches + [out])[..|batches|] == batches; }
  }

  lemma {:induction false} PlayShows(w: Watched, turns: seq<Turn>)
    requires Played(w.server, turns)
    ensures Play(w, turns).screens == ShowBatches(w.screens, Queued(turns))
  {
    if turns != [] {
      var init, t := turns[..|turns| - 1], turns[|turns| - 1];
      assert turns == init + [t] && [t][1..] == [];
      PlayTwo(w, init, [t]);
      PlayShows(w, init);
      ShowPiece(w.screens, Queued(init), t.out);
    }
  }

  // ---- planned and sent snapshots ----

  /** What `s` was to see, it sees. */
  predicate SameFor(s: Id, planned: Screens, seen: Screens) {
    s in planned ==> s in seen && seen[s] == planned[s]
  }

  predicate AllSent(attempts: seq<Attempt>, s: Id) { forall a <- attempts :: a.delivery.session == s ==> a.sent }

  lemma {:induction false} BatchArrives(planned: Screens, seen: Screens, batch: Batch, attempts: seq<Attempt>, s: Id,
                                        k: nat)
    requires SameFor(s, planned, seen) && Renders(batch, attempts) && AllSent(attempts, s) && k <= |batch|
    ensures SameFor(s, ShowAll(planned, batch[..k]), Heard(seen, attempts[..k]))
  {
    if k > 0 {
      BatchArrives(planned, seen, batch, attempts, s, k - 1);
      assert batch[..k][..k - 1] == batch[..k - 1] && attempts[..k][..k - 1] == attempts[..k - 1];
      assert attempts[k - 1] in attempts;
      assert attempts[k - 1].delivery == Rendered(batch[k - 1], RelayFailed(batch, attempts, k - 1));
    }
  }

  predicate AllArrived(rounds: seq<Round>, s: Id) { forall r <- rounds :: AllSent(r.attempts, s) }

  lemma {:induction false} RoundsArrive(planned: Screens, seen: Screens, rounds: seq<Round>, s: Id)
    requires SameFor(s, planned, seen) && AllArrived(rounds, s)
    requires forall r <- rounds :: Renders(r.batch, r.attempts)
    ensures SameFor(s, ShowBatches(planned, Batches(rounds)), HeardAll(seen, rounds))
  {
    if rounds != [] {
      var init, r := rounds[..|rounds| - 1], rounds[|rounds| - 1];
      RoundsArrive(planned, seen, init, s);
      assert Batches(rounds)[..|rounds| - 1] == Batches(init);
      BatchArrives(ShowBatches(planned, Batches(init)), HeardAll(seen, init), r.batch, r.attempts, s, |r.batch|);
      assert r.batch[..|r.batch|] == r.batch && r.attempts[..|r.batch|] == r.attempts;
    }
  }

  lemma {:induction false} HeardTwo(screens: Screens, a: seq<Round>, b: seq<Round>)
    ensures HeardAll(screens, a + b) == HeardAll(HeardAll(screens, a), b)
  {
    if b == [] {
      assert a + b == a;
    } else {
      assert (a + b)[..|a + b| - 1] == a + b[..|b| - 1];
      HeardTwo(screens, a, b[..|b| - 1]);
    }
  }

  // ---- since a client joined ----

  /** Client `s` joined with step `j`, when the first `i` rounds had been through, and has missed nothing since. */
  predicate Since(h: History, s: Id, j: nat, i: nat) {
    && 0 < j <= |h.turns| && h.turns[j - 1].event == Connect(s)
    && i <= |h.rounds| && Queued(h.turns[..j]) == Batches(h.rounds[..i])
    && AllSent(h.current, s) && AllArrived(h.rounds[i..], s)
  }

  predicate Joined(turns: seq<Turn>, s: Id) { exists t <- turns :: t.event == Connect(s) }

  lemma JustJoined(h: History, c: Chapter, s: Id)
    requires c.Turned? && c.turn.event == Connect(s) && Follows(h, c)
    ensures Since(NextHistory(h, c), s, |h.turns| + 1, |h.rounds|)
  {
    var n := NextHistory(h, c);
    assert n.turns[..|h.turns| + 1] == n.turns;
    assert n.turns[..|n.turns| - 1] == h.turns;
    assert n.rounds[..|h.rounds|] == h.rounds;
    assert Queued(n.turns) == Queued(h.turns) + [];
  }

  lemma StillSince(h: History, c: Chapter, s: Id, j: nat, i: nat)
    requires Since(h, s, j, i) && !(c.Turned? && c.turn.event == Connect(s))
    requires c.Tried? ==> c.attempt.delivery.session == s ==> c.attempt.sent
    ensures Since(NextHistory(h, c), s, j, i)
  {
    var n := NextHistory(h, c);
    assert n.turns[..j] == h.turns[..j];
    assert n.rounds[..i] == h.rounds[..i];
    if c.Ended? { assert n.rounds[i..] == h.rounds[i..] + [Round(c.batch, h.current)]; }
  }

  lemma {:induction false} JoinPoint(story: seq<Chapter>, s: Id) returns (j: nat, i: nat)
    requires WellTold(story) && Joined(Told(story).turns, s) && s !in Missed(story)
    ensures Since(Told(story), s, j, i)
  {
    var init, c := story[..|story| - 1], story[|story| - 1];
    var h := Told(init);
    if c.Turned? && c.turn.event == Connect(s) {
      JustJoined(h, c, s);
      j, i := |h.turns| + 1, |h.rounds|;
    } else {
      j, i := JoinPoint(init, s);
      StillSince(h, c, s, j, i);
    }
  }

  lemma NoNewClient(srv: Server, e: ServerEvent, s: Id)
    requires s in Step(srv, e).clients
    ensures s in srv.clients || e == Connect(s)
  {
  }

  lemma {:induction false} ClientsJoined(w: Watched, turns: seq<Turn>, s: Id)
    requires s in Play(w, turns).server.clients
    ensures s in w.server.clients || Joined(turns, s)
    decreases |turns|
  {
    if turns != [] {
      var t := turns[0];
      var n := Watched(Step(w.server, t.event), ShowAll(w.screens, t.out));
      ClientsJoined(n, turns[1..], s);
      if Joined(turns[1..], s) {
        var u :| u in turns[1..] && u.event == Connect(s);
        assert u in turns;
      } else {
        NoNewClient(w.server, t.event, s);
        assert t in turns;
      }
    }
  }

  lemma {:induction false} ReachedHolds(turns: seq<Turn>)
    requires Played(START, turns)
    ensures var w := Play(Watched(START, map[]), turns); Inv(w.server) && Current(w.screens, w.server.presence.profiles)
  {
    StartHolds();
    PlayFrom(Watched(START, map[]), turns);
  }

  lemma StartHolds()
    ensures Inv(START)
  {
    assert forall t :: Outgoing(START.presence.invitations, t) == {};
  }

  lemma ConnectedHasNoProfile(srv: Server, s: Id)
    requires ProfilesLive(srv.clients, srv.presence.profiles) && Fits(srv, Connect(s))
    ensures s !in Step(srv, Connect(s)).presence.profiles
  {
  }

  lemma LivesOn(srv: Server)
    requires Inv(srv)
    ensures ProfilesLive(srv.clients, srv.presence.profiles)
  {
  }

  /** Whoever has just joined has no profile yet. */
  lemma {:induction false} FreshHasNoProfile(turns: seq<Turn>, s: Id)
    requires Played(START, turns) && turns != [] && turns[|turns| - 1].event == Connect(s)
    ensures s !in Reached(turns).presence.profiles
  {
    var start := Watched(START, map[]);
    var init, t := turns[..|turns| - 1], turns[|turns| - 1];
    assert turns == init + [t] && [t][1..] == [];
    PlayTwo(start, init, [t]);
    ReachedHolds(init);
    LivesOn(Reached(init));
    ConnectedHasNoProfile(Reached(init), s);
  }

  /** The session has on screen what a snapshot computed now would show. */
  ghost predicate Ends(screens: Screens, p: Presence, s: Id) {
    s in p.profiles && s in screens && screens[s] == View(p.profiles, p.byIdentity, s)
  }

  /** What is planned for `s` from its joining on, beginning with an empty screen, ends in the newest snapshot. */
  lemma {:induction false} PlannedSince(a: seq<Turn>, b: seq<Turn>, s: Id) returns (screens: Screens)
    requires Played(START, a + b) && a != [] && a[|a| - 1].event == Connect(s)
    requires s in Reached(a + b).presence.profiles
    ensures s !in screens && Ends(ShowBatches(screens, Queued(b)), Reached(a + b).presence, s)
  {
    var start := Watched(START, map[]);
    PlayTwo(start, a, b);
    FreshHasNoProfile(a, s);
    ReachedHolds(a);
    screens := Play(start, a).screens - {s};
    CurrentWithout(Play(start, a).screens, Play(start, a).server.presence.profiles, s);
    EndsWithout(Play(start, a), screens, b, s);
  }

  lemma {:induction false} EndsWithout(w: Watched, screens: Screens, b: seq<Turn>, s: Id)
    requires Inv(w.server) && Current(screens, w.server.presence.profiles) && Played(w.server, b)
    requires s in Play(w, b).server.presence.profiles
    ensures Ends(ShowBatches(screens, Queued(b)), Play(w, b).server.presence, s)
  {
    var v := Watched(w.server, screens);
    ScreensAside(w, v, b);
    EndsCurrent(v, b, s, Play(w, b).server);
  }

  lemma CurrentWithout(screens: Screens, profiles: map<Id, Profile>, s: Id)
    requires Current(screens, profiles) && s !in profiles
    ensures Current(screens - {s}, profiles)
  {
  }

  lemma {:induction false} EndsCurrent(v: Watched, b: seq<Turn>, s: Id, last: Server)
    requires Inv(v.server) && Current(v.screens, v.server.presence.profiles) && Played(v.server, b)
    requires last == Play(v, b).server && s in last.presence.profiles
    ensures Ends(ShowBatches(v.screens, Queued(b)), last.presence, s)
  {
    PlayFrom(v, b);
    PlayShows(v, b);
    CachesAreViews(last, s);
  }

  lemma CachesAreViews(srv: Server, s: Id)
    requires Inv(srv) && s in srv.presence.profiles
    ensures srv.presence.profiles[s].published
    ensures srv.presence.profiles[s].snapshot == View(srv.presence.profiles, srv.presence.byIdentity, s)
  {
  }

  lemma SameTail<T>(a: seq<T>, b: seq<T>, c: seq<T>, d: seq<T>)
    requires a + b == c + d && a == c
    ensures b == d
  {
    assert b == (a + b)[|a|..] && d == (c + d)[|c|..];
  }

  lemma BatchesTwo(a: seq<Round>, b: seq<Round>)
    ensures Batches(a + b) == Batches(a) + Batches(b)
  {
  }

  lemma {:induction false} QueuedSince(a: seq<Turn>, b: seq<Turn>, c: seq<Round>, d: seq<Round>)
    requires Queued(a + b) == Batches(c + d) && Queued(a) == Batches(c)
    ensures Queued(b) == Batches(d)
  {
    QueuedTwo(a, b);
    BatchesTwo(c, d);
    SameTail(Queued(a), Queued(b), Batches(c), Batches(d));
  }

  /** From its joining on, everything has gone out to `s`, so it sees what was planned. */
  lemma {:induction false} ArrivesSince(a: seq<Turn>, b: seq<Turn>, c: seq<Round>, d: seq<Round>, s: Id)
    requires Played(START, a + b) && a != [] && a[|a| - 1].event == Connect(s)
    requires s in Reached(a + b).presence.profiles
    requires Queued(a + b) == Batches(c + d) && Queued(a) == Batches(c) && AllArrived(d, s)
    requires forall r <- d :: Renders(r.batch, r.attempts)
    ensures Ends(HeardAll(map[], c + d), Reached(a + b).presence, s)
  {
    var screens := PlannedSince(a, b, s);
    QueuedSince(a, b, c, d);
    RoundsArrive(screens, HeardAll(map[], c), d, s);
    HeardTwo(map[], c, d);
  }

  lemma {:induction false} EndsSince(h: History, s: Id, j: nat, i: nat)
    requires Played(START, h.turns) && Since(h, s, j, i) && Queued(h.turns) == Batches(h.rounds)
    requires s in Reached(h.turns).presence.profiles
    requires forall r <- h.rounds :: Renders(r.batch, r.attempts)
    ensures Ends(HeardAll(map[], h.rounds), Reached(h.turns).presence, s)
  {
    var a, b, c, d := h.turns[..j], h.turns[j..], h.rounds[..i], h.rounds[i..];
    assert h.turns == a + b && h.rounds == c + d;
    ArrivesSince(a, b, c, d, s);
  }

  /** A client that still takes what it is sent has missed nothing. */
  lemma NothingMissed(server: SignalingServer, s: Id)
    requires server.Sound() && s in server.clients && s !in server.dropped
    ensures WellTold(server.story) && server.history == Told(server.story) && s !in Missed(server.story)
    ensures Played(START, server.history.turns) && Joined(server.history.turns, s)
  {
    ClientsJoined(Watched(START, map[]), server.history.turns, s);
  }

  lemma WhoIsThere(server: SignalingServer, s: Id)
    requires server.Sound() && s in server.presence.State().profiles
    ensures s in server.clients && server.presence.State() == Reached(server.history.turns).presence
  {
    ReachedHolds(server.history.turns);
    LivesOn(server.State());
  }

  /** When the loop has ended, the last snapshot that went out to a client with a profile is the one that the current
      profiles give, whatever sends failed, as long as its own socket still takes what it is sent. */
  lemma {:induction false} SnapshotsArrive(server: SignalingServer, s: Id)
    requires server.Sound() && server.InOrder() && !server.delivering
    requires s in server.presence.State().profiles && s !in server.dropped
    ensures Ends(HeardAll(map[], server.history.rounds), server.presence.State(), s)
  {
    AtRest(server);
    WhoIsThere(server, s);
    NothingMissed(server, s);
    var j, i := JoinPoint(server.story, s);
    EndsSince(server.history, s, j, i);
  }
}
