/** Several members chatting: what the duplicate filter promises, and what the clock says about causes. */
module MessagingProofs {
  import opened Wrappers
  import opened Messaging

  // ---- the duplicate filter ----

  lemma RememberKeeps(l: Log, id: Id)
    requires LogOk(l)
    ensures LogOk(Remember(l, id)) && id in Remember(l, id).seen
  {
    var n := Remember(l, id);
    if id !in l.seen && |l.order| >= MAX_SEEN {
      assert l.order == [l.order[0]] + l.order[1..];
      forall x ensures x in n.seen <==> x in n.order {
        if x == l.order[0] { assert x !in l.order[1..]; }
      }
    }
  }

  /** The last `n` elements, or all of them. */
  function Last(n: nat, s: seq<Id>): seq<Id> { if |s| <= n then s else s[|s| - n..] }

  /** The filter beside the identifiers that came by, oldest first. */
  ghost predicate Window(l: Log, through: seq<Id>) { LogOk(l) && l.order == Last(MAX_SEEN, through) }

  /** One more identifier came by; it counts unless it is one of the last. */
  function CameBy(through: seq<Id>, id: Id): seq<Id> {
    if id in Last(MAX_SEEN, through) then through else through + [id]
  }

  lemma RememberMoves(l: Log, through: seq<Id>, id: Id)
    requires Window(l, through)
    ensures Window(Remember(l, id), CameBy(through, id))
  {
    RememberKeeps(l, id);
    if id !in l.seen && |through| >= MAX_SEEN {
      var all := through + [id];
      assert l.order[1..] + [id] == all[|all| - MAX_SEEN..];
    }
  }

  // ---- several members ----

  datatype Event = Write(peer: Peer, drawn: Id, text: string) | Get(peer: Peer, message: Chat)

  /** A message written or shown at a member, and the member's clock right after. */
  datatype Note = Note(peer: Peer, written: bool, message: Chat, clock: Clock)

  /** The members, and all that was written or shown, oldest first. */
  datatype World = World(logs: map<Peer, Log>, notes: seq<Note>)

  function LogOf(w: World, p: Peer): Log { if p in w.logs then w.logs[p] else Log(0, {}, []) }

  /** The identifiers of what was written or shown at a member, oldest first, repetitions within the last 4096 aside. */
  function Noticed(notes: seq<Note>, p: Peer): seq<Id> {
    if notes == [] then []
    else
      var x, before := notes[|notes| - 1], Noticed(notes[..|notes| - 1], p);
      if x.peer == p then CameBy(before, x.message.id) else before
  }

  function StepWorld(w: World, e: Event): World {
    match e
    case Write(p, drawn, text) =>
      var (l, r) := Create(LogOf(w, p), drawn, p, text);
      World(w.logs[p := l], if r.Success? then w.notes + [Note(p, true, r.value, l.clock)] else w.notes)
    case Get(p, m) =>
      var (l, r) := Receive(LogOf(w, p), m);
      World(w.logs[p := l], if r == Success(Some(m)) then w.notes + [Note(p, false, m, l.clock)] else w.notes)
  }

  function RunWorld(w: World, events: seq<Event>): World
    decreases |events|
  {
    if events == [] then w else RunWorld(StepWorld(w, events[0]), events[1..])
  }

  const QUIET := World(map[], [])

  /** Note `j` directly depends on note `i`: it came later at the same member, or shows the message written there. */
  predicate Direct(notes: seq<Note>, i: nat, j: nat) {
    && i < |notes| && j < |notes|
    && (|| (i < j && notes[i].peer == notes[j].peer)
        || (notes[i].written && !notes[j].written && notes[i].message == notes[j].message))
  }

  /** A chain of direct dependencies. */
  predicate Chain(notes: seq<Note>, path: seq<nat>) {
    && path != [] && (forall k | 0 <= k < |path| :: path[k] < |notes|)
    && (forall k | 0 <= k < |path| - 1 :: Direct(notes, path[k], path[k + 1]))
  }

  /** A written message carries the clock it was written at; a shown one an earlier clock. */
  predicate Stamped(n: Note) { if n.written then n.clock == n.message.clock else n.clock > n.message.clock }

  predicate WorldOk(w: World) {
    && (forall n <- w.notes :: Stamped(n) && n.clock <= LogOf(w, n.peer).clock)
    && (forall i, j :: 0 <= i < j < |w.notes| && w.notes[i].peer == w.notes[j].peer ==>
      w.notes[i].clock < w.notes[j].clock)
  }

  /** A step either leaves the clocks alone or adds a note whose clock is past everything at its member. */
  ghost predicate Noted(w: World, n: World, x: Note) {
    && n.notes == w.notes + [x] && Stamped(x) && LogOf(w, x.peer).clock < x.clock == LogOf(n, x.peer).clock
    && (forall p :: p != x.peer ==> LogOf(n, p) == LogOf(w, p))
  }

  lemma StepNotes(w: World, e: Event)
    ensures var n := StepWorld(w, e);
      || (n.notes == w.notes && forall p :: LogOf(n, p).clock == LogOf(w, p).clock)
      || (|n.notes| > 0 && Noted(w, n, n.notes[|n.notes| - 1]))
  {
  }

  lemma NotedKeeps(w: World, n: World, x: Note)
    requires WorldOk(w) && Noted(w, n, x)
    ensures WorldOk(n)
  {
    forall i, j | 0 <= i < j < |n.notes| && n.notes[i].peer == n.notes[j].peer
      ensures n.notes[i].clock < n.notes[j].clock
    {
      assert n.notes[i] == w.notes[i] && w.notes[i] in w.notes;
      if j < |w.notes| { assert n.notes[j] == w.notes[j]; }
    }
    forall y | y in n.notes ensures Stamped(y) && y.clock <= LogOf(n, y.peer).clock {
      if y != x { assert y in w.notes; }
    }
  }

  lemma {:induction false} EveryWorldOk(w: World, events: seq<Event>)
    requires WorldOk(w)
    ensures WorldOk(RunWorld(w, events))
    decreases |events|
  {
    if events != [] {
      var n := StepWorld(w, events[0]);
      StepNotes(w, events[0]);
      if n.notes != w.notes { NotedKeeps(w, n, n.notes[|n.notes| - 1]); }
      EveryWorldOk(n, events[1..]);
    }
  }

  lemma DirectRises(w: World, i: nat, j: nat)
    requires WorldOk(w) && Direct(w.notes, i, j)
    ensures w.notes[i].clock < w.notes[j].clock
  {
    assert w.notes[i] in w.notes && w.notes[j] in w.notes;
  }

  lemma {:induction false} ChainRises(w: World, path: seq<nat>)
    requires WorldOk(w) && Chain(w.notes, path)
    ensures var a, b := w.notes[path[0]], w.notes[path[|path| - 1]]; if |path| > 1 then a.clock < b.clock else a == b
    decreases |path|
  {
    if |path| > 1 {
      var k := |path| - 1;
      assert path[k - 1 + 1] == path[k] && Direct(w.notes, path[k - 1], path[k]);
      DirectRises(w, path[k - 1], path[k]);
      ChainRises(w, path[..k]);
    }
  }

  /** In every run, whatever is lost, repeated or late: a message written with knowledge of another, however
      indirect, has the greater clock. So sorting by clock never shows an answer before what it answers. */
  lemma CausesComeFirst(events: seq<Event>, path: seq<nat>)
    requires var notes := RunWorld(QUIET, events).notes;
      Chain(notes, path) && |path| > 1 && notes[path[0]].written && notes[path[|path| - 1]].written
    ensures var notes := RunWorld(QUIET, events).notes;
      notes[path[0]].message.clock < notes[path[|path| - 1]].message.clock
  {
    EveryWorldOk(QUIET, events);
    var w := RunWorld(QUIET, events);
    ChainRises(w, path);
    assert w.notes[path[0]] in w.notes && w.notes[path[|path| - 1]] in w.notes;
  }

  // ---- the filters in every run ----

  ghost predicate WindowsOk(w: World) { forall p :: Window(LogOf(w, p), Noticed(w.notes, p)) }

  lemma NoticedMore(notes: seq<Note>, x: Note, p: Peer)
    ensures Noticed(notes + [x], p)
      == if x.peer == p then CameBy(Noticed(notes, p), x.message.id) else Noticed(notes, p)
  {
    assert (notes + [x])[..|notes|] == notes;
  }

  /** A call leaves filter and notes alone, or remembers the identifier it noted. */
  lemma StepRemembers(w: World, e: Event)
    requires 0 <= LogOf(w, e.peer).clock
    ensures var n, p := StepWorld(w, e), e.peer;
      || (n.notes == w.notes && LogOf(n, p) == LogOf(w, p))
      || (|n.notes| > 0
          && var x := n.notes[|n.notes| - 1];
             && n.notes == w.notes + [x] && x.peer == p
             && exists c: Clock :: 0 <= c && LogOf(n, p) == Remember(LogOf(w, p).(clock := c), x.message.id))
  {
    match e {
      case Write(p, drawn, text) =>
        if Create(LogOf(w, p), drawn, p, text).1.Success? {
          var c: Clock := LogOf(w, p).clock + 1;
          assert LogOf(StepWorld(w, e), p) == Remember(LogOf(w, p).(clock := c), drawn);
        }
      case Get(p, m) =>
        if Receive(LogOf(w, p), m).1 == Success(Some(m)) {
          var c: Clock := Later(LogOf(w, p).clock, m.clock) + 1;
          assert LogOf(StepWorld(w, e), p) == Remember(LogOf(w, p).(clock := c), m.id);
        }
    }
  }

  lemma StepWindows(w: World, e: Event)
    requires WindowsOk(w)
    ensures WindowsOk(StepWorld(w, e))
  {
    var n, p := StepWorld(w, e), e.peer;
    assert Window(LogOf(w, p), Noticed(w.notes, p));
    StepRemembers(w, e);
    forall q ensures Window(LogOf(n, q), Noticed(n.notes, q)) {
      assert Window(LogOf(w, q), Noticed(w.notes, q));
      if n.notes != w.notes {
        var x := n.notes[|n.notes| - 1];
        NoticedMore(w.notes, x, q);
        if q == p {
          var c: Clock :| 0 <= c && LogOf(n, p) == Remember(LogOf(w, p).(clock := c), x.message.id);
          RememberMoves(LogOf(w, p).(clock := c), Noticed(w.notes, p), x.message.id);
        }
      }
      if q != p { assert LogOf(n, q) == LogOf(w, q); }
    }
  }

  lemma {:induction false} EveryWindowOk(w: World, events: seq<Event>)
    requires WindowsOk(w)
    ensures WindowsOk(RunWorld(w, events))
    decreases |events|
  {
    if events != [] {
      StepWindows(w, events[0]);
      EveryWindowOk(StepWorld(w, events[0]), events[1..]);
    }
  }

  /** In every run a member takes a well-formed message for a duplicate exactly when its identifier is one of the last
      4096 different ones of the messages that were written or shown there. */
  lemma DuplicateIff(events: seq<Event>, p: Peer, m: Chat)
    requires Sound(m)
    ensures var w := RunWorld(QUIET, events);
      Receive(LogOf(w, p), m).1 == Success(None) <==> m.id in Last(MAX_SEEN, Noticed(w.notes, p))
  {
    EveryWindowOk(QUIET, events);
  }
}
