/** Everyone agrees on whose screen is shared. */
module ScreenOwners {
  import opened Wrappers
  import opened CompactStream
  import opened ScreenShare

  // ---- simultaneous starts ----

  /** Announcements of live streams, one per peer, in the order this member hears them. */
  function HearAll(s: Share, heard: seq<Key>): Share
    decreases |heard|
  {
    if heard == [] then s else HearAll(HearAnnounce(s, heard[0].0, heard[0].1), heard[1..])
  }

  predicate OnePerPeer(heard: seq<Key>) {
    forall i, j | 0 <= i < |heard| && 0 <= j < |heard| && heard[i].0 == heard[j].0 :: heard[i] == heard[j]
  }

  predicate Smallest(p: Peer, heard: seq<Key>) {
    (exists k :: 0 <= k < |heard| && heard[k].0 == p) && forall k | 0 <= k < |heard| :: p <= heard[k].0
  }

  predicate AllLarger(self: Peer, past: seq<Key>) { forall k | 0 <= k < |past| :: self < past[k].0 }

  /** After hearing some peers: the smallest of them is watched, unless this member shares and is smaller. */
  predicate Settled(before: Share, s: Share, past: seq<Key>) {
    && s.self == before.self
    && (if before.sharing.Some? && AllLarger(before.self, past) then s.sharing == before.sharing && s.remote.None?
        else if past == [] then s.sharing.None? && s.remote.None?
        else s.sharing.None? && s.remote.Some? && Smallest(s.remote.value.0, past) && s.remote.value in past)
  }

  /** Only this member's own stream and those of larger peers than the one watched have been retired. */
  predicate StoppedOk(s: Share) {
    forall k <- s.stopped :: k.0 == s.self || (s.remote.Some? && s.remote.value.0 < k.0)
  }

  predicate Clean(s: Share) { s.remote.None? && s.stopped == {} && s.order == [] }

  lemma SmallestGrows(p: Peer, past: seq<Key>, next: Key)
    requires Smallest(p, past)
    ensures p <= next.0 ==> Smallest(p, past + [next])
    ensures next.0 <= p ==> Smallest(next.0, past + [next])
  {
    var k :| 0 <= k < |past| && past[k].0 == p;
    assert (past + [next])[k].0 == p && (past + [next])[|past|] == next;
  }

  lemma LargerGrows(self: Peer, past: seq<Key>, next: Key)
    ensures AllLarger(self, past + [next]) <==> AllLarger(self, past) && self < next.0
    ensures AllLarger(self, past) && next.0 < self ==> Smallest(next.0, past + [next])
  {
    assert (past + [next])[|past|] == next;
    assert forall k | 0 <= k < |past| :: (past + [next])[k] == past[k];
  }

  lemma HearWhileSharing(before: Share, s: Share, past: seq<Key>, next: Key)
    requires StoppedOk(s) && Settled(before, s, past) && next.0 != s.self && s.sharing.Some?
    ensures Settled(before, HearAnnounce(s, next.0, next.1), past + [next])
  {
    LargerGrows(s.self, past, next);
    assert next !in s.stopped;
  }

  lemma HearFirst(before: Share, s: Share, past: seq<Key>, next: Key)
    requires StoppedOk(s) && Settled(before, s, past) && next.0 != s.self && s.sharing.None? && s.remote.None?
    ensures Settled(before, HearAnnounce(s, next.0, next.1), past + [next])
  {
    LargerGrows(s.self, past, next);
    assert next !in s.stopped && past == [] && (past + [next])[0] == next;
  }

  lemma HearWatching(before: Share, s: Share, past: seq<Key>, next: Key)
    requires StoppedOk(s) && Settled(before, s, past) && next.0 != s.self && s.remote.Some? && OnePerPeer(past + [next])
    ensures Settled(before, HearAnnounce(s, next.0, next.1), past + [next])
  {
    var all, r := past + [next], s.remote.value;
    LargerGrows(s.self, past, next);
    SmallestGrows(r.0, past, next);
    var i :| 0 <= i < |past| && past[i] == r;
    assert all[i] == r && all[|past|] == next;
    if r.0 == next.0 { assert all[i] == all[|past|]; }
    assert next in s.stopped ==> r.0 < next.0;
  }

  lemma HearKeepsStopped(s: Share, next: Key)
    requires StoppedOk(s) && next.0 != s.self && (s.sharing.Some? ==> s.remote.None?)
    ensures StoppedOk(HearAnnounce(s, next.0, next.1))
      || (s.remote.Some? && s.remote.value.0 == next.0 && s.remote.value != next)
  {
  }

  lemma HearOne(before: Share, s: Share, past: seq<Key>, next: Key)
    requires StoppedOk(s) && Settled(before, s, past) && next.0 != s.self && OnePerPeer(past + [next])
    ensures Settled(before, HearAnnounce(s, next.0, next.1), past + [next])
      && StoppedOk(HearAnnounce(s, next.0, next.1))
  {
    HearKeepsStopped(s, next);
    if s.remote.Some? {
      HearWatching(before, s, past, next);
      if s.remote.value.0 == next.0 { OneStream(past, s.remote.value, next); }
    } else if s.sharing.Some? {
      HearWhileSharing(before, s, past, next);
    } else {
      HearFirst(before, s, past, next);
    }
  }

  lemma OneStream(past: seq<Key>, r: Key, next: Key)
    requires r in past && OnePerPeer(past + [next]) && r.0 == next.0
    ensures r == next
  {
    var i :| 0 <= i < |past| && past[i] == r;
    assert (past + [next])[i] == r && (past + [next])[|past|] == next;
  }

  lemma {:induction false} HearRest(before: Share, s: Share, past: seq<Key>, rest: seq<Key>)
    requires StoppedOk(s) && Settled(before, s, past) && OnePerPeer(past + rest)
    requires forall k <- rest :: k.0 != before.self
    ensures Settled(before, HearAll(s, rest), past + rest)
    decreases |rest|
  {
    if rest == [] {
      assert past + rest == past;
    } else {
      var next := rest[0];
      assert past + rest == (past + [next]) + rest[1..];
      Prefix(past + [next], rest[1..]);
      HearOne(before, s, past, next);
      HearRest(before, HearAnnounce(s, next.0, next.1), past + [next], rest[1..]);
    }
  }

  lemma Prefix(a: seq<Key>, b: seq<Key>)
    requires OnePerPeer(a + b)
    ensures OnePerPeer(a)
  {
    forall i, j | 0 <= i < |a| && 0 <= j < |a| && a[i].0 == a[j].0 ensures a[i] == a[j] {
      assert (a + b)[i] == a[i] && (a + b)[j] == a[j];
    }
  }

  /** Simultaneous starts settle on the smallest identity, in whatever order each member hears the others. */
  lemma SmallestShares(before: Share, heard: seq<Key>)
    requires Clean(before) && heard != [] && OnePerPeer(heard) && forall k <- heard :: k.0 != before.self
    ensures var after := HearAll(before, heard);
      if before.sharing.Some? && AllLarger(before.self, heard) then
        after.sharing == before.sharing && after.remote.None?
      else
        after.sharing.None? && after.remote.Some? && Smallest(after.remote.value.0, heard)
  {
    assert [] + heard == heard;
    HearRest(before, before, [], heard);
  }

  // ---- all members together ----

  datatype Message = Announcement(from: Peer, stream: Bytes) | Goodbye(from: Peer, stream: Bytes)

  /** Members, every message ever sent (it may arrive late, often or never), the stream of the smallest member that ever
      began to share, and who has heard of it without losing the link since. */
  datatype System = System(members: map<Peer, Share>, sent: set<Message>, owner: Key, heard: set<Peer>)

  /** A member repeats its announcement, something that was sent arrives at another member, a member loses the link to
      whom it watches, or a member begins to share. */
  datatype Move =
    | Tell(member: Peer)
    | Hear(member: Peer, message: Message)
    | Lose(member: Peer)
    | Begin(member: Peer, stream: Bytes)

  /** The owner goes on with its stream. */
  predicate Possible(sys: System, m: Move) {
    && m.member in sys.members
    && (m.Hear? ==> m.message in sys.sent && m.message.from != m.member)
    && (m.Begin? ==> m.member != sys.owner.0)
  }

  function Heard(s: Share, m: Message): Share {
    match m case Announcement(from, stream) => HearAnnounce(s, from, stream)
      case Goodbye(from, stream) => HearStop(s, from, stream)
  }

  /** Who watches somebody cannot begin to share. */
  function Started(s: Share, stream: Bytes): Share {
    if s.remote.Some? then s else StopSharing(s).(sharing := Some(stream))
  }

  /** Whose stream ends tells the others. */
  function Farewell(before: Share, after: Share): set<Message> {
    if before.sharing.Some? && after.sharing != before.sharing then {Goodbye(before.self, before.sharing.value)} else {}
  }

  function Moved(sys: System, m: Move): System
    requires Possible(sys, m)
  {
    var s := sys.members[m.member];
    match m
    case Tell(p) => if s.sharing.Some? then sys.(sent := sys.sent + {Announcement(p, s.sharing.value)}) else sys
    case Hear(p, message) =>
      var n := Heard(s, message);
      sys.(members := sys.members[p := n], sent := sys.sent + Farewell(s, n),
           heard := if message == Announcement(sys.owner.0, sys.owner.1) then sys.heard + {p} else sys.heard)
    case Lose(p) => sys.(members := sys.members[p := ClearRemote(s, false)], heard := sys.heard - {p})
    case Begin(p, stream) =>
      if s.remote.Some? then sys
      else
        var n := sys.(members := sys.members[p := Started(s, stream)],
                      sent := sys.sent + Farewell(s, Started(s, stream)));
        if p < sys.owner.0 then n.(owner := (p, stream), heard := {}) else n
  }

  predicate AllPossible(sys: System, moves: seq<Move>)
    decreases |moves|
  {
    moves == [] || (Possible(sys, moves[0]) && AllPossible(Moved(sys, moves[0]), moves[1..]))
  }

  function MoveAll(sys: System, moves: seq<Move>): System
    requires AllPossible(sys, moves)
    decreases |moves|
  {
    if moves == [] then sys else MoveAll(Moved(sys, moves[0]), moves[1..])
  }

  /** Some members have begun to share; nobody has heard of it yet. The owner is the smallest of them. */
  predicate Begun(sys: System) {
    && sys.sent == {} && sys.heard == {} && sys.owner.0 in sys.members
    && sys.members[sys.owner.0].sharing == Some(sys.owner.1)
    && (forall p <- sys.members :: sys.members[p].self == p && Clean(sys.members[p]))
    && (forall p <- sys.members :: sys.members[p].sharing.Some? ==> sys.owner.0 <= p)
  }

  /** Only the owner's stream goes by the owner's name, and it has not stopped. */
  predicate Truthful(sent: set<Message>, key: Key) {
    && (forall m <- sent :: key.0 <= m.from)
    && (forall m <- sent :: m.from == key.0 ==> m == Announcement(key.0, key.1))
  }

  predicate OwnerOk(s: Share, key: Key) { s.self == key.0 && s.sharing == Some(key.1) && s.remote.None? }

  /** Another member: it does not take the owner's stream for stopped, and watches nobody smaller. */
  predicate MemberOk(s: Share, key: Key) {
    && s.self != key.0 && key !in s.stopped && (s.sharing.Some? ==> key.0 < s.self)
    && (s.remote.Some? ==> key.0 <= s.remote.value.0 && (s.remote.value.0 == key.0 ==> s.remote.value == key))
  }

  /** Nothing smaller than the owner was ever shared. */
  predicate NoneSmaller(s: Share, key: Key) { forall k <- s.stopped :: key.0 <= k.0 }

  predicate Agrees(s: Share, key: Key) { s.sharing.None? && s.remote == Some(key) }

  predicate SystemOk(sys: System) {
    var key := sys.owner;
    && key.0 in sys.members && OwnerOk(sys.members[key.0], key) && Truthful(sys.sent, key)
    && (forall p <- sys.members ::
          && sys.members[p].self == p && NoneSmaller(sys.members[p], key)
          && (p != key.0 ==> MemberOk(sys.members[p], key)))
    && (forall p <- sys.heard :: p in sys.members && p != key.0 && Agrees(sys.members[p], key))
  }

  lemma RetiredOnly(s: Share, key: Option<Key>)
    ensures forall k <- Retired(s, key).stopped :: k in s.stopped || Some(k) == key
  {
  }

  lemma OwnerHears(s: Share, key: Key, m: Message)
    requires OwnerOk(s, key) && NoneSmaller(s, key) && key.0 < m.from
    ensures OwnerOk(Heard(s, m), key) && NoneSmaller(Heard(s, m), key)
  {
  }

  lemma MemberHearsStop(s: Share, key: Key, from: Peer, stream: Bytes)
    requires MemberOk(s, key) && NoneSmaller(s, key) && key.0 < from && from != s.self
    ensures var n := HearStop(s, from, stream);
      MemberOk(n, key) && NoneSmaller(n, key) && n.self == s.self && (Agrees(s, key) ==> Agrees(n, key))
  {
  }

  lemma MemberHearsAnnounce(s: Share, key: Key, from: Peer, stream: Bytes)
    requires MemberOk(s, key) && NoneSmaller(s, key) && key.0 <= from && from != s.self
    requires from == key.0 ==> stream == key.1
    ensures var n := HearAnnounce(s, from, stream);
      && MemberOk(n, key) && NoneSmaller(n, key) && n.self == s.self
      && (Agrees(s, key) || from == key.0 ==> Agrees(n, key))
  {
    var idle := StopSharing(s);
    if s.sharing.Some? { RetiredOnly(s, Some((s.self, s.sharing.value))); }
    RetiredOnly(idle, idle.remote);
  }

  lemma MemberHears(s: Share, key: Key, m: Message)
    requires MemberOk(s, key) && NoneSmaller(s, key) && m.from != s.self && key.0 <= m.from
    requires m.from == key.0 ==> m == Announcement(key.0, key.1)
    ensures var n := Heard(s, m);
      && MemberOk(n, key) && NoneSmaller(n, key) && n.self == s.self
      && (Agrees(s, key) || m == Announcement(key.0, key.1) ==> Agrees(n, key))
  {
    match m {
      case Announcement(from, stream) => MemberHearsAnnounce(s, key, from, stream);
      case Goodbye(from, stream) => MemberHearsStop(s, key, from, stream);
    }
  }

  lemma TellKeeps(sys: System, p: Peer)
    requires SystemOk(sys) && p in sys.members
    ensures SystemOk(Moved(sys, Tell(p)))
  {
  }

  /** One member changes, and stays as it has to be. */
  lemma OneChanges(sys: System, n: System, p: Peer)
    requires SystemOk(sys) && p in sys.members && p in n.members && n.owner == sys.owner
    requires n.members == sys.members[p := n.members[p]] && Truthful(n.sent, sys.owner)
    requires n.members[p].self == p && NoneSmaller(n.members[p], sys.owner)
    requires if p == sys.owner.0 then OwnerOk(n.members[p], sys.owner) else MemberOk(n.members[p], sys.owner)
    requires forall q <- n.heard :: (q == p || q in sys.heard) && q != sys.owner.0
    requires p in n.heard ==> Agrees(n.members[p], sys.owner)
    ensures SystemOk(n)
  {
  }

  lemma HearKeeps(sys: System, p: Peer, m: Message)
    requires SystemOk(sys) && Possible(sys, Hear(p, m))
    ensures SystemOk(Moved(sys, Hear(p, m)))
  {
    var s := sys.members[p];
    if p == sys.owner.0 { OwnerHears(s, sys.owner, m); } else { MemberHears(s, sys.owner, m); }
    OneChanges(sys, Moved(sys, Hear(p, m)), p);
  }

  lemma LoseKeeps(sys: System, p: Peer)
    requires SystemOk(sys) && p in sys.members
    ensures SystemOk(Moved(sys, Lose(p)))
  {
    OneChanges(sys, Moved(sys, Lose(p)), p);
  }

  lemma StartedOk(s: Share, stream: Bytes, key: Key)
    requires MemberOk(s, key) && NoneSmaller(s, key) && s.remote.None? && key.0 < s.self
    ensures var n := Started(s, stream); MemberOk(n, key) && NoneSmaller(n, key) && n.self == s.self
  {
    if s.sharing.Some? { RetiredOnly(s, Some((s.self, s.sharing.value))); }
  }

  /** A larger member begins: it will have to give way. */
  lemma LargerBegins(sys: System, p: Peer, stream: Bytes)
    requires SystemOk(sys) && p in sys.members && sys.owner.0 < p
    ensures SystemOk(Moved(sys, Begin(p, stream)))
  {
    var s := sys.members[p];
    if s.remote.None? {
      StartedOk(s, stream, sys.owner);
      OneChanges(sys, Moved(sys, Begin(p, stream)), p);
    }
  }

  /** A smaller member begins: it has never shared, and now everyone has to give way to it. */
  lemma SmallerBegins(sys: System, p: Peer, stream: Bytes)
    requires SystemOk(sys) && p in sys.members && p < sys.owner.0
    ensures SystemOk(Moved(sys, Begin(p, stream)))
  {
    var s, n := sys.members[p], Moved(sys, Begin(p, stream));
    assert MemberOk(s, sys.owner) && s.sharing.None?;
    if s.remote.None? {
      var key := (p, stream);
      assert n.owner == key && n.sent == sys.sent && OwnerOk(n.members[p], key);
      forall q | q in n.members
        ensures n.members[q].self == q && NoneSmaller(n.members[q], key) && (q != p ==> MemberOk(n.members[q], key))
      {
        OthersGiveWay(sys, q, key);
      }
    }
  }

  lemma OthersGiveWay(sys: System, q: Peer, key: Key)
    requires SystemOk(sys) && q in sys.members && key.0 < sys.owner.0
    ensures NoneSmaller(sys.members[q], key) && (q != key.0 ==> MemberOk(sys.members[q], key))
  {
    var s := sys.members[q];
    assert key !in s.stopped;
  }

  lemma {:induction false} MovesKeep(sys: System, moves: seq<Move>)
    requires SystemOk(sys) && AllPossible(sys, moves)
    ensures SystemOk(MoveAll(sys, moves))
    decreases |moves|
  {
    if moves != [] {
      match moves[0] {
        case Tell(p) => TellKeeps(sys, p);
        case Hear(p, m) => HearKeeps(sys, p, m);
        case Lose(p) => LoseKeeps(sys, p);
        case Begin(p, stream) =>
          if p < sys.owner.0 { SmallerBegins(sys, p, stream); } else { LargerBegins(sys, p, stream); }
      }
      MovesKeep(Moved(sys, moves[0]), moves[1..]);
    }
  }

  /** Who began to share along the way. */
  predicate Begins(sys: System, moves: seq<Move>, p: Peer, stream: Bytes)
    requires AllPossible(sys, moves)
    decreases |moves|
  {
    moves != []
    && ((moves[0] == Begin(p, stream) && sys.members[p].remote.None?)
        || Begins(Moved(sys, moves[0]), moves[1..], p, stream))
  }

  /** The owner is the smallest member that ever shared. */
  lemma {:induction false} OwnerIsSmallest(sys: System, moves: seq<Move>, p: Peer, stream: Bytes)
    requires AllPossible(sys, moves)
    ensures var n := MoveAll(sys, moves);
      && n.owner.0 <= sys.owner.0 && (Begins(sys, moves, p, stream) ==> n.owner.0 <= p)
      && (n.owner == sys.owner || Begins(sys, moves, n.owner.0, n.owner.1))
    decreases |moves|
  {
    if moves != [] {
      var next := Moved(sys, moves[0]);
      OwnerIsSmallest(next, moves[1..], p, stream);
    }
  }

  /** Whatever is lost, repeated or late, stops, lost links and new starts included: the smallest member that ever
      began to share goes on sharing, and whoever has heard of it and not lost the link since shares nothing and
      watches it. */
  lemma OneSharerRemains(sys: System, moves: seq<Move>)
    requires Begun(sys) && AllPossible(sys, moves)
    ensures var n := MoveAll(sys, moves);
      && n.owner.0 in n.members && n.members[n.owner.0].sharing == Some(n.owner.1)
      && n.owner.0 <= sys.owner.0 && (forall p, stream :: Begins(sys, moves, p, stream) ==> n.owner.0 <= p)
      && (forall p <- n.heard ::
            p in n.members && n.members[p].sharing.None? && n.members[p].remote == Some(n.owner))
  {
    MovesKeep(sys, moves);
    forall p, stream ensures Begins(sys, moves, p, stream) ==> MoveAll(sys, moves).owner.0 <= p {
      OwnerIsSmallest(sys, moves, p, stream);
    }
    OwnerIsSmallest(sys, moves, 0, []);
  }
}
