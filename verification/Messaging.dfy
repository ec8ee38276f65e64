/** Chat messages: a Lamport clock, a bounded filter of messages already seen, and bounded delivery counts. */
module Messaging {
  import opened Wrappers

  const MAX_CLOCK := 0x7fff_ffff_ffff_ffff
  const MAX_SEEN := 4096
  const MAX_TRACKED := 4096
  const MAX_LENGTH := 4096

  /** A signed 64-bit integer. */
  type Clock = c: int | -0x8000_0000_0000_0000 <= c <= MAX_CLOCK

  type Id = nat
  type Peer = nat

  datatype Chat = Chat(id: Id, sender: Peer, text: string, clock: Clock)

  /** Seen messages, oldest first, with the same as a set for looking up. */
  datatype Log = Log(clock: Clock, seen: set<Id>, order: seq<Id>)

  datatype Refusal = Malformed | Exhausted

  /** The part of validation that is not about identifiers and whitespace. */
  predicate Sound(m: Chat) { m.clock > 0 && m.text != [] && |m.text| <= MAX_LENGTH }

  function Remember(l: Log, id: Id): Log {
    if id in l.seen then l
    else if |l.order| >= MAX_SEEN then l.(seen := l.seen - {l.order[0]} + {id}, order := l.order[1..] + [id])
    else l.(seen := l.seen + {id}, order := l.order + [id])
  }

  function Create(l: Log, drawn: Id, sender: Peer, text: string): (Log, Result<Chat, Refusal>) {
    if text == [] || |text| > MAX_LENGTH then (l, Failure(Malformed))
    else if l.clock == MAX_CLOCK then (l, Failure(Exhausted))
    else (Remember(l.(clock := l.clock + 1), drawn), Success(Chat(drawn, sender, text, l.clock + 1)))
  }

  function Later(a: Clock, b: Clock): Clock { if a < b then b else a }

  /** `None` for a message seen before. */
  function Receive(l: Log, m: Chat): (Log, Result<Option<Chat>, Refusal>) {
    if !Sound(m) then (l, Failure(Malformed))
    else if m.id in l.seen then (l, Success(None))
    else if Later(l.clock, m.clock) == MAX_CLOCK then (l, Failure(Exhausted))
    else (Remember(l.(clock := Later(l.clock, m.clock) + 1), m.id), Success(Some(m)))
  }

  predicate Distinct(s: seq<Id>) { forall i, j :: 0 <= i < j < |s| ==> s[i] != s[j] }

  ghost predicate LogOk(l: Log) {
    && 0 <= l.clock && |l.order| <= MAX_SEEN && Distinct(l.order)
    && (forall id :: id in l.seen <==> id in l.order)
  }

  class DeliveryTracker {
    var states: map<Id, (set<Peer>, set<Peer>)>
    var order: seq<Id>

    /** The queue lists exactly the tracked messages, each once, and only expected peers have acknowledged. */
    ghost predicate Valid()
      reads this
    {
      && |order| <= MAX_TRACKED && Distinct(order) && (forall id :: id in states <==> id in order)
      && (forall id <- states :: states[id].1 <= states[id].0)
    }

    constructor ()
      ensures Valid() && states == map[]
    {
      states, order := map[], [];
    }

    /** A new message takes the place of the oldest once 4096 are tracked. */
    method Track(id: Id, expected: set<Peer>)
      requires Valid()
      modifies this
      ensures Valid()
      ensures if id in old(states) then
                order == old(order) && states == old(states)[id := (old(states)[id].0 + expected, old(states)[id].1)]
              else if |old(order)| < MAX_TRACKED then
                order == old(order) + [id] && states == old(states)[id := (expected, {})]
              else
                order == old(order)[1..] + [id] && states == (old(states) - {old(order)[0]})[id := (expected, {})]
    {
      if id in states {
        states := states[id := (states[id].0 + expected, states[id].1)];
        return;
      }
      SizesAgree(states, order);
      if |states| >= MAX_TRACKED {
        states := states - {order[0]};
        order := order[1..];
      }
      states := states[id := (expected, {})];
      order := order + [id];
    }

    /** True for the first acknowledgement of each expected peer. */
    method Acknowledge(id: Id, peer: Peer) returns (counted: bool)
      requires Valid()
      modifies this
      ensures Valid() && order == old(order)
      ensures counted == (id in old(states) && peer in old(states)[id].0 && peer !in old(states)[id].1)
      ensures states
        == if counted then old(states)[id := (old(states)[id].0, old(states)[id].1 + {peer})] else old(states)
      ensures counted ==> |states[id].1| == |old(states)[id].1| + 1
    {
      if id !in states || peer !in states[id].0 || peer in states[id].1 { return false; }
      states := states[id := (states[id].0, states[id].1 + {peer})];
      return true;
    }

    method Counts(id: Id) returns (delivered: nat, expected: nat)
      requires Valid()
      ensures delivered <= expected
      ensures if id in states then delivered == |states[id].1| && expected == |states[id].0|
        else delivered == expected == 0
    {
      if id !in states { return 0, 0; }
      FewerThan(states[id].1, states[id].0);
      return |states[id].1|, |states[id].0|;
    }
  }

  lemma FewerThan(a: set<Peer>, b: set<Peer>)
    requires a <= b
    ensures |a| <= |b|
  {
    assert b == a + (b - a);
  }

  lemma {:induction false} SizesAgree<V>(states: map<Id, V>, order: seq<Id>)
    requires Distinct(order) && forall id :: id in states <==> id in order
    ensures |states| == |order|
    decreases |order|
  {
    if order == [] {
      assert states.Keys == {};
      assert |states| == |states.Keys|;
    } else {
      var id := order[|order| - 1];
      var rest := states - {id};
      assert order == order[..|order| - 1] + [id];
      SizesAgree(rest, order[..|order| - 1]);
      assert states.Keys == rest.Keys + {id};
      assert |states| == |states.Keys| && |rest| == |rest.Keys|;
    }
  }

  class MessagingService {
    const delivery: DeliveryTracker
    var clock: Clock
    var seen: set<Id>
    var order: seq<Id>

    function View(): Log
      reads this
    {
      Log(clock, seen, order)
    }

    constructor ()
      ensures View() == Log(0, {}, []) && fresh(delivery) && delivery.Valid() && delivery.states == map[]
    {
      delivery := new DeliveryTracker();
      clock, seen, order := 0, {}, [];
    }

    method RememberMessage(id: Id) returns (isNew: bool)
      modifies `seen, `order
      ensures View() == Remember(old(View()), id) && isNew == (id !in old(seen))
    {
      if id in seen { return false; }
      if |order| >= MAX_SEEN {
        seen := seen - {order[0]};
        order := order[1..];
      }
      seen := seen + {id};
      order := order + [id];
      return true;
    }

    /** A message that is made is counted from then on. */
    method CreateMessage(drawn: Id, sender: Peer, text: string, expected: set<Peer>) returns (r: Result<Chat, Refusal>)
      requires delivery.Valid()
      modifies this, delivery
      ensures (View(), r) == Create(old(View()), drawn, sender, text) && delivery.Valid()
      ensures r.Success? ==> drawn in delivery.states && expected <= delivery.states[drawn].0
      ensures r.Success? && drawn !in old(delivery.states) ==> delivery.states[drawn] == (expected, {})
      ensures r.Failure? ==> delivery.states == old(delivery.states) && delivery.order == old(delivery.order)
    {
      if text == [] || |text| > MAX_LENGTH { return Failure(Malformed); }
      if clock == MAX_CLOCK { return Failure(Exhausted); }
      clock := clock + 1;
      var message := Chat(drawn, sender, text, clock);
      var _ := RememberMessage(drawn);
      delivery.Track(drawn, expected);
      return Success(message);
    }

    method ReceiveMessage(m: Chat) returns (r: Result<Option<Chat>, Refusal>)
      modifies `clock, `seen, `order
      ensures (View(), r) == Receive(old(View()), m)
    {
      if !Sound(m) { return Failure(Malformed); }
      if m.id in seen { return Success(None); }
      var current := if clock < m.clock then m.clock else clock;
      if current == MAX_CLOCK { return Failure(Exhausted); }
      clock := current + 1;
      var _ := RememberMessage(m.id);
      return Success(Some(m));
    }
  }
}
