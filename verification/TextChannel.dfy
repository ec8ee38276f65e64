/** Text on a data channel: what the channel has no room for waits in a bounded queue, and nothing overtakes it. */
module TextChannels {
  import opened Wrappers

  const HIGH_WATER := 256 * 1024
  const MAX_QUEUED := 512 * 1024

  type Text = seq<byte>

  /** The channel as one call finds it; `works` is whether its send will not throw. */
  datatype Channel = Channel(open: bool, maxMessage: nat, buffered: nat, works: bool)

  datatype Lane = Lane(queue: seq<Text>, bytes: nat)

  function Size(queue: seq<Text>): nat { if queue == [] then 0 else |queue[0]| + Size(queue[1..]) }

  /** The counter is exact, within its bound, and no empty text waits. */
  predicate LaneOk(l: Lane) {
    l.bytes == Size(l.queue) && l.bytes <= MAX_QUEUED && forall k :: 0 <= k < |l.queue| ==> l.queue[k] != []
  }

  lemma {:induction false} SizeMore(queue: seq<Text>, t: Text)
    ensures Size(queue + [t]) == Size(queue) + |t|
  {
    if queue == [] {
      assert queue + [t] == [t] && [t][1..] == [];
    } else {
      assert (queue + [t])[1..] == queue[1..] + [t];
      SizeMore(queue[1..], t);
    }
  }

  predicate Sendable(text: Text, c: Channel) { c.open && text != [] && |text| <= c.maxMessage }

  predicate MustWait(l: Lane, c: Channel) { l.queue != [] || c.buffered > HIGH_WATER }

  /** The lane, the answer, and what went out. */
  function Offered(l: Lane, text: Text, c: Channel): (Lane, bool, seq<Text>) {
    if !Sendable(text, c) then (l, false, [])
    else if MustWait(l, c) then
      if l.bytes + |text| > MAX_QUEUED then (l, false, []) else (Lane(l.queue + [text], l.bytes + |text|), true, [])
    else if c.works then (l, true, [text]) else (l, false, [])
  }

  function Flushed(l: Lane, n: nat): Lane
    requires LaneOk(l) && n <= |l.queue|
    ensures LaneOk(Flushed(l, n))
    decreases n
  {
    if n == 0 then l else Flushed(Lane(l.queue[1..], l.bytes - |l.queue[0]|), n - 1)
  }

  lemma {:induction false} FlushedTakesFirst(l: Lane, n: nat)
    requires LaneOk(l) && n <= |l.queue|
    ensures Flushed(l, n).queue == l.queue[n..]
    decreases n
  {
    if n > 0 { FlushedTakesFirst(Lane(l.queue[1..], l.bytes - |l.queue[0]|), n - 1); }
  }

  lemma {:induction false} FlushedOnce(l: Lane, n: nat)
    requires LaneOk(l) && n < |l.queue|
    ensures var m := Flushed(l, n); m.queue != [] && Flushed(l, n + 1) == Lane(m.queue[1..], m.bytes - |m.queue[0]|)
    decreases n
  {
    if n > 0 { FlushedOnce(Lane(l.queue[1..], l.bytes - |l.queue[0]|), n - 1); }
  }

  /** Why a flush came to its end. */
  datatype Halt = Closed | Emptied | Full | Threw

  class TextLane {
    var queue: seq<Text>
    var bytes: nat

    function View(): Lane
      reads this
    {
      Lane(queue, bytes)
    }

    constructor ()
      ensures View() == Lane([], 0) && LaneOk(View())
    {
      queue, bytes := [], 0;
    }

    method SendText(text: Text, c: Channel) returns (ok: bool, sent: seq<Text>)
      modifies this
      ensures (View(), ok, sent) == Offered(old(View()), text, c)
    {
      if !c.open { return false, []; }
      if text == [] || |text| > c.maxMessage { return false, []; }
      if queue != [] || c.buffered > HIGH_WATER {
        if bytes + |text| > MAX_QUEUED { return false, []; }
        queue := queue + [text];
        bytes := bytes + |text|;
        return true, [];
      }
      if !c.works { return false, []; }
      return true, [text];
    }

    /** The channel drains, fills and fails as it likes while its queue is flushed. */
    method FlushTextQueue(open: bool) returns (sent: seq<Text>, why: Halt)
      requires LaneOk(View())
      modifies this
      ensures |sent| <= |old(queue)| && sent == old(queue)[..|sent|] && View() == Flushed(old(View()), |sent|)
      ensures why == Closed ==> !open && sent == []
      ensures why == Emptied ==> queue == []
      ensures why.Full? || why.Threw? ==> open && queue != []
    {
      sent := [];
      if !open { return sent, Closed; }
      ghost var before := View();
      while queue != []
        invariant LaneOk(View()) && |sent| + |queue| == |before.queue|
        invariant View() == Flushed(before, |sent|) && sent == before.queue[..|sent|]
        decreases |queue|
      {
        FlushedTakesFirst(before, |sent|);
        FlushedOnce(before, |sent|);
        var buffered: nat := *;
        if buffered > HIGH_WATER { return sent, Full; }
        var works: bool := *;
        if !works { return sent, Threw; }
        sent := sent + [queue[0]];
        bytes := bytes - |queue[0]|;
        queue := queue[1..];
      }
      why := Emptied;
    }
  }

  // ---- whole runs ----

  datatype TextEvent = Offer(text: Text, channel: Channel) | Flush(count: nat)

  /** The lane with the history of texts it promised to send and of those that went out. */
  datatype Talk = Talk(lane: Lane, promised: seq<Text>, sent: seq<Text>)

  predicate Possible(t: Talk, e: TextEvent) { e.Flush? ==> e.count <= |t.lane.queue| }

  function StepTalk(t: Talk, e: TextEvent): Talk
    requires LaneOk(t.lane) && Possible(t, e)
  {
    match e
    case Offer(text, c) =>
      var (lane, ok, out) := Offered(t.lane, text, c);
      Talk(lane, if ok then t.promised + [text] else t.promised, t.sent + out)
    case Flush(n) => t.(lane := Flushed(t.lane, n), sent := t.sent + t.lane.queue[..n])
  }

  predicate TalkOk(t: Talk) { LaneOk(t.lane) && t.promised == t.sent + t.lane.queue }

  lemma OfferStays(t: Talk, text: Text, c: Channel)
    requires TalkOk(t)
    ensures TalkOk(StepTalk(t, Offer(text, c)))
  {
    SizeMore(t.lane.queue, text);
    assert t.sent + (t.lane.queue + [text]) == (t.sent + t.lane.queue) + [text];
  }

  lemma FlushStays(t: Talk, n: nat)
    requires TalkOk(t) && n <= |t.lane.queue|
    ensures TalkOk(StepTalk(t, Flush(n)))
  {
    FlushedTakesFirst(t.lane, n);
    assert t.lane.queue == t.lane.queue[..n] + t.lane.queue[n..];
  }

  lemma TalkStays(t: Talk, e: TextEvent)
    requires TalkOk(t) && Possible(t, e)
    ensures TalkOk(StepTalk(t, e))
  {
    match e {
      case Offer(text, c) => OfferStays(t, text, c);
      case Flush(n) => FlushStays(t, n);
    }
  }

  predicate Talks(t: Talk, events: seq<TextEvent>, n: Talk)
    decreases |events|
  {
    if events == [] then n == t
    else LaneOk(t.lane) && Possible(t, events[0]) && Talks(StepTalk(t, events[0]), events[1..], n)
  }

  /** Every promised text goes out once, in the order of the promises; those still to go are exactly the queue. */
  lemma {:induction false} PromisesAreKept(t: Talk, events: seq<TextEvent>, n: Talk)
    requires TalkOk(t) && Talks(t, events, n)
    ensures n.promised == n.sent + n.lane.queue
    ensures n.lane.bytes == Size(n.lane.queue) <= MAX_QUEUED
    decreases |events|
  {
    if events != [] {
      TalkStays(t, events[0]);
      PromisesAreKept(StepTalk(t, events[0]), events[1..], n);
    }
  }
}
