/** The ring's two threads, one atomic access at a time, in every order. */
module SpscRingRuns {
  import opened RingArithmetic

  /** Where the pushing thread is; it alone writes `write` and free cells. `at` is what a loaded index stood for. */
  datatype Producer<T> =
    | Resting
    | Loaded(write: nat, values: seq<T>)
    | Copying(write: nat, values: seq<T>, writable: nat, index: nat)
    | Counting(read: nat, at: nat)

  /** Where the popping thread is; it alone writes `read`. */
  datatype Consumer<T> =
    | Waiting
    | Found(read: nat, wanted: nat)
    | Taking(read: nat, readable: nat, taken: seq<T>)
    | Measuring(read: nat)

  /** The shared cells and indexes, both threads, and what has been published in each direction. */
  datatype Ring<T> = Ring(data: seq<T>, read: nat, write: nat, producer: Producer<T>, consumer: Consumer<T>,
                          pushed: seq<T>, popped: seq<T>)

  datatype Access<T> =
    | PushLoadsWrite(offered: seq<T>) | PushLoadsRead | PushCopies | PushStores
    | PopLoadsRead(count: nat) | PopLoadsWrite | PopCopies | PopStores
    | ProducerLoadsRead | ProducerLoadsWrite | ConsumerLoadsRead | ConsumerLoadsWrite

  function Min(a: nat, b: nat): nat { if a <= b then a else b }

  predicate Sized<T>(r: Ring<T>) { Capacity(|r.data|) && r.read < WORD && r.write < WORD }

  function Cell<T>(r: Ring<T>, index: nat, offset: nat): (cell: nat)
    requires Sized(r)
    ensures cell < |r.data|
  {
    CellOf(|r.data|, index, offset);
    And((index % WORD + offset) % WORD, |r.data| - 1)
  }

  function Produce<T>(r: Ring<T>, a: Access<T>): Ring<T>
    requires Sized(r)
  {
    match (a, r.producer)
    case (PushLoadsWrite(values), Resting) => r.(producer := Loaded(r.write, values))
    case (PushLoadsRead, Loaded(write, values)) =>
      if write >= WORD || Minus(write, r.read) > |r.data| then r
      else r.(producer := Copying(write, values, Min(|values|, |r.data| - Minus(write, r.read)), 0))
    case (PushCopies, Copying(write, values, writable, index)) =>
      if index >= writable || index >= |values| then r
      else r.(data := r.data[Cell(r, write, index) := values[index]],
        producer := Copying(write, values, writable, index + 1))
    case (PushStores, Copying(write, values, writable, index)) =>
      if index < writable || writable > |values| then r
      else r.(write := (write + writable) % WORD, producer := Resting, pushed := r.pushed + values[..writable])
    case (ProducerLoadsRead, Resting) => r.(producer := Counting(r.read, |r.popped|))
    case (ProducerLoadsWrite, Counting(_, _)) => r.(producer := Resting)
    case _ => r
  }

  function Consume<T>(r: Ring<T>, a: Access<T>): Ring<T>
    requires Sized(r)
  {
    match (a, r.consumer)
    case (PopLoadsRead(count), Waiting) => r.(consumer := Found(r.read, count))
    case (PopLoadsWrite, Found(read, wanted)) =>
      if read >= WORD then r else r.(consumer := Taking(read, Min(wanted, Minus(r.write, read)), []))
    case (PopCopies, Taking(read, readable, taken)) =>
      if |taken| >= readable then r
      else r.(consumer := Taking(read, readable, taken + [r.data[Cell(r, read, |taken|)]]))
    case (PopStores, Taking(read, readable, taken)) =>
      if |taken| < readable then r
      else r.(read := (read + readable) % WORD, consumer := Waiting, popped := r.popped + taken)
    case (ConsumerLoadsRead, Waiting) => r.(consumer := Measuring(r.read))
    case (ConsumerLoadsWrite, Measuring(_)) => r.(consumer := Waiting)
    case _ => r
  }

  predicate ByProducer<T>(a: Access<T>) {
    a.PushLoadsWrite? || a.PushLoadsRead? || a.PushCopies? || a.PushStores? || a.ProducerLoadsRead?
      || a.ProducerLoadsWrite?
  }

  function Perform<T>(r: Ring<T>, a: Access<T>): Ring<T>
    requires Sized(r)
  {
    if ByProducer(a) then Produce(r, a) else Consume(r, a)
  }

  // ---- the invariant ----

  /** The published, unread values sit in the cells of their unbounded positions. */
  ghost predicate Stored<T>(data: seq<T>, pushed: seq<T>, from: nat)
    requires |data| > 0
  {
    forall k {:trigger pushed[k]} | from <= k < |pushed| :: data[k % |data|] == pushed[k]
  }

  predicate Indexed<T>(r: Ring<T>) {
    && Capacity(|r.data|)
    && |r.popped| <= |r.pushed| <= |r.popped| + |r.data|
    && r.read == |r.popped| % WORD && r.write == |r.pushed| % WORD
  }

  /** The copies made so far, ahead of the published end. */
  ghost predicate Ahead<T>(data: seq<T>, from: nat, values: seq<T>, index: nat)
    requires |data| > 0 && index <= |values|
  {
    forall j {:trigger values[j]} | 0 <= j < index :: data[(from + j) % |data|] == values[j]
  }

  ghost predicate ProducerOk<T>(r: Ring<T>)
    requires Indexed(r)
  {
    match r.producer
    case Resting => true
    case Loaded(write, _) => write == r.write
    case Copying(write, values, writable, index) =>
      && write == r.write && index <= writable <= |values| && |r.pushed| + writable <= |r.popped| + |r.data|
      && Ahead(r.data, |r.pushed|, values, index)
    case Counting(read, at) => read == at % WORD && at <= |r.popped| && |r.pushed| <= at + |r.data|
  }

  ghost predicate ConsumerOk<T>(r: Ring<T>)
    requires Indexed(r)
  {
    match r.consumer
    case Waiting => true
    case Found(read, _) => read == r.read
    case Taking(read, readable, taken) =>
      && read == r.read && |taken| <= readable && |r.popped| + readable <= |r.pushed|
      && taken == r.pushed[|r.popped|..|r.popped| + |taken|]
    case Measuring(read) => read == r.read
  }

  ghost predicate Inv<T>(r: Ring<T>) {
    && Indexed(r) && r.popped == r.pushed[..|r.popped|] && Stored(r.data, r.pushed, |r.popped|)
    && ProducerOk(r) && ConsumerOk(r)
  }

  // ---- one access ----

  lemma CellIs<T>(r: Ring<T>, total: nat, offset: nat)
    requires Indexed(r)
    ensures Cell(r, total % WORD, offset) == (total + offset) % |r.data|
  {
    CellOf(|r.data|, total, offset);
    CellOf(|r.data|, total % WORD, offset);
    ModuloTwice(total);
  }

  lemma ModuloTwice(x: nat)
    ensures x % WORD % WORD == x % WORD
  {
  }

  lemma Difference<T>(r: Ring<T>)
    requires Indexed(r)
    ensures Minus(r.write, r.read) == |r.pushed| - |r.popped| <= |r.data|
  {
    WrappedDifference(|r.pushed|, |r.popped|);
  }

  /** A copy goes to a cell that holds no unread value and none of this push's own. */
  lemma CopyIsFree<T>(r: Ring<T>, k: nat)
    requires Inv(r) && r.producer.Copying? && r.producer.index < r.producer.writable
    requires |r.popped| <= k < |r.pushed| + r.producer.index
    ensures k % |r.data| != Cell(r, r.producer.write, r.producer.index)
  {
    CellIs(r, |r.pushed|, r.producer.index);
    DifferentCells(|r.data|, k, |r.pushed| + r.producer.index);
  }

  lemma CopyKeeps<T>(r: Ring<T>)
    requires Inv(r) && r.producer.Copying? && r.producer.index < r.producer.writable
    ensures Inv(Produce(r, PushCopies))
  {
    var n := Produce(r, PushCopies);
    var p := r.producer;
    CellIs(r, |r.pushed|, p.index);
    forall k | |r.popped| <= k < |r.pushed| ensures n.data[k % |n.data|] == n.pushed[k] {
      CopyIsFree(r, k);
    }
    forall j | 0 <= j < p.index + 1 ensures n.data[(|n.pushed| + j) % |n.data|] == p.values[j] {
      if j < p.index { CopyIsFree(r, |r.pushed| + j); }
    }
  }

  lemma PublishKeeps<T>(r: Ring<T>)
    requires Inv(r) && r.producer.Copying? && r.producer.index == r.producer.writable
    ensures Inv(Produce(r, PushStores))
  {
    var n := Produce(r, PushStores);
    var p := r.producer;
    CountOn(|r.pushed|, p.writable);
    forall k | |n.popped| <= k < |n.pushed| ensures n.data[k % |n.data|] == n.pushed[k] {
      if k >= |r.pushed| { assert n.pushed[k] == p.values[k - |r.pushed|]; } else { assert n.pushed[k] == r.pushed[k]; }
    }
    assert n.popped == n.pushed[..|n.popped|];
    if n.consumer.Taking? {
      var c := n.consumer;
      assert n.pushed[|n.popped|..|n.popped| + |c.taken|] == r.pushed[|r.popped|..|r.popped| + |c.taken|];
    }
  }

  lemma ProduceKeeps<T>(r: Ring<T>, a: Access<T>)
    requires Inv(r) && ByProducer(a)
    ensures Inv(Produce(r, a))
  {
    Difference(r);
    if a.PushCopies? && r.producer.Copying? && r.producer.index < r.producer.writable { CopyKeeps(r); }
    else if a.PushStores? && r.producer.Copying? && r.producer.index == r.producer.writable { PublishKeeps(r); }
  }

  lemma TakeKeeps<T>(r: Ring<T>)
    requires Inv(r) && r.consumer.Taking? && |r.consumer.taken| < r.consumer.readable
    ensures Inv(Consume(r, PopCopies))
  {
    var c := r.consumer;
    CellIs(r, |r.popped|, |c.taken|);
    assert r.data[(|r.popped| + |c.taken|) % |r.data|] == r.pushed[|r.popped| + |c.taken|];
    assert r.pushed[|r.popped|..|r.popped| + |c.taken| + 1]
        == r.pushed[|r.popped|..|r.popped| + |c.taken|] + [r.pushed[|r.popped| + |c.taken|]];
  }

  lemma ReleaseKeeps<T>(r: Ring<T>)
    requires Inv(r) && r.consumer.Taking? && |r.consumer.taken| == r.consumer.readable
    ensures Inv(Consume(r, PopStores))
  {
    var n := Consume(r, PopStores);
    CountOn(|r.popped|, r.consumer.readable);
    assert n.popped == r.pushed[..|r.popped|] + r.pushed[|r.popped|..|n.popped|] == r.pushed[..|n.popped|];
  }

  lemma ConsumeKeeps<T>(r: Ring<T>, a: Access<T>)
    requires Inv(r) && !ByProducer(a)
    ensures Inv(Consume(r, a))
  {
    Difference(r);
    if a.PopCopies? && r.consumer.Taking? && |r.consumer.taken| < r.consumer.readable { TakeKeeps(r); }
    else if a.PopStores? && r.consumer.Taking? && |r.consumer.taken| == r.consumer.readable { ReleaseKeeps(r); }
  }

  // ---- every interleaving ----

  function Start<T>(data: seq<T>): Ring<T> { Ring(data, 0, 0, Resting, Waiting, [], []) }

  function Run<T>(r: Ring<T>, accesses: seq<Access<T>>): Ring<T>
    requires Sized(r)
    decreases |accesses|
  {
    if accesses == [] then r
    else
      var n := Perform(r, accesses[0]);
      if Sized(n) then Run(n, accesses[1..]) else n
  }

  lemma {:induction false} RunKeeps<T>(r: Ring<T>, accesses: seq<Access<T>>)
    requires Inv(r)
    ensures Inv(Run(r, accesses))
    decreases |accesses|
  {
    if accesses != [] {
      var a := accesses[0];
      if ByProducer(a) { ProduceKeeps(r, a); } else { ConsumeKeeps(r, a); }
      RunKeeps(Perform(r, a), accesses[1..]);
    }
  }

  ghost predicate Reachable<T(!new)>(r: Ring<T>) {
    exists data: seq<T>, accesses: seq<Access<T>> :: Capacity(|data|) && r == Run(Start(data), accesses)
  }

  lemma ReachableHolds<T(!new)>(r: Ring<T>)
    requires Reachable(r)
    ensures Inv(r)
  {
    var data: seq<T>, accesses: seq<Access<T>> :| Capacity(|data|) && r == Run(Start(data), accesses);
    RunKeeps(Start(data), accesses);
  }

  /** First in, first out: what has come out is what went in, in order, and the rest is still there. */
  lemma PoppedIsPrefix<T(!new)>(r: Ring<T>)
    requires Reachable(r)
    ensures r.popped <= r.pushed && |r.pushed| - |r.popped| <= |r.data|
    ensures forall k | |r.popped| <= k < |r.pushed| :: r.data[k % |r.data|] == r.pushed[k]
  {
    ReachableHolds(r);
  }

  /** No access of the producer touches a cell the consumer may still read. */
  lemma UnreadIsSafe<T(!new)>(r: Ring<T>, a: Access<T>, k: nat)
    requires Reachable(r) && ByProducer(a) && |r.popped| <= k < |r.pushed|
    ensures Sized(r) && |Perform(r, a).data| == |r.data| > 0
    ensures Perform(r, a).data[k % |r.data|] == r.data[k % |r.data|]
  {
    ReachableHolds(r);
    if a.PushCopies? && r.producer.Copying? && r.producer.index < r.producer.writable { CopyIsFree(r, k); }
  }

  /** What a finished pop hands over is the next stretch of the published values. */
  lemma PopReturnsNext<T(!new)>(r: Ring<T>)
    requires Reachable(r) && r.consumer.Taking? && |r.consumer.taken| == r.consumer.readable
    ensures |r.popped| + r.consumer.readable <= |r.pushed|
    ensures r.consumer.taken == r.pushed[|r.popped|..|r.popped| + r.consumer.readable]
  {
    ReachableHolds(r);
  }

  /** The producer's count never exceeds the capacity and never overlooks an unread value. */
  lemma ProducerCount<T(!new)>(r: Ring<T>)
    requires Reachable(r) && r.producer.Counting?
    ensures r.producer.read < WORD && r.write < WORD
    ensures |r.pushed| - |r.popped| <= Minus(r.write, r.producer.read) <= |r.data|
  {
    ReachableHolds(r);
    WrappedDifference(|r.pushed|, r.producer.at);
  }

  /** The consumer's count is exact when it is taken, so those values are there for its next pop. */
  lemma ConsumerCount<T(!new)>(r: Ring<T>)
    requires Reachable(r) && r.consumer.Measuring?
    ensures r.consumer.read < WORD && r.write < WORD
    ensures Minus(r.write, r.consumer.read) == |r.pushed| - |r.popped| <= |r.data|
  {
    ReachableHolds(r);
    Difference(r);
  }

  // ---- a call that nothing interrupts ----

  ghost function CopyRest<T>(r: Ring<T>): (n: Ring<T>)
    requires Inv(r) && r.producer.Copying?
    ensures Inv(n) && n == r.(data := n.data, producer := r.producer.(index := r.producer.writable))
    decreases r.producer.writable - r.producer.index
  {
    if r.producer.index == r.producer.writable then r else CopyKeeps(r); CopyRest(Produce(r, PushCopies))
  }

  ghost function LoadBoth<T>(r: Ring<T>, values: seq<T>): (n: Ring<T>)
    requires Inv(r) && r.producer.Resting?
    ensures Inv(n) && n == r.(producer := n.producer) && n.producer.Copying? && n.producer.values == values
    ensures n.producer.writable == Min(|values|, |r.data| - (|r.pushed| - |r.popped|))
  {
    Difference(r);
    ProduceKeeps(r, PushLoadsWrite(values));
    var first := Produce(r, PushLoadsWrite(values));
    ProduceKeeps(first, PushLoadsRead);
    Produce(first, PushLoadsRead)
  }

  /** An uninterrupted push appends exactly what `SpscRing.Push` says. */
  lemma WholePush<T>(r: Ring<T>, values: seq<T>)
    requires Inv(r) && r.producer.Resting?
    ensures var ready := CopyRest(LoadBoth(r, values));
      && Sized(ready)
      && var n := Produce(ready, PushStores);
         && Inv(n) && n.producer.Resting? && n.popped == r.popped
         && n.pushed == r.pushed + values[..Min(|values|, |r.data| - (|r.pushed| - |r.popped|))]
  {
    PublishKeeps(CopyRest(LoadBoth(r, values)));
  }
}
