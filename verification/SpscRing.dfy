/** The ring's own code, called by one thread at a time. */
module SpscRings {
  import opened RingArithmetic
  import R = SpscRingRuns

  /** The values sit in consecutive cells from the one for position `from`. */
  ghost predicate Holds<T>(cells: seq<T>, from: nat, values: seq<T>)
    requires |cells| > 0
  {
    forall k {:trigger values[k]} | 0 <= k < |values| :: cells[(from + k) % |cells|] == values[k]
  }

  lemma OtherCell<T>(cells: seq<T>, from: nat, values: seq<T>, cell: nat, v: T, k: nat)
    requires k < |values| < |cells| && Holds(cells, from, values) && cell == (from + |values|) % |cells|
    ensures cells[cell := v][(from + k) % |cells|] == values[k]
  {
    DifferentCells(|cells|, from + k, from + |values|);
  }

  lemma HoldsOneMore<T>(cells: seq<T>, from: nat, values: seq<T>, cell: nat, v: T)
    requires |values| < |cells| && Holds(cells, from, values) && cell == (from + |values|) % |cells|
    ensures Holds(cells[cell := v], from, values + [v])
  {
    var n, more := cells[cell := v], values + [v];
    forall k | 0 <= k < |more| ensures n[(from + k) % |n|] == more[k] {
      if k < |values| { OtherCell(cells, from, values, cell, v, k); }
    }
  }

  lemma HoldsRest<T>(cells: seq<T>, from: nat, values: seq<T>, n: nat)
    requires |cells| > 0 && n <= |values| && Holds(cells, from, values)
    ensures Holds(cells, from + n, values[n..])
  {
    forall k | 0 <= k < |values| - n ensures cells[(from + n + k) % |cells|] == values[n..][k] {
      assert values[n..][k] == values[n + k];
      assert from + n + k == from + (n + k);
    }
  }

  class SpscRing<T(0)> {
    const data: array<T>
    var read: nat
    var write: nat

    /** How many values ever left, and those that have not. */
    ghost var gone: nat
    ghost var contents: seq<T>

    ghost predicate Valid()
      reads this, data
    {
      && Capacity(data.Length) && |contents| <= data.Length
      && read == gone % WORD && write == (gone + |contents|) % WORD
      && Holds(data[..], gone, contents)
    }

    constructor (capacity: nat)
      requires Capacity(capacity)
      ensures Valid() && contents == [] && data.Length == capacity && fresh(data)
    {
      data := new T[capacity];
      read, write, gone, contents := 0, 0, 0, [];
    }

    method Available() returns (count: nat)
      requires Valid()
      ensures count == |contents| <= data.Length
    {
      WrappedDifference(gone + |contents|, gone);
      count := Minus(write, read);
    }

    method FreeSpace() returns (count: nat)
      requires Valid()
      ensures count + |contents| == data.Length
    {
      var available := Available();
      count := data.Length - available;
    }

    /** Copies the values behind the contents, without publishing them. */
    method CopyIn(values: seq<T>)
      requires Valid() && |contents| + |values| <= data.Length
      modifies data
      ensures Holds(data[..], gone, contents + values)
    {
      assert contents + values[..0] == contents;
      for index := 0 to |values|
        invariant Holds(data[..], gone, contents + values[..index])
      {
        CellOf(data.Length, gone + |contents|, index);
        var cell := And((write + index) % WORD, data.Length - 1);
        HoldsOneMore(data[..], gone, contents + values[..index], cell, values[index]);
        ghost var before := data[..];
        data[cell] := values[index];
        assert data[..] == before[cell := values[index]];
        assert contents + values[..index + 1] == contents + values[..index] + [values[index]];
      }
      assert values[..|values|] == values;
    }

    /** Takes as many of the values as fit and says how many. */
    method Push(values: seq<T>) returns (pushed: nat)
      requires Valid()
      modifies `write, `contents, data
      ensures Valid() && pushed == R.Min(|values|, data.Length - |old(contents)|)
      ensures contents == old(contents) + values[..pushed]
    {
      WrappedDifference(gone + |contents|, gone);
      pushed := R.Min(|values|, data.Length - Minus(write, read));
      CopyIn(values[..pushed]);
      CountOn(gone + |contents|, pushed);
      write := (write + pushed) % WORD;
      contents := contents + values[..pushed];
    }

    /** Copies the oldest values, without freeing their cells. */
    method CopyOut(n: nat) returns (values: seq<T>)
      requires Valid() && n <= |contents|
      ensures values == contents[..n]
    {
      values := [];
      for index := 0 to n
        invariant values == contents[..index]
      {
        CellOf(data.Length, gone, index);
        values := values + [data[And((read + index) % WORD, data.Length - 1)]];
        assert data[..][(gone + index) % data.Length] == contents[index];
      }
    }

    /** Hands over up to `count` of the oldest values. */
    method Pop(count: nat) returns (values: seq<T>)
      requires Valid()
      modifies `read, `gone, `contents
      ensures Valid() && |values| == R.Min(count, |old(contents)|)
      ensures old(contents) == values + contents
    {
      WrappedDifference(gone + |contents|, gone);
      var readable := R.Min(count, Minus(write, read));
      values := CopyOut(readable);
      CountOn(gone, readable);
      HoldsRest(data[..], gone, contents, readable);
      read := (read + readable) % WORD;
      gone, contents := gone + readable, contents[readable..];
    }

    method Clear()
      requires Valid()
      modifies `read, `write, `gone, `contents
      ensures Valid() && contents == []
    {
      read, write, gone, contents := 0, 0, 0, [];
    }
  }
}
