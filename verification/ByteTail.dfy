/**
  A ring of the last bytes appended, with a flag telling whether any were dropped.
*/
module ByteTails {
  import opened Bytes

  type Capacity = n: int | 0 < n witness 1

  datatype Tail = Tail(data: seq<Byte>, truncated: bool)

  function Appended(t: Tail, chunk: seq<Byte>, capacity: Capacity): Tail {
    if chunk == [] then t
    else if |chunk| >= capacity then Tail(chunk[|chunk| - capacity..], true)
    else if |t.data| + |chunk| > capacity then Tail(t.data[|t.data| + |chunk| - capacity..] + chunk, true)
    else Tail(t.data + chunk, t.truncated)
  }

  function AppendedAll(t: Tail, chunks: seq<seq<Byte>>, capacity: Capacity): Tail
    decreases |chunks|
  {
    if chunks == [] then t
    else Appended(AppendedAll(t, chunks[..|chunks| - 1], capacity), chunks[|chunks| - 1], capacity)
  }

  lemma AppendedKeepsLast(t: Tail, chunk: seq<Byte>, capacity: Capacity)
    requires |t.data| <= capacity
    ensures Appended(t, chunk, capacity).data == Last(t.data + chunk, capacity)
  {
  }

  predicate Wide(chunks: seq<seq<Byte>>, capacity: Capacity) {
    exists i :: 0 <= i < |chunks| && |chunks[i]| >= capacity
  }

  /** The ring holds the last bytes of the whole stream.  The flag is set when bytes were
      dropped, but also when one chunk fills the ring exactly. */
  lemma {:induction false} TailIsLastOfStream(chunks: seq<seq<Byte>>, capacity: Capacity)
    ensures var t := AppendedAll(Tail([], false), chunks, capacity);
            && t.data == Last(Concat(chunks), capacity)
            && (t.truncated <==> |Concat(chunks)| > capacity || Wide(chunks, capacity))
    decreases |chunks|
  {
    if chunks != [] {
      var init, chunk := chunks[..|chunks| - 1], chunks[|chunks| - 1];
      TailIsLastOfStream(init, capacity);
      AppendedKeepsLast(AppendedAll(Tail([], false), init, capacity), chunk, capacity);
      LastOfLast(Concat(init), chunk, capacity);
      assert Wide(chunks, capacity) <==> Wide(init, capacity) || |chunk| >= capacity by {
        if i :| 0 <= i < |init| && |init[i]| >= capacity { assert |chunks[i]| >= capacity; }
      }
    }
  }

  /** A stream that fits exactly, in one piece, is reported as truncated though nothing was lost. */
  lemma ExactFitIsReportedTruncated()
    ensures var t := AppendedAll(Tail([], false), [[1, 2]], 2); t.truncated && t.data == Concat([[1, 2]])
  {
    assert [[1, 2]][..0] == [];
    assert Concat([[1, 2]]) == [1, 2];
  }

  class ByteTail {
    const capacity: Capacity
    var data: seq<Byte>
    var truncated: bool

    constructor (capacity: Capacity)
      ensures Contents() == Tail([], false) && this.capacity == capacity
    {
      this.capacity := capacity;
      data, truncated := [], false;
    }

    ghost function Contents(): Tail
      reads this
    {
      Tail(data, truncated)
    }

    method Append(chunk: seq<Byte>)
      modifies this
      ensures Contents() == Appended(old(Contents()), chunk, capacity)
    {
      if chunk == [] {
        return;
      }
      if |chunk| >= capacity {
        data := chunk[|chunk| - capacity..];
        truncated := true;
        return;
      }
      var overflow := |data| + |chunk| - capacity;
      if overflow > 0 {
        data := data[overflow..];
        truncated := true;
      }
      data := data + chunk;
    }
  }
}
