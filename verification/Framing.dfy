/**
  Incremental line framing under a length limit.  A line that grows past the limit is
  reported once and the rest of it is discarded up to its newline.  However the bytes
  arrive, the result is that of splitting the whole stream and judging each piece.
*/
module Framing {
  import opened Bytes

  datatype Item = Line(bytes: seq<Byte>) | Oversized

  datatype Frame = Frame(line: seq<Byte>, discarding: bool)

  const EMPTY := Frame([], false)

  function AfterByte(f: Frame, b: Byte, limit: nat): (Frame, seq<Item>) {
    if f.discarding then (if b == NEWLINE then EMPTY else f, [])
    else if b == NEWLINE then (EMPTY, [Line(f.line)])
    else if |f.line| + 1 > limit then (Frame([], true), [Oversized])
    else (Frame(f.line + [b], false), [])
  }

  /** The frame after these bytes, and the items they completed. */
  function Scan(f: Frame, data: seq<Byte>, limit: nat): (Frame, seq<Item>)
    decreases |data|
  {
    if data == [] then (f, [])
    else
      var (g, items) := Scan(f, data[..|data| - 1], limit);
      var (h, more) := AfterByte(g, data[|data| - 1], limit);
      (h, items + more)
  }

  predicate Fits(f: Frame, limit: nat) {
    |f.line| <= limit && (f.discarding ==> f.line == [])
  }

  /** The line buffer never exceeds the limit. */
  lemma {:induction false} ScanFits(f: Frame, data: seq<Byte>, limit: nat)
    requires Fits(f, limit)
    ensures Fits(Scan(f, data, limit).0, limit)
    decreases |data|
  {
    if data != [] { ScanFits(f, data[..|data| - 1], limit); }
  }

  lemma {:induction false} ScanJoins(f: Frame, a: seq<Byte>, b: seq<Byte>, limit: nat)
    ensures Scan(f, a + b, limit).0 == Scan(Scan(f, a, limit).0, b, limit).0
    ensures Scan(f, a + b, limit).1 == Scan(f, a, limit).1 + Scan(Scan(f, a, limit).0, b, limit).1
    decreases |b|
  {
    if b == [] {
      assert a + b == a;
    } else {
      var init := b[..|b| - 1];
      assert (a + b)[..|a + b| - 1] == a + init;
      ScanJoins(f, a, init, limit);
      var (g, items) := Scan(f, a, limit);
      var more := AfterByte(Scan(g, init, limit).0, b[|b| - 1], limit).1;
      assert (items + Scan(g, init, limit).1) + more == items + (Scan(g, init, limit).1 + more);
    }
  }

  // ---- stretches without a newline

  lemma PlainParts(data: seq<Byte>)
    requires NEWLINE !in data && data != []
    ensures data == data[..|data| - 1] + [data[|data| - 1]]
    ensures data[|data| - 1] != NEWLINE && NEWLINE !in data[..|data| - 1]
  {
    assert data[|data| - 1] in data;
  }

  lemma {:induction false} ScanDiscards(f: Frame, data: seq<Byte>, limit: nat)
    requires f.discarding && NEWLINE !in data
    ensures Scan(f, data, limit).0 == f && Scan(f, data, limit).1 == []
    decreases |data|
  {
    if data != [] { PlainParts(data); ScanDiscards(f, data[..|data| - 1], limit); }
  }

  lemma {:induction false} ScanExtends(f: Frame, data: seq<Byte>, limit: nat)
    requires !f.discarding && NEWLINE !in data && |f.line| + |data| <= limit
    ensures Scan(f, data, limit).0 == Frame(f.line + data, false) && Scan(f, data, limit).1 == []
    decreases |data|
  {
    if data == [] {
      assert f.line + data == f.line;
    } else {
      PlainParts(data);
      ScanExtends(f, data[..|data| - 1], limit);
    }
  }

  lemma {:induction false} ScanOverflows(f: Frame, data: seq<Byte>, limit: nat)
    requires !f.discarding && NEWLINE !in data && |f.line| <= limit < |f.line| + |data|
    ensures Scan(f, data, limit).0 == Frame([], true) && Scan(f, data, limit).1 == [Oversized]
    decreases |data|
  {
    PlainParts(data);
    if |f.line| + |data| - 1 <= limit {
      ScanExtends(f, data[..|data| - 1], limit);
    } else {
      ScanOverflows(f, data[..|data| - 1], limit);
    }
  }

  // ---- agreement with splitting the whole stream

  function Lines(s: seq<Byte>): (lines: seq<seq<Byte>>)
    ensures |lines| > 0
  {
    Split(s, NEWLINE)
  }

  function Judged(piece: seq<Byte>, limit: nat): Item {
    if |piece| <= limit then Line(piece) else Oversized
  }

  function JudgedAll(pieces: seq<seq<Byte>>, limit: nat): (items: seq<Item>)
    ensures |items| == |pieces|
  {
    seq(|pieces|, i requires 0 <= i < |pieces| => Judged(pieces[i], limit))
  }

  function Pending(last: seq<Byte>, limit: nat): (Frame, seq<Item>) {
    if |last| <= limit then (Frame(last, false), []) else (Frame([], true), [Oversized])
  }

  /** The items are the judged complete lines, and the frame holds the unfinished one,
      which has been reported already if it is too long. */
  lemma {:induction false} ScanIsSplit(s: seq<Byte>, limit: nat)
    ensures var pieces := Lines(s);
            var (frame, early) := Pending(pieces[|pieces| - 1], limit);
            && Scan(EMPTY, s, limit).0 == frame
            && Scan(EMPTY, s, limit).1 == JudgedAll(pieces[..|pieces| - 1], limit) + early
    decreases |s|
  {
    if s != [] {
      var before, b := Lines(s[..|s| - 1]), s[|s| - 1];
      var n := |before|;
      ScanIsSplit(s[..|s| - 1], limit);
      var pieces := Lines(s);
      var (frame, early) := Pending(before[n - 1], limit);
      if b == NEWLINE {
        assert pieces[..n] == before;
        assert JudgedAll(before, limit) == JudgedAll(before[..n - 1], limit) + [Judged(before[n - 1], limit)];
        assert AfterByte(frame, b, limit).0 == EMPTY;
      } else {
        assert pieces[..n - 1] == before[..n - 1];
        assert pieces[n - 1] == before[n - 1] + [b];
      }
    }
  }

  // ---- chunks

  function ScanAll(f: Frame, chunks: seq<seq<Byte>>, limit: nat): (Frame, seq<Item>)
    decreases |chunks|
  {
    if chunks == [] then (f, [])
    else
      var (g, items) := ScanAll(f, chunks[..|chunks| - 1], limit);
      var (h, more) := Scan(g, chunks[|chunks| - 1], limit);
      (h, items + more)
  }

  /** Only the concatenation of the chunks matters. */
  lemma {:induction false} ChunkingIsIrrelevant(f: Frame, chunks: seq<seq<Byte>>, limit: nat)
    ensures ScanAll(f, chunks, limit).0 == Scan(f, Concat(chunks), limit).0
    ensures ScanAll(f, chunks, limit).1 == Scan(f, Concat(chunks), limit).1
    decreases |chunks|
  {
    if chunks != [] {
      ChunkingIsIrrelevant(f, chunks[..|chunks| - 1], limit);
      ScanJoins(f, Concat(chunks[..|chunks| - 1]), chunks[|chunks| - 1], limit);
    }
  }
}
