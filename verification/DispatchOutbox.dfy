/**
  The durable outbox of a locally polled board.  Polling queues a command under the
  generation of the observation that caused it; committing a tick turns every queued
  command into work and marks it consumed in the same save.
*/
module DispatchOutbox {
  import opened Basics

  type ItemId = nat

  datatype Entry = Entry(item: ItemId, trigger: string, dispatched: bool, recordedAt: real)

  datatype Work<G> = Work(generation: G, item: ItemId, trigger: string)

  const KEPT := 200

  function Undispatched<G>(o: map<G, Entry>): set<G> {
    set g | g in o && !o[g].dispatched
  }

  function Consumed<G>(o: map<G, Entry>): set<G> {
    set g | g in o && o[g].dispatched
  }

  function Marked<G>(o: map<G, Entry>, fires: seq<G>): map<G, Entry> {
    map g | g in o :: if g in fires then o[g].(dispatched := true) else o[g]
  }

  /** Some consumed entries have been forgotten, none newer than one that is kept. */
  ghost predicate Trimming<G(!new)>(before: map<G, Entry>, after: map<G, Entry>) {
    && (forall g :: g in after ==> g in before && after[g] == before[g])
    && (forall g :: g in before && !before[g].dispatched ==> g in after)
    && (forall g, h :: g in before && g !in after && h in Consumed(after) ==>
          before[g].recordedAt <= after[h].recordedAt)
  }

  /** All but the newest KEPT consumed entries are forgotten; queued ones never are. */
  ghost predicate Trimmed<G(!new)>(before: map<G, Entry>, after: map<G, Entry>) {
    && Trimming(before, after)
    && |Consumed(after)| == (if |Consumed(before)| <= KEPT then |Consumed(before)| else KEPT)
  }

  function WorkOf<G>(o: map<G, Entry>, fires: seq<G>): (work: seq<Work<G>>)
    requires forall i :: 0 <= i < |fires| ==> fires[i] in o
    ensures |work| == |fires|
  {
    seq(|fires|, i requires 0 <= i < |fires| => Work(fires[i], o[fires[i]].item, o[fires[i]].trigger))
  }

  /** A committed tick leaves nothing queued. */
  lemma CommitSettles<G(!new)>(o: map<G, Entry>, fires: seq<G>, after: map<G, Entry>)
    requires Enumerates(fires, Undispatched(o)) && Trimmed(Marked(o, fires), after)
    ensures Undispatched(after) == {}
  {
    forall g | g in after ensures after[g].dispatched {
      if !o[g].dispatched { assert g in Undispatched(o); }
    }
  }

  /** If the queued commands are those expected, then so is the work, each piece once. */
  lemma FiresBecomeWork<G(!new)>(o: map<G, Entry>, fires: seq<G>, expected: set<Work<G>>)
    requires Enumerates(fires, Undispatched(o))
    requires forall w :: w in expected ==>
               w.generation in Undispatched(o) && w == Work(w.generation, o[w.generation].item, o[w.generation].trigger)
    requires forall g :: g in Undispatched(o) ==> Work(g, o[g].item, o[g].trigger) in expected
    ensures var work := WorkOf(o, fires);
            && (forall w :: w in work <==> w in expected)
            && (forall k, m :: 0 <= k < m < |work| ==> work[k].generation != work[m].generation)
  {
    var work := WorkOf(o, fires);
    forall w | w in expected ensures w in work {
      var k :| 0 <= k < |fires| && fires[k] == w.generation;
      assert work[k] == w;
    }
  }

  // ---- one entry trimmed at a time

  lemma TrimOne<G(!new)>(before: map<G, Entry>, after: map<G, Entry>, oldest: G)
    requires Trimming(before, after) && oldest in Consumed(after)
    requires forall h :: h in Consumed(after) ==> after[oldest].recordedAt <= after[h].recordedAt
    ensures Trimming(before, after - {oldest})
    ensures Consumed(after - {oldest}) == Consumed(after) - {oldest}
  {
  }

  class Outbox<G(==,!new)> {
    var entries: map<G, Entry>

    constructor (entries: map<G, Entry>)
      ensures this.entries == entries
    {
      this.entries := entries;
    }

    method Queue(generation: G, entry: Entry)
      modifies this
      ensures entries == old(entries)[generation := entry]
    {
      entries := entries[generation := entry];
    }

    method DispatchFires() returns (fires: seq<G>)
      ensures Enumerates(fires, Undispatched(entries))
    {
      fires := [];
      var rest := entries.Keys;
      while rest != {}
        invariant rest <= entries.Keys
        invariant Enumerates(fires, Undispatched(entries) - rest)
        decreases rest
      {
        var g :| g in rest;
        rest := rest - {g};
        if !entries[g].dispatched {
          assert g !in fires;
          fires := fires + [g];
        }
      }
    }

    method Oldest() returns (oldest: G)
      requires Consumed(entries) != {}
      ensures oldest in Consumed(entries)
      ensures forall h :: h in Consumed(entries) ==> entries[oldest].recordedAt <= entries[h].recordedAt
    {
      var rest := Consumed(entries);
      oldest :| oldest in rest;
      rest := rest - {oldest};
      while rest != {}
        invariant rest <= Consumed(entries) && oldest in Consumed(entries)
        invariant forall h :: h in Consumed(entries) - rest ==> entries[oldest].recordedAt <= entries[h].recordedAt
        decreases rest
      {
        var g :| g in rest;
        rest := rest - {g};
        if entries[g].recordedAt < entries[oldest].recordedAt { oldest := g; }
      }
    }

    method MarkDispatched(fires: seq<G>)
      modifies this
      ensures Trimmed(Marked(old(entries), fires), entries)
    {
      ghost var start := entries;
      for i := 0 to |fires|
        invariant entries == Marked(start, fires[..i])
      {
        if fires[i] in entries {
          entries := entries[fires[i] := entries[fires[i]].(dispatched := true)];
        }
        assert fires[..i + 1] == fires[..i] + [fires[i]];
      }
      assert fires[..|fires|] == fires;
      ghost var marked := entries;
      while |Consumed(entries)| > KEPT
        invariant Trimming(marked, entries)
        invariant |Consumed(entries)| >= (if |Consumed(marked)| <= KEPT then |Consumed(marked)| else KEPT)
        invariant |Consumed(marked)| <= KEPT ==> entries == marked
        decreases |Consumed(entries)|
      {
        var oldest := Oldest();
        TrimOne(marked, entries, oldest);
        entries := entries - {oldest};
      }
    }
  }
}
