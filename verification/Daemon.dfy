/**
  RunnerDaemon: the table of leases being executed, shared by the loop that claims and
  submits, the loop that sends heartbeats, and the executions themselves.
*/
module Daemons {
  import opened Basics
  import opened Leases

  /** One submitted execution: it has returned; it has been told to stop. */
  datatype Slot = Slot(done: bool, cancelled: bool)

  datatype Table = Table(active: map<Lease, Slot>, stale: set<Lease>)

  datatype Event = Submitted(lease: Lease) | Returned(lease: Lease) | Refused(lease: Lease) | Collected

  function Running(t: Table): set<Lease> {
    set k | k in t.active && !t.active[k].done
  }

  function Targets(t: Table): set<Lease> {
    Running(t) - t.stale
  }

  function Finished(t: Table): set<Lease> {
    set k | k in t.active && t.active[k].done
  }

  function After(t: Table, e: Event): Table {
    match e
    case Submitted(k) => if k in t.active then t else t.(active := t.active[k := Slot(false, false)])
    case Returned(k) => if k in t.active then t.(active := t.active[k := t.active[k].(done := true)]) else t
    case Refused(k) =>
      Table(if k in t.active then t.active[k := t.active[k].(cancelled := true)] else t.active, t.stale + {k})
    case Collected => Table(t.active - Finished(t), t.stale - Finished(t))
  }

  function AfterAll(t: Table, events: seq<Event>): Table
    decreases |events|
  {
    if events == [] then t else After(AfterAll(t, events[..|events| - 1]), events[|events| - 1])
  }

  /** One turn of the claiming loop: what has returned is collected, and these are submitted. */
  function AfterTurn(t: Table, granted: seq<Lease>): Table {
    AfterAll(t, [Collected] + SubmittedAll(granted))
  }

  function SubmittedAll(granted: seq<Lease>): (events: seq<Event>)
    ensures |events| == |granted|
  {
    seq(|granted|, n requires 0 <= n < |granted| => Submitted(granted[n]))
  }

  lemma TurnStarts(t: Table)
    ensures AfterTurn(t, []) == After(t, Collected)
  {
    assert [Collected] + SubmittedAll([]) == [Collected] && [Collected][..0] == [];
    assert AfterAll(t, []) == t;
  }

  lemma TurnGrows(t: Table, granted: seq<Lease>, n: nat)
    requires n < |granted|
    ensures AfterTurn(t, granted[..n + 1]) == After(AfterTurn(t, granted[..n]), Submitted(granted[n]))
  {
    var events := [Collected] + SubmittedAll(granted[..n + 1]);
    assert events[..n + 1] == [Collected] + SubmittedAll(granted[..n]);
  }

  /** The lease is out of the running, or it has been marked stale and its execution told to stop. */
  predicate Quiet(t: Table, k: Lease) {
    k in t.active ==> t.active[k].done || (k in t.stale && t.active[k].cancelled)
  }

  /** Once the controller has refused a lease, no heartbeat is sent for it and its execution
      stays told to stop, however the loops interleave, as long as it is not submitted anew. */
  lemma {:induction false} RefusedIsNeverBeaten(t: Table, k: Lease, events: seq<Event>)
    requires Submitted(k) !in events
    ensures var end := AfterAll(After(t, Refused(k)), events); Quiet(end, k) && k !in Targets(end)
    decreases |events|
  {
    if events != [] {
      assert events[|events| - 1] in events;
      RefusedIsNeverBeaten(t, k, events[..|events| - 1]);
    }
  }

  /** Nothing but being refused, being collected or returning takes a lease out of the heartbeats. */
  lemma {:induction false} LiveIsBeaten(t: Table, k: Lease, events: seq<Event>)
    requires k in Targets(t) && Refused(k) !in events && Returned(k) !in events
    ensures k in Targets(AfterAll(t, events))
    decreases |events|
  {
    if events != [] {
      assert events[|events| - 1] in events;
      LiveIsBeaten(t, k, events[..|events| - 1]);
    }
  }

  /** A lease that is being executed is not executed again: whatever is submitted meanwhile, its
      slot stays as it is until it returns, but that it may be told to stop. */
  lemma {:induction false} ExecutingIsNotRestarted(t: Table, k: Lease, events: seq<Event>)
    requires k in t.active && !t.active[k].done && Returned(k) !in events
    ensures var end := AfterAll(t, events);
            && k in end.active && !end.active[k].done
            && (end.active[k].cancelled <==> t.active[k].cancelled || Refused(k) in events)
    decreases |events|
  {
    if events != [] {
      var init, last := events[..|events| - 1], events[|events| - 1];
      assert events == init + [last];
      ExecutingIsNotRestarted(t, k, init);
    }
  }

  class RunnerDaemon {
    const capacity: nat
    var active: map<Lease, Slot>
    var stale: set<Lease>

    ghost function Contents(): Table
      reads this
    {
      Table(active, stale)
    }

    constructor (capacity: nat)
      requires 1 <= capacity <= 10
      ensures this.capacity == capacity && Contents() == Table(map[], {})
    {
      this.capacity := capacity;
      active, stale := map[], {};
    }

    method ActiveCount() returns (n: nat)
      ensures n == |Running(Contents())|
    {
      n := 0;
      var rest := active.Keys;
      ghost var counted: set<Lease> := {};
      while rest != {}
        invariant rest <= active.Keys && n == |counted|
        invariant counted == Running(Contents()) - rest
        decreases rest
      {
        var k :| k in rest;
        rest := rest - {k};
        if !active[k].done {
          n := n + 1;
          counted := counted + {k};
        }
      }
    }

    method HeartbeatTargets() returns (targets: seq<Lease>)
      ensures Enumerates(targets, Targets(Contents()))
    {
      targets := [];
      var rest := active.Keys;
      while rest != {}
        invariant rest <= active.Keys
        invariant Enumerates(targets, Targets(Contents()) - rest)
        decreases rest
      {
        var k :| k in rest;
        rest := rest - {k};
        if !active[k].done && k !in stale {
          assert k !in targets;
          targets := targets + [k];
        }
      }
    }

    /** A heartbeat was answered with a refusal. */
    method Refuse(k: Lease)
      modifies this`active, this`stale
      ensures Contents() == After(old(Contents()), Refused(k))
    {
      stale := stale + {k};
      if k in active {
        active := active[k := active[k].(cancelled := true)];
      }
    }

    method CollectFinished()
      modifies this`active, this`stale
      ensures Contents() == After(old(Contents()), Collected)
    {
      var finished := set k | k in active && active[k].done;
      active := active - finished;
      stale := stale - finished;
    }

    method Submit(k: Lease)
      modifies this`active
      ensures Contents() == After(old(Contents()), Submitted(k))
    {
      if k in active {
        return;
      }
      active := active[k := Slot(false, false)];
    }

    /** One turn of the claiming loop: `granted` is the controller's answer to a claim for
        as many leases as there are free slots, and is not used when there are none. */
    method Turn(granted: seq<Lease>)
      modifies this`active, this`stale
      ensures Contents() == AfterTurn(old(Contents()), if |Running(old(Contents()))| < capacity then granted else [])
      ensures |granted| <= capacity - |Running(old(Contents()))| ==> |Running(Contents())| <= capacity
      ensures |Running(old(Contents()))| >= capacity ==> Running(Contents()) == Running(old(Contents()))
      ensures |Running(old(Contents()))| < capacity ==> forall k :: k in granted ==> k in active
      ensures forall k :: k in Running(old(Contents())) ==> k in Running(Contents())
    {
      CollectFinished();
      ghost var t := old(Contents());
      TurnStarts(t);
      ghost var before := Running(Contents());
      assert before == Running(old(Contents()));
      var count := ActiveCount();
      if count >= capacity {
        return;
      }
      for n := 0 to |granted|
        invariant before <= Running(Contents()) && |Running(Contents())| <= |before| + n
        invariant forall i :: 0 <= i < n ==> granted[i] in active
        invariant Contents() == AfterTurn(t, granted[..n])
      {
        TurnGrows(t, granted, n);
        SubmitAddsOne(Contents(), granted[n]);
        Submit(granted[n]);
      }
      assert granted[..|granted|] == granted;
    }
  }

  lemma SubmitAddsOne(t: Table, k: Lease)
    ensures Running(t) <= Running(After(t, Submitted(k))) && |Running(After(t, Submitted(k)))| <= |Running(t)| + 1
  {
    SubsetCount(Running(After(t, Submitted(k))), Running(t) + {k});
  }
}
