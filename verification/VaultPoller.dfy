/**
  The vault poller: dictionaries updated in place on a copy of the project's state,
  which replaces the original only when the tick is saved.
*/
module VaultPoller {
  import opened Basics
  import opened DispatchOutbox
  import opened VaultBoard

  /** The first target that names an unfinished task. */
  method FirstBlocker(item: Item, index: Index) returns (blocker: Option<string>)
    ensures blocker.Some? <==> Blocked(item, index)
    ensures blocker.Some? ==> exists k :: 0 <= k < |item.blockedBy| && item.blockedBy[k] == blocker.value
                                          && Unresolved(index, item.blockedBy[k])
                                          && forall m :: 0 <= m < k ==> !Unresolved(index, item.blockedBy[m])
  {
    for k := 0 to |item.blockedBy|
      invariant forall m :: 0 <= m < k ==> !Unresolved(index, item.blockedBy[m])
    {
      var target := item.blockedBy[k];
      var status := Lookup(index, target);
      if !Truthy(status) { status := Lookup(index, Bare(target)); }
      if !Truthy(status) { status := Lookup(index, Stem(Bare(target))); }
      if status.Some? && !Done(status.value) {
        assert Unresolved(index, item.blockedBy[k]);
        return Some(target);
      }
    }
    blocker := None;
  }

  method TaskIndex(items: seq<Item>) returns (index: Index)
    ensures index == IndexOf(items)
  {
    index := map[];
    for n := 0 to |items|
      invariant index == IndexOf(items[..n])
    {
      var it := items[n];
      assert items[..n + 1][..n] == items[..n];
      index := index[it.path := it.status];
      index := index[Bare(it.path) := it.status];
      index := index[Stem(Bare(it.path)) := it.status];
      index := index[it.title := it.status];
    }
    assert items[..|items|] == items;
  }

  class ProjectState {
    const project: nat
    var bootstrapped: bool
    var observations: map<ItemId, Observation>
    var outbox: Outbox<Generation>
    var work: seq<Work<Generation>>

    ghost function Polled(): Poll
      reads this, outbox
    {
      Poll(bootstrapped, observations, outbox.entries)
    }

    ghost function Contents(): Board
      reads this, outbox
    {
      Board(Polled(), work)
    }

    constructor (project: nat)
      ensures this.project == project && fresh(outbox) && Contents() == EMPTY
    {
      this.project := project;
      bootstrapped, observations, work := false, map[], [];
      outbox := new Outbox<Generation>(map[]);
    }

    constructor Copy(other: ProjectState)
      ensures project == other.project && fresh(outbox) && Contents() == other.Contents()
    {
      project := other.project;
      bootstrapped, observations, work := other.bootstrapped, other.observations, other.work;
      outbox := new Outbox<Generation>(other.outbox.entries);
    }

    /** One note, in the body of the poller's loop. */
    method PollNote(item: Item, enabled: Option<set<string>>, index: Index, now: real)
      modifies this`observations, outbox
      ensures Polled() == AfterItem(old(Polled()), Config(project, enabled, index), item, now)
    {
      var generation := GenerationOf(project, item);
      var record := Observation(generation, item.status, false);
      if !bootstrapped || item.id !in observations {
        observations := observations[item.id := record];
        return;
      }
      var prev := observations[item.id];
      var triggerEnabled := Enabled(item.status, enabled);
      var blocker := FirstBlocker(item, index);
      if prev.generation == generation {
        if prev.deferred && triggerEnabled && blocker == None {
          outbox.Queue(generation, Command(item, now));
          observations := observations[item.id := record];
        }
        return;
      }
      if triggerEnabled && prev.status != item.status {
        if blocker.Some? {
          record := record.(deferred := true);
        } else {
          outbox.Queue(generation, Command(item, now));
        }
      }
      observations := observations[item.id := record];
    }

    method PollVaultStatus(items: seq<Item>, enabled: Option<set<string>>, now: real)
      modifies this`observations, outbox
      ensures outbox == old(outbox)
      ensures Polled() == AfterItems(old(Polled()), Config(project, enabled, IndexOf(items)), items, now)
    {
      ghost var start := Polled();
      var index := TaskIndex(items);
      for n := 0 to |items|
        invariant outbox == old(outbox) && bootstrapped == old(bootstrapped)
        invariant Polled() == AfterItems(start, Config(project, enabled, index), items[..n], now)
      {
        assert items[..n + 1][..n] == items[..n];
        PollNote(items[n], enabled, index, now);
      }
      assert items[..|items|] == items;
    }

    /** Each queued command starts or resumes a conversation. */
    method Assemble(fires: seq<Generation>)
      requires forall i :: 0 <= i < |fires| ==> fires[i] in outbox.entries
      modifies this`work
      ensures work == old(work) + WorkOf(outbox.entries, fires)
    {
      for n := 0 to |fires|
        invariant work == old(work) + WorkOf(outbox.entries, fires)[..n]
      {
        var entry := outbox.entries[fires[n]];
        work := work + [Work(fires[n], entry.item, entry.trigger)];
      }
    }
  }

  /** One poll of one project, fetched on a snapshot and committed on a copy. */
  method Cycle(state: ProjectState, tick: Tick) returns (next: ProjectState)
    ensures next.project == state.project
    ensures Ticks(state.Contents(), state.project, tick, next.Contents())
    ensures !tick.saved ==> next == state
  {
    var staged := new ProjectState.Copy(state);
    staged.PollVaultStatus(tick.items, tick.enabled, tick.now);
    ghost var q := staged.Polled();
    assert q == AfterItems(state.Contents().poll, ConfigOf(state.project, tick), tick.items, tick.now);
    var fires := staged.outbox.DispatchFires();
    staged.Assemble(fires);
    staged.outbox.MarkDispatched(fires);
    staged.bootstrapped := true;
    if !tick.saved {
      return state;
    }
    next := staged;
    assert Enumerates(fires, Undispatched(q.outbox)) && Trimmed(Marked(q.outbox, fires), staged.outbox.entries);
  }
}
