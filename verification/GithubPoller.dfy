/**
  The GitHub poller: dictionaries updated in place on a copy of the project's state,
  which replaces the original only when the tick is saved.
*/
module GithubPoller {
  import opened Basics
  import opened DispatchOutbox
  import opened GithubBoard

  class ProjectState {
    const project: nat
    var bootstrapped: bool
    var observations: map<ItemId, Observation>
    var outbox: Outbox<Generation>
    var work: seq<Work<Generation>>

    ghost function Polled(): Poll
      reads this, outbox
    {
      Poll(bootstrapped, observations, outbox.entries)
    }

    ghost function Contents(): Board
      reads this, outbox
    {
      Board(Polled(), work)
    }

    constructor (project: nat)
      ensures this.project == project && fresh(outbox) && Contents() == EMPTY
    {
      this.project := project;
      bootstrapped, observations, work := false, map[], [];
      outbox := new Outbox<Generation>(map[]);
    }

    constructor Copy(other: ProjectState)
      ensures project == other.project && fresh(outbox) && Contents() == other.Contents()
    {
      project := other.project;
      bootstrapped, observations, work := other.bootstrapped, other.observations, other.work;
      outbox := new Outbox<Generation>(other.outbox.entries);
    }

    method PollGithubStatus(items: seq<Item>, enabled: Option<set<string>>, now: real) returns (present: set<ItemId>)
      modifies this`observations, outbox
      ensures present == Ids(items) && outbox == old(outbox)
      ensures Polled() == ObservedAll(old(Polled()), Config(project, enabled), items, now)
    {
      ghost var start := Polled();
      ghost var config := Config(project, enabled);
      present := {};
      for n := 0 to |items|
        invariant outbox == old(outbox) && bootstrapped == old(bootstrapped)
        invariant present == Ids(items[..n])
        invariant Polled() == ObservedAll(start, config, items[..n], now)
      {
        var item := items[n];
        assert items[..n + 1] == items[..n] + [item];
        IdsGrow(items[..n], item);
        ghost var before := Polled();
        present := present + {item.id};
        var generation := GenerationOf(project, item);
        var record := Observation(Some(generation), item.status);
        if !bootstrapped || item.id !in observations {
          observations := observations[item.id := record];
        } else if observations[item.id].generation != Some(generation) {
          var mapped := DispatchInto(item.status);
          var triggerEnabled := mapped.Some? && (enabled == None || mapped.value in enabled.value);
          if triggerEnabled && DispatchFrom(observations[item.id].status) {
            outbox.Queue(generation, Entry(item.id, mapped.value, false, now));
          }
          observations := observations[item.id := record];
        }
        assert Polled() == Observed(before, config, item, now);
      }
      assert items[..|items|] == items;
    }

    method PruneRecovery(present: set<ItemId>, answers: seq<(ItemId, Answer)>)
      modifies this`observations
      ensures observations == RecoveredAll(old(observations), present, answers)
    {
      ghost var start := observations;
      for n := 0 to |answers|
        invariant observations == RecoveredAll(start, present, answers[..n])
      {
        assert answers[..n + 1][..n] == answers[..n];
        var id, answer := answers[n].0, answers[n].1;
        if id in present || id !in observations {
          continue;
        }
        match answer
        case NoAnswer =>
        case Closed => observations := observations - {id};
        case Readded(added, status) =>
          observations := observations - {id};
          observations := observations[added := Observation(None, Some(status))];
      }
      assert answers[..|answers|] == answers;
    }

    /** Each queued command starts or resumes a conversation. */
    method Assemble(fires: seq<Generation>)
      requires forall i :: 0 <= i < |fires| ==> fires[i] in outbox.entries
      modifies this`work
      ensures work == old(work) + WorkOf(outbox.entries, fires)
    {
      for n := 0 to |fires|
        invariant work == old(work) + WorkOf(outbox.entries, fires)[..n]
      {
        var entry := outbox.entries[fires[n]];
        work := work + [Work(fires[n], entry.item, entry.trigger)];
      }
    }
  }

  lemma IdsGrow(items: seq<Item>, item: Item)
    ensures Ids(items + [item]) == Ids(items) + {item.id}
  {
    var more := items + [item];
    forall x ensures x in Ids(more) <==> x in Ids(items) + {item.id} {
      if x in Ids(items) {
        var i :| 0 <= i < |items| && items[i].id == x;
        assert more[i].id == x;
      }
      if x == item.id { assert more[|items|].id == x; }
    }
  }

  /** One poll of one project, fetched on a snapshot and committed on a copy. */
  method Cycle(state: ProjectState, tick: Tick) returns (next: ProjectState)
    ensures next.project == state.project
    ensures Ticks(state.Contents(), state.project, tick, next.Contents())
    ensures !tick.saved ==> next == state
  {
    var staged := new ProjectState.Copy(state);
    var present := staged.PollGithubStatus(tick.items, tick.enabled, tick.now);
    if staged.bootstrapped {
      staged.PruneRecovery(present, tick.answers);
    }
    ghost var q := staged.Polled();
    assert q == Fetched(state.Contents().poll, state.project, tick);
    var fires := staged.outbox.DispatchFires();
    staged.Assemble(fires);
    staged.outbox.MarkDispatched(fires);
    staged.bootstrapped := true;
    if !tick.saved {
      return state;
    }
    next := staged;
    assert Enumerates(fires, Undispatched(q.outbox)) && Trimmed(Marked(q.outbox, fires), staged.outbox.entries);
  }
}
