/**
  RetentionManager: follow the merge requests of finished runs, and schedule the
  cleanup of a run a week after the last of its merge requests was merged.
*/
module RetentionManagers {
  import opened Basics
  import opened Tables
  import opened Cleanup
  import opened Store
  import StoreRuns

  /** `Schedules`, when only the runs in `seen` have been looked at. */
  ghost predicate Scheduling(d: Db, now: Time, seen: set<RunId>, retention: map<RunId, Retention>,
                             actions: map<RunId, Action>, scheduled: set<RunId>)
  {
    forall r :: Looked(d, now, seen, r, Row(retention, r), Row(actions, r), r in scheduled)
  }

  ghost predicate Looked(
      d: Db, now: Time, seen: set<RunId>, r: RunId, kept: Option<Retention>, action: Option<Action>, due: bool) {
    if r in seen then RunScheduled(d, now, r, kept, action, due) else RunSkipped(d, r, kept, action, due)
  }

  lemma SkipOne(d: Db, now: Time, seen: set<RunId>, r: RunId, retention: map<RunId, Retention>,
                actions: map<RunId, Action>, scheduled: set<RunId>)
    requires Scheduling(d, now, seen, retention, actions, scheduled) && r !in seen && !Mergeable(d, r)
    ensures Scheduling(d, now, seen + {r}, retention, actions, scheduled)
  {
    forall x ensures Looked(d, now, seen + {r}, x, Row(retention, x), Row(actions, x), x in scheduled) {
      assert Looked(d, now, seen, x, Row(retention, x), Row(actions, x), x in scheduled);
    }
  }

  /** The rows of one run before it is looked at. */
  lemma NotYet(d: Db, now: Time, seen: set<RunId>, r: RunId, retention: map<RunId, Retention>,
               actions: map<RunId, Action>, scheduled: set<RunId>)
    requires Scheduling(d, now, seen, retention, actions, scheduled) && r !in seen
    ensures Row(retention, r) == Row(d.retention, r) && Row(actions, r) == Row(d.actions, r) && r !in scheduled
  {
    assert Looked(d, now, seen, r, Row(retention, r), Row(actions, r), r in scheduled);
  }

  lemma ScheduleOne(
      d: Db, now: Time, seen: set<RunId>, r: RunId, retention: map<RunId, Retention>, actions: map<RunId, Action>,
      scheduled: set<RunId>, retention2: map<RunId, Retention>, actions2: map<RunId, Action>, scheduled2: set<RunId>)
    requires Scheduling(d, now, seen, retention, actions, scheduled) && r !in seen
    requires RunScheduled(d, now, r, Row(retention2, r), Row(actions2, r), r in scheduled2)
    requires forall x :: x != r ==>
      && Row(retention2, x) == Row(retention, x) && Row(actions2, x) == Row(actions, x)
      && (x in scheduled2 <==> x in scheduled)
    ensures Scheduling(d, now, seen + {r}, retention2, actions2, scheduled2)
  {
    forall x ensures Looked(d, now, seen + {r}, x, Row(retention2, x), Row(actions2, x), x in scheduled2) {
      assert Looked(d, now, seen, x, Row(retention, x), Row(actions, x), x in scheduled);
    }
  }

  lemma SchedulingEnds(
      d: Db, now: Time, retention: map<RunId, Retention>, actions: map<RunId, Action>, scheduled: set<RunId>)
    requires Scheduling(d, now, d.runs.Keys, retention, actions, scheduled)
    ensures Schedules(d, now, d.(retention := retention, actions := actions), scheduled)
  {
    forall r ensures RunScheduled(d, now, r, Row(retention, r), Row(actions, r), r in scheduled) {
      assert Looked(d, now, d.runs.Keys, r, Row(retention, r), Row(actions, r), r in scheduled);
    }
  }

  class RetentionManager {
    const store: ControllerStore

    constructor (store: ControllerStore)
      ensures this.store == store
    {
      this.store := store;
    }

    /** `seen` is what the forge said of each recorded merge request that is not merged. */
    method RefreshMergeRequests(seen: seq<Observation>)
      modifies store`mrs
      ensures StoreRuns.Next(old(store.Contents()), StoreRuns.Refresh(seen), 0.0, store.Contents())
      ensures store.Contents() == old(store.Contents()).(mrs := RefreshedAll(old(store.mrs), seen))
    {
      ghost var before := store.Contents();
      for n := 0 to |seen|
        invariant store.Contents() == before.(mrs := RefreshedAll(before.mrs, seen[..n]))
      {
        assert seen[..n + 1][..n] == seen[..n];
        var o := seen[n];
        store.mrs := map k | k in store.mrs ::
          if k.project == o.project && k.iid == o.iid then Mr(o.state, o.mergedAt) else store.mrs[k];
      }
      assert seen[..|seen|] == seen;
    }

    /** The latest of the merge times. */
    method NewestMergeOf(r: RunId) returns (newest: Time)
      requires Mergeable(store.Contents(), r)
      ensures NewestMerge(store.Contents(), r, newest)
    {
      var keys := MrsOf(store.mrs, store.runs[r].job, r);
      var rest := keys;
      var k :| k in rest;
      newest := store.mrs[k].mergedAt.value;
      rest := rest - {k};
      while rest != {}
        invariant rest <= keys
        invariant exists m :: m in keys && store.mrs[m].mergedAt == Some(newest)
        invariant forall m :: m in keys && m !in rest ==> store.mrs[m].mergedAt.value <= newest
        decreases rest
      {
        var m :| m in rest;
        rest := rest - {m};
        if store.mrs[m].mergedAt.value > newest {
          newest := store.mrs[m].mergedAt.value;
        }
      }
    }

    /** One selected run, in the body of the scheduling loop. */
    method ScheduleRun(r: RunId, now: Time, ghost d: Db, ghost seen: set<RunId>, ghost scheduled: set<RunId>)
      returns (inserted: bool)
      requires store.Contents() == d.(retention := store.retention, actions := store.actions)
      requires r in store.runs && r !in seen && Scheduling(d, now, seen, store.retention, store.actions, scheduled)
      modifies store`retention, store`actions
      ensures store.Contents() == d.(retention := store.retention, actions := store.actions)
      ensures r !in scheduled
      ensures Scheduling(
                d, now, seen + {r}, store.retention, store.actions, if inserted then scheduled + {r} else scheduled)
    {
      inserted := false;
      NotYet(d, now, seen, r, store.retention, store.actions, scheduled);
      if !Mergeable(store.Contents(), r) {
        SkipOne(d, now, seen, r, store.retention, store.actions, scheduled);
        return;
      }
      var newest := NewestMergeOf(r);
      assert NewestMerge(d, r, newest);
      ghost var retention, actions := store.retention, store.actions;
      var eligibleAfter := newest + MERGE_RETENTION_SECONDS;
      var compacted := if r in store.retention then store.retention[r].compactedAt else None;
      store.retention := store.retention[r := Retention(eligibleAfter, compacted)];
      if eligibleAfter <= now && r !in store.actions {
        var job := store.runs[r].job;
        store.actions := store.actions[r := Action(store.jobs[job].ws, job, ActPending, 0, None, now)];
        inserted := true;
      }
      assert eligibleAfter - MERGE_RETENTION_SECONDS == newest;
      ScheduleOne(d, now, seen, r, retention, actions, scheduled,
                  store.retention, store.actions, if inserted then scheduled + {r} else scheduled);
    }

    method ScheduleDue(now: Time) returns (count: nat)
      modifies store`retention, store`actions
      ensures StoreRuns.Next(old(store.Contents()), StoreRuns.Schedule, now, store.Contents())
      ensures exists scheduled ::
                && Schedules(old(store.Contents()), now, store.Contents(), scheduled)
                && count == |scheduled|
    {
      ghost var d := store.Contents();
      ghost var scheduled: set<RunId> := {};
      ghost var seen: set<RunId> := {};
      count := 0;
      var rest := store.runs.Keys;
      while rest != {}
        invariant rest <= d.runs.Keys && seen == d.runs.Keys - rest
        invariant store.Contents() == d.(retention := store.retention, actions := store.actions)
        invariant Scheduling(d, now, seen, store.retention, store.actions, scheduled)
        invariant count == |scheduled|
        decreases rest
      {
        var r :| r in rest;
        rest := rest - {r};
        var inserted := ScheduleRun(r, now, d, seen, scheduled);
        seen := seen + {r};
        if inserted {
          count := count + 1;
          scheduled := scheduled + {r};
        }
      }
      assert seen == d.runs.Keys;
      SchedulingEnds(d, now, store.retention, store.actions, scheduled);
    }
  }
}
