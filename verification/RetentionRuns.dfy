/**
  The life of a cleanup over whole runs of the store: scheduled once, a week after the
  last merge; handed out only while its job is finished and current; compacted once,
  under its newest lease.
*/
module RetentionRuns {
  import opened Basics
  import opened Tables
  import opened Leases
  import opened Cleanup
  import opened StoreRuns

  predicate ActionAdvances(a: Action, b: Action) {
    && b.ws == a.ws && b.job == a.job && b.createdAt == a.createdAt
    && a.generation <= b.generation
    && (a.state == ActDone || a.state == ActFailed ==> b == a)
  }

  ghost predicate ActionsAdvance(d: Db, e: Db) {
    && (forall r :: r in d.actions ==> r in e.actions && ActionAdvances(d.actions[r], e.actions[r]))
    && (forall r :: r in d.retention ==> r in e.retention)
    && (forall r :: r in d.retention && d.retention[r].compactedAt.Some? ==>
          r in e.retention && e.retention[r].compactedAt == d.retention[r].compactedAt)
  }

  function Compacted(d: Db, r: RunId): Option<Time> {
    if r in d.retention then d.retention[r].compactedAt else None
  }

  /** Steps that leave the tables of cleanup alone. */
  predicate Elsewhere(step: Step) {
    !step.Schedule? && !step.ClaimActions? && !step.FinishAction?
  }

  lemma LeaseElsewhere(d: Db, step: Step, now: Time, e: Db)
    requires Next(d, step, now, e) && LeaseStep(step)
    ensures e.actions == d.actions && e.retention == d.retention
  {
    match step
    case Claim(ws, limit, seconds) =>
      var rows, outcome :| Claims(d, ws, limit, seconds, now, rows, outcome) && e == outcome.Commit(d);
    case Start(_, _, _) =>
    case Beat(_, _, _) =>
    case Complete(_, _, _) =>
    case FailEarly(_, _, _) =>
    case Reap =>
  }

  lemma IntakeElsewhere(d: Db, step: Step, now: Time, e: Db)
    requires Next(d, step, now, e)
    requires step.Upsert? || step.Dispatch? || step.Queue? || step.Clear? || step.Reject? || step.Skip? || step.Adopt?
    ensures e.actions == d.actions && e.retention == d.retention
  {
  }

  lemma DeliveryElsewhere(d: Db, step: Step, now: Time, e: Db)
    requires Next(d, step, now, e)
    requires step.ClaimOutbox? || step.Deliver? || step.Retry? || step.Record? || step.Refresh?
    ensures e.actions == d.actions && e.retention == d.retention
  {
  }

  lemma StepElsewhere(d: Db, step: Step, now: Time, e: Db)
    requires Next(d, step, now, e) && Elsewhere(step)
    ensures e.actions == d.actions && e.retention == d.retention
  {
    if LeaseStep(step) {
      LeaseElsewhere(d, step, now, e);
    } else if step.ClaimOutbox? || step.Deliver? || step.Retry? || step.Record? || step.Refresh? {
      DeliveryElsewhere(d, step, now, e);
    } else {
      IntakeElsewhere(d, step, now, e);
    }
  }

  lemma ScheduleAdvances(d: Db, now: Time, e: Db, scheduled: set<RunId>)
    requires Schedules(d, now, e, scheduled)
    ensures ActionsAdvance(d, e)
    ensures forall r :: r in d.actions ==> r in e.actions && e.actions[r] == d.actions[r]
    ensures forall r :: Compacted(e, r) == Compacted(d, r)
  {
    forall r | r in d.actions ensures r in e.actions && e.actions[r] == d.actions[r] {
      assert RunScheduled(d, now, r, Row(e.retention, r), Row(e.actions, r), r in scheduled);
    }
    forall r ensures Compacted(e, r) == Compacted(d, r) && (r in d.retention ==> r in e.retention) {
      assert RunScheduled(d, now, r, Row(e.retention, r), Row(e.actions, r), r in scheduled);
    }
  }

  lemma ClaimAdvances(d: Db, ws: WorkspaceId, limit: int, seconds: real, now: Time, e: Db, claimed: seq<RunId>)
    requires ActionsClaimed(d, ws, limit, seconds, now, e, claimed)
    ensures ActionsAdvance(d, e)
    ensures forall r :: r in claimed ==> r in d.actions && HandsOut(d, ws, d.actions[r])
    ensures forall r :: r in d.actions && r in e.actions && r !in claimed ==>
              e.actions[r].generation == d.actions[r].generation
  {
    var freed := FreedActions(d.actions, ws, now);
    var rows :| HeadOfActions(freed, ws, rows, AtMostFive(limit))
        && ClaimedFrom(d, ws, rows, freed, now + seconds, e, claimed);
    forall r | r in claimed ensures r in d.actions && HandsOut(d, ws, d.actions[r]) && freed[r].state == ActPending {
      assert HandsOut(d, ws, freed[r]);
      assert r in PendingActions(freed, ws);
    }
  }

  lemma FinishAdvances(d: Db, ws: WorkspaceId, run: RunId, generation: nat, success: bool, now: Time)
    ensures ActionsAdvance(d, ActionFinished(d, ws, run, generation, success, now).Commit(d))
  {
  }

  lemma NextAdvancesActions(d: Db, step: Step, now: Time, e: Db)
    requires Next(d, step, now, e)
    ensures ActionsAdvance(d, e)
  {
    if step.Schedule? {
      var scheduled :| Schedules(d, now, e, scheduled);
      ScheduleAdvances(d, now, e, scheduled);
    } else if step.ClaimActions? {
      var claimed :| ActionsClaimed(d, step.ws, step.limit, step.seconds, now, e, claimed);
      ClaimAdvances(d, step.ws, step.limit, step.seconds, now, e, claimed);
    } else if step.FinishAction? {
      FinishAdvances(d, step.ws, step.run, step.generation, step.success, now);
    } else {
      StepElsewhere(d, step, now, e);
    }
  }

  lemma {:induction false} CleanupsOnlyAdvance(states: seq<Db>, steps: seq<Step>, times: seq<Time>, m: nat, n: nat)
    requires IsRun(states, steps, times) && m <= n <= |steps|
    ensures ActionsAdvance(states[m], states[n])
    decreases n - m
  {
    if m < n {
      CleanupsOnlyAdvance(states, steps, times, m, n - 1);
      assert StepAt(states, steps, times, n - 1);
      NextAdvancesActions(states[n - 1], steps[n - 1], times[n - 1], states[n]);
      AdvanceIsTransitive(states[m], states[n - 1], states[n]);
    }
  }

  lemma AdvanceIsTransitive(a: Db, b: Db, c: Db)
    requires ActionsAdvance(a, b) && ActionsAdvance(b, c)
    ensures ActionsAdvance(a, c)
  {
    forall r | r in a.actions ensures r in c.actions && ActionAdvances(a.actions[r], c.actions[r]) {
      assert ActionAdvances(a.actions[r], b.actions[r]) && ActionAdvances(b.actions[r], c.actions[r]);
    }
  }

  // ---- when a cleanup appears

  predicate Appears(d: Db, e: Db, r: RunId) {
    r !in d.actions && r in e.actions
  }

  lemma OnlyScheduleInserts(d: Db, step: Step, now: Time, e: Db)
    requires Next(d, step, now, e) && !step.Schedule?
    ensures forall r :: r in e.actions <==> r in d.actions
  {
    if step.ClaimActions? {
      var claimed :| ActionsClaimed(d, step.ws, step.limit, step.seconds, now, e, claimed);
      ClaimKeepsKeys(d, step.ws, step.limit, step.seconds, now, e, claimed);
    } else if Elsewhere(step) {
      StepElsewhere(d, step, now, e);
    }
  }

  lemma ClaimKeepsKeys(d: Db, ws: WorkspaceId, limit: int, seconds: real, now: Time, e: Db, claimed: seq<RunId>)
    requires ActionsClaimed(d, ws, limit, seconds, now, e, claimed)
    ensures forall r :: r in e.actions <==> r in d.actions
  {
  }

  /** A cleanup appears only when every merge request recorded for its run is merged, there
      is at least one, and the newest was merged at least seven days before. */
  lemma AppearsOnlyWhenDue(d: Db, step: Step, now: Time, e: Db, r: RunId)
    requires Next(d, step, now, e) && Appears(d, e, r)
    ensures step.Schedule? && Mergeable(d, r)
    ensures exists at :: NewestMerge(d, r, at) && at + MERGE_RETENTION_SECONDS <= now
  {
    if step.Schedule? {
      var scheduled :| Schedules(d, now, e, scheduled);
      assert RunScheduled(d, now, r, Row(e.retention, r), Row(e.actions, r), r in scheduled);
      var at := e.retention[r].eligibleAfter - MERGE_RETENTION_SECONDS;
      assert NewestMerge(d, r, at);
    } else {
      OnlyScheduleInserts(d, step, now, e);
    }
  }

  /** No run's cleanup is scheduled twice. */
  lemma ScheduledAtMostOnce(states: seq<Db>, steps: seq<Step>, times: seq<Time>, m: nat, n: nat, r: RunId)
    requires IsRun(states, steps, times) && m < |steps| && n < |steps|
    requires Appears(states[m], states[m + 1], r) && Appears(states[n], states[n + 1], r)
    ensures m == n
  {
    if m < n { CleanupsOnlyAdvance(states, steps, times, m + 1, n); }
    if n < m { CleanupsOnlyAdvance(states, steps, times, n + 1, m); }
  }

  // ---- when it is handed out

  lemma OnlyClaimsRenew(d: Db, step: Step, now: Time, e: Db)
    requires Next(d, step, now, e) && !step.ClaimActions?
    ensures forall r :: r in d.actions ==> r in e.actions && e.actions[r].generation == d.actions[r].generation
  {
    if step.Schedule? {
      var scheduled :| Schedules(d, now, e, scheduled);
      ScheduleAdvances(d, now, e, scheduled);
    } else if step.FinishAction? {
      forall r | r in d.actions ensures r in e.actions && e.actions[r].generation == d.actions[r].generation {
        FinishKeepsGeneration(d, step.ws, step.run, step.generation, step.success, now, r);
      }
    } else {
      StepElsewhere(d, step, now, e);
    }
  }

  /** A cleanup is handed out only while its job has finished and is still current. */
  lemma HandedOutOnlyWhileCurrent(d: Db, step: Step, now: Time, e: Db, r: RunId)
    requires Next(d, step, now, e) && r in d.actions && r in e.actions
    requires e.actions[r].generation != d.actions[r].generation
    ensures step.ClaimActions? && HandsOut(d, step.ws, d.actions[r])
  {
    if step.ClaimActions? {
      var claimed :| ActionsClaimed(d, step.ws, step.limit, step.seconds, now, e, claimed);
      ClaimAdvances(d, step.ws, step.limit, step.seconds, now, e, claimed);
    } else {
      OnlyClaimsRenew(d, step, now, e);
    }
  }

  lemma FinishKeepsGeneration(d: Db, ws: WorkspaceId, run: RunId, generation: nat, success: bool, now: Time, r: RunId)
    requires r in d.actions
    ensures var e := ActionFinished(d, ws, run, generation, success, now).Commit(d);
            r in e.actions && e.actions[r].generation == d.actions[r].generation
  {
  }

  // ---- when a run is compacted

  predicate Compacts(d: Db, e: Db, r: RunId) {
    Compacted(e, r).Some? && Compacted(d, r) == None
  }

  lemma OnlyFinishCompacts(d: Db, step: Step, now: Time, e: Db)
    requires Next(d, step, now, e) && !step.FinishAction?
    ensures forall r :: Compacted(e, r) == Compacted(d, r)
  {
    if step.Schedule? {
      var scheduled :| Schedules(d, now, e, scheduled);
      ScheduleAdvances(d, now, e, scheduled);
    } else if step.ClaimActions? {
      assert e.retention == d.retention;
    } else {
      StepElsewhere(d, step, now, e);
    }
  }

  /** A run is compacted only by the holder of its newest, unexpired cleanup lease. */
  lemma CompactedUnderNewestLease(d: Db, step: Step, now: Time, e: Db, r: RunId)
    requires Next(d, step, now, e) && Compacts(d, e, r)
    ensures step.FinishAction? && step.run == r && step.success && r in d.actions
    ensures d.actions[r].generation == step.generation && d.actions[r].state == ActLeased
    ensures d.actions[r].leaseUntil.Some? && d.actions[r].leaseUntil.value >= now
  {
    if !step.FinishAction? { OnlyFinishCompacts(d, step, now, e); }
  }

  lemma CompactedAtMostOnce(states: seq<Db>, steps: seq<Step>, times: seq<Time>, m: nat, n: nat, r: RunId)
    requires IsRun(states, steps, times) && m < |steps| && n < |steps|
    requires Compacts(states[m], states[m + 1], r) && Compacts(states[n], states[n + 1], r)
    ensures m == n
  {
    if m < n { CleanupsOnlyAdvance(states, steps, times, m + 1, n); }
    if n < m { CleanupsOnlyAdvance(states, steps, times, n + 1, m); }
  }

  /** Once a cleanup has been handed out again, finishing it under an earlier lease is refused for ever. */
  lemma OnlyTheNewestLeaseFinishes(states: seq<Db>, steps: seq<Step>, times: seq<Time>, m: nat, n: nat,
                                   ws: WorkspaceId, r: RunId, generation: nat, success: bool, now: Time)
    requires IsRun(states, steps, times) && m <= n <= |steps|
    requires r in states[m].actions && states[m].actions[r].generation > generation
    ensures ActionFinished(states[n], ws, r, generation, success, now) == Refused(StaleLease)
  {
    CleanupsOnlyAdvance(states, steps, times, m, n);
    assert ActionAdvances(states[m].actions[r], states[n].actions[r]);
  }
}
