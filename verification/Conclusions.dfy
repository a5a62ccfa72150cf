/**
  What the publisher records is true: over any run, a conversation that reads as parked or
  concluded has a current job that succeeded, one that reads as failed has a finished one,
  and every merge request on record was claimed by an implementation run that succeeded.
*/
module Conclusions {
  import opened Tables
  import opened Leases
  import opened Intake
  import opened Cleanup
  import opened StoreRuns
  import opened Hosted
  import opened NotesOnce
  import opened HostedRuns

  predicate Concludes(status: ConvStatus) {
    status == Parked || status == Concluded || status == ConcludedFailed
  }

  predicate StatusTrue(d: Db, conv: Conv) {
    Concludes(conv.status) ==>
      && conv.current.Some? && conv.current.value in d.jobs
      && var state := d.jobs[conv.current.value].state;
      if conv.status == ConcludedFailed then Terminal(state) else state == Succeeded
  }

  predicate MrTrue(d: Db, k: MrKey) {
    && k.job in d.jobs && d.jobs[k.job].state == Succeeded && d.jobs[k.job].envelope.trigger == Ready
    && k.project == d.jobs[k.job].conv.project
  }

  predicate RecordsTrue(d: Db) {
    && (forall c :: c in d.convs ==> StatusTrue(d, d.convs[c]))
    && (forall k :: k in d.mrs ==> MrTrue(d, k))
  }

  /** No conversation concludes by this change, and no merge request is added by it. */
  predicate ConcludesNone(d: Db, e: Db) {
    && (forall c :: c in e.convs && Concludes(e.convs[c].status) ==>
          c in d.convs && e.convs[c].status == d.convs[c].status && e.convs[c].current == d.convs[c].current)
    && (forall k :: k in e.mrs ==> k in d.mrs)
  }

  lemma ConcludingNoneKeepsTrue(d: Db, e: Db)
    requires RecordsTrue(d) && ConcludesNone(d, e) && JobsAdvance(d.jobs, e.jobs)
    ensures RecordsTrue(e)
  {
    forall c | c in e.convs && Concludes(e.convs[c].status) ensures StatusTrue(e, e.convs[c]) {
      assert StatusTrue(d, d.convs[c]);
      assert JobAdvances(d.jobs[d.convs[c].current.value], e.jobs[d.convs[c].current.value]);
    }
    forall k | k in e.mrs ensures MrTrue(e, k) {
      assert MrTrue(d, k) && JobAdvances(d.jobs[k.job], e.jobs[k.job]);
    }
  }

  // ---- nobody but the publisher concludes

  lemma StartConcludesNone(d: Db, ws: WorkspaceId, lease: Lease, refs: Refs, now: Time)
    ensures ConcludesNone(d, Started(d, ws, lease, refs, now).Commit(d))
  {
  }

  lemma CompleteConcludesNone(d: Db, ws: WorkspaceId, lease: Lease, done: Completion, now: Time)
    ensures ConcludesNone(d, Completed(d, ws, lease, done, now).Commit(d))
  {
  }

  lemma FailConcludesNone(d: Db, ws: WorkspaceId, lease: Lease, error: Failure, now: Time)
    ensures ConcludesNone(d, FailedUnstarted(d, ws, lease, error, now).Commit(d))
  {
  }

  lemma ReapConcludesNone(d: Db, now: Time, order: seq<JobId>, e: Db)
    requires Reaps(d, now, order, e)
    ensures ConcludesNone(d, e)
  {
  }

  lemma ClaimConcludesNone(d: Db, ws: WorkspaceId, limit: int, seconds: real, now: Time, e: Db)
    requires ClaimedTo(d, ws, limit, seconds, now, e)
    ensures ConcludesNone(d, e)
  {
    var rows, outcome :| Claims(d, ws, limit, seconds, now, rows, outcome) && e == outcome.Commit(d);
    GrantConcludesNone(d, ws, limit, seconds, now, rows, outcome);
  }

  lemma GrantConcludesNone(d: Db, ws: WorkspaceId, limit: int, seconds: real, now: Time, rows: seq<JobId>,
                           outcome: Outcome<seq<Lease>>)
    requires Claims(d, ws, limit, seconds, now, rows, outcome)
    ensures ConcludesNone(d, outcome.Commit(d))
  {
    if outcome.Done? { assert outcome.db.convs == d.convs && outcome.db.mrs == d.mrs; }
  }

  lemma LeaseStepsConcludeNone(d: Db, step: Step, now: Time, e: Db)
    requires Next(d, step, now, e) && LeaseStep(step)
    ensures ConcludesNone(d, e)
  {
    match step
    case Claim(ws, limit, seconds) => ClaimConcludesNone(d, ws, limit, seconds, now, e);
    case Start(ws, lease, refs) => StartConcludesNone(d, ws, lease, refs, now);
    case Beat(_, _, _) =>
    case Complete(ws, lease, done) => CompleteConcludesNone(d, ws, lease, done, now);
    case FailEarly(ws, lease, error) => FailConcludesNone(d, ws, lease, error, now);
    case Reap =>
      var order :| Reaps(d, now, order, e);
      ReapConcludesNone(d, now, order, e);
  }

  lemma HandOutConcludesNone(d: Db, ws: WorkspaceId, rows: seq<RunId>, freed: map<RunId, Action>, until: Time, e: Db,
                             claimed: seq<RunId>)
    requires ClaimedFrom(d, ws, rows, freed, until, e, claimed)
    ensures ConcludesNone(d, e)
  {
    assert e.mrs == d.mrs;
    forall c | c in e.convs && Concludes(e.convs[c].status) ensures c in d.convs && e.convs[c] == d.convs[c] {}
  }

  lemma FinishConcludesNone(d: Db, ws: WorkspaceId, run: RunId, generation: nat, success: bool, now: Time)
    ensures ConcludesNone(d, ActionFinished(d, ws, run, generation, success, now).Commit(d))
  {
  }

  lemma ClaimActionsConcludesNone(d: Db, ws: WorkspaceId, limit: int, seconds: real, now: Time, e: Db,
                                  claimed: seq<RunId>)
    requires ActionsClaimed(d, ws, limit, seconds, now, e, claimed)
    ensures ConcludesNone(d, e)
  {
    var freed := FreedActions(d.actions, ws, now);
    var rows :| HeadOfActions(freed, ws, rows, AtMostFive(limit))
        && ClaimedFrom(d, ws, rows, freed, now + seconds, e, claimed);
    HandOutConcludesNone(d, ws, rows, freed, now + seconds, e, claimed);
  }

  lemma CleanupConcludesNone(d: Db, step: Step, now: Time, e: Db)
    requires Next(d, step, now, e) && (step.ClaimActions? || step.FinishAction? || step.Schedule?)
    ensures ConcludesNone(d, e)
  {
    if step.ClaimActions? {
      var claimed :| ActionsClaimed(d, step.ws, step.limit, step.seconds, now, e, claimed);
      ClaimActionsConcludesNone(d, step.ws, step.limit, step.seconds, now, e, claimed);
    } else if step.FinishAction? {
      FinishConcludesNone(d, step.ws, step.run, step.generation, step.success, now);
    } else {
      assert e.convs == d.convs && e.mrs == d.mrs;
    }
  }

  lemma {:induction false} RefreshKeepsKeys(mrs: map<MrKey, Mr>, seen: seq<Observation>)
    ensures RefreshedAll(mrs, seen).Keys == mrs.Keys
    decreases |seen|
  {
    if seen != [] { RefreshKeepsKeys(mrs, seen[..|seen| - 1]); }
  }

  lemma RefreshConcludesNone(d: Db, seen: seq<Observation>)
    ensures ConcludesNone(d, d.(mrs := RefreshedAll(d.mrs, seen)))
  {
    RefreshKeepsKeys(d.mrs, seen);
    forall k | k in RefreshedAll(d.mrs, seen) ensures k in d.mrs { assert k in RefreshedAll(d.mrs, seen).Keys; }
  }

  lemma ClearConcludesNone(d: Db, conv: ConvKey, count: nat)
    ensures ConcludesNone(d, PendingCleared(d, conv, count))
  {
  }

  lemma BookkeepingConcludesNone(d: Db, step: Step, now: Time, e: Db)
    requires Next(d, step, now, e) && (step.Clear? || step.Skip? || step.Adopt? || step.Refresh?)
    ensures ConcludesNone(d, e)
  {
    if step.Refresh? {
      RefreshConcludesNone(d, step.seen);
    } else if step.Clear? {
      ClearConcludesNone(d, step.conv, step.count);
    } else {
      assert e.convs == d.convs && e.mrs == d.mrs;
    }
  }

  lemma EnvConcludesNone(d: Db, step: Step, now: Time, e: Db)
    requires Next(d, step, now, e) && EnvStep(step)
    ensures ConcludesNone(d, e)
  {
    if LeaseStep(step) {
      LeaseStepsConcludeNone(d, step, now, e);
    } else if step.ClaimActions? || step.FinishAction? || step.Schedule? {
      CleanupConcludesNone(d, step, now, e);
    } else {
      BookkeepingConcludesNone(d, step, now, e);
    }
  }

  lemma PollerConcludesNone(s: Sys, act: Act, now: Time, t: Sys)
    requires PollerNext(s, act, now, t)
    ensures ConcludesNone(s.db, t.db)
  {
  }

  // ---- the publisher concludes truly

  lemma OthersConcludeNone(s: Sys, act: Act, now: Time, t: Sys)
    requires PublisherNext(s, act, now, t) && !act.RecordOutcome?
    ensures ConcludesNone(s.db, t.db)
  {
  }

  lemma RecordingIsTrue(s: Sys, now: Time, t: Sys)
    requires Tidy(s) && RecordsTrue(s.db) && PublisherNext(s, RecordOutcome, now, t)
    ensures RecordsTrue(t.db)
  {
    var job, report := s.publisher.stage.job, s.publisher.stage.report;
    assert StageOk(s.db, s.notes, s.labels, s.publisher.items[0], s.publisher.stage);
    var d, e := s.db, t.db;
    assert e.jobs == d.jobs && Truthful(d.jobs[job], report);
    forall c | c in e.convs ensures StatusTrue(e, e.convs[c]) { assert StatusTrue(d, d.convs[c]); }
    forall k | k in e.mrs ensures MrTrue(e, k) { if k in d.mrs { assert MrTrue(d, k); } }
  }

  lemma StepKeepsTrue(s: Sys, act: Act, now: Time, t: Sys)
    requires Good(s) && RecordsTrue(s.db) && SysNext(s, act, now, t)
    ensures RecordsTrue(t.db)
  {
    if act.RecordOutcome? {
      RecordingIsTrue(s, now, t);
    } else {
      StepKeepsTables(s, act, now, t);
      if act.Env? {
        EnvConcludesNone(s.db, act.step, now, t.db);
      } else if act.HumanNote? {
      } else if PollerAct(act) {
        PollerConcludesNone(s, act, now, t);
      } else {
        OthersConcludeNone(s, act, now, t);
      }
      ConcludingNoneKeepsTrue(s.db, t.db);
    }
  }

  lemma {:induction false} ReachableIsTrue(states: seq<Sys>, acts: seq<Act>, times: seq<Time>, n: nat)
    requires IsSysRun(states, acts, times) && n <= |acts|
    ensures RecordsTrue(states[n].db)
  {
    if n > 0 {
      ReachableIsTrue(states, acts, times, n - 1);
      ReachableIsGood(states, acts, times, n - 1);
      assert ActAt(states, acts, times, n - 1);
      StepKeepsTrue(states[n - 1], acts[n - 1], times[n - 1], states[n]);
    }
  }

  /** Over any run of the whole system, what is recorded of a conversation's outcome is true
      of its current job, and so is every merge request of the job that it names. */
  lemma RecordedOutcomesAreTrue(states: seq<Sys>, acts: seq<Act>, times: seq<Time>, n: nat, c: ConvKey)
    requires IsSysRun(states, acts, times) && n <= |acts|
    requires c in states[n].db.convs && Concludes(states[n].db.convs[c].status)
    ensures var d := states[n].db;
            && d.convs[c].current.Some? && d.convs[c].current.value in d.jobs
            && var state := d.jobs[d.convs[c].current.value].state;
            if d.convs[c].status == ConcludedFailed then state == Succeeded || state == Failed else state == Succeeded
    ensures forall k :: k in states[n].db.mrs ==> MrTrue(states[n].db, k)
  {
    ReachableIsTrue(states, acts, times, n);
    ReachableIsGood(states, acts, times, n);
    assert StatusTrue(states[n].db, states[n].db.convs[c]);
  }
}
