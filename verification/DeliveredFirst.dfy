/**
  No conversation gets a successor job before its predecessor's outcome has been
  posted and recorded, unless a cleanup succeeds while the conversation's current job
  has finished and is not recorded.  That one transaction writes the conversation's
  status without looking at its current job, and opens it for dispatch.
*/
module DeliveredFirst {
  import opened Basics
  import opened Tables
  import opened Leases
  import opened LeaseInvariants
  import opened Intake
  import opened Cleanup
  import opened StoreRuns
  import opened Hosted
  import opened OneActiveJob

  /** The current job has finished and its outcome has not been recorded. */
  predicate Unpaid(d: Db, recorded: set<JobId>, c: ConvKey)
    requires c in d.convs
  {
    d.convs[c].current.Some? && d.convs[c].current.value in d.jobs
    && Terminal(d.jobs[d.convs[c].current.value].state) && d.convs[c].current.value !in recorded
  }

  /** No job can be created in the conversation. */
  predicate Shut(status: ConvStatus) {
    status == Finishing || status == CleanupFailed
  }

  /** A conversation that owes a delivery is shut. */
  predicate Owed(d: Db, recorded: set<JobId>) {
    forall c :: c in d.convs && Unpaid(d, recorded, c) ==> Shut(d.convs[c].status)
  }

  predicate RecordedOk(d: Db, recorded: set<JobId>) {
    && (forall j :: j in recorded ==> j in d.jobs && Terminal(d.jobs[j].state))
    && (forall c :: c in d.convs && d.convs[c].status == Concluded ==>
          d.convs[c].current.Some? && d.convs[c].current.value in recorded)
    && (forall r :: r in d.actions ==> d.actions[r].job in recorded)
  }

  predicate PollerPaid(d: Db, recorded: set<JobId>, poller: Poller) {
    poller.Placed? && poller.c.conv in d.convs && d.convs[poller.c.conv].current.Some? ==>
      d.convs[poller.c.conv].current.value in recorded
  }

  ghost predicate Paid(s: Sys) {
    && CurrentOk(s.db.jobs, s.db.convs) && PollerOk(s.db, s.poller)
    && Owed(s.db, s.recorded) && RecordedOk(s.db, s.recorded) && PollerPaid(s.db, s.recorded, s.poller)
  }

  // ---- conversations whose status and jobs do not matter here

  ghost predicate SameStatus(d: Db, e: Db) {
    && Quiet(d, e)
    && (forall c :: c in d.convs ==> e.convs[c].status == d.convs[c].status)
    && (forall j :: j in d.jobs ==> (Terminal(e.jobs[j].state) <==> Terminal(d.jobs[j].state)))
  }

  lemma SameStatusOwed(d: Db, e: Db, recorded: set<JobId>)
    requires Owed(d, recorded) && SameStatus(d, e)
    ensures Owed(e, recorded)
  {
    forall c | c in e.convs && Unpaid(e, recorded, c) ensures Shut(e.convs[c].status) {
      assert Unpaid(d, recorded, c) <==> Unpaid(e, recorded, c);
    }
  }

  // ---- the lease protocol

  lemma MarkedOwed(d: Db, e: Db, recorded: set<JobId>, done: set<JobId>)
    requires Owed(d, recorded) && RecordedOk(d, recorded) && CurrentOk(d.jobs, d.convs)
    requires e.convs == SetStatusOfCurrent(d.convs, done, Finishing) && e.actions == d.actions
    requires forall j :: j in e.jobs <==> j in d.jobs
    requires forall j :: j in done ==> j in d.jobs && !Terminal(d.jobs[j].state) && Terminal(e.jobs[j].state)
    requires forall j :: j in d.jobs && j !in done ==> (Terminal(e.jobs[j].state) <==> Terminal(d.jobs[j].state))
    ensures Owed(e, recorded) && RecordedOk(e, recorded)
  {
    forall c | c in e.convs && Unpaid(e, recorded, c) ensures Shut(e.convs[c].status) {
      assert c in d.convs && e.convs[c].current == d.convs[c].current;
      if d.convs[c].current.Some? && d.convs[c].current.value in done {
        assert d.convs[c].current.value !in recorded;
      } else {
        assert Unpaid(d, recorded, c) <==> Unpaid(e, recorded, c);
      }
    }
  }

  lemma StartedOwed(d: Db, recorded: set<JobId>, ws: WorkspaceId, lease: Lease, refs: Refs, now: Time)
    requires Owed(d, recorded) && RecordedOk(d, recorded)
    ensures var e := Started(d, ws, lease, refs, now).Commit(d); Owed(e, recorded) && RecordedOk(e, recorded)
  {
    var o := Started(d, ws, lease, refs, now);
    if o.Done? && o.value {
      BegunOwed(d, recorded, ws, lease, refs, now);
    } else {
      assert SameStatus(d, o.Commit(d));
      SameStatusOwed(d, o.Commit(d), recorded);
    }
  }

  lemma BegunOwed(d: Db, recorded: set<JobId>, ws: WorkspaceId, lease: Lease, refs: Refs, now: Time)
    requires Owed(d, recorded) && RecordedOk(d, recorded) && lease.job in d.jobs && d.jobs[lease.job].state == Leased
    ensures var e := BeginRun(d, ws, lease, refs, now); Owed(e, recorded) && RecordedOk(e, recorded)
  {
    var e := BeginRun(d, ws, lease, refs, now);
    forall c | c in e.convs && Unpaid(e, recorded, c) ensures Shut(e.convs[c].status) {
      assert c in d.convs && e.convs[c].current == d.convs[c].current;
      if d.convs[c].current != Some(lease.job) {
        assert Unpaid(d, recorded, c) <==> Unpaid(e, recorded, c);
      }
    }
  }

  lemma CompletedOwed(d: Db, recorded: set<JobId>, ws: WorkspaceId, lease: Lease, done: Completion, now: Time)
    requires Owed(d, recorded) && RecordedOk(d, recorded) && CurrentOk(d.jobs, d.convs)
    ensures var e := Completed(d, ws, lease, done, now).Commit(d); Owed(e, recorded) && RecordedOk(e, recorded)
  {
    var o := Completed(d, ws, lease, done, now);
    if o.Done? && o.value {
      MarkedOwed(d, o.db, recorded, {lease.job});
    }
  }

  lemma FailedOwed(d: Db, recorded: set<JobId>, ws: WorkspaceId, lease: Lease, error: Failure, now: Time)
    requires Owed(d, recorded) && RecordedOk(d, recorded) && CurrentOk(d.jobs, d.convs)
    ensures var e := FailedUnstarted(d, ws, lease, error, now).Commit(d); Owed(e, recorded) && RecordedOk(e, recorded)
  {
    var o := FailedUnstarted(d, ws, lease, error, now);
    if o.Done? && o.value {
      MarkedOwed(d, o.db, recorded, {lease.job});
    }
  }

  lemma ReapedOwed(d: Db, recorded: set<JobId>, now: Time, order: seq<JobId>, e: Db)
    requires Owed(d, recorded) && RecordedOk(d, recorded) && CurrentOk(d.jobs, d.convs) && Reaps(d, now, order, e)
    ensures Owed(e, recorded) && RecordedOk(e, recorded)
  {
    MarkedOwed(d, e, recorded, ExpiredIn(d.jobs, Running, now));
  }

  lemma GrantIsSame(d: Db, ws: WorkspaceId, rows: seq<JobId>, until: Time, now: Time)
    requires forall i :: 0 <= i < |rows| ==> rows[i] in Waiting(d.jobs, ws)
    ensures SameStatus(d, d.(jobs := GrantRows(d.jobs, rows, until, now)))
  {
    forall j | j in rows ensures j in Waiting(d.jobs, ws) {}
  }

  lemma ClaimIsSame(d: Db, ws: WorkspaceId, limit: int, seconds: real, now: Time, e: Db)
    requires ClaimedTo(d, ws, limit, seconds, now, e)
    ensures SameStatus(d, e) && e.actions == d.actions
  {
    var rows, outcome :| Claims(d, ws, limit, seconds, now, rows, outcome) && e == outcome.Commit(d);
    if e != d { GrantIsSame(d, ws, rows, now + seconds, now); }
  }

  lemma ClaimedOwed(d: Db, recorded: set<JobId>, ws: WorkspaceId, limit: int, seconds: real, now: Time, e: Db)
    requires Owed(d, recorded) && RecordedOk(d, recorded) && ClaimedTo(d, ws, limit, seconds, now, e)
    ensures Owed(e, recorded) && RecordedOk(e, recorded)
  {
    ClaimIsSame(d, ws, limit, seconds, now, e);
    SameStatusOwed(d, e, recorded);
  }

  lemma BeatenOwed(d: Db, recorded: set<JobId>, ws: WorkspaceId, active: seq<Lease>, seconds: real, now: Time)
    requires Owed(d, recorded) && RecordedOk(d, recorded)
    ensures var e := Heartbeat(d, ws, active, seconds, now).Commit(d); Owed(e, recorded) && RecordedOk(e, recorded)
  {
    var e := Heartbeat(d, ws, active, seconds, now).Commit(d);
    BeatQuiet(d, ws, active, seconds, now);
    BeatAllShape(d.jobs, ws, active, now + seconds, now);
    assert SameStatus(d, e);
    SameStatusOwed(d, e, recorded);
  }

  lemma LeaseStepsOwed(d: Db, recorded: set<JobId>, step: Step, now: Time, e: Db)
    requires Owed(d, recorded) && RecordedOk(d, recorded) && CurrentOk(d.jobs, d.convs)
    requires Next(d, step, now, e) && LeaseStep(step)
    ensures Owed(e, recorded) && RecordedOk(e, recorded)
  {
    match step
    case Claim(ws, limit, seconds) => ClaimedOwed(d, recorded, ws, limit, seconds, now, e);
    case Start(ws, lease, refs) => StartedOwed(d, recorded, ws, lease, refs, now);
    case Beat(ws, active, seconds) => BeatenOwed(d, recorded, ws, active, seconds, now);
    case Complete(ws, lease, done) => CompletedOwed(d, recorded, ws, lease, done, now);
    case FailEarly(ws, lease, error) => FailedOwed(d, recorded, ws, lease, error, now);
    case Reap =>
      var order :| Reaps(d, now, order, e);
      ReapedOwed(d, recorded, now, order, e);
  }

  // ---- retention and cleanup

  lemma ScheduledOwed(d: Db, recorded: set<JobId>, now: Time, e: Db, scheduled: set<RunId>)
    requires Owed(d, recorded) && RecordedOk(d, recorded) && Schedules(d, now, e, scheduled)
    ensures Owed(e, recorded) && RecordedOk(e, recorded)
  {
    assert SameStatus(d, e);
    SameStatusOwed(d, e, recorded);
    forall r | r in e.actions ensures e.actions[r].job in recorded {
      assert RunScheduled(d, now, r, Row(e.retention, r), Row(e.actions, r), r in scheduled);
      if r !in d.actions { assert Settled(d, r); }
    }
  }

  /** A cleanup is handed out only for a job that is current and recorded, so marking
      the conversation 'cleaning' hides no debt. */
  lemma HandedOutOwed(
      d: Db, recorded: set<JobId>, ws: WorkspaceId, limit: int, seconds: real, now: Time, e: Db, claimed: seq<RunId>)
    requires Owed(d, recorded) && RecordedOk(d, recorded) && ActionsClaimed(d, ws, limit, seconds, now, e, claimed)
    ensures Owed(e, recorded) && RecordedOk(e, recorded)
  {
    var freed := FreedActions(d.actions, ws, now);
    var rows :| HeadOfActions(freed, ws, rows, AtMostFive(limit))
        && ClaimedFrom(d, ws, rows, freed, now + seconds, e, claimed);
    forall r | r in freed ensures freed[r].job == d.actions[r].job {}
    ClaimedOwes(d, recorded, ws, rows, freed, now + seconds, e, claimed);
  }

  lemma ClaimedOwes(d: Db, recorded: set<JobId>, ws: WorkspaceId, rows: seq<RunId>, freed: map<RunId, Action>,
                    until: Time, e: Db, claimed: seq<RunId>)
    requires Owed(d, recorded) && RecordedOk(d, recorded) && ClaimedFrom(d, ws, rows, freed, until, e, claimed)
    requires forall r :: r in freed ==> freed[r].job in recorded
    ensures Owed(e, recorded) && RecordedOk(e, recorded)
  {
    var taken := set r | r in claimed && r in freed :: freed[r].job;
    forall j | j in taken && j in d.jobs
      ensures d.jobs[j].conv in d.convs && !Unpaid(d, recorded, d.jobs[j].conv)
    {
      var r :| r in claimed && r in freed && freed[r].job == j;
      assert HandsOut(d, ws, freed[r]);
    }
    forall c | c in e.convs && Unpaid(e, recorded, c) ensures Shut(e.convs[c].status) {
      assert c in d.convs && Unpaid(d, recorded, c);
    }
  }

  /** This cleanup succeeds in a conversation that owes a delivery. */
  predicate Overwrites(
      d: Db, recorded: set<JobId>, ws: WorkspaceId, run: RunId, generation: nat, success: bool, now: Time) {
    var o := ActionFinished(d, ws, run, generation, success, now);
    && success && o.Done? && o.value && run in d.actions && d.actions[run].job in d.jobs
    && var c := d.jobs[d.actions[run].job].conv;
    c in d.convs && Unpaid(d, recorded, c)
  }

  /** Finishing a cleanup keeps every conversation that owes a delivery shut exactly when
      it does not succeed in one of them. */
  lemma FinishKeepsOwedExactlyUnlessItOverwrites(
    d: Db, recorded: set<JobId>, ws: WorkspaceId, run: RunId, generation: nat, success: bool, now: Time)
    requires Owed(d, recorded) && RecordedOk(d, recorded) && CurrentOk(d.jobs, d.convs)
    ensures var e := ActionFinished(d, ws, run, generation, success, now).Commit(d);
            Owed(e, recorded) <==> !Overwrites(d, recorded, ws, run, generation, success, now)
  {
    var o := ActionFinished(d, ws, run, generation, success, now);
    if o.Done? && o.value {
      var c := d.jobs[d.actions[run].job].conv;
      assert c in d.convs;
      FinishQuiet(d, ws, run, generation, success, now);
      forall x | x in d.convs ensures Unpaid(o.db, recorded, x) <==> Unpaid(d, recorded, x) {}
      forall x | x in d.convs && x != c ensures o.db.convs[x].status == d.convs[x].status {}
    }
  }

  lemma FinishedRecorded(
      d: Db, recorded: set<JobId>, ws: WorkspaceId, run: RunId, generation: nat, success: bool, now: Time)
    requires RecordedOk(d, recorded)
    ensures RecordedOk(ActionFinished(d, ws, run, generation, success, now).Commit(d), recorded)
  {
  }

  predicate Harmful(d: Db, recorded: set<JobId>, step: Step, now: Time) {
    step.FinishAction? && Overwrites(d, recorded, step.ws, step.run, step.generation, step.success, now)
  }

  lemma EnvKeepsOwed(d: Db, recorded: set<JobId>, step: Step, now: Time, e: Db)
    requires Owed(d, recorded) && RecordedOk(d, recorded) && CurrentOk(d.jobs, d.convs)
    requires Next(d, step, now, e) && EnvStep(step) && !Harmful(d, recorded, step, now)
    ensures Owed(e, recorded) && RecordedOk(e, recorded)
  {
    if LeaseStep(step) {
      LeaseStepsOwed(d, recorded, step, now, e);
    } else if step.Schedule? || step.ClaimActions? || step.FinishAction? {
      CleanupStepsOwed(d, recorded, step, now, e);
    } else {
      BookkeepingIsSame(d, step, now, e);
      SameStatusOwed(d, e, recorded);
    }
  }

  lemma CleanupStepsOwed(d: Db, recorded: set<JobId>, step: Step, now: Time, e: Db)
    requires Owed(d, recorded) && RecordedOk(d, recorded) && CurrentOk(d.jobs, d.convs)
    requires Next(d, step, now, e) && (step.Schedule? || step.ClaimActions? || step.FinishAction?)
               && !Harmful(d, recorded, step, now)
    ensures Owed(e, recorded) && RecordedOk(e, recorded)
  {
    if step.Schedule? {
      var scheduled :| Schedules(d, now, e, scheduled);
      ScheduledOwed(d, recorded, now, e, scheduled);
    } else if step.ClaimActions? {
      var claimed :| ActionsClaimed(d, step.ws, step.limit, step.seconds, now, e, claimed);
      HandedOutOwed(d, recorded, step.ws, step.limit, step.seconds, now, e, claimed);
    } else {
      FinishKeepsOwedExactlyUnlessItOverwrites(d, recorded, step.ws, step.run, step.generation, step.success, now);
      FinishedRecorded(d, recorded, step.ws, step.run, step.generation, step.success, now);
    }
  }

  lemma BookkeepingIsSame(d: Db, step: Step, now: Time, e: Db)
    requires Next(d, step, now, e) && (step.Clear? || step.Skip? || step.Adopt? || step.Refresh?)
    ensures SameStatus(d, e) && e.actions == d.actions
  {
    if step.Clear? { ClearIsSame(d, step.conv, step.count); } else { assert e.convs == d.convs; }
  }

  lemma ClearIsSame(d: Db, conv: ConvKey, count: nat)
    ensures SameStatus(d, PendingCleared(d, conv, count))
  {
  }

  // ---- the poller and the publisher

  /** A conversation is placed only while nothing is owed. */
  lemma PlacedOwed(d: Db, recorded: set<JobId>, c: Candidate)
    requires Owed(d, recorded) && RecordedOk(d, recorded) && CurrentOk(d.jobs, d.convs)
    requires Free(d.jobs, d.convs, c.conv) && Upserted(d, c.conv, c.ws).Done?
    ensures var e := Upserted(d, c.conv, c.ws).db;
            Owed(e, recorded) && RecordedOk(e, recorded) && PollerPaid(e, recorded, Placed(c))
  {
    var e := Upserted(d, c.conv, c.ws).db;
    forall x | x in e.convs && Unpaid(e, recorded, x) ensures Shut(e.convs[x].status) {
      if x in d.convs { assert Unpaid(d, recorded, x) <==> Unpaid(e, recorded, x); }
    }
  }

  lemma CreatedOwed(d: Db, recorded: set<JobId>, c: Candidate, job: JobId, now: Time)
    requires Owed(d, recorded) && RecordedOk(d, recorded) && CurrentOk(d.jobs, d.convs)
    ensures var e := DispatchRecorded(d, EnvelopeOf(c, job), now).Commit(d);
            Owed(e, recorded) && RecordedOk(e, recorded)
  {
    var o := DispatchRecorded(d, EnvelopeOf(c, job), now);
    if o.Done? && o.value {
      forall x | x in o.db.convs && Unpaid(o.db, recorded, x) ensures Shut(o.db.convs[x].status) {
        if x != c.conv { assert Unpaid(d, recorded, x) <==> Unpaid(o.db, recorded, x); }
      }
    }
  }

  lemma QueuedOwed(d: Db, recorded: set<JobId>, conv: ConvKey, entry: Entry)
    requires Owed(d, recorded) && RecordedOk(d, recorded)
    ensures var e := PendingQueued(d, conv, entry).Commit(d); Owed(e, recorded) && RecordedOk(e, recorded)
  {
    var e := PendingQueued(d, conv, entry).Commit(d);
    assert SameStatus(d, e);
    SameStatusOwed(d, e, recorded);
  }

  lemma RejectedOwed(
      d: Db, recorded: set<JobId>, event: EventKey, conv: ConvKey, reason: string, failed: bool, now: Time)
    requires Owed(d, recorded) && RecordedOk(d, recorded)
    ensures var e := RejectionRecorded(d, event, conv, reason, failed, now);
            Owed(e, recorded) && RecordedOk(e, recorded)
  {
    var e := RejectionRecorded(d, event, conv, reason, failed, now);
    assert SameStatus(d, e);
    SameStatusOwed(d, e, recorded);
  }

  lemma PollerKeepsPaid(s: Sys, act: Act, now: Time, t: Sys)
    requires Owed(s.db, s.recorded) && RecordedOk(s.db, s.recorded) && PollerPaid(s.db, s.recorded, s.poller)
    requires CurrentOk(s.db.jobs, s.db.convs) && PollerOk(s.db, s.poller) && PollerNext(s, act, now, t)
    ensures Owed(t.db, t.recorded) && RecordedOk(t.db, t.recorded) && PollerPaid(t.db, t.recorded, t.poller)
  {
    if act.PlaceConversation? {
      if Upserted(s.db, s.poller.c.conv, s.poller.c.ws).Done? { PlacedOwed(s.db, s.recorded, s.poller.c); }
    } else if act.CreateJob? {
      CreatedOwed(s.db, s.recorded, s.poller.c, act.job, now);
    } else if act.WriteQueue? {
      QueuedOwed(s.db, s.recorded, s.poller.c.conv, Entry(s.poller.c.event, s.poller.c.messages));
    } else if act.WriteRejection? {
      RejectedOwed(s.db, s.recorded, s.poller.c.event, s.poller.c.conv, s.poller.reason, s.poller.failed, now);
    }
  }

  lemma RecordedPays(d: Db, recorded: set<JobId>, job: JobId, status: ConvStatus, iids: set<int>, run: RunId)
    requires Owed(d, recorded) && RecordedOk(d, recorded) && CurrentOk(d.jobs, d.convs)
    requires TerminalRecorded(d, job, status, iids, run).Done? && Terminal(d.jobs[job].state)
    requires Concluding(status)
    ensures var e := TerminalRecorded(d, job, status, iids, run).db;
            Owed(e, recorded + {job}) && RecordedOk(e, recorded + {job})
  {
    var e := TerminalRecorded(d, job, status, iids, run).db;
    var c := d.jobs[job].conv;
    forall x | x in e.convs && Unpaid(e, recorded + {job}, x) ensures Shut(e.convs[x].status) {
      if x != c {
        assert Unpaid(d, recorded, x) <==> Unpaid(e, recorded + {job}, x);
      }
    }
  }

  predicate Concluding(status: ConvStatus) {
    status == Parked || status == ConcludedFailed || status == Concluded
  }

  /** The publisher records only outcomes of finished jobs (see NotesOnce). */
  predicate RecordsTerminal(s: Sys) {
    s.publisher.Publishing? && s.publisher.stage.Labelled? ==>
      && Concluding(s.publisher.stage.report.status)
      && (s.publisher.stage.job in s.db.jobs ==> Terminal(s.db.jobs[s.publisher.stage.job].state))
  }

  lemma PublisherKeepsPaid(s: Sys, act: Act, now: Time, t: Sys)
    requires Owed(s.db, s.recorded) && RecordedOk(s.db, s.recorded) && PollerPaid(s.db, s.recorded, s.poller)
    requires CurrentOk(s.db.jobs, s.db.convs) && PublisherNext(s, act, now, t) && RecordsTerminal(s)
    ensures Owed(t.db, t.recorded) && RecordedOk(t.db, t.recorded) && PollerPaid(t.db, t.recorded, t.poller)
  {
    if act.RecordOutcome? {
      var job, report := s.publisher.stage.job, s.publisher.stage.report;
      if TerminalRecorded(s.db, job, report.status, report.iids, RunIn(report)).Done? {
        RecordedPays(s.db, s.recorded, job, report.status, report.iids, RunIn(report));
      }
    } else {
      assert t.db == s.db.(outbox := t.db.outbox) by { OutboxOnly(s, act, now, t); }
      assert SameStatus(s.db, t.db);
      SameStatusOwed(s.db, t.db, s.recorded);
    }
  }

  lemma OutboxOnly(s: Sys, act: Act, now: Time, t: Sys)
    requires PublisherNext(s, act, now, t) && !act.RecordOutcome?
    ensures t.db == s.db.(outbox := t.db.outbox) && t.recorded == s.recorded && t.poller == s.poller
  {
  }

  lemma QuietKeepsPollerPaid(d: Db, e: Db, recorded: set<JobId>, poller: Poller)
    requires PollerPaid(d, recorded, poller) && Quiet(d, e)
    ensures PollerPaid(e, recorded, poller)
  {
  }

  lemma SysKeepsPaid(s: Sys, act: Act, now: Time, t: Sys)
    requires Paid(s) && RecordsTerminal(s) && SysNext(s, act, now, t)
    requires act.Env? ==> !Harmful(s.db, s.recorded, act.step, now)
    ensures Paid(t)
  {
    SysKeepsCurrent(s, act, now, t);
    if act.Env? {
      EnvKeepsOwed(s.db, s.recorded, act.step, now, t.db);
      EnvQuiet(s.db, act.step, now, t.db);
      QuietKeepsPollerPaid(s.db, t.db, s.recorded, s.poller);
    } else if act.HumanNote? {
    } else if PollerAct(act) {
      PollerKeepsPaid(s, act, now, t);
    } else {
      PublisherKeepsPaid(s, act, now, t);
    }
  }
}
