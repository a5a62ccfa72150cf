/**
  Although dispatch reads, places the conversation and creates the job in separate
  transactions, every conversation has at most one unfinished job at any instant,
  and that job is its current one.
*/
module OneActiveJob {
  import opened Basics
  import opened Tables
  import opened Leases
  import opened Intake
  import opened Cleanup
  import opened StoreRuns
  import opened Hosted

  predicate CurrentOk(jobs: map<JobId, Job>, convs: map<ConvKey, Conv>) {
    && (forall c :: c in convs && convs[c].current.Some? ==>
          convs[c].current.value in jobs && jobs[convs[c].current.value].conv == c)
    && (forall j :: j in jobs ==> jobs[j].conv in convs)
    && (forall j :: j in jobs && Active(jobs[j].state) ==> convs[jobs[j].conv].current == Some(j))
  }

  /** Whatever job the conversation points at has finished. */
  predicate Free(jobs: map<JobId, Job>, convs: map<ConvKey, Conv>, c: ConvKey) {
    c in convs && convs[c].current.Some? ==>
      convs[c].current.value in jobs && Terminal(jobs[convs[c].current.value].state)
  }

  /** Between the poller's read of the active run and its insert, the conversation stays free. */
  predicate PollerOk(d: Db, poller: Poller) {
    && (poller.Admitted? || poller.Placed? ==> Free(d.jobs, d.convs, poller.c.conv))
    && (poller.Placed? ==> poller.c.conv in d.convs)
  }

  // ---- what the other components leave alone

  ghost predicate Quiet(d: Db, e: Db) {
    && (forall j :: j in e.jobs <==> j in d.jobs)
    && (forall c :: c in e.convs <==> c in d.convs)
    && (forall c :: c in d.convs ==> e.convs[c].current == d.convs[c].current)
  }

  lemma ClaimQuiet(d: Db, ws: WorkspaceId, limit: int, seconds: real, now: Time, e: Db)
    requires ClaimedTo(d, ws, limit, seconds, now, e)
    ensures Quiet(d, e) && e.convs == d.convs
  {
  }

  lemma StartQuiet(d: Db, ws: WorkspaceId, lease: Lease, refs: Refs, now: Time)
    ensures Quiet(d, Started(d, ws, lease, refs, now).Commit(d))
  {
  }

  lemma BeatQuiet(d: Db, ws: WorkspaceId, active: seq<Lease>, seconds: real, now: Time)
    ensures Quiet(d, Heartbeat(d, ws, active, seconds, now).Commit(d))
  {
    assert forall j :: j in BeatAll(d.jobs, ws, active, now + seconds, now).Keys <==> j in d.jobs.Keys;
  }

  lemma CompleteQuiet(d: Db, ws: WorkspaceId, lease: Lease, done: Completion, now: Time)
    ensures Quiet(d, Completed(d, ws, lease, done, now).Commit(d))
  {
  }

  lemma FailQuiet(d: Db, ws: WorkspaceId, lease: Lease, error: Failure, now: Time)
    ensures Quiet(d, FailedUnstarted(d, ws, lease, error, now).Commit(d))
  {
  }

  lemma ReapQuiet(d: Db, now: Time, order: seq<JobId>, e: Db)
    requires Reaps(d, now, order, e)
    ensures Quiet(d, e)
  {
  }

  lemma ClearQuiet(d: Db, conv: ConvKey, count: nat)
    ensures Quiet(d, PendingCleared(d, conv, count))
  {
  }

  lemma ActionsQuiet(d: Db, ws: WorkspaceId, limit: int, seconds: real, now: Time, e: Db, claimed: seq<RunId>)
    requires ActionsClaimed(d, ws, limit, seconds, now, e, claimed)
    ensures Quiet(d, e)
  {
  }

  lemma FinishQuiet(d: Db, ws: WorkspaceId, run: RunId, generation: nat, success: bool, now: Time)
    ensures Quiet(d, ActionFinished(d, ws, run, generation, success, now).Commit(d))
  {
  }

  lemma LeaseStepQuiet(d: Db, step: Step, now: Time, e: Db)
    requires Next(d, step, now, e) && LeaseStep(step)
    ensures Quiet(d, e)
  {
    match step
    case Claim(ws, limit, seconds) => ClaimQuiet(d, ws, limit, seconds, now, e);
    case Start(ws, lease, refs) => StartQuiet(d, ws, lease, refs, now);
    case Beat(ws, active, seconds) => BeatQuiet(d, ws, active, seconds, now);
    case Complete(ws, lease, done) => CompleteQuiet(d, ws, lease, done, now);
    case FailEarly(ws, lease, error) => FailQuiet(d, ws, lease, error, now);
    case Reap =>
      var order :| Reaps(d, now, order, e);
      ReapQuiet(d, now, order, e);
  }

  lemma EnvQuiet(d: Db, step: Step, now: Time, e: Db)
    requires Next(d, step, now, e) && EnvStep(step)
    ensures Quiet(d, e)
  {
    if LeaseStep(step) {
      LeaseStepQuiet(d, step, now, e);
    } else if step.Clear? {
      ClearQuiet(d, step.conv, step.count);
    } else if step.ClaimActions? {
      var claimed :| ActionsClaimed(d, step.ws, step.limit, step.seconds, now, e, claimed);
      ActionsQuiet(d, step.ws, step.limit, step.seconds, now, e, claimed);
    } else if step.FinishAction? {
      FinishQuiet(d, step.ws, step.run, step.generation, step.success, now);
    } else {
      assert e.jobs == d.jobs && e.convs == d.convs;
    }
  }

  lemma QuietKeepsCurrent(d: Db, e: Db, poller: Poller)
    requires CurrentOk(d.jobs, d.convs) && PollerOk(d, poller)
    requires Quiet(d, e) && JobsAdvance(d.jobs, e.jobs)
    ensures CurrentOk(e.jobs, e.convs) && PollerOk(e, poller)
  {
    forall j | j in e.jobs
      ensures e.jobs[j].conv in e.convs && (Active(e.jobs[j].state) ==> e.convs[e.jobs[j].conv].current == Some(j))
    {
      assert JobAdvances(d.jobs[j], e.jobs[j]);
    }
    forall c | c in e.convs && e.convs[c].current.Some?
      ensures e.convs[c].current.value in e.jobs && e.jobs[e.convs[c].current.value].conv == c
    {
      assert JobAdvances(d.jobs[d.convs[c].current.value], e.jobs[e.convs[c].current.value]);
    }
    if poller.Admitted? || poller.Placed? {
      var c := poller.c.conv;
      if c in e.convs && e.convs[c].current.Some? {
        assert JobAdvances(d.jobs[d.convs[c].current.value], e.jobs[e.convs[c].current.value]);
      }
    }
  }

  // ---- the poller's own steps

  lemma DecisionIsFree(d: Db, c: Candidate)
    requires CurrentOk(d.jobs, d.convs)
    ensures PollerOk(d, Decided(d, c))
  {
  }

  lemma PlacingKeepsCurrent(d: Db, c: Candidate)
    requires CurrentOk(d.jobs, d.convs) && PollerOk(d, Admitted(c)) && Upserted(d, c.conv, c.ws).Done?
    ensures var e := Upserted(d, c.conv, c.ws).db; CurrentOk(e.jobs, e.convs) && PollerOk(e, Placed(c))
  {
  }

  lemma NoActiveJob(jobs: map<JobId, Job>, convs: map<ConvKey, Conv>, c: ConvKey)
    requires CurrentOk(jobs, convs) && Free(jobs, convs, c)
    ensures forall j :: j in jobs && jobs[j].conv == c ==> !Active(jobs[j].state)
  {
    forall j | j in jobs && Active(jobs[j].state) ensures jobs[j].conv != c {
      assert convs[jobs[j].conv].current == Some(j);
    }
  }

  lemma CreatingKeepsCurrent(d: Db, c: Candidate, job: JobId, now: Time)
    requires CurrentOk(d.jobs, d.convs) && PollerOk(d, Placed(c))
    ensures var e := DispatchRecorded(d, EnvelopeOf(c, job), now).Commit(d); CurrentOk(e.jobs, e.convs)
  {
    NoActiveJob(d.jobs, d.convs, c.conv);
  }

  lemma PollerKeepsCurrent(s: Sys, act: Act, now: Time, t: Sys)
    requires CurrentOk(s.db.jobs, s.db.convs) && PollerOk(s.db, s.poller) && PollerNext(s, act, now, t)
    ensures CurrentOk(t.db.jobs, t.db.convs) && PollerOk(t.db, t.poller)
  {
    match act
    case ReadActive => DecisionIsFree(s.db, s.poller.c);
    case PlaceConversation =>
      if Upserted(s.db, s.poller.c.conv, s.poller.c.ws).Done? { PlacingKeepsCurrent(s.db, s.poller.c); }
    case CreateJob(job) => CreatingKeepsCurrent(s.db, s.poller.c, job, now);
    case WriteRejection => assert t.db.jobs == s.db.jobs && t.db.convs == s.db.convs;
    case WriteQueue =>
      QueueQuiet(s.db, s.poller.c.conv, Entry(s.poller.c.event, s.poller.c.messages));
      assert JobsAdvance(s.db.jobs, t.db.jobs);
      QuietKeepsCurrent(s.db, t.db, AtRest);
    case _ =>
  }

  lemma QueueQuiet(d: Db, conv: ConvKey, entry: Entry)
    ensures var e := PendingQueued(d, conv, entry).Commit(d); Quiet(d, e) && e.jobs == d.jobs
  {
  }

  lemma RecordQuiet(d: Db, job: JobId, status: ConvStatus, iids: set<int>, run: RunId)
    ensures var e := TerminalRecorded(d, job, status, iids, run).Commit(d); Quiet(d, e) && e.jobs == d.jobs
  {
  }

  lemma PublisherQuiet(s: Sys, act: Act, now: Time, t: Sys)
    requires PublisherNext(s, act, now, t)
    ensures Quiet(s.db, t.db) && t.db.jobs == s.db.jobs && t.poller == s.poller
  {
    if act.RecordOutcome? {
      var report := s.publisher.stage.report;
      RecordQuiet(s.db, s.publisher.stage.job, report.status, report.iids, RunIn(report));
    } else {
      assert t.db.convs == s.db.convs;
    }
  }

  // ---- every step

  lemma EnvKeepsOneActive(s: Sys, step: Step, now: Time, t: Sys)
    requires CurrentOk(s.db.jobs, s.db.convs) && PollerOk(s.db, s.poller)
    requires EnvStep(step) && t == s.(db := t.db) && Next(s.db, step, now, t.db)
    ensures CurrentOk(t.db.jobs, t.db.convs) && PollerOk(t.db, t.poller)
  {
    EnvQuiet(s.db, step, now, t.db);
    NextAdvancesJobs(s.db, step, now, t.db);
    QuietKeepsCurrent(s.db, t.db, s.poller);
  }

  lemma SysKeepsCurrent(s: Sys, act: Act, now: Time, t: Sys)
    requires CurrentOk(s.db.jobs, s.db.convs) && PollerOk(s.db, s.poller) && SysNext(s, act, now, t)
    ensures CurrentOk(t.db.jobs, t.db.convs) && PollerOk(t.db, t.poller)
  {
    if act.Env? {
      EnvKeepsOneActive(s, act.step, now, t);
    } else if act.HumanNote? {
    } else if PollerAct(act) {
      PollerKeepsCurrent(s, act, now, t);
    } else {
      PublisherQuiet(s, act, now, t);
      assert JobsAdvance(s.db.jobs, t.db.jobs);
      QuietKeepsCurrent(s.db, t.db, s.poller);
    }
  }
}
