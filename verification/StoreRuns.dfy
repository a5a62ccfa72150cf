/**
  Whole runs of the store: any sequence of transactions, with any arguments, at
  non-decreasing instants.
*/
module StoreRuns {
  import opened Basics
  import opened Tables
  import opened Leases
  import opened LeaseInvariants
  import opened Intake
  import opened Delivery
  import opened Cleanup

  datatype Step =
    | Claim(ws: WorkspaceId, limit: int, seconds: real)
    | Start(ws: WorkspaceId, lease: Lease, refs: Refs)
    | Beat(ws: WorkspaceId, active: seq<Lease>, seconds: real)
    | Complete(ws: WorkspaceId, lease: Lease, done: Completion)
    | FailEarly(ws: WorkspaceId, lease: Lease, error: Failure)
    | Reap
    | Upsert(conv: ConvKey, ws: WorkspaceId)
    | Dispatch(envelope: Envelope)
    | Queue(conv: ConvKey, entry: Entry)
    | Clear(conv: ConvKey, count: nat)
    | Reject(event: EventKey, conv: ConvKey, reason: string, failed: bool)
    | Skip(event: EventKey)
    | Adopt(event: EventKey)
    | ClaimOutbox(limit: int, seconds: real)
    | Deliver(id: nat, generation: nat)
    | Retry(id: nat, generation: nat, retryAt: Time)
    | Record(job: JobId, status: ConvStatus, iids: set<int>, run: RunId)
    | Refresh(seen: seq<Observation>)
    | Schedule
    | ClaimActions(ws: WorkspaceId, limit: int, seconds: real)
    | FinishAction(ws: WorkspaceId, run: RunId, generation: nat, success: bool)

  ghost predicate ClaimedTo(d: Db, ws: WorkspaceId, limit: int, seconds: real, now: Time, e: Db) {
    exists rows, outcome :: Claims(d, ws, limit, seconds, now, rows, outcome) && e == outcome.Commit(d)
  }

  ghost predicate Next(d: Db, step: Step, now: Time, e: Db) {
    match step
    case Claim(ws, limit, seconds) => ClaimedTo(d, ws, limit, seconds, now, e)
    case Start(ws, lease, refs) => e == Started(d, ws, lease, refs, now).Commit(d)
    case Beat(ws, active, seconds) => e == Heartbeat(d, ws, active, seconds, now).Commit(d)
    case Complete(ws, lease, done) => e == Completed(d, ws, lease, done, now).Commit(d)
    case FailEarly(ws, lease, error) => e == FailedUnstarted(d, ws, lease, error, now).Commit(d)
    case Reap => exists order :: Reaps(d, now, order, e)
    case Upsert(conv, ws) => e == Upserted(d, conv, ws).Commit(d)
    case Dispatch(envelope) => e == DispatchRecorded(d, envelope, now).Commit(d)
    case Queue(conv, entry) => e == PendingQueued(d, conv, entry).Commit(d)
    case Clear(conv, count) => e == PendingCleared(d, conv, count)
    case Reject(event, conv, reason, failed) => e == RejectionRecorded(d, event, conv, reason, failed, now)
    case Skip(event) => e == EventNoted(d, event, Skipped)
    case Adopt(event) => e == EventNoted(d, event, Adopted)
    case ClaimOutbox(limit, seconds) => e == OutboxClaimed(d, limit, seconds, now).0
    case Deliver(id, generation) => e == MarkedDelivered(d, id, generation, now).Commit(d)
    case Retry(id, generation, retryAt) => e == MarkedFailed(d, id, generation, retryAt).Commit(d)
    case Record(job, status, iids, run) => e == TerminalRecorded(d, job, status, iids, run).Commit(d)
    case Refresh(seen) => e == d.(mrs := RefreshedAll(d.mrs, seen))
    case Schedule => exists scheduled :: Schedules(d, now, e, scheduled)
    case ClaimActions(ws, limit, seconds) => exists claimed :: ActionsClaimed(d, ws, limit, seconds, now, e, claimed)
    case FinishAction(ws, run, generation, success) =>
      e == ActionFinished(d, ws, run, generation, success, now).Commit(d)
  }

  predicate LeaseStep(step: Step) {
    step.Claim? || step.Start? || step.Beat? || step.Complete? || step.FailEarly? || step.Reap?
  }

  // ---- the lease invariant

  lemma UpsertFrame(d: Db, conv: ConvKey, ws: WorkspaceId)
    ensures Frame(d, Upserted(d, conv, ws).Commit(d))
  {
  }

  lemma DispatchFrame(d: Db, envelope: Envelope, now: Time)
    ensures Frame(d, DispatchRecorded(d, envelope, now).Commit(d))
  {
  }

  lemma QueueFrame(d: Db, conv: ConvKey, entry: Entry)
    ensures Frame(d, PendingQueued(d, conv, entry).Commit(d))
  {
  }

  lemma ClearFrame(d: Db, conv: ConvKey, count: nat)
    ensures Frame(d, PendingCleared(d, conv, count))
  {
  }

  lemma RejectFrame(d: Db, event: EventKey, conv: ConvKey, reason: string, failed: bool, now: Time)
    ensures Frame(d, RejectionRecorded(d, event, conv, reason, failed, now))
  {
  }

  lemma NoteFrame(d: Db, event: EventKey, kind: ReceiptKind)
    ensures Frame(d, EventNoted(d, event, kind))
  {
  }

  lemma OutboxFrame(d: Db, outbox: seq<OutboxRow>)
    requires |outbox| == |d.outbox| && forall i :: 0 <= i < |outbox| ==> outbox[i].key == d.outbox[i].key
    ensures Frame(d, d.(outbox := outbox))
  {
  }

  lemma ClaimOutboxFrame(d: Db, limit: int, seconds: real, now: Time)
    ensures Frame(d, OutboxClaimed(d, limit, seconds, now).0)
  {
    OutboxFrame(d, OutboxClaimed(d, limit, seconds, now).0.outbox);
  }

  lemma OneRowFrame(d: Db, id: nat, row: OutboxRow)
    requires id < |d.outbox| && row.key == d.outbox[id].key
    ensures Frame(d, d.(outbox := d.outbox[id := row]))
  {
    OutboxFrame(d, d.outbox[id := row]);
  }

  lemma DeliverFrame(d: Db, id: nat, generation: nat, now: Time)
    ensures Frame(d, MarkedDelivered(d, id, generation, now).Commit(d))
  {
    if Holds(d.outbox, id, generation) {
      OneRowFrame(d, id, d.outbox[id].(state := Delivered, leaseUntil := None, deliveredAt := Some(now)));
    } else {
      BookkeepingFrame(d, d);
    }
  }

  lemma RetryFrame(d: Db, id: nat, generation: nat, retryAt: Time)
    ensures Frame(d, MarkedFailed(d, id, generation, retryAt).Commit(d))
  {
    if Holds(d.outbox, id, generation) {
      OneRowFrame(d, id, d.outbox[id].(state := OutPending, leaseUntil := None, availableAt := retryAt));
    } else {
      BookkeepingFrame(d, d);
    }
  }

  lemma BookkeepingFrame(d: Db, e: Db)
    requires e.workspaces == d.workspaces && e.jobs == d.jobs && e.runs == d.runs && e.outbox == d.outbox
    ensures Frame(d, e)
  {
  }

  lemma FinishFrame(d: Db, ws: WorkspaceId, run: RunId, generation: nat, success: bool, now: Time)
    ensures Frame(d, ActionFinished(d, ws, run, generation, success, now).Commit(d))
  {
  }

  lemma OtherStepsFrame(d: Db, step: Step, now: Time, e: Db)
    requires Next(d, step, now, e) && !LeaseStep(step)
    ensures Frame(d, e)
  {
    match step
    case Upsert(conv, ws) => UpsertFrame(d, conv, ws);
    case Dispatch(envelope) => DispatchFrame(d, envelope, now);
    case Queue(conv, entry) => QueueFrame(d, conv, entry);
    case Clear(conv, count) => ClearFrame(d, conv, count);
    case Reject(event, conv, reason, failed) => RejectFrame(d, event, conv, reason, failed, now);
    case Skip(event) => NoteFrame(d, event, Skipped);
    case Adopt(event) => NoteFrame(d, event, Adopted);
    case ClaimOutbox(limit, seconds) => ClaimOutboxFrame(d, limit, seconds, now);
    case Deliver(id, generation) => DeliverFrame(d, id, generation, now);
    case Retry(id, generation, retryAt) => RetryFrame(d, id, generation, retryAt);
    case Record(_, _, _, _) => BookkeepingFrame(d, e);
    case Refresh(_) => BookkeepingFrame(d, e);
    case Schedule => BookkeepingFrame(d, e);
    case ClaimActions(_, _, _) => BookkeepingFrame(d, e);
    case FinishAction(ws, run, generation, success) => FinishFrame(d, ws, run, generation, success, now);
  }

  lemma LeaseStepsKeepValid(d: Db, step: Step, now: Time, e: Db)
    requires Valid(d) && Next(d, step, now, e) && LeaseStep(step)
    ensures Valid(e)
  {
    match step
    case Claim(ws, limit, seconds) =>
      var rows, outcome :| Claims(d, ws, limit, seconds, now, rows, outcome) && e == outcome.Commit(d);
      ClaimKeepsValid(d, ws, limit, seconds, now, rows, outcome, e);
    case Start(ws, lease, refs) => StartKeepsValid(d, ws, lease, refs, now);
    case Beat(ws, active, seconds) => HeartbeatKeepsValid(d, ws, active, seconds, now);
    case Complete(ws, lease, done) => CompleteKeepsValid(d, ws, lease, done, now);
    case FailEarly(ws, lease, error) => FailUnstartedKeepsValid(d, ws, lease, error, now);
    case Reap =>
      var order :| Reaps(d, now, order, e);
      ReapKeepsValid(d, now, order, e);
  }

  lemma NextKeepsValid(d: Db, step: Step, now: Time, e: Db)
    requires Valid(d) && Next(d, step, now, e)
    ensures Valid(e)
  {
    if LeaseStep(step) {
      LeaseStepsKeepValid(d, step, now, e);
    } else {
      OtherStepsFrame(d, step, now, e);
      FrameKeepsValid(d, e);
    }
  }

  // ---- how a job may change

  predicate JobAdvances(a: Job, b: Job) {
    && b.conv == a.conv && b.ws == a.ws && b.event == a.event && b.createdAt == a.createdAt
    && b.envelope.target == a.envelope.target && b.envelope.trigger == a.envelope.trigger
    && a.generation <= b.generation
    && (a.state == Running ==> b.generation == a.generation && (b.state == Running || Terminal(b.state)))
    && (Terminal(a.state) ==>
          b.state == a.state && b.generation == a.generation && b.startedAt == a.startedAt
          && b.finishedAt == a.finishedAt && b.failure == a.failure)
  }

  predicate JobsAdvance(a: map<JobId, Job>, b: map<JobId, Job>) {
    forall j :: j in a ==> j in b && JobAdvances(a[j], b[j])
  }

  lemma GrantAdvances(jobs: map<JobId, Job>, ws: WorkspaceId, rows: seq<JobId>, until: Time, now: Time)
    requires forall i :: 0 <= i < |rows| ==> rows[i] in Waiting(jobs, ws)
    ensures JobsAdvance(jobs, GrantRows(jobs, rows, until, now))
  {
  }

  lemma BeatAdvances(jobs: map<JobId, Job>, ws: WorkspaceId, active: seq<Lease>, until: Time, now: Time)
    ensures JobsAdvance(jobs, BeatAll(jobs, ws, active, until, now))
  {
    BeatAllShape(jobs, ws, active, until, now);
  }

  lemma FrameAdvances(d: Db, e: Db)
    requires Frame(d, e)
    ensures JobsAdvance(d.jobs, e.jobs)
  {
    forall j | j in d.jobs ensures j in e.jobs && JobAdvances(d.jobs[j], e.jobs[j]) {
      assert SameLease(d.jobs[j], e.jobs[j]);
    }
  }

  lemma StartAdvances(d: Db, ws: WorkspaceId, lease: Lease, refs: Refs, now: Time)
    ensures JobsAdvance(d.jobs, Started(d, ws, lease, refs, now).Commit(d).jobs)
  {
    var outcome := Started(d, ws, lease, refs, now);
    if outcome.Done? && outcome.value {
      assert outcome.db.jobs == d.jobs[lease.job := d.jobs[lease.job].(state := Running, startedAt := Some(now))];
    } else {
      assert outcome.Commit(d).jobs == d.jobs;
    }
  }

  lemma CompleteAdvances(d: Db, ws: WorkspaceId, lease: Lease, done: Completion, now: Time)
    ensures JobsAdvance(d.jobs, Completed(d, ws, lease, done, now).Commit(d).jobs)
  {
  }

  lemma FailAdvances(d: Db, ws: WorkspaceId, lease: Lease, error: Failure, now: Time)
    ensures JobsAdvance(d.jobs, FailedUnstarted(d, ws, lease, error, now).Commit(d).jobs)
  {
  }

  lemma ReapAdvances(jobs: map<JobId, Job>, now: Time)
    ensures JobsAdvance(jobs, ReapedJobs(jobs, now))
  {
  }

  lemma ClaimAdvances(d: Db, ws: WorkspaceId, limit: int, seconds: real, now: Time, e: Db)
    requires ClaimedTo(d, ws, limit, seconds, now, e)
    ensures JobsAdvance(d.jobs, e.jobs)
  {
    var rows, outcome :| Claims(d, ws, limit, seconds, now, rows, outcome) && e == outcome.Commit(d);
    if outcome.Done? && limit > 0 { GrantAdvances(d.jobs, ws, rows, now + seconds, now); }
  }

  lemma LeaseStepsAdvanceJobs(d: Db, step: Step, now: Time, e: Db)
    requires Next(d, step, now, e) && LeaseStep(step)
    ensures JobsAdvance(d.jobs, e.jobs)
  {
    match step
    case Claim(ws, limit, seconds) => ClaimAdvances(d, ws, limit, seconds, now, e);
    case Beat(ws, active, seconds) => BeatAdvances(d.jobs, ws, active, now + seconds, now);
    case Start(ws, lease, refs) => StartAdvances(d, ws, lease, refs, now);
    case Complete(ws, lease, done) => CompleteAdvances(d, ws, lease, done, now);
    case FailEarly(ws, lease, error) => FailAdvances(d, ws, lease, error, now);
    case Reap => ReapAdvances(d.jobs, now);
  }

  lemma NextAdvancesJobs(d: Db, step: Step, now: Time, e: Db)
    requires Next(d, step, now, e)
    ensures JobsAdvance(d.jobs, e.jobs)
  {
    if LeaseStep(step) {
      LeaseStepsAdvanceJobs(d, step, now, e);
    } else {
      OtherStepsFrame(d, step, now, e);
      FrameAdvances(d, e);
    }
  }

  // ---- whole runs

  ghost predicate StepAt(states: seq<Db>, steps: seq<Step>, times: seq<Time>, i: nat)
    requires |states| == |steps| + 1 && |times| == |steps| && i < |steps|
  {
    Next(states[i], steps[i], times[i], states[i + 1])
  }

  ghost predicate IsRun(states: seq<Db>, steps: seq<Step>, times: seq<Time>) {
    && |states| == |steps| + 1 && |times| == |steps|
    && (forall i, k :: 0 <= i < k < |times| ==> times[i] <= times[k])
    && (forall i :: 0 <= i < |steps| ==> StepAt(states, steps, times, i))
  }

  /** Every reachable database satisfies the lease invariant. */
  lemma {:induction false} ReachableIsValid(states: seq<Db>, steps: seq<Step>, times: seq<Time>, n: nat)
    requires IsRun(states, steps, times) && n <= |steps|
    requires exists workspaces :: states[0] == Initial(workspaces)
    ensures Valid(states[n])
  {
    if n == 0 {
      var workspaces :| states[0] == Initial(workspaces);
      InitialValid(workspaces);
    } else {
      ReachableIsValid(states, steps, times, n - 1);
      assert StepAt(states, steps, times, n - 1);
      NextKeepsValid(states[n - 1], steps[n - 1], times[n - 1], states[n]);
    }
  }

  /** A job's history only moves forward: a terminal job keeps its first outcome, and a
      started one is never handed out again. */
  lemma {:induction false} JobsOnlyAdvance(states: seq<Db>, steps: seq<Step>, times: seq<Time>, m: nat, n: nat)
    requires IsRun(states, steps, times) && m <= n <= |steps|
    requires exists workspaces :: states[0] == Initial(workspaces)
    ensures JobsAdvance(states[m].jobs, states[n].jobs)
    decreases n - m
  {
    if m < n {
      JobsOnlyAdvance(states, steps, times, m, n - 1);
      ReachableIsValid(states, steps, times, n - 1);
      assert StepAt(states, steps, times, n - 1);
      NextAdvancesJobs(states[n - 1], steps[n - 1], times[n - 1], states[n]);
      forall j | j in states[m].jobs ensures j in states[n].jobs && JobAdvances(states[m].jobs[j], states[n].jobs[j]) {
        assert JobAdvances(states[m].jobs[j], states[n - 1].jobs[j]);
        assert JobAdvances(states[n - 1].jobs[j], states[n].jobs[j]);
      }
    }
  }

  // ---- the fence

  /** Nobody holds this lease any more, whether or not the reaper has noticed. */
  predicate Dead(jobs: map<JobId, Job>, lease: Lease, now: Time) {
    lease.job in jobs &&
    (jobs[lease.job].generation > lease.generation
     || (jobs[lease.job].generation == lease.generation
         && (!Busy(jobs[lease.job].state) || !Unexpired(jobs[lease.job], now))))
  }

  /** A request made under this lease and no other lease of the job. */
  predicate Under(step: Step, lease: Lease) {
    match step
    case Start(_, l, _) => l == lease
    case Complete(_, l, _) => l == lease
    case FailEarly(_, l, _) => l == lease
    case Beat(_, active, _) => forall i :: 0 <= i < |active| && active[i].job == lease.job ==> active[i] == lease
    case _ => false
  }

  lemma {:induction false} DeadBeat(
      jobs: map<JobId, Job>, ws: WorkspaceId, active: seq<Lease>, until: Time, now: Time, lease: Lease)
    requires Dead(jobs, lease, now)
    requires forall i :: 0 <= i < |active| && active[i].job == lease.job ==> active[i] == lease
    ensures BeatAll(jobs, ws, active, until, now)[lease.job] == jobs[lease.job]
    decreases |active|
  {
    if active == [] {
    } else {
      DeadBeat(jobs, ws, active[..|active| - 1], until, now, lease);
    }
  }

  lemma DeadLeaseIsPowerless(d: Db, step: Step, now: Time, e: Db, lease: Lease)
    requires LeaseShape(d.jobs) && Dead(d.jobs, lease, now) && Under(step, lease) && Next(d, step, now, e)
    ensures lease.job in e.jobs && e.jobs[lease.job] == d.jobs[lease.job]
  {
    match step
    case Beat(ws, active, seconds) => DeadBeat(d.jobs, ws, active, now + seconds, now, lease);
    case _ =>
  }

  lemma {:induction false} NoRevivalByBeat(
      jobs: map<JobId, Job>, ws: WorkspaceId, active: seq<Lease>, until: Time, now: Time, lease: Lease)
    requires Dead(jobs, lease, now)
    ensures Dead(BeatAll(jobs, ws, active, until, now), lease, now)
    ensures jobs[lease.job].generation == lease.generation ==>
              BeatAll(jobs, ws, active, until, now)[lease.job] == jobs[lease.job]
    decreases |active|
  {
    if active == [] {
    } else {
      NoRevivalByBeat(jobs, ws, active[..|active| - 1], until, now, lease);
      BeatAllShape(jobs, ws, active[..|active| - 1], until, now);
    }
  }

  lemma FrameKeepsDead(d: Db, e: Db, lease: Lease, now: Time)
    requires Dead(d.jobs, lease, now) && Frame(d, e)
    ensures Dead(e.jobs, lease, now)
  {
    assert SameLease(d.jobs[lease.job], e.jobs[lease.job]);
  }

  lemma LeaseStepsKeepDead(d: Db, step: Step, now: Time, e: Db, lease: Lease)
    requires LeaseShape(d.jobs) && Dead(d.jobs, lease, now) && Next(d, step, now, e) && LeaseStep(step)
    ensures Dead(e.jobs, lease, now)
  {
    match step
    case Claim(ws, limit, seconds) => ClaimKeepsDead(d, ws, limit, seconds, now, e, lease);
    case Beat(ws, active, seconds) => NoRevivalByBeat(d.jobs, ws, active, now + seconds, now, lease);
    case Start(ws, l, refs) => StartKeepsDead(d, ws, l, refs, now, lease);
    case Complete(ws, l, done) => CompleteKeepsDead(d, ws, l, done, now, lease);
    case FailEarly(ws, l, error) => FailKeepsDead(d, ws, l, error, now, lease);
    case Reap => ReapKeepsDead(d.jobs, now, lease);
  }

  lemma ClaimKeepsDead(d: Db, ws: WorkspaceId, limit: int, seconds: real, now: Time, e: Db, lease: Lease)
    requires Dead(d.jobs, lease, now) && ClaimedTo(d, ws, limit, seconds, now, e)
    ensures Dead(e.jobs, lease, now)
  {
    var rows, outcome :| Claims(d, ws, limit, seconds, now, rows, outcome) && e == outcome.Commit(d);
    assert lease.job in rows ==> lease.job in Waiting(d.jobs, ws);
  }

  lemma StartKeepsDead(d: Db, ws: WorkspaceId, l: Lease, refs: Refs, now: Time, lease: Lease)
    requires Dead(d.jobs, lease, now)
    ensures Dead(Started(d, ws, l, refs, now).Commit(d).jobs, lease, now)
  {
  }

  lemma CompleteKeepsDead(d: Db, ws: WorkspaceId, l: Lease, done: Completion, now: Time, lease: Lease)
    requires Dead(d.jobs, lease, now)
    ensures Dead(Completed(d, ws, l, done, now).Commit(d).jobs, lease, now)
  {
  }

  lemma FailKeepsDead(d: Db, ws: WorkspaceId, l: Lease, error: Failure, now: Time, lease: Lease)
    requires Dead(d.jobs, lease, now)
    ensures Dead(FailedUnstarted(d, ws, l, error, now).Commit(d).jobs, lease, now)
  {
  }

  lemma ReapKeepsDead(jobs: map<JobId, Job>, now: Time, lease: Lease)
    requires Dead(jobs, lease, now)
    ensures Dead(ReapedJobs(jobs, now), lease, now)
  {
  }

  lemma DeadStaysDead(d: Db, step: Step, now: Time, e: Db, lease: Lease, later: Time)
    requires LeaseShape(d.jobs) && Dead(d.jobs, lease, now) && Next(d, step, now, e) && now <= later
    ensures Dead(e.jobs, lease, later)
  {
    if LeaseStep(step) {
      LeaseStepsKeepDead(d, step, now, e, lease);
    } else {
      OtherStepsFrame(d, step, now, e);
      FrameKeepsDead(d, e, lease, now);
    }
  }

  lemma ReachableShape(states: seq<Db>, steps: seq<Step>, times: seq<Time>, n: nat)
    requires IsRun(states, steps, times) && n <= |steps|
    requires exists workspaces :: states[0] == Initial(workspaces)
    ensures LeaseShape(states[n].jobs)
  {
    ReachableIsValid(states, steps, times, n);
  }

  lemma DeadAtNextStep(states: seq<Db>, steps: seq<Step>, times: seq<Time>, lease: Lease, n: nat)
    requires IsRun(states, steps, times) && n + 1 < |steps|
    requires exists workspaces :: states[0] == Initial(workspaces)
    requires Dead(states[n].jobs, lease, times[n])
    ensures Dead(states[n + 1].jobs, lease, times[n + 1])
  {
    ReachableShape(states, steps, times, n);
    assert StepAt(states, steps, times, n);
    DeadStaysDead(states[n], steps[n], times[n], states[n + 1], lease, times[n + 1]);
  }

  lemma {:induction false} DeadForever(
      states: seq<Db>, steps: seq<Step>, times: seq<Time>, lease: Lease, m: nat, n: nat)
    requires IsRun(states, steps, times) && m <= n < |steps|
    requires exists workspaces :: states[0] == Initial(workspaces)
    requires Dead(states[m].jobs, lease, times[m])
    ensures Dead(states[n].jobs, lease, times[n])
    decreases n - m
  {
    if m < n {
      DeadForever(states, steps, times, lease, m, n - 1);
      DeadAtNextStep(states, steps, times, lease, n - 1);
    }
  }

  /** Once a lease is dead, no later request under it ever changes the job row again. */
  lemma FencedForever(states: seq<Db>, steps: seq<Step>, times: seq<Time>, lease: Lease, m: nat, n: nat)
    requires IsRun(states, steps, times) && m <= n < |steps|
    requires exists workspaces :: states[0] == Initial(workspaces)
    requires Dead(states[m].jobs, lease, times[m]) && Under(steps[n], lease)
    ensures lease.job in states[n].jobs && lease.job in states[n + 1].jobs
    ensures states[n + 1].jobs[lease.job] == states[n].jobs[lease.job]
  {
    DeadForever(states, steps, times, lease, m, n);
    ReachableShape(states, steps, times, n);
    assert StepAt(states, steps, times, n);
    DeadLeaseIsPowerless(states[n], steps[n], times[n], states[n + 1], lease);
  }
}
