/**
  What each lease transaction leaves in the tables, said of their rows before and after;
  and, over whole runs of the store, that a job ends exactly as its runner reported.
*/
module LeaseEffects {
  import opened Basics
  import opened Tables
  import opened Leases
  import opened LeaseInvariants
  import opened StoreRuns

  /** The conversations whose current job is one of these read as `status`; the rest are as before. */
  predicate TurnedTo(before: map<ConvKey, Conv>, after: map<ConvKey, Conv>, jobs: set<JobId>, status: ConvStatus) {
    && after.Keys == before.Keys
    && forall c :: c in before ==>
         if exists j :: j in jobs && before[c].current == Some(j) then after[c] == before[c].(status := status)
         else after[c] == before[c]
  }

  /** There is a row with this key; a new one is to be delivered at once. */
  predicate HasRow(before: seq<OutboxRow>, after: seq<OutboxRow>, key: DedupeKey, now: Time) {
    if exists i :: 0 <= i < |before| && before[i].key == key then after == before
    else after == before + [OutboxRow(key, None, OutPending, now, None, 0, 0, None)]
  }

  predicate HoldsLease(d: Db, ws: WorkspaceId, lease: Lease, state: JobState, now: Time) {
    && lease.job in d.jobs && d.jobs[lease.job].ws == ws && d.jobs[lease.job].generation == lease.generation
    && d.jobs[lease.job].state == state
    && d.jobs[lease.job].leaseUntil.Some? && now <= d.jobs[lease.job].leaseUntil.value
  }

  predicate RunExists(d: Db, lease: Lease) {
    exists r :: r in d.runs && d.runs[r].job == lease.job && d.runs[r].generation == lease.generation
  }

  // ---- a claim

  predicate IsQueuedFor(jobs: map<JobId, Job>, ws: WorkspaceId, j: JobId) {
    j in jobs && jobs[j].ws == ws && jobs[j].state == Queued
  }

  predicate Older(a: Job, i: JobId, b: Job, k: JobId) {
    a.createdAt < b.createdAt || (a.createdAt == b.createdAt && i < k)
  }

  function InHand(jobs: map<JobId, Job>, ws: WorkspaceId): set<JobId> {
    set j | j in jobs && jobs[j].ws == ws && (jobs[j].state == Leased || jobs[j].state == Running)
  }

  /** A claim hands out the oldest queued jobs, in order, each under its next generation: no
      more than were asked for, than ten, and than the workspace has room for; and it stops
      short only at one of these limits. */
  lemma ClaimServesOldestFirst(d: Db, ws: WorkspaceId, limit: int, seconds: real, now: Time,
                               rows: seq<JobId>, outcome: Outcome<seq<Lease>>)
    requires Claims(d, ws, limit, seconds, now, rows, outcome)
    ensures limit <= 0 ==> outcome == Done(d, [])
    ensures limit > 0 && (ws !in d.workspaces || !d.workspaces[ws].enabled) ==> outcome == Refused(UnknownWorkspace)
    ensures limit > 0 && ws in d.workspaces && d.workspaces[ws].enabled ==>
              && outcome.Done?
              && var leases, e, held := outcome.value, outcome.db, |InHand(d.jobs, ws)|;
              && e == d.(jobs := e.jobs) && e.jobs.Keys == d.jobs.Keys
              && (forall i :: 0 <= i < |leases| ==>
                    && IsQueuedFor(d.jobs, ws, leases[i].job)
                    && leases[i].generation == d.jobs[leases[i].job].generation + 1
                    && e.jobs[leases[i].job] == d.jobs[leases[i].job].(
                         state := Leased, generation := leases[i].generation,
                         leaseUntil := Some(now + seconds), heartbeatAt := Some(now)))
              && (forall i, k :: 0 <= i < k < |leases| ==>
                    Older(d.jobs[leases[i].job], leases[i].job, d.jobs[leases[k].job], leases[k].job))
              && (forall j :: j in d.jobs && (forall i :: 0 <= i < |leases| ==> leases[i].job != j) ==>
                    e.jobs[j] == d.jobs[j])
              && |leases| <= limit && |leases| <= 10
              && (leases != [] ==> held + |leases| <= d.workspaces[ws].capacity)
              && (forall j :: IsQueuedFor(e.jobs, ws, j) ==>
                    && (|leases| == limit || |leases| == 10 || held + |leases| >= d.workspaces[ws].capacity)
                    && forall i :: 0 <= i < |leases| ==> Older(d.jobs[leases[i].job], leases[i].job, d.jobs[j], j))
  {
    if limit > 0 && ws in d.workspaces && d.workspaces[ws].enabled {
      assert InHand(d.jobs, ws) == Held(d.jobs, ws);
      var leases, e := outcome.value, outcome.db;
      forall i | 0 <= i < |leases| ensures leases[i].job == rows[i] && rows[i] in Waiting(d.jobs, ws) {}
      forall j | j in d.jobs && (forall i :: 0 <= i < |leases| ==> leases[i].job != j) ensures j !in rows {
        forall i | 0 <= i < |rows| ensures rows[i] != j { assert leases[i].job == rows[i]; }
      }
      forall j | IsQueuedFor(e.jobs, ws, j) ensures j in Waiting(d.jobs, ws) && j !in rows {}
    }
  }

  // ---- a start

  /** A start is accepted for the first time exactly under a live lease that has no run; it
      begins one. */
  lemma FirstStartBegins(d: Db, ws: WorkspaceId, lease: Lease, refs: Refs, now: Time)
    ensures var o := Started(d, ws, lease, refs, now);
            && (o.Done? && o.value <==>
                  HoldsLease(d, ws, lease, Leased, now) && refs.run !in d.runs && !RunExists(d, lease))
            && (o.Done? && o.value ==>
                  var e := o.db;
                  && e == d.(jobs := e.jobs, runs := e.runs, convs := e.convs, outbox := e.outbox)
                  && e.jobs == d.jobs[lease.job := d.jobs[lease.job].(state := Running, startedAt := Some(now))]
                  && e.runs == d.runs[refs.run := Run(
                       lease.job, ws, lease.generation, RunRunning, Some(refs), None, None, now, None)]
                  && TurnedTo(d.convs, e.convs, {lease.job}, Working)
                  && HasRow(d.outbox, e.outbox, JobStarted(lease.job), now))
  {
  }

  /** A start is accepted again exactly if its run is that of the lease and it names the same
      references, or the same with a session file where there was none. */
  lemma RepeatedStartIsHarmless(d: Db, ws: WorkspaceId, lease: Lease, refs: Refs, now: Time)
    ensures var o := Started(d, ws, lease, refs, now);
            && (o.Done? && !o.value <==>
                  && lease.job in d.jobs && d.jobs[lease.job].ws == ws
                  && d.jobs[lease.job].generation == lease.generation && d.jobs[lease.job].state == Running
                  && refs.run in d.runs && d.runs[refs.run].job == lease.job && d.runs[refs.run].ws == ws
                  && d.runs[refs.run].generation == lease.generation && d.runs[refs.run].refs.Some?
                  && var kept := d.runs[refs.run].refs.value;
                  && refs.tmux == kept.tmux && refs.worktree == kept.worktree && refs.runDir == kept.runDir
                  && refs.run == kept.run && (refs.session == kept.session || kept.session == None))
            && (o.Done? && !o.value ==>
                  o.db == d.(runs := d.runs[refs.run := d.runs[refs.run].(refs := Some(refs))]))
            && (o.Refused? ==> o.error == StaleLease || o.error == Integrity)
  {
    var o := Started(d, ws, lease, refs, now);
    if o.Done? && !o.value && d.runs[refs.run].refs == Some(refs) {
      assert d.runs[refs.run := d.runs[refs.run].(refs := Some(refs))] == d.runs;
    }
  }

  // ---- a heartbeat

  predicate IsLive(d: Db, ws: WorkspaceId, lease: Lease, now: Time) {
    HoldsLease(d, ws, lease, Leased, now) || HoldsLease(d, ws, lease, Running, now)
  }

  /** A heartbeat of an enabled workspace extends the live leases it names, and reports the others. */
  lemma HeartbeatExtendsLive(d: Db, ws: WorkspaceId, active: seq<Lease>, seconds: real, now: Time)
    requires seconds >= 0.0
    ensures var o := Heartbeat(d, ws, active, seconds, now);
            if ws !in d.workspaces || !d.workspaces[ws].enabled then o == Refused(UnknownWorkspace)
            else
              && o.Done? && o.db == d.(jobs := o.db.jobs) && o.db.jobs.Keys == d.jobs.Keys
              && (forall j :: j in d.jobs ==>
                    o.db.jobs[j] ==
                      if exists lease :: lease in active && lease.job == j && IsLive(d, ws, lease, now)
                      then d.jobs[j].(leaseUntil := Some(now + seconds), heartbeatAt := Some(now)) else d.jobs[j])
              && (forall lease :: lease in o.value <==> lease in active && !IsLive(d, ws, lease, now))
  {
    if ws in d.workspaces && d.workspaces[ws].enabled {
      HeartbeatExtendsExactlyTheLive(d.jobs, ws, active, now + seconds, now);
      forall lease ensures IsLive(d, ws, lease, now) <==> Beats(d.jobs, ws, lease, now) {}
      forall j | j in d.jobs
        ensures (exists lease :: lease in active && lease.job == j && IsLive(d, ws, lease, now)) <==>
                exists i :: 0 <= i < |active| && active[i].job == j && Beats(d.jobs, ws, active[i], now)
      {
        if lease :| lease in active && lease.job == j && IsLive(d, ws, lease, now) {
          var i :| 0 <= i < |active| && active[i] == lease;
          assert Beats(d.jobs, ws, active[i], now);
        }
      }
    }
  }

  // ---- a completion

  /** A completion is accepted exactly while the job runs under a live lease, and stores what
      was reported in the job and in its run. */
  lemma CompletionIsStored(d: Db, ws: WorkspaceId, lease: Lease, done: Completion, now: Time)
    ensures var o := Completed(d, ws, lease, done, now);
            && (o.Done? && o.value <==> HoldsLease(d, ws, lease, Running, now) && RunExists(d, lease))
            && (o.Done? && o.value ==> StoresOutcome(d, lease, done, now, o.db))
            && (o.Done? && !o.value <==>
                  && lease.job in d.jobs && d.jobs[lease.job].ws == ws
                  && d.jobs[lease.job].generation == lease.generation
                  && (d.jobs[lease.job].state == Succeeded || d.jobs[lease.job].state == Failed))
            && (o.Done? && !o.value ==> o.db == d)
            && (o.Refused? ==> o.error == StaleLease)
  {
  }

  /** The job has succeeded without a failure, or has failed with the error reported; its run
      has ended alike and carries the result and the error. */
  predicate StoresOutcome(d: Db, lease: Lease, done: Completion, now: Time, e: Db)
    requires lease.job in d.jobs
  {
    && e == d.(jobs := e.jobs, runs := e.runs, convs := e.convs, outbox := e.outbox)
    && e.jobs == d.jobs[lease.job := d.jobs[lease.job].(
         state := if done.success then Succeeded else Failed, failure := if done.success then None else done.error,
         finishedAt := Some(now), leaseUntil := None)]
    && e.runs.Keys == d.runs.Keys
    && (forall r :: r in d.runs ==>
          e.runs[r] == if d.runs[r].job == lease.job && d.runs[r].generation == lease.generation
                          && d.runs[r].state == RunRunning
                       then d.runs[r].(state := if done.success then RunSucceeded else RunFailed,
                                       result := done.result, error := done.error, finishedAt := Some(now))
                       else d.runs[r])
    && TurnedTo(d.convs, e.convs, {lease.job}, Finishing)
    && HasRow(d.outbox, e.outbox, JobCompleted(lease.job, lease.generation), now)
  }

  /** A failure before the start is accepted exactly under a live lease that was not used. */
  lemma EarlyFailureIsStored(d: Db, ws: WorkspaceId, lease: Lease, error: Failure, now: Time)
    ensures var o := FailedUnstarted(d, ws, lease, error, now);
            && (o.Done? && o.value <==> HoldsLease(d, ws, lease, Leased, now))
            && (o.Done? && o.value ==>
                  var e := o.db;
                  && e == d.(jobs := e.jobs, convs := e.convs, outbox := e.outbox)
                  && e.jobs == d.jobs[lease.job := d.jobs[lease.job].(
                       state := Failed, failure := Some(error), finishedAt := Some(now), leaseUntil := None)]
                  && TurnedTo(d.convs, e.convs, {lease.job}, Finishing)
                  && HasRow(d.outbox, e.outbox, JobCompleted(lease.job, lease.generation), now))
            && (o.Done? && !o.value ==> o.db == d && d.jobs[lease.job].state == Failed)
            && (o.Refused? ==> o.error == StaleLease)
  {
  }

  // ---- the reaper

  predicate RanOut(job: Job, state: JobState, now: Time) {
    job.state == state && job.leaseUntil.Some? && job.leaseUntil.value < now
  }

  /** An expired lease that was not used goes back to the queue under its generation; an expired
      run fails as lost, with its job, which is to be delivered. */
  lemma ReaperSortsExpired(d: Db, now: Time, order: seq<JobId>, e: Db)
    requires Reaps(d, now, order, e)
    ensures e == d.(jobs := e.jobs, runs := e.runs, convs := e.convs, outbox := e.outbox)
    ensures e.jobs.Keys == d.jobs.Keys && e.runs.Keys == d.runs.Keys
    ensures forall j :: j in d.jobs ==>
              e.jobs[j] ==
                if RanOut(d.jobs[j], Leased, now) then d.jobs[j].(state := Queued, leaseUntil := None)
                else if RanOut(d.jobs[j], Running, now) then
                  d.jobs[j].(state := Failed, finishedAt := Some(now), leaseUntil := None,
                             failure := Some(Failure("runner-lost",
                               "workspace heartbeat expired; inspect artifacts before retrying")))
                else d.jobs[j]
    ensures var lost := set j | j in d.jobs && RanOut(d.jobs[j], Running, now);
            && (forall r :: r in d.runs ==>
                  e.runs[r] == if d.runs[r].job in lost && d.runs[r].state == RunRunning
                               then d.runs[r].(state := RunFailed, finishedAt := Some(now)) else d.runs[r])
            && TurnedTo(d.convs, e.convs, lost, Finishing)
            && d.outbox <= e.outbox
            && (forall j :: j in lost ==> exists i :: 0 <= i < |e.outbox| && e.outbox[i].key == RunnerLost(j))
            && (forall i :: |d.outbox| <= i < |e.outbox| ==>
                  e.outbox[i].key.RunnerLost? && e.outbox[i].key.job in lost && e.outbox[i].state == OutPending)
  {
    assert (set j | j in d.jobs && RanOut(d.jobs[j], Running, now)) == ExpiredIn(d.jobs, Running, now);
    LostRows(d.outbox, order, now);
    forall j | j in ExpiredIn(d.jobs, Running, now)
      ensures exists i :: 0 <= i < |e.outbox| && e.outbox[i].key == RunnerLost(j)
    {
      assert j in order;
      assert HasKey(e.outbox, RunnerLost(j));
    }
  }

  lemma {:induction false} LostRows(outbox: seq<OutboxRow>, order: seq<JobId>, now: Time)
    ensures var after := AddLost(outbox, order, now);
            && outbox <= after
            && (forall j :: j in order ==> HasKey(after, RunnerLost(j)))
            && (forall i :: |outbox| <= i < |after| ==>
                  after[i].key.RunnerLost? && after[i].key.job in order && after[i].state == OutPending)
    decreases |order|
  {
    if order != [] {
      var init, last := order[..|order| - 1], order[|order| - 1];
      LostRows(outbox, init, now);
      var before, after := AddLost(outbox, init, now), AddLost(outbox, order, now);
      forall j | j in order ensures HasKey(after, RunnerLost(j)) {
        if j in init {
          var i :| 0 <= i < |before| && before[i].key == RunnerLost(j);
          assert after[i].key == RunnerLost(j);
        } else if !HasKey(before, RunnerLost(j)) {
          assert after[|before|].key == RunnerLost(j);
        }
      }
    }
  }

  // ---- over runs: a job ends as reported

  predicate Ends(d: Db, e: Db, j: JobId) {
    && j in d.jobs && j in e.jobs && !Terminal(d.jobs[j].state) && Terminal(e.jobs[j].state)
    && e.jobs[j].generation == d.jobs[j].generation
  }

  /** By this step a completion under the job's lease is accepted that reports this. */
  predicate Reports(d: Db, step: Step, e: Db, j: JobId, success: bool, failure: Option<Failure>) {
    && Ends(d, e, j) && step.Complete? && step.lease == Lease(j, d.jobs[j].generation)
    && d.jobs[j].state == Running && step.done.success == success
    && failure == if success then None else step.done.error
  }

  /** By this step the job fails otherwise: before its start, or because its runner was lost. */
  predicate FailsUnreported(d: Db, step: Step, e: Db, j: JobId, failure: Option<Failure>) {
    && Ends(d, e, j)
    && if step.FailEarly? then
         && step.lease == Lease(j, d.jobs[j].generation) && d.jobs[j].state == Leased
         && failure == Some(step.error)
       else
         && step.Reap? && d.jobs[j].state == Running && failure.Some? && failure.value.stage == "runner-lost"
  }

  lemma GrantEndsNone(d: Db, ws: WorkspaceId, limit: int, seconds: real, now: Time, e: Db)
    requires ClaimedTo(d, ws, limit, seconds, now, e)
    ensures forall j :: j in e.jobs && Terminal(e.jobs[j].state) ==> j in d.jobs && Terminal(d.jobs[j].state)
  {
    var rows, outcome :| Claims(d, ws, limit, seconds, now, rows, outcome) && e == outcome.Commit(d);
  }

  lemma OthersEndNone(d: Db, step: Step, now: Time, e: Db)
    requires Next(d, step, now, e) && !step.Complete? && !step.FailEarly? && !step.Reap?
    ensures forall j :: j in e.jobs && Terminal(e.jobs[j].state) ==> j in d.jobs && Terminal(d.jobs[j].state)
  {
    if step.Claim? {
      GrantEndsNone(d, step.ws, step.limit, step.seconds, now, e);
    } else if step.Beat? {
      BeatAllShape(d.jobs, step.ws, step.active, now + step.seconds, now);
    } else if step.Start? {
      FirstStartBegins(d, step.ws, step.lease, step.refs, now);
      RepeatedStartIsHarmless(d, step.ws, step.lease, step.refs, now);
    } else {
      OtherStepsFrame(d, step, now, e);
      forall j | j in e.jobs && Terminal(e.jobs[j].state) ensures j in d.jobs && Terminal(d.jobs[j].state) {
        assert j in d.jobs && SameLease(d.jobs[j], e.jobs[j]);
      }
    }
  }

  /** A job that ends by a step ends as that step says. */
  lemma EndsAsReported(d: Db, step: Step, now: Time, e: Db, j: JobId)
    requires Next(d, step, now, e) && j in e.jobs && Terminal(e.jobs[j].state)
    requires !(j in d.jobs && Terminal(d.jobs[j].state))
    ensures if e.jobs[j].state == Succeeded then Reports(d, step, e, j, true, e.jobs[j].failure)
            else
              && e.jobs[j].state == Failed
              && (Reports(d, step, e, j, false, e.jobs[j].failure) || FailsUnreported(d, step, e, j, e.jobs[j].failure))
  {
    if step.Complete? {
      CompletionIsStored(d, step.ws, step.lease, step.done, now);
    } else if step.FailEarly? {
      EarlyFailureIsStored(d, step.ws, step.lease, step.error, now);
    } else if step.Reap? {
      var order :| Reaps(d, now, order, e);
      ReaperSortsExpired(d, now, order, e);
    } else {
      OthersEndNone(d, step, now, e);
    }
  }

  ghost predicate ReportedAt(
      states: seq<Db>, steps: seq<Step>, i: nat, j: JobId, success: bool, failure: Option<Failure>)
    requires |states| == |steps| + 1 && i < |steps|
  {
    Reports(states[i], steps[i], states[i + 1], j, success, failure)
  }

  ghost predicate UnreportedAt(states: seq<Db>, steps: seq<Step>, i: nat, j: JobId, failure: Option<Failure>)
    requires |states| == |steps| + 1 && i < |steps|
  {
    FailsUnreported(states[i], steps[i], states[i + 1], j, failure)
  }

  /** The step at which a finished job ended. */
  lemma {:induction false} EndOf(states: seq<Db>, steps: seq<Step>, times: seq<Time>, n: nat, j: JobId) returns (i: nat)
    requires IsRun(states, steps, times) && n <= |steps| && exists workspaces :: states[0] == Initial(workspaces)
    requires j in states[n].jobs && Terminal(states[n].jobs[j].state)
    ensures i < n && j in states[i + 1].jobs && Terminal(states[i + 1].jobs[j].state)
    ensures !(j in states[i].jobs && Terminal(states[i].jobs[j].state))
  {
    assert n > 0 by { assert states[0].jobs == map[]; }
    if j in states[n - 1].jobs && Terminal(states[n - 1].jobs[j].state) {
      i := EndOf(states, steps, times, n - 1, j);
    } else {
      i := n - 1;
    }
  }

  lemma ReportStands(
      states: seq<Db>, steps: seq<Step>, times: seq<Time>, n: nat, i: nat, j: JobId, success: bool,
      failure: Option<Failure>)
    requires IsRun(states, steps, times) && i < n <= |steps| && exists workspaces :: states[0] == Initial(workspaces)
    requires ReportedAt(states, steps, i, j, success, failure)
    ensures j in states[n].jobs && states[n].jobs[j].state == if success then Succeeded else Failed
    ensures states[n].jobs[j].failure == failure
  {
    assert StepAt(states, steps, times, i);
    EndsAsReported(states[i], steps[i], times[i], states[i + 1], j);
    CompletionIsStored(states[i], steps[i].ws, steps[i].lease, steps[i].done, times[i]);
    JobsOnlyAdvance(states, steps, times, i + 1, n);
    assert JobAdvances(states[i + 1].jobs[j], states[n].jobs[j]);
  }

  lemma FailureStands(
      states: seq<Db>, steps: seq<Step>, times: seq<Time>, n: nat, i: nat, j: JobId, failure: Option<Failure>)
    requires IsRun(states, steps, times) && i < n <= |steps| && exists workspaces :: states[0] == Initial(workspaces)
    requires UnreportedAt(states, steps, i, j, failure)
    ensures j in states[n].jobs && states[n].jobs[j].state == Failed
  {
    assert StepAt(states, steps, times, i);
    EndsAsReported(states[i], steps[i], times[i], states[i + 1], j);
    JobsOnlyAdvance(states, steps, times, i + 1, n);
    assert JobAdvances(states[i + 1].jobs[j], states[n].jobs[j]);
  }

  /** Over any run a job has succeeded exactly if a completion under its lease was accepted that
      reported success; and it has failed exactly if one was that reported failure, or it
      failed before its start, or its runner was lost; with the failure that was reported. */
  lemma OutcomeIsAsReported(states: seq<Db>, steps: seq<Step>, times: seq<Time>, n: nat, j: JobId)
    requires IsRun(states, steps, times) && n <= |steps| && j in states[n].jobs
    requires exists workspaces :: states[0] == Initial(workspaces)
    ensures states[n].jobs[j].state == Succeeded <==>
              exists i :: 0 <= i < n && ReportedAt(states, steps, i, j, true, states[n].jobs[j].failure)
    ensures states[n].jobs[j].state == Failed <==>
              exists i ::
                && 0 <= i < n
                && (ReportedAt(states, steps, i, j, false, states[n].jobs[j].failure)
                    || UnreportedAt(states, steps, i, j, states[n].jobs[j].failure))
  {
    var job := states[n].jobs[j];
    if Terminal(job.state) {
      var i := EndOf(states, steps, times, n, j);
      assert StepAt(states, steps, times, i);
      EndsAsReported(states[i], steps[i], times[i], states[i + 1], j);
      JobsOnlyAdvance(states, steps, times, i + 1, n);
      assert JobAdvances(states[i + 1].jobs[j], job);
      assert ReportedAt(states, steps, i, j, job.state == Succeeded, job.failure)
             || UnreportedAt(states, steps, i, j, job.failure);
    }
    if i :| 0 <= i < n && ReportedAt(states, steps, i, j, true, job.failure) {
      ReportStands(states, steps, times, n, i, j, true, job.failure);
    }
    if i :| 0 <= i < n && ReportedAt(states, steps, i, j, false, job.failure) {
      ReportStands(states, steps, times, n, i, j, false, job.failure);
    }
    if i :| 0 <= i < n && UnreportedAt(states, steps, i, j, job.failure) {
      FailureStands(states, steps, times, n, i, j, job.failure);
    }
  }
}
