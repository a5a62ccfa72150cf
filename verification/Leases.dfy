/**
  What each job-lease transaction does to the database, as functions of its
  arguments and of the instant `now` at which it runs.  ControllerStore (in
  Store.dfy) carries out the same transactions row by row and is proved to agree.
*/
module Leases {
  import opened Basics
  import opened Tables

  datatype Lease = Lease(job: JobId, generation: nat)

  datatype Completion = Completion(success: bool, result: Option<string>, error: Option<Failure>)

  // ---- reading the jobs table

  function Held(jobs: map<JobId, Job>, ws: WorkspaceId): set<JobId> {
    set j | j in jobs && jobs[j].ws == ws && Busy(jobs[j].state)
  }

  function Waiting(jobs: map<JobId, Job>, ws: WorkspaceId): set<JobId> {
    set j | j in jobs && jobs[j].ws == ws && jobs[j].state == Queued
  }

  /** Jobs are handed out oldest first, and by their id where they are of one time. */
  predicate Before(jobs: map<JobId, Job>, a: JobId, b: JobId)
    requires a in jobs && b in jobs
  {
    jobs[a].createdAt < jobs[b].createdAt || (jobs[a].createdAt == jobs[b].createdAt && a < b)
  }

  function Min(a: int, b: int): int { if a < b then a else b }
  function Max(a: int, b: int): int { if a > b then a else b }

  function Available(jobs: map<JobId, Job>, ws: WorkspaceId, limit: int, capacity: nat): nat {
    Max(0, Min(Max(0, Min(limit, 10)), capacity - |Held(jobs, ws)|))
  }

  /** The first `count` jobs of the workspace's queue. */
  ghost predicate HeadOfQueue(jobs: map<JobId, Job>, ws: WorkspaceId, rows: seq<JobId>, count: nat) {
    && (forall i :: 0 <= i < |rows| ==> rows[i] in Waiting(jobs, ws))
    && (forall i, k :: 0 <= i < k < |rows| ==> Before(jobs, rows[i], rows[k]))
    && |rows| <= count
    && (forall j :: j in Waiting(jobs, ws) && j !in rows ==>
          |rows| == count && forall i :: 0 <= i < |rows| ==> Before(jobs, rows[i], j))
  }

  // ---- claim

  function Granted(job: Job, until: Time, now: Time): Job {
    job.(state := Leased, generation := job.generation + 1, leaseUntil := Some(until), heartbeatAt := Some(now))
  }

  function GrantRows(jobs: map<JobId, Job>, rows: seq<JobId>, until: Time, now: Time): map<JobId, Job> {
    map j | j in jobs :: if j in rows then Granted(jobs[j], until, now) else jobs[j]
  }

  function GrantedLeases(jobs: map<JobId, Job>, rows: seq<JobId>): (leases: seq<Lease>)
    requires forall i :: 0 <= i < |rows| ==> rows[i] in jobs
  {
    seq(|rows|, i requires 0 <= i < |rows| => Lease(rows[i], jobs[rows[i]].generation + 1))
  }

  /** `rows` is what the queue query returned; it is determined by the other
      arguments (LeaseInvariants.ClaimIsDetermined). */
  ghost predicate Claims(d: Db, ws: WorkspaceId, limit: int, seconds: real, now: Time,
                         rows: seq<JobId>, outcome: Outcome<seq<Lease>>)
  {
    if limit <= 0 then
      rows == [] && outcome == Done(d, [])
    else if ws !in d.workspaces || !d.workspaces[ws].enabled then
      rows == [] && outcome == Refused(UnknownWorkspace)
    else
      && HeadOfQueue(d.jobs, ws, rows, Available(d.jobs, ws, limit, d.workspaces[ws].capacity))
      && outcome == Done(d.(jobs := GrantRows(d.jobs, rows, now + seconds, now)), GrantedLeases(d.jobs, rows))
  }

  // ---- start

  predicate Named(d: Db, lease: Lease, ws: WorkspaceId) {
    lease.job in d.jobs && d.jobs[lease.job].ws == ws && d.jobs[lease.job].generation == lease.generation
  }

  predicate HasRun(runs: map<RunId, Run>, job: JobId, generation: nat) {
    exists r :: r in runs && runs[r].job == job && runs[r].generation == generation
  }

  predicate Unexpired(job: Job, now: Time) {
    job.leaseUntil.Some? && job.leaseUntil.value >= now
  }

  function NewRun(lease: Lease, ws: WorkspaceId, refs: Refs, now: Time): Run {
    Run(lease.job, ws, lease.generation, RunRunning, Some(refs), None, None, now, None)
  }

  /** The only change a repeated start may make: fill in the missing session file. */
  predicate SessionUpgrade(stored: Refs, refs: Refs) {
    stored.session == None && refs.session.Some? && refs == stored.(session := refs.session)
  }

  function UpgradeRun(d: Db, refs: Refs): Db
    requires refs.run in d.runs
  {
    d.(runs := d.runs[refs.run := d.runs[refs.run].(refs := Some(refs))])
  }

  function BeginRun(d: Db, ws: WorkspaceId, lease: Lease, refs: Refs, now: Time): Db
    requires lease.job in d.jobs
  {
    d.(
      jobs := d.jobs[lease.job := d.jobs[lease.job].(state := Running, startedAt := Some(now))],
      runs := d.runs[refs.run := NewRun(lease, ws, refs, now)],
      convs := SetStatusOfCurrent(d.convs, {lease.job}, Working),
      outbox := AddOutbox(d.outbox, JobStarted(lease.job), None, now))
  }

  function Started(d: Db, ws: WorkspaceId, lease: Lease, refs: Refs, now: Time): Outcome<bool> {
    if !Named(d, lease, ws) then
      Refused(StaleLease)
    else if d.jobs[lease.job].state == Running then
      if refs.run in d.runs && d.runs[refs.run].job == lease.job && d.runs[refs.run].ws == ws
         && d.runs[refs.run].generation == lease.generation && d.runs[refs.run].refs.Some?
      then
        var stored := d.runs[refs.run].refs.value;
        if stored == refs then Done(d, false)
        else if SessionUpgrade(stored, refs) then
          Done(UpgradeRun(d, refs), false)
        else Refused(StaleLease)
      else Refused(StaleLease)
    else if d.jobs[lease.job].state != Leased || !Unexpired(d.jobs[lease.job], now) then
      Refused(StaleLease)
    else if refs.run in d.runs || HasRun(d.runs, lease.job, lease.generation) then
      Refused(Integrity)
    else
      Done(BeginRun(d, ws, lease, refs, now), true)
  }

  // ---- heartbeat

  predicate Beats(jobs: map<JobId, Job>, ws: WorkspaceId, lease: Lease, now: Time) {
    && lease.job in jobs && jobs[lease.job].ws == ws && jobs[lease.job].generation == lease.generation
    && Busy(jobs[lease.job].state) && Unexpired(jobs[lease.job], now)
  }

  function Extended(job: Job, until: Time, now: Time): Job {
    job.(leaseUntil := Some(until), heartbeatAt := Some(now))
  }

  /** The leases are extended one by one, in order. */
  function BeatAll(
      jobs: map<JobId, Job>, ws: WorkspaceId, active: seq<Lease>, until: Time, now: Time): (after: map<JobId, Job>)
    ensures after.Keys == jobs.Keys
    decreases |active|
  {
    if active == [] then jobs
    else
      var before := BeatAll(jobs, ws, active[..|active| - 1], until, now);
      var lease := active[|active| - 1];
      if Beats(before, ws, lease, now) then before[lease.job := Extended(before[lease.job], until, now)] else before
  }

  function StaleOnes(jobs: map<JobId, Job>, ws: WorkspaceId, active: seq<Lease>, until: Time, now: Time): seq<Lease>
    decreases |active|
  {
    if active == [] then []
    else
      var before := active[..|active| - 1];
      StaleOnes(jobs, ws, before, until, now)
      + if Beats(BeatAll(jobs, ws, before, until, now), ws, active[|active| - 1], now)
        then [] else [active[|active| - 1]]
  }

  /** The reply lists the stale leases.  When it is not empty the caller is told
      so by an error, but the live extensions have been committed all the same. */
  function Heartbeat(d: Db, ws: WorkspaceId, active: seq<Lease>, seconds: real, now: Time): Outcome<seq<Lease>> {
    if ws !in d.workspaces || !d.workspaces[ws].enabled then Refused(UnknownWorkspace)
    else Done(d.(jobs := BeatAll(d.jobs, ws, active, now + seconds, now)),
              StaleOnes(d.jobs, ws, active, now + seconds, now))
  }

  // ---- completion and failure

  function Finished(job: Job, state: JobState, failure: Option<Failure>, now: Time): Job {
    job.(state := state, finishedAt := Some(now), leaseUntil := None, failure := failure)
  }

  function CompletionState(done: Completion): JobState {
    if done.success then Succeeded else Failed
  }

  function CompletionFailure(done: Completion): Option<Failure> {
    if done.success then None else done.error
  }

  function FinishedRun(run: Run, done: Completion, now: Time): Run {
    run.(state := if done.success then RunSucceeded else RunFailed,
         result := done.result, error := done.error, finishedAt := Some(now))
  }

  function FinishRuns(runs: map<RunId, Run>, lease: Lease, done: Completion, now: Time): map<RunId, Run> {
    map r | r in runs ::
      if runs[r].job == lease.job && runs[r].generation == lease.generation && runs[r].state == RunRunning
      then FinishedRun(runs[r], done, now) else runs[r]
  }

  function Completed(d: Db, ws: WorkspaceId, lease: Lease, done: Completion, now: Time): Outcome<bool> {
    if !Named(d, lease, ws) then
      Refused(StaleLease)
    else if d.jobs[lease.job].state == Succeeded || d.jobs[lease.job].state == Failed then
      Done(d, false)
    else if d.jobs[lease.job].state != Running || !HasRun(d.runs, lease.job, lease.generation)
            || !Unexpired(d.jobs[lease.job], now) then
      Refused(StaleLease)
    else
      Done(d.(
        jobs := d.jobs[lease.job := Finished(d.jobs[lease.job], CompletionState(done), CompletionFailure(done), now)],
        runs := FinishRuns(d.runs, lease, done, now),
        convs := SetStatusOfCurrent(d.convs, {lease.job}, Finishing),
        outbox := AddOutbox(d.outbox, JobCompleted(lease.job, lease.generation), None, now)), true)
  }

  function FailedUnstarted(d: Db, ws: WorkspaceId, lease: Lease, error: Failure, now: Time): Outcome<bool> {
    if !Named(d, lease, ws) then
      Refused(StaleLease)
    else if d.jobs[lease.job].state == Failed then
      Done(d, false)
    else if d.jobs[lease.job].state != Leased || !Unexpired(d.jobs[lease.job], now) then
      Refused(StaleLease)
    else
      Done(d.(
        jobs := d.jobs[lease.job := Finished(d.jobs[lease.job], Failed, Some(error), now)],
        convs := SetStatusOfCurrent(d.convs, {lease.job}, Finishing),
        outbox := AddOutbox(d.outbox, JobCompleted(lease.job, lease.generation), None, now)), true)
  }

  // ---- the reaper

  predicate Expired(job: Job, state: JobState, now: Time) {
    job.state == state && job.leaseUntil.Some? && job.leaseUntil.value < now
  }

  function ExpiredIn(jobs: map<JobId, Job>, state: JobState, now: Time): set<JobId> {
    set j | j in jobs && Expired(jobs[j], state, now)
  }

  const RUNNER_LOST := Failure("runner-lost", "workspace heartbeat expired; inspect artifacts before retrying")

  function ReapedJobs(jobs: map<JobId, Job>, now: Time): map<JobId, Job> {
    map j | j in jobs ::
      if Expired(jobs[j], Leased, now) then jobs[j].(state := Queued, leaseUntil := None)
      else if Expired(jobs[j], Running, now) then Finished(jobs[j], Failed, Some(RUNNER_LOST), now)
      else jobs[j]
  }

  function ReapedRuns(runs: map<RunId, Run>, lost: set<JobId>, now: Time): map<RunId, Run> {
    map r | r in runs ::
      if runs[r].job in lost && runs[r].state == RunRunning
      then runs[r].(state := RunFailed, finishedAt := Some(now)) else runs[r]
  }

  function AddLost(outbox: seq<OutboxRow>, order: seq<JobId>, now: Time): seq<OutboxRow>
    decreases |order|
  {
    if order == [] then outbox
    else AddOutbox(AddLost(outbox, order[..|order| - 1], now), RunnerLost(order[|order| - 1]), None, now)
  }

  /** `order` is the unspecified order in which the expired running jobs were read. */
  ghost predicate Reaps(d: Db, now: Time, order: seq<JobId>, after: Db) {
    var lost := ExpiredIn(d.jobs, Running, now);
    && Enumerates(order, lost)
    && after == d.(
         jobs := ReapedJobs(d.jobs, now),
         runs := ReapedRuns(d.runs, lost, now),
         convs := SetStatusOfCurrent(d.convs, lost, Finishing),
         outbox := AddLost(d.outbox, order, now))
  }
}
