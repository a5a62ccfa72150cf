/**
  The invariant of the job tables, and what follows from it over whole runs.
  Callers are unconstrained: every request may name any workspace, job,
  generation or run, and may be repeated, late, or made up.
*/
module LeaseInvariants {
  import opened Basics
  import opened Tables
  import opened Leases

  // ---- the invariant, table by table

  predicate LeaseShape(jobs: map<JobId, Job>) {
    forall j :: j in jobs ==>
      && (jobs[j].leaseUntil.Some? <==> Busy(jobs[j].state))
      && (jobs[j].finishedAt.Some? <==> Terminal(jobs[j].state))
      && jobs[j].state != Cancelled
      && (Busy(jobs[j].state) || jobs[j].startedAt.Some? ==> jobs[j].generation > 0)
  }

  predicate RunBacked(jobs: map<JobId, Job>, run: Run) {
    && run.job in jobs
    && run.generation == jobs[run.job].generation
    && run.ws == jobs[run.job].ws
    && (run.state == RunRunning <==> jobs[run.job].state == Running)
    && (run.state == RunSucceeded <==> jobs[run.job].state == Succeeded)
    && (run.state == RunFailed <==> jobs[run.job].state == Failed)
  }

  predicate OneRunPerJob(runs: map<RunId, Run>) {
    forall r, s :: r in runs && s in runs && runs[r].job == runs[s].job ==> r == s
  }

  predicate RunShape(jobs: map<JobId, Job>, runs: map<RunId, Run>) {
    && (forall r :: r in runs ==> RunBacked(jobs, runs[r]))
    && OneRunPerJob(runs)
    && (forall j :: j in jobs && (jobs[j].state == Running || jobs[j].state == Succeeded) ==>
          HasRun(runs, j, jobs[j].generation))
  }

  predicate TerminalKeyOf(key: DedupeKey, job: JobId) {
    (key.JobCompleted? || key.RunnerLost?) && key.job == job
  }

  predicate IsTerminalKey(key: DedupeKey) {
    key.JobCompleted? || key.RunnerLost?
  }

  predicate HasTerminalRow(outbox: seq<OutboxRow>, job: JobId) {
    exists i :: 0 <= i < |outbox| && TerminalKeyOf(outbox[i].key, job)
  }

  predicate TerminalRows(jobs: map<JobId, Job>, outbox: seq<OutboxRow>) {
    && (forall j :: j in jobs && Terminal(jobs[j].state) ==> HasTerminalRow(outbox, j))
    && (forall i :: 0 <= i < |outbox| && IsTerminalKey(outbox[i].key) ==>
          && outbox[i].key.job in jobs && Terminal(jobs[outbox[i].key.job].state)
          && (outbox[i].key.JobCompleted? ==> outbox[i].key.generation == jobs[outbox[i].key.job].generation))
    && (forall i, k :: 0 <= i < k < |outbox| && IsTerminalKey(outbox[i].key) ==>
          !TerminalKeyOf(outbox[k].key, outbox[i].key.job))
  }

  ghost predicate WithinCapacity(d: Db) {
    forall ws :: |Held(d.jobs, ws)| <= Capacity(d.workspaces, ws)
  }

  function Capacity(workspaces: map<WorkspaceId, Workspace>, ws: WorkspaceId): nat {
    if ws in workspaces then workspaces[ws].capacity else 0
  }

  ghost predicate Valid(d: Db) {
    LeaseShape(d.jobs) && RunShape(d.jobs, d.runs) && TerminalRows(d.jobs, d.outbox) && WithinCapacity(d)
  }

  lemma InitialValid(workspaces: map<WorkspaceId, Workspace>)
    ensures Valid(Initial(workspaces))
  {
    forall ws ensures |Held(Initial(workspaces).jobs, ws)| == 0 {
      assert Held(Initial(workspaces).jobs, ws) == {};
    }
  }

  // ---- transactions of the other components

  predicate SameLease(a: Job, b: Job) {
    a.conv == b.conv && a.ws == b.ws && a.event == b.event && a.state == b.state && a.generation == b.generation
    && a.leaseUntil == b.leaseUntil && a.startedAt == b.startedAt && a.finishedAt == b.finishedAt
    && a.createdAt == b.createdAt && a.failure == b.failure && a.envelope.target == b.envelope.target
       && a.envelope.trigger == b.envelope.trigger
  }

  predicate SameRun(a: Run, b: Run) {
    a.job == b.job && a.ws == b.ws && a.generation == b.generation && a.state == b.state
  }

  /** What every transaction outside the lease protocol leaves alone. */
  ghost predicate Frame(d: Db, e: Db) {
    && e.workspaces == d.workspaces
    && (forall j :: j in d.jobs ==> j in e.jobs && SameLease(d.jobs[j], e.jobs[j]))
    && (forall j :: j in e.jobs && j !in d.jobs ==>
          e.jobs[j].state == Queued && e.jobs[j].generation == 0 && e.jobs[j].leaseUntil == None
          && e.jobs[j].startedAt == None && e.jobs[j].finishedAt == None)
    && (forall r :: r in d.runs <==> r in e.runs)
    && (forall r :: r in d.runs ==> SameRun(d.runs[r], e.runs[r]))
    && |d.outbox| <= |e.outbox|
    && (forall i :: 0 <= i < |d.outbox| ==> e.outbox[i].key == d.outbox[i].key)
    && (forall i :: |d.outbox| <= i < |e.outbox| ==> !IsTerminalKey(e.outbox[i].key))
  }

  lemma FrameRuns(d: Db, e: Db)
    requires Frame(d, e) && RunShape(d.jobs, d.runs)
    ensures RunShape(e.jobs, e.runs)
  {
    forall r | r in e.runs ensures RunBacked(e.jobs, e.runs[r]) {
      assert RunBacked(d.jobs, d.runs[r]);
      assert SameRun(d.runs[r], e.runs[r]) && SameLease(d.jobs[d.runs[r].job], e.jobs[d.runs[r].job]);
    }
    forall j | j in e.jobs && (e.jobs[j].state == Running || e.jobs[j].state == Succeeded)
      ensures HasRun(e.runs, j, e.jobs[j].generation)
    {
      assert SameLease(d.jobs[j], e.jobs[j]);
      var r :| r in d.runs && d.runs[r].job == j && d.runs[r].generation == d.jobs[j].generation;
      assert SameRun(d.runs[r], e.runs[r]);
    }
    forall r, s | r in e.runs && s in e.runs && e.runs[r].job == e.runs[s].job ensures r == s {
      assert SameRun(d.runs[r], e.runs[r]) && SameRun(d.runs[s], e.runs[s]);
    }
  }

  lemma FrameRows(d: Db, e: Db)
    requires Frame(d, e) && TerminalRows(d.jobs, d.outbox)
    ensures TerminalRows(e.jobs, e.outbox)
  {
    forall j | j in e.jobs && Terminal(e.jobs[j].state) ensures HasTerminalRow(e.outbox, j) {
      assert SameLease(d.jobs[j], e.jobs[j]);
      var i :| 0 <= i < |d.outbox| && TerminalKeyOf(d.outbox[i].key, j);
      assert TerminalKeyOf(e.outbox[i].key, j);
    }
    forall i | 0 <= i < |e.outbox| && IsTerminalKey(e.outbox[i].key)
      ensures e.outbox[i].key.job in e.jobs && Terminal(e.jobs[e.outbox[i].key.job].state)
      ensures e.outbox[i].key.JobCompleted? ==> e.outbox[i].key.generation == e.jobs[e.outbox[i].key.job].generation
    {
      assert i < |d.outbox| && e.outbox[i].key == d.outbox[i].key;
      assert SameLease(d.jobs[d.outbox[i].key.job], e.jobs[d.outbox[i].key.job]);
    }
    forall i, k | 0 <= i < k < |e.outbox| && IsTerminalKey(e.outbox[i].key)
      ensures !TerminalKeyOf(e.outbox[k].key, e.outbox[i].key.job)
    {
      assert e.outbox[i].key == d.outbox[i].key;
      if k < |d.outbox| { assert e.outbox[k].key == d.outbox[k].key; }
    }
  }

  lemma FrameKeepsValid(d: Db, e: Db)
    requires Valid(d) && Frame(d, e)
    ensures Valid(e)
  {
    forall j | j in e.jobs && j in d.jobs ensures SameLease(d.jobs[j], e.jobs[j]) {}
    FrameRuns(d, e);
    FrameRows(d, e);
    forall ws ensures Held(e.jobs, ws) == Held(d.jobs, ws) {
      forall j ensures j in Held(e.jobs, ws) <==> j in Held(d.jobs, ws) {
        if j in d.jobs { assert SameLease(d.jobs[j], e.jobs[j]); }
      }
    }
  }

  // ---- claim

  lemma HeadOfQueueIsDistinct(jobs: map<JobId, Job>, ws: WorkspaceId, rows: seq<JobId>, count: nat)
    requires HeadOfQueue(jobs, ws, rows, count)
    ensures forall i, k :: 0 <= i < k < |rows| ==> rows[i] != rows[k]
  {
    forall i, k | 0 <= i < k < |rows| ensures rows[i] != rows[k] {
      assert Before(jobs, rows[i], rows[k]);
    }
  }

  lemma {:induction false} CountDistinct<T>(s: seq<T>)
    ensures |set x | x in s| <= |s|
  {
    if s == [] {
    } else {
      var init, last := s[..|s| - 1], s[|s| - 1];
      CountDistinct(init);
      assert s == init + [last];
      assert (set x | x in s) == (set x | x in init) + {last};
    }
  }

  lemma ClaimKeepsCapacity(d: Db, ws: WorkspaceId, limit: int, rows: seq<JobId>, until: Time, now: Time)
    requires WithinCapacity(d) && ws in d.workspaces
    requires HeadOfQueue(d.jobs, ws, rows, Available(d.jobs, ws, limit, d.workspaces[ws].capacity))
    ensures WithinCapacity(d.(jobs := GrantRows(d.jobs, rows, until, now)))
  {
    var after := GrantRows(d.jobs, rows, until, now);
    forall v ensures |Held(after, v)| <= Capacity(d.workspaces, v) {
      assert |Held(d.jobs, v)| <= Capacity(d.workspaces, v);
      GrantedAreHeld(d.jobs, ws, rows, until, now, v);
      if v == ws { CountDistinct(rows); }
    }
  }

  lemma GrantedAreHeld(jobs: map<JobId, Job>, ws: WorkspaceId, rows: seq<JobId>, until: Time, now: Time, v: WorkspaceId)
    requires forall i :: 0 <= i < |rows| ==> rows[i] in Waiting(jobs, ws)
    ensures Held(GrantRows(jobs, rows, until, now), v) == Held(jobs, v) + if v == ws then set x | x in rows else {}
  {
    forall j | j in rows ensures j in Waiting(jobs, ws) {}
  }

  lemma GrantKeepsRuns(d: Db, ws: WorkspaceId, rows: seq<JobId>, until: Time, now: Time)
    requires RunShape(d.jobs, d.runs)
    requires forall i :: 0 <= i < |rows| ==> rows[i] in Waiting(d.jobs, ws)
    ensures RunShape(GrantRows(d.jobs, rows, until, now), d.runs)
  {
    var after := GrantRows(d.jobs, rows, until, now);
    forall r | r in d.runs ensures RunBacked(after, d.runs[r]) {
      assert RunBacked(d.jobs, d.runs[r]);
      if d.runs[r].job in rows { assert d.runs[r].job in Waiting(d.jobs, ws); }
    }
  }

  lemma GrantKeepsRows(d: Db, ws: WorkspaceId, rows: seq<JobId>, until: Time, now: Time)
    requires TerminalRows(d.jobs, d.outbox)
    requires forall i :: 0 <= i < |rows| ==> rows[i] in Waiting(d.jobs, ws)
    ensures TerminalRows(GrantRows(d.jobs, rows, until, now), d.outbox)
  {
    forall i | 0 <= i < |d.outbox| && IsTerminalKey(d.outbox[i].key) ensures d.outbox[i].key.job !in rows {
      forall k | 0 <= k < |rows| ensures rows[k] != d.outbox[i].key.job { assert rows[k] in Waiting(d.jobs, ws); }
    }
  }

  lemma GrantKeepsValid(d: Db, ws: WorkspaceId, limit: int, rows: seq<JobId>, until: Time, now: Time, e: Db)
    requires Valid(d) && ws in d.workspaces
    requires HeadOfQueue(d.jobs, ws, rows, Available(d.jobs, ws, limit, d.workspaces[ws].capacity))
    requires e == d.(jobs := GrantRows(d.jobs, rows, until, now))
    ensures Valid(e)
  {
    assert forall i :: 0 <= i < |rows| ==> rows[i] in Waiting(d.jobs, ws);
    assert LeaseShape(e.jobs) by { GrantKeepsShape(d.jobs, ws, rows, until, now); }
    assert RunShape(e.jobs, e.runs) by { GrantKeepsRuns(d, ws, rows, until, now); }
    assert TerminalRows(e.jobs, e.outbox) by { GrantKeepsRows(d, ws, rows, until, now); }
    ClaimKeepsCapacity(d, ws, limit, rows, until, now);
  }

  lemma ClaimKeepsValid(d: Db, ws: WorkspaceId, limit: int, seconds: real, now: Time,
                        rows: seq<JobId>, outcome: Outcome<seq<Lease>>, e: Db)
    requires Valid(d) && Claims(d, ws, limit, seconds, now, rows, outcome) && e == outcome.Commit(d)
    ensures Valid(e)
  {
    if e != d { GrantKeepsValid(d, ws, limit, rows, now + seconds, now, e); }
  }

  lemma GrantKeepsShape(jobs: map<JobId, Job>, ws: WorkspaceId, rows: seq<JobId>, until: Time, now: Time)
    requires LeaseShape(jobs)
    requires forall i :: 0 <= i < |rows| ==> rows[i] in Waiting(jobs, ws)
    ensures LeaseShape(GrantRows(jobs, rows, until, now))
  {
    forall j | j in rows ensures j in Waiting(jobs, ws) {}
  }

  /** The queue query has one answer, so a claim is a function of its arguments. */
  lemma {:induction false} HeadIsDetermined(
      jobs: map<JobId, Job>, ws: WorkspaceId, count: nat, a: seq<JobId>, b: seq<JobId>, n: nat)
    requires HeadOfQueue(jobs, ws, a, count) && HeadOfQueue(jobs, ws, b, count)
    requires n <= |a| && n <= |b|
    ensures a[..n] == b[..n]
  {
    if n == 0 {
    } else {
      HeadIsDetermined(jobs, ws, count, a, b, n - 1);
      var i := n - 1;
      forall k | 0 <= k < i ensures a[k] == b[k] { assert a[k] == a[..i][k]; }
      NotEarlier(jobs, ws, count, a, b, i);
      NotEarlier(jobs, ws, count, b, a, i);
      assert a[..n] == a[..i] + [a[i]] && b[..n] == b[..i] + [b[i]];
    }
  }

  /** After the same rows, the next of one answer is not earlier than the next of the other. */
  lemma NotEarlier(jobs: map<JobId, Job>, ws: WorkspaceId, count: nat, a: seq<JobId>, b: seq<JobId>, i: nat)
    requires HeadOfQueue(jobs, ws, a, count) && HeadOfQueue(jobs, ws, b, count)
    requires i < |a| && i < |b| && forall k :: 0 <= k < i ==> a[k] == b[k]
    ensures a[i] in jobs && b[i] in jobs && !Before(jobs, a[i], b[i])
  {
    HeadOfQueueIsDistinct(jobs, ws, a, count);
    assert a[i] in Waiting(jobs, ws) && b[i] in Waiting(jobs, ws);
    forall k | 0 <= k < i ensures b[k] != a[i] { assert b[k] == a[k]; }
    if a[i] in b {
      var k :| 0 <= k < |b| && b[k] == a[i];
      assert k == i || Before(jobs, b[i], b[k]);
    }
  }

  lemma ClaimIsDetermined(d: Db, ws: WorkspaceId, limit: int, seconds: real, now: Time,
                          a: seq<JobId>, b: seq<JobId>, x: Outcome<seq<Lease>>, y: Outcome<seq<Lease>>)
    requires Claims(d, ws, limit, seconds, now, a, x) && Claims(d, ws, limit, seconds, now, b, y)
    ensures a == b && x == y
  {
    if limit > 0 && ws in d.workspaces && d.workspaces[ws].enabled {
      var count := Available(d.jobs, ws, limit, d.workspaces[ws].capacity);
      var n := if |a| < |b| then |a| else |b|;
      HeadIsDetermined(d.jobs, ws, count, a, b, n);
      SameLength(d.jobs, ws, count, a, b);
      SameLength(d.jobs, ws, count, b, a);
      assert a[..n] == a && b[..n] == b;
    }
  }

  lemma SameLength(jobs: map<JobId, Job>, ws: WorkspaceId, count: nat, a: seq<JobId>, b: seq<JobId>)
    requires HeadOfQueue(jobs, ws, a, count) && HeadOfQueue(jobs, ws, b, count)
    ensures !(|a| < |b|)
  {
    if |a| < |b| {
      HeadIsDetermined(jobs, ws, count, a, b, |a|);
      HeadOfQueueIsDistinct(jobs, ws, b, count);
      var extra := b[|a|];
      assert extra in Waiting(jobs, ws);
      forall k | 0 <= k < |a| ensures a[k] != extra {
        assert a[k] == a[..|a|][k] && b[k] == b[..|a|][k];
      }
      assert false;
    }
  }

  // ---- start

  lemma UpgradeKeepsRuns(jobs: map<JobId, Job>, runs: map<RunId, Run>, run: RunId, refs: Refs)
    requires RunShape(jobs, runs) && run in runs
    ensures RunShape(jobs, runs[run := runs[run].(refs := Some(refs))])
  {
    var after := runs[run := runs[run].(refs := Some(refs))];
    forall r | r in after ensures RunBacked(jobs, after[r]) {
      assert RunBacked(jobs, runs[r]);
    }
    forall j | j in jobs && (jobs[j].state == Running || jobs[j].state == Succeeded)
      ensures HasRun(after, j, jobs[j].generation)
    {
      var r :| r in runs && runs[r].job == j && runs[r].generation == jobs[j].generation;
      assert after[r].job == j && after[r].generation == jobs[j].generation;
    }
  }

  lemma StartKeepsRuns(jobs: map<JobId, Job>, runs: map<RunId, Run>, lease: Lease, refs: Refs, now: Time)
    requires RunShape(jobs, runs) && lease.job in jobs && jobs[lease.job].state == Leased
    requires jobs[lease.job].generation == lease.generation && refs.run !in runs
    ensures RunShape(jobs[lease.job := jobs[lease.job].(state := Running, startedAt := Some(now))],
                     runs[refs.run := NewRun(lease, jobs[lease.job].ws, refs, now)])
  {
    var after := jobs[lease.job := jobs[lease.job].(state := Running, startedAt := Some(now))];
    var backed := runs[refs.run := NewRun(lease, jobs[lease.job].ws, refs, now)];
    forall r | r in runs ensures runs[r].job != lease.job {
      assert RunBacked(jobs, runs[r]);
    }
    forall r | r in backed ensures RunBacked(after, backed[r]) {
      if r in runs { assert RunBacked(jobs, runs[r]); }
    }
    forall j | j in after && (after[j].state == Running || after[j].state == Succeeded)
      ensures HasRun(backed, j, after[j].generation)
    {
      if j == lease.job {
        assert backed[refs.run].job == j && backed[refs.run].generation == after[j].generation;
      } else {
        var r :| r in runs && runs[r].job == j && runs[r].generation == jobs[j].generation;
        assert backed[r].job == j && backed[r].generation == after[j].generation;
      }
    }
  }

  lemma AddNonTerminal(
      jobs: map<JobId, Job>, outbox: seq<OutboxRow>, key: DedupeKey, rejection: Option<Rejection>, now: Time)
    requires TerminalRows(jobs, outbox) && !IsTerminalKey(key)
    ensures TerminalRows(jobs, AddOutbox(outbox, key, rejection, now))
  {
    var after := AddOutbox(outbox, key, rejection, now);
    forall j | j in jobs && Terminal(jobs[j].state) ensures HasTerminalRow(after, j) {
      var i :| 0 <= i < |outbox| && TerminalKeyOf(outbox[i].key, j);
      assert TerminalKeyOf(after[i].key, j);
    }
  }

  lemma SameHeld(d: Db, e: Db, touched: JobId)
    requires e.workspaces == d.workspaces && touched in d.jobs && WithinCapacity(d)
    requires e.jobs.Keys == d.jobs.Keys && forall j :: j in d.jobs && j != touched ==> e.jobs[j] == d.jobs[j]
    requires e.jobs[touched].ws == d.jobs[touched].ws
    requires Busy(e.jobs[touched].state) ==> Busy(d.jobs[touched].state)
    ensures WithinCapacity(e)
  {
    forall ws ensures |Held(e.jobs, ws)| <= Capacity(e.workspaces, ws) {
      forall j | j in Held(e.jobs, ws) ensures j in Held(d.jobs, ws) {
        assert j in e.jobs.Keys;
      }
      SubsetCount(Held(e.jobs, ws), Held(d.jobs, ws));
      assert |Held(d.jobs, ws)| <= Capacity(d.workspaces, ws);
    }
  }

  lemma StartKeepsRows(jobs: map<JobId, Job>, outbox: seq<OutboxRow>, job: JobId, after: Job, now: Time)
    requires TerminalRows(jobs, outbox) && job in jobs && !Terminal(jobs[job].state) && !Terminal(after.state)
    ensures TerminalRows(jobs[job := after], AddOutbox(outbox, JobStarted(job), None, now))
  {
    AddNonTerminal(jobs, outbox, JobStarted(job), None, now);
    RowsDependOnTerminalJobs(jobs, jobs[job := after], AddOutbox(outbox, JobStarted(job), None, now));
  }

  lemma BeginKeepsValid(d: Db, ws: WorkspaceId, lease: Lease, refs: Refs, now: Time)
    requires Valid(d) && Named(d, lease, ws) && d.jobs[lease.job].state == Leased && refs.run !in d.runs
    ensures Valid(BeginRun(d, ws, lease, refs, now))
  {
    var e := BeginRun(d, ws, lease, refs, now);
    assert RunShape(e.jobs, e.runs) by { StartKeepsRuns(d.jobs, d.runs, lease, refs, now); }
    assert TerminalRows(e.jobs, e.outbox) by {
      StartKeepsRows(d.jobs, d.outbox, lease.job, d.jobs[lease.job].(state := Running, startedAt := Some(now)), now);
    }
    assert WithinCapacity(e) by { SameHeld(d, e, lease.job); }
  }

  lemma UpgradeKeepsValid(d: Db, refs: Refs)
    requires Valid(d) && refs.run in d.runs
    ensures Valid(UpgradeRun(d, refs))
  {
    UpgradeKeepsRuns(d.jobs, d.runs, refs.run, refs);
    forall ws ensures |Held(UpgradeRun(d, refs).jobs, ws)| <= Capacity(d.workspaces, ws) {
      assert |Held(d.jobs, ws)| <= Capacity(d.workspaces, ws);
    }
  }

  lemma StartKeepsValid(d: Db, ws: WorkspaceId, lease: Lease, refs: Refs, now: Time)
    requires Valid(d)
    ensures Valid(Started(d, ws, lease, refs, now).Commit(d))
  {
    var outcome := Started(d, ws, lease, refs, now);
    if outcome.Done? && outcome.value {
      BeginKeepsValid(d, ws, lease, refs, now);
    } else if outcome.Done? && outcome.db != d {
      UpgradeKeepsValid(d, refs);
    }
  }

  lemma RowsDependOnTerminalJobs(jobs: map<JobId, Job>, after: map<JobId, Job>, outbox: seq<OutboxRow>)
    requires TerminalRows(jobs, outbox) && after.Keys == jobs.Keys
    requires forall j :: j in jobs ==> Terminal(after[j].state) == Terminal(jobs[j].state)
    requires forall j :: j in jobs && Terminal(jobs[j].state) ==> after[j].generation == jobs[j].generation
    ensures TerminalRows(after, outbox)
  {
    forall j | j in after && Terminal(after[j].state) ensures HasTerminalRow(outbox, j) {
      assert j in jobs.Keys;
    }
    forall i | 0 <= i < |outbox| && IsTerminalKey(outbox[i].key) ensures outbox[i].key.job in after {
      assert outbox[i].key.job in jobs.Keys;
    }
  }

  // ---- heartbeat

  lemma {:induction false} BeatAllShape(
      jobs: map<JobId, Job>, ws: WorkspaceId, active: seq<Lease>, until: Time, now: Time)
    ensures BeatAll(jobs, ws, active, until, now).Keys == jobs.Keys
    ensures forall j :: j in jobs ==>
              var a, b := jobs[j], BeatAll(jobs, ws, active, until, now)[j];
              b == a || (Busy(a.state) && Unexpired(a, now) && b == Extended(a, until, now))
    decreases |active|
  {
    if active == [] {
    } else {
      BeatAllShape(jobs, ws, active[..|active| - 1], until, now);
    }
  }

  lemma SameStatesKeepValid(d: Db, e: Db)
    requires Valid(d) && e == d.(jobs := e.jobs) && e.jobs.Keys == d.jobs.Keys
    requires forall j :: j in d.jobs ==>
               && e.jobs[j].state == d.jobs[j].state && e.jobs[j].generation == d.jobs[j].generation
               && e.jobs[j].ws == d.jobs[j].ws && e.jobs[j].finishedAt == d.jobs[j].finishedAt
               && e.jobs[j].startedAt == d.jobs[j].startedAt
               && e.jobs[j].leaseUntil.Some? == d.jobs[j].leaseUntil.Some?
    ensures Valid(e)
  {
    forall j ensures j in e.jobs <==> j in d.jobs { assert j in e.jobs.Keys <==> j in d.jobs.Keys; }
    forall r | r in e.runs ensures RunBacked(e.jobs, e.runs[r]) {
      assert RunBacked(d.jobs, d.runs[r]);
    }
    RowsDependOnTerminalJobs(d.jobs, e.jobs, e.outbox);
    forall ws ensures Held(e.jobs, ws) == Held(d.jobs, ws) {}
  }

  lemma HeartbeatKeepsValid(d: Db, ws: WorkspaceId, active: seq<Lease>, seconds: real, now: Time)
    requires Valid(d)
    ensures Valid(Heartbeat(d, ws, active, seconds, now).Commit(d))
  {
    if Heartbeat(d, ws, active, seconds, now).Done? {
      BeatAllShape(d.jobs, ws, active, now + seconds, now);
      SameStatesKeepValid(d, Heartbeat(d, ws, active, seconds, now).db);
    }
  }

  /** A batch extends exactly the live leases in it and reports exactly the others,
      although the report arrives as an error. */
  lemma {:induction false} HeartbeatExtendsExactlyTheLive(
      jobs: map<JobId, Job>, ws: WorkspaceId, active: seq<Lease>, until: Time, now: Time)
    requires until >= now
    ensures forall j :: j in jobs ==>
              BeatAll(jobs, ws, active, until, now)[j] ==
                if (exists i :: 0 <= i < |active| && active[i].job == j && Beats(jobs, ws, active[i], now))
                then Extended(jobs[j], until, now) else jobs[j]
    ensures forall lease :: lease in StaleOnes(jobs, ws, active, until, now) <==>
                            lease in active && !Beats(jobs, ws, lease, now)
    decreases |active|
  {
    if active == [] {
      assert BeatAll(jobs, ws, active, until, now) == jobs;
    } else {
      var init, last := active[..|active| - 1], active[|active| - 1];
      HeartbeatExtendsExactlyTheLive(jobs, ws, init, until, now);
      BeatAllShape(jobs, ws, init, until, now);
      var before := BeatAll(jobs, ws, init, until, now);
      assert active == init + [last];
      assert Beats(before, ws, last, now) <==> Beats(jobs, ws, last, now);
      forall j | j in jobs
        ensures BeatAll(jobs, ws, active, until, now)[j] ==
                if (exists i :: 0 <= i < |active| && active[i].job == j && Beats(jobs, ws, active[i], now))
                then Extended(jobs[j], until, now) else jobs[j]
      {
        BeatOne(jobs, ws, init, last, until, now, j);
      }
    }
  }

  lemma BeatOne(jobs: map<JobId, Job>, ws: WorkspaceId, init: seq<Lease>, last: Lease, until: Time, now: Time, j: JobId)
    requires j in jobs && BeatAll(jobs, ws, init, until, now).Keys == jobs.Keys
    requires BeatAll(jobs, ws, init, until, now)[j] ==
             if (exists i :: 0 <= i < |init| && init[i].job == j && Beats(jobs, ws, init[i], now))
             then Extended(jobs[j], until, now) else jobs[j]
    requires Beats(BeatAll(jobs, ws, init, until, now), ws, last, now) <==> Beats(jobs, ws, last, now)
    ensures var active := init + [last];
            BeatAll(jobs, ws, active, until, now)[j] ==
              if (exists i :: 0 <= i < |active| && active[i].job == j && Beats(jobs, ws, active[i], now))
              then Extended(jobs[j], until, now) else jobs[j]
  {
    var active := init + [last];
    assert active[..|active| - 1] == init && active[|active| - 1] == last;
    if i :| 0 <= i < |init| && init[i].job == j && Beats(jobs, ws, init[i], now) {
      assert active[i] == init[i];
    } else if last.job == j && Beats(jobs, ws, last, now) {
      assert active[|init|] == last;
    } else {
      forall i | 0 <= i < |active| && active[i].job == j ensures !Beats(jobs, ws, active[i], now) {
        if i < |init| { assert active[i] == init[i]; }
      }
    }
  }

  // ---- completion and failure

  lemma AddTerminal(jobs: map<JobId, Job>, after: map<JobId, Job>, outbox: seq<OutboxRow>, key: DedupeKey, now: Time)
    requires TerminalRows(jobs, outbox) && IsTerminalKey(key) && key.job in jobs && !Terminal(jobs[key.job].state)
    requires after.Keys == jobs.Keys && forall j :: j in jobs && j != key.job ==> after[j] == jobs[j]
    requires Terminal(after[key.job].state) && (key.JobCompleted? ==> key.generation == after[key.job].generation)
    ensures TerminalRows(after, AddOutbox(outbox, key, None, now))
    ensures AddOutbox(outbox, key, None, now) == outbox + [FreshRow(key, None, now)]
  {
    var rows := AddOutbox(outbox, key, None, now);
    assert !HasKey(outbox, key);
    assert rows[|outbox|].key == key;
    forall j | j in after && Terminal(after[j].state) ensures HasTerminalRow(rows, j) {
      assert j in jobs.Keys;
      if j == key.job {
        assert TerminalKeyOf(rows[|outbox|].key, j);
      } else {
        var i :| 0 <= i < |outbox| && TerminalKeyOf(outbox[i].key, j);
        assert TerminalKeyOf(rows[i].key, j);
      }
    }
    forall i | 0 <= i < |rows| && IsTerminalKey(rows[i].key) ensures rows[i].key.job in after {
      assert rows[i].key.job in jobs.Keys;
    }
  }

  lemma FinishKeepsRuns(d: Db, lease: Lease, done: Completion, now: Time)
    requires RunShape(d.jobs, d.runs) && lease.job in d.jobs
    requires d.jobs[lease.job].state == Running && d.jobs[lease.job].generation == lease.generation
    ensures RunShape(
              d.jobs[lease.job := Finished(d.jobs[lease.job], CompletionState(done), CompletionFailure(done), now)],
              FinishRuns(d.runs, lease, done, now))
  {
    var jobs := d.jobs[lease.job := Finished(d.jobs[lease.job], CompletionState(done), CompletionFailure(done), now)];
    var runs := FinishRuns(d.runs, lease, done, now);
    forall r | r in runs ensures RunBacked(jobs, runs[r]) {
      assert RunBacked(d.jobs, d.runs[r]);
    }
    forall j | j in jobs && (jobs[j].state == Running || jobs[j].state == Succeeded)
      ensures HasRun(runs, j, jobs[j].generation)
    {
      var r :| r in d.runs && d.runs[r].job == j && d.runs[r].generation == d.jobs[j].generation;
      assert runs[r].job == j && runs[r].generation == jobs[j].generation;
    }
  }

  lemma CompleteKeepsValid(d: Db, ws: WorkspaceId, lease: Lease, done: Completion, now: Time)
    requires Valid(d)
    ensures Valid(Completed(d, ws, lease, done, now).Commit(d))
  {
    var outcome := Completed(d, ws, lease, done, now);
    if outcome.Done? && outcome.value {
      FinishKeepsRuns(d, lease, done, now);
      AddTerminal(d.jobs, outcome.db.jobs, d.outbox, JobCompleted(lease.job, lease.generation), now);
      SameHeld(d, outcome.db, lease.job);
    }
  }

  lemma FailUnstartedKeepsValid(d: Db, ws: WorkspaceId, lease: Lease, error: Failure, now: Time)
    requires Valid(d)
    ensures Valid(FailedUnstarted(d, ws, lease, error, now).Commit(d))
  {
    var outcome := FailedUnstarted(d, ws, lease, error, now);
    if outcome.Done? && outcome.value {
      var e := outcome.db;
      forall r | r in e.runs ensures RunBacked(e.jobs, e.runs[r]) {
        assert RunBacked(d.jobs, d.runs[r]);
      }
      AddTerminal(d.jobs, e.jobs, d.outbox, JobCompleted(lease.job, lease.generation), now);
      SameHeld(d, e, lease.job);
    }
  }

  // ---- the reaper

  /** The reaper's rows, reached one lost job at a time. */
  lemma {:induction false} ReapKeepsRows(
      jobs: map<JobId, Job>, after: map<JobId, Job>, outbox: seq<OutboxRow>, order: seq<JobId>, now: Time)
    requires TerminalRows(jobs, outbox) && after.Keys == jobs.Keys
    requires forall i, k :: 0 <= i < k < |order| ==> order[i] != order[k]
    requires forall i :: 0 <= i < |order| ==>
               order[i] in jobs && !Terminal(jobs[order[i]].state) && Terminal(after[order[i]].state)
    requires forall j :: j in jobs && j !in order ==>
               Terminal(after[j].state) == Terminal(jobs[j].state) && after[j].generation == jobs[j].generation
    ensures TerminalRows(after, AddLost(outbox, order, now))
    decreases |order|
  {
    if order == [] {
      RowsDependOnTerminalJobs(jobs, after, outbox);
    } else {
      var init, last := order[..|order| - 1], order[|order| - 1];
      assert order == init + [last];
      var middle := after[last := jobs[last]];
      forall j | j in jobs && j !in init
        ensures Terminal(middle[j].state) == Terminal(jobs[j].state) && middle[j].generation == jobs[j].generation
      {
        if j != last { assert j !in order; }
      }
      ReapKeepsRows(jobs, middle, outbox, init, now);
      AddTerminal(middle, after, AddLost(outbox, init, now), RunnerLost(last), now);
    }
  }

  lemma ReapKeepsRuns(d: Db, now: Time)
    requires RunShape(d.jobs, d.runs)
    ensures RunShape(ReapedJobs(d.jobs, now), ReapedRuns(d.runs, ExpiredIn(d.jobs, Running, now), now))
  {
    var lost := ExpiredIn(d.jobs, Running, now);
    var jobs, runs := ReapedJobs(d.jobs, now), ReapedRuns(d.runs, lost, now);
    forall r | r in runs ensures RunBacked(jobs, runs[r]) {
      assert RunBacked(d.jobs, d.runs[r]);
    }
    forall j | j in jobs && (jobs[j].state == Running || jobs[j].state == Succeeded)
      ensures HasRun(runs, j, jobs[j].generation)
    {
      var r :| r in d.runs && d.runs[r].job == j && d.runs[r].generation == d.jobs[j].generation;
      assert runs[r].job == j && runs[r].generation == jobs[j].generation;
    }
  }

  lemma ReapKeepsValid(d: Db, now: Time, order: seq<JobId>, e: Db)
    requires Valid(d) && Reaps(d, now, order, e)
    ensures Valid(e)
  {
    ReapKeepsShape(d.jobs, now);
    ReapKeepsRuns(d, now);
    ReapKeepsTerminalRows(d, now, order);
    ReapKeepsCapacity(d, now);
  }

  lemma ReapKeepsTerminalRows(d: Db, now: Time, order: seq<JobId>)
    requires TerminalRows(d.jobs, d.outbox) && Enumerates(order, ExpiredIn(d.jobs, Running, now))
    ensures TerminalRows(ReapedJobs(d.jobs, now), AddLost(d.outbox, order, now))
  {
    var jobs := ReapedJobs(d.jobs, now);
    forall j | j in d.jobs && j !in order
      ensures Terminal(jobs[j].state) == Terminal(d.jobs[j].state) && jobs[j].generation == d.jobs[j].generation
    {
      assert j !in ExpiredIn(d.jobs, Running, now);
    }
    ReapKeepsRows(d.jobs, jobs, d.outbox, order, now);
  }

  lemma ReapKeepsShape(jobs: map<JobId, Job>, now: Time)
    requires LeaseShape(jobs)
    ensures LeaseShape(ReapedJobs(jobs, now))
  {
  }

  lemma ReapKeepsCapacity(d: Db, now: Time)
    requires WithinCapacity(d)
    ensures WithinCapacity(d.(jobs := ReapedJobs(d.jobs, now)))
  {
    var jobs := ReapedJobs(d.jobs, now);
    forall ws ensures |Held(jobs, ws)| <= Capacity(d.workspaces, ws) {
      assert |Held(d.jobs, ws)| <= Capacity(d.workspaces, ws);
      SubsetCount(Held(jobs, ws), Held(d.jobs, ws));
    }
  }
}
