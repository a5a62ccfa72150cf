/**
  What scheduling, handing out and finishing cleanups leave in the tables, said of the rows
  before and after.
*/
module CleanupEffects {
  import opened Basics
  import opened Tables
  import opened Cleanup
  import opened StoreRuns
  import opened RetentionRuns

  // ---- scheduling

  predicate OfRun(k: MrKey, job: JobId, run: RunId) {
    k.job == job && k.run == run
  }

  /** An implementation run that succeeded, whose outcome is recorded and still the latest of its
      conversation, and whose merge requests, of which there are some, are all merged. */
  predicate AllIn(d: Db, r: RunId) {
    && r in d.runs && d.runs[r].state == RunSucceeded
    && d.runs[r].job in d.jobs
    && var job := d.jobs[d.runs[r].job];
    && job.state == Succeeded && job.envelope.trigger == Ready
    && job.conv in d.convs && d.convs[job.conv].current == Some(d.runs[r].job) && d.convs[job.conv].status == Concluded
    && (exists k :: k in d.mrs && OfRun(k, d.runs[r].job, r))
    && (forall k :: k in d.mrs && OfRun(k, d.runs[r].job, r) ==> d.mrs[k].state == Merged && d.mrs[k].mergedAt.Some?)
  }

  /** The last merge of the run's merge requests was at this instant. */
  predicate LastMerge(d: Db, r: RunId, at: Time)
    requires r in d.runs
  {
    && (exists k :: k in d.mrs && OfRun(k, d.runs[r].job, r) && d.mrs[k].mergedAt == Some(at))
    && (forall k :: k in d.mrs && OfRun(k, d.runs[r].job, r) && d.mrs[k].mergedAt.Some? ==>
       d.mrs[k].mergedAt.value <= at)
  }

  /** The rows of one run after scheduling: it may be cleaned up seven days after its last merge,
      and is waiting to be once that time has come. */
  ghost predicate RunIsScheduled(d: Db, now: Time, r: RunId, at: Time, e: Db, due: bool)
    requires r in d.runs && d.runs[r].job in d.jobs
  {
    && LastMerge(d, r, at)
    && r in e.retention
    && e.retention[r] == Retention(at + 604800.0, if r in d.retention then d.retention[r].compactedAt else None)
    && (due <==> r !in d.actions && at + 604800.0 <= now)
    && (r in e.actions <==> due || r in d.actions)
    && (r in e.actions ==>
          e.actions[r] == if due then Action(d.jobs[d.runs[r].job].ws, d.runs[r].job, ActPending, 0, None, now)
                          else d.actions[r])
  }

  lemma SchedulingIsExact(d: Db, now: Time, e: Db, scheduled: set<RunId>, r: RunId)
    requires Schedules(d, now, e, scheduled)
    ensures e == d.(retention := e.retention, actions := e.actions)
    ensures AllIn(d, r) ==> exists at :: RunIsScheduled(d, now, r, at, e, r in scheduled)
    ensures !AllIn(d, r) ==>
              && r !in scheduled
              && (r in e.retention <==> r in d.retention) && (r in d.retention ==> e.retention[r] == d.retention[r])
              && (r in e.actions <==> r in d.actions) && (r in d.actions ==> e.actions[r] == d.actions[r])
  {
    assert RunScheduled(d, now, r, Row(e.retention, r), Row(e.actions, r), r in scheduled);
    MeaningOfMergeable(d, r);
    if AllIn(d, r) {
      var at := e.retention[r].eligibleAfter - 604800.0;
      assert MERGE_RETENTION_SECONDS == 604800.0;
      MeaningOfNewest(d, r, at);
      assert RunIsScheduled(d, now, r, at, e, r in scheduled);
    }
  }

  lemma MeaningOfMergeable(d: Db, r: RunId)
    ensures Mergeable(d, r) <==> AllIn(d, r)
  {
    if Settled(d, r) {
      var keys := MrsOf(d.mrs, d.runs[r].job, r);
      if k :| k in d.mrs && OfRun(k, d.runs[r].job, r) { assert k in keys; }
      if keys != {} { var k :| k in keys; assert OfRun(k, d.runs[r].job, r); }
      if AllMerged(d.mrs, keys) {
        forall k | k in d.mrs && OfRun(k, d.runs[r].job, r)
          ensures d.mrs[k].state == Merged && d.mrs[k].mergedAt.Some?
        {
          assert k in keys;
        }
      }
      if AllIn(d, r) {
        forall k | k in keys ensures d.mrs[k].state == Merged && d.mrs[k].mergedAt.Some? {
          assert OfRun(k, d.runs[r].job, r);
        }
      }
    }
  }

  lemma MeaningOfNewest(d: Db, r: RunId, at: Time)
    requires r in d.runs && NewestMerge(d, r, at)
    ensures LastMerge(d, r, at)
  {
    var keys := MrsOf(d.mrs, d.runs[r].job, r);
    var k :| k in keys && d.mrs[k].mergedAt == Some(at);
    assert OfRun(k, d.runs[r].job, r);
    forall k | k in d.mrs && OfRun(k, d.runs[r].job, r) && d.mrs[k].mergedAt.Some?
      ensures d.mrs[k].mergedAt.value <= at
    {
      assert k in keys;
    }
  }

  /** A cleanup appears exactly when scheduling finds all merge requests of the run in, the last of
      them merged a week ago or longer, and no cleanup of it yet. */
  lemma CleanupAppearsExactly(d: Db, step: Step, now: Time, e: Db, r: RunId)
    requires Next(d, step, now, e)
    ensures r !in d.actions && r in e.actions <==>
              && step.Schedule? && r !in d.actions && AllIn(d, r)
              && exists at :: LastMerge(d, r, at) && at + 604800.0 <= now
  {
    if step.Schedule? {
      var scheduled :| Schedules(d, now, e, scheduled);
      SchedulingIsExact(d, now, e, scheduled, r);
      if AllIn(d, r) {
        var at :| RunIsScheduled(d, now, r, at, e, r in scheduled);
        if other :| LastMerge(d, r, other) && other + 604800.0 <= now { assert other == at; }
      }
    } else {
      OnlyScheduleInserts(d, step, now, e);
    }
  }

  // ---- handing out

  predicate WaitsFor(d: Db, ws: WorkspaceId, r: RunId, now: Time) {
    && r in d.actions && d.actions[r].ws == ws
    && (d.actions[r].state == ActPending
        || (d.actions[r].state == ActLeased && d.actions[r].leaseUntil.Some? && d.actions[r].leaseUntil.value < now))
  }

  /** Its job has ended and is still the conversation's latest. */
  predicate StillCurrent(d: Db, ws: WorkspaceId, job: JobId) {
    && job in d.jobs && d.jobs[job].ws == ws
    && (d.jobs[job].state == Succeeded || d.jobs[job].state == Failed || d.jobs[job].state == Cancelled)
    && d.jobs[job].conv in d.convs && d.convs[d.jobs[job].conv].current == Some(job)
  }

  predicate Sooner(d: Db, a: RunId, b: RunId)
    requires a in d.actions && b in d.actions
  {
    d.actions[a].createdAt < d.actions[b].createdAt || (d.actions[a].createdAt == d.actions[b].createdAt && a < b)
  }

  /** `rows` are the oldest cleanups that wait, at most five and at most as many as were asked for. */
  ghost predicate Considers(d: Db, ws: WorkspaceId, limit: int, now: Time, rows: seq<RunId>) {
    && (forall i :: 0 <= i < |rows| ==> WaitsFor(d, ws, rows[i], now))
    && (forall i, k :: 0 <= i < k < |rows| ==> Sooner(d, rows[i], rows[k]))
    && |rows| <= 5 && |rows| <= (if limit < 0 then 0 else limit)
    && (forall r :: WaitsFor(d, ws, r, now) && r !in rows ==>
          && (|rows| == 5 || |rows| == (if limit < 0 then 0 else limit))
          && forall i :: 0 <= i < |rows| ==> Sooner(d, rows[i], r))
  }

  /** Of these, the ones whose job is still current are handed out, in order. */
  ghost predicate Picks(d: Db, ws: WorkspaceId, rows: seq<RunId>, claimed: seq<RunId>) {
    && (forall r :: r in claimed <==> r in rows && r in d.actions && StillCurrent(d, ws, d.actions[r].job))
    && (forall i, k :: 0 <= i < k < |claimed| ==>
          claimed[i] in d.actions && claimed[k] in d.actions && Sooner(d, claimed[i], claimed[k]))
  }

  ghost predicate PickedFrom(d: Db, ws: WorkspaceId, limit: int, now: Time, rows: seq<RunId>, claimed: seq<RunId>) {
    Considers(d, ws, limit, now, rows) && Picks(d, ws, rows, claimed)
  }

  /** They are what is still current among the oldest that wait. */
  ghost predicate OldestCurrent(d: Db, ws: WorkspaceId, limit: int, now: Time, claimed: seq<RunId>) {
    exists rows :: PickedFrom(d, ws, limit, now, rows, claimed)
  }

  predicate ActionLeft(d: Db, ws: WorkspaceId, r: RunId, claimed: bool, until: Time, now: Time, after: Action)
    requires r in d.actions
  {
    var action := d.actions[r];
    after ==
      if claimed then action.(state := ActLeased, generation := action.generation + 1, leaseUntil := Some(until))
      else if action.state == ActLeased && WaitsFor(d, ws, r, now) then action.(state := ActPending, leaseUntil := None)
      else action
  }

  predicate CleansFor(d: Db, claimed: seq<RunId>, c: ConvKey) {
    exists r :: r in claimed && r in d.actions && d.actions[r].job in d.jobs && d.jobs[d.actions[r].job].conv == c
  }

  /** Each gets a lease of its next generation, and its conversation reads as cleaning. */
  ghost predicate HandedOut(
      d: Db, ws: WorkspaceId, claimed: seq<RunId>, until: Time, now: Time, e: Db)
  {
    && e == d.(actions := e.actions, convs := e.convs)
    && e.actions.Keys == d.actions.Keys && e.convs.Keys == d.convs.Keys
    && (forall r :: r in d.actions ==> ActionLeft(d, ws, r, r in claimed, until, now, e.actions[r]))
    && (forall c :: c in d.convs ==>
          e.convs[c] == if CleansFor(d, claimed, c) then d.convs[c].(status := Cleaning) else d.convs[c])
  }

  /** What is handed out is what is still current of the oldest cleanups that wait, in order. */
  lemma OldestAreHandedOut(
      d: Db, ws: WorkspaceId, limit: int, seconds: real, now: Time, e: Db, claimed: seq<RunId>)
    requires ActionsClaimed(d, ws, limit, seconds, now, e, claimed)
    ensures OldestCurrent(d, ws, limit, now, claimed)
    ensures forall r :: r in claimed ==> WaitsFor(d, ws, r, now)
  {
    var rows := RowsRead(d, ws, limit, seconds, now, e, claimed);
    ConsidersHead(d, ws, limit, now, rows);
    PicksCurrent(d, ws, rows, now, now + seconds, e, claimed);
    assert PickedFrom(d, ws, limit, now, rows, claimed);
  }

  /** And each is leased, its conversation being cleaned. */
  lemma HandedOutAreLeased(
      d: Db, ws: WorkspaceId, limit: int, seconds: real, now: Time, e: Db, claimed: seq<RunId>)
    requires ActionsClaimed(d, ws, limit, seconds, now, e, claimed)
    ensures HandedOut(d, ws, claimed, now + seconds, now, e)
  {
    OldestAreHandedOut(d, ws, limit, seconds, now, e, claimed);
    var rows := RowsRead(d, ws, limit, seconds, now, e, claimed);
    LeasedFrom(d, ws, rows, now, now + seconds, e, claimed);
  }

  lemma RowsRead(d: Db, ws: WorkspaceId, limit: int, seconds: real, now: Time, e: Db, claimed: seq<RunId>)
    returns (rows: seq<RunId>)
    requires ActionsClaimed(d, ws, limit, seconds, now, e, claimed)
    ensures HeadOfActions(FreedActions(d.actions, ws, now), ws, rows, AtMostFive(limit))
    ensures ClaimedFrom(d, ws, rows, FreedActions(d.actions, ws, now), now + seconds, e, claimed)
  {
    rows :| HeadOfActions(FreedActions(d.actions, ws, now), ws, rows, AtMostFive(limit))
        && ClaimedFrom(d, ws, rows, FreedActions(d.actions, ws, now), now + seconds, e, claimed);
  }

  lemma LeasedFrom(d: Db, ws: WorkspaceId, rows: seq<RunId>, now: Time, until: Time, e: Db, claimed: seq<RunId>)
    requires ClaimedFrom(d, ws, rows, FreedActions(d.actions, ws, now), until, e, claimed)
    requires forall r :: r in claimed ==> WaitsFor(d, ws, r, now)
    ensures HandedOut(d, ws, claimed, until, now, e)
  {
    ActionsAreLeased(d, ws, rows, now, until, e, claimed);
    ConvsAreCleaned(d, ws, rows, now, until, e, claimed);
  }

  lemma ActionsAreLeased(d: Db, ws: WorkspaceId, rows: seq<RunId>, now: Time, until: Time, e: Db, claimed: seq<RunId>)
    requires ClaimedFrom(d, ws, rows, FreedActions(d.actions, ws, now), until, e, claimed)
    requires forall r :: r in claimed ==> WaitsFor(d, ws, r, now)
    ensures e == d.(actions := e.actions, convs := e.convs) && e.actions.Keys == d.actions.Keys
    ensures forall r :: r in d.actions ==> ActionLeft(d, ws, r, r in claimed, until, now, e.actions[r])
  {
    var freed := FreedActions(d.actions, ws, now);
    assert e.actions == TakenActions(freed, claimed, until);
    assert e.actions.Keys == freed.Keys == d.actions.Keys;
    forall r | r in d.actions ensures ActionLeft(d, ws, r, r in claimed, until, now, e.actions[r]) {
      if r in claimed { assert WaitsFor(d, ws, r, now); }
    }
  }

  lemma SameOrder(d: Db, ws: WorkspaceId, now: Time, a: RunId, b: RunId)
    requires a in d.actions && b in d.actions
    ensures Sooner(d, a, b) <==> Earlier(FreedActions(d.actions, ws, now), a, b)
  {
  }

  lemma ConsidersHead(d: Db, ws: WorkspaceId, limit: int, now: Time, rows: seq<RunId>)
    requires HeadOfActions(FreedActions(d.actions, ws, now), ws, rows, AtMostFive(limit))
    ensures Considers(d, ws, limit, now, rows)
  {
    var freed := FreedActions(d.actions, ws, now);
    forall r ensures WaitsFor(d, ws, r, now) <==> r in PendingActions(freed, ws) {}
    forall i | 0 <= i < |rows| ensures WaitsFor(d, ws, rows[i], now) { assert rows[i] in PendingActions(freed, ws); }
    forall i, k | 0 <= i < k < |rows| ensures Sooner(d, rows[i], rows[k]) { SameOrder(d, ws, now, rows[i], rows[k]); }
    forall r, i | WaitsFor(d, ws, r, now) && r !in rows && 0 <= i < |rows| ensures Sooner(d, rows[i], r) {
      SameOrder(d, ws, now, rows[i], r);
    }
  }

  lemma PicksCurrent(d: Db, ws: WorkspaceId, rows: seq<RunId>, now: Time, until: Time, e: Db, claimed: seq<RunId>)
    requires forall i :: 0 <= i < |rows| ==> WaitsFor(d, ws, rows[i], now)
    requires ClaimedFrom(d, ws, rows, FreedActions(d.actions, ws, now), until, e, claimed)
    ensures Picks(d, ws, rows, claimed)
    ensures forall r :: r in claimed ==> WaitsFor(d, ws, r, now)
  {
    var freed := FreedActions(d.actions, ws, now);
    forall r | r in d.actions ensures HandsOut(d, ws, freed[r]) <==> StillCurrent(d, ws, d.actions[r].job) {}
    forall i, k | 0 <= i < k < |claimed|
      ensures claimed[i] in d.actions && claimed[k] in d.actions && Sooner(d, claimed[i], claimed[k])
    {
      assert claimed[i] in claimed && claimed[k] in claimed;
      SameOrder(d, ws, now, claimed[i], claimed[k]);
    }
  }

  lemma ConvsAreCleaned(d: Db, ws: WorkspaceId, rows: seq<RunId>, now: Time, until: Time, e: Db, claimed: seq<RunId>)
    requires ClaimedFrom(d, ws, rows, FreedActions(d.actions, ws, now), until, e, claimed)
    ensures e.convs.Keys == d.convs.Keys
    ensures forall c :: c in d.convs ==>
              e.convs[c] == if CleansFor(d, claimed, c) then d.convs[c].(status := Cleaning) else d.convs[c]
  {
    var freed := FreedActions(d.actions, ws, now);
    var taken := set r | r in claimed && r in freed :: freed[r].job;
    forall c | c in d.convs
      ensures CleansFor(d, claimed, c) <==> exists j :: j in taken && j in d.jobs && d.jobs[j].conv == c
    {
      if r :| r in claimed && r in d.actions && d.actions[r].job in d.jobs && d.jobs[d.actions[r].job].conv == c {
        assert freed[r].job in taken;
      }
      if j :| j in taken && j in d.jobs && d.jobs[j].conv == c {
        var r :| r in claimed && r in freed && freed[r].job == j;
        assert d.actions[r].job == j;
      }
    }
  }

  // ---- finishing

  predicate HoldsCleanup(d: Db, ws: WorkspaceId, run: RunId, generation: nat, now: Time) {
    && run in d.actions && d.actions[run].ws == ws && d.actions[run].generation == generation
    && d.actions[run].state == ActLeased
    && d.actions[run].leaseUntil.Some? && now <= d.actions[run].leaseUntil.value
  }

  /** The conversation of the job, whichever job is current in it, reads as `status`. */
  predicate ConversationReads(d: Db, job: JobId, status: ConvStatus, e: Db)
    requires job in d.jobs
  {
    var c := d.jobs[job].conv;
    e.convs == if c in d.convs then d.convs[c := d.convs[c].(status := status)] else d.convs
  }

  /** A cleanup is finished only under its live lease.  A failure is recorded of the action and the
      conversation; a success also empties the job's messages and the run's references, result
      and error, once per run. */
  lemma CleanupIsFinished(d: Db, ws: WorkspaceId, run: RunId, generation: nat, success: bool, now: Time)
    ensures var o := ActionFinished(d, ws, run, generation, success, now);
            && (o.Done? && o.value ==>
                  && HoldsCleanup(d, ws, run, generation, now) && d.actions[run].job in d.jobs
                  && var e, job := o.db, d.actions[run].job;
                  if success then
                    && run in d.runs && run in d.retention && d.retention[run].compactedAt == None
                    && ConversationReads(d, job, Archived, e)
                    && e == d.(
                         actions := d.actions[run := d.actions[run].(state := ActDone, leaseUntil := None)],
                         retention := d.retention[run := d.retention[run].(compactedAt := Some(now))],
                         jobs := d.jobs[job := d.jobs[job].(envelope := d.jobs[job].envelope.(messages := []))],
                         runs := d.runs[run := d.runs[run].(refs := None, result := None, error := None)],
                         convs := e.convs)
                  else
                    && ConversationReads(d, job, CleanupFailed, e)
                    && e == d.(
                         actions := d.actions[run := d.actions[run].(state := ActFailed, leaseUntil := None)],
                         convs := e.convs))
            && (o.Done? && !o.value <==>
                  && run in d.actions && d.actions[run].ws == ws && d.actions[run].generation == generation
                  && (d.actions[run].state == ActDone || d.actions[run].state == ActFailed))
            && (o.Done? && !o.value ==> o.db == d)
            && (o.Refused? ==>
                  if HoldsCleanup(d, ws, run, generation, now) then
                    && o.error == MissingRow
                    && (d.actions[run].job !in d.jobs
                        || (success && !(run in d.runs && run in d.retention && d.retention[run].compactedAt == None)))
                  else o.error == StaleLease)
  {
  }
}
