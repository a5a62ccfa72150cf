/**
  A run in which a job gets its successor before its outcome is posted.  A cleanup of
  the first job is handed out while the poller is between placing the conversation and
  creating the second job; it finishes when the second job has finished too, and writes
  'archived' over 'finishing'.  Nothing then stops a third job.
*/
module Overwriting {
  import opened Basics
  import opened Tables
  import opened Leases
  import opened Intake
  import opened Delivery
  import opened Cleanup
  import opened StoreRuns
  import opened Hosted
  import opened NotesOnce
  import opened HostedRuns
  import opened Successors

  ghost predicate Ends(s: Sys, states: seq<Sys>, acts: seq<Act>, times: seq<Time>) {
    IsSysRun(states, acts, times) && states[|acts|] == s
  }

  ghost predicate Reachable(s: Sys) {
    exists states, acts, times :: Ends(s, states, acts, times)
  }

  lemma BootIsReachable(workspaces: map<WorkspaceId, Workspace>)
    ensures Reachable(Boot(workspaces))
  {
    assert Ends(Boot(workspaces), [Boot(workspaces)], [], []);
  }

  lemma Extend(s: Sys, act: Act, now: Time, t: Sys)
    requires Reachable(s) && SysNext(s, act, now, t)
    ensures Reachable(t)
  {
    var states, acts, times :| Ends(s, states, acts, times);
    var states2, acts2, times2 := states + [t], acts + [act], times + [now];
    forall i | 0 <= i < |acts2| ensures ActAt(states2, acts2, times2, i) {
      if i < |acts| { assert ActAt(states, acts, times, i); }
    }
    assert Ends(t, states2, acts2, times2);
  }

  // ---- the cast

  const C := ConvKey(0, 0)
  const SPACES: map<WorkspaceId, Workspace> := map[0 := Workspace(0, 1, true)]
  const WEEK := MERGE_RETENTION_SECONDS

  function Trig(n: nat): Candidate {
    Candidate(EventKey(0, LabelEvent, n, 0), C, 0, 0, Ready, IssueTarget(0), [], None, None)
  }

  function RefsOf(n: nat): Refs {
    Refs(10 + n, 0, 0, 0, None)
  }

  const DONE := Completion(true, Some("done"), None)

  /** Job `n` of the conversation: queued, then granted, started and finished at one instant. */
  function QueuedJob(n: nat, at: Time): Job {
    NewJob(EnvelopeOf(Trig(n), n), 0, at)
  }

  function GrantedJob(n: nat, at: Time): Job {
    Granted(QueuedJob(n, at), at + 100.0, at)
  }

  function StartedJob(n: nat, at: Time): Job {
    GrantedJob(n, at).(state := Running, startedAt := Some(at))
  }

  function FinishedJob(n: nat, at: Time): Job {
    Finished(StartedJob(n, at), Succeeded, None, at)
  }

  function StartedRun(n: nat, at: Time): Run {
    NewRun(Lease(n, 1), 0, RefsOf(n), at)
  }

  function RanRun(n: nat, at: Time): Run {
    FinishedRun(StartedRun(n, at), DONE, at)
  }

  // ---- a job runs to its end

  /** A database in which job `n` is current and queued and nothing is running. */
  predicate Startable(d: Db, n: nat, at: Time) {
    && n in d.jobs && d.jobs[n] == QueuedJob(n, at) && d.workspaces == SPACES
    && (forall j :: j in d.jobs && j != n ==> Terminal(d.jobs[j].state))
    && C in d.convs && d.convs[C].current == Some(n) && d.convs.Keys == {C}
    && 10 + n !in d.runs && !HasRun(d.runs, n, 1)
    && !HasKey(d.outbox, JobStarted(n)) && !HasKey(d.outbox, JobCompleted(n, 1))
  }

  function Ran(d: Db, n: nat, at: Time): Db
    requires C in d.convs
  {
    d.(jobs := d.jobs[n := FinishedJob(n, at)], runs := d.runs[10 + n := RanRun(n, at)],
       convs := d.convs[C := d.convs[C].(status := Finishing)],
       outbox := d.outbox + [FreshRow(JobStarted(n), None, at), FreshRow(JobCompleted(n, 1), None, at)])
  }

  lemma ClaimHappens(d: Db, n: nat, at: Time)
    requires Startable(d, n, at)
    ensures Next(d, Claim(0, 1, 100.0), at, d.(jobs := d.jobs[n := GrantedJob(n, at)]))
  {
    assert Waiting(d.jobs, 0) == {n} && Held(d.jobs, 0) == {};
    assert HeadOfQueue(d.jobs, 0, [n], Available(d.jobs, 0, 1, 1));
    assert GrantRows(d.jobs, [n], at + 100.0, at) == d.jobs[n := GrantedJob(n, at)];
    var outcome := Done(d.(jobs := d.jobs[n := GrantedJob(n, at)]), GrantedLeases(d.jobs, [n]));
    assert Claims(d, 0, 1, 100.0, at, [n], outcome);
  }

  function Underway(d: Db, n: nat, at: Time): Db
    requires C in d.convs
  {
    d.(jobs := d.jobs[n := StartedJob(n, at)], runs := d.runs[10 + n := StartedRun(n, at)],
       convs := d.convs[C := d.convs[C].(status := Working)],
       outbox := d.outbox + [FreshRow(JobStarted(n), None, at)])
  }

  lemma StartHappens(d: Db, n: nat, at: Time)
    requires Startable(d, n, at)
    ensures Next(d.(jobs := d.jobs[n := GrantedJob(n, at)]), Start(0, Lease(n, 1), RefsOf(n)), at, Underway(d, n, at))
  {
    var e := d.(jobs := d.jobs[n := GrantedJob(n, at)]);
    assert SetStatusOfCurrent(e.convs, {n}, Working) == e.convs[C := e.convs[C].(status := Working)];
    assert e.jobs[n := StartedJob(n, at)] == d.jobs[n := StartedJob(n, at)];
    assert Started(e, 0, Lease(n, 1), RefsOf(n), at) == Done(Underway(d, n, at), true);
  }

  lemma CompleteHappens(d: Db, n: nat, at: Time)
    requires Startable(d, n, at)
    ensures Next(Underway(d, n, at), Complete(0, Lease(n, 1), DONE), at, Ran(d, n, at))
  {
    var e := Underway(d, n, at);
    assert e.runs[10 + n].job == n && e.runs[10 + n].generation == 1;
    assert SetStatusOfCurrent(e.convs, {n}, Finishing) == d.convs[C := d.convs[C].(status := Finishing)];
    assert FinishRuns(e.runs, Lease(n, 1), DONE, at) == d.runs[10 + n := RanRun(n, at)] by {
      forall r | r in d.runs && r != 10 + n ensures !(d.runs[r].job == n && d.runs[r].generation == 1) {}
    }
    assert e.jobs[n := FinishedJob(n, at)] == d.jobs[n := FinishedJob(n, at)];
    StillNoKey(d.outbox, FreshRow(JobStarted(n), None, at), JobCompleted(n, 1));
    assert AddOutbox(e.outbox, JobCompleted(n, 1), None, at)
        == d.outbox + [FreshRow(JobStarted(n), None, at), FreshRow(JobCompleted(n, 1), None, at)];
    assert Completed(e, 0, Lease(n, 1), DONE, at) == Done(Ran(d, n, at), true);
  }

  lemma StillNoKey(outbox: seq<OutboxRow>, row: OutboxRow, key: DedupeKey)
    requires !HasKey(outbox, key) && row.key != key
    ensures !HasKey(outbox + [row], key)
  {
  }

  lemma JobRuns(s: Sys, n: nat, at: Time)
    requires Reachable(s) && Startable(s.db, n, at)
    ensures Reachable(s.(db := Ran(s.db, n, at)))
  {
    ClaimHappens(s.db, n, at);
    StartHappens(s.db, n, at);
    CompleteHappens(s.db, n, at);
    var s1 := s.(db := s.db.(jobs := s.db.jobs[n := GrantedJob(n, at)]));
    Extend(s, Env(Claim(0, 1, 100.0)), at, s1);
    var s2 := s.(db := Underway(s.db, n, at));
    Extend(s1, Env(Start(0, Lease(n, 1), RefsOf(n))), at, s2);
    Extend(s2, Env(Complete(0, Lease(n, 1), DONE)), at, s.(db := Ran(s.db, n, at)));
  }

  // ---- dispatching job `n`

  lemma Admits(s: Sys, n: nat, at: Time)
    requires Reachable(s) && s.poller.AtRest? && !Consumed(s.db, Trig(n).event)
    requires Decided(s.db, Trig(n)) == Admitted(Trig(n)) && Upserted(s.db, C, 0).Done?
    ensures Reachable(s.(db := Upserted(s.db, C, 0).db, poller := Placed(Trig(n))))
  {
    var s1 := s.(poller := Considering(Trig(n)));
    Extend(s, Consider(Trig(n)), at, s1);
    var s2 := s.(poller := Admitted(Trig(n)));
    Extend(s1, ReadActive, at, s2);
    Extend(s2, PlaceConversation, at, s.(db := Upserted(s.db, C, 0).db, poller := Placed(Trig(n))));
  }

  lemma Creates(s: Sys, n: nat, at: Time)
    requires Reachable(s) && s.poller == Placed(Trig(n))
    requires DispatchRecorded(s.db, EnvelopeOf(Trig(n), n), at).Done?
    ensures Reachable(s.(db := DispatchRecorded(s.db, EnvelopeOf(Trig(n), n), at).db, poller := AtRest))
  {
    Extend(s, CreateJob(n), at, s.(db := DispatchRecorded(s.db, EnvelopeOf(Trig(n), n), at).db, poller := AtRest));
  }

  // ---- job 1 is created and runs

  predicate Ended(job: Job, n: nat) {
    job.state == Succeeded && job.conv == C && job.ws == 0 && job.event == Trig(n).event
    && job.envelope.trigger == Ready && job.envelope.target == IssueTarget(0)
  }

  /** Job 1 is the only one, has finished, and is current. */
  predicate Past(d: Db) {
    && d.workspaces == SPACES && d.jobs.Keys == {1} && Ended(d.jobs[1], 1)
    && d.runs.Keys == {11} && d.runs[11].job == 1 && d.runs[11].generation == 1 && d.runs[11].state == RunSucceeded
    && d.runs[11].result.Some?
    && d.convs.Keys == {C} && d.convs[C].current == Some(1) && d.convs[C].ws == 0
    && d.receipts.Keys == {Trig(1).event}
  }

  function Still(d: Db): Sys {
    Sys(d, AtRest, Resting, [], [], {})
  }

  const FRESH0 := FreshRow(JobStarted(1), None, 0.0)
  const FRESH1 := FreshRow(JobCompleted(1, 1), None, 0.0)

  lemma FirstJobIsCreated() returns (d: Db)
    ensures Reachable(Still(d)) && Startable(d, 1, 0.0) && d.jobs.Keys == {1} && d.runs == map[] && d.outbox == []
    ensures d.convs[C].ws == 0 && d.receipts.Keys == {Trig(1).event}
    ensures d.mrs == map[] && d.actions == map[] && d.retention == map[]
  {
    BootIsReachable(SPACES);
    Admits(Boot(SPACES), 1, 0.0);
    var s := Boot(SPACES).(db := Upserted(Initial(SPACES), C, 0).db, poller := Placed(Trig(1)));
    assert JobsFor(s.db.jobs, Trig(1).event) == {};
    Creates(s, 1, 0.0);
    d := DispatchRecorded(s.db, EnvelopeOf(Trig(1), 1), 0.0).db;
  }

  lemma FirstJobRuns() returns (d: Db)
    ensures Reachable(Still(d)) && Past(d) && d.outbox == [FRESH0, FRESH1]
    ensures d.mrs == map[] && d.actions == map[] && d.retention == map[]
  {
    var e := FirstJobIsCreated();
    JobRuns(Still(e), 1, 0.0);
    d := Ran(e, 1, 0.0);
    assert [] + [FRESH0, FRESH1] == [FRESH0, FRESH1];
  }

  // ---- its outcome is delivered

  const STARTED_ITEM := Item(0, JobStarted(1), 1, 1)
  const DONE_ITEM := Item(1, JobCompleted(1, 1), 1, 1)
  const ROW0 := Taken(FRESH0, 60.0)
  const ROW1 := Taken(FRESH1, 60.0)
  const READING := Reading(Some(11), false, {5}, false)
  const REPORT := Report(Concluded, Some(11), {5})
  const NOTE := Note(0, IssueTarget(0), Some(1))

  function Sent(row: OutboxRow): OutboxRow {
    row.(state := Delivered, leaseUntil := None, deliveredAt := Some(0.0))
  }

  lemma BatchIsTaken(d: Db)
    requires d.outbox == [FRESH0, FRESH1]
    ensures OutboxClaimed(d, 20, 60.0, 0.0) == (d.(outbox := [ROW0, ROW1]), [STARTED_ITEM, DONE_ITEM])
  {
    BothAreDue();
    BothAreTaken();
  }

  lemma BothAreDue()
    ensures DueIds([FRESH0, FRESH1], 2, 20, 0.0) == [0, 1]
  {
    var o := [FRESH0, FRESH1];
    assert DueIds(o, 0, 20, 0.0) == [];
    assert Due(o[0], 0.0) && Due(o[1], 0.0);
    assert DueIds(o, 1, 20, 0.0) == [] + [0] == [0];
    assert DueIds(o, 2, 20, 0.0) == [0] + [1] == [0, 1];
  }

  lemma BothAreTaken()
    ensures ClaimedRows([FRESH0, FRESH1], [0, 1], 60.0, 0.0) == [ROW0, ROW1]
    ensures Items([FRESH0, FRESH1], [0, 1]) == [STARTED_ITEM, DONE_ITEM]
  {
    assert Freed(FRESH0, 0.0) == FRESH0 && Freed(FRESH1, 0.0) == FRESH1;
    assert 0 in [0, 1] && 1 in [0, 1];
  }

  lemma ReadStep(s: Sys, x: Reading)
    requires Reachable(s) && At(s, Fresh) && ReadsWell(s.db, Head(s), x)
    ensures Reachable(Moved(s, RowRead(s.db, Head(s), x)))
  {
    Extend(s, ReadRow(x), 0.0, Moved(s, RowRead(s.db, Head(s), x)));
  }

  lemma MarkStep(s: Sys)
    requires Reachable(s) && At(s, Handled) && Holds(s.db.outbox, Head(s).id, Head(s).generation)
    ensures var row := s.db.outbox[Head(s).id];
            Reachable(s.(db := s.db.(outbox := s.db.outbox[Head(s).id := Sent(row)]), publisher := NextItem(s)))
  {
    var row := s.db.outbox[Head(s).id];
    Extend(s, MarkDone, 0.0, s.(db := s.db.(outbox := s.db.outbox[Head(s).id := Sent(row)]), publisher := NextItem(s)));
  }

  lemma PostSteps(s: Sys, p: Purpose)
    requires Reachable(s) && At(s, Looking(p)) && s.notes == []
    ensures Reachable(Moved(s, Noted(p)).(notes := [NoteFor(s, p)]))
  {
    Extend(s, LookUp, 0.0, Moved(s, Absent(p)));
    assert [] + [NoteFor(s, p)] == [NoteFor(s, p)];
    Extend(Moved(s, Absent(p)), Post, 0.0, Moved(s, Noted(p)).(notes := [NoteFor(s, p)]));
  }

  lemma NoteSteps(s: Sys, job: JobId, report: Report)
    requires Reachable(s) && At(s, Looking(Outcome(job, report))) && s.notes == [] && s.labels == []
    ensures Reachable(Moved(s, Labelled(job, report)).(
              notes := [NoteFor(s, Outcome(job, report))], labels := [Final(job, report.status)]))
  {
    var p := Outcome(job, report);
    PostSteps(s, p);
    var noted := Moved(s, Noted(p)).(notes := [NoteFor(s, p)]);
    assert [] + LabelsFor(p) == [Final(job, report.status)];
    Extend(noted, SetLabel, 0.0,
           Moved(s, Labelled(job, report)).(notes := noted.notes, labels := [Final(job, report.status)]));
  }

  lemma RecordStep(s: Sys, job: JobId, report: Report)
    requires Reachable(s) && At(s, Labelled(job, report))
    requires TerminalRecorded(s.db, job, report.status, report.iids, RunIn(report)).Done?
    ensures Reachable(Moved(s, Handled).(
              db := TerminalRecorded(s.db, job, report.status, report.iids, RunIn(report)).db,
              recorded := s.recorded + {job}))
  {
    Extend(s, RecordOutcome, 0.0,
           Moved(s, Handled).(
             db := TerminalRecorded(s.db, job, report.status, report.iids, RunIn(report)).db,
             recorded := s.recorded + {job}));
  }

  lemma StartIsHandled(d: Db)
    requires Reachable(Still(d)) && Past(d) && d.outbox == [FRESH0, FRESH1]
    ensures Reachable(Still(d.(outbox := [Sent(ROW0), ROW1])).(publisher := Publishing([DONE_ITEM], Fresh)))
  {
    BatchIsTaken(d);
    var items := [STARTED_ITEM, DONE_ITEM];
    var s := Still(d.(outbox := [ROW0, ROW1])).(publisher := Publishing(items, Fresh));
    Extend(Still(d), TakeBatch(20, 60.0), 0.0, s);
    ReadStep(s, READING);
    MarkStep(Moved(s, Handled));
    assert [ROW0, ROW1][0 := Sent(ROW0)] == [Sent(ROW0), ROW1] && items[1..] == [DONE_ITEM];
  }

  const MR_KEY := MrKey(0, 5, 1, 11)

  function After1(d: Db, poller: Poller): Sys {
    Sys(d, poller, Resting, [NOTE], [Final(1, Concluded)], {1})
  }

  lemma OutcomeIsPosted(d: Db)
    requires Reachable(Still(d).(publisher := Publishing([DONE_ITEM], Fresh))) && Past(d)
    ensures var s := Still(d).(publisher := Publishing([DONE_ITEM], Labelled(1, REPORT)));
            Reachable(s.(notes := [NOTE], labels := [Final(1, Concluded)]))
  {
    var s := Still(d).(publisher := Publishing([DONE_ITEM], Fresh));
    assert LastRun(d, 1, Some(11)) && ReportOf(d, 1, READING) == REPORT;
    ReadStep(s, READING);
    var s1 := Moved(s, Looking(Outcome(1, REPORT)));
    assert NoteFor(s1, Outcome(1, REPORT)) == NOTE;
    NoteSteps(s1, 1, REPORT);
  }

  lemma OutcomeIsDelivered(d: Db) returns (e: Db)
    requires Reachable(Still(d).(publisher := Publishing([DONE_ITEM], Fresh)))
    requires Past(d) && d.outbox == [Sent(ROW0), ROW1] && d.mrs == map[] && d.actions == map[] && d.retention == map[]
    ensures Reachable(After1(e, AtRest)) && Past(e) && e.convs[C].status == Concluded
    ensures e.outbox == [Sent(ROW0), Sent(ROW1)] && e.mrs.Keys == {MR_KEY} && e.actions == map[] && e.retention == map[]
  {
    var s := Still(d).(publisher := Publishing([DONE_ITEM], Fresh));
    OutcomeIsPosted(d);
    var s2 := Moved(s, Labelled(1, REPORT)).(notes := [NOTE], labels := [Final(1, Concluded)]);
    RecordStep(s2, 1, REPORT);
    var d2 := TerminalRecorded(d, 1, Concluded, {5}, 11).db;
    assert {} + {1} == {1};
    MarkStep(Moved(s2, Handled).(db := d2, recorded := {1}));
    assert [Sent(ROW0), ROW1][1 := Sent(ROW1)] == [Sent(ROW0), Sent(ROW1)];
    e := d2.(outbox := [Sent(ROW0), Sent(ROW1)]);
    assert d2.mrs.Keys == {MR_KEY};
  }

  // ---- its merge request is merged, and a week later its cleanup is scheduled

  const MERGED: map<MrKey, Mr> := map[MR_KEY := Mr(Merged, Some(0.0))]
  const KEPT: map<RunId, Retention> := map[11 := Retention(WEEK, None)]
  const WAITING: map<RunId, Action> := map[11 := Action(0, 1, ActPending, 0, None, WEEK)]

  lemma MergeIsSeen(d: Db)
    requires Reachable(After1(d, AtRest)) && d.mrs.Keys == {MR_KEY}
    ensures Reachable(After1(d.(mrs := MERGED), AtRest))
  {
    var seen := [Observation(0, 5, Merged, Some(0.0))];
    assert RefreshedAll(d.mrs, seen) == MERGED by {
      assert seen[..0] == [] && RefreshedAll(d.mrs, []) == d.mrs;
      assert Refreshed(d.mrs, seen[0]) == MERGED;
    }
    Extend(After1(d, AtRest), Env(Refresh(seen)), 0.0, After1(d.(mrs := MERGED), AtRest));
  }

  lemma RunIsDue(d: Db)
    requires Past(d) && d.convs[C].status == Concluded && d.mrs == MERGED && d.actions == map[] && d.retention == map[]
    ensures RunScheduled(d, WEEK, 11, Row(KEPT, 11), Row(WAITING, 11), true)
  {
    assert MrsOf(MERGED, 1, 11) == {MR_KEY};
    assert Mergeable(d, 11) && NewestMerge(d, 11, 0.0);
  }

  lemma CleanupIsScheduled(d: Db)
    requires Reachable(After1(d, AtRest))
    requires Past(d) && d.convs[C].status == Concluded && d.mrs == MERGED && d.actions == map[] && d.retention == map[]
    ensures Reachable(After1(d.(retention := KEPT, actions := WAITING), AtRest))
  {
    var e := d.(retention := KEPT, actions := WAITING);
    forall r ensures RunScheduled(d, WEEK, r, Row(e.retention, r), Row(e.actions, r), r in {11}) {
      if r == 11 { RunIsDue(d); } else { assert r !in d.runs; }
    }
    assert Schedules(d, WEEK, e, {11});
    Extend(After1(d, AtRest), Env(Schedule), WEEK, After1(e, AtRest));
  }

  // ---- the second job is created around the hand-out of the first one's cleanup

  const HANDED: map<RunId, Action> := map[11 := Action(0, 1, ActLeased, 1, Some(WEEK + 100.0), WEEK)]

  function HandedOut(d: Db): Db
    requires C in d.convs
  {
    d.(actions := HANDED, convs := d.convs[C := d.convs[C].(status := Cleaning)])
  }

  lemma OneActionIsFirst(actions: map<RunId, Action>)
    requires actions == WAITING
    ensures FreedActions(actions, 0, WEEK) == WAITING && HeadOfActions(WAITING, 0, [11], AtMostFive(5))
  {
    assert PendingActions(WAITING, 0) == {11};
  }

  lemma ItIsTaken(d: Db)
    requires Past(d) && d.actions == WAITING
    ensures ClaimedFrom(d, 0, [11], WAITING, WEEK + 100.0, HandedOut(d), [11])
  {
    assert HandsOut(d, 0, WAITING[11]);
    var taken := set r | r in [11] && r in WAITING :: WAITING[r].job;
    assert taken == {1} by { assert WAITING[11].job in taken; }
    assert CleaningConvs(d.convs, d.jobs, taken) == HandedOut(d).convs by {
      assert 1 in taken && 1 in d.jobs && d.jobs[1].conv == C;
    }
    assert TakenActions(WAITING, [11], WEEK + 100.0) == HANDED;
  }

  lemma CleanupIsHandedOut(d: Db)
    requires Past(d) && d.actions == WAITING
    ensures Next(d, ClaimActions(0, 5, 100.0), WEEK, HandedOut(d))
  {
    OneActionIsFirst(d.actions);
    ItIsTaken(d);
    assert ActionsClaimed(d, 0, 5, 100.0, WEEK, HandedOut(d), [11]);
  }

  lemma SecondJobIsPlaced(d: Db)
    requires Reachable(After1(d, AtRest)) && Past(d) && d.convs[C].status == Concluded
    ensures Reachable(After1(d, Placed(Trig(2))))
  {
    assert JobsFor(d.jobs, Trig(2).event) == {};
    assert CurrentState(d, C) == Some(Succeeded);
    assert Upserted(d, C, 0) == Done(d, true) by { assert d.convs[C := d.convs[C].(ws := 0)] == d.convs; }
    Admits(After1(d, AtRest), 2, WEEK);
  }

  /** The database once job 2 is there. */
  function Second(d: Db): Db
    requires C in d.convs
  {
    InsertJob(HandedOut(d), EnvelopeOf(Trig(2), 2), WEEK)
  }

  lemma SecondJobIsCreated(d: Db)
    requires Reachable(After1(d, AtRest)) && Past(d) && d.convs[C].status == Concluded && d.actions == WAITING
    ensures Reachable(After1(Second(d), AtRest))
  {
    SecondJobIsPlaced(d);
    CleanupIsHandedOut(d);
    Extend(After1(d, Placed(Trig(2))), Env(ClaimActions(0, 5, 100.0)), WEEK, After1(HandedOut(d), Placed(Trig(2))));
    assert JobsFor(HandedOut(d).jobs, Trig(2).event) == {};
    assert DispatchRecorded(HandedOut(d), EnvelopeOf(Trig(2), 2), WEEK) == Done(Second(d), true);
    Creates(After1(HandedOut(d), Placed(Trig(2))), 2, WEEK);
  }

  // ---- it finishes, the cleanup finishes, and its successor is created

  /** Job 2 has finished, and job 1's cleanup is still leased. */
  predicate Both(d: Db) {
    && d.workspaces == SPACES && d.jobs.Keys == {1, 2} && Ended(d.jobs[1], 1) && Ended(d.jobs[2], 2)
    && 11 in d.runs && d.actions == HANDED && d.retention == KEPT
    && d.convs.Keys == {C} && d.convs[C].current == Some(2) && d.convs[C].ws == 0
    && d.receipts.Keys == {Trig(1).event, Trig(2).event}
    && |d.outbox| == 4 && d.outbox[0] == Sent(ROW0) && d.outbox[1] == Sent(ROW1)
    && d.outbox[2].key == JobStarted(2) && d.outbox[3].key == JobCompleted(2, 1)
  }

  lemma SecondJobIsStartable(d: Db)
    requires Past(d) && d.outbox == [Sent(ROW0), Sent(ROW1)]
    ensures Startable(Second(d), 2, WEEK)
  {
    var e := Second(d);
    assert e.jobs[1] == d.jobs[1] && !HasRun(e.runs, 2, 1);
  }

  lemma BothHaveEnded(d: Db)
    requires Past(d) && d.retention == KEPT && d.outbox == [Sent(ROW0), Sent(ROW1)]
    ensures Both(Ran(Second(d), 2, WEEK)) && Ran(Second(d), 2, WEEK).convs[C].status == Finishing
  {
  }

  lemma SecondJobRuns(d: Db)
    requires Past(d) && d.retention == KEPT && Reachable(After1(Second(d), AtRest))
    requires d.outbox == [Sent(ROW0), Sent(ROW1)]
    ensures Reachable(After1(Ran(Second(d), 2, WEEK), AtRest)) && Both(Ran(Second(d), 2, WEEK))
  {
    SecondJobIsStartable(d);
    JobRuns(After1(Second(d), AtRest), 2, WEEK);
    BothHaveEnded(d);
  }

  function Overwritten(d: Db): Db
    requires C in d.convs && 1 in d.jobs && 11 in d.runs
  {
    d.(retention := map[11 := Retention(WEEK, Some(WEEK))], jobs := d.jobs[1 := ClearedJob(d.jobs[1])],
       runs := d.runs[11 := ClearedRun(d.runs[11])], convs := d.convs[C := d.convs[C].(status := Archived)],
       actions := map[11 := Action(0, 1, ActDone, 1, None, WEEK)])
  }

  lemma CleanupOverwrites(d: Db)
    requires Reachable(After1(d, AtRest)) && Both(d)
    ensures Reachable(After1(Overwritten(d), AtRest))
  {
    assert ActionFinished(d, 0, 11, 1, true, WEEK) == Done(Overwritten(d), true) by {
      assert d.actions[11 := HANDED[11].(state := ActDone, leaseUntil := None)] == Overwritten(d).actions;
      assert d.retention[11 := Retention(WEEK, Some(WEEK))] == Overwritten(d).retention;
    }
    Extend(After1(d, AtRest), Env(FinishAction(0, 11, 1, true)), WEEK, After1(Overwritten(d), AtRest));
  }

  lemma ThirdJobIsPlaced(d: Db)
    requires Reachable(After1(d, AtRest)) && d.convs.Keys == {C} && d.convs[C].status == Archived
    requires d.convs[C].current == Some(2) && d.convs[C].ws == 0 && 2 in d.jobs && d.jobs[2].state == Succeeded
    requires (forall j :: j in d.jobs ==> d.jobs[j].event != Trig(3).event) && Trig(3).event !in d.receipts
    ensures Reachable(After1(d, Placed(Trig(3))))
  {
    assert JobsFor(d.jobs, Trig(3).event) == {} && CurrentState(d, C) == Some(Succeeded);
    assert Upserted(d, C, 0) == Done(d, true) by { assert d.convs[C := d.convs[C].(ws := 0)] == d.convs; }
    Admits(After1(d, AtRest), 3, WEEK);
  }

  /** Job 3 follows job 2, whose outcome is not recorded, and whose note is then lost. */
  ghost predicate Overtaken(s: Sys, t: Sys) {
    && Reachable(s) && SysNext(s, CreateJob(3), WEEK, t)
    && Overtakes(s, t, C) && s.db.convs[C].current == Some(2) && Lost(t, 2)
  }

  lemma ThirdJobIsCreated(d: Db)
    requires Reachable(After1(d, AtRest)) && Both(d)
    ensures exists s, t :: Overtaken(s, t)
  {
    CleanupOverwrites(d);
    var e := Overwritten(d);
    ThirdJobIsPlaced(e);
    var s := After1(e, Placed(Trig(3)));
    assert JobsFor(e.jobs, Trig(3).event) == {};
    var t := s.(db := InsertJob(e, EnvelopeOf(Trig(3), 3), WEEK), poller := AtRest);
    assert SysNext(s, CreateJob(3), WEEK, t);
    assert !OutcomePosted(t.db, [NOTE], 2);
    assert Overtaken(s, t);
  }

  /** Without the proviso of HostedRuns.SuccessorFollowsDeliveredOutcome its conclusion is
      false: here is a run in which it fails, and the outcome overtaken is never posted
      (Successors.SupersededOutcomeIsNeverPosted). */
  lemma SuccessorCanOvertakeOutcome()
    ensures exists s, t :: Overtaken(s, t)
  {
    var d := FirstJobRuns();
    StartIsHandled(d);
    var e := OutcomeIsDelivered(d.(outbox := [Sent(ROW0), ROW1]));
    MergeIsSeen(e);
    var f := e.(mrs := MERGED);
    CleanupIsScheduled(f);
    var g := f.(retention := KEPT, actions := WAITING);
    SecondJobIsCreated(g);
    SecondJobRuns(g);
    ThirdJobIsCreated(Ran(Second(g), 2, WEEK));
  }
}
