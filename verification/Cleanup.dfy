/**
  Recording a delivered outcome, following its merge requests, and scheduling,
  handing out and finishing the cleanup of a run.
*/
module Cleanup {
  import opened Basics
  import opened Tables

  const MERGE_RETENTION_SECONDS := 7.0 * 24.0 * 60.0 * 60.0

  // ---- record_terminal

  function OpenedMrs(mrs: map<MrKey, Mr>, project: ProjectKey, iids: set<int>, job: JobId, run: RunId): map<MrKey, Mr> {
    map k | k in mrs.Keys + (set i | i in iids :: MrKey(project, i, job, run)) ::
      if k.project == project && k.job == job && k.run == run && k.iid in iids
      then Mr(Opened, if k in mrs then mrs[k].mergedAt else None) else mrs[k]
  }

  /** The outcome of a current job is recorded; anything else is refused. */
  function TerminalRecorded(d: Db, job: JobId, status: ConvStatus, iids: set<int>, run: RunId): Outcome<bool> {
    if job !in d.jobs || d.jobs[job].conv !in d.convs then Refused(MissingRow)
    else if d.convs[d.jobs[job].conv].current != Some(job) then Refused(NotCurrent)
    else
      var c := d.jobs[job].conv;
      Done(d.(convs := d.convs[c := d.convs[c].(status := status)],
              mrs := OpenedMrs(d.mrs, c.project, iids, job, run)), true)
  }

  // ---- refresh_merge_requests

  datatype Observation = Observation(project: ProjectKey, iid: int, state: MrState, mergedAt: Option<Time>)

  function Refreshed(mrs: map<MrKey, Mr>, o: Observation): map<MrKey, Mr> {
    map k | k in mrs :: if k.project == o.project && k.iid == o.iid then Mr(o.state, o.mergedAt) else mrs[k]
  }

  function RefreshedAll(mrs: map<MrKey, Mr>, seen: seq<Observation>): map<MrKey, Mr>
    decreases |seen|
  {
    if seen == [] then mrs else Refreshed(RefreshedAll(mrs, seen[..|seen| - 1]), seen[|seen| - 1])
  }

  // ---- schedule_due

  function MrsOf(mrs: map<MrKey, Mr>, job: JobId, run: RunId): set<MrKey> {
    set k | k in mrs && k.job == job && k.run == run
  }

  predicate AllMerged(mrs: map<MrKey, Mr>, keys: set<MrKey>) {
    forall k :: k in keys ==> k in mrs && mrs[k].state == Merged && mrs[k].mergedAt.Some?
  }

  /** The run succeeded, its outcome is recorded, and its job is still current. */
  predicate Settled(d: Db, r: RunId) {
    && r in d.runs && d.runs[r].state == RunSucceeded
    && d.runs[r].job in d.jobs && d.jobs[d.runs[r].job].state == Succeeded
    && d.jobs[d.runs[r].job].conv in d.convs
    && d.convs[d.jobs[d.runs[r].job].conv].current == Some(d.runs[r].job)
    && d.convs[d.jobs[d.runs[r].job].conv].status == Concluded
  }

  predicate Mergeable(d: Db, r: RunId) {
    && Settled(d, r) && d.jobs[d.runs[r].job].envelope.trigger == Ready
    && MrsOf(d.mrs, d.runs[r].job, r) != {}
    && AllMerged(d.mrs, MrsOf(d.mrs, d.runs[r].job, r))
  }

  /** `at` is the merge time of the newest merge request of the run. */
  ghost predicate NewestMerge(d: Db, r: RunId, at: Time)
    requires r in d.runs
  {
    var keys := MrsOf(d.mrs, d.runs[r].job, r);
    && (exists k :: k in keys && d.mrs[k].mergedAt == Some(at))
    && (forall k :: k in keys && d.mrs[k].mergedAt.Some? ==> d.mrs[k].mergedAt.value <= at)
  }

  function Row<K, V>(table: map<K, V>, key: K): Option<V> {
    if key in table then Some(table[key]) else None
  }

  function NewAction(d: Db, r: RunId, now: Time): Action
    requires Settled(d, r)
  {
    Action(d.jobs[d.runs[r].job].ws, d.runs[r].job, ActPending, 0, None, now)
  }

  /** What scheduling leaves of the rows of one run: `due` says that a cleanup was inserted. */
  ghost predicate RunScheduled(d: Db, now: Time, r: RunId, kept: Option<Retention>, action: Option<Action>, due: bool) {
    if Mergeable(d, r) then
      && kept.Some? && NewestMerge(d, r, kept.value.eligibleAfter - MERGE_RETENTION_SECONDS)
      && kept.value.compactedAt == (if r in d.retention then d.retention[r].compactedAt else None)
      && (due <==> r !in d.actions && kept.value.eligibleAfter <= now)
      && action == (if due then Some(NewAction(d, r, now)) else Row(d.actions, r))
    else
      RunSkipped(d, r, kept, action, due)
  }

  predicate RunSkipped(d: Db, r: RunId, kept: Option<Retention>, action: Option<Action>, due: bool) {
    kept == Row(d.retention, r) && action == Row(d.actions, r) && !due
  }

  ghost predicate Schedules(d: Db, now: Time, e: Db, scheduled: set<RunId>) {
    && e == d.(retention := e.retention, actions := e.actions)
    && (forall r :: RunScheduled(d, now, r, Row(e.retention, r), Row(e.actions, r), r in scheduled))
  }

  // ---- claim_workspace_actions

  function FreedActions(actions: map<RunId, Action>, ws: WorkspaceId, now: Time): map<RunId, Action> {
    map r | r in actions ::
      if actions[r].ws == ws && actions[r].state == ActLeased
         && actions[r].leaseUntil.Some? && actions[r].leaseUntil.value < now
      then actions[r].(state := ActPending, leaseUntil := None) else actions[r]
  }

  function PendingActions(actions: map<RunId, Action>, ws: WorkspaceId): set<RunId> {
    set r | r in actions && actions[r].ws == ws && actions[r].state == ActPending
  }

  /** Actions are handed out oldest first, and by their run where they are of one time. */
  predicate Earlier(actions: map<RunId, Action>, a: RunId, b: RunId)
    requires a in actions && b in actions
  {
    actions[a].createdAt < actions[b].createdAt || (actions[a].createdAt == actions[b].createdAt && a < b)
  }

  ghost predicate HeadOfActions(actions: map<RunId, Action>, ws: WorkspaceId, rows: seq<RunId>, count: nat) {
    && (forall i :: 0 <= i < |rows| ==> rows[i] in PendingActions(actions, ws))
    && (forall i, k :: 0 <= i < k < |rows| ==> Earlier(actions, rows[i], rows[k]))
    && |rows| <= count
    && (forall r :: r in PendingActions(actions, ws) && r !in rows ==>
          |rows| == count && forall i :: 0 <= i < |rows| ==> Earlier(actions, rows[i], r))
  }

  /** The job of the action is finished and nothing newer runs in its conversation. */
  predicate HandsOut(d: Db, ws: WorkspaceId, action: Action) {
    && action.job in d.jobs && d.jobs[action.job].ws == ws && Terminal(d.jobs[action.job].state)
    && d.jobs[action.job].conv in d.convs && d.convs[d.jobs[action.job].conv].current == Some(action.job)
  }

  function AtMostFive(limit: int): nat { Nat(if limit < 5 then limit else 5) }

  function TakenAction(action: Action, until: Time): Action {
    action.(state := ActLeased, generation := action.generation + 1, leaseUntil := Some(until))
  }

  function TakenActions(freed: map<RunId, Action>, claimed: seq<RunId>, until: Time): map<RunId, Action> {
    map r | r in freed :: if r in claimed then TakenAction(freed[r], until) else freed[r]
  }

  function CleaningConvs(convs: map<ConvKey, Conv>, jobs: map<JobId, Job>, taken: set<JobId>): map<ConvKey, Conv> {
    map c | c in convs ::
      if exists j :: j in taken && j in jobs && jobs[j].conv == c then convs[c].(status := Cleaning) else convs[c]
  }

  ghost predicate ActionsClaimed(
      d: Db, ws: WorkspaceId, limit: int, seconds: real, now: Time, e: Db, claimed: seq<RunId>) {
    var freed := FreedActions(d.actions, ws, now);
    exists rows ::
      && HeadOfActions(freed, ws, rows, AtMostFive(limit))
      && ClaimedFrom(d, ws, rows, freed, now + seconds, e, claimed)
  }

  ghost predicate ClaimedFrom(
      d: Db, ws: WorkspaceId, rows: seq<RunId>, freed: map<RunId, Action>, until: Time, e: Db, claimed: seq<RunId>) {
    && (forall r :: r in claimed <==> r in rows && r in freed && HandsOut(d, ws, freed[r]))
    && (forall i, k :: 0 <= i < k < |claimed| ==>
          claimed[i] in freed && claimed[k] in freed && Earlier(freed, claimed[i], claimed[k]))
    && e == d.(
         actions := TakenActions(freed, claimed, until),
         convs := CleaningConvs(d.convs, d.jobs, set r | r in claimed && r in freed :: freed[r].job))
  }

  // ---- finish_workspace_action

  function ClearedJob(job: Job): Job {
    job.(envelope := job.envelope.(messages := []))
  }

  function ClearedRun(run: Run): Run {
    run.(refs := None, result := None, error := None)
  }

  function SetConv(d: Db, c: ConvKey, status: ConvStatus): map<ConvKey, Conv> {
    if c in d.convs then d.convs[c := d.convs[c].(status := status)] else d.convs
  }

  /** The conversation row is updated by key: whichever job is current by then. */
  function ActionFinished(d: Db, ws: WorkspaceId, run: RunId, generation: nat, success: bool, now: Time): Outcome<bool>
  {
    if run !in d.actions || d.actions[run].ws != ws || d.actions[run].generation != generation then Refused(StaleLease)
    else
      var action := d.actions[run];
      if action.state == ActDone || action.state == ActFailed then Done(d, false)
      else if action.state != ActLeased || action.leaseUntil == None || action.leaseUntil.value < now then
        Refused(StaleLease)
      else if action.job !in d.jobs then Refused(MissingRow)
      else
        var c := d.jobs[action.job].conv;
        if !success then
          Done(d.(actions := d.actions[run := action.(state := ActFailed, leaseUntil := None)],
                  convs := SetConv(d, c, CleanupFailed)), true)
        else if run !in d.retention || d.retention[run].compactedAt.Some? || run !in d.runs then Refused(MissingRow)
        else
          Done(d.(
            retention := d.retention[run := d.retention[run].(compactedAt := Some(now))],
            jobs := d.jobs[action.job := ClearedJob(d.jobs[action.job])],
            runs := d.runs[run := ClearedRun(d.runs[run])],
            convs := SetConv(d, c, Archived),
            actions := d.actions[run := action.(state := ActDone, leaseUntil := None)]), true)
  }
}
