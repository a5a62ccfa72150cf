/**
  The controller as a transition system.  The poller decides what an event becomes
  in several transactions; the publisher delivers claimed items in several external
  calls, any of which may fail after taking effect; both may die between any two
  steps.  Runners, the reaper, retention and cleanup interleave with them freely.
*/
module Hosted {
  import opened Basics
  import opened Tables
  import opened Intake
  import opened Delivery
  import opened Cleanup
  import opened StoreRuns

  // ---- the poller

  /** An event to dispatch.  `early` and `late` carry the verdicts of the checks that
      read only configuration: who may dispatch to which workspace, and which model
      spec is approved. */
  datatype Candidate = Candidate(
    event: EventKey, conv: ConvKey, ws: WorkspaceId, owner: Username, trigger: Trigger, target: Target,
    messages: seq<string>, early: Option<string>, late: Option<string>)

  const SETTLING := "conversation is settling; resolve retention before dispatch"

  datatype Poller =
    | AtRest
    | Considering(c: Candidate)
    | Rejecting(c: Candidate, reason: string, failed: bool)
    | Queueing(c: Candidate)
    | Admitted(c: Candidate)
    | Placed(c: Candidate)

  predicate Consumed(d: Db, event: EventKey) {
    JobsFor(d.jobs, event) != {} || event in d.receipts
  }

  function Considered(d: Db, c: Candidate): Poller {
    if Consumed(d, c.event) then AtRest
    else if c.early.Some? then Rejecting(c, c.early.value, true)
    else Considering(c)
  }

  function CurrentState(d: Db, conv: ConvKey): Option<JobState> {
    if conv in d.convs && d.convs[conv].current.Some? && d.convs[conv].current.value in d.jobs
    then Some(d.jobs[d.convs[conv].current.value].state) else None
  }

  function Decided(d: Db, c: Candidate): Poller {
    var state := CurrentState(d, c.conv);
    var active := state.Some? && Active(state.value);
    if c.conv in d.convs && (active || d.convs[c.conv].status == Finishing || d.convs[c.conv].status == Cleaning) then
      if d.convs[c.conv].ws != c.ws then
        Rejecting(c, "issue was reassigned while its previous owner's run is active", false)
      else if c.event.kind == CommentEvent then Queueing(c)
      else if active then Rejecting(c, "issue already has an active hosted run", false)
      else Rejecting(c, SETTLING, false)
    else if c.late.Some? then Rejecting(c, c.late.value, true)
    else Admitted(c)
  }

  function EnvelopeOf(c: Candidate, job: JobId): Envelope {
    Envelope(job, c.conv, c.trigger, c.event, c.owner, c.target, c.messages)
  }

  // ---- the publisher

  /** What was read for a finished job: its latest run, whether the reply parks, the merge
      requests the reply mentions, and whether one of them was found wanting. */
  datatype Reading = Reading(run: Option<RunId>, parked: bool, iids: set<int>, invalid: bool)

  /** What is to be recorded of it. */
  datatype Report = Report(status: ConvStatus, run: Option<RunId>, iids: set<int>)

  datatype Purpose = Outcome(job: JobId, report: Report) | Refusal(conv: ConvKey, failed: bool)

  datatype Stage =
    | Fresh                    // nothing done for the head item yet
    | Looking(p: Purpose)      // its row was read; about to search for the marker
    | Absent(p: Purpose)       // the marker was not found; about to post
    | Noted(p: Purpose)        // the note exists; about to set the label
    | Labelled(job: JobId, report: Report)  // about to record the outcome
    | Progressing(job: JobId)  // about to write the working label
    | Handled                  // about to mark the item delivered
    | Broken                   // about to mark it failed

  datatype Publisher = Resting | Publishing(items: seq<Item>, stage: Stage)

  datatype Note = Note(project: ProjectKey, target: Target, marker: Option<nat>)

  datatype Label = Progress(job: JobId) | Final(job: JobId, status: ConvStatus) | Declined(conv: ConvKey)

  /** `recorded` remembers the jobs whose outcome was ever recorded; the program keeps
      no such set. */
  datatype Sys = Sys(
    db: Db, poller: Poller, publisher: Publisher, notes: seq<Note>, labels: seq<Label>, recorded: set<JobId>)

  predicate IsCurrent(d: Db, job: JobId) {
    job in d.jobs && d.jobs[job].conv in d.convs && d.convs[d.jobs[job].conv].current == Some(job)
  }

  predicate Superseded(d: Db, r: Rejection) {
    r.conv in d.convs && d.convs[r.conv].current.Some? && d.convs[r.conv].current.value in d.jobs &&
    var job := d.jobs[d.convs[r.conv].current.value];
    Active(job.state) || job.createdAt > r.rejectedAt
  }

  /** `run` is the run of the job that started last. */
  ghost predicate LastRun(d: Db, job: JobId, run: Option<RunId>) {
    if run == None then forall r :: r in d.runs ==> d.runs[r].job != job
    else
      && run.value in d.runs && d.runs[run.value].job == job
      && forall r :: r in d.runs && d.runs[r].job == job ==> d.runs[r].startedAt <= d.runs[run.value].startedAt
  }

  predicate Replied(d: Db, job: JobId, run: Option<RunId>) {
    && job in d.jobs && d.jobs[job].state == Succeeded
    && run.Some? && run.value in d.runs && d.runs[run.value].result.Some?
  }

  /** Only an implementation run claims merge requests. */
  function Claimed(d: Db, job: JobId, x: Reading): set<int> {
    if Replied(d, job, x.run) && d.jobs[job].envelope.trigger == Ready then x.iids else {}
  }

  /** A merge request is missing, or one that is claimed is not as it should be. */
  predicate Unsatisfactory(d: Db, job: JobId, x: Reading) {
    || (job in d.jobs && d.jobs[job].state == Succeeded && d.jobs[job].envelope.trigger == Ready
        && !(Replied(d, job, x.run) && x.parked) && Claimed(d, job, x) == {})
    || (Claimed(d, job, x) != {} && x.invalid)
  }

  function ReportOf(d: Db, job: JobId, x: Reading): Report {
    if !Replied(d, job, x.run) || Unsatisfactory(d, job, x) then Report(ConcludedFailed, x.run, {})
    else Report(if x.parked then Parked else Concluded, x.run, Claimed(d, job, x))
  }

  function RunIn(report: Report): RunId {
    if report.run.Some? then report.run.value else 0
  }

  ghost predicate ReadsWell(d: Db, item: Item, x: Reading) {
    item.key.JobCompleted? || item.key.RunnerLost? ==> LastRun(d, item.key.job, x.run)
  }

  function RowRead(d: Db, item: Item, x: Reading): Stage {
    match item.key
    case JobStarted(j) =>
      if j !in d.jobs || d.jobs[j].conv !in d.convs then Broken
      else if !IsCurrent(d, j) || !Busy(d.jobs[j].state) then Handled
      else Progressing(j)
    case DispatchRejected(_) =>
      if item.id >= |d.outbox| || d.outbox[item.id].rejection == None then Broken
      else
        var r := d.outbox[item.id].rejection.value;
        if Superseded(d, r) then Handled else Looking(Refusal(r.conv, r.setFailedLabel))
    case _ =>
      var j := item.key.job;
      if j !in d.jobs || d.jobs[j].conv !in d.convs then Broken
      else if !IsCurrent(d, j) then Handled
      else Looking(Outcome(j, ReportOf(d, j, x)))
  }

  function ProjectOf(d: Db, p: Purpose): ProjectKey {
    match p
    case Outcome(j, _) => if j in d.jobs then d.jobs[j].conv.project else 0
    case Refusal(conv, _) => conv.project
  }

  function TargetOf(d: Db, p: Purpose): Target {
    match p
    case Outcome(j, _) => if j in d.jobs then d.jobs[j].envelope.target else IssueTarget(0)
    case Refusal(conv, _) => IssueTarget(conv.issue)
  }

  predicate MarkerAt(notes: seq<Note>, project: ProjectKey, target: Target, id: nat) {
    exists k :: 0 <= k < |notes| && notes[k] == Note(project, target, Some(id))
  }

  // ---- steps

  datatype Act =
    | Env(step: Step)
    | Consider(c: Candidate) | ReadActive | WriteRejection | WriteQueue | PlaceConversation | CreateJob(job: JobId)
    | PollerDies
    | TakeBatch(limit: int, seconds: real) | ReadRow(x: Reading) | LookUp | CallFails
    | Post | PostReplyLost | SetLabel | LabelReplyLost
    | RecordOutcome | MarkDone | MarkBroken(retryAt: Time) | PublisherDies
    | HumanNote(project: ProjectKey, target: Target)

  /** The transactions of every other component. */
  predicate EnvStep(step: Step) {
    LeaseStep(step) || step.Clear? || step.Skip? || step.Adopt? || step.Refresh? || step.Schedule?
    || step.ClaimActions? || step.FinishAction?
  }

  predicate At(s: Sys, stage: Stage) {
    s.publisher.Publishing? && |s.publisher.items| > 0 && s.publisher.stage == stage
  }

  function Moved(s: Sys, stage: Stage): Sys
    requires s.publisher.Publishing?
  {
    s.(publisher := Publishing(s.publisher.items, stage))
  }

  function Head(s: Sys): Item
    requires s.publisher.Publishing? && |s.publisher.items| > 0
  {
    s.publisher.items[0]
  }

  function NextItem(s: Sys): Publisher
    requires s.publisher.Publishing? && |s.publisher.items| > 0
  {
    if |s.publisher.items| == 1 then Resting else Publishing(s.publisher.items[1..], Fresh)
  }

  predicate InCall(s: Sys) {
    s.publisher.Publishing? && |s.publisher.items| > 0
    && (s.publisher.stage.Looking? || s.publisher.stage.Absent? || s.publisher.stage.Noted?
       || s.publisher.stage.Progressing?)
  }

  function NoteFor(s: Sys, p: Purpose): Note
    requires s.publisher.Publishing? && |s.publisher.items| > 0
  {
    Note(ProjectOf(s.db, p), TargetOf(s.db, p), Some(Head(s).id))
  }

  function LabelsFor(p: Purpose): seq<Label> {
    match p
    case Outcome(j, report) => [Final(j, report.status)]
    case Refusal(conv, failed) => if failed then [Declined(conv)] else []
  }

  function AfterLabel(p: Purpose): Stage {
    match p
    case Outcome(j, report) => Labelled(j, report)
    case Refusal(_, _) => Handled
  }

  ghost predicate PollerNext(s: Sys, act: Act, now: Time, t: Sys) {
    match act
    case Consider(c) => s.poller.AtRest? && t == s.(poller := Considered(s.db, c))
    case ReadActive => s.poller.Considering? && t == s.(poller := Decided(s.db, s.poller.c))
    case WriteRejection => s.poller.Rejecting? &&
      t == s.(poller := AtRest,
              db := RejectionRecorded(s.db, s.poller.c.event, s.poller.c.conv, s.poller.reason, s.poller.failed, now))
    case WriteQueue => s.poller.Queueing? &&
      t == s.(poller := AtRest,
              db := PendingQueued(s.db, s.poller.c.conv, Entry(s.poller.c.event, s.poller.c.messages)).Commit(s.db))
    case PlaceConversation => s.poller.Admitted? &&
      var o := Upserted(s.db, s.poller.c.conv, s.poller.c.ws);
      t == s.(db := o.Commit(s.db),
              poller := if o.Done? then Placed(s.poller.c)
                        else Rejecting(s.poller.c, SETTLING, false))
    case CreateJob(job) => s.poller.Placed? &&
      t == s.(poller := AtRest, db := DispatchRecorded(s.db, EnvelopeOf(s.poller.c, job), now).Commit(s.db))
    case PollerDies => t == s.(poller := AtRest)
    case _ => false
  }

  ghost predicate PublisherNext(s: Sys, act: Act, now: Time, t: Sys) {
    match act
    case TakeBatch(limit, seconds) => s.publisher.Resting? &&
      var (d, items) := OutboxClaimed(s.db, limit, seconds, now);
      t == s.(db := d, publisher := if items == [] then Resting else Publishing(items, Fresh))
    case ReadRow(x) => At(s, Fresh) && ReadsWell(s.db, Head(s), x) && t == Moved(s, RowRead(s.db, Head(s), x))
    case LookUp => s.publisher.Publishing? && s.publisher.stage.Looking? && |s.publisher.items| > 0 &&
      var p := s.publisher.stage.p;
      t == Moved(
             s, if MarkerAt(s.notes, ProjectOf(s.db, p), TargetOf(s.db, p), Head(s).id) then Noted(p) else Absent(p))
    case Post => s.publisher.Publishing? && s.publisher.stage.Absent? && |s.publisher.items| > 0 &&
      t == Moved(s, Noted(s.publisher.stage.p)).(notes := s.notes + [NoteFor(s, s.publisher.stage.p)])
    case PostReplyLost => s.publisher.Publishing? && s.publisher.stage.Absent? && |s.publisher.items| > 0 &&
      t == Moved(s, Broken).(notes := s.notes + [NoteFor(s, s.publisher.stage.p)])
    case CallFails => InCall(s) && t == Moved(s, Broken)
    case SetLabel => s.publisher.Publishing? && |s.publisher.items| > 0 &&
      (match s.publisher.stage
       case Noted(p) => t == Moved(s, AfterLabel(p)).(labels := s.labels + LabelsFor(p))
       case Progressing(j) => t == Moved(s, Handled).(labels := s.labels + [Progress(j)])
       case _ => false)
    case LabelReplyLost => s.publisher.Publishing? && |s.publisher.items| > 0 &&
      (match s.publisher.stage
       case Noted(p) => t == Moved(s, Broken).(labels := s.labels + LabelsFor(p))
       case Progressing(j) => t == Moved(s, Broken).(labels := s.labels + [Progress(j)])
       case _ => false)
    case RecordOutcome =>
      s.publisher.Publishing? && s.publisher.stage.Labelled? && |s.publisher.items| > 0 &&
      var (job, report) := (s.publisher.stage.job, s.publisher.stage.report);
      var o := TerminalRecorded(s.db, job, report.status, report.iids, RunIn(report));
      t == (if o.Done? then Moved(s, Handled).(db := o.db, recorded := s.recorded + {job}) else Moved(s, Broken))
    case MarkDone => At(s, Handled) &&
      var o := MarkedDelivered(s.db, Head(s).id, Head(s).generation, now);
      t == s.(db := o.Commit(s.db), publisher := if o.Done? then NextItem(s) else Resting)
    case MarkBroken(retryAt) => At(s, Broken) &&
      var o := MarkedFailed(s.db, Head(s).id, Head(s).generation, retryAt);
      t == s.(db := o.Commit(s.db), publisher := if o.Done? then NextItem(s) else Resting)
    case PublisherDies => t == s.(publisher := Resting)
    case _ => false
  }

  predicate PollerAct(act: Act) {
    act.Consider? || act.ReadActive? || act.WriteRejection? || act.WriteQueue? || act.PlaceConversation?
    || act.CreateJob? || act.PollerDies?
  }

  ghost predicate SysNext(s: Sys, act: Act, now: Time, t: Sys) {
    if act.Env? then
      EnvStep(act.step) && t == s.(db := t.db) && Next(s.db, act.step, now, t.db)
    else if act.HumanNote? then
      t == s.(notes := s.notes + [Note(act.project, act.target, None)])
    else if PollerAct(act) then PollerNext(s, act, now, t)
    else PublisherNext(s, act, now, t)
  }

  function Boot(workspaces: map<WorkspaceId, Workspace>): Sys {
    Sys(Initial(workspaces), AtRest, Resting, [], [], {})
  }

  /** Every step of the system is at most one transaction on the database. */
  lemma PollerTransaction(s: Sys, act: Act, now: Time, t: Sys) returns (step: Step)
    requires PollerNext(s, act, now, t)
    ensures t.db == s.db || Next(s.db, step, now, t.db)
    ensures step.Queue? ==> act.WriteQueue?
  {
    step := Reap;
    match act
    case WriteRejection => step := Reject(s.poller.c.event, s.poller.c.conv, s.poller.reason, s.poller.failed);
    case WriteQueue => step := Queue(s.poller.c.conv, Entry(s.poller.c.event, s.poller.c.messages));
    case PlaceConversation => step := Upsert(s.poller.c.conv, s.poller.c.ws);
    case CreateJob(job) => step := Dispatch(EnvelopeOf(s.poller.c, job));
    case _ =>
  }

  lemma PublisherTransaction(s: Sys, act: Act, now: Time, t: Sys) returns (step: Step)
    requires PublisherNext(s, act, now, t)
    ensures t.db == s.db || Next(s.db, step, now, t.db)
    ensures step.Queue? ==> act.WriteQueue?
  {
    step := Reap;
    if act.TakeBatch? {
      step := ClaimOutbox(act.limit, act.seconds);
    } else if act.RecordOutcome? {
      var report := s.publisher.stage.report;
      step := Record(s.publisher.stage.job, report.status, report.iids, RunIn(report));
    } else if act.MarkDone? {
      step := Deliver(Head(s).id, Head(s).generation);
    } else if act.MarkBroken? {
      step := Retry(Head(s).id, Head(s).generation, act.retryAt);
    } else {
      CallsLeaveDb(s, act, now, t);
    }
  }

  lemma CallsLeaveDb(s: Sys, act: Act, now: Time, t: Sys)
    requires PublisherNext(s, act, now, t) && !act.TakeBatch? && !act.RecordOutcome? && !act.MarkDone?
               && !act.MarkBroken?
    ensures t.db == s.db
  {
  }
}
