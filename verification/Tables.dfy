/**
  The controller database: one record per table, and the small vocabulary that
  every transaction over it shares.

  Identifiers are opaque tokens.  A job id is a UUID, and the only ordering ever
  applied to it is the textual one, which for UUIDs is the numeric order of the
  128-bit value; so it is a natural number here, like every other token.
*/
module Tables {
  import opened Basics

  type Time = real
  type JobId = nat
  type RunId = nat
  type WorkspaceId = nat
  type ProjectKey = nat
  type Username = nat

  datatype ConvKey = ConvKey(project: ProjectKey, issue: int)

  datatype EventKind = LabelEvent | CommentEvent
  // The forge numbers its events.  Draining a queue makes an event of its own, keyed
  // "pending:" and the key of the last queued comment; `drains` counts those prefixes.
  datatype EventKey = EventKey(project: ProjectKey, kind: EventKind, id: int, drains: nat)

  // Where a reply is posted: the issue or the merge request with this number.
  datatype Target = IssueTarget(iid: int) | MrTarget(iid: int)

  datatype Trigger = Ready | ReadyResearch | Qa

  datatype Envelope = Envelope(
    job: JobId, conv: ConvKey, trigger: Trigger, event: EventKey,
    owner: Username, target: Target, messages: seq<string>)

  // 'cancelled' is a legal value of the column that no transaction ever writes.
  datatype JobState = Queued | Leased | Running | Succeeded | Failed | Cancelled

  datatype Failure = Failure(stage: string, reason: string)

  datatype Job = Job(
    conv: ConvKey, ws: WorkspaceId, event: EventKey, envelope: Envelope, state: JobState,
    generation: nat, leaseUntil: Option<Time>, heartbeatAt: Option<Time>, createdAt: Time,
    startedAt: Option<Time>, finishedAt: Option<Time>, failure: Option<Failure>)

  datatype Refs = Refs(run: RunId, tmux: nat, worktree: nat, runDir: nat, session: Option<nat>)

  datatype RunState = RunRunning | RunSucceeded | RunFailed

  datatype Run = Run(
    job: JobId, ws: WorkspaceId, generation: nat, state: RunState, refs: Option<Refs>,
    result: Option<string>, error: Option<Failure>, startedAt: Time, finishedAt: Option<Time>)

  // 'queued', 'succeeded' and 'failed' are spelled InQueue, Concluded and
  // ConcludedFailed here, to keep them apart from the job states of the same names.
  datatype ConvStatus =
    | Idle | InQueue | Working | Finishing | Cleaning | CleanupFailed | Archived
    | Concluded | Parked | ConcludedFailed

  datatype Entry = Entry(event: EventKey, messages: seq<string>)

  datatype Conv = Conv(ws: WorkspaceId, status: ConvStatus, current: Option<JobId>, pending: seq<Entry>)

  datatype ReceiptKind = Dispatched | Rejected | QueuedForNext | Skipped | Adopted

  datatype DedupeKey =
    | JobStarted(job: JobId)
    | JobCompleted(job: JobId, generation: nat)
    | RunnerLost(job: JobId)
    | DispatchRejected(event: EventKey)

  datatype Rejection = Rejection(conv: ConvKey, reason: string, setFailedLabel: bool, rejectedAt: Time)

  datatype OutboxState = OutPending | Delivering | Delivered

  datatype OutboxRow = OutboxRow(
    key: DedupeKey, rejection: Option<Rejection>, state: OutboxState, availableAt: Time,
    leaseUntil: Option<Time>, generation: nat, attempts: nat, deliveredAt: Option<Time>)

  datatype ActionState = ActPending | ActLeased | ActDone | ActFailed

  // The action id is "cleanup:<run>", so the table is keyed by the run.
  datatype Action = Action(
    ws: WorkspaceId, job: JobId, state: ActionState, generation: nat, leaseUntil: Option<Time>,
    createdAt: Time)

  datatype MrState = Opened | Merged | Closed | Unknown
  datatype MrKey = MrKey(project: ProjectKey, iid: int, job: JobId, run: RunId)
  datatype Mr = Mr(state: MrState, mergedAt: Option<Time>)

  datatype Retention = Retention(eligibleAfter: Time, compactedAt: Option<Time>)

  datatype Workspace = Workspace(owner: Username, capacity: nat, enabled: bool)

  /** Outbox ids are assigned by AUTOINCREMENT and rows are never deleted, so the
      table is a sequence and the id of a row is its index. */
  datatype Db = Db(
    workspaces: map<WorkspaceId, Workspace>, jobs: map<JobId, Job>, runs: map<RunId, Run>,
    convs: map<ConvKey, Conv>, receipts: map<EventKey, ReceiptKind>, outbox: seq<OutboxRow>,
    actions: map<RunId, Action>, retention: map<RunId, Retention>, mrs: map<MrKey, Mr>)

  datatype Error =
    | UnknownWorkspace | StaleLease | Integrity | Ownership | ReceiptWithoutJob
    | NotLeased | NotCurrent | MissingRow | Blocked(status: ConvStatus)

  /** A transaction either commits a new database together with a reply, or raises
      and rolls back. */
  datatype Outcome<+T> = Done(db: Db, value: T) | Refused(error: Error)
  {
    function Commit(before: Db): Db {
      if Done? then db else before
    }
  }

  /** What the caller of a transaction sees. */
  datatype Reply<+T> = Ok(value: T) | Raised(error: Error)

  predicate Carried<T(==)>(before: Db, outcome: Outcome<T>, after: Db, reply: Reply<T>) {
    match outcome
    case Done(db, value) => after == db && reply == Ok(value)
    case Refused(error) => after == before && reply == Raised(error)
  }

  function Nat(n: int): nat { if n < 0 then 0 else n }

  predicate Terminal(s: JobState) {
    s == Succeeded || s == Failed || s == Cancelled
  }

  // The job holds a lease.
  predicate Busy(s: JobState) {
    s == Leased || s == Running
  }

  predicate Active(s: JobState) {
    s == Queued || Busy(s)
  }

  function Initial(workspaces: map<WorkspaceId, Workspace>): Db {
    Db(workspaces, map[], map[], map[], map[], [], map[], map[], map[])
  }

  /** Writes the status of every conversation whose current job is among `jobs`. */
  function SetStatusOfCurrent(convs: map<ConvKey, Conv>, jobs: set<JobId>, status: ConvStatus): map<ConvKey, Conv> {
    map c | c in convs ::
      if convs[c].current.Some? && convs[c].current.value in jobs then convs[c].(status := status) else convs[c]
  }

  predicate HasKey(outbox: seq<OutboxRow>, key: DedupeKey) {
    exists i :: 0 <= i < |outbox| && outbox[i].key == key
  }

  function FreshRow(key: DedupeKey, rejection: Option<Rejection>, now: Time): OutboxRow {
    OutboxRow(key, rejection, OutPending, now, None, 0, 0, None)
  }

  /** Adds a row unless there is one with its dedupe key. */
  function AddOutbox(outbox: seq<OutboxRow>, key: DedupeKey, rejection: Option<Rejection>, now: Time): seq<OutboxRow> {
    if HasKey(outbox, key) then outbox else outbox + [FreshRow(key, rejection, now)]
  }
}
