/**
  Comments that arrive during a run are queued on their conversation and drained
  after it.  Additions interleave with the drainer's snapshot and its clearing of as
  many entries as it saw; nothing is lost, repeated or reordered.
*/
module PendingQueue {
  import opened Basics
  import opened Tables
  import opened Leases
  import opened Intake
  import opened Cleanup
  import opened StoreRuns

  /** One conversation's queue, with what was ever accepted into it and drained from it. */
  datatype Drain = Drain(db: Db, accepted: seq<Entry>, drained: seq<Entry>, held: Option<seq<Entry>>)

  datatype Act = Add(entry: Entry) | Snapshot | ClearHeld | Abandon | Other(step: Step)

  predicate Foreign(step: Step, c: ConvKey) {
    !(step.Queue? && step.conv == c) && !(step.Clear? && step.conv == c)
  }

  ghost predicate Moves(s: Drain, c: ConvKey, act: Act, now: Time, t: Drain) {
    match act
    case Add(entry) =>
      var o := PendingQueued(s.db, c, entry);
      t == s.(db := o.Commit(s.db), accepted := if o.Done? && o.value then s.accepted + [entry] else s.accepted)
    case Snapshot => s.held == None && c in s.db.convs && t == s.(held := Some(s.db.convs[c].pending))
    case ClearHeld => s.held.Some? &&
      t == s.(db := PendingCleared(s.db, c, |s.held.value|), drained := s.drained + s.held.value, held := None)
    case Abandon => t == s.(held := None)
    case Other(step) => Foreign(step, c) && t == s.(db := t.db) && Next(s.db, step, now, t.db)
  }

  predicate Conserved(s: Drain, c: ConvKey) {
    && c in s.db.convs
    && s.accepted == s.drained + s.db.convs[c].pending
    && (s.held.Some? ==> s.held.value <= s.db.convs[c].pending)
    && (forall i :: 0 <= i < |s.accepted| ==> s.accepted[i].event in s.db.receipts)
    && (forall i, k :: 0 <= i < k < |s.accepted| ==> s.accepted[i].event != s.accepted[k].event)
  }

  // ---- every other transaction leaves the queue and the receipts in place

  ghost predicate KeepsQueue(d: Db, e: Db, c: ConvKey) {
    && (c in d.convs ==> c in e.convs && e.convs[c].pending == d.convs[c].pending)
    && (forall x :: x in d.receipts ==> x in e.receipts)
  }

  lemma StartKeeps(d: Db, ws: WorkspaceId, lease: Lease, refs: Refs, now: Time, c: ConvKey)
    ensures KeepsQueue(d, Started(d, ws, lease, refs, now).Commit(d), c)
  {
  }

  lemma CompleteKeeps(d: Db, ws: WorkspaceId, lease: Lease, done: Completion, now: Time, c: ConvKey)
    ensures KeepsQueue(d, Completed(d, ws, lease, done, now).Commit(d), c)
  {
  }

  lemma FailKeeps(d: Db, ws: WorkspaceId, lease: Lease, error: Failure, now: Time, c: ConvKey)
    ensures KeepsQueue(d, FailedUnstarted(d, ws, lease, error, now).Commit(d), c)
  {
  }

  lemma LeaseStepKeeps(d: Db, step: Step, now: Time, e: Db, c: ConvKey)
    requires Next(d, step, now, e) && LeaseStep(step)
    ensures KeepsQueue(d, e, c)
  {
    match step
    case Claim(_, _, _) =>
    case Beat(_, _, _) =>
    case Start(ws, lease, refs) => StartKeeps(d, ws, lease, refs, now, c);
    case Complete(ws, lease, done) => CompleteKeeps(d, ws, lease, done, now, c);
    case FailEarly(ws, lease, error) => FailKeeps(d, ws, lease, error, now, c);
    case Reap =>
  }

  lemma DispatchKeeps(d: Db, envelope: Envelope, now: Time, c: ConvKey)
    ensures KeepsQueue(d, DispatchRecorded(d, envelope, now).Commit(d), c)
  {
  }

  lemma QueueKeeps(d: Db, conv: ConvKey, entry: Entry, c: ConvKey)
    requires conv != c
    ensures KeepsQueue(d, PendingQueued(d, conv, entry).Commit(d), c)
  {
  }

  lemma FinishKeeps(d: Db, ws: WorkspaceId, run: RunId, generation: nat, success: bool, now: Time, c: ConvKey)
    ensures KeepsQueue(d, ActionFinished(d, ws, run, generation, success, now).Commit(d), c)
  {
  }

  lemma UpsertKeeps(d: Db, conv: ConvKey, ws: WorkspaceId, c: ConvKey)
    ensures KeepsQueue(d, Upserted(d, conv, ws).Commit(d), c)
  {
  }

  lemma ClearKeeps(d: Db, conv: ConvKey, count: nat, c: ConvKey)
    requires conv != c
    ensures KeepsQueue(d, PendingCleared(d, conv, count), c)
  {
  }

  lemma RecordKeeps(d: Db, job: JobId, status: ConvStatus, iids: set<int>, run: RunId, c: ConvKey)
    ensures KeepsQueue(d, TerminalRecorded(d, job, status, iids, run).Commit(d), c)
  {
  }

  lemma ActionsKeep(
      d: Db, ws: WorkspaceId, limit: int, seconds: real, now: Time, e: Db, claimed: seq<RunId>, c: ConvKey)
    requires ActionsClaimed(d, ws, limit, seconds, now, e, claimed)
    ensures KeepsQueue(d, e, c)
  {
  }

  lemma IntakeStepKeeps(d: Db, step: Step, now: Time, e: Db, c: ConvKey)
    requires Next(d, step, now, e) && Foreign(step, c)
    requires step.Upsert? || step.Dispatch? || step.Queue? || step.Clear?
    ensures KeepsQueue(d, e, c)
  {
    match step
    case Dispatch(envelope) => DispatchKeeps(d, envelope, now, c);
    case Queue(conv, entry) => QueueKeeps(d, conv, entry, c);
    case Upsert(conv, ws) => UpsertKeeps(d, conv, ws, c);
    case Clear(conv, count) => ClearKeeps(d, conv, count, c);
  }

  lemma CleanupStepKeeps(d: Db, step: Step, now: Time, e: Db, c: ConvKey)
    requires Next(d, step, now, e) && (step.Record? || step.ClaimActions? || step.FinishAction?)
    ensures KeepsQueue(d, e, c)
  {
    match step
    case Record(job, status, iids, run) => RecordKeeps(d, job, status, iids, run, c);
    case ClaimActions(ws, limit, seconds) =>
      var claimed :| ActionsClaimed(d, ws, limit, seconds, now, e, claimed);
      ActionsKeep(d, ws, limit, seconds, now, e, claimed, c);
    case FinishAction(ws, run, generation, success) => FinishKeeps(d, ws, run, generation, success, now, c);
  }

  /** These leave every conversation row alone. */
  lemma RowStepKeeps(d: Db, step: Step, now: Time, e: Db, c: ConvKey)
    requires Next(d, step, now, e)
    requires step.Reject? || step.Skip? || step.Adopt? || step.ClaimOutbox? || step.Deliver? || step.Retry?
             || step.Refresh? || step.Schedule?
    ensures KeepsQueue(d, e, c)
  {
    assert e.convs == d.convs;
  }

  lemma ForeignStepKeeps(d: Db, step: Step, now: Time, e: Db, c: ConvKey)
    requires Next(d, step, now, e) && Foreign(step, c)
    ensures KeepsQueue(d, e, c)
  {
    if LeaseStep(step) {
      LeaseStepKeeps(d, step, now, e, c);
    } else if step.Upsert? || step.Dispatch? || step.Queue? || step.Clear? {
      IntakeStepKeeps(d, step, now, e, c);
    } else if step.Record? || step.ClaimActions? || step.FinishAction? {
      CleanupStepKeeps(d, step, now, e, c);
    } else {
      RowStepKeeps(d, step, now, e, c);
    }
  }

  // ---- conservation

  lemma AddKeepsConserved(s: Drain, c: ConvKey, entry: Entry)
    requires Conserved(s, c) && entry.event !in s.db.receipts
    ensures Conserved(s.(db := PendingQueued(s.db, c, entry).db, accepted := s.accepted + [entry]), c)
  {
    var e := PendingQueued(s.db, c, entry).db;
    assert s.accepted + [entry] == s.drained + e.convs[c].pending;
  }

  lemma ClearKeepsConserved(s: Drain, c: ConvKey)
    requires Conserved(s, c) && s.held.Some?
    ensures Conserved(s.(
              db := PendingCleared(s.db, c, |s.held.value|), drained := s.drained + s.held.value, held := None), c)
  {
    var e := PendingCleared(s.db, c, |s.held.value|);
    assert s.db.convs[c].pending == s.held.value + e.convs[c].pending;
    assert s.accepted == (s.drained + s.held.value) + e.convs[c].pending;
  }

  lemma MoveKeepsConserved(s: Drain, c: ConvKey, act: Act, now: Time, t: Drain)
    requires Conserved(s, c) && Moves(s, c, act, now, t)
    ensures Conserved(t, c)
  {
    match act
    case Add(entry) => if entry.event !in s.db.receipts { AddKeepsConserved(s, c, entry); }
    case ClearHeld => ClearKeepsConserved(s, c);
    case Other(step) => ForeignStepKeeps(s.db, step, now, t.db, c);
    case Snapshot =>
    case Abandon =>
  }

  /** Over any interleaving, what was drained followed by what is still queued is exactly
      what was accepted, in order, and no event was accepted twice. */
  lemma {:induction false} PendingIsConserved(states: seq<Drain>, acts: seq<Act>, times: seq<Time>, c: ConvKey, n: nat)
    requires |states| == |acts| + 1 && |times| == |acts| && n <= |acts|
    requires c in states[0].db.convs && states[0].db.convs[c].pending == [] && states[0].held == None
    requires states[0].accepted == [] && states[0].drained == []
    requires forall i :: 0 <= i < |acts| ==> Moves(states[i], c, acts[i], times[i], states[i + 1])
    ensures Conserved(states[n], c)
  {
    if n > 0 {
      PendingIsConserved(states, acts, times, c, n - 1);
      MoveKeepsConserved(states[n - 1], c, acts[n - 1], times[n - 1], states[n]);
    }
  }
}
