/**
  Over whole runs of the store: every receipted event has exactly one effect, and
  the outbox is fenced by its claim generations.
*/
module EffectRuns {
  import opened Basics
  import opened Tables
  import opened Leases
  import opened LeaseInvariants
  import opened Intake
  import opened Delivery
  import opened Cleanup
  import opened StoreRuns

  ghost predicate SameEvents(a: map<JobId, Job>, b: map<JobId, Job>) {
    (forall j :: j in b <==> j in a) && (forall j :: j in a ==> b[j].event == a[j].event)
  }


  ghost predicate OutboxKept(a: seq<OutboxRow>, b: seq<OutboxRow>) {
    && (UniqueKeys(a) ==> UniqueKeys(b))
    && (forall x :: HasKey(b, DispatchRejected(x)) <==> HasKey(a, DispatchRejected(x)))
    && (OutboxShape(a) ==> OutboxShape(b))
    && OutboxAdvances(a, b)
  }

  lemma AddKept(outbox: seq<OutboxRow>, key: DedupeKey, now: Time)
    requires !key.DispatchRejected?
    ensures OutboxKept(outbox, AddOutbox(outbox, key, None, now))
  {
    var after := AddOutbox(outbox, key, None, now);
    forall x ensures HasKey(after, DispatchRejected(x)) <==> HasKey(outbox, DispatchRejected(x)) {
      if i :| 0 <= i < |outbox| && outbox[i].key == DispatchRejected(x) { assert after[i].key == DispatchRejected(x); }
    }
  }

  lemma KeptIsTransitive(a: seq<OutboxRow>, b: seq<OutboxRow>, c: seq<OutboxRow>)
    requires OutboxKept(a, b) && OutboxKept(b, c)
    ensures OutboxKept(a, c)
  {
    assert OutboxAdvances(a, c) by {
      forall i | 0 <= i < |a| ensures Advances(a[i], c[i]) {
        assert Advances(a[i], b[i]) && Advances(b[i], c[i]);
      }
    }
    forall x ensures HasKey(c, DispatchRejected(x)) <==> HasKey(a, DispatchRejected(x)) {
      assert HasKey(b, DispatchRejected(x)) <==> HasKey(a, DispatchRejected(x));
    }
  }

  lemma {:induction false} AddLostKept(outbox: seq<OutboxRow>, order: seq<JobId>, now: Time)
    ensures OutboxKept(outbox, AddLost(outbox, order, now))
    decreases |order|
  {
    if order == [] {
    } else {
      var init := order[..|order| - 1];
      AddLostKept(outbox, init, now);
      AddKept(AddLost(outbox, init, now), RunnerLost(order[|order| - 1]), now);
      KeptIsTransitive(outbox, AddLost(outbox, init, now), AddLost(outbox, order, now));
    }
  }

  lemma SameKeysKept(a: seq<OutboxRow>, b: seq<OutboxRow>)
    requires OutboxAdvances(a, b) && |a| == |b| && (OutboxShape(a) ==> OutboxShape(b))
    ensures OutboxKept(a, b)
  {
    forall i | 0 <= i < |a| ensures a[i].key == b[i].key { assert Advances(a[i], b[i]); }
    forall x ensures HasKey(b, DispatchRejected(x)) <==> HasKey(a, DispatchRejected(x)) {
      if i :| 0 <= i < |a| && a[i].key == DispatchRejected(x) { assert b[i].key == DispatchRejected(x); }
    }
  }

  lemma KeptEffects(d: Db, e: Db)
    requires OneEffect(d) && OutboxKept(d.outbox, e.outbox) && SameEvents(d.jobs, e.jobs)
    requires forall x :: x in d.receipts ==> x in e.receipts && e.receipts[x] == d.receipts[x]
    requires forall x :: x in e.receipts && x !in d.receipts ==>
               e.receipts[x] != Dispatched && e.receipts[x] != Rejected
    ensures OneEffect(e)
  {
    EffectFrameKeeps(d, e);
  }

  // ---- one lemma per transaction

  lemma StartKept(d: Db, ws: WorkspaceId, lease: Lease, refs: Refs, now: Time)
    ensures OutboxKept(d.outbox, Started(d, ws, lease, refs, now).Commit(d).outbox)
    ensures SameEvents(d.jobs, Started(d, ws, lease, refs, now).Commit(d).jobs)
    ensures Started(d, ws, lease, refs, now).Commit(d).receipts == d.receipts
  {
    var o := Started(d, ws, lease, refs, now);
    if o.Done? && o.value {
      BegunKept(d, ws, lease, refs, now);
    } else {
      assert o.Commit(d).outbox == d.outbox && o.Commit(d).jobs == d.jobs;
      SameKeysKept(d.outbox, d.outbox);
    }
  }

  lemma BegunKept(d: Db, ws: WorkspaceId, lease: Lease, refs: Refs, now: Time)
    requires lease.job in d.jobs
    ensures var e := BeginRun(d, ws, lease, refs, now);
            OutboxKept(d.outbox, e.outbox) && SameEvents(d.jobs, e.jobs) && e.receipts == d.receipts
  {
    AddKept(d.outbox, JobStarted(lease.job), now);
  }

  lemma CompleteKept(d: Db, ws: WorkspaceId, lease: Lease, done: Completion, now: Time)
    ensures OutboxKept(d.outbox, Completed(d, ws, lease, done, now).Commit(d).outbox)
    ensures SameEvents(d.jobs, Completed(d, ws, lease, done, now).Commit(d).jobs)
    ensures Completed(d, ws, lease, done, now).Commit(d).receipts == d.receipts
  {
    AddKept(d.outbox, JobCompleted(lease.job, lease.generation), now);
  }

  lemma FailKept(d: Db, ws: WorkspaceId, lease: Lease, error: Failure, now: Time)
    ensures OutboxKept(d.outbox, FailedUnstarted(d, ws, lease, error, now).Commit(d).outbox)
    ensures SameEvents(d.jobs, FailedUnstarted(d, ws, lease, error, now).Commit(d).jobs)
    ensures FailedUnstarted(d, ws, lease, error, now).Commit(d).receipts == d.receipts
  {
    AddKept(d.outbox, JobCompleted(lease.job, lease.generation), now);
  }

  lemma BeatKept(jobs: map<JobId, Job>, ws: WorkspaceId, active: seq<Lease>, until: Time, now: Time)
    ensures SameEvents(jobs, BeatAll(jobs, ws, active, until, now))
  {
    BeatAllShape(jobs, ws, active, until, now);
    assert forall j :: j in BeatAll(jobs, ws, active, until, now).Keys <==> j in jobs.Keys;
  }

  lemma ClaimOutboxKept(d: Db, limit: int, seconds: real, now: Time)
    ensures Neutral(d, OutboxClaimed(d, limit, seconds, now).0)
  {
    var e := OutboxClaimed(d, limit, seconds, now).0;
    forall i | 0 <= i < |d.outbox| ensures Advances(d.outbox[i], e.outbox[i]) {}
    SameKeysKept(d.outbox, e.outbox);
  }

  lemma OneRowKept(outbox: seq<OutboxRow>, id: nat, row: OutboxRow)
    requires id < |outbox| && Advances(outbox[id], row) && (RowShape(outbox[id]) ==> RowShape(row))
    ensures OutboxKept(outbox, outbox[id := row])
  {
    SameKeysKept(outbox, outbox[id := row]);
  }

  lemma DeliverKept(d: Db, id: nat, generation: nat, now: Time)
    ensures Neutral(d, MarkedDelivered(d, id, generation, now).Commit(d))
  {
    if Holds(d.outbox, id, generation) {
      OneRowKept(d.outbox, id, d.outbox[id].(state := Delivered, leaseUntil := None, deliveredAt := Some(now)));
    } else {
      SameKeysKept(d.outbox, d.outbox);
    }
  }

  lemma RetryKept(d: Db, id: nat, generation: nat, retryAt: Time)
    ensures Neutral(d, MarkedFailed(d, id, generation, retryAt).Commit(d))
  {
    if Holds(d.outbox, id, generation) {
      OneRowKept(d.outbox, id, d.outbox[id].(state := OutPending, leaseUntil := None, availableAt := retryAt));
    } else {
      SameKeysKept(d.outbox, d.outbox);
    }
  }

  lemma FinishKept(d: Db, ws: WorkspaceId, run: RunId, generation: nat, success: bool, now: Time)
    ensures OutboxKept(d.outbox, ActionFinished(d, ws, run, generation, success, now).Commit(d).outbox)
    ensures SameEvents(d.jobs, ActionFinished(d, ws, run, generation, success, now).Commit(d).jobs)
    ensures ActionFinished(d, ws, run, generation, success, now).Commit(d).receipts == d.receipts
  {
    SameKeysKept(d.outbox, d.outbox);
  }

  /** The receipts are untouched, and so are the jobs' events and the outbox keys of other kinds. */
  ghost predicate Neutral(d: Db, e: Db) {
    OutboxKept(d.outbox, e.outbox) && SameEvents(d.jobs, e.jobs) && e.receipts == d.receipts
  }

  lemma NeutralEffects(d: Db, e: Db)
    requires OneEffect(d) && Neutral(d, e)
    ensures OneEffect(e)
  {
    KeptEffects(d, e);
  }

  lemma ClaimNeutral(d: Db, ws: WorkspaceId, limit: int, seconds: real, now: Time, e: Db)
    requires ClaimedTo(d, ws, limit, seconds, now, e)
    ensures Neutral(d, e)
  {
    assert e.outbox == d.outbox && e.receipts == d.receipts && SameEvents(d.jobs, e.jobs);
    SameKeysKept(d.outbox, d.outbox);
  }

  lemma BeatNeutral(d: Db, ws: WorkspaceId, active: seq<Lease>, seconds: real, now: Time)
    ensures Neutral(d, Heartbeat(d, ws, active, seconds, now).Commit(d))
  {
    SameKeysKept(d.outbox, d.outbox);
    BeatKept(d.jobs, ws, active, now + seconds, now);
  }

  lemma ReapNeutral(d: Db, now: Time, order: seq<JobId>, e: Db)
    requires Reaps(d, now, order, e)
    ensures Neutral(d, e)
  {
    AddLostKept(d.outbox, order, now);
  }

  lemma LeaseStepsAreNeutral(d: Db, step: Step, now: Time, e: Db)
    requires Next(d, step, now, e) && LeaseStep(step)
    ensures Neutral(d, e)
  {
    match step
    case Claim(ws, limit, seconds) => ClaimNeutral(d, ws, limit, seconds, now, e);
    case Beat(ws, active, seconds) => BeatNeutral(d, ws, active, seconds, now);
    case Start(ws, lease, refs) => StartKept(d, ws, lease, refs, now);
    case Complete(ws, lease, done) => CompleteKept(d, ws, lease, done, now);
    case FailEarly(ws, lease, error) => FailKept(d, ws, lease, error, now);
    case Reap =>
      var order :| Reaps(d, now, order, e);
      ReapNeutral(d, now, order, e);
  }

  lemma RejectKept(d: Db, event: EventKey, conv: ConvKey, reason: string, failed: bool, now: Time)
    ensures var e := RejectionRecorded(d, event, conv, reason, failed, now);
            (OutboxShape(d.outbox) ==> OutboxShape(e.outbox)) && OutboxAdvances(d.outbox, e.outbox)
  {
  }

  /** The two transactions that may give an event its job or its rejection. */
  lemma DecidingStepsKeepEffects(d: Db, step: Step, now: Time, e: Db)
    requires OneEffect(d) && Next(d, step, now, e) && (step.Dispatch? || step.Reject?)
    ensures OneEffect(e) && OutboxAdvances(d.outbox, e.outbox) && (OutboxShape(d.outbox) ==> OutboxShape(e.outbox))
  {
    match step
    case Dispatch(envelope) =>
      DispatchKeepsOneEffect(d, envelope, now);
    case Reject(event, conv, reason, failed) =>
      RejectKeepsOneEffect(d, event, conv, reason, failed, now);
      RejectKept(d, event, conv, reason, failed, now);
  }

  /** A new receipt of a kind that has no job and no rejection. */
  lemma ReceiptKept(d: Db, e: Db, event: EventKey, kind: ReceiptKind)
    requires OneEffect(d) && kind != Dispatched && kind != Rejected && event !in d.receipts
    requires e.receipts == d.receipts[event := kind] && e.jobs == d.jobs && e.outbox == d.outbox
    ensures OneEffect(e)
  {
    SameKeysKept(d.outbox, d.outbox);
    KeptEffects(d, e);
  }

  lemma ReceiptStepsKeepEffects(d: Db, step: Step, now: Time, e: Db)
    requires OneEffect(d) && Next(d, step, now, e) && (step.Queue? || step.Skip? || step.Adopt?)
    ensures OneEffect(e) && e.outbox == d.outbox
  {
    match step
    case Queue(conv, entry) => if entry.event !in d.receipts { ReceiptKept(d, e, entry.event, QueuedForNext); }
    case Skip(event) => if event !in d.receipts { ReceiptKept(d, e, event, Skipped); }
    case Adopt(event) => if event !in d.receipts { ReceiptKept(d, e, event, Adopted); }
  }

  lemma SameTablesNeutral(d: Db, e: Db)
    requires e.outbox == d.outbox && e.jobs == d.jobs && e.receipts == d.receipts
    ensures Neutral(d, e)
  {
    SameKeysKept(d.outbox, d.outbox);
  }

  lemma OutboxStepsAreNeutral(d: Db, step: Step, now: Time, e: Db)
    requires Next(d, step, now, e) && (step.ClaimOutbox? || step.Deliver? || step.Retry?)
    ensures Neutral(d, e)
  {
    match step
    case ClaimOutbox(limit, seconds) => ClaimOutboxKept(d, limit, seconds, now);
    case Deliver(id, generation) => DeliverKept(d, id, generation, now);
    case Retry(id, generation, retryAt) => RetryKept(d, id, generation, retryAt);
  }

  lemma BookkeepingStepsAreNeutral(d: Db, step: Step, now: Time, e: Db)
    requires Next(d, step, now, e)
    requires step.Upsert? || step.Clear? || step.Record? || step.Refresh? || step.Schedule? || step.ClaimActions?
    ensures Neutral(d, e)
  {
    SameTablesNeutral(d, e);
  }

  lemma OtherStepsAreNeutral(d: Db, step: Step, now: Time, e: Db)
    requires Next(d, step, now, e)
    requires !step.Dispatch? && !step.Reject? && !step.Queue? && !step.Skip? && !step.Adopt?
    ensures Neutral(d, e)
  {
    if LeaseStep(step) {
      LeaseStepsAreNeutral(d, step, now, e);
    } else if step.ClaimOutbox? || step.Deliver? || step.Retry? {
      OutboxStepsAreNeutral(d, step, now, e);
    } else if step.FinishAction? {
      FinishKept(d, step.ws, step.run, step.generation, step.success, now);
    } else {
      BookkeepingStepsAreNeutral(d, step, now, e);
    }
  }

  lemma NextKeepsEffects(d: Db, step: Step, now: Time, e: Db)
    requires OneEffect(d) && OutboxShape(d.outbox) && Next(d, step, now, e)
    ensures OneEffect(e) && OutboxShape(e.outbox) && OutboxAdvances(d.outbox, e.outbox)
  {
    if step.Dispatch? || step.Reject? {
      DecidingStepsKeepEffects(d, step, now, e);
    } else if step.Queue? || step.Skip? || step.Adopt? {
      ReceiptStepsKeepEffects(d, step, now, e);
    } else {
      OtherStepsAreNeutral(d, step, now, e);
      NeutralEffects(d, e);
    }
  }

  // ---- whole runs

  lemma InitialEffects(workspaces: map<WorkspaceId, Workspace>)
    ensures OneEffect(Initial(workspaces)) && OutboxShape(Initial(workspaces).outbox)
  {
    forall e ensures JobsFor(Initial(workspaces).jobs, e) == {} {}
  }

  /** In every reachable database an event has a job, a rejection, or neither, as its
      receipt says; never both, never two. */
  lemma {:induction false} ReachableHasOneEffect(states: seq<Db>, steps: seq<Step>, times: seq<Time>, n: nat)
    requires IsRun(states, steps, times) && n <= |steps|
    requires exists workspaces :: states[0] == Initial(workspaces)
    ensures OneEffect(states[n]) && OutboxShape(states[n].outbox)
  {
    if n == 0 {
      var workspaces :| states[0] == Initial(workspaces);
      InitialEffects(workspaces);
    } else {
      ReachableHasOneEffect(states, steps, times, n - 1);
      assert StepAt(states, steps, times, n - 1);
      NextKeepsEffects(states[n - 1], steps[n - 1], times[n - 1], states[n]);
    }
  }

  lemma AdvancesIsTransitive(a: seq<OutboxRow>, b: seq<OutboxRow>, c: seq<OutboxRow>)
    requires OutboxAdvances(a, b) && OutboxAdvances(b, c)
    ensures OutboxAdvances(a, c)
  {
    forall i | 0 <= i < |a| ensures Advances(a[i], c[i]) {
      assert Advances(a[i], b[i]) && Advances(b[i], c[i]);
    }
  }

  lemma OutboxAdvancesAt(states: seq<Db>, steps: seq<Step>, times: seq<Time>, n: nat)
    requires IsRun(states, steps, times) && n < |steps|
    requires exists workspaces :: states[0] == Initial(workspaces)
    ensures OutboxAdvances(states[n].outbox, states[n + 1].outbox)
  {
    ReachableHasOneEffect(states, steps, times, n);
    assert StepAt(states, steps, times, n);
    NextKeepsEffects(states[n], steps[n], times[n], states[n + 1]);
  }

  lemma {:induction false} OutboxOnlyAdvances(states: seq<Db>, steps: seq<Step>, times: seq<Time>, m: nat, n: nat)
    requires IsRun(states, steps, times) && m <= n <= |steps|
    requires exists workspaces :: states[0] == Initial(workspaces)
    ensures OutboxAdvances(states[m].outbox, states[n].outbox)
    decreases n - m
  {
    if m < n {
      OutboxOnlyAdvances(states, steps, times, m, n - 1);
      OutboxAdvancesAt(states, steps, times, n - 1);
      AdvancesIsTransitive(states[m].outbox, states[n - 1].outbox, states[n].outbox);
    }
  }

  /** Once an item has been claimed again, or is no longer being delivered, a mark under
      the earlier claim is refused for ever. */
  lemma OnlyTheNewestClaimMarks(states: seq<Db>, steps: seq<Step>, times: seq<Time>, m: nat, n: nat,
                                id: nat, generation: nat, now: Time)
    requires IsRun(states, steps, times) && m <= n <= |steps|
    requires exists workspaces :: states[0] == Initial(workspaces)
    requires id < |states[m].outbox|
    requires states[m].outbox[id].generation > generation
             || (states[m].outbox[id].generation == generation && states[m].outbox[id].state != Delivering)
    ensures MarkedDelivered(states[n], id, generation, now) == Refused(NotLeased)
    ensures forall retryAt :: MarkedFailed(states[n], id, generation, retryAt) == Refused(NotLeased)
  {
    OutboxOnlyAdvances(states, steps, times, m, n);
    assert Advances(states[m].outbox[id], states[n].outbox[id]);
  }
}
