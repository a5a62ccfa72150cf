/**
  Over whole runs of the system, every receipted event has the one effect its receipt
  names: a job, a rejection, an entry in one queue, or nothing but the receipt.
*/
module ReceiptRuns {
  import opened Basics
  import opened Tables
  import opened Intake
  import opened Cleanup
  import opened StoreRuns
  import opened EffectRuns
  import opened Hosted
  import opened OneActiveJob
  import opened HostedRuns
  import PendingQueue

  // ---- receipts

  ghost predicate KeepsReceipts(d: Db, e: Db) {
    forall x :: x in d.receipts ==> x in e.receipts && e.receipts[x] == d.receipts[x]
  }

  /** No new receipt says that its event was queued. */
  ghost predicate QueuesNone(d: Db, e: Db) {
    forall x :: x in e.receipts && x !in d.receipts ==> e.receipts[x] != QueuedForNext
  }

  lemma NextKeepsReceipts(d: Db, step: Step, now: Time, e: Db)
    requires Next(d, step, now, e)
    ensures KeepsReceipts(d, e) && (!step.Queue? ==> QueuesNone(d, e))
  {
    match step
    case Dispatch(envelope) => DispatchReceipt(d, envelope, now);
    case Reject(event, conv, reason, failed) => RejectReceipt(d, event, conv, reason, failed, now);
    case Queue(conv, entry) => QueueReceipt(d, conv, entry);
    case Skip(_) =>
    case Adopt(_) =>
    case _ => OtherStepsAreNeutral(d, step, now, e);
  }

  lemma DispatchReceipt(d: Db, envelope: Envelope, now: Time)
    ensures var e := DispatchRecorded(d, envelope, now).Commit(d); KeepsReceipts(d, e) && QueuesNone(d, e)
  {
  }

  lemma RejectReceipt(d: Db, event: EventKey, conv: ConvKey, reason: string, failed: bool, now: Time)
    ensures var e := RejectionRecorded(d, event, conv, reason, failed, now); KeepsReceipts(d, e) && QueuesNone(d, e)
  {
  }

  lemma QueueReceipt(d: Db, conv: ConvKey, entry: Entry)
    ensures KeepsReceipts(d, PendingQueued(d, conv, entry).Commit(d))
  {
  }

  // ---- queues

  function Pending(d: Db, c: ConvKey): seq<Entry> {
    if c in d.convs then d.convs[c].pending else []
  }

  /** Entries may have been taken from the front of the queue; none was added. */
  predicate OnlyShrinks(d: Db, e: Db, c: ConvKey) {
    exists k :: 0 <= k <= |Pending(d, c)| && Pending(e, c) == Pending(d, c)[k..]
  }

  /** One entry of this event was added, behind the others. */
  predicate Gains(d: Db, e: Db, c: ConvKey, x: EventKey) {
    && |Pending(e, c)| == |Pending(d, c)| + 1 && Pending(e, c)[..|Pending(d, c)|] == Pending(d, c)
    && Pending(e, c)[|Pending(d, c)|].event == x
  }

  lemma SameIsNotMore(d: Db, e: Db, c: ConvKey)
    requires Pending(e, c) == Pending(d, c)
    ensures OnlyShrinks(d, e, c)
  {
    assert Pending(e, c) == Pending(d, c)[0..];
  }

  lemma NewRowIsEmpty(d: Db, step: Step, now: Time, e: Db, c: ConvKey)
    requires Next(d, step, now, e) && !step.Upsert? && !step.Queue? && c !in d.convs
    ensures c !in e.convs
  {
    if LeaseStep(step) {
      LeaseStepQuiet(d, step, now, e);
    } else if step.ClaimActions? {
      var claimed :| ActionsClaimed(d, step.ws, step.limit, step.seconds, now, e, claimed);
      ActionsQuiet(d, step.ws, step.limit, step.seconds, now, e, claimed);
    } else if step.FinishAction? {
      FinishQuiet(d, step.ws, step.run, step.generation, step.success, now);
    } else if step.Dispatch? || step.Clear? || step.Record? {
      RowsOfOthers(d, step, now, e, c);
    }
  }

  lemma RowsOfOthers(d: Db, step: Step, now: Time, e: Db, c: ConvKey)
    requires Next(d, step, now, e) && (step.Dispatch? || step.Clear? || step.Record?) && c !in d.convs
    ensures c !in e.convs
  {
  }

  lemma NextOnlyShrinks(d: Db, step: Step, now: Time, e: Db, c: ConvKey)
    requires Next(d, step, now, e) && !step.Queue?
    ensures OnlyShrinks(d, e, c)
  {
    if step.Clear? && step.conv == c {
      ClearOnlyShrinks(d, c, step.count);
    } else {
      PendingQueue.ForeignStepKeeps(d, step, now, e, c);
      if c !in d.convs {
        if step.Upsert? { UpsertIsEmpty(d, step.conv, step.ws, c); } else { NewRowIsEmpty(d, step, now, e, c); }
      }
      SameIsNotMore(d, e, c);
    }
  }

  lemma UpsertIsEmpty(d: Db, conv: ConvKey, ws: WorkspaceId, c: ConvKey)
    requires c !in d.convs
    ensures Pending(Upserted(d, conv, ws).Commit(d), c) == []
  {
  }

  lemma ClearOnlyShrinks(d: Db, c: ConvKey, count: nat)
    ensures OnlyShrinks(d, PendingCleared(d, c, count), c)
  {
    var e, n := PendingCleared(d, c, count), |Pending(d, c)|;
    assert Pending(e, c) == Pending(d, c)[if count <= n then count else n..];
  }

  // ---- one step of the system

  /** The poller has found a row for the conversation it is about to queue in. */
  predicate QueueHasRow(s: Sys) {
    s.poller.Queueing? ==> s.poller.c.conv in s.db.convs
  }

  predicate Queues(s: Sys, act: Act) {
    act.WriteQueue? && s.poller.Queueing? && s.poller.c.event !in s.db.receipts
  }

  lemma SysKeepsQueueRow(s: Sys, act: Act, now: Time, t: Sys)
    requires QueueHasRow(s) && SysNext(s, act, now, t)
    ensures QueueHasRow(t)
  {
    if act.Env? {
      EnvQuiet(s.db, act.step, now, t.db);
    } else if act.HumanNote? || PollerAct(act) {
    } else {
      PublisherQuiet(s, act, now, t);
    }
  }

  /** The one step that adds to a queue adds one entry of its event to one queue, with the receipt. */
  lemma QueueingAddsOne(s: Sys, act: Act, now: Time, t: Sys)
    requires QueueHasRow(s) && SysNext(s, act, now, t) && Queues(s, act)
    ensures var x, c := s.poller.c.event, s.poller.c.conv;
            && t.db.receipts == s.db.receipts[x := QueuedForNext]
            && Gains(s.db, t.db, c, x) && forall k :: k != c ==> Pending(t.db, k) == Pending(s.db, k)
  {
  }

  /** No other step adds to a queue or writes such a receipt. */
  lemma NothingElseAdds(s: Sys, act: Act, now: Time, t: Sys)
    requires SysNext(s, act, now, t) && !Queues(s, act)
    ensures QueuesNone(s.db, t.db) && forall c :: OnlyShrinks(s.db, t.db, c)
  {
    if act.WriteQueue? {
      assert t.db == s.db;
      forall c ensures OnlyShrinks(s.db, t.db, c) { SameIsNotMore(s.db, t.db, c); }
    } else {
      var step := SomeStep(s, act, now, t);
      if t.db == s.db {
        forall c ensures OnlyShrinks(s.db, t.db, c) { SameIsNotMore(s.db, t.db, c); }
      } else {
        NextKeepsReceipts(s.db, step, now, t.db);
        forall c ensures OnlyShrinks(s.db, t.db, c) { NextOnlyShrinks(s.db, step, now, t.db, c); }
      }
    }
  }

  // ---- whole runs

  lemma {:induction false} QueueRowAt(states: seq<Sys>, acts: seq<Act>, times: seq<Time>, n: nat)
    requires IsSysRun(states, acts, times) && n <= |acts|
    ensures QueueHasRow(states[n])
  {
    if n > 0 {
      QueueRowAt(states, acts, times, n - 1);
      assert ActAt(states, acts, times, n - 1);
      SysKeepsQueueRow(states[n - 1], acts[n - 1], times[n - 1], states[n]);
    }
  }

  /** Step `i` adds an entry of this event to the queue of this conversation. */
  predicate AddedAt(states: seq<Sys>, i: nat, c: ConvKey, x: EventKey)
    requires i + 1 < |states|
  {
    Gains(states[i].db, states[i + 1].db, c, x)
  }

  /** An entry is added exactly by the step that receipts its event as queued, to one
      conversation, which had a row; the other queues of that step stay as they are. */
  lemma AddedWithReceipt(states: seq<Sys>, acts: seq<Act>, times: seq<Time>, i: nat, x: EventKey)
    requires IsSysRun(states, acts, times) && i < |acts|
    ensures KeepsReceipts(states[i].db, states[i + 1].db)
    ensures (exists c :: AddedAt(states, i, c, x)) <==>
              && x !in states[i].db.receipts && x in states[i + 1].db.receipts
              && states[i + 1].db.receipts[x] == QueuedForNext
    ensures forall c :: AddedAt(states, i, c, x) ==>
              c in states[i].db.convs && forall k :: k != c ==> Pending(states[i + 1].db, k) == Pending(states[i].db, k)
  {
    assert ActAt(states, acts, times, i);
    var s, t, act := states[i], states[i + 1], acts[i];
    QueueRowAt(states, acts, times, i);
    var step := SomeStep(s, act, times[i], t);
    if t.db != s.db { NextKeepsReceipts(s.db, step, times[i], t.db); }
    if Queues(s, act) {
      QueueingAddsOne(s, act, times[i], t);
      assert x == s.poller.c.event ==> AddedAt(states, i, s.poller.c.conv, x);
    } else {
      NothingElseAdds(s, act, times[i], t);
      forall c ensures !AddedAt(states, i, c, x) { assert OnlyShrinks(s.db, t.db, c); }
    }
  }

  lemma {:induction false} ReceiptsStay(states: seq<Sys>, acts: seq<Act>, times: seq<Time>, m: nat, n: nat)
    requires IsSysRun(states, acts, times) && m <= n <= |acts|
    ensures KeepsReceipts(states[m].db, states[n].db)
    decreases n - m
  {
    if m < n {
      ReceiptsStay(states, acts, times, m, n - 1);
      AddedWithReceipt(states, acts, times, n - 1, EventKey(0, LabelEvent, 0, 0));
    }
  }

  /** An event's entry was added, at some step before `n`, to some conversation. */
  ghost predicate WasAdded(states: seq<Sys>, n: nat, x: EventKey)
    requires n < |states|
  {
    exists i :: 0 <= i < n && Adds(states, i, x)
  }

  ghost predicate Adds(states: seq<Sys>, i: nat, x: EventKey)
    requires i + 1 < |states|
  {
    exists c :: AddedAt(states, i, c, x)
  }

  /** An event receipted as queued has been added to a queue, and no other event has. */
  lemma {:induction false} QueuedMeansAdded(states: seq<Sys>, acts: seq<Act>, times: seq<Time>, n: nat, x: EventKey)
    requires IsSysRun(states, acts, times) && n <= |acts|
    ensures WasAdded(states, n, x) <==> x in states[n].db.receipts && states[n].db.receipts[x] == QueuedForNext
  {
    if n > 0 {
      QueuedMeansAdded(states, acts, times, n - 1, x);
      AddedWithReceipt(states, acts, times, n - 1, x);
      if WasAdded(states, n - 1, x) {
        var i :| 0 <= i < n - 1 && Adds(states, i, x);
        assert WasAdded(states, n, x);
      }
      if Adds(states, n - 1, x) { assert WasAdded(states, n, x); }
    } else {
      assert states[0].db.receipts == map[];
    }
  }

  /** And it was added once, to one conversation. */
  lemma AddedOnce(
      states: seq<Sys>, acts: seq<Act>, times: seq<Time>, i: nat, k: nat, c: ConvKey, b: ConvKey, x: EventKey)
    requires IsSysRun(states, acts, times) && i < |acts| && k < |acts|
    requires AddedAt(states, i, c, x) && AddedAt(states, k, b, x)
    ensures i == k && c == b
  {
    AddedWithReceipt(states, acts, times, i, x);
    AddedWithReceipt(states, acts, times, k, x);
    if i < k { ReceiptsStay(states, acts, times, i + 1, k); }
    if k < i { ReceiptsStay(states, acts, times, k + 1, i); }
  }

  /** In every reachable state: an event has a job exactly if it is receipted as dispatched,
      a rejection exactly if as rejected, and has been added to a queue exactly if as queued;
      it has at most one job, one rejection, and one addition.  So every receipted event has
      exactly the one effect that its receipt names, and an event without a receipt has none. */
  lemma EveryReceiptHasItsEffect(states: seq<Sys>, acts: seq<Act>, times: seq<Time>, n: nat, x: EventKey)
    requires IsSysRun(states, acts, times) && n <= |acts|
    ensures var d := states[n].db;
            var kind := if x in d.receipts then Some(d.receipts[x]) else None;
            && (JobsFor(d.jobs, x) != {} <==> kind == Some(Dispatched))
            && (HasKey(d.outbox, DispatchRejected(x)) <==> kind == Some(Rejected))
            && (WasAdded(states, n, x) <==> kind == Some(QueuedForNext))
            && (forall j, k :: j in JobsFor(d.jobs, x) && k in JobsFor(d.jobs, x) ==> j == k)
            && UniqueKeys(d.outbox)
    ensures forall i, k, c, b :: 0 <= i < n && 0 <= k < n && AddedAt(states, i, c, x) && AddedAt(states, k, b, x) ==>
              i == k && c == b
  {
    ReachableIsGood(states, acts, times, n);
    QueuedMeansAdded(states, acts, times, n, x);
    var d := states[n].db;
    assert (exists j :: j in JobsFor(d.jobs, x)) <==> x in d.receipts && d.receipts[x] == Dispatched;
    forall i, k, c, b | 0 <= i < n && 0 <= k < n && AddedAt(states, i, c, x) && AddedAt(states, k, b, x)
      ensures i == k && c == b
    {
      AddedOnce(states, acts, times, i, k, c, b, x);
    }
  }
}
