/**
  What each transaction on the outbox leaves in its rows, said of the rows before and after.
*/
module DeliveryEffects {
  import opened Basics
  import opened Tables
  import opened Delivery
  import opened Cleanup
  import opened Store

  /** The lease under which it was being delivered has run out. */
  predicate GivenUp(row: OutboxRow, now: Time) {
    row.state == Delivering && row.leaseUntil.Some? && row.leaseUntil.value < now
  }

  predicate IsDue(row: OutboxRow, now: Time) {
    (row.state == OutPending || GivenUp(row, now)) && row.availableAt <= now
  }

  predicate IsTaken(d: Db, e: Db, item: Item, now: Time, until: Time) {
    && item.id < |d.outbox| && item.id < |e.outbox|
    && var row := d.outbox[item.id];
    && IsDue(row, now)
    && item == Item(item.id, row.key, row.generation + 1, row.attempts + 1)
    && e.outbox[item.id] == row.(
         state := Delivering, leaseUntil := Some(until), generation := row.generation + 1, attempts := row.attempts + 1)
  }

  predicate IsLeft(row: OutboxRow, after: OutboxRow, now: Time) {
    after == if GivenUp(row, now) then row.(state := OutPending, leaseUntil := None) else row
  }

  predicate Ascend(items: seq<Item>) {
    forall i, k :: 0 <= i < k < |items| ==> items[i].id < items[k].id
  }

  predicate Holds(items: seq<Item>, id: nat) {
    exists i :: 0 <= i < |items| && items[i].id == id
  }

  /** A claim takes rows that are due, in order, each under its next generation, and puts back
      those that were given up; nothing else changes. */
  lemma ClaimTakesDue(d: Db, limit: int, seconds: real, now: Time)
    ensures var (e, items) := OutboxClaimed(d, limit, seconds, now);
            && e == d.(outbox := e.outbox) && |e.outbox| == |d.outbox| && Ascend(items)
            && (forall i :: 0 <= i < |items| ==> IsTaken(d, e, items[i], now, now + seconds))
            && (forall id :: 0 <= id < |d.outbox| && !Holds(items, id) ==> IsLeft(d.outbox[id], e.outbox[id], now))
  {
    var ids := DueIds(d.outbox, |d.outbox|, Nat(limit), now);
    var (e, items) := OutboxClaimed(d, limit, seconds, now);
    DueIdsIncrease(d.outbox, |d.outbox|, Nat(limit), now);
    forall i | 0 <= i < |items| ensures IsTaken(d, e, items[i], now, now + seconds) {
      assert items[i].id == ids[i] && Due(d.outbox[ids[i]], now) && ids[i] in ids;
    }
    forall id: nat | id < |d.outbox| && !Holds(items, id) ensures IsLeft(d.outbox[id], e.outbox[id], now) {
      NotAmong(d.outbox, ids, id);
    }
  }

  lemma NotAmong(outbox: seq<OutboxRow>, ids: seq<nat>, id: nat)
    requires (forall i :: 0 <= i < |ids| ==> ids[i] < |outbox|) && !Holds(Items(outbox, ids), id)
    ensures id !in ids
  {
    forall i | 0 <= i < |ids| ensures ids[i] != id { assert Items(outbox, ids)[i].id == ids[i]; }
  }

  /** It takes as many as were asked for, and the first ones: one that is due is left only when
      that many before it were taken. */
  lemma ClaimTakesTheFirst(d: Db, limit: int, seconds: real, now: Time)
    ensures var items := OutboxClaimed(d, limit, seconds, now).1;
            && |items| <= (if limit < 0 then 0 else limit)
            && forall id :: 0 <= id < |d.outbox| && IsDue(d.outbox[id], now) && !Holds(items, id) ==>
                 && |items| == (if limit < 0 then 0 else limit)
                 && forall i :: 0 <= i < |items| ==> items[i].id < id
  {
    var ids := DueIds(d.outbox, |d.outbox|, Nat(limit), now);
    var items := OutboxClaimed(d, limit, seconds, now).1;
    forall id: nat | id < |d.outbox| && IsDue(d.outbox[id], now) && !Holds(items, id)
      ensures |ids| == Nat(limit) && forall i :: 0 <= i < |ids| ==> ids[i] < id
    {
      NotAmong(d.outbox, ids, id);
      DueIdsPassNone(d.outbox, |d.outbox|, Nat(limit), now, id);
    }
  }

  predicate IsHeld(d: Db, id: nat, generation: nat) {
    id < |d.outbox| && d.outbox[id].state == Delivering && d.outbox[id].generation == generation
  }

  /** A mark is accepted exactly for a row being delivered under this claim. */
  lemma MarksNeedTheClaim(d: Db, id: nat, generation: nat, now: Time, retryAt: Time)
    ensures MarkedDelivered(d, id, generation, now) ==
              if IsHeld(d, id, generation)
              then Done(d.(outbox := d.outbox[id := d.outbox[id].(
                     state := Delivered, leaseUntil := None, deliveredAt := Some(now))]), true)
              else Refused(NotLeased)
    ensures MarkedFailed(d, id, generation, retryAt) ==
              if IsHeld(d, id, generation)
              then Done(d.(outbox := d.outbox[id := d.outbox[id].(
                     state := OutPending, leaseUntil := None, availableAt := retryAt)]), true)
              else Refused(NotLeased)
  {
  }

  /** An outcome is recorded of a current job only; the conversation reads so, and the merge
      requests named are on record as open for this run. */
  lemma RecordingNeedsCurrentJob(d: Db, job: JobId, status: ConvStatus, iids: set<int>, run: RunId)
    ensures var o := TerminalRecorded(d, job, status, iids, run);
            && (o.Done? <==> job in d.jobs && d.jobs[job].conv in d.convs
                             && d.convs[d.jobs[job].conv].current == Some(job))
            && (o.Done? ==>
                  var c := d.jobs[job].conv;
                  && o.db == d.(convs := d.convs[c := d.convs[c].(status := status)], mrs := o.db.mrs)
                  && (forall k :: k in o.db.mrs <==>
                        k in d.mrs || (k.project == c.project && k.iid in iids && k.job == job && k.run == run))
                  && (forall k :: k in o.db.mrs ==>
                        if k.project == c.project && k.iid in iids && k.job == job && k.run == run
                        then o.db.mrs[k] == Mr(Opened, if k in d.mrs then d.mrs[k].mergedAt else None)
                        else o.db.mrs[k] == d.mrs[k]))
  {
  }

  // ---- merge requests

  predicate About(o: Observation, k: MrKey) {
    o.project == k.project && o.iid == k.iid
  }

  predicate LastAbout(seen: seq<Observation>, k: MrKey, i: int) {
    0 <= i < |seen| && About(seen[i], k) && forall m :: i < m < |seen| ==> !About(seen[m], k)
  }

  /** Every row of a merge request takes on what was observed of it last; the others stay. */
  lemma {:induction false} LastObservationStands(mrs: map<MrKey, Mr>, seen: seq<Observation>)
    ensures RefreshedAll(mrs, seen).Keys == mrs.Keys
    ensures forall k, i :: k in mrs && LastAbout(seen, k, i) ==>
              RefreshedAll(mrs, seen)[k] == Mr(seen[i].state, seen[i].mergedAt)
    ensures forall k :: k in mrs && (forall i :: !LastAbout(seen, k, i)) ==> RefreshedAll(mrs, seen)[k] == mrs[k]
    decreases |seen|
  {
    if seen != [] {
      var init, last := seen[..|seen| - 1], seen[|seen| - 1];
      LastObservationStands(mrs, init);
      forall k, i ensures LastAbout(seen, k, i) <==>
                            if About(last, k) then i == |init| else LastAbout(init, k, i)
      {
        if LastAbout(init, k, i) && !About(last, k) {
          forall m | i < m < |seen| ensures !About(seen[m], k) { if m < |init| { assert init[m] == seen[m]; } }
        }
        if LastAbout(seen, k, i) && i < |init| {
          forall m | i < m < |init| ensures !About(init[m], k) { assert init[m] == seen[m]; }
        }
      }
      forall k | k in mrs && About(last, k) ensures LastAbout(seen, k, |init|) {}
    }
  }
}
