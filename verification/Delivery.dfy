/**
  The outbox transactions: claim a batch under a lease, then mark each item
  delivered or failed under the generation it was claimed with.
*/
module Delivery {
  import opened Basics
  import opened Tables

  datatype Item = Item(id: nat, key: DedupeKey, generation: nat, attempt: nat)

  function Freed(row: OutboxRow, now: Time): OutboxRow {
    if row.state == Delivering && row.leaseUntil.Some? && row.leaseUntil.value < now
    then row.(state := OutPending, leaseUntil := None) else row
  }

  predicate Due(row: OutboxRow, now: Time) {
    Freed(row, now).state == OutPending && row.availableAt <= now
  }

  /** The due ids below `n`, in order, at most `limit` of them. */
  function DueIds(outbox: seq<OutboxRow>, n: nat, limit: nat, now: Time): (ids: seq<nat>)
    requires n <= |outbox|
    ensures |ids| <= limit
    ensures forall i :: 0 <= i < |ids| ==> ids[i] < n && Due(outbox[ids[i]], now)
  {
    if n == 0 then []
    else
      var before := DueIds(outbox, n - 1, limit, now);
      if |before| < limit && Due(outbox[n - 1], now) then before + [n - 1] else before
  }

  function Taken(row: OutboxRow, until: Time): OutboxRow {
    row.(state := Delivering, leaseUntil := Some(until), generation := row.generation + 1, attempts := row.attempts + 1)
  }

  function ClaimedRows(outbox: seq<OutboxRow>, ids: seq<nat>, until: Time, now: Time): (after: seq<OutboxRow>)
    ensures |after| == |outbox|
  {
    seq(|outbox|, i requires 0 <= i < |outbox| =>
      if i in ids then Taken(Freed(outbox[i], now), until) else Freed(outbox[i], now))
  }

  function Items(outbox: seq<OutboxRow>, ids: seq<nat>): (items: seq<Item>)
    requires forall i :: 0 <= i < |ids| ==> ids[i] < |outbox|
    ensures |items| == |ids|
  {
    seq(|ids|, i requires 0 <= i < |ids| =>
      Item(ids[i], outbox[ids[i]].key, outbox[ids[i]].generation + 1, outbox[ids[i]].attempts + 1))
  }


  function OutboxClaimed(d: Db, limit: int, seconds: real, now: Time): (Db, seq<Item>) {
    var ids := DueIds(d.outbox, |d.outbox|, Nat(limit), now);
    (d.(outbox := ClaimedRows(d.outbox, ids, now + seconds, now)), Items(d.outbox, ids))
  }

  predicate Holds(outbox: seq<OutboxRow>, id: nat, generation: nat) {
    id < |outbox| && outbox[id].state == Delivering && outbox[id].generation == generation
  }

  function MarkedDelivered(d: Db, id: nat, generation: nat, now: Time): Outcome<bool> {
    if !Holds(d.outbox, id, generation) then Refused(NotLeased)
    else Done(d.(outbox := d.outbox[id := d.outbox[id].(
                state := Delivered, leaseUntil := None, deliveredAt := Some(now))]), true)
  }

  function MarkedFailed(d: Db, id: nat, generation: nat, retryAt: Time): Outcome<bool> {
    if !Holds(d.outbox, id, generation) then Refused(NotLeased)
    else Done(d.(outbox := d.outbox[id := d.outbox[id].(
                state := OutPending, leaseUntil := None, availableAt := retryAt)]), true)
  }

  // ---- the fence

  predicate RowShape(row: OutboxRow) {
    && row.attempts == row.generation
    && (row.state == Delivering <==> row.leaseUntil.Some?)
    && (row.state == Delivered <==> row.deliveredAt.Some?)
    && (row.state != OutPending ==> row.generation > 0)
  }

  predicate OutboxShape(outbox: seq<OutboxRow>) {
    forall i :: 0 <= i < |outbox| ==> RowShape(outbox[i])
  }

  /** How one row may change: its key never, its generation only upwards, and once it
      is delivered not at all. */
  predicate Advances(a: OutboxRow, b: OutboxRow) {
    && b.key == a.key && b.rejection == a.rejection
    && a.generation <= b.generation
    && (a.state == Delivered ==> b == a)
    && (a.generation == b.generation && a.state != Delivering ==> b.state == a.state)
  }

  predicate OutboxAdvances(a: seq<OutboxRow>, b: seq<OutboxRow>) {
    |a| <= |b| && forall i :: 0 <= i < |a| ==> Advances(a[i], b[i])
  }
}
