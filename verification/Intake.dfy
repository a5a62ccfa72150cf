/**
  The transactions with which the dispatcher consumes an event: create a job,
  reject, queue for the next run, or record that it was skipped.
*/
module Intake {
  import opened Basics
  import opened Tables

  predicate Settling(status: ConvStatus) {
    status == Finishing || status == Cleaning || status == CleanupFailed
  }

  function Upserted(d: Db, conv: ConvKey, ws: WorkspaceId): Outcome<bool> {
    if conv in d.convs && Settling(d.convs[conv].status) then Refused(Blocked(d.convs[conv].status))
    else
      var row := if conv in d.convs then d.convs[conv].(ws := ws) else Conv(ws, Idle, None, []);
      Done(d.(convs := d.convs[conv := row]), true)
  }

  function JobsFor(jobs: map<JobId, Job>, event: EventKey): set<JobId> {
    set j | j in jobs && jobs[j].event == event
  }

  predicate Owns(d: Db, conv: ConvKey, owner: Username) {
    conv in d.convs && d.convs[conv].ws in d.workspaces
    && d.workspaces[d.convs[conv].ws].enabled && d.workspaces[d.convs[conv].ws].owner == owner
  }

  function NewJob(envelope: Envelope, ws: WorkspaceId, now: Time): Job {
    Job(envelope.conv, ws, envelope.event, envelope, Queued, 0, None, None, now, None, None, None)
  }

  function InsertJob(d: Db, envelope: Envelope, now: Time): Db
    requires envelope.conv in d.convs
  {
    d.(
      receipts := d.receipts[envelope.event := Dispatched],
      jobs := d.jobs[envelope.job := NewJob(envelope, d.convs[envelope.conv].ws, now)],
      convs := d.convs[envelope.conv := d.convs[envelope.conv].(current := Some(envelope.job), status := InQueue)])
  }

  /** The reply says whether a job was created; when it was not, the event already has one. */
  function DispatchRecorded(d: Db, envelope: Envelope, now: Time): Outcome<bool> {
    if JobsFor(d.jobs, envelope.event) != {} then Done(d, false)
    else if !Owns(d, envelope.conv, envelope.owner) then Refused(Ownership)
    else if envelope.event in d.receipts then Refused(ReceiptWithoutJob)
    else if envelope.job in d.jobs then Refused(Integrity)
    else Done(InsertJob(d, envelope, now), true)
  }

  function Enqueued(convs: map<ConvKey, Conv>, conv: ConvKey, entry: Entry): map<ConvKey, Conv> {
    if conv in convs then convs[conv := convs[conv].(pending := convs[conv].pending + [entry])] else convs
  }

  /** A receipt without a conversation row is still written; the entry is then lost. */
  function PendingQueued(d: Db, conv: ConvKey, entry: Entry): Outcome<bool> {
    if entry.event in d.receipts then Done(d, false)
    else Done(d.(receipts := d.receipts[entry.event := QueuedForNext], convs := Enqueued(d.convs, conv, entry)), true)
  }

  function PendingCleared(d: Db, conv: ConvKey, count: nat): Db {
    if conv !in d.convs then d
    else
      var pending := d.convs[conv].pending;
      d.(convs := d.convs[conv := d.convs[conv].(pending := if count <= |pending| then pending[count..] else [])])
  }

  function RejectionRecorded(d: Db, event: EventKey, conv: ConvKey, reason: string, failed: bool, now: Time): Db {
    if event in d.receipts then d
    else d.(
        receipts := d.receipts[event := Rejected],
        outbox := AddOutbox(d.outbox, DispatchRejected(event), Some(Rejection(conv, reason, failed, now)), now))
  }

  /** A receipt alone, unless the event has one: a skipped event, or a label adopted at bootstrap. */
  function EventNoted(d: Db, event: EventKey, kind: ReceiptKind): Db {
    if event in d.receipts then d else d.(receipts := d.receipts[event := kind])
  }

  // ---- one effect per receipted event

  predicate UniqueKeys(outbox: seq<OutboxRow>) {
    forall i, k :: 0 <= i < k < |outbox| ==> outbox[i].key != outbox[k].key
  }

  /** A receipt says which effect its event had, and the tables agree: an event has
      a job exactly when it was dispatched and a rejection exactly when it was
      rejected, and it never has two of either. */
  ghost predicate OneEffect(d: Db) {
    && (forall e :: (e in d.receipts && d.receipts[e] == Dispatched) <==> exists j :: j in JobsFor(d.jobs, e))
    && (forall j, k :: j in d.jobs && k in d.jobs && d.jobs[j].event == d.jobs[k].event ==> j == k)
    && (forall e :: (e in d.receipts && d.receipts[e] == Rejected) <==> HasKey(d.outbox, DispatchRejected(e)))
    && UniqueKeys(d.outbox)
  }

  lemma AddOutboxKeys(outbox: seq<OutboxRow>, key: DedupeKey, rejection: Option<Rejection>, now: Time)
    requires UniqueKeys(outbox)
    ensures UniqueKeys(AddOutbox(outbox, key, rejection, now))
    ensures forall k :: HasKey(AddOutbox(outbox, key, rejection, now), k) <==> k == key || HasKey(outbox, k)
  {
    var after := AddOutbox(outbox, key, rejection, now);
    assert HasKey(outbox, key) || after[|outbox|].key == key;
    forall k ensures HasKey(after, k) <==> k == key || HasKey(outbox, k) {
      if i :| 0 <= i < |outbox| && outbox[i].key == k { assert after[i].key == k; }
    }
  }

  lemma DispatchKeepsOneEffect(d: Db, envelope: Envelope, now: Time)
    requires OneEffect(d)
    ensures OneEffect(DispatchRecorded(d, envelope, now).Commit(d))
  {
    var outcome := DispatchRecorded(d, envelope, now);
    if outcome.Done? && outcome.value {
      var e := outcome.db;
      forall k | k in d.jobs ensures d.jobs[k].event != envelope.event {
        assert k !in JobsFor(d.jobs, envelope.event);
      }
      forall x ensures (x in e.receipts && e.receipts[x] == Dispatched) <==> exists j :: j in JobsFor(e.jobs, x) {
        if j :| j in JobsFor(d.jobs, x) { assert j in JobsFor(e.jobs, x); }
        if j :| j in JobsFor(e.jobs, x) && x != envelope.event { assert j in JobsFor(d.jobs, x); }
        if x == envelope.event { assert envelope.job in JobsFor(e.jobs, x); }
      }
    }
  }

  lemma RejectKeepsOneEffect(d: Db, event: EventKey, conv: ConvKey, reason: string, failed: bool, now: Time)
    requires OneEffect(d)
    ensures OneEffect(RejectionRecorded(d, event, conv, reason, failed, now))
  {
    if event !in d.receipts {
      var e := RejectionRecorded(d, event, conv, reason, failed, now);
      AddOutboxKeys(d.outbox, DispatchRejected(event), Some(Rejection(conv, reason, failed, now)), now);
      forall x ensures (x in e.receipts && e.receipts[x] == Dispatched) <==> exists j :: j in JobsFor(e.jobs, x) {
        assert (x in d.receipts && d.receipts[x] == Dispatched) <==> exists j :: j in JobsFor(d.jobs, x);
      }
      forall x ensures (x in e.receipts && e.receipts[x] == Rejected) <==> HasKey(e.outbox, DispatchRejected(x)) {
        assert (x in d.receipts && d.receipts[x] == Rejected) <==> HasKey(d.outbox, DispatchRejected(x));
      }
      assert UniqueKeys(e.outbox);
    }
  }

  /** Everything else that touches these tables: receipts of other kinds, outbox rows of
      other kinds, and changes to rows that leave their keys alone. */
  ghost predicate EffectFrame(d: Db, e: Db) {
    && (forall x :: x in d.receipts ==> x in e.receipts && e.receipts[x] == d.receipts[x])
    && (forall x :: x in e.receipts && x !in d.receipts ==> e.receipts[x] != Dispatched && e.receipts[x] != Rejected)
    && (forall j :: j in e.jobs <==> j in d.jobs)
    && (forall j :: j in d.jobs ==> e.jobs[j].event == d.jobs[j].event)
    && UniqueKeys(e.outbox)
    && (forall x :: HasKey(e.outbox, DispatchRejected(x)) <==> HasKey(d.outbox, DispatchRejected(x)))
  }

  lemma EffectFrameKeeps(d: Db, e: Db)
    requires OneEffect(d) && EffectFrame(d, e)
    ensures OneEffect(e)
  {
    forall x ensures (exists j :: j in JobsFor(e.jobs, x)) <==> (exists j :: j in JobsFor(d.jobs, x)) {
      if j :| j in JobsFor(e.jobs, x) { assert j in JobsFor(d.jobs, x); }
      if j :| j in JobsFor(d.jobs, x) { assert j in JobsFor(e.jobs, x); }
    }
  }
}
