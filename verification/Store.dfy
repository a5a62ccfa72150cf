/**
  ControllerStore: the tables as mutable fields, every transaction row by row, each
  proved to do what its specification function says.
*/
module Store {
  import opened Basics
  import opened Tables
  import opened Leases
  import opened LeaseInvariants
  import opened Intake
  import opened Delivery
  import opened Cleanup

  class ControllerStore {
    var workspaces: map<WorkspaceId, Workspace>
    var jobs: map<JobId, Job>
    var runs: map<RunId, Run>
    var convs: map<ConvKey, Conv>
    var receipts: map<EventKey, ReceiptKind>
    var outbox: seq<OutboxRow>
    var actions: map<RunId, Action>
    var retention: map<RunId, Retention>
    var mrs: map<MrKey, Mr>

    function Contents(): Db
      reads this
    {
      Db(workspaces, jobs, runs, convs, receipts, outbox, actions, retention, mrs)
    }

    constructor (spaces: map<WorkspaceId, Workspace>)
      ensures Contents() == Initial(spaces)
    {
      workspaces, jobs, runs, convs, receipts := spaces, map[], map[], map[], map[];
      outbox, actions, retention, mrs := [], map[], map[], map[];
    }

    // ---- the queue query

    method FirstInQueue(ids: set<JobId>) returns (first: JobId)
      requires ids != {} && ids <= jobs.Keys
      ensures first in ids && forall j :: j in ids && j != first ==> Before(jobs, first, j)
    {
      first :| first in ids;
      var todo := ids - {first};
      while todo != {}
        invariant todo <= ids && first in ids && first !in todo
        invariant forall j :: j in ids && j !in todo && j != first ==> Before(jobs, first, j)
        decreases todo
      {
        var j :| j in todo;
        todo := todo - {j};
        if Before(jobs, j, first) { first := j; }
      }
    }

    method SelectQueued(ws: WorkspaceId, count: nat) returns (rows: seq<JobId>)
      ensures HeadOfQueue(jobs, ws, rows, count)
    {
      rows := [];
      var rest := Waiting(jobs, ws);
      while |rows| < count && rest != {}
        invariant |rows| <= count
        invariant Selecting(jobs, ws, rows, rest)
        decreases rest
      {
        var first := FirstInQueue(rest);
        SelectOne(jobs, ws, rows, rest, first);
        rows := rows + [first];
        rest := rest - {first};
      }
    }

    /** The loop of the claim over the selected rows. */
    method GrantAll(rows: seq<JobId>, until: Time, now: Time) returns (leases: seq<Lease>)
      requires forall i :: 0 <= i < |rows| ==> rows[i] in jobs
      requires forall i, k :: 0 <= i < k < |rows| ==> rows[i] != rows[k]
      modifies this`jobs
      ensures jobs == GrantRows(old(jobs), rows, until, now)
      ensures leases == GrantedLeases(old(jobs), rows)
    {
      ghost var before := jobs;
      leases := [];
      for i := 0 to |rows|
        invariant jobs == GrantRows(before, rows[..i], until, now)
        invariant leases == GrantedLeases(before, rows[..i])
      {
        var j := rows[i];
        assert j !in rows[..i] && rows[..i + 1] == rows[..i] + [j];
        var generation := jobs[j].generation + 1;
        jobs := jobs[j := jobs[j].(
          state := Leased, generation := generation, leaseUntil := Some(until), heartbeatAt := Some(now))];
        leases := leases + [Lease(j, generation)];
      }
      assert rows[..|rows|] == rows;
    }

    method ClaimJobs(ws: WorkspaceId, limit: int, seconds: real, now: Time) returns (reply: Reply<seq<Lease>>)
      modifies this`jobs
      ensures exists rows, outcome ::
                Claims(old(Contents()), ws, limit, seconds, now, rows, outcome)
                && Carried(old(Contents()), outcome, Contents(), reply)
    {
      ghost var before := Contents();
      if limit <= 0 {
        reply := Ok([]);
        assert Claims(before, ws, limit, seconds, now, [], Done(before, []));
        return;
      }
      if ws !in workspaces || !workspaces[ws].enabled {
        reply := Raised(UnknownWorkspace);
        assert Claims(before, ws, limit, seconds, now, [], Refused(UnknownWorkspace));
        return;
      }
      var available := Available(jobs, ws, limit, workspaces[ws].capacity);
      var rows := SelectQueued(ws, available);
      QueuedAreJobs(jobs, ws, rows, available);
      var leases := GrantAll(rows, now + seconds, now);
      reply := Ok(leases);
      assert Claims(before, ws, limit, seconds, now, rows, Done(Contents(), leases));
    }

    method SetStatus(job: JobId, status: ConvStatus)
      modifies this`convs
      ensures convs == SetStatusOfCurrent(old(convs), {job}, status)
    {
      convs := map c | c in convs :: if convs[c].current == Some(job) then convs[c].(status := status) else convs[c];
    }

    method InsertOutbox(key: DedupeKey, rejection: Option<Rejection>, now: Time)
      modifies this`outbox
      ensures outbox == AddOutbox(old(outbox), key, rejection, now)
    {
      var known := false;
      for i := 0 to |outbox|
        invariant known <==> exists k :: 0 <= k < i && outbox[k].key == key
      {
        if outbox[i].key == key { known := true; }
      }
      if !known { outbox := outbox + [FreshRow(key, rejection, now)]; }
    }

    method MarkStarted(ws: WorkspaceId, lease: Lease, refs: Refs, now: Time) returns (reply: Reply<bool>)
      modifies this`jobs, this`runs, this`convs, this`outbox
      ensures Carried(old(Contents()), Started(old(Contents()), ws, lease, refs, now), Contents(), reply)
    {
      if lease.job !in jobs || jobs[lease.job].ws != ws || jobs[lease.job].generation != lease.generation {
        return Raised(StaleLease);
      }
      var job := jobs[lease.job];
      if job.state == Running {
        if refs.run !in runs || runs[refs.run].job != lease.job || runs[refs.run].ws != ws
           || runs[refs.run].generation != lease.generation || runs[refs.run].refs == None
        {
          return Raised(StaleLease);
        }
        var stored := runs[refs.run].refs.value;
        if stored == refs {
          return Ok(false);
        }
        if SessionUpgrade(stored, refs) {
          runs := runs[refs.run := runs[refs.run].(refs := Some(refs))];
          return Ok(false);
        }
        return Raised(StaleLease);
      }
      if job.state != Leased || job.leaseUntil == None || job.leaseUntil.value < now {
        return Raised(StaleLease);
      }
      if refs.run in runs || HasRun(runs, lease.job, lease.generation) {
        return Raised(Integrity);
      }
      jobs := jobs[lease.job := job.(state := Running, startedAt := Some(now))];
      runs := runs[refs.run := NewRun(lease, ws, refs, now)];
      SetStatus(lease.job, Working);
      InsertOutbox(JobStarted(lease.job), None, now);
      reply := Ok(true);
    }

    method Beat(ws: WorkspaceId, active: seq<Lease>, seconds: real, now: Time) returns (reply: Reply<seq<Lease>>)
      modifies this`jobs
      ensures Carried(old(Contents()), Heartbeat(old(Contents()), ws, active, seconds, now), Contents(), reply)
    {
      if ws !in workspaces || !workspaces[ws].enabled {
        return Raised(UnknownWorkspace);
      }
      ghost var before := jobs;
      var until := now + seconds;
      var stale: seq<Lease> := [];
      for i := 0 to |active|
        invariant Contents() == old(Contents()).(jobs := jobs)
        invariant jobs == BeatAll(before, ws, active[..i], until, now)
        invariant stale == StaleOnes(before, ws, active[..i], until, now)
      {
        var lease := active[i];
        assert active[..i + 1][..i] == active[..i];
        if Beats(jobs, ws, lease, now) {
          jobs := jobs[lease.job := jobs[lease.job].(leaseUntil := Some(until), heartbeatAt := Some(now))];
        } else {
          stale := stale + [lease];
        }
      }
      assert active[..|active|] == active;
      reply := Ok(stale);
    }

    method CompleteJob(ws: WorkspaceId, lease: Lease, done: Completion, now: Time) returns (reply: Reply<bool>)
      modifies this`jobs, this`runs, this`convs, this`outbox
      ensures Carried(old(Contents()), Completed(old(Contents()), ws, lease, done, now), Contents(), reply)
    {
      if lease.job !in jobs || jobs[lease.job].ws != ws || jobs[lease.job].generation != lease.generation {
        return Raised(StaleLease);
      }
      var job := jobs[lease.job];
      if job.state == Succeeded || job.state == Failed {
        return Ok(false);
      }
      if job.state != Running || !HasRun(runs, lease.job, lease.generation) {
        return Raised(StaleLease);
      }
      if job.leaseUntil == None || job.leaseUntil.value < now {
        return Raised(StaleLease);
      }
      jobs := jobs[lease.job := job.(
        state := if done.success then Succeeded else Failed, finishedAt := Some(now), leaseUntil := None,
        failure := if done.success then None else done.error)];
      runs := map r | r in runs ::
        if runs[r].job == lease.job && runs[r].generation == lease.generation && runs[r].state == RunRunning
        then FinishedRun(runs[r], done, now) else runs[r];
      SetStatus(lease.job, Finishing);
      InsertOutbox(JobCompleted(lease.job, lease.generation), None, now);
      reply := Ok(true);
    }

    method FailUnstarted(ws: WorkspaceId, lease: Lease, error: Failure, now: Time) returns (reply: Reply<bool>)
      modifies this`jobs, this`convs, this`outbox
      ensures Carried(old(Contents()), FailedUnstarted(old(Contents()), ws, lease, error, now), Contents(), reply)
    {
      if lease.job !in jobs || jobs[lease.job].ws != ws || jobs[lease.job].generation != lease.generation {
        return Raised(StaleLease);
      }
      var job := jobs[lease.job];
      if job.state == Failed {
        return Ok(false);
      }
      if job.state != Leased || job.leaseUntil == None || job.leaseUntil.value < now {
        return Raised(StaleLease);
      }
      jobs := jobs[lease.job := job.(
        state := Failed, finishedAt := Some(now), leaseUntil := None, failure := Some(error))];
      SetStatus(lease.job, Finishing);
      InsertOutbox(JobCompleted(lease.job, lease.generation), None, now);
      reply := Ok(true);
    }

    /** One expired running job, in the body of the reaper's loop. */
    method LoseJob(j: JobId, now: Time)
      requires j in jobs
      modifies this`jobs, this`runs, this`convs, this`outbox
      ensures jobs == old(jobs)[j := LostRow(old(jobs)[j], now)]
      ensures runs == LoseRuns(old(runs), j, now)
      ensures convs == SetStatusOfCurrent(old(convs), {j}, Finishing)
      ensures outbox == AddOutbox(old(outbox), RunnerLost(j), None, now)
    {
      jobs := jobs[j := jobs[j].(
        state := Failed, finishedAt := Some(now), leaseUntil := None, failure := Some(RUNNER_LOST))];
      runs := map r | r in runs ::
        if runs[r].job == j && runs[r].state == RunRunning
        then runs[r].(state := RunFailed, finishedAt := Some(now)) else runs[r];
      SetStatus(j, Finishing);
      InsertOutbox(RunnerLost(j), None, now);
    }

    /** The loop of the reaper, once the leased jobs have been put back. */
    method LoseAll(rest0: set<JobId>, now: Time, ghost d: Db) returns (lost: seq<JobId>)
      requires rest0 == ExpiredIn(d.jobs, Running, now)
      requires Reaping(d, rest0, rest0, [], now, jobs, runs, convs, outbox)
      modifies this`jobs, this`runs, this`convs, this`outbox
      ensures Reaping(d, rest0, {}, lost, now, jobs, runs, convs, outbox)
    {
      var rest := rest0;
      lost := [];
      while rest != {}
        invariant rest <= rest0
        invariant Reaping(d, rest0, rest, lost, now, jobs, runs, convs, outbox)
        decreases rest
      {
        var j :| j in rest;
        LoseOneMore(d, rest0, rest, lost, j, now, jobs, runs, convs, outbox);
        LoseJob(j, now);
        lost := lost + [j];
        rest := rest - {j};
      }
    }

    /** The job ids are returned in the order in which they were read and handled. */
    method ReapExpired(now: Time) returns (lost: seq<JobId>)
      modifies this`jobs, this`runs, this`convs, this`outbox
      ensures Reaps(old(Contents()), now, lost, Contents())
    {
      ghost var d := Contents();
      RequeueFirst(d, ExpiredIn(d.jobs, Running, now), now);
      jobs := Requeued(jobs, now);
      lost := LoseAll(ExpiredIn(jobs, Running, now), now, d);
      ReapingEnds(d, ExpiredIn(d.jobs, Running, now), lost, now, jobs, runs, convs, outbox);
    }

    // ---- intake

    /** Creates the job of an event, or returns the job that the event has already. */
    method RecordDispatchEvent(envelope: Envelope, now: Time) returns (reply: Reply<bool>, job: JobId)
      modifies this`jobs, this`convs, this`receipts
      ensures Carried(old(Contents()), DispatchRecorded(old(Contents()), envelope, now), Contents(), reply)
      ensures reply.Ok? ==> job in JobsFor(jobs, envelope.event)
    {
      job := envelope.job;
      var existing := JobsFor(jobs, envelope.event);
      if existing != {} {
        job :| job in existing;
        return Ok(false), job;
      }
      if !(envelope.conv in convs && convs[envelope.conv].ws in workspaces
           && workspaces[convs[envelope.conv].ws].enabled
           && workspaces[convs[envelope.conv].ws].owner == envelope.owner)
      {
        return Raised(Ownership), job;
      }
      if envelope.event in receipts {
        return Raised(ReceiptWithoutJob), job;
      }
      if envelope.job in jobs {
        return Raised(Integrity), job;
      }
      receipts := receipts[envelope.event := Dispatched];
      jobs := jobs[envelope.job := NewJob(envelope, convs[envelope.conv].ws, now)];
      convs := convs[envelope.conv := convs[envelope.conv].(current := Some(envelope.job), status := InQueue)];
      reply := Ok(true);
    }

    method QueuePending(conv: ConvKey, entry: Entry) returns (reply: Reply<bool>)
      modifies this`convs, this`receipts
      ensures Carried(old(Contents()), PendingQueued(old(Contents()), conv, entry), Contents(), reply)
    {
      if entry.event in receipts {
        return Ok(false);
      }
      receipts := receipts[entry.event := QueuedForNext];
      if conv in convs {
        convs := convs[conv := convs[conv].(pending := convs[conv].pending + [entry])];
      }
      reply := Ok(true);
    }

    method ClearPending(conv: ConvKey, count: nat)
      modifies this`convs
      ensures Contents() == PendingCleared(old(Contents()), conv, count)
    {
      if conv in convs {
        var pending := convs[conv].pending;
        convs := convs[conv := convs[conv].(pending := if count <= |pending| then pending[count..] else [])];
      }
    }

    /** A receipt of an event that was adopted or skipped. */
    method RecordEvent(event: EventKey, kind: ReceiptKind) returns (inserted: bool)
      modifies this`receipts
      ensures Contents() == EventNoted(old(Contents()), event, kind)
      ensures inserted <==> event !in old(receipts)
    {
      inserted := event !in receipts;
      if inserted { receipts := receipts[event := kind]; }
    }

    // ---- outbox

    /** The loop of the claim over the selected ids. */
    method TakeAll(ids: seq<nat>, until: Time, now: Time, ghost rows: seq<OutboxRow>) returns (items: seq<Item>)
      requires |rows| == |outbox| && (forall k :: 0 <= k < |ids| ==> ids[k] < |rows|)
      requires Increasing(ids)
      requires outbox == ClaimedRows(rows, [], until, now)
      modifies this`outbox
      ensures outbox == ClaimedRows(rows, ids, until, now) && items == Items(rows, ids)
    {
      items := [];
      for i := 0 to |ids|
        invariant outbox == ClaimedRows(rows, ids[..i], until, now)
        invariant items == Items(rows, ids[..i])
      {
        TakeOne(rows, ids, i, until, now);
        var row := outbox[ids[i]];
        outbox := outbox[ids[i] := Taken(row, until)];
        items := items + [Item(ids[i], row.key, row.generation + 1, row.attempts + 1)];
      }
      assert ids[..|ids|] == ids;
    }

    /** Deliveries whose lease has expired are due again. */
    method FreeExpired(now: Time, ghost until: Time)
      modifies this`outbox
      ensures outbox == ClaimedRows(old(outbox), [], until, now)
    {
      var rows := outbox;
      outbox := seq(|rows|, i requires 0 <= i < |rows| => Freed(rows[i], now));
    }

    /** The first due rows, in the order of their ids. */
    method SelectDue(limit: nat, now: Time, ghost rows: seq<OutboxRow>, ghost until: Time) returns (ids: seq<nat>)
      requires outbox == ClaimedRows(rows, [], until, now)
      ensures ids == DueIds(rows, |rows|, limit, now) && Increasing(ids)
      ensures forall k :: 0 <= k < |ids| ==> ids[k] < |rows|
    {
      ids := [];
      var n := 0;
      while n < |outbox|
        invariant 0 <= n <= |outbox| && ids == DueIds(rows, n, limit, now)
      {
        if |ids| < limit && outbox[n].state == OutPending && outbox[n].availableAt <= now {
          ids := ids + [n];
        }
        n := n + 1;
      }
      DueIdsIncrease(rows, |rows|, limit, now);
    }

    method ClaimOutbox(limit: int, seconds: real, now: Time) returns (items: seq<Item>)
      modifies this`outbox
      ensures (Contents(), items) == OutboxClaimed(old(Contents()), limit, seconds, now)
    {
      ghost var rows := outbox;
      var until := now + seconds;
      FreeExpired(now, until);
      var ids := SelectDue(Nat(limit), now, rows, until);
      items := TakeAll(ids, until, now, rows);
      assert Contents() == old(Contents()).(outbox := ClaimedRows(rows, ids, until, now));
    }

    method MarkOutboxDelivered(id: nat, generation: nat, now: Time) returns (reply: Reply<bool>)
      modifies this`outbox
      ensures Carried(old(Contents()), MarkedDelivered(old(Contents()), id, generation, now), Contents(), reply)
    {
      if id >= |outbox| || outbox[id].state != Delivering || outbox[id].generation != generation {
        return Raised(NotLeased);
      }
      outbox := outbox[id := outbox[id].(state := Delivered, leaseUntil := None, deliveredAt := Some(now))];
      reply := Ok(true);
    }

    method MarkOutboxFailed(id: nat, generation: nat, retryAt: Time) returns (reply: Reply<bool>)
      modifies this`outbox
      ensures Carried(old(Contents()), MarkedFailed(old(Contents()), id, generation, retryAt), Contents(), reply)
    {
      if id >= |outbox| || outbox[id].state != Delivering || outbox[id].generation != generation {
        return Raised(NotLeased);
      }
      outbox := outbox[id := outbox[id].(state := OutPending, leaseUntil := None, availableAt := retryAt)];
      reply := Ok(true);
    }

    // ---- cleanup actions

    method FirstAction(ids: set<RunId>) returns (first: RunId)
      requires ids != {} && ids <= actions.Keys
      ensures first in ids && forall r :: r in ids && r != first ==> Earlier(actions, first, r)
    {
      first :| first in ids;
      var todo := ids - {first};
      while todo != {}
        invariant todo <= ids && first in ids && first !in todo
        invariant forall r :: r in ids && r !in todo && r != first ==> Earlier(actions, first, r)
        decreases todo
      {
        var r :| r in todo;
        todo := todo - {r};
        if Earlier(actions, r, first) { first := r; }
      }
    }

    method SelectActions(ws: WorkspaceId, count: nat) returns (rows: seq<RunId>)
      ensures HeadOfActions(actions, ws, rows, count)
    {
      rows := [];
      var rest := PendingActions(actions, ws);
      while |rows| < count && rest != {}
        invariant |rows| <= count
        invariant SelectingActions(actions, ws, rows, rest)
        decreases rest
      {
        var first := FirstAction(rest);
        SelectOneAction(actions, ws, rows, rest, first);
        rows := rows + [first];
        rest := rest - {first};
      }
    }

    /** One selected action, in the body of the claiming loop. */
    method HandOut(ws: WorkspaceId, r: RunId, until: Time) returns (taken: bool)
      requires r in actions
      modifies this`actions, this`convs
      ensures taken <==> HandsOut(old(Contents()), ws, old(actions)[r])
      ensures !taken ==> actions == old(actions) && convs == old(convs)
      ensures taken ==> actions == old(actions)[r := TakenAction(old(actions)[r], until)]
      ensures taken ==>
                var c := jobs[old(actions)[r].job].conv;
                convs == old(convs)[c := old(convs)[c].(status := Cleaning)]
    {
      var job := actions[r].job;
      taken := job in jobs && jobs[job].ws == ws && Terminal(jobs[job].state)
               && jobs[job].conv in convs && convs[jobs[job].conv].current == Some(job);
      if taken {
        actions := actions[r := TakenAction(actions[r], until)];
        convs := convs[jobs[job].conv := convs[jobs[job].conv].(status := Cleaning)];
      }
    }

    method HandOutAll(ws: WorkspaceId, rows: seq<RunId>, until: Time, ghost d: Db) returns (claimed: seq<RunId>)
      requires forall k :: 0 <= k < |rows| ==> rows[k] in actions
      requires forall k, m :: 0 <= k < m < |rows| ==> Earlier(actions, rows[k], rows[m])
      requires d.jobs == jobs && d.convs == convs
      modifies this`actions, this`convs
      ensures HandingOut(d, ws, rows, old(actions), until, actions, convs, claimed)
    {
      ghost var freed := actions;
      claimed := [];
      HandOutNone(d, ws, freed, until);
      for i := 0 to |rows|
        invariant HandingOut(d, ws, rows[..i], freed, until, actions, convs, claimed)
      {
        HandOutOne(d, ws, rows, i, freed, until, actions, convs, claimed);
        var taken := HandOut(ws, rows[i], until);
        if taken { claimed := claimed + [rows[i]]; }
      }
      assert rows[..|rows|] == rows;
    }

    method ClaimWorkspaceActions(ws: WorkspaceId, limit: int, seconds: real, now: Time) returns (claimed: seq<RunId>)
      modifies this`actions, this`convs
      ensures ActionsClaimed(old(Contents()), ws, limit, seconds, now, Contents(), claimed)
    {
      ghost var d := Contents();
      actions := FreedActions(actions, ws, now);
      var rows := SelectActions(ws, AtMostFive(limit));
      claimed := HandOutAll(ws, rows, now + seconds, d);
      ClaimedByRows(d, ws, limit, seconds, now, rows, Contents(), claimed);
    }

    method FinishWorkspaceAction(ws: WorkspaceId, run: RunId, generation: nat, success: bool, now: Time)
      returns (reply: Reply<bool>)
      modifies this`actions, this`convs, this`retention, this`jobs, this`runs
      ensures Carried(
                old(Contents()), ActionFinished(old(Contents()), ws, run, generation, success, now), Contents(), reply)
    {
      if run !in actions || actions[run].ws != ws || actions[run].generation != generation {
        return Raised(StaleLease);
      }
      var action := actions[run];
      if action.state == ActDone || action.state == ActFailed {
        return Ok(false);
      }
      if action.state != ActLeased {
        return Raised(StaleLease);
      }
      if action.leaseUntil == None || action.leaseUntil.value < now {
        return Raised(StaleLease);
      }
      if action.job !in jobs {
        return Raised(MissingRow);
      }
      var conv := jobs[action.job].conv;
      if !success {
        actions := actions[run := action.(state := ActFailed, leaseUntil := None)];
        if conv in convs { convs := convs[conv := convs[conv].(status := CleanupFailed)]; }
        return Ok(true);
      }
      if run !in retention || retention[run].compactedAt.Some? || run !in runs {
        return Raised(MissingRow);
      }
      retention := retention[run := retention[run].(compactedAt := Some(now))];
      jobs := jobs[action.job := jobs[action.job].(envelope := jobs[action.job].envelope.(messages := []))];
      runs := runs[run := runs[run].(refs := None, result := None, error := None)];
      if conv in convs { convs := convs[conv := convs[conv].(status := Archived)]; }
      actions := actions[run := action.(state := ActDone, leaseUntil := None)];
      reply := Ok(true);
    }
  }

  // ---- the loops, one row at a time

  lemma QueuedAreJobs(jobs: map<JobId, Job>, ws: WorkspaceId, rows: seq<JobId>, count: nat)
    requires HeadOfQueue(jobs, ws, rows, count)
    ensures forall i :: 0 <= i < |rows| ==> rows[i] in jobs
    ensures forall i, k :: 0 <= i < k < |rows| ==> rows[i] != rows[k]
  {
    HeadOfQueueIsDistinct(jobs, ws, rows, count);
    forall i | 0 <= i < |rows| ensures rows[i] in jobs { assert rows[i] in Waiting(jobs, ws); }
  }

  /** The rows read so far precede everything still to be read. */
  ghost predicate Selecting(jobs: map<JobId, Job>, ws: WorkspaceId, rows: seq<JobId>, rest: set<JobId>) {
    && (forall j :: j in Waiting(jobs, ws) <==> j in rest || j in rows)
    && (forall i, k :: 0 <= i < k < |rows| ==> rows[i] in jobs && rows[k] in jobs && Before(jobs, rows[i], rows[k]))
    && (forall j :: j in rest ==> AllBefore(jobs, rows, j))
  }

  predicate AllBefore(jobs: map<JobId, Job>, rows: seq<JobId>, j: JobId) {
    j in jobs && forall i :: 0 <= i < |rows| ==> rows[i] in jobs && Before(jobs, rows[i], j)
  }

  lemma SelectOne(jobs: map<JobId, Job>, ws: WorkspaceId, rows: seq<JobId>, rest: set<JobId>, first: JobId)
    requires Selecting(jobs, ws, rows, rest) && first in rest && rest <= jobs.Keys
    requires forall j :: j in rest && j != first ==> Before(jobs, first, j)
    ensures Selecting(jobs, ws, rows + [first], rest - {first})
  {
    var more := rows + [first];
    forall j | j in rest - {first} ensures AllBefore(jobs, more, j) {
      assert AllBefore(jobs, rows, j);
    }
    assert AllBefore(jobs, rows, first);
    forall j ensures j in Waiting(jobs, ws) <==> j in rest - {first} || j in more {
      assert j in more <==> j in rows || j == first;
    }
  }

  ghost function LostRow(job: Job, now: Time): Job {
    Finished(job, Failed, Some(RUNNER_LOST), now)
  }

  function LoseRuns(runs: map<RunId, Run>, j: JobId, now: Time): map<RunId, Run> {
    map r | r in runs ::
      if runs[r].job == j && runs[r].state == RunRunning
      then runs[r].(state := RunFailed, finishedAt := Some(now)) else runs[r]
  }

  /** Everything but `rest` has been handled. */
  ghost predicate Reaping(d: Db, all: set<JobId>, rest: set<JobId>, lost: seq<JobId>, now: Time,
                          jobs: map<JobId, Job>, runs: map<RunId, Run>, convs: map<ConvKey, Conv>,
                          outbox: seq<OutboxRow>)
  {
    && jobs == ReapedExcept(d.jobs, rest, now)
    && runs == ReapedRuns(d.runs, all - rest, now)
    && convs == SetStatusOfCurrent(d.convs, all - rest, Finishing)
    && outbox == AddLost(d.outbox, lost, now)
    && Enumerates(lost, all - rest)
  }

  function Requeued(jobs: map<JobId, Job>, now: Time): map<JobId, Job> {
    map j | j in jobs ::
      if Expired(jobs[j], Leased, now) then jobs[j].(state := Queued, leaseUntil := None) else jobs[j]
  }

  lemma RequeueFirst(d: Db, all: set<JobId>, now: Time)
    requires all == ExpiredIn(d.jobs, Running, now)
    ensures ExpiredIn(Requeued(d.jobs, now), Running, now) == all
    ensures Reaping(d, all, all, [], now, Requeued(d.jobs, now), d.runs, d.convs, d.outbox)
  {
    assert all - all == {};
    assert ReapedRuns(d.runs, {}, now) == d.runs;
    assert SetStatusOfCurrent(d.convs, {}, Finishing) == d.convs;
  }

  lemma LoseJobsMore(jobs: map<JobId, Job>, rest: set<JobId>, j: JobId, now: Time)
    requires j in rest && rest <= ExpiredIn(jobs, Running, now)
    ensures j in ReapedExcept(jobs, rest, now)
    ensures ReapedExcept(jobs, rest - {j}, now)
            == ReapedExcept(jobs, rest, now)[j := LostRow(ReapedExcept(jobs, rest, now)[j], now)]
  {
  }

  lemma LoseRunsMore(runs: map<RunId, Run>, done: set<JobId>, j: JobId, now: Time)
    ensures ReapedRuns(runs, done + {j}, now) == LoseRuns(ReapedRuns(runs, done, now), j, now)
  {
  }

  lemma SettleMore(convs: map<ConvKey, Conv>, done: set<JobId>, j: JobId)
    ensures SetStatusOfCurrent(convs, done + {j}, Finishing)
            == SetStatusOfCurrent(SetStatusOfCurrent(convs, done, Finishing), {j}, Finishing)
  {
  }

  lemma LoseOneMore(d: Db, all: set<JobId>, rest: set<JobId>, lost: seq<JobId>, j: JobId, now: Time,
                    jobs: map<JobId, Job>, runs: map<RunId, Run>, convs: map<ConvKey, Conv>, outbox: seq<OutboxRow>)
    requires j in rest && rest <= all && all == ExpiredIn(d.jobs, Running, now)
    requires Reaping(d, all, rest, lost, now, jobs, runs, convs, outbox)
    ensures j in jobs
    ensures Reaping(d, all, rest - {j}, lost + [j], now,
                    jobs[j := LostRow(jobs[j], now)], LoseRuns(runs, j, now),
                    SetStatusOfCurrent(convs, {j}, Finishing), AddOutbox(outbox, RunnerLost(j), None, now))
  {
    LoseJobsMore(d.jobs, rest, j, now);
    LoseRunsMore(d.runs, all - rest, j, now);
    SettleMore(d.convs, all - rest, j);
    assert all - (rest - {j}) == (all - rest) + {j};
    assert (lost + [j])[..|lost|] == lost;
    forall x ensures x in lost + [j] <==> x in lost || x == j {}
  }

  lemma ReapingEnds(d: Db, all: set<JobId>, lost: seq<JobId>, now: Time,
                    jobs: map<JobId, Job>, runs: map<RunId, Run>, convs: map<ConvKey, Conv>, outbox: seq<OutboxRow>)
    requires all == ExpiredIn(d.jobs, Running, now)
    requires Reaping(d, all, {}, lost, now, jobs, runs, convs, outbox)
    ensures Reaps(d, now, lost, d.(jobs := jobs, runs := runs, convs := convs, outbox := outbox))
  {
    assert all - {} == all;
  }

  /** The reaper's jobs when the lost ones in `rest` are still to be handled. */
  ghost function ReapedExcept(jobs: map<JobId, Job>, rest: set<JobId>, now: Time): map<JobId, Job> {
    map j | j in jobs ::
      if Expired(jobs[j], Leased, now) then jobs[j].(state := Queued, leaseUntil := None)
      else if Expired(jobs[j], Running, now) && j !in rest then Finished(jobs[j], Failed, Some(RUNNER_LOST), now)
      else jobs[j]
  }

  predicate Increasing(ids: seq<nat>) {
    forall i, k :: 0 <= i < k < |ids| ==> ids[i] < ids[k]
  }

  lemma IncreasingGrows(ids: seq<nat>, id: nat)
    requires Increasing(ids) && forall i :: 0 <= i < |ids| ==> ids[i] < id
    ensures Increasing(ids + [id])
  {
  }

  /** The outbox is claimed in id order, */
  lemma {:induction false} DueIdsIncrease(rows: seq<OutboxRow>, n: nat, limit: nat, now: Time)
    requires n <= |rows|
    ensures Increasing(DueIds(rows, n, limit, now))
  {
    if n > 0 {
      DueIdsIncrease(rows, n - 1, limit, now);
      IncreasingGrows(DueIds(rows, n - 1, limit, now), n - 1);
    }
  }

  /** and a due row is passed over only when the batch is already full of earlier ones. */
  lemma {:induction false} DueIdsPassNone(rows: seq<OutboxRow>, n: nat, limit: nat, now: Time, id: nat)
    requires n <= |rows| && id < n && Due(rows[id], now)
    ensures var ids := DueIds(rows, n, limit, now);
            id in ids || (|ids| == limit && forall i :: 0 <= i < |ids| ==> ids[i] < id)
  {
    var before, ids := DueIds(rows, n - 1, limit, now), DueIds(rows, n, limit, now);
    if id == n - 1 {
      if |before| < limit { assert ids[|before|] == id; }
    } else {
      DueIdsPassNone(rows, n - 1, limit, now, id);
      assert before <= ids;
      if id in before {
        var k :| 0 <= k < |before| && before[k] == id;
        assert ids[k] == id;
      } else {
        assert ids == before;
      }
    }
  }

  ghost predicate SelectingActions(actions: map<RunId, Action>, ws: WorkspaceId, rows: seq<RunId>, rest: set<RunId>) {
    && (forall r :: r in PendingActions(actions, ws) <==> r in rest || r in rows)
    && (forall i, k :: 0 <= i < k < |rows| ==>
          rows[i] in actions && rows[k] in actions && Earlier(actions, rows[i], rows[k]))
    && (forall r :: r in rest ==> AllEarlier(actions, rows, r))
  }

  predicate AllEarlier(actions: map<RunId, Action>, rows: seq<RunId>, r: RunId) {
    r in actions && forall i :: 0 <= i < |rows| ==> rows[i] in actions && Earlier(actions, rows[i], r)
  }

  lemma SelectOneAction(actions: map<RunId, Action>, ws: WorkspaceId, rows: seq<RunId>, rest: set<RunId>, first: RunId)
    requires SelectingActions(actions, ws, rows, rest) && first in rest && rest <= actions.Keys
    requires forall r :: r in rest && r != first ==> Earlier(actions, first, r)
    ensures SelectingActions(actions, ws, rows + [first], rest - {first})
  {
    var more := rows + [first];
    forall r | r in rest - {first} ensures AllEarlier(actions, more, r) {
      assert AllEarlier(actions, rows, r);
    }
    assert AllEarlier(actions, rows, first);
    forall r ensures r in PendingActions(actions, ws) <==> r in rest - {first} || r in more {
      assert r in more <==> r in rows || r == first;
    }
  }

  /** The rows in `seen` have been looked at. */
  ghost predicate HandingOut(d: Db, ws: WorkspaceId, seen: seq<RunId>, freed: map<RunId, Action>, until: Time,
                             actions: map<RunId, Action>, convs: map<ConvKey, Conv>, claimed: seq<RunId>)
  {
    ClaimedFrom(d, ws, seen, freed, until, d.(actions := actions, convs := convs), claimed)
  }

  lemma TakeOne(rows: seq<OutboxRow>, ids: seq<nat>, i: nat, until: Time, now: Time)
    requires i < |ids| && (forall k :: 0 <= k < |ids| ==> ids[k] < |rows|)
    requires Increasing(ids)
    ensures ClaimedRows(rows, ids[..i], until, now)[ids[i]] == Freed(rows[ids[i]], now)
    ensures ClaimedRows(rows, ids[..i + 1], until, now)
            == ClaimedRows(rows, ids[..i], until, now)[ids[i] := Taken(Freed(rows[ids[i]], now), until)]
    ensures Items(rows, ids[..i + 1])
            == Items(rows, ids[..i])
               + [Item(ids[i], rows[ids[i]].key, rows[ids[i]].generation + 1, rows[ids[i]].attempts + 1)]
  {
    assert ids[..i + 1] == ids[..i] + [ids[i]];
    assert ids[i] !in ids[..i];
  }

  lemma ClaimedByRows(
      d: Db, ws: WorkspaceId, limit: int, seconds: real, now: Time, rows: seq<RunId>, e: Db, claimed: seq<RunId>)
    requires HeadOfActions(FreedActions(d.actions, ws, now), ws, rows, AtMostFive(limit))
    requires ClaimedFrom(d, ws, rows, FreedActions(d.actions, ws, now), now + seconds, e, claimed)
    ensures ActionsClaimed(d, ws, limit, seconds, now, e, claimed)
  {
  }

  lemma HandOutNone(d: Db, ws: WorkspaceId, freed: map<RunId, Action>, until: Time)
    ensures HandingOut(d, ws, [], freed, until, freed, d.convs, [])
  {
    assert CleaningConvs(d.convs, d.jobs, {}) == d.convs;
  }

  lemma HandOutOne(d: Db, ws: WorkspaceId, rows: seq<RunId>, i: nat, freed: map<RunId, Action>, until: Time,
                   actions: map<RunId, Action>, convs: map<ConvKey, Conv>, claimed: seq<RunId>)
    requires i < |rows| && HandingOut(d, ws, rows[..i], freed, until, actions, convs, claimed)
    requires forall k :: 0 <= k < |rows| ==> rows[k] in freed
    requires forall k, m :: 0 <= k < m < |rows| ==> Earlier(freed, rows[k], rows[m])
    ensures rows[i] in actions && actions[rows[i]] == freed[rows[i]]
    ensures HandsOut(d.(actions := actions, convs := convs), ws, freed[rows[i]]) <==> HandsOut(d, ws, freed[rows[i]])
    ensures !HandsOut(d, ws, freed[rows[i]]) ==> HandingOut(d, ws, rows[..i + 1], freed, until, actions, convs, claimed)
    ensures HandsOut(d, ws, freed[rows[i]]) ==>
              var c := d.jobs[freed[rows[i]].job].conv;
              c in convs && convs[c].current == d.convs[c].current &&
              HandingOut(d, ws, rows[..i + 1], freed, until,
                         actions[rows[i] := TakenAction(actions[rows[i]], until)],
                         convs[c := convs[c].(status := Cleaning)], claimed + [rows[i]])
  {
    var r := rows[i];
    assert rows[..i + 1] == rows[..i] + [r];
    forall k | 0 <= k < i ensures rows[k] != r { assert Earlier(freed, rows[k], r); }
    assert r !in claimed;
  }
}
