/**
  What becomes of an event, read off the database before and after it was dispatched:
  it is left alone, turned down, queued for the next run, or given a job.
*/
module Dispositions {
  import opened Basics
  import opened Tables
  import opened Intake
  import opened Hosted
  import opened Dispatcher
  import opened OneActiveJob
  import opened HostedRuns
  import opened ReceiptRuns

  /** The event has been dealt with: a job was made for it, or it has a receipt. */
  predicate DealtWith(d: Db, event: EventKey) {
    event in d.receipts || exists j :: j in d.jobs && d.jobs[j].event == event
  }

  predicate RunIsOn(d: Db, conv: ConvKey) {
    exists j ::
      && j in d.jobs && conv in d.convs && d.convs[conv].current == Some(j)
      && (d.jobs[j].state == Queued || d.jobs[j].state == Leased || d.jobs[j].state == Running)
  }

  /** A run of the conversation is on, or its outcome or its cleanup is being seen to. */
  predicate Occupied(d: Db, conv: ConvKey) {
    && conv in d.convs
    && (RunIsOn(d, conv) || d.convs[conv].status == Finishing || d.convs[conv].status == Cleaning)
  }

  /** The event has a receipt that says so, and there is one rejection to deliver for it. */
  predicate IsTurnedDown(d: Db, c: Candidate, reason: string, failed: bool, now: Time, e: Db, verdict: Verdict) {
    && verdict == TurnedDown(reason)
    && e == d.(receipts := d.receipts[c.event := Rejected], outbox := e.outbox)
    && if exists i :: 0 <= i < |d.outbox| && d.outbox[i].key == DispatchRejected(c.event) then e.outbox == d.outbox
       else
         e.outbox == d.outbox + [OutboxRow(
           DispatchRejected(c.event), Some(Rejection(c.conv, reason, failed, now)), OutPending, now, None, 0, 0, None)]
  }

  /** Its messages are the last entry of the conversation's queue, and nothing else has changed. */
  predicate IsQueued(d: Db, c: Candidate, e: Db, verdict: Verdict)
    requires c.conv in d.convs
  {
    var row := d.convs[c.conv];
    && verdict == QueuedForLater
    && e == d.(receipts := d.receipts[c.event := QueuedForNext],
               convs := d.convs[c.conv := row.(pending := row.pending + [Entry(c.event, c.messages)])])
  }

  /** The conversation is in the candidate's workspace, and the job is its current one. */
  predicate IsGivenJob(d: Db, c: Candidate, job: JobId, now: Time, e: Db, verdict: Verdict) {
    && verdict == Verdict.Accepted(job)
    && e == d.(
         receipts := d.receipts[c.event := Dispatched],
         jobs := d.jobs[job := Job(
           c.conv, c.ws, c.event, Envelope(job, c.conv, c.trigger, c.event, c.owner, c.target, c.messages),
           Queued, 0, None, None, now, None, None, None)],
         convs := d.convs[c.conv := Conv(
           c.ws, InQueue, Some(job), if c.conv in d.convs then d.convs[c.conv].pending else [])])
  }

  lemma MeaningOfConsumed(d: Db, c: Candidate)
    ensures Consumed(d, c.event) <==> DealtWith(d, c.event)
  {
    if j :| j in d.jobs && d.jobs[j].event == c.event { assert j in JobsFor(d.jobs, c.event); }
    if JobsFor(d.jobs, c.event) != {} {
      var j :| j in JobsFor(d.jobs, c.event);
      assert j in d.jobs && d.jobs[j].event == c.event;
    }
  }

  /** An event that was dealt with is left alone, whatever the configuration says by now. */
  lemma DealtWithIsLeftAlone(d: Db, c: Candidate, job: JobId, now: Time)
    requires DealtWith(d, c.event)
    ensures Dispatcher.Dispatched(d, c, job, now) == (d, Spent)
  {
    MeaningOfConsumed(d, c);
  }

  /** A workspace that may not be used turns the event down, before anything else is looked at. */
  lemma EarlyVerdictTurnsDown(d: Db, c: Candidate, job: JobId, now: Time)
    requires !DealtWith(d, c.event) && c.early.Some?
    ensures var (e, verdict) := Dispatcher.Dispatched(d, c, job, now);
            IsTurnedDown(d, c, c.early.value, true, now, e, verdict)
  {
    MeaningOfConsumed(d, c);
  }

  /** While the conversation is occupied in the same workspace, a comment waits in the queue and
      a label is turned down without a failure label; neither touches the jobs. */
  lemma OccupiedQueuesCommentsOnly(d: Db, c: Candidate, job: JobId, now: Time)
    requires !DealtWith(d, c.event) && c.early == None && Occupied(d, c.conv) && d.convs[c.conv].ws == c.ws
    ensures var (e, verdict) := Dispatcher.Dispatched(d, c, job, now);
            match c.event.kind
            case CommentEvent => IsQueued(d, c, e, verdict)
            case LabelEvent =>
              if RunIsOn(d, c.conv)
              then IsTurnedDown(d, c, "issue already has an active hosted run", false, now, e, verdict)
              else IsTurnedDown(
                     d, c, "conversation is settling; resolve retention before dispatch", false, now, e, verdict)
  {
    MeaningOfConsumed(d, c);
    MeaningOfOccupied(d, c);
  }

  /** While it is occupied in another workspace, every event is turned down. */
  lemma OccupiedElsewhereTurnsDown(d: Db, c: Candidate, job: JobId, now: Time)
    requires !DealtWith(d, c.event) && c.early == None && Occupied(d, c.conv) && d.convs[c.conv].ws != c.ws
    ensures var (e, verdict) := Dispatcher.Dispatched(d, c, job, now);
            IsTurnedDown(
              d, c, "issue was reassigned while its previous owner's run is active", false, now, e, verdict)
  {
    MeaningOfConsumed(d, c);
    MeaningOfOccupied(d, c);
  }

  /** An unapproved model turns the event down, but only where no run is on. */
  lemma LateVerdictTurnsDown(d: Db, c: Candidate, job: JobId, now: Time)
    requires !DealtWith(d, c.event) && c.early == None && !Occupied(d, c.conv) && c.late.Some?
    ensures var (e, verdict) := Dispatcher.Dispatched(d, c, job, now);
            IsTurnedDown(d, c, c.late.value, true, now, e, verdict)
  {
    MeaningOfConsumed(d, c);
    MeaningOfOccupied(d, c);
  }

  /** A conversation whose cleanup failed takes no job. */
  lemma FailedCleanupTurnsDown(d: Db, c: Candidate, job: JobId, now: Time)
    requires !DealtWith(d, c.event) && c.early == None && !Occupied(d, c.conv) && c.late == None
    requires c.conv in d.convs && d.convs[c.conv].status == CleanupFailed
    ensures var (e, verdict) := Dispatcher.Dispatched(d, c, job, now);
            IsTurnedDown(d, c, "conversation is settling; resolve retention before dispatch", false, now, e, verdict)
  {
    MeaningOfConsumed(d, c);
    MeaningOfOccupied(d, c);
  }

  /** Otherwise the event gets its job, exactly if the workspace is enabled and its owner's and
      the job's id is not taken; if not, the conversation is placed all the same. */
  lemma FreeConversationTakesJob(d: Db, c: Candidate, job: JobId, now: Time)
    requires !DealtWith(d, c.event) && c.early == None && !Occupied(d, c.conv) && c.late == None
    requires c.conv in d.convs ==> d.convs[c.conv].status != CleanupFailed
    ensures var (e, verdict) := Dispatcher.Dispatched(d, c, job, now);
            var mayRun := c.ws in d.workspaces && d.workspaces[c.ws].enabled && d.workspaces[c.ws].owner == c.owner;
            if mayRun && job !in d.jobs then IsGivenJob(d, c, job, now, e, verdict)
            else
              && verdict == Broke(if mayRun then Integrity else Ownership)
              && e == d.(convs := d.convs[c.conv :=
                   if c.conv in d.convs then d.convs[c.conv].(ws := c.ws) else Conv(c.ws, Idle, None, [])])
  {
    MeaningOfConsumed(d, c);
    MeaningOfOccupied(d, c);
    assert Upserted(d, c.conv, c.ws).Done?;
    assert JobsFor(Upserted(d, c.conv, c.ws).db.jobs, c.event) == {};
  }

  lemma MeaningOfOccupied(d: Db, c: Candidate)
    ensures var state := CurrentState(d, c.conv); RunIsOn(d, c.conv) <==> state.Some? && Active(state.value)
  {
    var state := CurrentState(d, c.conv);
    if state.Some? && Active(state.value) { assert d.convs[c.conv].current.value in d.jobs; }
  }

  // ---- over runs

  /** Whatever waits in a queue, or is receipted as waiting, is a comment; and so is what the
      poller is about to queue. */
  ghost predicate OnlyCommentsWait(s: Sys) {
    && (forall x :: x in s.db.receipts && s.db.receipts[x] == QueuedForNext ==> x.kind == CommentEvent)
    && (forall c, i :: 0 <= i < |Pending(s.db, c)| ==> Pending(s.db, c)[i].event.kind == CommentEvent)
    && (s.poller.Queueing? ==> s.poller.c.event.kind == CommentEvent)
  }

  lemma PollerQueuesComments(s: Sys, act: Act, now: Time, t: Sys)
    requires SysNext(s, act, now, t) && t.poller.Queueing?
    ensures t.poller.c.event.kind == CommentEvent || t.poller == s.poller
  {
    if act.Env? || act.HumanNote? || PollerAct(act) {
    } else {
      PublisherQuiet(s, act, now, t);
    }
  }

  lemma QueueingKeepsComments(s: Sys, act: Act, now: Time, t: Sys)
    requires QueueHasRow(s) && OnlyCommentsWait(s) && SysNext(s, act, now, t) && Queues(s, act)
    ensures OnlyCommentsWait(t)
  {
    QueueingAddsOne(s, act, now, t);
    var x, at := s.poller.c.event, s.poller.c.conv;
    forall c, i | 0 <= i < |Pending(t.db, c)| ensures Pending(t.db, c)[i].event.kind == CommentEvent {
      if c == at && i < |Pending(s.db, c)| {
        assert Pending(t.db, c)[i] == Pending(t.db, c)[..|Pending(s.db, c)|][i] == Pending(s.db, c)[i];
      }
    }
  }

  lemma OthersKeepComments(s: Sys, act: Act, now: Time, t: Sys)
    requires OnlyCommentsWait(s) && SysNext(s, act, now, t) && !Queues(s, act)
    requires KeepsReceipts(s.db, t.db)
    ensures OnlyCommentsWait(t)
  {
    NothingElseAdds(s, act, now, t);
    if t.poller.Queueing? { PollerQueuesComments(s, act, now, t); }
    forall c, i | 0 <= i < |Pending(t.db, c)| ensures Pending(t.db, c)[i].event.kind == CommentEvent {
      assert OnlyShrinks(s.db, t.db, c);
      var k :| 0 <= k <= |Pending(s.db, c)| && Pending(t.db, c) == Pending(s.db, c)[k..];
      assert Pending(t.db, c)[i] == Pending(s.db, c)[k + i];
    }
  }

  /** Over any run of the system only comments wait for a run: neither a label nor anything
      else that is no comment is ever in a queue or receipted as queued. */
  lemma {:induction false} OnlyCommentsEverWait(states: seq<Sys>, acts: seq<Act>, times: seq<Time>, n: nat)
    requires IsSysRun(states, acts, times) && n <= |acts|
    ensures OnlyCommentsWait(states[n])
  {
    if n > 0 {
      var s, act, t := states[n - 1], acts[n - 1], states[n];
      OnlyCommentsEverWait(states, acts, times, n - 1);
      assert ActAt(states, acts, times, n - 1);
      QueueRowAt(states, acts, times, n - 1);
      if Queues(s, act) {
        QueueingKeepsComments(s, act, times[n - 1], t);
      } else {
        ReceiptsStay(states, acts, times, n - 1, n);
        OthersKeepComments(s, act, times[n - 1], t);
      }
    }
  }
}
