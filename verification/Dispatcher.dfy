/**
  HostedDispatcher.dispatch: checks and then acts, in up to four transactions.  Run
  without interference it is the composition below; Hosted splits the same
  transactions into the poller's separate steps.
*/
module Dispatcher {
  import opened Basics
  import opened Tables
  import opened Intake
  import opened Hosted
  import opened Store

  /** `job` is the job the event has; `queued` tells a queued comment from a rejection. */
  datatype Verdict = Accepted(job: JobId) | Spent | TurnedDown(reason: string) | QueuedForLater | Broke(error: Error)

  function RejectedWith(d: Db, c: Candidate, reason: string, failed: bool, now: Time): (Db, Verdict) {
    (RejectionRecorded(d, c.event, c.conv, reason, failed, now), TurnedDown(reason))
  }

  function Created(d: Db, c: Candidate, job: JobId, now: Time): (Db, Verdict) {
    match DispatchRecorded(d, EnvelopeOf(c, job), now)
    case Done(e, true) => (e, Accepted(job))
    case Done(e, false) => (e, Spent)
    case Refused(error) => (d, Broke(error))
  }

  function Admitting(d: Db, c: Candidate, job: JobId, now: Time): (Db, Verdict) {
    match Upserted(d, c.conv, c.ws)
    case Refused(_) => RejectedWith(d, c, SETTLING, false, now)
    case Done(e, _) => Created(e, c, job, now)
  }

  function AfterDecision(d: Db, c: Candidate, decision: Poller, job: JobId, now: Time): (Db, Verdict) {
    match decision
    case Rejecting(_, reason, failed) => RejectedWith(d, c, reason, failed, now)
    case Queueing(_) => (PendingQueued(d, c.conv, Entry(c.event, c.messages)).Commit(d), QueuedForLater)
    case _ => Admitting(d, c, job, now)
  }

  /** What the poller's steps come to when nothing happens in between. */
  function Dispatched(d: Db, c: Candidate, job: JobId, now: Time): (Db, Verdict) {
    match Considered(d, c)
    case AtRest => (d, Spent)
    case Rejecting(_, reason, failed) => RejectedWith(d, c, reason, failed, now)
    case _ => AfterDecision(d, c, Decided(d, c), job, now)
  }

  /** The decision about an event whose conversation is busy or settling. */
  function Away(c: Candidate, ws: WorkspaceId, running: bool): Poller {
    if ws != c.ws then Rejecting(c, "issue was reassigned while its previous owner's run is active", false)
    else if c.event.kind == CommentEvent then Queueing(c)
    else if running then Rejecting(c, "issue already has an active hosted run", false)
    else Rejecting(c, SETTLING, false)
  }

  /** The same effects, when an already consumed event is told apart by its job. */
  predicate Reports(d: Db, c: Candidate, job: JobId, now: Time, e: Db, verdict: Verdict) {
    && e == Dispatched(d, c, job, now).0
    && (if Dispatched(d, c, job, now).1 == Spent then
          if JobsFor(d.jobs, c.event) != {}
          then verdict.Accepted? && verdict.job in JobsFor(d.jobs, c.event) else verdict == Spent
        else verdict == Dispatched(d, c, job, now).1)
  }

  class HostedDispatcher {
    const store: ControllerStore

    constructor (store: ControllerStore)
      ensures this.store == store
    {
      this.store := store;
    }

    method Reject(c: Candidate, reason: string, setFailedLabel: bool, now: Time) returns (verdict: Verdict)
      modifies store
      ensures (store.Contents(), verdict) == RejectedWith(old(store.Contents()), c, reason, setFailedLabel, now)
    {
      var inserted := store.RecordEvent(c.event, Rejected);
      if inserted {
        store.InsertOutbox(DispatchRejected(c.event), Some(Rejection(c.conv, reason, setFailedLabel, now)), now);
      }
      verdict := TurnedDown(reason);
    }

    method ConsumedEvent(event: EventKey) returns (verdict: Option<Verdict>)
      ensures verdict.Some? <==> Consumed(store.Contents(), event)
      ensures verdict.Some? && JobsFor(store.jobs, event) != {} ==>
                verdict.value.Accepted? && verdict.value.job in JobsFor(store.jobs, event)
      ensures verdict.Some? && JobsFor(store.jobs, event) == {} ==> verdict.value == Spent
    {
      var existing := JobsFor(store.jobs, event);
      if existing != {} {
        var job :| job in existing;
        return Some(Accepted(job));
      }
      verdict := if event in store.receipts then Some(Spent) else None;
    }

    /** The workspace and status of a conversation, with the state of its current job if it has one. */
    method ActiveRun(conv: ConvKey) returns (row: Option<(WorkspaceId, ConvStatus, Option<JobState>)>)
      ensures row.Some? <==> conv in store.convs
      ensures row.Some? ==>
                row.value == (store.convs[conv].ws, store.convs[conv].status, CurrentState(store.Contents(), conv))
    {
      if conv !in store.convs {
        return None;
      }
      var current := store.convs[conv].current;
      var state := if current.Some? && current.value in store.jobs then Some(store.jobs[current.value].state) else None;
      row := Some((store.convs[conv].ws, store.convs[conv].status, state));
    }

    method UpsertConversation(conv: ConvKey, ws: WorkspaceId) returns (reply: Reply<bool>)
      modifies store`convs
      ensures Carried(old(store.Contents()), Upserted(old(store.Contents()), conv, ws), store.Contents(), reply)
    {
      if conv in store.convs && Settling(store.convs[conv].status) {
        return Raised(Blocked(store.convs[conv].status));
      }
      if conv in store.convs {
        store.convs := store.convs[conv := store.convs[conv].(ws := ws)];
      } else {
        store.convs := store.convs[conv := Conv(ws, Idle, None, [])];
      }
      reply := Ok(true);
    }

    /** The conversation has an unfinished run, or is settling. */
    method TurnAway(c: Candidate, ws: WorkspaceId, running: bool, now: Time) returns (verdict: Verdict)
      modifies store
      ensures (store.Contents(), verdict) == AfterDecision(old(store.Contents()), c, Away(c, ws, running), 0, now)
    {
      if ws != c.ws {
        verdict := Reject(c, "issue was reassigned while its previous owner's run is active", false, now);
      } else if c.event.kind == CommentEvent {
        var queued := store.QueuePending(c.conv, Entry(c.event, c.messages));
        verdict := QueuedForLater;
      } else if running {
        verdict := Reject(c, "issue already has an active hosted run", false, now);
      } else {
        verdict := Reject(c, SETTLING, false, now);
      }
    }

    /** The conversation is placed, then the job is created in it. */
    method Admit(c: Candidate, newJob: JobId, now: Time) returns (verdict: Verdict)
      requires !Consumed(store.Contents(), c.event)
      modifies store
      ensures (store.Contents(), verdict) == Admitting(old(store.Contents()), c, newJob, now)
    {
      var placed := UpsertConversation(c.conv, c.ws);
      if placed.Raised? {
        verdict := Reject(c, SETTLING, false, now);
        return;
      }
      var created, job := store.RecordDispatchEvent(EnvelopeOf(c, newJob), now);
      verdict := if created.Raised? then Broke(created.error) else Accepted(newJob);
    }

    method Decide(c: Candidate, newJob: JobId, now: Time) returns (verdict: Verdict)
      requires !Consumed(store.Contents(), c.event)
      modifies store
      ensures (store.Contents(), verdict)
                == AfterDecision(old(store.Contents()), c, Decided(old(store.Contents()), c), newJob, now)
    {
      ghost var d := store.Contents();
      var active := ActiveRun(c.conv);
      if active.Some? {
        var (ws, status, state) := active.value;
        var running := state.Some? && Active(state.value);
        if running || status == Finishing || status == Cleaning {
          assert Decided(d, c) == Away(c, ws, running);
          verdict := TurnAway(c, ws, running, now);
          return;
        }
      }
      if c.late.Some? {
        verdict := Reject(c, c.late.value, true, now);
        return;
      }
      assert Decided(d, c) == Admitted(c);
      verdict := Admit(c, newJob, now);
    }

    method Dispatch(c: Candidate, newJob: JobId, now: Time) returns (verdict: Verdict)
      modifies store
      ensures Reports(old(store.Contents()), c, newJob, now, store.Contents(), verdict)
    {
      var consumed := ConsumedEvent(c.event);
      if consumed.Some? {
        return consumed.value;
      }
      if c.early.Some? {
        verdict := Reject(c, c.early.value, true, now);
        return;
      }
      ghost var d := store.Contents();
      verdict := Decide(c, newJob, now);
      DecisionIsNotSpent(d, c, newJob, now);
    }

    method RecordSkippedEvent(event: EventKey)
      modifies store
      ensures store.Contents() == EventNoted(old(store.Contents()), event, Skipped)
    {
      var inserted := store.RecordEvent(event, Skipped);
    }
  }

  // ---- what a dispatch achieves

  /** The workspace is one that the lookup of the assignee's workspace can have returned. */
  predicate Eligible(d: Db, c: Candidate) {
    c.ws in d.workspaces && d.workspaces[c.ws].enabled && d.workspaces[c.ws].owner == c.owner
  }

  lemma AdmittedSucceeds(d: Db, c: Candidate, job: JobId, now: Time)
    requires Eligible(d, c) && job !in d.jobs && !Consumed(d, c.event) && Upserted(d, c.conv, c.ws).Done?
    ensures var e := Upserted(d, c.conv, c.ws).db;
            Created(e, c, job, now) == (InsertJob(e, EnvelopeOf(c, job), now), Accepted(job))
  {
  }

  lemma DecisionIsNotSpent(d: Db, c: Candidate, job: JobId, now: Time)
    requires !Consumed(d, c.event)
    ensures AfterDecision(d, c, Decided(d, c), job, now).1 != Spent
  {
    if Upserted(d, c.conv, c.ws).Done? {
      assert JobsFor(Upserted(d, c.conv, c.ws).db.jobs, c.event) == {};
    }
  }

  predicate Settles(d: Db, c: Candidate, job: JobId, e: Db, verdict: Verdict) {
    && Consumed(e, c.event) && !verdict.Broke?
    && (verdict.Accepted? ==> verdict.job == job && JobsFor(e.jobs, c.event) == {job})
    && (!verdict.Accepted? ==> e.jobs == d.jobs)
  }

  lemma RejectSettles(d: Db, c: Candidate, reason: string, failed: bool, job: JobId, now: Time)
    ensures Settles(d, c, job, RejectedWith(d, c, reason, failed, now).0, RejectedWith(d, c, reason, failed, now).1)
  {
  }

  lemma AdmitSettles(d: Db, c: Candidate, job: JobId, now: Time)
    requires Eligible(d, c) && job !in d.jobs && !Consumed(d, c.event)
    ensures Settles(d, c, job, Admitting(d, c, job, now).0, Admitting(d, c, job, now).1)
  {
    if Upserted(d, c.conv, c.ws).Done? {
      AdmittedSucceeds(d, c, job, now);
      var e := Admitting(d, c, job, now).0;
      forall j ensures j in JobsFor(e.jobs, c.event) <==> j == job {
        if j in d.jobs { assert j !in JobsFor(d.jobs, c.event); }
      }
    } else {
      RejectSettles(d, c, SETTLING, false, job, now);
    }
  }

  lemma QueueSettles(d: Db, c: Candidate, job: JobId)
    ensures Settles(d, c, job, PendingQueued(d, c.conv, Entry(c.event, c.messages)).Commit(d), QueuedForLater)
  {
  }

  /** A dispatch for an eligible workspace, with a fresh job id, always consumes its event,
      and says truly whether the event has been given a job. */
  lemma DispatchSettlesEvent(d: Db, c: Candidate, job: JobId, now: Time)
    requires Eligible(d, c) && job !in d.jobs
    ensures Settles(d, c, job, Dispatched(d, c, job, now).0, Dispatched(d, c, job, now).1)
  {
    if Considered(d, c).Rejecting? {
      RejectSettles(d, c, c.early.value, true, job, now);
    } else if Considered(d, c).Considering? {
      var decision := Decided(d, c);
      if decision.Rejecting? {
        RejectSettles(d, c, decision.reason, decision.failed, job, now);
      } else if decision.Queueing? {
        QueueSettles(d, c, job);
      } else {
        AdmitSettles(d, c, job, now);
      }
    }
  }

  /** Dispatching the same event again changes nothing. */
  lemma DispatchTwiceIsOnce(d: Db, c: Candidate, job: JobId, now: Time, again: Candidate, job2: JobId, later: Time)
    requires Eligible(d, c) && job !in d.jobs && again.event == c.event
    ensures var e := Dispatched(d, c, job, now).0; Dispatched(e, again, job2, later) == (e, Spent)
  {
    DispatchSettlesEvent(d, c, job, now);
  }

  // ---- it is a run of the interleaved poller

  function Steps(d: Db, c: Candidate, job: JobId): seq<Act> {
    match Considered(d, c)
    case AtRest => [Consider(c)]
    case Rejecting(_, _, _) => [Consider(c), WriteRejection]
    case _ =>
      match Decided(d, c)
      case Rejecting(_, _, _) => [Consider(c), ReadActive, WriteRejection]
      case Queueing(_) => [Consider(c), ReadActive, WriteQueue]
      case _ =>
        match Upserted(d, c.conv, c.ws)
        case Refused(_) => [Consider(c), ReadActive, PlaceConversation, WriteRejection]
        case Done(_, _) => [Consider(c), ReadActive, PlaceConversation, CreateJob(job)]
  }

  /** `states` passes through these steps, all at one instant. */
  ghost predicate Follows(states: seq<Sys>, acts: seq<Act>, now: Time) {
    |states| == |acts| + 1 && forall i :: 0 <= i < |acts| ==> FollowsAt(states, acts, now, i)
  }

  ghost predicate FollowsAt(states: seq<Sys>, acts: seq<Act>, now: Time, i: nat)
    requires |states| == |acts| + 1 && i < |acts|
  {
    PollerNext(states[i], acts[i], now, states[i + 1])
  }

  /** The method's effect is that of the poller taking these steps and no one else any. */
  lemma DispatchIsPollerRun(s: Sys, c: Candidate, job: JobId, now: Time) returns (states: seq<Sys>)
    requires s.poller.AtRest?
    ensures Follows(states, Steps(s.db, c, job), now)
    ensures states[0] == s
    ensures states[|states| - 1] == s.(db := Dispatched(s.db, c, job, now).0)
  {
    var end := s.(db := Dispatched(s.db, c, job, now).0);
    var s1 := s.(poller := Considered(s.db, c));
    if !Considered(s.db, c).Considering? {
      states := if Considered(s.db, c).AtRest? then [s, s1] else [s, s1, end];
    } else {
      var s2 := s.(poller := Decided(s.db, c));
      assert PollerNext(s, Consider(c), now, s1) && PollerNext(s1, ReadActive, now, s2);
      if !Decided(s.db, c).Admitted? {
        AwaySteps(s2, c, job, now);
        states := [s, s1, s2, end];
      } else {
        var s3 := AdmissionSteps(s2, c, job, now);
        states := [s, s1, s2, s3, end];
      }
    }
  }

  lemma AwaySteps(s: Sys, c: Candidate, job: JobId, now: Time)
    requires (s.poller.Rejecting? && s.poller.c == c) || s.poller == Queueing(c)
    ensures PollerNext(s, if s.poller.Rejecting? then WriteRejection else WriteQueue, now,
                       s.(poller := AtRest, db := AfterDecision(s.db, c, s.poller, job, now).0))
  {
  }

  lemma AdmissionSteps(s: Sys, c: Candidate, job: JobId, now: Time) returns (t: Sys)
    requires s.poller == Admitted(c)
    ensures PollerNext(s, PlaceConversation, now, t)
    ensures PollerNext(t, if Upserted(s.db, c.conv, c.ws).Done? then CreateJob(job) else WriteRejection, now,
                       s.(poller := AtRest, db := Admitting(s.db, c, job, now).0))
  {
    var o := Upserted(s.db, c.conv, c.ws);
    t := s.(db := o.Commit(s.db), poller := if o.Done? then Placed(c) else Rejecting(c, SETTLING, false));
  }
}
