/**
  When a cleanup lets a successor overtake an outcome, exactly, and what becomes of the
  outcome: once its job is no longer current, it is never posted.
*/
module Successors {
  import opened Basics
  import opened Tables
  import opened LeaseInvariants
  import opened Intake
  import opened Delivery
  import opened Cleanup
  import opened StoreRuns
  import opened Hosted
  import opened OneActiveJob
  import opened DeliveredFirst
  import opened NotesOnce
  import opened HostedRuns

  // ---- runs of the poller alone

  ghost predicate PollsAt(states: seq<Sys>, acts: seq<Act>, times: seq<Time>, i: nat)
    requires |states| == |acts| + 1 && |times| == |acts| && i < |acts|
  {
    PollerNext(states[i], acts[i], times[i], states[i + 1])
  }

  ghost predicate Polls(s: Sys, t: Sys, states: seq<Sys>, acts: seq<Act>, times: seq<Time>) {
    && |states| == |acts| + 1 && |times| == |acts| && states[0] == s && states[|acts|] == t
    && forall i :: 0 <= i < |acts| ==> PollsAt(states, acts, times, i)
  }

  ghost predicate PollerLeads(s: Sys, t: Sys) {
    exists states, acts, times :: Polls(s, t, states, acts, times)
  }

  lemma LeadsByPoll(s: Sys, t: Sys, act: Act, now: Time, u: Sys)
    requires PollerLeads(s, t) && PollerNext(t, act, now, u)
    ensures PollerLeads(s, u)
  {
    var states, acts, times :| Polls(s, t, states, acts, times);
    var states2, acts2, times2 := states + [u], acts + [act], times + [now];
    forall i | 0 <= i < |acts2| ensures PollsAt(states2, acts2, times2, i) {
      if i < |acts| { assert PollsAt(states, acts, times, i); }
    }
    assert Polls(s, u, states2, acts2, times2);
  }

  /** This step gives the conversation a new job while the outcome of the old one is unrecorded. */
  predicate Overtakes(u: Sys, t: Sys, c: ConvKey) {
    && c in u.db.convs && Unpaid(u.db, u.recorded, c)
    && c in t.db.convs && t.db.convs[c].current != u.db.convs[c].current
  }

  /** The poller alone can get there. */
  ghost predicate Overtakable(s: Sys) {
    exists c, u, t, job, now :: OvertakenBy(s, c, u, t, job, now)
  }

  ghost predicate OvertakenBy(s: Sys, c: ConvKey, u: Sys, t: Sys, job: JobId, now: Time) {
    PollerLeads(s, u) && PollerNext(u, CreateJob(job), now, t) && Overtakes(u, t, c)
  }

  // ---- an open conversation that owes a delivery is overtaken

  /** A request that no check of the dispatcher turns down. */
  predicate Acceptable(d: Db, candidate: Candidate, job: JobId) {
    && candidate.early == None && candidate.late == None && !Consumed(d, candidate.event) && job !in d.jobs
    && candidate.ws in d.workspaces && d.workspaces[candidate.ws].enabled
    && d.workspaces[candidate.ws].owner == candidate.owner
  }

  /** The poller, whatever it was doing, gets as far as admitting the request. */
  lemma OpenIsAdmitted(s: Sys, c: ConvKey, candidate: Candidate, job: JobId, now: Time)
    requires c in s.db.convs && s.db.convs[c].status == Archived && Unpaid(s.db, s.recorded, c)
    requires candidate.conv == c && Acceptable(s.db, candidate, job)
    ensures PollerLeads(s, s.(poller := Admitted(candidate)))
  {
    assert Polls(s, s, [s], [], []);
    var s1 := s.(poller := AtRest);
    LeadsByPoll(s, s, PollerDies, now, s1);
    var s2 := s.(poller := Considering(candidate));
    LeadsByPoll(s, s1, Consider(candidate), now, s2);
    assert Decided(s.db, candidate) == Admitted(candidate);
    LeadsByPoll(s, s2, ReadActive, now, s.(poller := Admitted(candidate)));
  }

  lemma OpenIsPlaced(s: Sys, c: ConvKey, candidate: Candidate, job: JobId, now: Time)
    requires c in s.db.convs && s.db.convs[c].status == Archived && Unpaid(s.db, s.recorded, c)
    requires candidate.conv == c && Acceptable(s.db, candidate, job)
    ensures Upserted(s.db, c, candidate.ws).Done?
    ensures PollerLeads(s, s.(db := Upserted(s.db, c, candidate.ws).db, poller := Placed(candidate)))
  {
    OpenIsAdmitted(s, c, candidate, job, now);
    var admitted := s.(poller := Admitted(candidate));
    var placed := s.(db := Upserted(s.db, c, candidate.ws).db, poller := Placed(candidate));
    assert PollerNext(admitted, PlaceConversation, now, placed);
    LeadsByPoll(s, admitted, PlaceConversation, now, placed);
  }

  /** After a cleanup has succeeded in a conversation that owes a delivery, any acceptable
      request for it creates a job, and the predecessor's outcome is still unrecorded. */
  lemma OpenIsOvertaken(s: Sys, c: ConvKey, candidate: Candidate, job: JobId, now: Time)
    requires c in s.db.convs && s.db.convs[c].status == Archived && Unpaid(s.db, s.recorded, c)
    requires candidate.conv == c && Acceptable(s.db, candidate, job)
    ensures Overtakable(s)
  {
    OpenIsPlaced(s, c, candidate, job, now);
    var d := Upserted(s.db, c, candidate.ws).db;
    var u := s.(db := d, poller := Placed(candidate));
    assert JobsFor(d.jobs, candidate.event) == {};
    var t := u.(db := InsertJob(d, EnvelopeOf(candidate, job), now), poller := AtRest);
    assert PollerNext(u, CreateJob(job), now, t);
    assert OvertakenBy(s, c, u, t, job, now);
  }

  // ---- there is always such a request

  ghost predicate Staffed(d: Db) {
    d.jobs.Keys != {} ==> exists ws :: ws in d.workspaces && d.workspaces[ws].enabled
  }

  lemma LeaseStepsKeepSpaces(d: Db, step: Step, now: Time, e: Db)
    requires Next(d, step, now, e) && LeaseStep(step)
    ensures e.workspaces == d.workspaces
  {
    match step
    case Claim(_, _, _) =>
    case Start(_, _, _) =>
    case Beat(_, _, _) =>
    case Complete(_, _, _) =>
    case FailEarly(_, _, _) =>
    case Reap =>
  }

  lemma NextKeepsSpaces(d: Db, step: Step, now: Time, e: Db)
    requires Next(d, step, now, e)
    ensures e.workspaces == d.workspaces
  {
    if LeaseStep(step) { LeaseStepsKeepSpaces(d, step, now, e); } else { OtherStepsFrame(d, step, now, e); }
  }

  lemma PollerStaffs(s: Sys, act: Act, now: Time, t: Sys)
    requires PollerNext(s, act, now, t) && t.db.jobs.Keys != s.db.jobs.Keys
    ensures exists ws :: ws in s.db.workspaces && s.db.workspaces[ws].enabled
  {
    var c := s.poller.c;
    assert Owns(s.db, c.conv, c.owner);
  }

  lemma SysKeepsStaffed(s: Sys, act: Act, now: Time, t: Sys)
    requires Staffed(s.db) && SysNext(s, act, now, t)
    ensures Staffed(t.db)
  {
    var step := SomeStep(s, act, now, t);
    if t.db != s.db { NextKeepsSpaces(s.db, step, now, t.db); }
    if act.Env? {
      EnvQuiet(s.db, act.step, now, t.db);
      assert t.db.jobs.Keys == s.db.jobs.Keys;
    } else if act.HumanNote? {
    } else if PollerAct(act) {
      if t.db.jobs.Keys != s.db.jobs.Keys { PollerStaffs(s, act, now, t); }
    } else {
      PublisherQuiet(s, act, now, t);
      assert t.db.jobs.Keys == s.db.jobs.Keys;
    }
  }

  lemma {:induction false} ReachableIsStaffed(states: seq<Sys>, acts: seq<Act>, times: seq<Time>, n: nat)
    requires IsSysRun(states, acts, times) && n <= |acts|
    ensures Staffed(states[n].db)
  {
    if n > 0 {
      ReachableIsStaffed(states, acts, times, n - 1);
      assert ActAt(states, acts, times, n - 1);
      SysKeepsStaffed(states[n - 1], acts[n - 1], times[n - 1], states[n]);
    }
  }

  lemma {:induction false} AboveAll(s: set<nat>) returns (bound: nat)
    ensures forall x :: x in s ==> x < bound
    decreases s
  {
    if s == {} {
      bound := 0;
    } else {
      var x :| x in s;
      var rest := AboveAll(s - {x});
      bound := if x < rest then rest else x + 1;
      forall y | y in s ensures y < bound { assert y == x || y in s - {x}; }
    }
  }

  lemma FreshRequest(d: Db, c: ConvKey) returns (candidate: Candidate, job: JobId)
    requires OneEffect(d) && Staffed(d) && d.jobs.Keys != {}
    ensures candidate.conv == c && Acceptable(d, candidate, job)
  {
    job := AboveAll(d.jobs.Keys);
    var taken := set x | x in d.receipts :: x.drains;
    var drains := AboveAll(taken);
    var event := EventKey(c.project, CommentEvent, 0, drains);
    assert forall x :: x in d.receipts ==> x.drains in taken;
    assert event !in d.receipts;
    assert JobsFor(d.jobs, event) == {} by {
      assert (exists j :: j in JobsFor(d.jobs, event)) ==> event in d.receipts;
    }
    var ws :| ws in d.workspaces && d.workspaces[ws].enabled;
    candidate := Candidate(event, c, ws, d.workspaces[ws].owner, Ready, IssueTarget(c.issue), [], None, None);
  }

  // ---- the exact condition

  /** The poller alone keeps what holds before anything has gone wrong. */
  lemma {:induction false} PollingKeepsPaid(s: Sys, t: Sys, states: seq<Sys>, acts: seq<Act>, times: seq<Time>, n: nat)
    requires Polls(s, t, states, acts, times) && n <= |acts| && Good(s) && Paid(s)
    ensures Good(states[n]) && Paid(states[n])
  {
    if n > 0 {
      PollingKeepsPaid(s, t, states, acts, times, n - 1);
      assert PollsAt(states, acts, times, n - 1);
      PollKeepsPaid(states[n - 1], acts[n - 1], times[n - 1], states[n]);
    }
  }

  lemma PollKeepsPaid(s: Sys, act: Act, now: Time, t: Sys)
    requires Good(s) && Paid(s) && PollerNext(s, act, now, t)
    ensures Good(t) && Paid(t)
  {
    assert SysNext(s, act, now, t);
    TidyRecordsTerminal(s);
    StepKeepsGood(s, act, now, t);
    SysKeepsPaid(s, act, now, t);
  }

  lemma PaidIsNotOvertakable(s: Sys)
    requires Good(s) && Paid(s)
    ensures !Overtakable(s)
  {
    if Overtakable(s) {
      var c, u, t, job, now :| OvertakenBy(s, c, u, t, job, now);
      var states, acts, times :| Polls(s, u, states, acts, times);
      PollingKeepsPaid(s, u, states, acts, times, |acts|);
      CreationIsPaid(u, job, now, t, c);
    }
  }

  lemma CreationIsPaid(u: Sys, job: JobId, now: Time, t: Sys, c: ConvKey)
    requires Paid(u) && PollerNext(u, CreateJob(job), now, t)
    ensures !Overtakes(u, t, c)
  {
    if c in u.db.convs && c in t.db.convs && t.db.convs[c].current != u.db.convs[c].current {
      assert u.poller.Placed? && u.poller.c.conv == c;
    }
  }

  /** In any run, a cleanup that finishes while nothing has gone wrong yet lets the poller
      overtake an outcome if and only if it succeeds in a conversation whose current job
      has finished and is not recorded. */
  lemma CleanupOpensExactlyWhenItOverwrites(states: seq<Sys>, acts: seq<Act>, times: seq<Time>, n: nat)
    requires IsSysRun(states, acts, times) && n < |acts| && HarmlessUpTo(states, acts, times, n)
    requires acts[n].Env? && acts[n].step.FinishAction?
    ensures Harmful(states[n].db, states[n].recorded, acts[n].step, times[n])
            <==> Overtakable(states[n + 1])
  {
    var s, t, step := states[n], states[n + 1], acts[n].step;
    ReachableIsGood(states, acts, times, n);
    ReachableIsGood(states, acts, times, n + 1);
    ReachableIsPaid(states, acts, times, n);
    assert ActAt(states, acts, times, n);
    if Harmful(s.db, s.recorded, step, times[n]) {
      ReachableIsStaffed(states, acts, times, n + 1);
      var c := OverwritingOpens(s, step, times[n], t);
      var candidate, job := FreshRequest(t.db, c);
      OpenIsOvertaken(t, c, candidate, job, times[n]);
    } else {
      TidyRecordsTerminal(s);
      SysKeepsPaid(s, acts[n], times[n], t);
      PaidIsNotOvertakable(t);
    }
  }

  lemma OverwritingOpens(s: Sys, step: Step, now: Time, t: Sys) returns (c: ConvKey)
    requires SysNext(s, Env(step), now, t) && Harmful(s.db, s.recorded, step, now)
    ensures c in t.db.convs && t.db.convs[c].status == Archived && Unpaid(t.db, t.recorded, c) && t.db.jobs.Keys != {}
  {
    c := s.db.jobs[s.db.actions[step.run].job].conv;
    assert s.db.actions[step.run].job in t.db.jobs;
  }

  /** A cleanup that fails leaves its conversation shut. */
  lemma FailedCleanupShuts(d: Db, ws: WorkspaceId, run: RunId, generation: nat, now: Time, to: WorkspaceId)
    requires ActionFinished(d, ws, run, generation, false, now).Done?
               && ActionFinished(d, ws, run, generation, false, now).value
    requires d.actions[run].job in d.jobs && d.jobs[d.actions[run].job].conv in d.convs
    ensures var e := ActionFinished(d, ws, run, generation, false, now).db;
            Upserted(e, d.jobs[d.actions[run].job].conv, to).Refused?
  {
  }

  // ---- an overtaken outcome is lost

  predicate WorkingOn(publisher: Publisher, j: JobId) {
    publisher.Publishing? &&
    match publisher.stage
    case Looking(p) => p.Outcome? && p.job == j
    case Absent(p) => p.Outcome? && p.job == j
    case Noted(p) => p.Outcome? && p.job == j
    case Labelled(k, _) => k == j
    case _ => false
  }

  /** The job has finished, is no longer current, and its note is neither posted nor about to be. */
  predicate Lost(s: Sys, j: JobId) {
    && j in s.db.jobs && Terminal(s.db.jobs[j].state)
    && s.db.jobs[j].conv in s.db.convs && s.db.convs[s.db.jobs[j].conv].current != Some(j)
    && !OutcomePosted(s.db, s.notes, j) && !WorkingOn(s.publisher, j)
  }

  lemma CurrentNeverReturns(s: Sys, act: Act, now: Time, t: Sys, j: JobId)
    requires SysNext(s, act, now, t) && JobsAdvance(s.db.jobs, t.db.jobs)
    requires j in s.db.jobs && s.db.jobs[j].conv in s.db.convs && s.db.convs[s.db.jobs[j].conv].current != Some(j)
    ensures j in t.db.jobs && t.db.jobs[j].conv in t.db.convs && t.db.convs[t.db.jobs[j].conv].current != Some(j)
  {
    assert JobAdvances(s.db.jobs[j], t.db.jobs[j]);
    if act.Env? {
      EnvQuiet(s.db, act.step, now, t.db);
    } else if act.HumanNote? {
    } else if PollerAct(act) {
      PollerNeverReturns(s, act, now, t, j);
    } else {
      PublisherQuiet(s, act, now, t);
    }
  }

  lemma PollerNeverReturns(s: Sys, act: Act, now: Time, t: Sys, j: JobId)
    requires PollerNext(s, act, now, t) && j in s.db.jobs
    requires s.db.jobs[j].conv in s.db.convs && s.db.convs[s.db.jobs[j].conv].current != Some(j)
    ensures s.db.jobs[j].conv in t.db.convs && t.db.convs[s.db.jobs[j].conv].current != Some(j)
  {
  }

  /** A job that is not current is never taken up for delivery. */
  lemma PublisherPassesOver(s: Sys, act: Act, now: Time, t: Sys, j: JobId)
    requires PublisherNext(s, act, now, t) && !WorkingOn(s.publisher, j)
    requires j in s.db.jobs && s.db.jobs[j].conv in s.db.convs && s.db.convs[s.db.jobs[j].conv].current != Some(j)
    ensures !WorkingOn(t.publisher, j)
  {
  }

  lemma NoNewNote(s: Sys, act: Act, now: Time, t: Sys, j: JobId, i: nat)
    requires Tidy(s) && SysNext(s, act, now, t) && !WorkingOn(s.publisher, j)
    requires i < |s.db.outbox| && TerminalKeyOf(s.db.outbox[i].key, j) && !OnBoard(s.notes, i)
    ensures !OnBoard(t.notes, i)
  {
    if act.Post? || act.PostReplyLost? {
      var p := s.publisher.stage.p;
      assert Purposes(s.db, s.db.outbox[Head(s).id], p);
      AppendedOnBoard(s.notes, NoteFor(s, p), i);
    } else if act.HumanNote? {
      AppendedOnBoard(s.notes, Note(act.project, act.target, None), i);
    } else {
      NotesUntouched(s, act, now, t);
    }
  }

  lemma NotesUntouched(s: Sys, act: Act, now: Time, t: Sys)
    requires SysNext(s, act, now, t) && !act.Post? && !act.PostReplyLost? && !act.HumanNote?
    ensures t.notes == s.notes
  {
    if PollerAct(act) { PollerLeavesBoard(s, act, now, t); }
  }

  lemma LostStaysLost(s: Sys, act: Act, now: Time, t: Sys, j: JobId)
    requires Good(s) && SysNext(s, act, now, t) && Lost(s, j)
    ensures Lost(t, j)
  {
    StepKeepsTables(s, act, now, t);
    CurrentNeverReturns(s, act, now, t, j);
    assert JobAdvances(s.db.jobs[j], t.db.jobs[j]);
    LostStaysUnposted(s, act, now, t, j);
    if act.Env? || act.HumanNote? {
    } else if PollerAct(act) {
      PollerLeavesBoard(s, act, now, t);
    } else {
      PublisherPassesOver(s, act, now, t, j);
    }
  }

  lemma LostStaysUnposted(s: Sys, act: Act, now: Time, t: Sys, j: JobId)
    requires Good(s) && SysNext(s, act, now, t) && Lost(s, j)
    requires TerminalRows(t.db.jobs, t.db.outbox) && OutboxAdvances(s.db.outbox, t.db.outbox)
    ensures !OutcomePosted(t.db, t.notes, j)
  {
    assert HasTerminalRow(s.db.outbox, j);
    var k :| 0 <= k < |s.db.outbox| && TerminalKeyOf(s.db.outbox[k].key, j);
    assert Advances(s.db.outbox[k], t.db.outbox[k]);
    forall i | 0 <= i < |t.db.outbox| && TerminalKeyOf(t.db.outbox[i].key, j) ensures !OnBoard(t.notes, i) {
      assert i == k;
      NoNewNote(s, act, now, t, j, k);
    }
  }

  lemma {:induction false} LostForever(
    states: seq<Sys>, acts: seq<Act>, times: seq<Time>, m: nat, n: nat, j: JobId)
    requires IsSysRun(states, acts, times) && m <= n <= |acts| && Lost(states[m], j)
    ensures Lost(states[n], j)
    decreases n - m
  {
    if m < n {
      LostForever(states, acts, times, m, n - 1, j);
      ReachableIsGood(states, acts, times, n - 1);
      assert ActAt(states, acts, times, n - 1);
      LostStaysLost(states[n - 1], acts[n - 1], times[n - 1], states[n], j);
    }
  }

  lemma LostIsUnrecorded(s: Sys, j: JobId)
    requires Good(s) && Lost(s, j)
    ensures j !in s.recorded
  {
  }

  /** An outcome whose job is no longer current when it is read is never recorded or posted. */
  lemma SupersededOutcomeIsNeverPosted(
    states: seq<Sys>, acts: seq<Act>, times: seq<Time>, m: nat, n: nat, j: JobId)
    requires IsSysRun(states, acts, times) && m <= n <= |acts| && Lost(states[m], j)
    ensures !OutcomePosted(states[n].db, states[n].notes, j) && j !in states[n].recorded
  {
    LostForever(states, acts, times, m, n, j);
    ReachableIsGood(states, acts, times, n);
    LostIsUnrecorded(states[n], j);
  }
}
