/**
  What holds of the whole controller over any run: any interleaving of poller,
  publisher, runners, reaper and retention, with failures and deaths anywhere.
*/
module HostedRuns {
  import opened Basics
  import opened Tables
  import opened LeaseInvariants
  import opened Intake
  import opened Delivery
  import opened Cleanup
  import opened StoreRuns
  import opened EffectRuns
  import opened Hosted
  import opened OneActiveJob
  import opened DeliveredFirst
  import opened NotesOnce

  // ---- the publisher's steps keep the board tidy

  lemma CallKeepsTidy(s: Sys, stage: Stage)
    requires Tidy(s) && s.publisher.Publishing? && (stage == Broken || stage == Handled)
    ensures Tidy(Moved(s, stage))
  {
  }

  lemma TakeBatchKeepsTidy(s: Sys, limit: int, seconds: real, now: Time)
    requires Tidy(s) && s.publisher.Resting?
    ensures var (d, items) := OutboxClaimed(s.db, limit, seconds, now);
            Tidy(s.(db := d, publisher := if items == [] then Resting else Publishing(items, Fresh)))
  {
    var (d, items) := OutboxClaimed(s.db, limit, seconds, now);
    assert OutboxAdvances(s.db.outbox, d.outbox) by { ClaimOutboxKept(s.db, limit, seconds, now); }
    assert JobsAdvance(s.db.jobs, d.jobs);
    MoveKeepsTidy(s, d);
    forall i | 0 <= i < |items| ensures ItemOk(d, items[i]) {}
  }

  lemma MarkKeepsTidy(s: Sys, e: Db)
    requires Tidy(s) && s.publisher.Publishing? && e.jobs == s.db.jobs && OutboxAdvances(s.db.outbox, e.outbox)
    ensures Tidy(s.(db := e, publisher := NextItem(s))) && Tidy(s.(db := e, publisher := Resting))
  {
    MoveKeepsTidy(s, e);
    NextItemTidy(s.(db := e));
  }

  lemma MarkDoneKeepsTidy(s: Sys, now: Time, t: Sys)
    requires Tidy(s) && PublisherNext(s, MarkDone, now, t)
    ensures Tidy(t)
  {
    DeliverKept(s.db, Head(s).id, Head(s).generation, now);
    MarkKeepsTidy(s, t.db);
  }

  lemma MarkBrokenKeepsTidy(s: Sys, retryAt: Time, now: Time, t: Sys)
    requires Tidy(s) && PublisherNext(s, MarkBroken(retryAt), now, t)
    ensures Tidy(t)
  {
    RetryKept(s.db, Head(s).id, Head(s).generation, retryAt);
    MarkKeepsTidy(s, t.db);
  }

  lemma LabellingKeepsTidy(s: Sys, act: Act, now: Time, t: Sys)
    requires Tidy(s) && PublisherNext(s, act, now, t) && (act.SetLabel? || act.LabelReplyLost?)
    ensures Tidy(t)
  {
    match s.publisher.stage
    case Noted(p) =>
      if LabelsFor(p) != [] {
        LabelKeepsTidy(s, t.publisher.stage, LabelsFor(p)[0]);
      } else {
        assert s.labels + LabelsFor(p) == s.labels;
        CallKeepsTidy(s, t.publisher.stage);
      }
    case Progressing(j) => LabelKeepsTidy(s, t.publisher.stage, Progress(j));
  }

  lemma PublisherKeepsTidy(s: Sys, act: Act, now: Time, t: Sys)
    requires Tidy(s) && TerminalRows(s.db.jobs, s.db.outbox) && PublisherNext(s, act, now, t)
    ensures Tidy(t)
  {
    if act.TakeBatch? { TakeBatchKeepsTidy(s, act.limit, act.seconds, now); }
    else if act.ReadRow? { ReadRowKeepsTidy(s, act.x); }
    else if act.LookUp? { LookUpKeepsTidy(s, s.publisher.stage.p); }
    else if act.Post? { PostKeepsTidy(s, s.publisher.stage.p, Noted(s.publisher.stage.p)); }
    else if act.PostReplyLost? { PostKeepsTidy(s, s.publisher.stage.p, Broken); }
    else if act.CallFails? { CallKeepsTidy(s, Broken); }
    else if act.SetLabel? || act.LabelReplyLost? { LabellingKeepsTidy(s, act, now, t); }
    else if act.RecordOutcome? { RecordingKeepsTidy(s, now, t); }
    else if act.MarkDone? { MarkDoneKeepsTidy(s, now, t); }
    else if act.MarkBroken? { MarkBrokenKeepsTidy(s, act.retryAt, now, t); }
  }

  lemma RecordingKeepsTidy(s: Sys, now: Time, t: Sys)
    requires Tidy(s) && PublisherNext(s, RecordOutcome, now, t)
    ensures Tidy(t)
  {
    var job, report := s.publisher.stage.job, s.publisher.stage.report;
    var o := TerminalRecorded(s.db, job, report.status, report.iids, RunIn(report));
    if o.Done? { RecordKeepsTidy(s, job, report, o.db); } else { CallKeepsTidy(s, Broken); }
  }

  // ---- one invariant for the whole system

  ghost predicate Good(s: Sys) {
    && Valid(s.db) && OneEffect(s.db) && OutboxShape(s.db.outbox)
    && CurrentOk(s.db.jobs, s.db.convs) && PollerOk(s.db, s.poller)
    && Tidy(s)
  }

  lemma StepKeepsTables(s: Sys, act: Act, now: Time, t: Sys)
    requires Valid(s.db) && OneEffect(s.db) && OutboxShape(s.db.outbox) && SysNext(s, act, now, t)
    ensures Valid(t.db) && OneEffect(t.db) && OutboxShape(t.db.outbox)
    ensures JobsAdvance(s.db.jobs, t.db.jobs) && OutboxAdvances(s.db.outbox, t.db.outbox)
  {
    var step := SomeStep(s, act, now, t);
    if t.db == s.db {
      Reflexive(s.db);
    } else {
      assert Valid(t.db) by { NextKeepsValid(s.db, step, now, t.db); }
      assert OneEffect(t.db) && OutboxShape(t.db.outbox) && OutboxAdvances(s.db.outbox, t.db.outbox) by {
        NextKeepsEffects(s.db, step, now, t.db);
      }
      NextAdvancesJobs(s.db, step, now, t.db);
    }
  }

  lemma SomeStep(s: Sys, act: Act, now: Time, t: Sys) returns (step: Step)
    requires SysNext(s, act, now, t)
    ensures t.db == s.db || Next(s.db, step, now, t.db)
    ensures step.Queue? ==> act.WriteQueue?
  {
    step := Reap;
    if act.Env? { step := act.step; }
    else if act.HumanNote? { }
    else if PollerAct(act) { step := PollerTransaction(s, act, now, t); }
    else { step := PublisherTransaction(s, act, now, t); }
  }

  lemma SysKeepsTidy(s: Sys, act: Act, now: Time, t: Sys)
    requires Tidy(s) && TerminalRows(s.db.jobs, s.db.outbox) && SysNext(s, act, now, t)
    requires JobsAdvance(s.db.jobs, t.db.jobs) && OutboxAdvances(s.db.outbox, t.db.outbox)
    ensures Tidy(t)
  {
    if act.Env? {
      MoveKeepsTidy(s, t.db);
    } else if act.HumanNote? {
      HumanNoteKeepsTidy(s, act.project, act.target);
    } else if PollerAct(act) {
      MoveKeepsTidy(s, t.db);
      PollerLeavesBoard(s, act, now, t);
    } else {
      PublisherKeepsTidy(s, act, now, t);
    }
  }

  lemma PollerLeavesBoard(s: Sys, act: Act, now: Time, t: Sys)
    requires PollerNext(s, act, now, t)
    ensures t.publisher == s.publisher && t.notes == s.notes && t.labels == s.labels && t.recorded == s.recorded
  {
  }

  lemma StepKeepsGood(s: Sys, act: Act, now: Time, t: Sys)
    requires Good(s) && SysNext(s, act, now, t)
    ensures Good(t)
  {
    StepKeepsTables(s, act, now, t);
    SysKeepsCurrent(s, act, now, t);
    SysKeepsTidy(s, act, now, t);
  }

  // ---- runs

  ghost predicate ActAt(states: seq<Sys>, acts: seq<Act>, times: seq<Time>, i: nat)
    requires |states| == |acts| + 1 && |times| == |acts| && i < |acts|
  {
    SysNext(states[i], acts[i], times[i], states[i + 1])
  }

  ghost predicate IsSysRun(states: seq<Sys>, acts: seq<Act>, times: seq<Time>) {
    && |states| == |acts| + 1 && |times| == |acts|
    && (exists workspaces :: states[0] == Boot(workspaces))
    && (forall i :: 0 <= i < |acts| ==> ActAt(states, acts, times, i))
  }

  lemma BootIsGood(workspaces: map<WorkspaceId, Workspace>)
    ensures Good(Boot(workspaces)) && Paid(Boot(workspaces))
  {
    InitialValid(workspaces);
    InitialEffects(workspaces);
  }

  lemma {:induction false} ReachableIsGood(states: seq<Sys>, acts: seq<Act>, times: seq<Time>, n: nat)
    requires IsSysRun(states, acts, times) && n <= |acts|
    ensures Good(states[n])
  {
    if n == 0 {
      var workspaces :| states[0] == Boot(workspaces);
      BootIsGood(workspaces);
    } else {
      ReachableIsGood(states, acts, times, n - 1);
      assert ActAt(states, acts, times, n - 1);
      StepKeepsGood(states[n - 1], acts[n - 1], times[n - 1], states[n]);
    }
  }

  /** At every instant a conversation has at most one unfinished job, and it is the
      current one. */
  lemma AtMostOneActiveJob(states: seq<Sys>, acts: seq<Act>, times: seq<Time>, n: nat, j: JobId, k: JobId)
    requires IsSysRun(states, acts, times) && n <= |acts|
    requires j in states[n].db.jobs && k in states[n].db.jobs && states[n].db.jobs[j].conv == states[n].db.jobs[k].conv
    requires Active(states[n].db.jobs[j].state) && Active(states[n].db.jobs[k].state)
    ensures j == k
    ensures states[n].db.jobs[j].conv in states[n].db.convs
    ensures states[n].db.convs[states[n].db.jobs[j].conv].current == Some(j)
  {
    ReachableIsGood(states, acts, times, n);
  }

  /** However often an item is claimed, failed, retried or abandoned, at most one note
      on the board carries its marker. */
  lemma AtMostOneNotePerItem(states: seq<Sys>, acts: seq<Act>, times: seq<Time>, n: nat, a: nat, b: nat)
    requires IsSysRun(states, acts, times) && n <= |acts| && a < |states[n].notes| && b < |states[n].notes|
    requires states[n].notes[a].marker.Some? && states[n].notes[a].marker == states[n].notes[b].marker
    ensures a == b
  {
    ReachableIsGood(states, acts, times, n);
  }

  /** No progress label of a job is written after its final label. */
  lemma ProgressNeverFollowsFinal(
      states: seq<Sys>, acts: seq<Act>, times: seq<Time>, n: nat, a: nat, b: nat)
    requires IsSysRun(states, acts, times) && n <= |acts| && a < |states[n].labels| && b < |states[n].labels|
    requires states[n].labels[a].Final? && states[n].labels[b] == Progress(states[n].labels[a].job)
    ensures b < a
  {
    ReachableIsGood(states, acts, times, n);
  }

  // ---- successors come after the predecessor's outcome

  ghost predicate HarmlessUpTo(states: seq<Sys>, acts: seq<Act>, times: seq<Time>, n: nat)
    requires |states| == |acts| + 1 && |times| == |acts| && n <= |acts|
  {
    forall i :: 0 <= i < n && acts[i].Env? ==> !Harmful(states[i].db, states[i].recorded, acts[i].step, times[i])
  }

  lemma TidyRecordsTerminal(s: Sys)
    requires Tidy(s)
    ensures RecordsTerminal(s)
  {
    if s.publisher.Publishing? && s.publisher.stage.Labelled? {
      assert StageOk(s.db, s.notes, s.labels, s.publisher.items[0], s.publisher.stage);
    }
  }

  lemma {:induction false} ReachableIsPaid(states: seq<Sys>, acts: seq<Act>, times: seq<Time>, n: nat)
    requires IsSysRun(states, acts, times) && n <= |acts| && HarmlessUpTo(states, acts, times, n)
    ensures Paid(states[n])
  {
    if n == 0 {
      var workspaces :| states[0] == Boot(workspaces);
      BootIsGood(workspaces);
    } else {
      ReachableIsPaid(states, acts, times, n - 1);
      ReachableIsGood(states, acts, times, n - 1);
      TidyRecordsTerminal(states[n - 1]);
      assert ActAt(states, acts, times, n - 1);
      SysKeepsPaid(states[n - 1], acts[n - 1], times[n - 1], states[n]);
    }
  }

  /** In a run without an overwriting cleanup, when a job is created the previous job of
      its conversation has finished, its outcome is recorded, and its note is posted. */
  lemma SuccessorFollowsDeliveredOutcome(
      states: seq<Sys>, acts: seq<Act>, times: seq<Time>, n: nat, c: ConvKey, prev: JobId)
    requires IsSysRun(states, acts, times) && n < |acts| && HarmlessUpTo(states, acts, times, n)
    requires c in states[n].db.convs && states[n].db.convs[c].current == Some(prev)
    requires c in states[n + 1].db.convs && states[n + 1].db.convs[c].current != Some(prev)
    ensures prev in states[n].db.jobs && Terminal(states[n].db.jobs[prev].state)
    ensures prev in states[n].recorded && OutcomePosted(states[n].db, states[n].notes, prev)
  {
    ReachableIsPaid(states, acts, times, n);
    ReachableIsGood(states, acts, times, n);
    assert ActAt(states, acts, times, n);
    OnlyCreationChangesCurrent(states[n], acts[n], times[n], states[n + 1], c);
  }

  lemma OnlyCreationChangesCurrent(s: Sys, act: Act, now: Time, t: Sys, c: ConvKey)
    requires SysNext(s, act, now, t) && c in s.db.convs && c in t.db.convs
    requires t.db.convs[c].current != s.db.convs[c].current
    ensures act.CreateJob? && s.poller.Placed? && s.poller.c.conv == c
  {
    if act.Env? {
      EnvQuiet(s.db, act.step, now, t.db);
    } else if PollerAct(act) {
    } else if !act.HumanNote? {
      PublisherQuiet(s, act, now, t);
    }
  }
}
