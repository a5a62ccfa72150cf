/**
  HostedOutbox: claim a batch, deliver each item by calls to the forge that may fail
  before or after taking effect, and mark it.  Whatever fails, what the methods do is a
  run of the publisher's steps in Hosted, to which its theorems therefore apply.
*/
module Publishers {
  import opened Basics
  import opened Tables
  import opened Delivery
  import opened Cleanup
  import opened Hosted
  import opened Store

  const PAGE_CAP := 20
  const PAGE_SIZE := 100

  // ---- runs of the publisher

  ghost predicate StepsAt(states: seq<Sys>, acts: seq<Act>, times: seq<Time>, i: nat)
    requires |states| == |acts| + 1 && |times| == |acts| && i < |acts|
  {
    PublisherNext(states[i], acts[i], times[i], states[i + 1])
  }

  ghost predicate Run(states: seq<Sys>, acts: seq<Act>, times: seq<Time>) {
    && |states| == |acts| + 1 && |times| == |acts|
    && forall i :: 0 <= i < |acts| ==> StepsAt(states, acts, times, i)
  }

  ghost predicate Connects(s: Sys, t: Sys, states: seq<Sys>, acts: seq<Act>, times: seq<Time>) {
    Run(states, acts, times) && states[0] == s && states[|acts|] == t
  }

  /** The publisher, alone, can take the system from `s` to `t`. */
  ghost predicate Reaches(s: Sys, t: Sys) {
    exists states, acts, times :: Connects(s, t, states, acts, times)
  }

  lemma ReachesSelf(s: Sys)
    ensures Reaches(s, s)
  {
    assert Connects(s, s, [s], [], []);
  }

  lemma ReachesByStep(s: Sys, t: Sys, act: Act, now: Time, u: Sys)
    requires Reaches(s, t) && PublisherNext(t, act, now, u)
    ensures Reaches(s, u)
  {
    var states, acts, times :| Connects(s, t, states, acts, times);
    var states2, acts2, times2 := states + [u], acts + [act], times + [now];
    forall i | 0 <= i < |acts2| ensures StepsAt(states2, acts2, times2, i) {
      if i < |acts| { assert StepsAt(states, acts, times, i); }
    }
    assert Connects(s, u, states2, acts2, times2);
  }

  // ---- the notes of one issue or merge request, newest first

  function Thread(notes: seq<Note>, project: ProjectKey, target: Target): seq<Note>
    decreases |notes|
  {
    if notes == [] then []
    else if notes[|notes| - 1].project == project && notes[|notes| - 1].target == target
    then [notes[|notes| - 1]] + Thread(notes[..|notes| - 1], project, target)
    else Thread(notes[..|notes| - 1], project, target)
  }

  lemma {:induction false} ThreadHasMarker(notes: seq<Note>, project: ProjectKey, target: Target, id: nat)
    ensures MarkerAt(notes, project, target, id) <==> Note(project, target, Some(id)) in Thread(notes, project, target)
    ensures forall n :: n in Thread(notes, project, target) ==> n.project == project && n.target == target
    decreases |notes|
  {
    if notes != [] {
      var init, last := notes[..|notes| - 1], notes[|notes| - 1];
      ThreadHasMarker(init, project, target, id);
      if MarkerAt(init, project, target, id) {
        var k :| 0 <= k < |init| && init[k] == Note(project, target, Some(id));
        assert notes[k] == init[k];
      }
      if last == Note(project, target, Some(id)) { assert notes[|notes| - 1] == last; }
      if MarkerAt(notes, project, target, id) {
        var k :| 0 <= k < |notes| && notes[k] == Note(project, target, Some(id));
        if k < |init| { assert init[k] == notes[k]; }
      }
    }
  }

  function Elements<T(==)>(s: seq<T>): set<T> {
    set x | x in s
  }

  function Shorter(a: int, b: int): int { if a < b then a else b }

  function PageOf(thread: seq<Note>, page: nat): seq<Note>
    requires page > 0
  {
    var from := Shorter(PAGE_SIZE * (page - 1), |thread|);
    thread[from..Shorter(from + PAGE_SIZE, |thread|)]
  }

  const NOTHING_READ := Reading(None, false, {}, false)

  // ---- what is delivered for a finished job

  /** The conversation has an unfinished job, or one that is newer than the rejection. */
  predicate MovedOn(d: Db, r: Rejection) {
    exists j ::
      && j in d.jobs && r.conv in d.convs && d.convs[r.conv].current == Some(j)
      && (d.jobs[j].state == Queued || d.jobs[j].state == Leased || d.jobs[j].state == Running
          || r.rejectedAt < d.jobs[j].createdAt)
  }

  /** There is something to show for the job: it succeeded and its last run left a result. */
  ghost predicate HasReply(d: Db, job: JobId, run: Option<RunId>)
    requires job in d.jobs
  {
    d.jobs[job].state == Succeeded && LastRun(d, job, run) && run.Some? && d.runs[run.value].result.Some?
  }

  /** An implementation run must name merge requests unless it parks, and those named must be valid. */
  predicate FailsValidation(d: Db, job: JobId, parked: bool, mentioned: set<int>, invalid: bool)
    requires job in d.jobs
  {
    d.jobs[job].envelope.trigger == Ready && if mentioned == {} then !parked else invalid
  }

  /** These merge requests are on record as open, and what else was on record still is. */
  ghost predicate Opens(
      before: map<MrKey, Mr>, project: ProjectKey, iids: set<int>, job: JobId, run: RunId, after: map<MrKey, Mr>)
  {
    && (forall k :: k in after <==> k in before || (k.iid in iids && k == MrKey(project, k.iid, job, run)))
    && (forall k :: k in after ==>
          if k.iid in iids && k == MrKey(project, k.iid, job, run) then after[k].state == Opened
          else after[k] == before[k])
  }

  /** The status recorded for the job, and the label set on its issue, when it was delivered:
      failed exactly if there is no reply or it fails validation, else parked exactly if the
      reply parks; the merge requests recorded are those an implementation run named. */
  ghost predicate OutcomeDelivered(
      d: Db, before: seq<Label>, job: JobId, parked: bool, mentioned: set<int>, invalid: bool, e: Db,
      after: seq<Label>)
    requires IsCurrent(d, job)
  {
    exists run, status :: DeliveredAs(d, before, job, parked, mentioned, invalid, run, status, e, after)
  }

  ghost predicate DeliveredAs(
      d: Db, before: seq<Label>, job: JobId, parked: bool, mentioned: set<int>, invalid: bool,
      run: Option<RunId>, status: ConvStatus, e: Db, after: seq<Label>)
    requires IsCurrent(d, job)
  {
    var c := d.jobs[job].conv;
    && LastRun(d, job, run)
    && (status == ConcludedFailed <==> !HasReply(d, job, run) || FailsValidation(d, job, parked, mentioned, invalid))
    && (status == Parked <==> status != ConcludedFailed && parked)
    && (status == Concluded <==> status != ConcludedFailed && !parked)
    && e == d.(convs := d.convs[c := d.convs[c].(status := status)], mrs := e.mrs)
    && after == before + [Final(job, status)]
    && (if status == ConcludedFailed || d.jobs[job].envelope.trigger != Ready then e.mrs == d.mrs
        else run.Some? && Opens(d.mrs, c.project, mentioned, job, run.value, e.mrs))
  }

  /** A failed delivery is tried again after a second, then two, then four, up to 256. */
  lemma DelayDoubles(attempt: nat)
    ensures Delay(0) == 1.0
    ensures Delay(attempt + 1) == if attempt < 8 then 2.0 * Delay(attempt) else 256.0
  {
    if attempt == 7 { assert Power(7) == 128 by { assert Power(3) == 8; assert Power(5) == 32; } }
  }

  function Delay(attempt: nat): real {
    if attempt >= 8 then 256.0 else Power(attempt) as real
  }

  function Power(n: nat): nat {
    if n == 0 then 1 else 2 * Power(n - 1)
  }

  class HostedOutbox {
    const store: ControllerStore
    var notes: seq<Note>
    var labels: seq<Label>
    ghost var recorded: set<JobId>

    constructor (store: ControllerStore)
      ensures this.store == store && notes == [] && labels == [] && recorded == {}
    {
      this.store := store;
      notes, labels, recorded := [], [], {};
    }

    ghost function State(poller: Poller, publisher: Publisher): Sys
      reads this, store
    {
      Sys(store.Contents(), poller, publisher, notes, labels, recorded)
    }

    /** Looks for the marker page by page, newest notes first; the request for page `outage`
        fails.  Otherwise the answer is known unless there are two thousand notes or more. */
    method FindMarker(project: ProjectKey, target: Target, id: nat, outage: Option<nat>) returns (found: Option<bool>)
      ensures found == None ==> outage.Some? || |Thread(notes, project, target)| >= 2000
      ensures found == Some(true) ==> MarkerAt(notes, project, target, id)
      ensures found == Some(false) ==> !MarkerAt(notes, project, target, id)
    {
      var thread := Thread(notes, project, target);
      ThreadHasMarker(notes, project, target, id);
      var page := 1;
      while page <= PAGE_CAP
        invariant 1 <= page <= PAGE_CAP + 1
        invariant PAGE_SIZE * (page - 1) <= |thread|
        invariant forall k :: 0 <= k < PAGE_SIZE * (page - 1) ==> thread[k].marker != Some(id)
      {
        if outage == Some(page) { return None; }
        var shown := PageOf(thread, page);
        for k := 0 to |shown|
          invariant forall m :: 0 <= m < k ==> shown[m].marker != Some(id)
        {
          if shown[k].marker == Some(id) {
            assert shown[k] == thread[PAGE_SIZE * (page - 1) + k];
            assert shown[k] in thread;
            assert shown[k] == Note(project, target, Some(id));
            return Some(true);
          }
        }
        assert forall m :: PAGE_SIZE * (page - 1) <= m < PAGE_SIZE * (page - 1) + |shown| ==>
                 thread[m] == shown[m - PAGE_SIZE * (page - 1)];
        if |shown| < PAGE_SIZE {
          return Some(false);
        }
        page := page + 1;
      }
      found := None;  // more pages than the cap
    }

    /** Posts the note unless its marker is already there. */
    method EnsureNote(p: Purpose, item: Item, ghost start: Sys, ghost poller: Poller, ghost items: seq<Item>)
      returns (ok: bool)
      requires |items| > 0 && items[0] == item
      requires Reaches(start, State(poller, Publishing(items, Looking(p))))
      modifies this`notes
      ensures Reaches(start, State(poller, Publishing(items, if ok then Noted(p) else Broken)))
      ensures ok ==> MarkerAt(notes, ProjectOf(store.Contents(), p), TargetOf(store.Contents(), p), item.id)
    {
      var project, target := ProjectOf(store.Contents(), p), TargetOf(store.Contents(), p);
      ghost var looking := State(poller, Publishing(items, Looking(p)));
      var outage: Option<nat> := *;
      var found := FindMarker(project, target, item.id, outage);
      if found == None {
        ReachesByStep(start, looking, CallFails, 0.0, State(poller, Publishing(items, Broken)));
        return false;
      }
      if found.value {
        ReachesByStep(start, looking, LookUp, 0.0, State(poller, Publishing(items, Noted(p))));
        return true;
      }
      ghost var absent := State(poller, Publishing(items, Absent(p)));
      ReachesByStep(start, looking, LookUp, 0.0, absent);
      if * {
        ReachesByStep(start, absent, CallFails, 0.0, State(poller, Publishing(items, Broken)));
        return false;
      }
      notes := notes + [Note(project, target, Some(item.id))];
      if * {
        ReachesByStep(start, absent, PostReplyLost, 0.0, State(poller, Publishing(items, Broken)));
        return false;
      }
      ReachesByStep(start, absent, Post, 0.0, State(poller, Publishing(items, Noted(p))));
      assert notes[|notes| - 1] == Note(project, target, Some(item.id));
      ok := true;
    }

    /** The label of the outcome, or of the refusal. */
    method SetFinalLabel(p: Purpose, item: Item, ghost start: Sys, ghost poller: Poller, ghost items: seq<Item>)
      returns (ok: bool)
      requires |items| > 0 && items[0] == item
      requires Reaches(start, State(poller, Publishing(items, Noted(p))))
      modifies this`labels
      ensures Reaches(start, State(poller, Publishing(items, if ok then AfterLabel(p) else Broken)))
      ensures ok ==> labels == old(labels) + LabelsFor(p)
    {
      ghost var noted := State(poller, Publishing(items, Noted(p)));
      if * {
        ReachesByStep(start, noted, CallFails, 0.0, State(poller, Publishing(items, Broken)));
        return false;
      }
      labels := labels + LabelsFor(p);
      if * {
        ReachesByStep(start, noted, LabelReplyLost, 0.0, State(poller, Publishing(items, Broken)));
        return false;
      }
      ReachesByStep(start, noted, SetLabel, 0.0, State(poller, Publishing(items, AfterLabel(p))));
      ok := true;
    }

    method RecordTerminal(job: JobId, status: ConvStatus, iids: seq<int>, run: RunId) returns (reply: Reply<bool>)
      modifies store`convs, store`mrs
      ensures Carried(old(store.Contents()), TerminalRecorded(old(store.Contents()), job, status, Elements(iids), run),
                      store.Contents(), reply)
    {
      if job !in store.jobs || store.jobs[job].conv !in store.convs {
        return Raised(MissingRow);
      }
      var c := store.jobs[job].conv;
      if store.convs[c].current != Some(job) {
        return Raised(NotCurrent);
      }
      store.convs := store.convs[c := store.convs[c].(status := status)];
      OpenAll(c.project, iids, job, run);
      reply := Ok(true);
    }

    method OpenAll(project: ProjectKey, iids: seq<int>, job: JobId, run: RunId)
      modifies store`mrs
      ensures store.mrs == OpenedMrs(old(store.mrs), project, Elements(iids), job, run)
    {
      ghost var before := store.mrs;
      assert OpenedMrs(before, project, {}, job, run) == before;
      for n := 0 to |iids|
        invariant store.mrs == OpenedMrs(before, project, Elements(iids[..n]), job, run)
      {
        OpenOne(before, project, iids, n, job, run);
        var key := MrKey(project, iids[n], job, run);
        store.mrs := store.mrs[key := Mr(Opened, if key in store.mrs then store.mrs[key].mergedAt else None)];
      }
      assert iids[..|iids|] == iids;
    }

    /** The run of the job that started last. */
    method LatestRun(job: JobId) returns (latest: Option<RunId>)
      ensures LastRun(store.Contents(), job, latest)
    {
      latest := None;
      var rest := store.runs.Keys;
      while rest != {}
        invariant rest <= store.runs.Keys
        invariant latest.Some? ==> latest.value in store.runs && store.runs[latest.value].job == job
        invariant forall r :: r in store.runs && r !in rest && store.runs[r].job == job ==>
                    latest.Some? && store.runs[r].startedAt <= store.runs[latest.value].startedAt
        decreases rest
      {
        var r :| r in rest;
        rest := rest - {r};
        if store.runs[r].job == job
           && (latest == None || store.runs[r].startedAt > store.runs[latest.value].startedAt)
        {
          latest := Some(r);
        }
      }
    }

    /** What the reply, its merge requests and their validation come to. */
    method Judge(job: JobId, parked: bool, mentioned: seq<int>, invalid: bool)
      returns (run: Option<RunId>, status: ConvStatus, iids: seq<int>)
      requires job in store.jobs
      ensures LastRun(store.Contents(), job, run)
      ensures Report(status, run, Elements(iids))
              == ReportOf(store.Contents(), job, Reading(run, parked, Elements(mentioned), invalid))
    {
      run := LatestRun(job);
      var succeeded, implements := store.jobs[job].state == Succeeded, store.jobs[job].envelope.trigger == Ready;
      var replied := succeeded && run.Some? && store.runs[run.value].result.Some?;
      iids := if replied && implements then mentioned else [];
      EmptyElements(iids);
      if !replied || (succeeded && !parked && implements && iids == []) || (iids != [] && invalid) {
        status, iids := ConcludedFailed, [];
      } else {
        status := if parked then Parked else Concluded;
      }
    }

    /** The calls with which the outcome of a current job is published: note, label, record. */
    method Publish(
        item: Item, job: JobId, run: Option<RunId>, status: ConvStatus, iids: seq<int>,
        ghost start: Sys, ghost poller: Poller, ghost items: seq<Item>)
      returns (ok: bool)
      requires |items| > 0 && items[0] == item && IsCurrent(store.Contents(), job)
      requires var p := Outcome(job, Report(status, run, Elements(iids)));
               Reaches(start, State(poller, Publishing(items, Looking(p))))
      modifies this, store`convs, store`mrs
      ensures Reaches(start, State(poller, Publishing(items, if ok then Handled else Broken)))
      ensures ok ==>
                && labels == old(labels) + [Final(job, status)]
                && MarkerAt(notes, store.jobs[job].conv.project, store.jobs[job].envelope.target, item.id)
                && var report := Report(status, run, Elements(iids));
                store.Contents() == TerminalRecorded(
                  old(store.Contents()), job, status, Elements(iids), RunIn(report)).Commit(old(store.Contents()))
    {
      var p := Outcome(job, Report(status, run, Elements(iids)));
      if * {
        ReachesByStep(start, State(poller, Publishing(items, Looking(p))), CallFails, 0.0,
            State(poller, Publishing(items, Broken)));
        return false;  // reading a merge request failed
      }
      ok := EnsureNote(p, item, start, poller, items);
      if !ok { return; }
      ok := SetFinalLabel(p, item, start, poller, items);
      if !ok { return; }
      ghost var labelled := State(poller, Publishing(items, Labelled(job, p.report)));
      var reply := RecordTerminal(job, status, iids, RunIn(p.report));
      ok := reply.Ok?;
      if ok { recorded := recorded + {job}; }
      ReachesByStep(start, labelled, RecordOutcome, 0.0,
                    State(poller, Publishing(items, if ok then Handled else Broken)));
    }

    /** `parked` is what the status line of the reply says, `mentioned` the merge requests in its
        text, and `invalid` what the forge says of them; they count only if there is a reply. */
    method DeliverJob(
        item: Item, job: JobId, parked: bool, mentioned: seq<int>, invalid: bool,
        ghost start: Sys, ghost poller: Poller, ghost items: seq<Item>)
      returns (ok: bool)
      requires |items| > 0 && items[0] == item && (item.key.JobCompleted? || item.key.RunnerLost?)
                 && item.key.job == job
      requires Reaches(start, State(poller, Publishing(items, Fresh)))
      modifies this, store`convs, store`mrs
      ensures Reaches(start, State(poller, Publishing(items, if ok then Handled else Broken)))
      ensures ok && IsCurrent(old(store.Contents()), job) ==>
                OutcomeDelivered(old(store.Contents()), old(labels), job, parked, Elements(mentioned), invalid,
                                 store.Contents(), labels)
                && MarkerAt(notes, store.jobs[job].conv.project, store.jobs[job].envelope.target, item.id)
      ensures ok && !IsCurrent(old(store.Contents()), job) ==>
                store.Contents() == old(store.Contents()) && notes == old(notes) && labels == old(labels)
    {
      ghost var here, d := State(poller, Publishing(items, Fresh)), store.Contents();
      if job !in store.jobs || store.jobs[job].conv !in store.convs {
        ghost var none := LatestRun(job);
        ReachesByStep(start, here, ReadRow(NOTHING_READ.(run := none)), 0.0, State(poller, Publishing(items, Broken)));
        return false;
      }
      var run, status, iids := Judge(job, parked, mentioned, invalid);
      ghost var x := Reading(run, parked, Elements(mentioned), invalid);
      ReachesByStep(start, here, ReadRow(x), 0.0, State(poller, Publishing(items, RowRead(d, item, x))));
      if store.convs[store.jobs[job].conv].current != Some(job) {
        return true;
      }
      ok := Publish(item, job, run, status, iids, start, poller, items);
      if ok {
        ReportIsDelivered(d, old(labels), job, x);
      }
    }

    method DeliverStarted(item: Item, job: JobId, ghost start: Sys, ghost poller: Poller, ghost items: seq<Item>)
      returns (ok: bool)
      requires |items| > 0 && items[0] == item && item.key == JobStarted(job)
      requires Reaches(start, State(poller, Publishing(items, Fresh)))
      modifies this`labels
      ensures Reaches(start, State(poller, Publishing(items, if ok then Handled else Broken)))
      ensures ok ==>
                labels == if IsCurrent(store.Contents(), job)
                             && (store.jobs[job].state == Leased || store.jobs[job].state == Running)
                          then old(labels) + [Progress(job)] else old(labels)
    {
      ghost var here := State(poller, Publishing(items, Fresh));
      ReachesByStep(start, here, ReadRow(NOTHING_READ), 0.0,
                    State(poller, Publishing(items, RowRead(store.Contents(), item, NOTHING_READ))));
      if job !in store.jobs || store.jobs[job].conv !in store.convs {
        return false;
      }
      if store.convs[store.jobs[job].conv].current != Some(job) || !Busy(store.jobs[job].state) {
        return true;
      }
      ghost var progressing := State(poller, Publishing(items, Progressing(job)));
      if * {
        ReachesByStep(start, progressing, CallFails, 0.0, State(poller, Publishing(items, Broken)));
        return false;
      }
      labels := labels + [Progress(job)];
      if * {
        ReachesByStep(start, progressing, LabelReplyLost, 0.0, State(poller, Publishing(items, Broken)));
        return false;
      }
      ReachesByStep(start, progressing, SetLabel, 0.0, State(poller, Publishing(items, Handled)));
      ok := true;
    }

    method DeliverRejection(item: Item, ghost start: Sys, ghost poller: Poller, ghost items: seq<Item>)
      returns (ok: bool)
      requires |items| > 0 && items[0] == item && item.key.DispatchRejected?
      requires Reaches(start, State(poller, Publishing(items, Fresh)))
      modifies this`notes, this`labels
      ensures Reaches(start, State(poller, Publishing(items, if ok then Handled else Broken)))
      ensures ok ==>
                && item.id < |store.outbox| && store.outbox[item.id].rejection.Some?
                && var r := store.outbox[item.id].rejection.value;
                if MovedOn(store.Contents(), r) then notes == old(notes) && labels == old(labels)
                else
                  && MarkerAt(notes, r.conv.project, IssueTarget(r.conv.issue), item.id)
                  && labels == if r.setFailedLabel then old(labels) + [Declined(r.conv)] else old(labels)
    {
      ghost var here := State(poller, Publishing(items, Fresh));
      ReachesByStep(start, here, ReadRow(NOTHING_READ), 0.0,
                    State(poller, Publishing(items, RowRead(store.Contents(), item, NOTHING_READ))));
      if item.id >= |store.outbox| || store.outbox[item.id].rejection == None {
        return false;
      }
      var r := store.outbox[item.id].rejection.value;
      if r.conv in store.convs && store.convs[r.conv].current.Some? && store.convs[r.conv].current.value in store.jobs {
        var job := store.jobs[store.convs[r.conv].current.value];
        if Active(job.state) || job.createdAt > r.rejectedAt {
          return true;
        }
      }
      var p := Refusal(r.conv, r.setFailedLabel);
      ok := EnsureNote(p, item, start, poller, items);
      if ok && r.setFailedLabel {
        ok := SetFinalLabel(p, item, start, poller, items);
      } else if ok {
        assert labels + LabelsFor(p) == labels;
        ReachesByStep(start, State(poller, Publishing(items, Noted(p))), SetLabel, 0.0,
            State(poller, Publishing(items, Handled)));
      }
    }

    method Deliver(
        item: Item, parked: bool, mentioned: seq<int>, invalid: bool,
        ghost start: Sys, ghost poller: Poller, ghost items: seq<Item>)
      returns (ok: bool)
      requires |items| > 0 && items[0] == item
      requires Reaches(start, State(poller, Publishing(items, Fresh)))
      modifies this, store
      ensures Reaches(start, State(poller, Publishing(items, if ok then Handled else Broken)))
    {
      match item.key
      case JobStarted(job) => ok := DeliverStarted(item, job, start, poller, items);
      case JobCompleted(job, _) => ok := DeliverJob(item, job, parked, mentioned, invalid, start, poller, items);
      case RunnerLost(job) => ok := DeliverJob(item, job, parked, mentioned, invalid, start, poller, items);
      case DispatchRejected(_) => ok := DeliverRejection(item, start, poller, items);
    }

    /** One claimed item: delivered, then marked.  A mark that is refused ends the pass. */
    method Process(item: Item, ghost start: Sys, ghost poller: Poller, ghost items: seq<Item>)
      returns (refused: bool, ok: bool, clock: Time)
      requires |items| > 0 && items[0] == item
      requires Reaches(start, State(poller, Publishing(items, Fresh)))
      modifies this, store
      ensures Reaches(start, State(poller, if refused || |items| == 1 then Resting else Publishing(items[1..], Fresh)))
      ensures !refused ==>
                && item.id < |store.outbox|
                && var row := store.outbox[item.id];
                if ok then row.state == OutboxState.Delivered && row.deliveredAt == Some(clock)
                else row.state == OutPending && row.availableAt == clock + Delay(item.attempt)
    {
      var parked: bool, mentioned: seq<int>, invalid: bool := *, *, *;
      ok := Deliver(item, parked, mentioned, invalid, start, poller, items);
      clock := *;
      ghost var here := State(poller, Publishing(items, if ok then Handled else Broken));
      if ok {
        var reply := store.MarkOutboxDelivered(item.id, item.generation, clock);
        refused := reply.Raised?;
        ReachesByStep(start, here, MarkDone, clock,
                      State(poller, if refused || |items| == 1 then Resting else Publishing(items[1..], Fresh)));
      } else {
        var retryAt := clock + Delay(item.attempt);
        var reply := store.MarkOutboxFailed(item.id, item.generation, retryAt);
        refused := reply.Raised?;
        ReachesByStep(start, here, MarkBroken(retryAt), clock,
                      State(poller, if refused || |items| == 1 then Resting else Publishing(items[1..], Fresh)));
      }
    }

    /** One pass over the outbox. */
    method RunOnce(now: Time, ghost poller: Poller)
      modifies this, store
      ensures Reaches(old(State(poller, Resting)), State(poller, Resting))
    {
      ghost var start := State(poller, Resting);
      ReachesSelf(start);
      var items := store.ClaimOutbox(20, 60.0, now);
      ReachesByStep(start, start, TakeBatch(20, 60.0), now,
                    State(poller, if items == [] then Resting else Publishing(items, Fresh)));
      for n := 0 to |items|
        invariant Reaches(start, State(poller, if n == |items| then Resting else Publishing(items[n..], Fresh)))
      {
        assert n + 1 < |items| ==> items[n..][1..] == items[n + 1..];
        var refused, ok, clock := Process(items[n], start, poller, items[n..]);
        if refused {
          return;
        }
      }
    }
  }

  lemma EmptyElements(iids: seq<int>)
    ensures Elements(iids) == {} <==> iids == []
  {
    if iids != [] { assert iids[0] in Elements(iids); }
  }

  /** What recording the report comes to, said of the database. */
  lemma ReportIsDelivered(d: Db, before: seq<Label>, job: JobId, x: Reading)
    requires IsCurrent(d, job) && LastRun(d, job, x.run)
    ensures var report := ReportOf(d, job, x);
            var e := TerminalRecorded(d, job, report.status, report.iids, RunIn(report)).Commit(d);
            OutcomeDelivered(d, before, job, x.parked, x.iids, x.invalid, e, before + [Final(job, report.status)])
  {
    var report := ReportOf(d, job, x);
    var e := TerminalRecorded(d, job, report.status, report.iids, RunIn(report)).db;
    RecordedMrs(d, job, report, e);
    if HasReply(d, job, x.run) {
      assert Unsatisfactory(d, job, x) <==> FailsValidation(d, job, x.parked, x.iids, x.invalid);
    }
    assert DeliveredAs(d, before, job, x.parked, x.iids, x.invalid, x.run, report.status, e,
                       before + [Final(job, report.status)]);
  }

  lemma RecordedMrs(d: Db, job: JobId, report: Report, e: Db)
    requires IsCurrent(d, job)
    requires e == TerminalRecorded(d, job, report.status, report.iids, RunIn(report)).db
    ensures Opens(d.mrs, d.jobs[job].conv.project, report.iids, job, RunIn(report), e.mrs)
    ensures report.iids == {} ==> e.mrs == d.mrs
  {
  }

  lemma OpenOne(mrs: map<MrKey, Mr>, project: ProjectKey, iids: seq<int>, n: nat, job: JobId, run: RunId)
    requires n < |iids|
    ensures var key := MrKey(project, iids[n], job, run);
            var before := OpenedMrs(mrs, project, Elements(iids[..n]), job, run);
            OpenedMrs(mrs, project, Elements(iids[..n + 1]), job, run)
            == before[key := Mr(Opened, if key in before then before[key].mergedAt else None)]
  {
    assert iids[..n + 1] == iids[..n] + [iids[n]];
    assert Elements(iids[..n + 1]) == Elements(iids[..n]) + {iids[n]};
  }
}
