/**
  One pass of the poller over the comments of a project: each is passed over, skipped
  with a receipt, or dispatched; a transient failure halts the pass so that the rest is
  polled again; an exception abandons it and leaves the cursor where it was.
*/
module CommentPollers {
  import opened Basics
  import opened Tables
  import opened Intake
  import opened Hosted
  import opened Comments
  import opened Dispatcher

  /** A comment, and whether it is a plain reply, without a command. */
  datatype Comment = Comment(id: int, plain: bool)

  /** What looking a comment up on the forge leads to. */
  datatype Finding =
    | Nothing                             // nothing it could be dispatched for
    | Dispatchable(c: Candidate, job: JobId)
    | Failing(age: Time)                  // a transient failure; the age of the comment

  ghost predicate Grows(d: Db, e: Db) {
    && (forall x :: x in d.receipts ==> x in e.receipts)
    && (forall j :: j in d.jobs ==> j in e.jobs && e.jobs[j].event == d.jobs[j].event)
  }

  lemma GrowthKeepsConsumed(d: Db, e: Db, event: EventKey)
    requires Grows(d, e) && Consumed(d, event)
    ensures Consumed(e, event)
  {
    if j :| j in JobsFor(d.jobs, event) { assert j in JobsFor(e.jobs, event); }
  }

  lemma AdmittingGrows(d: Db, c: Candidate, job: JobId, now: Time)
    ensures Grows(d, Admitting(d, c, job, now).0)
    ensures !Admitting(d, c, job, now).1.Broke? ==> Consumed(Admitting(d, c, job, now).0, c.event)
  {
    if Upserted(d, c.conv, c.ws).Done? {
      CreationGrows(Upserted(d, c.conv, c.ws).db, c, job, now);
    }
  }

  lemma CreationGrows(d: Db, c: Candidate, job: JobId, now: Time)
    ensures Grows(d, Created(d, c, job, now).0)
    ensures !Created(d, c, job, now).1.Broke? ==> Consumed(Created(d, c, job, now).0, c.event)
  {
    var o := DispatchRecorded(d, EnvelopeOf(c, job), now);
    if o.Done? && o.value { assert job in JobsFor(o.db.jobs, c.event); }
  }

  lemma DecisionGrows(d: Db, c: Candidate, decision: Poller, job: JobId, now: Time)
    ensures var (e, verdict) := AfterDecision(d, c, decision, job, now);
            Grows(d, e) && (!verdict.Broke? ==> Consumed(e, c.event))
  {
    if !decision.Rejecting? && !decision.Queueing? { AdmittingGrows(d, c, job, now); }
  }

  /** Unless it raises, a dispatch consumes its event, and it forgets no other. */
  lemma DispatchGrows(d: Db, c: Candidate, job: JobId, now: Time)
    ensures var (e, verdict) := Dispatcher.Dispatched(d, c, job, now);
            Grows(d, e) && (!verdict.Broke? ==> Consumed(e, c.event))
  {
    if Considered(d, c).Considering? { DecisionGrows(d, c, Decided(d, c), job, now); }
  }

  predicate ConsumesOnly(d: Db, e: Db, event: EventKey) {
    && (forall x :: x in e.receipts ==> x in d.receipts || x == event)
    && (forall j :: j in e.jobs ==> e.jobs[j].event == event || (j in d.jobs && d.jobs[j].event == e.jobs[j].event))
  }

  lemma OthersStayUnconsumed(d: Db, e: Db, event: EventKey, x: EventKey)
    requires ConsumesOnly(d, e, event) && x != event && Consumed(e, x)
    ensures Consumed(d, x)
  {
    if JobsFor(e.jobs, x) != {} {
      var j :| j in JobsFor(e.jobs, x);
      assert j in JobsFor(d.jobs, x);
    }
  }

  lemma AdmittingConsumesOnly(d: Db, c: Candidate, job: JobId, now: Time)
    ensures ConsumesOnly(d, Admitting(d, c, job, now).0, c.event)
  {
  }

  lemma DecisionConsumesOnly(d: Db, c: Candidate, decision: Poller, job: JobId, now: Time)
    ensures ConsumesOnly(d, AfterDecision(d, c, decision, job, now).0, c.event)
  {
    if !decision.Rejecting? && !decision.Queueing? { AdmittingConsumesOnly(d, c, job, now); }
  }

  /** And it consumes no other. */
  lemma DispatchConsumesOne(d: Db, c: Candidate, job: JobId, now: Time)
    ensures forall x :: x != c.event && Consumed(Dispatcher.Dispatched(d, c, job, now).0, x) ==> Consumed(d, x)
  {
    var e := Dispatcher.Dispatched(d, c, job, now).0;
    assert ConsumesOnly(d, e, c.event) by {
      if Considered(d, c).Considering? { DecisionConsumesOnly(d, c, Decided(d, c), job, now); }
    }
    forall x | x != c.event && Consumed(e, x) ensures Consumed(d, x) { OthersStayUnconsumed(d, e, c.event, x); }
  }

  /** What becomes of one comment: it is left alone if it was dealt with; a plain reply for which
      there is nothing to do is passed over, anything else of that kind gets a receipt; a request
      is dispatched; and a failure is given up when the comment is a quarter of an hour old, and
      until then halts the pass. */
  predicate Treated(d: Db, key: EventKey, plain: bool, finding: Finding, now: Time, e: Db, halt: bool, raised: bool) {
    if Consumed(d, key) then e == d && !halt && !raised
    else
      match finding
      case Nothing =>
        e == (if plain then d else d.(receipts := d.receipts[key := Skipped])) && !halt && !raised
      case Dispatchable(c, job) =>
        && e == Dispatcher.Dispatched(d, c, job, now).0
        && (raised <==> Dispatcher.Dispatched(d, c, job, now).1.Broke?) && !halt
      case Failing(age) =>
        if age < 900.0 then e == d && halt && !raised
        else e == d.(receipts := d.receipts[key := Skipped]) && !halt && !raised
  }

  // ---- runs of the comment loop

  ghost predicate Chain(watches: seq<Watch>, p: Source, moves: seq<Move>) {
    |watches| == |moves| + 1 && forall i :: 0 <= i < |moves| ==> MoveAt(watches, p, moves, i)
  }

  ghost predicate Links(w: Watch, v: Watch, p: Source, watches: seq<Watch>, moves: seq<Move>) {
    Chain(watches, p, moves) && watches[0] == w && watches[|moves|] == v
  }

  ghost predicate Leads(w: Watch, v: Watch, p: Source) {
    exists watches, moves :: Links(w, v, p, watches, moves)
  }

  lemma LeadsNowhere(w: Watch, p: Source)
    ensures Leads(w, w, p)
  {
    assert Links(w, w, p, [w], []);
  }

  lemma LeadsByMove(w: Watch, v: Watch, p: Source, m: Move, u: Watch)
    requires Leads(w, v, p) && Comments.Moves(v, p, m, u)
    ensures Leads(w, u, p)
  {
    var watches, moves :| Links(w, v, p, watches, moves);
    var watches2, moves2 := watches + [u], moves + [m];
    forall i | 0 <= i < |moves2| ensures MoveAt(watches2, p, moves2, i) {
      if i < |moves| { assert MoveAt(watches, p, moves, i); }
    }
    assert Links(w, u, p, watches2, moves2);
  }

  /** A dispatch by itself: begun at the head of the list, then the poller's transactions. */
  lemma DispatchLeads(w0: Watch, w: Watch, p: Source, c: Candidate, job: JobId, now: Time)
    requires Leads(w0, w, p) && AtHead(w) && !w.loop.value.dispatching && w.sys.poller.AtRest?
    requires c.event == Key(p, w.loop.value.todo[0]) && !Consumed(w.sys.db, c.event)
    ensures var (e, verdict) := Dispatcher.Dispatched(w.sys.db, c, job, now);
            Leads(w0, w.(sys := w.sys.(db := e), loop := if verdict.Broke? then None else Popped(w.loop.value)), p)
  {
    var begun := w.(loop := Some(w.loop.value.(dispatching := true)), sys := w.sys.(poller := Considered(w.sys.db, c)));
    LeadsByMove(w0, w, p, Begin(c), begun);
    if Considered(w.sys.db, c).Rejecting? {
      EndLeads(w0, begun, p, WriteRejection, now, RejectedWith(w.sys.db, c, c.early.value, true, now).0);
    } else {
      var decided := begun.(sys := begun.sys.(poller := Decided(w.sys.db, c)));
      LeadsByMove(w0, begun, p, Inside(ReadActive, now), decided);
      DecisionLeads(w0, decided, p, c, job, now);
      DecisionIsNotSpent(w.sys.db, c, job, now);
    }
  }

  /** The transaction that ends a dispatch, when it does not raise. */
  lemma EndLeads(w0: Watch, w: Watch, p: Source, act: Act, now: Time, e: Db)
    requires Leads(w0, w, p) && AtHead(w) && w.loop.value.dispatching && !w.sys.poller.AtRest?
    requires act.WriteRejection? || act.WriteQueue? || act.CreateJob?
    requires PollerNext(w.sys, act, now, w.sys.(db := e, poller := AtRest))
    ensures Leads(w0, w.(sys := w.sys.(db := e, poller := AtRest),
                         loop := if Raises(w.sys, act, now) then None else Popped(w.loop.value)), p)
  {
    var t := w.sys.(db := e, poller := AtRest);
    LeadsByMove(w0, w, p, Inside(act, now), w.(sys := t, loop := AfterInside(w, act, now, t)));
  }

  lemma DecisionLeads(w0: Watch, w: Watch, p: Source, c: Candidate, job: JobId, now: Time)
    requires Leads(w0, w, p) && AtHead(w) && w.loop.value.dispatching && w.sys.poller == Decided(w.sys.db, c)
    ensures var (e, verdict) := AfterDecision(w.sys.db, c, Decided(w.sys.db, c), job, now);
            Leads(w0, w.(sys := w.sys.(db := e, poller := AtRest),
                         loop := if verdict.Broke? then None else Popped(w.loop.value)), p)
  {
    var d, decision := w.sys.db, Decided(w.sys.db, c);
    if decision.Rejecting? {
      EndLeads(w0, w, p, WriteRejection, now, AfterDecision(d, c, decision, job, now).0);
    } else if decision.Queueing? {
      EndLeads(w0, w, p, WriteQueue, now, AfterDecision(d, c, decision, job, now).0);
    } else {
      AdmissionLeads(w0, w, p, c, job, now);
    }
  }

  lemma AdmissionLeads(w0: Watch, w: Watch, p: Source, c: Candidate, job: JobId, now: Time)
    requires Leads(w0, w, p) && AtHead(w) && w.loop.value.dispatching && w.sys.poller == Admitted(c)
    ensures var (e, verdict) := Admitting(w.sys.db, c, job, now);
            Leads(w0, w.(sys := w.sys.(db := e, poller := AtRest),
                         loop := if verdict.Broke? then None else Popped(w.loop.value)), p)
  {
    var s3 := AdmissionSteps(w.sys, c, job, now);
    var o := Upserted(w.sys.db, c.conv, c.ws);
    var placed := w.(sys := s3);
    LeadsByMove(w0, w, p, Inside(PlaceConversation, now), placed);
    var act := if o.Done? then CreateJob(job) else WriteRejection;
    EndLeads(w0, placed, p, act, now, Admitting(w.sys.db, c, job, now).0);
  }

  class CommentPoller {
    const dispatcher: HostedDispatcher
    const project: ProjectKey
    ghost const plain: iset<int>
    var cursor: int
    // The comments so far, and those passed over without a receipt.
    ghost var feed: set<int>
    ghost var quiet: set<int>
    ghost var unwatched: set<int>

    constructor (dispatcher: HostedDispatcher, project: ProjectKey, start: int, ghost plain: iset<int>)
      ensures this.dispatcher == dispatcher && this.project == project && this.plain == plain
      ensures cursor == start && feed == {} && quiet == {} && unwatched == {}
    {
      this.dispatcher, this.project, this.plain, cursor := dispatcher, project, plain, start;
      feed, quiet, unwatched := {}, {}, {};
    }

    ghost function Origin(): Source {
      Source(project, plain)
    }

    /** The state of the loop; `others` is the rest of the system, which a pass leaves alone. */
    ghost function Watching(others: Sys, loop: Option<Loop>): Watch
      reads this, dispatcher.store
    {
      Watch(others.(db := dispatcher.store.Contents(), poller := AtRest), feed, cursor, loop, quiet, unwatched)
    }

    ghost predicate Passing(others: Sys, loop: Loop, start: Watch)
      reads this, dispatcher.store
    {
      Leads(start, Watching(others, Some(loop)), Origin())
    }

    /** One comment, the first on the list.  `halt` and `raised` say that the pass goes no further. */
    method Handle(
        comment: Comment, finding: Finding, now: Time, ghost others: Sys, ghost loop: Loop, ghost start: Watch)
      returns (halt: bool, raised: bool)
      requires comment.plain <==> comment.id in plain
      requires finding.Dispatchable? ==> finding.c.event == Key(Origin(), comment.id)
      requires |loop.todo| > 0 && loop.todo[0] == comment.id && !loop.dispatching && Passing(others, loop, start)
      modifies this`quiet, this`cursor, dispatcher.store
      ensures Grows(old(dispatcher.store.Contents()), dispatcher.store.Contents())
      ensures halt ==> finding.Failing? && finding.age < TRANSIENT_GIVE_UP_SECONDS && !raised
      ensures cursor == if halt then comment.id - 1 else old(cursor)
      ensures !halt && !raised && !(comment.plain && finding.Nothing?) ==>
                Consumed(dispatcher.store.Contents(), Key(Origin(), comment.id))
      ensures Treated(old(dispatcher.store.Contents()), Key(Origin(), comment.id), comment.plain, finding, now,
                      dispatcher.store.Contents(), halt, raised)
      ensures forall x :: x != Key(Origin(), comment.id) ==>
                (Consumed(dispatcher.store.Contents(), x) <==> Consumed(old(dispatcher.store.Contents()), x))
      ensures Leads(start, Watching(others, if halt || raised then None else Popped(loop)), Origin())
    {
      halt, raised := false, false;
      ghost var before := Watching(others, Some(loop));
      var key := EventKey(project, CommentEvent, comment.id, 0);
      var consumed := dispatcher.ConsumedEvent(key);
      if consumed.Some? {
        LeadsByMove(start, before, Origin(), PassConsumed, Watching(others, Popped(loop)));
        return;
      }
      match finding
      case Nothing =>
        if comment.plain {
          quiet := quiet + {comment.id};
          LeadsByMove(start, before, Origin(), PassQuietly, Watching(others, Popped(loop)));
        } else {
          dispatcher.RecordSkippedEvent(key);
          LeadsByMove(start, before, Origin(), SkipWithReceipt, Watching(others, Popped(loop)));
        }
      case Dispatchable(c, job) =>
        ghost var d := dispatcher.store.Contents();
        var verdict := dispatcher.Dispatch(c, job, now);
        DispatchGrows(d, c, job, now);
        DispatchConsumesOne(d, c, job, now);
        DispatchLeads(start, before, Origin(), c, job, now);
        raised := verdict.Broke?;
      case Failing(age) =>
        if age < TRANSIENT_GIVE_UP_SECONDS {
          halt := true;
          cursor := comment.id - 1;
          LeadsByMove(start, before, Origin(), Transient(age), Watching(others, None));
        } else {
          dispatcher.RecordSkippedEvent(key);
          LeadsByMove(start, before, Origin(), GiveUp(age), Watching(others, Popped(loop)));
        }
    }

    /** The comments newer than the cursor, oldest first, with what was found of each; `newest`
        is the cursor that the poll came with.  What the pass does is a run of the moves of
        Comments, to which its theorem therefore applies. */
    method Pass(comments: seq<Comment>, findings: seq<Finding>, newest: int, now: Time, ghost others: Sys)
      returns (raised: bool)
      requires |findings| == |comments| && Newest(feed, cursor, newest)
      requires Polled(feed, cursor, Numbers(comments))
      requires forall i :: 0 <= i < |comments| ==> (comments[i].plain <==> comments[i].id in plain)
      requires forall i :: 0 <= i < |findings| && findings[i].Dispatchable? ==>
                 findings[i].c.event == Key(Origin(), comments[i].id)
      modifies this`cursor, this`quiet, dispatcher.store
      ensures Leads(old(Watching(others, None)), Watching(others, None), Origin())
      ensures raised ==> cursor == old(cursor)
      ensures !raised ==>
                || cursor == newest
                || exists i :: 0 <= i < |comments| && findings[i].Failing? && cursor == comments[i].id - 1
      ensures forall i :: 0 <= i < |comments| && comments[i].id <= cursor ==>
                (comments[i].plain && findings[i].Nothing?) ||
                Consumed(dispatcher.store.Contents(), Key(Origin(), comments[i].id))
      ensures !raised ==>
                forall i ::
                  && 0 <= i < |comments| && findings[i].Failing? && findings[i].age < 900.0
                  && !Consumed(old(dispatcher.store.Contents()), Key(Origin(), comments[i].id)) ==>
                    cursor < comments[i].id
    {
      ghost var start := Watching(others, None);
      ghost var ids := Numbers(comments);
      LeadsNowhere(start, Origin());
      LeadsByMove(start, start, Origin(), Poll(ids), Watching(others, Some(Loop(ids, newest, false))));
      assert ids[0..] == ids;
      for n := 0 to |comments|
        invariant cursor == old(cursor) && Passing(others, Loop(ids[n..], newest, false), start)
        invariant forall i :: 0 <= i < n && !(comments[i].plain && findings[i].Nothing?) ==>
                    Consumed(dispatcher.store.Contents(), Key(Origin(), comments[i].id))
        invariant forall i :: n <= i < |comments| ==>
                    (Consumed(dispatcher.store.Contents(), Key(Origin(), comments[i].id)) <==>
                     Consumed(old(dispatcher.store.Contents()), Key(Origin(), comments[i].id)))
        invariant forall i :: 0 <= i < n && findings[i].Failing? && findings[i].age < 900.0 ==>
                    Consumed(old(dispatcher.store.Contents()), Key(Origin(), comments[i].id))
      {
        ghost var d := dispatcher.store.Contents();
        forall i | n < i < |comments| ensures comments[i].id != comments[n].id { assert ids[n] < ids[i]; }
        ghost var loop := Loop(ids[n..], newest, false);
        assert loop.todo[1..] == ids[n + 1..];
        var halt, stopped := Handle(comments[n], findings[n], now, others, loop, start);
        forall i | 0 <= i < n && !(comments[i].plain && findings[i].Nothing?)
          ensures Consumed(dispatcher.store.Contents(), Key(Origin(), comments[i].id))
        {
          GrowthKeepsConsumed(d, dispatcher.store.Contents(), Key(Origin(), comments[i].id));
        }
        if stopped {
          PastCursor(feed, cursor, comments);
          return true;
        }
        if halt {
          forall i | n <= i < |comments| ensures comments[i].id > cursor { assert ids[n] <= ids[i]; }
          return false;
        }
      }
      ghost var last := Watching(others, Some(Loop(ids[|ids|..], newest, false)));
      cursor := newest;
      LeadsByMove(start, last, Origin(), Store, Watching(others, None));
      raised := false;
    }
  }

  function Numbers(comments: seq<Comment>): (ids: seq<int>)
    ensures |ids| == |comments|
  {
    seq(|comments|, i requires 0 <= i < |comments| => comments[i].id)
  }

  /** What a poll yields lies past the cursor. */
  lemma PastCursor(feed: set<int>, cursor: int, comments: seq<Comment>)
    requires Polled(feed, cursor, Numbers(comments))
    ensures forall i :: 0 <= i < |comments| ==> comments[i].id > cursor
  {
    forall i | 0 <= i < |comments| ensures comments[i].id > cursor { assert Numbers(comments)[i] in Numbers(comments); }
  }
}
