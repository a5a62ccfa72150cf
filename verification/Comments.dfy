/**
  The poller's comment loop and its cursor.  Each poll yields every comment event
  newer than the cursor; the loop may halt at a transient failure, be cut short by
  an exception, or die anywhere; and dispatching one comment is itself several
  transactions interleaved with the rest of the controller.
*/
module Comments {
  import opened Basics
  import opened Tables
  import opened Intake
  import opened StoreRuns
  import opened Hosted
  import PendingQueue

  const TRANSIENT_GIVE_UP_SECONDS := 900.0

  /** `todo` holds the events still to handle, oldest first; `top` is the cursor to store
      when all are done; `dispatching` says the head event is inside dispatch. */
  datatype Loop = Loop(todo: seq<int>, top: int, dispatching: bool)

  /** Where comments come from: `plain` holds the events whose comment carries no command. */
  datatype Source = Source(project: ProjectKey, plain: iset<int>)

  /** `feed` holds every comment event so far; `quiet` those passed over on purpose without
      a receipt, because a plain reply was no resume gesture; `unwatched` those that were
      new in a poll made while comments were no trigger of the project. */
  datatype Watch = Watch(
    sys: Sys, feed: set<int>, cursor: int, loop: Option<Loop>, quiet: set<int>, unwatched: set<int>)

  datatype Move =
    | Arrives(id: int)
    | Poll(todo: seq<int>) | PollUnwatched
    | PassConsumed | PassQuietly | SkipWithReceipt
    | Begin(c: Candidate)
    | Inside(act: Act, now: Time)   // a step of the dispatch in progress
    | Meanwhile(act: Act, now: Time)  // a step of any other component
    | Transient(age: Time) | GiveUp(age: Time)
    | Store
    | Die

  function Key(p: Source, id: int): EventKey {
    EventKey(p.project, CommentEvent, id, 0)
  }

  predicate Ascending(s: seq<int>) {
    forall i, k :: 0 <= i < k < |s| ==> s[i] < s[k]
  }

  ghost predicate Polled(feed: set<int>, cursor: int, todo: seq<int>) {
    Ascending(todo) && (forall x :: x in todo <==> x in feed && x > cursor)
  }

  function NewIn(feed: set<int>, cursor: int): set<int> {
    set x | x in feed && x > cursor
  }

  ghost predicate Newest(feed: set<int>, cursor: int, top: int) {
    if feed == {} then top == cursor else top in feed && forall x :: x in feed ==> x <= top
  }

  predicate AtHead(w: Watch) {
    w.loop.Some? && |w.loop.value.todo| > 0
  }

  function Popped(loop: Loop): Option<Loop>
    requires |loop.todo| > 0
  {
    Some(Loop(loop.todo[1..], loop.top, false))
  }

  predicate Raises(s: Sys, act: Act, now: Time) {
    act.CreateJob? && s.poller.Placed? && DispatchRecorded(s.db, EnvelopeOf(s.poller.c, act.job), now).Refused?
  }

  /** What dispatch leaves of the loop: it returned, raised, or is still going. */
  function AfterInside(w: Watch, act: Act, now: Time, t: Sys): Option<Loop>
    requires AtHead(w)
  {
    if !t.poller.AtRest? then w.loop
    else if Raises(w.sys, act, now) then None
    else Popped(w.loop.value)
  }

  ghost predicate Moves(w: Watch, p: Source, m: Move, v: Watch) {
    match m
    case Arrives(id) => w.cursor < id && (w.loop.Some? ==> w.loop.value.top < id)
      && v == w.(feed := w.feed + {id})
    case Poll(todo) => w.loop == None && w.sys.poller.AtRest? && Polled(w.feed, w.cursor, todo) &&
      exists top :: Newest(w.feed, w.cursor, top) && v == w.(loop := Some(Loop(todo, top, false)))
    case PollUnwatched => w.loop == None && w.sys.poller.AtRest? &&
      exists top :: Newest(w.feed, w.cursor, top)
        && v == w.(loop := Some(Loop([], top, false)), unwatched := w.unwatched + NewIn(w.feed, w.cursor))
    case PassConsumed => AtHead(w) && !w.loop.value.dispatching
      && Consumed(w.sys.db, Key(p, w.loop.value.todo[0])) && v == w.(loop := Popped(w.loop.value))
    case PassQuietly => AtHead(w) && !w.loop.value.dispatching && w.loop.value.todo[0] in p.plain
      && v == w.(loop := Popped(w.loop.value), quiet := w.quiet + {w.loop.value.todo[0]})
    case SkipWithReceipt => AtHead(w) && !w.loop.value.dispatching && w.loop.value.todo[0] !in p.plain
      && v == w.(loop := Popped(w.loop.value),
                 sys := w.sys.(db := EventNoted(w.sys.db, Key(p, w.loop.value.todo[0]), Skipped)))
    case Begin(c) => AtHead(w) && !w.loop.value.dispatching && c.event == Key(p, w.loop.value.todo[0])
      && w.sys.poller.AtRest? && !Consumed(w.sys.db, c.event)
      && v == w.(loop := Some(w.loop.value.(dispatching := true)), sys := w.sys.(poller := Considered(w.sys.db, c)))
    case Inside(act, now) => AtHead(w) && w.loop.value.dispatching
      && PollerAct(act) && !act.Consider? && !act.PollerDies?
      && PollerNext(w.sys, act, now, v.sys)
      && v == w.(sys := v.sys, loop := AfterInside(w, act, now, v.sys))
    case Meanwhile(act, now) => SysNext(w.sys, act, now, v.sys) && v == w.(sys := v.sys)
      && (PollerAct(act) ==> w.loop == None)
    case Transient(age) => AtHead(w) && !w.loop.value.dispatching && age < TRANSIENT_GIVE_UP_SECONDS
      && v == w.(cursor := w.loop.value.todo[0] - 1, loop := None)
    case GiveUp(age) => AtHead(w) && !w.loop.value.dispatching && age >= TRANSIENT_GIVE_UP_SECONDS
      && v == w.(loop := Popped(w.loop.value),
                 sys := w.sys.(db := EventNoted(w.sys.db, Key(p, w.loop.value.todo[0]), Skipped)))
    case Store => w.loop.Some? && w.loop.value.todo == [] && v == w.(cursor := w.loop.value.top, loop := None)
    case Die => v == w.(loop := None, sys := w.sys.(poller := AtRest))
  }

  // ---- a consumed event stays consumed

  lemma ReceiptsPersist(d: Db, step: Step, now: Time, e: Db)
    requires Next(d, step, now, e)
    ensures forall x :: x in d.receipts ==> x in e.receipts
  {
    var elsewhere :=
      if step.Queue? || step.Clear? then ConvKey(step.conv.project, step.conv.issue + 1) else ConvKey(0, 0);
    PendingQueue.ForeignStepKeeps(d, step, now, e, elsewhere);
  }

  lemma ConsumedForever(d: Db, step: Step, now: Time, e: Db, event: EventKey)
    requires Next(d, step, now, e) && Consumed(d, event)
    ensures Consumed(e, event)
  {
    ReceiptsPersist(d, step, now, e);
    NextAdvancesJobs(d, step, now, e);
    if j :| j in JobsFor(d.jobs, event) {
      assert JobAdvances(d.jobs[j], e.jobs[j]);
      assert j in JobsFor(e.jobs, event);
    }
  }

  lemma SysKeepsConsumed(s: Sys, act: Act, now: Time, t: Sys, event: EventKey)
    requires SysNext(s, act, now, t) && Consumed(s.db, event)
    ensures Consumed(t.db, event)
  {
    if act.Env? {
      ConsumedForever(s.db, act.step, now, t.db, event);
    } else if !act.HumanNote? {
      if PollerAct(act) {
        PollerKeepsConsumed(s, act, now, t, event);
      } else {
        var step := PublisherTransaction(s, act, now, t);
        if t.db != s.db { ConsumedForever(s.db, step, now, t.db, event); }
      }
    }
  }

  lemma PollerKeepsConsumed(s: Sys, act: Act, now: Time, t: Sys, event: EventKey)
    requires PollerNext(s, act, now, t) && Consumed(s.db, event)
    ensures Consumed(t.db, event)
  {
    var step := PollerTransaction(s, act, now, t);
    if t.db != s.db { ConsumedForever(s.db, step, now, t.db, event); }
  }

  // ---- a dispatch that returns has consumed its event

  lemma RejectionConsumes(d: Db, event: EventKey, conv: ConvKey, reason: string, failed: bool, now: Time)
    ensures event in RejectionRecorded(d, event, conv, reason, failed, now).receipts
  {
  }

  lemma QueueConsumes(d: Db, conv: ConvKey, entry: Entry)
    ensures entry.event in PendingQueued(d, conv, entry).Commit(d).receipts
  {
  }

  lemma CreationConsumes(d: Db, envelope: Envelope, now: Time)
    requires DispatchRecorded(d, envelope, now).Done?
    ensures Consumed(DispatchRecorded(d, envelope, now).db, envelope.event)
  {
    var o := DispatchRecorded(d, envelope, now);
    if o.value { assert envelope.job in JobsFor(o.db.jobs, envelope.event); }
  }

  /** Only the last transaction of a dispatch ends it. */
  lemma EndsWithTransaction(s: Sys, act: Act, now: Time, t: Sys)
    requires PollerAct(act) && !act.Consider? && !act.PollerDies? && PollerNext(s, act, now, t)
    requires !s.poller.AtRest? && t.poller.AtRest?
    ensures act.WriteRejection? || act.WriteQueue? || act.CreateJob?
  {
  }

  lemma DispatchConsumes(s: Sys, act: Act, now: Time, t: Sys)
    requires PollerAct(act) && !act.Consider? && !act.PollerDies? && PollerNext(s, act, now, t)
    requires !s.poller.AtRest? && t.poller.AtRest? && !Raises(s, act, now)
    ensures Consumed(t.db, s.poller.c.event)
  {
    EndsWithTransaction(s, act, now, t);
    var c := s.poller.c;
    if act.WriteRejection? {
      RejectionConsumes(s.db, c.event, c.conv, s.poller.reason, s.poller.failed, now);
    } else if act.WriteQueue? {
      QueueConsumes(s.db, c.conv, Entry(c.event, c.messages));
    } else {
      CreationConsumes(s.db, EnvelopeOf(c, act.job), now);
    }
  }

  // ---- the cursor

  predicate Handled(w: Watch, p: Source, id: int) {
    (id in w.quiet && id in p.plain) || id in w.unwatched || Consumed(w.sys.db, Key(p, id))
  }

  /** Everything the cursor has passed since `start` is handled, and during a loop so is
      everything polled that is no longer on the list. */
  predicate Tracked(w: Watch, p: Source, start: int) {
    && (forall x :: x in w.feed && start < x <= w.cursor ==> Handled(w, p, x))
    && (w.loop.Some? ==>
          var loop := w.loop.value;
          && Ascending(loop.todo)
          && (forall x :: x in loop.todo ==> x <= loop.top)
          && (forall x :: x in w.feed && start < x <= loop.top && x !in loop.todo ==> Handled(w, p, x))
          && (loop.dispatching ==>
                |loop.todo| > 0 && !w.sys.poller.AtRest? && w.sys.poller.c.event == Key(p, loop.todo[0])))
  }

  lemma MonotoneKeepsTracked(w: Watch, p: Source, start: int, sys: Sys)
    requires Tracked(w, p, start)
    requires forall x :: x in w.feed && Consumed(w.sys.db, Key(p, x)) ==> Consumed(sys.db, Key(p, x))
    requires w.loop.Some? && w.loop.value.dispatching ==> sys.poller == w.sys.poller
    ensures Tracked(w.(sys := sys), p, start)
  {
    forall x | x in w.feed && Handled(w, p, x) ensures Handled(w.(sys := sys), p, x) {}
  }

  lemma PopKeepsTracked(w: Watch, p: Source, start: int)
    requires Tracked(w, p, start) && AtHead(w) && Handled(w, p, w.loop.value.todo[0])
    ensures Tracked(w.(loop := Popped(w.loop.value)), p, start)
  {
    var todo := w.loop.value.todo;
    forall x ensures x in todo <==> x == todo[0] || x in todo[1..] {
      if x in todo { var i :| 0 <= i < |todo| && todo[i] == x; if i > 0 { assert todo[1..][i - 1] == x; } }
    }
  }

  lemma NotedIsConsumed(d: Db, event: EventKey, other: EventKey)
    ensures Consumed(EventNoted(d, event, Skipped), event)
    ensures Consumed(d, other) ==> Consumed(EventNoted(d, event, Skipped), other)
  {
  }

  lemma SkipKeepsTracked(w: Watch, p: Source, start: int)
    requires Tracked(w, p, start) && AtHead(w) && !w.loop.value.dispatching
    ensures Tracked(w.(loop := Popped(w.loop.value),
                       sys := w.sys.(db := EventNoted(w.sys.db, Key(p, w.loop.value.todo[0]), Skipped))), p, start)
  {
    var event := Key(p, w.loop.value.todo[0]);
    var sys := w.sys.(db := EventNoted(w.sys.db, event, Skipped));
    forall x | x in w.feed && Consumed(w.sys.db, Key(p, x)) ensures Consumed(sys.db, Key(p, x)) {
      NotedIsConsumed(w.sys.db, event, Key(p, x));
    }
    MonotoneKeepsTracked(w, p, start, sys);
    NotedIsConsumed(w.sys.db, event, event);
    PopKeepsTracked(w.(sys := sys), p, start);
  }

  lemma PollStartsTracked(w: Watch, p: Source, start: int, todo: seq<int>, top: int)
    requires Tracked(w, p, start) && Polled(w.feed, w.cursor, todo) && Newest(w.feed, w.cursor, top)
    ensures Tracked(w.(loop := Some(Loop(todo, top, false))), p, start)
  {
  }

  lemma HaltKeepsTracked(w: Watch, p: Source, start: int)
    requires Tracked(w, p, start) && AtHead(w)
    ensures Tracked(w.(cursor := w.loop.value.todo[0] - 1, loop := None), p, start)
  {
    var todo := w.loop.value.todo;
    assert todo[0] in todo;
    forall x | x in w.feed && start < x <= todo[0] - 1 ensures Handled(w, p, x) {
      forall i | 0 <= i < |todo| ensures todo[i] != x {}
    }
  }

  lemma InsideKeepsTracked(w: Watch, p: Source, start: int, act: Act, now: Time, v: Watch)
    requires Tracked(w, p, start) && Moves(w, p, Inside(act, now), v)
    ensures Tracked(v, p, start)
  {
    forall x | x in w.feed && Consumed(w.sys.db, Key(p, x)) ensures Consumed(v.sys.db, Key(p, x)) {
      PollerKeepsConsumed(w.sys, act, now, v.sys, Key(p, x));
    }
    if !v.sys.poller.AtRest? {
      PollerStaysOn(w.sys, act, now, v.sys);
    } else if !Raises(w.sys, act, now) {
      DispatchConsumes(w.sys, act, now, v.sys);
    }
    DispatchKeepsTracked(w, p, start, v);
  }

  /** Dispatching the head leaves the loop as it is, abandons it, or has consumed the head. */
  lemma DispatchKeepsTracked(w: Watch, p: Source, start: int, v: Watch)
    requires Tracked(w, p, start) && AtHead(w) && w.loop.value.dispatching
    requires forall x :: x in w.feed && Consumed(w.sys.db, Key(p, x)) ==> Consumed(v.sys.db, Key(p, x))
    requires v == w.(sys := v.sys, loop := v.loop)
    requires || (v.loop == w.loop && !v.sys.poller.AtRest? && v.sys.poller.c == w.sys.poller.c)
             || v.loop == None
             || (v.loop == Popped(w.loop.value) && Consumed(v.sys.db, Key(p, w.loop.value.todo[0])))
    ensures Tracked(v, p, start)
  {
    var paused := w.(loop := Some(w.loop.value.(dispatching := false)));
    MonotoneKeepsTracked(paused, p, start, v.sys);
    if v.loop.Some? && v.loop != w.loop { PopKeepsTracked(paused.(sys := v.sys), p, start); }
  }

  lemma PollerStaysOn(s: Sys, act: Act, now: Time, t: Sys)
    requires PollerAct(act) && !act.Consider? && !act.PollerDies? && PollerNext(s, act, now, t)
    requires !s.poller.AtRest? && !t.poller.AtRest?
    ensures t.poller.c == s.poller.c
  {
  }

  lemma MeanwhileKeepsTracked(w: Watch, p: Source, start: int, act: Act, now: Time, v: Watch)
    requires Tracked(w, p, start) && Moves(w, p, Meanwhile(act, now), v)
    ensures Tracked(v, p, start)
  {
    forall x | x in w.feed && Consumed(w.sys.db, Key(p, x)) ensures Consumed(v.sys.db, Key(p, x)) {
      SysKeepsConsumed(w.sys, act, now, v.sys, Key(p, x));
    }
    if w.loop.Some? { OthersLeavePoller(w.sys, act, now, v.sys); }
    MonotoneKeepsTracked(w, p, start, v.sys);
  }

  lemma OthersLeavePoller(s: Sys, act: Act, now: Time, t: Sys)
    requires SysNext(s, act, now, t) && !PollerAct(act)
    ensures t.poller == s.poller
  {
  }

  lemma BeginKeepsTracked(w: Watch, p: Source, start: int, c: Candidate, v: Watch)
    requires Tracked(w, p, start) && Moves(w, p, Begin(c), v)
    ensures Tracked(v, p, start)
  {
    MonotoneKeepsTracked(w, p, start, v.sys);
  }

  lemma StartKeepsTracked(w: Watch, p: Source, start: int, m: Move, v: Watch)
    requires Tracked(w, p, start) && Moves(w, p, m, v) && (m.Arrives? || m.Poll? || m.PollUnwatched? || m.Die?)
    ensures Tracked(v, p, start)
  {
    if m.Poll? {
      var top :| Newest(w.feed, w.cursor, top) && v == w.(loop := Some(Loop(m.todo, top, false)));
      PollStartsTracked(w, p, start, m.todo, top);
    }
  }

  lemma PassKeepsTracked(w: Watch, p: Source, start: int, m: Move, v: Watch)
    requires Tracked(w, p, start) && Moves(w, p, m, v)
    requires m.PassConsumed? || m.PassQuietly? || m.SkipWithReceipt? || m.GiveUp?
    ensures Tracked(v, p, start)
  {
    if m.PassConsumed? {
      PopKeepsTracked(w, p, start);
    } else if m.PassQuietly? {
      PopKeepsTracked(w.(quiet := w.quiet + {w.loop.value.todo[0]}), p, start);
    } else {
      SkipKeepsTracked(w, p, start);
    }
  }

  lemma EndKeepsTracked(w: Watch, p: Source, start: int, m: Move, v: Watch)
    requires Tracked(w, p, start) && Moves(w, p, m, v) && (m.Transient? || m.Store?)
    ensures Tracked(v, p, start)
  {
    if m.Transient? { HaltKeepsTracked(w, p, start); }
  }

  lemma MoveKeepsTracked(w: Watch, p: Source, start: int, m: Move, v: Watch)
    requires Tracked(w, p, start) && Moves(w, p, m, v)
    ensures Tracked(v, p, start)
  {
    if m.Arrives? || m.Poll? || m.PollUnwatched? || m.Die? { StartKeepsTracked(w, p, start, m, v); }
    else if m.Begin? { BeginKeepsTracked(w, p, start, m.c, v); }
    else if m.Inside? { InsideKeepsTracked(w, p, start, m.act, m.now, v); }
    else if m.Meanwhile? { MeanwhileKeepsTracked(w, p, start, m.act, m.now, v); }
    else if m.Transient? || m.Store? { EndKeepsTracked(w, p, start, m, v); }
    else { PassKeepsTracked(w, p, start, m, v); }
  }

  ghost predicate MoveAt(watches: seq<Watch>, p: Source, moves: seq<Move>, i: nat)
    requires |watches| == |moves| + 1 && i < |moves|
  {
    Moves(watches[i], p, moves[i], watches[i + 1])
  }

  /** Only plain replies are ever passed over quietly. */
  lemma {:induction false} OnlyPlainIsPassedQuietly(watches: seq<Watch>, p: Source, moves: seq<Move>, n: nat)
    requires |watches| == |moves| + 1 && n <= |moves| && watches[0].quiet == {}
    requires forall i :: 0 <= i < |moves| ==> MoveAt(watches, p, moves, i)
    ensures forall x :: x in watches[n].quiet ==> x in p.plain
  {
    if n > 0 {
      OnlyPlainIsPassedQuietly(watches, p, moves, n - 1);
      assert MoveAt(watches, p, moves, n - 1);
    }
  }

  /** Whatever halts, errors, deaths and interleavings happen, every comment between the
      cursor at the start and the cursor now was consumed, or was new in a poll made while
      comments were no trigger, or is a plain reply ignored on purpose; so every command
      that came while comments were a trigger was consumed. */
  lemma {:induction false} NoCommentIsPassedUnhandled(watches: seq<Watch>, p: Source, moves: seq<Move>, n: nat)
    requires |watches| == |moves| + 1 && n <= |moves|
    requires watches[0].loop == None
    requires forall i :: 0 <= i < |moves| ==> MoveAt(watches, p, moves, i)
    ensures Tracked(watches[n], p, watches[0].cursor)
    ensures forall x :: x in watches[n].feed && watches[0].cursor < x <= watches[n].cursor ==>
              if x in p.plain then Handled(watches[n], p, x)
              else x in watches[n].unwatched || Consumed(watches[n].sys.db, Key(p, x))
  {
    if n > 0 {
      NoCommentIsPassedUnhandled(watches, p, moves, n - 1);
      assert MoveAt(watches, p, moves, n - 1);
      MoveKeepsTracked(watches[n - 1], p, watches[0].cursor, moves[n - 1], watches[n]);
    }
    forall x | x in watches[n].feed && watches[0].cursor < x <= watches[n].cursor ensures Handled(watches[n], p, x) {}
  }
}
