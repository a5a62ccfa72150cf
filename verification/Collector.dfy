/**
  What the Pi collector makes of a provider attempt: the reply, the replay-safety
  flags, the exit guard and the diagnostics, as functions of the lines of stdout; and
  the tails and the auth flag, as functions of the bytes of both streams.
*/
module Collector {
  import opened Basics
  import opened Bytes
  import opened Framing
  import opened ByteTails

  const PROCESS_TAIL_BYTES: Capacity := 64 * 1024
  const DELTA_TAIL_BYTES: Capacity := 256 * 1024
  const PI_THIN_TAIL_CHARS := 200
  const PI_FRAGMENT_RATIO := 3

  // "No API key"
  const AUTH_ERROR: seq<Byte> := [78, 111, 32, 65, 80, 73, 32, 107, 101, 121]

  datatype Verdict = Success | Failure

  // `error`: there is an error message, or the stop reason is "error" or "aborted".
  datatype Message = Message(assistant: bool, error: bool, stopped: bool)

  datatype Event =
    | AgentStart | TurnStart | MessageStart
    | MessageUpdate(delta: seq<Byte>)
    | MessageEnd(message: Message, text: string)
    | ToolExecutionStart(tool: string)
    | AgentEnd(willRetry: bool, messages: seq<Message>)
    | AgentSettled
    | Other

  /** JSON parsing, text decoding, and the pattern of a status line, left uninterpreted. */
  datatype Reader = Reader(
    parse: seq<Byte> -> Option<Event>, decode: seq<Byte> -> string, strip: string -> string,
    body: string -> string, status: string -> string)

  datatype Fact =
    | MalformedLine(count: nat) | OversizedLine(count: nat) | ToolFirstStarted(tool: string)
    | AgentEnded(willRetry: bool, outcome: Option<Verdict>) | Settled | GuardArmed(outcome: Option<Verdict>)

  /** `agentEnded` is the mark left by a final agent_end; `armed` says a deadline is set. */
  datatype View = View(
    lastText: string, bestEarlier: string, texts: nat, delta: Tail,
    toolStarted: bool, attemptTool: bool, unsure: bool,
    agentEnded: bool, armed: bool, outcome: Option<Verdict>,
    malformed: nat, oversized: nat, reportedMalformed: nat, reportedOversized: nat, facts: seq<Fact>)

  const FRESH := View("", "", 0, Tail([], false), false, false, false, false, false, None, 0, 0, 0, 0, [])

  // ---- one event

  predicate Activity(e: Event) {
    e.AgentStart? || e.TurnStart? || e.MessageStart? || e.MessageUpdate? || e.ToolExecutionStart?
  }

  function Disarmed(v: View): View {
    v.(agentEnded := false, armed := false, outcome := None)
  }

  function Woken(v: View, e: Event): View {
    if (v.agentEnded || v.armed) && Activity(e) then Disarmed(v)
    else if e.AgentStart? || e.TurnStart? || e.MessageStart? then v.(outcome := None)
    else v
  }

  function AssistantOutcome(m: Message): Option<Verdict> {
    if !m.assistant then None
    else if m.error then Some(Failure)
    else if m.stopped then Some(Success)
    else None
  }

  /** The outcome of the last assistant message, if there is one. */
  function LastOutcome(messages: seq<Message>, otherwise: Option<Verdict>): Option<Verdict>
    decreases |messages|
  {
    if messages == [] then otherwise
    else if messages[|messages| - 1].assistant then AssistantOutcome(messages[|messages| - 1])
    else LastOutcome(messages[..|messages| - 1], otherwise)
  }

  function WithText(v: View, text: string, r: Reader): View {
    v.(bestEarlier :=
         if v.texts > 0 && |r.body(v.lastText)| > |r.body(v.bestEarlier)| then v.lastText else v.bestEarlier,
       lastText := text, texts := v.texts + 1)
  }

  function Moved(w: View, e: Event, r: Reader): View {
    match e
    case MessageUpdate(delta) => w.(delta := Appended(w.delta, delta, DELTA_TAIL_BYTES))
    case MessageEnd(m, text) =>
      if !m.assistant then w
      else
        var x := w.(outcome := AssistantOutcome(m));
        if text == "" then x else WithText(x, text, r)
    case ToolExecutionStart(_) => w.(attemptTool := true, toolStarted := true)
    case AgentEnd(willRetry, messages) =>
      if willRetry then Disarmed(w) else w.(agentEnded := true, outcome := LastOutcome(messages, w.outcome))
    case AgentSettled => if w.agentEnded then w.(armed := true) else w
    case _ => w
  }

  /** The facts journalled for an event that took the view from `w` to `x`. */
  function Said(w: View, x: View, e: Event): seq<Fact> {
    match e
    case ToolExecutionStart(tool) => if w.toolStarted then [] else [ToolFirstStarted(tool)]
    case AgentEnd(willRetry, _) => [AgentEnded(willRetry, x.outcome)]
    case AgentSettled => if w.agentEnded then [Settled, GuardArmed(w.outcome)] else [Settled]
    case _ => []
  }

  function OnEvent(v: View, e: Event, r: Reader): View {
    var w := Woken(v, e);
    var x := Moved(w, e, r);
    x.(facts := v.facts + Said(w, x, e))
  }

  // ---- one line

  const WHITESPACE: set<Byte> := {9, 10, 11, 12, 13, 32}

  predicate Blank(line: seq<Byte>) {
    forall i :: 0 <= i < |line| ==> line[i] in WHITESPACE
  }

  function Malformed(v: View): View {
    var n := v.malformed + 1;
    v.(malformed := n, unsure := true,
       reportedMalformed := if n == 1 then 1 else v.reportedMalformed,
       facts := if n == 1 then v.facts + [MalformedLine(1)] else v.facts)
  }

  function Overlong(v: View): View {
    var n := v.oversized + 1;
    v.(oversized := n, unsure := true,
       reportedOversized := if n == 1 then 1 else v.reportedOversized,
       facts := if n == 1 then v.facts + [OversizedLine(1)] else v.facts)
  }

  function OnLine(v: View, line: seq<Byte>, r: Reader): View {
    if Blank(line) then v
    else
      match r.parse(line)
      case None => Malformed(v)
      case Some(e) => OnEvent(v, e, r)
  }

  function OnItem(v: View, item: Item, r: Reader): View {
    match item
    case Line(line) => OnLine(v, line, r)
    case Oversized => Overlong(v)
  }

  function OnItems(v: View, items: seq<Item>, r: Reader): View
    decreases |items|
  {
    if items == [] then v
    else OnItem(OnItems(v, items[..|items| - 1], r), items[|items| - 1], r)
  }

  lemma {:induction false} OnItemsJoins(v: View, a: seq<Item>, b: seq<Item>, r: Reader)
    ensures OnItems(v, a + b, r) == OnItems(OnItems(v, a, r), b, r)
    decreases |b|
  {
    if b == [] {
      assert a + b == a;
    } else {
      assert (a + b)[..|a + b| - 1] == a + b[..|b| - 1];
      OnItemsJoins(v, a, b[..|b| - 1], r);
    }
  }

  // ---- the whole attempt

  function Finish(f: Frame, v: View, r: Reader): View {
    if f.line != [] && !f.discarding then OnLine(v, f.line, r) else v
  }

  /** Reading a stream in any pieces and finishing it judges each of its lines once,
      the unterminated last one included. */
  lemma FinishedIsSplit(v: View, s: seq<Byte>, limit: nat, r: Reader)
    ensures var (f, items) := Scan(EMPTY, s, limit);
            Finish(f, OnItems(v, items, r), r) == OnItems(v, JudgedAll(Lines(s), limit), r)
  {
    ScanIsSplit(s, limit);
    var pieces := Lines(s);
    var n := |pieces| - 1;
    assert JudgedAll(pieces, limit) == JudgedAll(pieces[..n], limit) + [Judged(pieces[n], limit)];
    var items := JudgedAll(pieces, limit);
    assert items[..n] == JudgedAll(pieces[..n], limit);
    assert JudgedAll(pieces[..n], limit) + [] == JudgedAll(pieces[..n], limit);
  }

  // ---- the replay flags

  function EventOf(item: Item, r: Reader): Option<Event> {
    match item
    case Line(line) => if Blank(line) then None else r.parse(line)
    case Oversized => None
  }

  /** The line tells for certain that no tool was started by it. */
  predicate Harmless(item: Item, r: Reader) {
    item.Line? && (Blank(item.bytes) || (r.parse(item.bytes).Some? && !r.parse(item.bytes).value.ToolExecutionStart?))
  }

  /** What an event does to the flags, the guard and the facts, one field at a time. */
  lemma EventEffects(v: View, e: Event, r: Reader)
    ensures var w := OnEvent(v, e, r);
            && w.unsure == v.unsure
            && w.attemptTool == (v.attemptTool || e.ToolExecutionStart?)
            && w.agentEnded == ((v.agentEnded && !Activity(e) && !(e.AgentEnd? && e.willRetry))
                                || (e.AgentEnd? && !e.willRetry))
            && w.armed == ((v.armed && !Activity(e) && !(e.AgentEnd? && e.willRetry))
                           || (v.agentEnded && e.AgentSettled?))
  {
    var w := Woken(v, e);
    assert w.unsure == v.unsure && w.attemptTool == v.attemptTool;
    assert w.agentEnded == (v.agentEnded && !Activity(e)) && w.armed == (v.armed && !Activity(e));
  }

  lemma FlagStep(v: View, item: Item, r: Reader)
    ensures var w := OnItem(v, item, r);
            !w.unsure && !w.attemptTool <==> !v.unsure && !v.attemptTool && Harmless(item, r)
  {
    if EventOf(item, r).Some? { EventEffects(v, EventOf(item, r).value, r); }
  }

  lemma {:induction false} FlagsAreExact(v: View, items: seq<Item>, r: Reader)
    ensures var w := OnItems(v, items, r);
            !w.unsure && !w.attemptTool <==>
              !v.unsure && !v.attemptTool && forall i :: 0 <= i < |items| ==> Harmless(items[i], r)
    decreases |items|
  {
    if items != [] {
      FlagsAreExact(v, items[..|items| - 1], r);
      FlagStep(OnItems(v, items[..|items| - 1], r), items[|items| - 1], r);
    }
  }

  datatype Plan = Reply | NoFallback | Continue | Blocked | Resend | OutOfTime

  /** What follows the first provider's attempt. */
  function Fallback(exitCode: int, hasFallback: bool, sessionChanged: bool, v: View, expired: bool): Plan {
    if exitCode == 0 then Reply
    else if !hasFallback then NoFallback
    else if !sessionChanged && (v.attemptTool || v.unsure) then Blocked
    else if expired then OutOfTime
    else if sessionChanged then Continue
    else Resend
  }

  function Attempt(v: View): View {
    Disarmed(v).(
      lastText := "", bestEarlier := "", texts := 0, delta := Tail([], false), attemptTool := false, unsure := false)
  }

  /** The original prompt is sent again exactly when the attempt failed, time is left, the
      session is unchanged, and every line the provider printed was short enough, blank or
      a well-formed event, and no tool start. */
  lemma PromptIsResentExactlyWhenHarmless(v: View, s: seq<Byte>, limit: nat, r: Reader,
                                          exitCode: int, hasFallback: bool, sessionChanged: bool, expired: bool)
    ensures var (f, items) := Scan(EMPTY, s, limit);
            var w := Finish(f, OnItems(Attempt(v), items, r), r);
            Fallback(exitCode, hasFallback, sessionChanged, w, expired) == Resend <==>
              && exitCode != 0 && hasFallback && !sessionChanged && !expired
              && forall i :: 0 <= i < |Lines(s)| ==> |Lines(s)[i]| <= limit && Harmless(Line(Lines(s)[i]), r)
  {
    FinishedIsSplit(Attempt(v), s, limit, r);
    var pieces := Lines(s);
    var items := JudgedAll(pieces, limit);
    FlagsAreExact(Attempt(v), items, r);
    assert forall i :: 0 <= i < |pieces| ==> items[i] == Judged(pieces[i], limit);
    assert (forall i :: 0 <= i < |items| ==> Harmless(items[i], r)) <==>
           (forall i :: 0 <= i < |pieces| ==> |pieces[i]| <= limit && Harmless(Line(pieces[i]), r)) by {
      if forall i :: 0 <= i < |items| ==> Harmless(items[i], r) {
        forall i | 0 <= i < |pieces| ensures |pieces[i]| <= limit && Harmless(Line(pieces[i]), r) {
          assert Harmless(items[i], r);
        }
      }
    }
  }

  // ---- the exit guard

  predicate EndsFinally(item: Item, r: Reader) {
    var e := EventOf(item, r);
    e.Some? && e.value.AgentEnd? && !e.value.willRetry
  }

  predicate Settles(item: Item, r: Reader) {
    var e := EventOf(item, r);
    e.Some? && e.value.AgentSettled?
  }

  predicate Resumes(item: Item, r: Reader) {
    var e := EventOf(item, r);
    e.Some? && (Activity(e.value) || (e.value.AgentEnd? && e.value.willRetry))
  }

  predicate EndedAt(items: seq<Item>, i: int, r: Reader) {
    0 <= i < |items| && EndsFinally(items[i], r) && forall k :: i < k < |items| ==> !Resumes(items[k], r)
  }

  predicate SettledAfter(items: seq<Item>, i: int, k: int, r: Reader) {
    EndedAt(items, i, r) && i < k < |items| && Settles(items[k], r)
  }

  lemma EndedGrows(items: seq<Item>, item: Item, i: int, r: Reader)
    ensures EndedAt(items + [item], i, r) <==>
              (EndedAt(items, i, r) && !Resumes(item, r)) || (i == |items| && EndsFinally(item, r))
  {
    var more := items + [item];
    if EndedAt(more, i, r) && i < |items| {
      forall k | i < k < |items| ensures !Resumes(items[k], r) { assert more[k] == items[k]; }
      assert more[|items|] == item;
    }
  }

  lemma SettledGrows(items: seq<Item>, item: Item, i: int, k: int, r: Reader)
    ensures SettledAfter(items + [item], i, k, r) <==>
              (SettledAfter(items, i, k, r) && !Resumes(item, r))
              || (k == |items| && EndedAt(items, i, r) && Settles(item, r))
  {
    EndedGrows(items, item, i, r);
  }

  /** The guard is armed exactly when the agent has settled after ending for good, and
      nothing has stirred since it ended. */
  lemma {:induction false} GuardIsArmedExactly(v: View, items: seq<Item>, r: Reader)
    requires !v.agentEnded && !v.armed
    ensures OnItems(v, items, r).agentEnded <==> exists i :: EndedAt(items, i, r)
    ensures OnItems(v, items, r).armed <==> exists i, k :: SettledAfter(items, i, k, r)
    decreases |items|
  {
    if items != [] {
      var init, item := items[..|items| - 1], items[|items| - 1];
      assert items == init + [item];
      GuardIsArmedExactly(v, init, r);
      forall i ensures EndedAt(items, i, r) <==>
                         (EndedAt(init, i, r) && !Resumes(item, r)) || (i == |init| && EndsFinally(item, r))
      {
        EndedGrows(init, item, i, r);
      }
      forall i, k ensures SettledAfter(items, i, k, r) <==>
                            (SettledAfter(init, i, k, r) && !Resumes(item, r))
                            || (k == |init| && EndedAt(init, i, r) && Settles(item, r))
      {
        SettledGrows(init, item, i, k, r);
      }
      ArmedStep(OnItems(v, init, r), item, r);
      if EndsFinally(item, r) { assert EndedAt(items, |init|, r); }
      if Settles(item, r) && exists i :: EndedAt(init, i, r) {
        var i :| EndedAt(init, i, r);
        assert SettledAfter(items, i, |init|, r);
      }
    }
  }

  lemma ArmedStep(v: View, item: Item, r: Reader)
    ensures OnItem(v, item, r).agentEnded <==> (v.agentEnded && !Resumes(item, r)) || EndsFinally(item, r)
    ensures OnItem(v, item, r).armed <==> (v.armed && !Resumes(item, r)) || (v.agentEnded && Settles(item, r))
  {
    if EventOf(item, r).Some? { EventEffects(v, EventOf(item, r).value, r); }
  }

  // ---- diagnostics

  function Counts(facts: seq<Fact>, malformed: bool): seq<nat>
    decreases |facts|
  {
    if facts == [] then []
    else
      var before, f := Counts(facts[..|facts| - 1], malformed), facts[|facts| - 1];
      if malformed && f.MalformedLine? then before + [f.count]
      else if !malformed && f.OversizedLine? then before + [f.count]
      else before
  }

  predicate Reported(v: View) {
    && v.reportedMalformed == (if v.malformed == 0 then 0 else 1)
    && v.reportedOversized == (if v.oversized == 0 then 0 else 1)
    && Counts(v.facts, true) == (if v.malformed == 0 then [] else [1])
    && Counts(v.facts, false) == (if v.oversized == 0 then [] else [1])
  }

  function Closed(v: View): View {
    var w := if v.malformed != 1 && v.malformed == v.reportedMalformed then v
             else v.(facts := v.facts + [MalformedLine(v.malformed)], reportedMalformed := v.malformed);
    if w.oversized != 1 && w.oversized == w.reportedOversized then w
    else w.(facts := w.facts + [OversizedLine(w.oversized)], reportedOversized := w.oversized)
  }

  lemma CountsOfAppended(facts: seq<Fact>, f: Fact, malformed: bool)
    ensures Counts(facts + [f], malformed) ==
              Counts(facts, malformed)
              + if malformed && f.MalformedLine? then [f.count]
                else if !malformed && f.OversizedLine? then [f.count] else []
  {
    assert (facts + [f])[..|facts|] == facts;
  }

  lemma {:induction false} CountsIgnoreOthers(facts: seq<Fact>, more: seq<Fact>, malformed: bool)
    requires forall f :: f in more ==> !f.MalformedLine? && !f.OversizedLine?
    ensures Counts(facts + more, malformed) == Counts(facts, malformed)
    decreases |more|
  {
    if more == [] {
      assert facts + more == facts;
    } else {
      var init, f := more[..|more| - 1], more[|more| - 1];
      CountsIgnoreOthers(facts, init, malformed);
      CountsOfAppended(facts + init, f, malformed);
      assert facts + more == facts + init + [f];
    }
  }

  lemma MovedKeepsCounters(w: View, e: Event, r: Reader)
    ensures var x := Moved(w, e, r);
            && x.malformed == w.malformed && x.oversized == w.oversized
            && x.reportedMalformed == w.reportedMalformed && x.reportedOversized == w.reportedOversized
  {
  }

  lemma SaidIsOther(w: View, x: View, e: Event)
    ensures forall f :: f in Said(w, x, e) ==> !f.MalformedLine? && !f.OversizedLine?
  {
  }

  lemma AddKeepsReports(v: View, x: View, more: seq<Fact>)
    requires Reported(v) && forall f :: f in more ==> !f.MalformedLine? && !f.OversizedLine?
    requires x.malformed == v.malformed && x.oversized == v.oversized
             && x.reportedMalformed == v.reportedMalformed && x.reportedOversized == v.reportedOversized
    ensures Reported(x.(facts := v.facts + more))
  {
    CountsIgnoreOthers(v.facts, more, true);
    CountsIgnoreOthers(v.facts, more, false);
  }

  lemma EventKeepsReports(v: View, e: Event, r: Reader)
    requires Reported(v)
    ensures Reported(OnEvent(v, e, r))
  {
    var w := Woken(v, e);
    var x := Moved(w, e, r);
    MovedKeepsCounters(w, e, r);
    SaidIsOther(w, x, e);
    AddKeepsReports(v, x, Said(w, x, e));
  }

  lemma MalformedKeepsReports(v: View)
    requires Reported(v)
    ensures Reported(Malformed(v))
  {
    CountsOfAppended(v.facts, MalformedLine(1), true);
    CountsOfAppended(v.facts, MalformedLine(1), false);
  }

  lemma OverlongKeepsReports(v: View)
    requires Reported(v)
    ensures Reported(Overlong(v))
  {
    CountsOfAppended(v.facts, OversizedLine(1), true);
    CountsOfAppended(v.facts, OversizedLine(1), false);
  }

  lemma ReportStep(v: View, item: Item, r: Reader)
    requires Reported(v)
    ensures Reported(OnItem(v, item, r))
  {
    MalformedKeepsReports(v);
    OverlongKeepsReports(v);
    if EventOf(item, r).Some? { EventKeepsReports(v, EventOf(item, r).value, r); }
  }

  lemma {:induction false} ReportsInStep(v: View, items: seq<Item>, r: Reader)
    requires Reported(v)
    ensures Reported(OnItems(v, items, r))
    decreases |items|
  {
    if items != [] {
      ReportsInStep(v, items[..|items| - 1], r);
      ReportStep(OnItems(v, items[..|items| - 1], r), items[|items| - 1], r);
    }
  }

  function Closing(n: nat, reported: nat, fact: Fact): seq<Fact> {
    if n != 1 && n == reported then [] else [fact]
  }

  lemma ClosedFacts(v: View)
    ensures Closed(v).facts == v.facts + Closing(v.malformed, v.reportedMalformed, MalformedLine(v.malformed))
                               + Closing(v.oversized, v.reportedOversized, OversizedLine(v.oversized))
  {
  }

  lemma ClosingCounts(v: View, malformed: bool)
    requires Reported(v)
    ensures Counts(Closed(v).facts, malformed) ==
              var n := if malformed then v.malformed else v.oversized; if n == 0 then [] else [1, n]
  {
    ClosedFacts(v);
    var more := v.facts + Closing(v.malformed, v.reportedMalformed, MalformedLine(v.malformed));
    CountsOfAppended(v.facts, MalformedLine(v.malformed), malformed);
    CountsOfAppended(more, OversizedLine(v.oversized), malformed);
    assert v.facts + [] == v.facts && more + [] == more;
  }

  /** However many lines are bad, each kind is journalled at most twice: the first one
      when it happens, and the final count when the collector is closed. */
  lemma DiagnosticsAreBounded(items: seq<Item>, r: Reader)
    ensures var v := OnItems(FRESH, items, r);
            && Counts(Closed(v).facts, true) == (if v.malformed == 0 then [] else [1, v.malformed])
            && Counts(Closed(v).facts, false) == (if v.oversized == 0 then [] else [1, v.oversized])
  {
    ReportsInStep(FRESH, items, r);
    ClosingCounts(OnItems(FRESH, items, r), true);
    ClosingCounts(OnItems(FRESH, items, r), false);
  }
}
