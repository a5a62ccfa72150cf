/**
  PiStreamCollector: bytes in, fields updated in place.  Each method is proved to do to
  the fields what the functions of Collector and CollectorRuns say.
*/
module PiCollector {
  import opened Basics
  import opened Bytes
  import opened Framing
  import opened ByteTails
  import opened Collector
  import opened Replies
  import opened CollectorRuns

  /** The first newline at or after `offset`; -1 if there is none. */
  method FindNewline(data: seq<Byte>, offset: nat) returns (index: int)
    requires offset <= |data|
    ensures index < 0 ==> NEWLINE !in data[offset..]
    ensures 0 <= index ==> offset <= index < |data| && data[index] == NEWLINE && NEWLINE !in data[offset..index]
  {
    index := offset;
    while index < |data|
      invariant offset <= index <= |data| && NEWLINE !in data[offset..index]
    {
      if data[index] == NEWLINE { return; }
      assert data[offset..index + 1] == data[offset..index] + [data[index]];
      index := index + 1;
    }
    assert data[offset..index] == data[offset..];
    index := -1;
  }

  class PiStreamCollector {
    const limit: nat
    const reader: Reader
    const stdoutTail: ByteTail
    const stderrTail: ByteTail

    var line: seq<Byte>
    var discarding: bool
    var malformedLines: nat
    var oversizedLines: nat
    var reportedMalformed: nat
    var reportedOversized: nat
    var lastText: string
    var bestEarlier: string
    var textCount: nat
    var deltaTail: ByteTail
    var toolStarted: bool
    var attemptToolStarted: bool
    var attemptSafetyUnknown: bool
    var authErrorSeen: bool
    var terminalAgentEnd: bool
    var deadlineSet: bool
    var outcome: Option<Verdict>
    var stdoutOverlap: seq<Byte>
    var stderrOverlap: seq<Byte>
    var journal: seq<Fact>

    ghost predicate Valid()
      reads this, deltaTail
    {
      && stdoutTail != stderrTail && stdoutTail != deltaTail && stderrTail != deltaTail
      && stdoutTail.capacity == PROCESS_TAIL_BYTES && stderrTail.capacity == PROCESS_TAIL_BYTES
      && deltaTail.capacity == DELTA_TAIL_BYTES
      && Fits(Frame(line, discarding), limit)
    }

    ghost function Seen(): View
      reads this, deltaTail
    {
      View(lastText, bestEarlier, textCount, deltaTail.Contents(),
           toolStarted, attemptToolStarted, attemptSafetyUnknown, terminalAgentEnd, deadlineSet, outcome,
           malformedLines, oversizedLines, reportedMalformed, reportedOversized, journal)
    }

    ghost function Contents(): State
      reads this, deltaTail, stdoutTail, stderrTail
    {
      State(Frame(line, discarding), Seen(), stdoutTail.Contents(), stderrTail.Contents(),
            stdoutOverlap, stderrOverlap, authErrorSeen)
    }

    constructor (limit: nat, reader: Reader)
      ensures Valid() && fresh(stdoutTail) && fresh(stderrTail) && fresh(deltaTail)
      ensures this.limit == limit && this.reader == reader
      ensures Contents() == State(EMPTY, FRESH, Tail([], false), Tail([], false), [], [], false)
    {
      this.limit, this.reader := limit, reader;
      stdoutTail := new ByteTail(PROCESS_TAIL_BYTES);
      stderrTail := new ByteTail(PROCESS_TAIL_BYTES);
      deltaTail := new ByteTail(DELTA_TAIL_BYTES);
      line, discarding := [], false;
      malformedLines, oversizedLines, reportedMalformed, reportedOversized := 0, 0, 0, 0;
      lastText, bestEarlier, textCount := "", "", 0;
      toolStarted, attemptToolStarted, attemptSafetyUnknown, authErrorSeen := false, false, false, false;
      terminalAgentEnd, deadlineSet, outcome := false, false, None;
      stdoutOverlap, stderrOverlap, journal := [], [], [];
    }

    method CancelGuard()
      requires Valid()
      modifies this`terminalAgentEnd, this`deadlineSet, this`outcome
      ensures Valid() && Seen() == Disarmed(old(Seen()))
    {
      terminalAgentEnd := false;
      deadlineSet := false;
      outcome := None;
    }

    method Wake(e: Event)
      requires Valid()
      modifies this`terminalAgentEnd, this`deadlineSet, this`outcome
      ensures Valid() && Seen() == Woken(old(Seen()), e)
    {
      if (terminalAgentEnd || deadlineSet) && Activity(e) {
        CancelGuard();
      } else if e.AgentStart? || e.TurnStart? || e.MessageStart? {
        outcome := None;
      }
    }

    method EndMessage(message: Message, text: string)
      requires Valid()
      modifies this`lastText, this`bestEarlier, this`textCount, this`outcome
      ensures Valid() && Seen() == Noted(old(Seen()), MessageEnd(message, text), reader)
    {
      assert journal + [] == journal;
      if !message.assistant {
        return;
      }
      outcome := AssistantOutcome(message);
      if text == "" {
        return;
      }
      if textCount > 0 && |reader.body(lastText)| > |reader.body(bestEarlier)| {
        bestEarlier := lastText;
      }
      lastText := text;
      textCount := textCount + 1;
    }

    method StartTool(tool: string)
      requires Valid()
      modifies this`toolStarted, this`attemptToolStarted, this`journal
      ensures Valid() && Seen() == Noted(old(Seen()), ToolExecutionStart(tool), reader)
    {
      attemptToolStarted := true;
      if !toolStarted {
        toolStarted := true;
        journal := journal + [ToolFirstStarted(tool)];
      }
    }

    method EndAgent(willRetry: bool, messages: seq<Message>)
      requires Valid()
      modifies this`terminalAgentEnd, this`deadlineSet, this`outcome, this`journal
      ensures Valid() && Seen() == Noted(old(Seen()), AgentEnd(willRetry, messages), reader)
    {
      if willRetry {
        CancelGuard();
      } else {
        terminalAgentEnd := true;
        outcome := FindOutcome(messages, outcome);
      }
      journal := journal + [AgentEnded(willRetry, outcome)];
    }

    method Settle()
      requires Valid()
      modifies this`deadlineSet, this`journal
      ensures Valid() && Seen() == Noted(old(Seen()), AgentSettled, reader)
    {
      journal := journal + [Settled];
      if terminalAgentEnd {
        deadlineSet := true;
        journal := journal + [GuardArmed(outcome)];
        assert old(journal) + [Settled] + [GuardArmed(outcome)] == old(journal) + [Settled, GuardArmed(outcome)];
      }
    }

    method UpdateMessage(delta: seq<Byte>)
      requires Valid()
      modifies deltaTail
      ensures Valid() && Seen() == Noted(old(Seen()), MessageUpdate(delta), reader)
    {
      assert journal + [] == journal;
      deltaTail.Append(delta);
    }

    method ConsumeEvent(e: Event)
      requires Valid()
      modifies this`lastText, this`bestEarlier, this`textCount, this`toolStarted, this`attemptToolStarted,
               this`terminalAgentEnd, this`deadlineSet, this`outcome, this`journal, deltaTail
      ensures Valid() && Seen() == OnEvent(old(Seen()), e, reader)
    {
      Wake(e);
      assert OnEvent(old(Seen()), e, reader) == Noted(Seen(), e, reader);
      match e
      case MessageUpdate(delta) => UpdateMessage(delta);
      case MessageEnd(message, text) => EndMessage(message, text);
      case ToolExecutionStart(tool) => StartTool(tool);
      case AgentEnd(willRetry, messages) => EndAgent(willRetry, messages);
      case AgentSettled => Settle();
      case _ => assert journal + [] == journal;
    }

    /** The outcome of the last message of the assistant. */
    static method FindOutcome(messages: seq<Message>, otherwise: Option<Verdict>) returns (found: Option<Verdict>)
      ensures found == LastOutcome(messages, otherwise)
    {
      var i := |messages|;
      assert messages[..i] == messages;
      while i > 0
        invariant 0 <= i <= |messages| && LastOutcome(messages, otherwise) == LastOutcome(messages[..i], otherwise)
      {
        i := i - 1;
        if messages[i].assistant { return AssistantOutcome(messages[i]); }
        assert messages[..i + 1][..i] == messages[..i];
      }
      found := otherwise;
    }

    method Report(malformed: bool, final: bool)
      requires Valid()
      modifies this`journal, this`reportedMalformed, this`reportedOversized
      ensures Valid()
      ensures var n := if malformed then malformedLines else oversizedLines;
              var reported := old(if malformed then reportedMalformed else reportedOversized);
              var due := n == 1 || (final && n != reported);
              Seen() == if !due then old(Seen())
                        else if malformed then
                          old(Seen()).(facts := old(journal) + [MalformedLine(n)], reportedMalformed := n)
                        else old(Seen()).(facts := old(journal) + [OversizedLine(n)], reportedOversized := n)
    {
      if malformed {
        if malformedLines == 1 || (final && malformedLines != reportedMalformed) {
          journal := journal + [MalformedLine(malformedLines)];
          reportedMalformed := malformedLines;
        }
      } else if oversizedLines == 1 || (final && oversizedLines != reportedOversized) {
        journal := journal + [OversizedLine(oversizedLines)];
        reportedOversized := oversizedLines;
      }
    }

    method RecordMalformedLine()
      requires Valid()
      modifies this`malformedLines, this`attemptSafetyUnknown, this`journal, this`reportedMalformed,
          this`reportedOversized
      ensures Valid() && Seen() == Malformed(old(Seen()))
    {
      malformedLines := malformedLines + 1;
      attemptSafetyUnknown := true;
      Report(true, false);
    }

    method ConsumeLine(bytes: seq<Byte>)
      requires Valid()
      modifies this`lastText, this`bestEarlier, this`textCount, this`toolStarted, this`attemptToolStarted,
               this`terminalAgentEnd, this`deadlineSet, this`outcome, this`journal, deltaTail,
               this`malformedLines, this`attemptSafetyUnknown, this`reportedMalformed, this`reportedOversized
      ensures Valid() && Seen() == OnLine(old(Seen()), bytes, reader)
    {
      if Blank(bytes) {
        return;
      }
      var event := reader.parse(bytes);
      if event == None {
        RecordMalformedLine();
      } else {
        ConsumeEvent(event.value);
      }
    }

    method RejectOversized()
      requires Valid()
      modifies this`oversizedLines, this`attemptSafetyUnknown, this`journal, this`reportedMalformed,
          this`reportedOversized
      ensures Valid() && Seen() == Overlong(old(Seen()))
    {
      oversizedLines := oversizedLines + 1;
      attemptSafetyUnknown := true;
      Report(false, false);
    }

    /** The part of a chunk up to a newline, or up to the end of the chunk. */
    method TakeSegment(segment: seq<Byte>, ended: bool)
      requires Valid() && !discarding
      modifies this, deltaTail
      ensures Valid() && deltaTail == old(deltaTail)
      ensures stdoutTail.Contents() == old(stdoutTail.Contents()) && stderrTail.Contents() == old(stderrTail.Contents())
      ensures stdoutOverlap == old(stdoutOverlap) && stderrOverlap == old(stderrOverlap)
                && authErrorSeen == old(authErrorSeen)
      ensures Frame(line, discarding) ==
                if |old(line)| + |segment| > limit then Frame([], !ended)
                else if ended then EMPTY else Frame(old(line) + segment, false)
      ensures Seen() ==
                if |old(line)| + |segment| > limit then Overlong(old(Seen()))
                else if ended then OnLine(old(Seen()), old(line) + segment, reader) else old(Seen())
    {
      if |line| + |segment| > limit {
        line := [];
        discarding := !ended;
        assert Seen() == old(Seen());
        RejectOversized();
      } else {
        line := line + segment;
        assert Seen() == old(Seen());
        if ended {
          ConsumeLine(line);
          line := [];
        }
      }
    }

    method FeedLines(data: seq<Byte>)
      requires Valid()
      modifies this, deltaTail
      ensures Valid() && deltaTail == old(deltaTail)
      ensures var (frame, items) := Scan(old(Frame(line, discarding)), data, limit);
              Contents() == old(Contents()).(frame := frame, view := OnItems(old(Seen()), items, reader))
    {
      ghost var f0, v0 := Frame(line, discarding), Seen();
      ghost var s0 := Contents();
      var offset := 0;
      while offset < |data|
        invariant 0 <= offset <= |data| && Valid() && deltaTail == old(deltaTail)
        invariant Scanned(f0, v0, data[..offset], limit, reader, Frame(line, discarding), Seen())
        invariant Contents() == s0.(frame := Frame(line, discarding), view := Seen())
        decreases |data| - offset
      {
        var newline := FindNewline(data, offset);
        var end := if newline < 0 then |data| else newline;
        StretchAndEnd(f0, Frame(line, discarding), v0, Seen(), data, offset, end, limit, reader);
        if discarding {
          if newline >= 0 {
            discarding := false;
          }
        } else {
          TakeSegment(data[offset..end], newline >= 0);
        }
        if newline < 0 {
          assert data[..end] == data;
          return;
        }
        offset := newline + 1;
      }
      assert data[..offset] == data;
    }

    method ProbeAuth(data: seq<Byte>, stdout: bool)
      requires Valid()
      modifies this`authErrorSeen, this`stdoutOverlap, this`stderrOverlap
      ensures Valid()
      ensures var probe := old(if stdout then stdoutOverlap else stderrOverlap) + data;
              && authErrorSeen == (old(authErrorSeen) || Occurs(AUTH_ERROR, probe))
              && stdoutOverlap == (if stdout then Last(probe, |AUTH_ERROR| - 1) else old(stdoutOverlap))
              && stderrOverlap == (if stdout then old(stderrOverlap) else Last(probe, |AUTH_ERROR| - 1))
    {
      var probe := (if stdout then stdoutOverlap else stderrOverlap) + data;
      if Occurs(AUTH_ERROR, probe) {
        authErrorSeen := true;
      }
      var keep := |AUTH_ERROR| - 1;
      var overlap := if |probe| <= keep then probe else probe[|probe| - keep..];
      if stdout {
        stdoutOverlap := overlap;
      } else {
        stderrOverlap := overlap;
      }
    }

    method Feed(data: seq<Byte>)
      requires Valid()
      modifies this, deltaTail, stdoutTail
      ensures Valid() && deltaTail == old(deltaTail)
      ensures Contents() == OnOut(old(Contents()), data, limit, reader)
    {
      ProbeAuth(data, true);
      if data == [] {
        return;
      }
      stdoutTail.Append(data);
      FeedLines(data);
    }

    method FeedStderr(data: seq<Byte>)
      requires Valid()
      modifies this, stderrTail
      ensures Valid() && deltaTail == old(deltaTail)
      ensures Contents() == OnErr(old(Contents()), data)
    {
      ProbeAuth(data, false);
      if data == [] {
        return;
      }
      stderrTail.Append(data);
    }

    method FinishStdout()
      requires Valid()
      modifies this, deltaTail
      ensures Valid() && deltaTail == old(deltaTail)
      ensures Contents() == Exited(old(Contents()), reader)
    {
      if line != [] && !discarding {
        ConsumeLine(line);
      }
      line := [];
      discarding := false;
    }

    method ResetAttempt()
      requires Valid()
      modifies this`lastText, this`bestEarlier, this`textCount, this`deltaTail, this`attemptToolStarted,
          this`attemptSafetyUnknown,
               this`terminalAgentEnd, this`deadlineSet, this`outcome
      ensures Valid() && fresh(deltaTail)
      ensures Seen() == Attempt(old(Seen()))
    {
      CancelGuard();
      lastText, bestEarlier, textCount := "", "", 0;
      deltaTail := new ByteTail(DELTA_TAIL_BYTES);
      attemptToolStarted, attemptSafetyUnknown := false, false;
    }

    method StartAttempt()
      requires Valid()
      modifies this, deltaTail
      ensures Valid() && fresh(deltaTail)
      ensures Contents() == Started(old(Contents()), reader)
    {
      FinishStdout();
      ResetAttempt();
      authErrorSeen := false;
      stdoutOverlap, stderrOverlap := [], [];
    }

    method Close()
      requires Valid()
      modifies this, deltaTail
      ensures Valid() && deltaTail == old(deltaTail)
      ensures Seen() == Closed(Finish(old(Frame(line, discarding)), old(Seen()), reader))
    {
      FinishStdout();
      Report(true, true);
      Report(false, true);
    }

    method ExtractReply() returns (reply: string)
      requires Valid()
      ensures reply == ReplyOf(Seen(), reader)
    {
      if textCount == 0 {
        return reader.strip(reader.decode(deltaTail.data));
      }
      reply := lastText;
      var lastBody := reader.body(reply);
      if |lastBody| <= PI_THIN_TAIL_CHARS && textCount > 1 {
        var bestBody := reader.body(bestEarlier);
        if |bestBody| > PI_THIN_TAIL_CHARS
           && |bestBody| >= PI_FRAGMENT_RATIO * (if |lastBody| > 1 then |lastBody| else 1)
        {
          var status := reader.status(bestEarlier);
          if status == "" { status := reader.status(reply); }
          reply := if status != "" then bestBody + "\n\n" + status else bestBody;
        }
      }
      reply := reader.strip(reply);
    }
  }

  /** Where the scan of `data` from frame f0 and view v0 has got to. */
  ghost predicate Scanned(f0: Frame, v0: View, data: seq<Byte>, limit: nat, r: Reader, f: Frame, v: View) {
    f == Scan(f0, data, limit).0 && v == OnItems(v0, Scan(f0, data, limit).1, r)
  }

  /** An event that finds the guard already woken. */
  function Noted(w: View, e: Event, r: Reader): View {
    var x := Moved(w, e, r);
    x.(facts := w.facts + Said(w, x, e))
  }

  // ---- the pieces of a chunk

  /** A stretch of data without a newline, from `a` to `b`. */
  lemma Stretch(f0: Frame, f: Frame, v0: View, v: View, data: seq<Byte>, a: nat, b: nat, limit: nat, r: Reader)
    requires a <= b <= |data| && NEWLINE !in data[a..b] && Fits(f, limit)
    requires Scanned(f0, v0, data[..a], limit, r, f, v)
    ensures if f.discarding then Scanned(f0, v0, data[..b], limit, r, f, v)
            else if |f.line| + (b - a) > limit then Scanned(f0, v0, data[..b], limit, r, Frame([], true), Overlong(v))
            else Scanned(f0, v0, data[..b], limit, r, Frame(f.line + data[a..b], false), v)
  {
    var before := Scan(f0, data[..a], limit).1;
    assert data[..b] == data[..a] + data[a..b];
    ScanJoins(f0, data[..a], data[a..b], limit);
    assert before + [] == before;
    if f.discarding {
      ScanDiscards(f, data[a..b], limit);
    } else if |f.line| + (b - a) > limit {
      ScanOverflows(f, data[a..b], limit);
      OneItem(v0, before, Oversized, r);
    } else {
      ScanExtends(f, data[a..b], limit);
    }
  }

  lemma OneItem(v: View, items: seq<Item>, item: Item, r: Reader)
    ensures OnItems(v, items + [item], r) == OnItem(OnItems(v, items, r), item, r)
  {
    assert (items + [item])[..|items|] == items;
  }

  /** The newline at `i`. */
  lemma LineEnd(f0: Frame, v0: View, data: seq<Byte>, i: nat, limit: nat, r: Reader, f: Frame, v: View)
    requires i < |data| && data[i] == NEWLINE && Scanned(f0, v0, data[..i], limit, r, f, v)
    ensures Scanned(f0, v0, data[..i + 1], limit, r, EMPTY, if f.discarding then v else OnLine(v, f.line, r))
  {
    var before := Scan(f0, data[..i], limit).1;
    assert data[..i + 1][..i] == data[..i];
    assert before + [] == before;
    OneItem(v0, before, Line(f.line), r);
  }

  /** A stretch and, unless the chunk ends there, the newline that ends it. */
  lemma StretchAndEnd(f0: Frame, f: Frame, v0: View, v: View, data: seq<Byte>, a: nat, b: nat, limit: nat, r: Reader)
    requires a <= b <= |data| && NEWLINE !in data[a..b] && Fits(f, limit)
    requires b < |data| ==> data[b] == NEWLINE
    requires Scanned(f0, v0, data[..a], limit, r, f, v)
    ensures var end := if b < |data| then b + 1 else b;
            var ended := b < |data|;
            if f.discarding then Scanned(f0, v0, data[..end], limit, r, if ended then EMPTY else f, v)
            else if |f.line| + (b - a) > limit then
              Scanned(f0, v0, data[..end], limit, r, Frame([], !ended), Overlong(v))
            else Scanned(f0, v0, data[..end], limit, r, if ended then EMPTY else Frame(f.line + data[a..b], false),
                         if ended then OnLine(v, f.line + data[a..b], r) else v)
  {
    Stretch(f0, f, v0, v, data, a, b, limit, r);
    if b < |data| {
      if f.discarding {
        LineEnd(f0, v0, data, b, limit, r, f, v);
      } else if |f.line| + (b - a) > limit {
        LineEnd(f0, v0, data, b, limit, r, Frame([], true), Overlong(v));
      } else {
        LineEnd(f0, v0, data, b, limit, r, Frame(f.line + data[a..b], false), v);
      }
    }
  }
}
