/**
  The whole collector over an attempt: stdout and stderr arrive in any pieces and in
  any order, and what is left at the end depends on the bytes of each stream alone.
*/
module CollectorRuns {
  import opened Bytes
  import opened Framing
  import opened ByteTails
  import opened Collector
  import opened Replies

  datatype State = State(
    frame: Frame, view: View, outTail: Tail, errTail: Tail,
    outOverlap: seq<Byte>, errOverlap: seq<Byte>, authError: bool)

  datatype Input = Out(data: seq<Byte>) | Err(data: seq<Byte>)

  function OnOut(s: State, data: seq<Byte>, limit: nat, r: Reader): State {
    var probe := s.outOverlap + data;
    var (frame, items) := Scan(s.frame, data, limit);
    s.(frame := frame, view := OnItems(s.view, items, r), outTail := Appended(s.outTail, data, PROCESS_TAIL_BYTES),
       outOverlap := Last(probe, |AUTH_ERROR| - 1), authError := s.authError || Occurs(AUTH_ERROR, probe))
  }

  function OnErr(s: State, data: seq<Byte>): State {
    var probe := s.errOverlap + data;
    s.(errTail := Appended(s.errTail, data, PROCESS_TAIL_BYTES),
       errOverlap := Last(probe, |AUTH_ERROR| - 1), authError := s.authError || Occurs(AUTH_ERROR, probe))
  }

  function Fed(s: State, input: Input, limit: nat, r: Reader): State {
    match input
    case Out(data) => OnOut(s, data, limit, r)
    case Err(data) => OnErr(s, data)
  }

  function FedAll(s: State, inputs: seq<Input>, limit: nat, r: Reader): State
    decreases |inputs|
  {
    if inputs == [] then s
    else Fed(FedAll(s, inputs[..|inputs| - 1], limit, r), inputs[|inputs| - 1], limit, r)
  }

  /** Finishing the previous process, then forgetting what belonged to its attempt. */
  function Started(s: State, r: Reader): State {
    s.(frame := EMPTY, view := Attempt(Finish(s.frame, s.view, r)),
       outOverlap := [], errOverlap := [], authError := false)
  }

  function Exited(s: State, r: Reader): State {
    s.(frame := EMPTY, view := Finish(s.frame, s.view, r))
  }

  function Stream(inputs: seq<Input>, out: bool): seq<Byte>
    decreases |inputs|
  {
    if inputs == [] then []
    else
      Stream(inputs[..|inputs| - 1], out)
      + if inputs[|inputs| - 1].Out? == out then inputs[|inputs| - 1].data else []
  }

  // ---- lines and view

  lemma {:induction false} LinesDependOnStdout(s: State, inputs: seq<Input>, limit: nat, r: Reader)
    ensures var t := FedAll(s, inputs, limit, r);
            var (frame, items) := Scan(s.frame, Stream(inputs, true), limit);
            t.frame == frame && t.view == OnItems(s.view, items, r)
    decreases |inputs|
  {
    if inputs != [] {
      var init, input := inputs[..|inputs| - 1], inputs[|inputs| - 1];
      LinesDependOnStdout(s, init, limit, r);
      if input.Out? {
        var before := Scan(s.frame, Stream(init, true), limit);
        var after := Scan(before.0, input.data, limit);
        ScanJoins(s.frame, Stream(init, true), input.data, limit);
        OnItemsJoins(s.view, before.1, after.1, r);
      } else {
        assert Stream(inputs, true) == Stream(init, true);
      }
    }
  }

  // ---- tails

  lemma {:induction false} TailsAreLast(s: State, inputs: seq<Input>, limit: nat, r: Reader)
    requires |s.outTail.data| <= PROCESS_TAIL_BYTES && |s.errTail.data| <= PROCESS_TAIL_BYTES
    ensures var t := FedAll(s, inputs, limit, r);
            && t.outTail.data == Last(s.outTail.data + Stream(inputs, true), PROCESS_TAIL_BYTES)
            && t.errTail.data == Last(s.errTail.data + Stream(inputs, false), PROCESS_TAIL_BYTES)
    decreases |inputs|
  {
    if inputs == [] {
      assert s.outTail.data + [] == s.outTail.data && s.errTail.data + [] == s.errTail.data;
    } else {
      var init, input := inputs[..|inputs| - 1], inputs[|inputs| - 1];
      TailsAreLast(s, init, limit, r);
      var t := FedAll(s, init, limit, r);
      if input.Out? {
        TailStep(t.outTail, s.outTail.data, Stream(init, true), input.data);
        assert Stream(inputs, false) == Stream(init, false);
      } else {
        TailStep(t.errTail, s.errTail.data, Stream(init, false), input.data);
        assert Stream(inputs, true) == Stream(init, true);
      }
    }
  }

  lemma TailStep(t: Tail, start: seq<Byte>, stream: seq<Byte>, chunk: seq<Byte>)
    requires t.data == Last(start + stream, PROCESS_TAIL_BYTES)
    ensures Appended(t, chunk, PROCESS_TAIL_BYTES).data == Last(start + (stream + chunk), PROCESS_TAIL_BYTES)
  {
    AppendedKeepsLast(t, chunk, PROCESS_TAIL_BYTES);
    LastOfLast(start + stream, chunk, PROCESS_TAIL_BYTES);
    assert start + stream + chunk == start + (stream + chunk);
  }

  // ---- the auth probe

  /** The marker is found exactly when it occurs in the stdout or the stderr of the attempt,
      even when it is spread over several chunks; a marker cut across the two streams is not. */
  lemma {:induction false} AuthFlagIsExact(s: State, inputs: seq<Input>, limit: nat, r: Reader)
    requires s.outOverlap == [] && s.errOverlap == [] && !s.authError
    ensures var t := FedAll(s, inputs, limit, r);
            && t.outOverlap == Last(Stream(inputs, true), |AUTH_ERROR| - 1)
            && t.errOverlap == Last(Stream(inputs, false), |AUTH_ERROR| - 1)
            && (t.authError <==> Occurs(AUTH_ERROR, Stream(inputs, true)) || Occurs(AUTH_ERROR, Stream(inputs, false)))
    decreases |inputs|
  {
    if inputs != [] {
      var init, input := inputs[..|inputs| - 1], inputs[|inputs| - 1];
      AuthFlagIsExact(s, init, limit, r);
      var t := FedAll(s, init, limit, r);
      OverlapFindsAll(AUTH_ERROR, Stream(init, input.Out?), input.data);
      LastOfLast(Stream(init, input.Out?), input.data, |AUTH_ERROR| - 1);
      assert Stream(inputs, !input.Out?) == Stream(init, !input.Out?);
    }
  }

  // ---- the attempt

  /** Whatever the chunking and the interleaving, the final state of an attempt is that
      of judging every line of the whole stdout once. */
  lemma AttemptDependsOnBytes(s: State, inputs: seq<Input>, limit: nat, r: Reader)
    ensures var t := FedAll(Started(s, r), inputs, limit, r);
            && |t.frame.line| <= limit
            && Exited(t, r).view == OnItems(Started(s, r).view, JudgedAll(Lines(Stream(inputs, true)), limit), r)
            && (t.authError <==> Occurs(AUTH_ERROR, Stream(inputs, true)) || Occurs(AUTH_ERROR, Stream(inputs, false)))
  {
    var start := Started(s, r);
    LinesDependOnStdout(start, inputs, limit, r);
    ScanFits(EMPTY, Stream(inputs, true), limit);
    FinishedIsSplit(start.view, Stream(inputs, true), limit, r);
    AuthFlagIsExact(start, inputs, limit, r);
  }

  lemma SameBytesSameAttempt(s: State, a: seq<Input>, b: seq<Input>, limit: nat, r: Reader)
    requires Stream(a, true) == Stream(b, true) && Stream(a, false) == Stream(b, false)
    ensures var x, y := Exited(FedAll(Started(s, r), a, limit, r), r), Exited(FedAll(Started(s, r), b, limit, r), r);
            x.view == y.view && x.authError == y.authError && ReplyOf(x.view, r) == ReplyOf(y.view, r)
  {
    AttemptDependsOnBytes(s, a, limit, r);
    AttemptDependsOnBytes(s, b, limit, r);
  }

  /** The prompt is sent again only to a provider whose predecessor is known to have started no tool. */
  lemma ReplayIsSafe(
      s: State, inputs: seq<Input>, limit: nat, r: Reader, exitCode: int, hasFallback: bool, changed: bool,
      expired: bool)
    ensures var v := Exited(FedAll(Started(s, r), inputs, limit, r), r).view;
            var lines := Lines(Stream(inputs, true));
            Fallback(exitCode, hasFallback, changed, v, expired) == Resend <==>
              && exitCode != 0 && hasFallback && !changed && !expired
              && forall i :: 0 <= i < |lines| ==> |lines[i]| <= limit && Harmless(Line(lines[i]), r)
  {
    LinesDependOnStdout(Started(s, r), inputs, limit, r);
    PromptIsResentExactlyWhenHarmless(Finish(s.frame, s.view, r), Stream(inputs, true), limit, r,
                                      exitCode, hasFallback, changed, expired);
  }

  /** What follows an attempt, whatever its exit: its reply if it succeeded; nothing without a
      fallback; a continuation where the session has grown; else the prompt again, unless a line
      of its output leaves it open whether a tool was started. */
  lemma PlanIsExact(
      s: State, inputs: seq<Input>, limit: nat, r: Reader, exitCode: int, hasFallback: bool, changed: bool,
      expired: bool)
    ensures var v := Exited(FedAll(Started(s, r), inputs, limit, r), r).view;
            var lines := Lines(Stream(inputs, true));
            var safe := forall i :: 0 <= i < |lines| ==> |lines[i]| <= limit && Harmless(Line(lines[i]), r);
            match Fallback(exitCode, hasFallback, changed, v, expired)
            case Reply => exitCode == 0
            case NoFallback => exitCode != 0 && !hasFallback
            case Blocked => exitCode != 0 && hasFallback && !changed && !safe
            case OutOfTime => exitCode != 0 && hasFallback && expired && (changed || safe)
            case Continue => exitCode != 0 && hasFallback && changed && !expired
            case Resend => exitCode != 0 && hasFallback && !changed && safe && !expired
  {
    ReplayIsSafe(s, inputs, limit, r, 1, true, false, false);
  }

  /** The reply of the attempt is the choice over all the messages of its stdout. */
  lemma ReplyIsChosen(s: State, inputs: seq<Input>, limit: nat, r: Reader)
    requires r.body("") == ""
    ensures var v := Exited(FedAll(Started(s, r), inputs, limit, r), r).view;
            var items := JudgedAll(Lines(Stream(inputs, true)), limit);
            Chosen(Texts(items, r), Deltas(items, r), ReplyOf(v, r), r)
  {
    AttemptDependsOnBytes(s, inputs, limit, r);
    ReplyIsFullListChoice(Finish(s.frame, s.view, r), JudgedAll(Lines(Stream(inputs, true)), limit), r);
  }
}
