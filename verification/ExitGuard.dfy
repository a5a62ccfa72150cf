/**
  The outcome the exit guard is armed with, said of the messages themselves: it is that of
  the last message that decided, unless something has cleared it since.
*/
module ExitGuard {
  import opened Basics
  import opened Framing
  import opened Collector
  import opened CollectorRuns

  /** The last message of the assistant in this list. */
  predicate LastAssistant(messages: seq<Message>, m: Message) {
    exists q ::
      && 0 <= q < |messages| && messages[q] == m && m.assistant
      && forall p :: q < p < |messages| ==> !messages[p].assistant
  }

  /** The event decides by this message: it ends it, or ends the agent for good and lists it last. */
  predicate Decides(e: Event, m: Message) {
    match e
    case MessageEnd(ended, _) => m == ended && m.assistant
    case AgentEnd(willRetry, messages) => !willRetry && LastAssistant(messages, m)
    case _ => false
  }

  /** A start clears what was decided; so does a retry; and so does any other activity of an
      agent that had ended. */
  predicate Clears(e: Event, ended: bool) {
    || e.AgentStart? || e.TurnStart? || e.MessageStart?
    || (e.AgentEnd? && e.willRetry)
    || (ended && (e.MessageUpdate? || e.ToolExecutionStart?))
  }

  /** An agent has ended for good and has not stirred since. */
  ghost predicate Ended(items: seq<Item>, r: Reader) {
    exists i :: EndedAt(items, i, r)
  }

  /** Item `k` decides by `m`, and no later item decides or clears. */
  ghost predicate DecidedBy(items: seq<Item>, k: int, m: Message, r: Reader) {
    && 0 <= k < |items| && EventOf(items[k], r).Some? && Decides(EventOf(items[k], r).value, m)
    && forall l :: k < l < |items| ==> !Affects(items, l, r)
  }

  ghost predicate Affects(items: seq<Item>, l: int, r: Reader)
    requires 0 <= l < |items|
  {
    && EventOf(items[l], r).Some?
    && var e := EventOf(items[l], r).value;
    Clears(e, Ended(items[..l], r)) || exists m :: Decides(e, m)
  }

  function Judgement(m: Message): Option<Verdict> {
    if m.error then Some(Failure) else if m.stopped then Some(Success) else None
  }

  // ---- one event

  lemma {:induction false} LastAssistantDecides(messages: seq<Message>, otherwise: Option<Verdict>)
    ensures forall m :: LastAssistant(messages, m) ==> LastOutcome(messages, otherwise) == Judgement(m)
    ensures (forall m :: !LastAssistant(messages, m)) ==> LastOutcome(messages, otherwise) == otherwise
    decreases |messages|
  {
    if messages != [] {
      var init, last := messages[..|messages| - 1], messages[|messages| - 1];
      if last.assistant {
        assert messages[|messages| - 1] == last && LastAssistant(messages, last);
      } else {
        LastAssistantDecides(init, otherwise);
        forall m ensures LastAssistant(messages, m) <==> LastAssistant(init, m) {
          if q :| 0 <= q < |messages| && messages[q] == m && m.assistant
                  && forall p :: q < p < |messages| ==> !messages[p].assistant
          {
            assert init[q] == m && forall p :: q < p < |init| ==> !init[p].assistant;
          }
          if q :| 0 <= q < |init| && init[q] == m && m.assistant
                  && forall p :: q < p < |init| ==> !init[p].assistant
          {
            assert messages[q] == m && forall p :: q < p < |messages| ==> !messages[p].assistant;
          }
        }
      }
    }
  }

  lemma EventSetsOutcome(v: View, e: Event, r: Reader)
    requires v.armed ==> v.agentEnded
    ensures forall m :: Decides(e, m) ==> OnEvent(v, e, r).outcome == Judgement(m)
    ensures Clears(e, v.agentEnded) ==> OnEvent(v, e, r).outcome == None
    ensures !Clears(e, v.agentEnded) && (forall m :: !Decides(e, m)) ==> OnEvent(v, e, r).outcome == v.outcome
  {
    if e.AgentEnd? && !e.willRetry {
      LastAssistantDecides(e.messages, Woken(v, e).outcome);
      forall m ensures Decides(e, m) <==> LastAssistant(e.messages, m) {}
      assert Woken(v, e).outcome == v.outcome;
    }
    if e.MessageEnd? && e.message.assistant { assert Decides(e, e.message); }
  }

  // ---- all of them

  ghost predicate OutcomeOf(items: seq<Item>, outcome: Option<Verdict>, r: Reader) {
    && (forall k, m :: DecidedBy(items, k, m, r) ==> outcome == Judgement(m))
    && ((forall k, m :: !DecidedBy(items, k, m, r)) ==> outcome == None)
  }

  lemma DecidedGrows(items: seq<Item>, item: Item, k: int, m: Message, r: Reader)
    ensures var more := items + [item];
            DecidedBy(more, k, m, r) <==>
              || (k == |items| && EventOf(item, r).Some? && Decides(EventOf(item, r).value, m))
              || (DecidedBy(items, k, m, r) && !Affects(more, |items|, r))
  {
    var more := items + [item];
    assert more[|items|] == item;
    forall l | 0 <= l < |items| ensures Affects(more, l, r) <==> Affects(items, l, r) {
      assert more[..l] == items[..l] && more[l] == items[l];
    }
  }

  lemma ItemSetsOutcome(items: seq<Item>, item: Item, v: View, r: Reader)
    requires OutcomeOf(items, v.outcome, r) && (v.armed ==> v.agentEnded) && (v.agentEnded <==> Ended(items, r))
    ensures OutcomeOf(items + [item], OnItem(v, item, r).outcome, r)
  {
    var more, after := items + [item], OnItem(v, item, r).outcome;
    assert more[|items|] == item && more[..|items|] == items;
    forall k, m ensures DecidedBy(more, k, m, r) <==>
                          || (k == |items| && EventOf(item, r).Some? && Decides(EventOf(item, r).value, m))
                          || (DecidedBy(items, k, m, r) && !Affects(more, |items|, r))
    {
      DecidedGrows(items, item, k, m, r);
    }
    if EventOf(item, r) == None {
      assert after == v.outcome && !Affects(more, |items|, r);
    } else {
      var e := EventOf(item, r).value;
      EventSetsOutcome(v, e, r);
      if m :| Decides(e, m) { assert DecidedBy(more, |items|, m, r); }
    }
  }

  lemma ArmedHasEnded(v: View, items: seq<Item>, r: Reader)
    requires !v.agentEnded && !v.armed
    ensures var w := OnItems(v, items, r); (w.armed ==> w.agentEnded) && (w.agentEnded <==> Ended(items, r))
  {
    GuardIsArmedExactly(v, items, r);
    if OnItems(v, items, r).armed {
      var i, k :| SettledAfter(items, i, k, r);
      assert EndedAt(items, i, r);
    }
  }

  /** Whatever the provider prints, the outcome is that of the message decided by last, and
      there is none if nothing was decided since the last clearing. */
  lemma {:induction false} OutcomeIsDecided(v: View, items: seq<Item>, r: Reader)
    requires !v.agentEnded && !v.armed && v.outcome == None
    ensures OutcomeOf(items, OnItems(v, items, r).outcome, r)
    decreases |items|
  {
    if items != [] {
      var init, item := items[..|items| - 1], items[|items| - 1];
      OutcomeIsDecided(v, init, r);
      assert items == init + [item] && OnItems(v, items, r) == OnItem(OnItems(v, init, r), item, r);
      ArmedHasEnded(v, init, r);
      ItemSetsOutcome(init, item, OnItems(v, init, r), r);
    }
  }

  /** In particular of an armed guard: a failure exactly if the deciding message has an error, a
      success exactly if it has none and came to a stop. */
  lemma OutcomeIsThatOfDecidingMessage(v: View, items: seq<Item>, r: Reader)
    requires !v.agentEnded && !v.armed && v.outcome == None
    ensures OnItems(v, items, r).outcome == Some(Failure) <==> exists k, m :: DecidedBy(items, k, m, r) && m.error
    ensures OnItems(v, items, r).outcome == Some(Success) <==>
              exists k, m :: DecidedBy(items, k, m, r) && !m.error && m.stopped
    ensures OnItems(v, items, r).armed <==> exists i, k :: SettledAfter(items, i, k, r)
  {
    OutcomeIsDecided(v, items, r);
    GuardIsArmedExactly(v, items, r);
  }

  /** When the agent ended for good and listed a message of the assistant, and no message has
      ended and nothing has stirred since, that message decides. */
  lemma FinalListDecides(v: View, items: seq<Item>, i: int, m: Message, r: Reader)
    requires !v.agentEnded && !v.armed && v.outcome == None && EndedAt(items, i, r)
    requires LastAssistant(EventOf(items[i], r).value.messages, m)
    requires forall l :: i < l < |items| && EventOf(items[l], r).Some? ==>
               !EventOf(items[l], r).value.MessageEnd? && !EventOf(items[l], r).value.AgentEnd?
    ensures OnItems(v, items, r).outcome ==
              if m.error then Some(Failure) else if m.stopped then Some(Success) else None
  {
    OutcomeIsDecided(v, items, r);
    forall l | i < l < |items| ensures !Affects(items, l, r) { assert !Resumes(items[l], r); }
    assert DecidedBy(items, i, m, r);
  }

  /** Over an attempt, however its output is cut and interleaved with the other stream. */
  lemma AttemptEndsAsDecided(s: State, inputs: seq<Input>, limit: nat, r: Reader)
    ensures var v := Exited(FedAll(Started(s, r), inputs, limit, r), r).view;
            var items := JudgedAll(Lines(Stream(inputs, true)), limit);
            && (v.outcome == Some(Failure) <==> exists k, m :: DecidedBy(items, k, m, r) && m.error)
            && (v.outcome == Some(Success) <==> exists k, m :: DecidedBy(items, k, m, r) && !m.error && m.stopped)
            && (v.armed <==> exists i, k :: SettledAfter(items, i, k, r))
  {
    AttemptDependsOnBytes(s, inputs, limit, r);
    OutcomeIsThatOfDecidingMessage(Started(s, r).view, JudgedAll(Lines(Stream(inputs, true)), limit), r);
  }

  // ---- the journal

  /** What is journalled of an event: the first tool of the run, the end of the agent with the
      outcome there is then, and its settling, with the outcome the guard is armed with. */
  lemma EventIsJournalled(v: View, e: Event, r: Reader)
    ensures var w := OnEvent(v, e, r);
            && w.toolStarted == (v.toolStarted || e.ToolExecutionStart?)
            && w.facts == v.facts
                 + match e
                   case ToolExecutionStart(tool) => if v.toolStarted then [] else [ToolFirstStarted(tool)]
                   case AgentEnd(willRetry, _) => [AgentEnded(willRetry, w.outcome)]
                   case AgentSettled => if v.agentEnded then [Settled, GuardArmed(v.outcome)] else [Settled]
                   case _ => []
  {
    assert Woken(v, e).toolStarted == v.toolStarted && Woken(v, e).facts == v.facts;
  }
}
