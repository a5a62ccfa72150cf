/**
  The reply of an attempt is chosen as its messages stream past, keeping only the last
  one and the best earlier one; the choice is the one made over the full list.
*/
module Replies {
  import opened Bytes
  import opened Framing
  import opened ByteTails
  import opened Collector

  // ---- the choice, from what the collector keeps

  function Spliced(best: string, last: string, r: Reader): string {
    var status := if r.status(best) != "" then r.status(best) else r.status(last);
    if status != "" then r.body(best) + "\n\n" + status else r.body(best)
  }

  predicate Thin(last: string, best: string, r: Reader) {
    && |r.body(last)| <= PI_THIN_TAIL_CHARS < |r.body(best)|
    && |r.body(best)| >= PI_FRAGMENT_RATIO * (if |r.body(last)| > 1 then |r.body(last)| else 1)
  }

  function ReplyOf(v: View, r: Reader): string {
    if v.texts == 0 then r.strip(r.decode(v.delta.data))
    else if v.texts > 1 && Thin(v.lastText, v.bestEarlier, r) then r.strip(Spliced(v.bestEarlier, v.lastText, r))
    else r.strip(v.lastText)
  }

  /** Without a message the deltas are the reply.  A last message of two hundred characters or
      less gives way to an earlier one of more, if that is three times as long, with the status
      line of the earlier one or else of the last; otherwise it is the reply. */
  lemma ThinTailGivesWay(v: View, r: Reader)
    ensures var last, best := r.body(v.lastText), r.body(v.bestEarlier);
            var status := if r.status(v.bestEarlier) != "" then r.status(v.bestEarlier) else r.status(v.lastText);
            ReplyOf(v, r) ==
              if v.texts == 0 then r.strip(r.decode(v.delta.data))
              else if v.texts >= 2 && |last| <= 200 && |best| > 200 && |best| >= 3 * |last| then
                r.strip(if status == "" then best else best + "\n\n" + status)
              else r.strip(v.lastText)
  {
  }

  // ---- the choice, over all messages

  /** Every non-empty assistant message of the attempt, in order. */
  function Texts(items: seq<Item>, r: Reader): seq<string>
    decreases |items|
  {
    if items == [] then []
    else
      var before, e := Texts(items[..|items| - 1], r), EventOf(items[|items| - 1], r);
      if e.Some? && e.value.MessageEnd? && e.value.message.assistant && e.value.text != "" then before + [e.value.text]
      else before
  }

  /** Every text delta, in order. */
  function Deltas(items: seq<Item>, r: Reader): seq<seq<Byte>>
    decreases |items|
  {
    if items == [] then []
    else
      var before, e := Deltas(items[..|items| - 1], r), EventOf(items[|items| - 1], r);
      if e.Some? && e.value.MessageUpdate? then before + [e.value.delta] else before
  }

  predicate FirstLongest(texts: seq<string>, i: nat, r: Reader) {
    && i < |texts|
    && (forall k :: 0 <= k < |texts| ==> |r.body(texts[k])| <= |r.body(texts[i])|)
    && (forall k :: 0 <= k < i ==> |r.body(texts[k])| < |r.body(texts[i])|)
  }

  /** The kept candidate is the first longest text, or nothing if every body is empty. */
  predicate BestOf(texts: seq<string>, best: string, r: Reader) {
    if forall k :: 0 <= k < |texts| ==> r.body(texts[k]) == "" then best == ""
    else exists i :: 0 <= i < |texts| && FirstLongest(texts, i, r) && best == texts[i]
  }

  predicate Kept(v: View, texts: seq<string>, r: Reader) {
    && v.texts == |texts|
    && (texts == [] ==> v.lastText == "" && v.bestEarlier == "")
    && (texts != [] ==> v.lastText == texts[|texts| - 1] && BestOf(texts[..|texts| - 1], v.bestEarlier, r))
  }

  lemma BestGrows(texts: seq<string>, best: string, text: string, r: Reader)
    requires r.body("") == "" && BestOf(texts, best, r)
    ensures BestOf(texts + [text], if |r.body(text)| > |r.body(best)| then text else best, r)
  {
    var more := texts + [text];
    if forall k :: 0 <= k < |texts| ==> r.body(texts[k]) == "" {
      if r.body(text) != "" {
        assert FirstLongest(more, |texts|, r);
        assert r.body(more[|texts|]) != "";
      }
    } else {
      var i :| 0 <= i < |texts| && FirstLongest(texts, i, r) && best == texts[i];
      var k :| 0 <= k < |texts| && r.body(texts[k]) != "";
      assert r.body(more[k]) != "";
      if |r.body(text)| > |r.body(best)| {
        assert FirstLongest(more, |texts|, r) && more[|texts|] == text;
      } else {
        assert FirstLongest(more, i, r) && more[i] == best;
      }
    }
  }

  lemma TextKeepsKept(v: View, texts: seq<string>, text: string, r: Reader)
    requires r.body("") == "" && Kept(v, texts, r)
    ensures Kept(WithText(v, text, r), texts + [text], r)
  {
    assert (texts + [text])[..|texts|] == texts;
    if texts != [] {
      assert texts == texts[..|texts| - 1] + [texts[|texts| - 1]];
      BestGrows(texts[..|texts| - 1], v.bestEarlier, v.lastText, r);
    }
  }

  lemma OtherEventsKeepTexts(v: View, e: Event, r: Reader)
    requires !(e.MessageEnd? && e.message.assistant && e.text != "")
    ensures var w := OnEvent(v, e, r); w.texts == v.texts && w.lastText == v.lastText && w.bestEarlier == v.bestEarlier
  {
    var w := Woken(v, e);
    assert w.texts == v.texts && w.lastText == v.lastText && w.bestEarlier == v.bestEarlier;
  }

  lemma MessageKeepsTexts(v: View, e: Event, r: Reader)
    requires e.MessageEnd? && e.message.assistant && e.text != ""
    ensures var w, x := OnEvent(v, e, r), WithText(v, e.text, r);
            w.texts == x.texts && w.lastText == x.lastText && w.bestEarlier == x.bestEarlier
  {
    var w := Woken(v, e);
    assert w.texts == v.texts && w.lastText == v.lastText && w.bestEarlier == v.bestEarlier;
  }

  lemma {:induction false} TextsAreKept(v: View, items: seq<Item>, r: Reader)
    requires r.body("") == "" && Kept(v, [], r)
    ensures Kept(OnItems(v, items, r), Texts(items, r), r)
    decreases |items|
  {
    if items != [] {
      var init, item := items[..|items| - 1], items[|items| - 1];
      TextsAreKept(v, init, r);
      var u, e := OnItems(v, init, r), EventOf(item, r);
      if e.Some? {
        if e.value.MessageEnd? && e.value.message.assistant && e.value.text != "" {
          MessageKeepsTexts(u, e.value, r);
          TextKeepsKept(u, Texts(init, r), e.value.text, r);
        } else {
          OtherEventsKeepTexts(u, e.value, r);
        }
      }
    }
  }

  lemma DeltaEffect(v: View, e: Event, r: Reader)
    ensures OnEvent(v, e, r).delta == if e.MessageUpdate? then Appended(v.delta, e.delta, DELTA_TAIL_BYTES) else v.delta
  {
    assert Woken(v, e).delta == v.delta;
  }

  lemma {:induction false} DeltasAreKept(v: View, items: seq<Item>, r: Reader)
    ensures OnItems(v, items, r).delta == AppendedAll(v.delta, Deltas(items, r), DELTA_TAIL_BYTES)
    decreases |items|
  {
    if items != [] {
      var init, item := items[..|items| - 1], items[|items| - 1];
      DeltasAreKept(v, init, r);
      var e := EventOf(item, r);
      if e.Some? { DeltaEffect(OnItems(v, init, r), e.value, r); }
      if e.Some? && e.value.MessageUpdate? {
        assert Deltas(items, r)[..|Deltas(init, r)|] == Deltas(init, r);
      }
    }
  }

  /** The reply, said of the full list of messages. */
  ghost predicate Chosen(texts: seq<string>, deltas: seq<seq<Byte>>, reply: string, r: Reader) {
    if texts == [] then reply == r.strip(r.decode(Last(Concat(deltas), DELTA_TAIL_BYTES)))
    else
      var n := |texts| - 1;
      var earlier, last := texts[..n], texts[n];
      if exists i: nat :: FirstLongest(earlier, i, r) && Thin(last, earlier[i], r) then
        exists i: nat ::
          && FirstLongest(earlier, i, r) && Thin(last, earlier[i], r)
          && reply == r.strip(Spliced(earlier[i], last, r))
      else reply == r.strip(last)
  }

  lemma ReplyIsFullListChoice(v: View, items: seq<Item>, r: Reader)
    requires r.body("") == ""
    ensures Chosen(Texts(items, r), Deltas(items, r), ReplyOf(OnItems(Attempt(v), items, r), r), r)
  {
    TextsAreKept(Attempt(v), items, r);
    DeltasAreKept(Attempt(v), items, r);
    TailIsLastOfStream(Deltas(items, r), DELTA_TAIL_BYTES);
    var w := OnItems(Attempt(v), items, r);
    var texts := Texts(items, r);
    if texts != [] {
      KeptIsChosen(texts, w.bestEarlier, r);
    }
  }

  /** Whether there is a thin tail, and with what it is replaced, is settled by the kept candidate. */
  lemma KeptIsChosen(texts: seq<string>, best: string, r: Reader)
    requires r.body("") == "" && texts != [] && BestOf(texts[..|texts| - 1], best, r)
    ensures var earlier, last := texts[..|texts| - 1], texts[|texts| - 1];
            && (Thin(last, best, r) <==> exists i: nat :: FirstLongest(earlier, i, r) && Thin(last, earlier[i], r))
            && (forall i: nat :: FirstLongest(earlier, i, r) && Thin(last, earlier[i], r) ==> earlier[i] == best)
            && (Thin(last, best, r) ==> |texts| > 1)
  {
    var earlier, last := texts[..|texts| - 1], texts[|texts| - 1];
    forall i: nat, k: nat | FirstLongest(earlier, i, r) && FirstLongest(earlier, k, r) ensures i == k {
      assert |r.body(earlier[i])| == |r.body(earlier[k])|;
    }
  }
}
