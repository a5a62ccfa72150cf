/**
  The trace log of the fleet view: rendered chunks become lines, and the oldest lines
  are dropped to keep within a number of lines and a number of characters.
*/
module FleetLogs {
  import opened Basics
  import opened Bytes

  datatype Chunk = Chunk(text: string, endLine: bool)

  datatype Limits = Limits(maxLines: Option<int>, maxChars: Option<int>)

  datatype Log = Log(lines: seq<string>, partial: string, chars: int)

  const EMPTY := Log([], "", 0)

  // ---- feeding

  function Committed(l: Log): Log {
    Log(l.lines + [l.partial], "", l.chars + |l.partial|)
  }

  /** The parts of a chunk between its newlines. */
  function WithParts(l: Log, parts: seq<string>): Log
    requires |parts| > 0
    decreases |parts|
  {
    if |parts| == 1 then l.(partial := l.partial + parts[0])
    else
      var before := Committed(WithParts(l, parts[..|parts| - 1]));
      before.(partial := parts[|parts| - 1])
  }

  function Untrimmed(l: Log, c: Chunk): Log {
    var fed := WithParts(l, Split(c.text, '\n'));
    if c.endLine then Committed(fed) else fed
  }

  predicate TooBig(l: Log, limits: Limits) {
    || (limits.maxLines.Some? && |l.lines| > limits.maxLines.value)
    || (limits.maxChars.Some? && l.chars + |l.partial| > limits.maxChars.value)
  }

  function Popped(l: Log): Log
    requires l.lines != []
  {
    l.(lines := l.lines[1..], chars := l.chars - |l.lines[0]|)
  }

  function Dropped(l: Log, limits: Limits): Log
    decreases |l.lines|
  {
    if l.lines != [] && TooBig(l, limits) then Dropped(Popped(l), limits) else l
  }

  /** The slice that starts `n` from the end; of no characters it takes them all, and a
      negative `n` counts from the front. */
  function Sliced(s: string, n: int): string {
    if n > 0 then Last(s, n) else if |s| <= -n then "" else s[-n..]
  }

  function Cut(l: Log, limits: Limits): Log {
    if limits.maxChars.Some? && |l.partial| > limits.maxChars.value
    then l.(partial := Sliced(l.partial, limits.maxChars.value))
    else l
  }

  function Trimmed(l: Log, limits: Limits): Log {
    Cut(Dropped(l, limits), limits)
  }

  datatype Input = Feed(chunk: Chunk) | SetLimits(limits: Limits) | Clear

  /** The log together with its limits. */
  function After(l: Log, limits: Limits, input: Input): (Log, Limits) {
    match input
    case Feed(c) => (Trimmed(Untrimmed(l, c), limits), limits)
    case SetLimits(changed) => (Trimmed(l, changed), changed)
    case Clear => (EMPTY, limits)
  }

  function AfterAll(l: Log, limits: Limits, inputs: seq<Input>): (Log, Limits)
    decreases |inputs|
  {
    if inputs == [] then (l, limits)
    else
      var (k, lims) := AfterAll(l, limits, inputs[..|inputs| - 1]);
      After(k, lims, inputs[|inputs| - 1])
  }

  // ---- what a log says

  function Total(lines: seq<string>): nat
    decreases |lines|
  {
    if lines == [] then 0 else |lines[0]| + Total(lines[1..])
  }

  lemma {:induction false} TotalOfAppended(lines: seq<string>, line: string)
    ensures Total(lines + [line]) == Total(lines) + |line|
    decreases |lines|
  {
    if lines == [] {
      assert lines + [line] == [line];
    } else {
      assert (lines + [line])[1..] == lines[1..] + [line];
      TotalOfAppended(lines[1..], line);
    }
  }

  function Text(l: Log): string {
    Join(l.lines + [l.partial], '\n')
  }

  predicate Plain(l: Log) {
    '\n' !in l.partial && forall i :: 0 <= i < |l.lines| ==> '\n' !in l.lines[i]
  }

  predicate Sound(l: Log) {
    l.chars == Total(l.lines) && Plain(l)
  }

  predicate LinesWithin(l: Log, limits: Limits) {
    limits.maxLines.Some? ==> l.lines == [] || |l.lines| <= limits.maxLines.value
  }

  predicate CharsWithin(l: Log, limits: Limits) {
    limits.maxChars.Some? ==> l.chars + |l.partial| <= limits.maxChars.value
  }

  predicate Within(l: Log, limits: Limits) {
    LinesWithin(l, limits) && (limits.maxChars.Some? && limits.maxChars.value > 0 ==> CharsWithin(l, limits))
  }

  predicate IsSuffix(s: string, t: string) {
    |s| <= |t| && t[|t| - |s|..] == s
  }

  // ---- joining

  lemma JoinAppended(pieces: seq<string>, last: string, more: string)
    ensures Join(pieces + [last + more], '\n') == Join(pieces + [last], '\n') + more
  {
    assert (pieces + [last + more])[..|pieces|] == pieces && (pieces + [last])[..|pieces|] == pieces;
    if pieces != [] {
      assert Join(pieces, '\n') + ['\n'] + (last + more) == Join(pieces, '\n') + ['\n'] + last + more;
    }
  }

  lemma JoinBroken(pieces: seq<string>)
    requires |pieces| > 0
    ensures Join(pieces + [""], '\n') == Join(pieces, '\n') + "\n"
  {
    assert (pieces + [""])[..|pieces|] == pieces;
  }

  lemma {:induction false} JoinFirst(first: string, rest: seq<string>)
    requires |rest| > 0
    ensures Join([first] + rest, '\n') == first + "\n" + Join(rest, '\n')
    decreases |rest|
  {
    var all := [first] + rest;
    if |rest| == 1 {
      assert all[..1] == [first];
    } else {
      var init := rest[..|rest| - 1];
      assert all[..|all| - 1] == [first] + init;
      JoinFirst(first, init);
      assert first + "\n" + Join(init, '\n') + ['\n'] + rest[|rest| - 1]
               == first + "\n" + (Join(init, '\n') + ['\n'] + rest[|rest| - 1]);
    }
  }

  // ---- feeding appends the chunk's text

  lemma CommitAppends(l: Log)
    requires Sound(l)
    ensures Sound(Committed(l)) && Text(Committed(l)) == Text(l) + "\n"
  {
    TotalOfAppended(l.lines, l.partial);
    JoinBroken(l.lines + [l.partial]);
  }

  lemma {:induction false} PartsAppend(l: Log, parts: seq<string>)
    requires Sound(l) && |parts| > 0 && forall i :: 0 <= i < |parts| ==> '\n' !in parts[i]
    ensures Sound(WithParts(l, parts)) && Text(WithParts(l, parts)) == Text(l) + Join(parts, '\n')
    decreases |parts|
  {
    if |parts| == 1 {
      JoinAppended(l.lines, l.partial, parts[0]);
    } else {
      var init, last := parts[..|parts| - 1], parts[|parts| - 1];
      PartsAppend(l, init);
      var before := Committed(WithParts(l, init));
      CommitAppends(WithParts(l, init));
      JoinAppended(before.lines, "", last);
      assert "" + last == last;
      assert Text(l) + Join(init, '\n') + "\n" + last == Text(l) + (Join(init, '\n') + ['\n'] + last);
    }
  }

  function Said(c: Chunk): string {
    if c.endLine then c.text + "\n" else c.text
  }

  lemma FeedAppends(l: Log, c: Chunk)
    requires Sound(l)
    ensures Sound(Untrimmed(l, c)) && Text(Untrimmed(l, c)) == Text(l) + Said(c)
  {
    SplitDivides(c.text, '\n');
    PartsAppend(l, Split(c.text, '\n'));
    if c.endLine {
      CommitAppends(WithParts(l, Split(c.text, '\n')));
      assert Text(l) + c.text + "\n" == Text(l) + (c.text + "\n");
    }
  }

  // ---- trimming drops from the front, and no more than it must

  lemma PopIsSuffix(l: Log)
    requires Sound(l) && l.lines != []
    ensures Sound(Popped(l)) && IsSuffix(Text(Popped(l)), Text(l))
  {
    assert l.lines + [l.partial] == [l.lines[0]] + (l.lines[1..] + [l.partial]);
    JoinFirst(l.lines[0], l.lines[1..] + [l.partial]);
  }

  lemma SuffixIsTransitive(a: string, b: string, c: string)
    requires IsSuffix(a, b) && IsSuffix(b, c)
    ensures IsSuffix(a, c)
  {
  }

  lemma {:induction false} DropIsSuffix(l: Log, limits: Limits)
    requires Sound(l)
    ensures var d := Dropped(l, limits);
            && Sound(d) && IsSuffix(Text(d), Text(l)) && d.partial == l.partial
            && (d.lines == [] || !TooBig(d, limits))
    decreases |l.lines|
  {
    if l.lines != [] && TooBig(l, limits) {
      PopIsSuffix(l);
      DropIsSuffix(Popped(l), limits);
      SuffixIsTransitive(Text(Dropped(l, limits)), Text(Popped(l)), Text(l));
    }
  }

  lemma CutIsSuffix(l: Log, limits: Limits)
    requires Sound(l) && (l.lines == [] || !TooBig(l, limits))
    ensures var d := Cut(l, limits); Sound(d) && IsSuffix(Text(d), Text(l)) && Within(d, limits)
  {
    if limits.maxChars.Some? && |l.partial| > limits.maxChars.value {
      assert [] + [l.partial] == [l.partial];
    }
  }

  /** Trimming gets within a limit of characters exactly if the limit is positive, or is
      zero with nothing in the last line: a zero cuts nothing off it. */
  lemma CharsAreLimitedExactly(l: Log, limits: Limits)
    requires Sound(l) && limits.maxChars.Some?
    ensures CharsWithin(Trimmed(l, limits), limits)
            <==> limits.maxChars.value > 0 || (limits.maxChars.value == 0 && l.partial == "")
  {
    TrimIsSuffix(l, limits);
    DropIsSuffix(l, limits);
  }

  lemma TrimIsSuffix(l: Log, limits: Limits)
    requires Sound(l)
    ensures var d := Trimmed(l, limits); Sound(d) && IsSuffix(Text(d), Text(l)) && Within(d, limits)
  {
    DropIsSuffix(l, limits);
    CutIsSuffix(Dropped(l, limits), limits);
    SuffixIsTransitive(Text(Trimmed(l, limits)), Text(Dropped(l, limits)), Text(l));
  }

  lemma {:induction false} DropKeepsNewest(l: Log, limits: Limits)
    requires Sound(l)
    ensures |Dropped(l, limits).lines| <= |l.lines|
    ensures Dropped(l, limits).lines == l.lines[|l.lines| - |Dropped(l, limits).lines|..]
    decreases |l.lines|
  {
    if l.lines != [] && TooBig(l, limits) {
      PopIsSuffix(l);
      DropKeepsNewest(Popped(l), limits);
    }
  }

  /** What is kept are the newest lines, and one was dropped only because keeping it, and
      all after it, would have exceeded a limit. */
  lemma DropsNoMoreThanNeeded(l: Log, limits: Limits)
    requires Sound(l)
    ensures var kept := Trimmed(l, limits).lines;
            && |kept| <= |l.lines| && kept == l.lines[|l.lines| - |kept|..]
            && forall n :: 0 <= n < |l.lines| - |kept| ==>
                 TooBig(Log(l.lines[n..], l.partial, Total(l.lines[n..])), limits)
  {
    DropKeepsNewest(l, limits);
    forall n | 0 <= n < |l.lines| - |Dropped(l, limits).lines|
      ensures TooBig(Log(l.lines[n..], l.partial, Total(l.lines[n..])), limits)
    {
      DroppedWasNeeded(l, limits, n);
    }
  }

  lemma {:induction false} DroppedWasNeeded(l: Log, limits: Limits, n: nat)
    requires Sound(l) && n < |l.lines| - |Dropped(l, limits).lines|
    ensures TooBig(Log(l.lines[n..], l.partial, Total(l.lines[n..])), limits)
    decreases |l.lines|
  {
    if n == 0 {
      assert l.lines[0..] == l.lines;
    } else {
      PopIsSuffix(l);
      DroppedWasNeeded(Popped(l), limits, n - 1);
      assert l.lines[1..][n - 1..] == l.lines[n..];
    }
  }

  // ---- whole runs

  /** Everything fed since the log was last cleared: the text of a log without limits. */
  function Fed(inputs: seq<Input>): string
    decreases |inputs|
  {
    if inputs == [] then ""
    else
      var last := inputs[|inputs| - 1];
      if last.Clear? then ""
      else Fed(inputs[..|inputs| - 1]) + if last.Feed? then Said(last.chunk) else ""
  }

  lemma SuffixOfAppended(s: string, t: string, more: string)
    requires IsSuffix(s, t)
    ensures IsSuffix(s + more, t + more)
  {
  }

  predicate Bounded(l: Log, limits: Limits, fed: string) {
    Sound(l) && Within(l, limits) && IsSuffix(Text(l), fed)
  }

  lemma TrimKeepsBounded(l: Log, limits: Limits, fed: string)
    requires Sound(l) && IsSuffix(Text(l), fed)
    ensures Bounded(Trimmed(l, limits), limits, fed)
  {
    TrimIsSuffix(l, limits);
    SuffixIsTransitive(Text(Trimmed(l, limits)), Text(l), fed);
  }

  lemma FeedKeepsBounded(l: Log, limits: Limits, fed: string, c: Chunk)
    requires Bounded(l, limits, fed)
    ensures Bounded(Trimmed(Untrimmed(l, c), limits), limits, fed + Said(c))
  {
    FeedAppends(l, c);
    SuffixOfAppended(Text(l), fed, Said(c));
    TrimKeepsBounded(Untrimmed(l, c), limits, fed + Said(c));
  }

  lemma {:induction false} StaysBounded(limits: Limits, inputs: seq<Input>)
    ensures var (l, lims) := AfterAll(EMPTY, limits, inputs); Bounded(l, lims, Fed(inputs))
    decreases |inputs|
  {
    if inputs == [] {
      assert Text(EMPTY) == "";
    } else {
      var init, last := inputs[..|inputs| - 1], inputs[|inputs| - 1];
      StaysBounded(limits, init);
      var (l, lims) := AfterAll(EMPTY, limits, init);
      match last
      case Feed(c) => FeedKeepsBounded(l, lims, Fed(init), c);
      case SetLimits(changed) =>
        TrimKeepsBounded(l, changed, Fed(init));
        assert Fed(inputs) == Fed(init) + "" == Fed(init);
      case Clear => assert Text(EMPTY) == "";
    }
  }

  /** After any chunks and changes of limits: the counter is the length of the kept lines,
      the limits hold, and the kept text is a suffix of everything that was fed. */
  lemma LogIsBoundedSuffix(limits: Limits, inputs: seq<Input>)
    ensures var (l, lims) := AfterAll(EMPTY, limits, inputs);
            && l.chars == Total(l.lines) && Within(l, lims)
            && l.lines + [l.partial] == Split(Text(l), '\n')
            && IsSuffix(Text(l), Fed(inputs))
  {
    StaysBounded(limits, inputs);
    TextDetermines(AfterAll(EMPTY, limits, inputs).0);
  }

  lemma TextDetermines(l: Log)
    requires Plain(l)
    ensures l.lines + [l.partial] == Split(Text(l), '\n')
  {
    SplitIsUnique(l.lines + [l.partial], '\n');
  }

  // ---- the log itself

  class FleetLog {
    var maxLines: Option<int>
    var maxChars: Option<int>
    var lines: seq<string>
    var partial: string
    var chars: int

    ghost function Contents(): Log
      reads this
    {
      Log(lines, partial, chars)
    }

    ghost function CurrentLimits(): Limits
      reads this
    {
      Limits(maxLines, maxChars)
    }

    constructor (maxLines: Option<int>, maxChars: Option<int>)
      ensures Contents() == EMPTY && CurrentLimits() == Limits(maxLines, maxChars)
    {
      this.maxLines, this.maxChars := maxLines, maxChars;
      lines, partial, chars := [], "", 0;
    }

    method Clear()
      modifies this`lines, this`partial, this`chars
      ensures (Contents(), CurrentLimits()) == After(old(Contents()), old(CurrentLimits()), Input.Clear)
    {
      lines, partial, chars := [], "", 0;
    }

    method CommitPartial()
      modifies this`lines, this`partial, this`chars
      ensures Contents() == Committed(old(Contents()))
    {
      lines := lines + [partial];
      chars := chars + |partial|;
      partial := "";
    }

    method Trim()
      modifies this`lines, this`partial, this`chars
      ensures Contents() == Trimmed(old(Contents()), CurrentLimits())
    {
      ghost var start := Contents();
      while lines != [] && ((maxLines.Some? && |lines| > maxLines.value)
                            || (maxChars.Some? && chars + |partial| > maxChars.value))
        invariant Dropped(start, CurrentLimits()) == Dropped(Contents(), CurrentLimits())
        decreases |lines|
      {
        chars := chars - |lines[0]|;
        lines := lines[1..];
      }
      if maxChars.Some? && |partial| > maxChars.value {
        var from := if maxChars.value > 0 then |partial| - maxChars.value else -maxChars.value;
        partial := if from > |partial| then "" else partial[from..];
      }
    }

    method FeedChunk(chunk: Chunk)
      modifies this`lines, this`partial, this`chars
      ensures (Contents(), CurrentLimits()) == After(old(Contents()), old(CurrentLimits()), Feed(chunk))
    {
      ghost var start := Contents();
      var parts := Split(chunk.text, '\n');
      partial := partial + parts[0];
      for n := 1 to |parts|
        invariant Contents() == WithParts(start, parts[..n])
      {
        assert parts[..n + 1][..n] == parts[..n];
        CommitPartial();
        partial := partial + parts[n];
        assert "" + parts[n] == parts[n];
      }
      assert parts[..|parts|] == parts;
      if chunk.endLine {
        CommitPartial();
      }
      Trim();
    }

    method ChangeLimits(maxLines: Option<int>, maxChars: Option<int>)
      modifies this
      ensures (Contents(), CurrentLimits())
              == After(old(Contents()), old(CurrentLimits()), SetLimits(Limits(maxLines, maxChars)))
    {
      this.maxLines := maxLines;
      this.maxChars := maxChars;
      Trim();
    }
  }

  // ---- one chunk

  /** More lines, or more characters in them and in the unfinished line, than the limits allow. */
  predicate TooMuch(lines: seq<string>, partial: string, limits: Limits) {
    || (limits.maxLines.Some? && |lines| > limits.maxLines.value)
    || (limits.maxChars.Some? && Total(lines) + |partial| > limits.maxChars.value)
  }

  /** Of the pieces of a text, the last being the unfinished line: those from the `n`th on are too much. */
  predicate TooMuchFrom(pieces: seq<string>, n: int, limits: Limits) {
    0 <= n < |pieces| && TooMuch(pieces[n..|pieces| - 1], pieces[|pieces| - 1], limits)
  }

  /** What a text leaves of its pieces: the last lines, those gone having been too much together
      with the ones after them; and of the unfinished line as much as a limit allows. */
  predicate Leaves(pieces: seq<string>, limits: Limits, k: Log) {
    && |k.lines| < |pieces|
    && k.lines == pieces[|pieces| - 1 - |k.lines|..|pieces| - 1]
    && (forall n :: 0 <= n < |pieces| - 1 - |k.lines| ==> TooMuchFrom(pieces, n, limits))
    && (|k.lines| > 0 ==> !TooMuchFrom(pieces, |pieces| - 1 - |k.lines|, limits))
    && var last := pieces[|pieces| - 1];
    if limits.maxChars == None || |last| <= limits.maxChars.value then k.partial == last
    else IsSuffix(k.partial, last) && (limits.maxChars.value > 0 ==> |k.partial| == limits.maxChars.value)
  }

  lemma TrimLeaves(l: Log, limits: Limits)
    requires Sound(l)
    ensures Leaves(l.lines + [l.partial], limits, Trimmed(l, limits))
  {
    var pieces, k := l.lines + [l.partial], Trimmed(l, limits);
    DropsNoMoreThanNeeded(l, limits);
    DropIsSuffix(l, limits);
    forall n | 0 <= n <= |l.lines| ensures l.lines[n..] == pieces[n..|pieces| - 1] {}
    forall n | 0 <= n < |l.lines| - |k.lines| ensures TooMuchFrom(pieces, n, limits) {
      assert l.lines[n..] == pieces[n..|pieces| - 1];
      assert TooBig(Log(l.lines[n..], l.partial, Total(l.lines[n..])), limits);
    }
    assert k.lines == pieces[|l.lines| - |k.lines|..|pieces| - 1];
  }

  /** What is on the log after a chunk is what is left of all that was on it and the chunk. */
  lemma FeedKeepsWhatFits(l: Log, limits: Limits, c: Chunk)
    requires Sound(l)
    ensures var (k, same) := After(l, limits, Feed(c));
            same == limits && Leaves(Split(Text(l) + (if c.endLine then c.text + "\n" else c.text), '\n'), limits, k)
  {
    FeedAppends(l, c);
    TextDetermines(Untrimmed(l, c));
    TrimLeaves(Untrimmed(l, c), limits);
  }
}
