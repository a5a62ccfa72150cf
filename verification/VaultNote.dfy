/**
  Writing the result section of a vault note: the first section under its heading is
  replaced up to the end of the note, or a new one is added at the end.
*/
module VaultNote {

  predicate LineStart(text: string, i: nat) {
    i == 0 || (i <= |text| && text[i - 1] == '\n')
  }

  /** Only spaces and tabs from `i` to the end of the line. */
  predicate OnlyBlanks(text: string, i: nat)
    decreases |text| - i
  {
    i >= |text| || text[i] == '\n' || ((text[i] == ' ' || text[i] == '\t') && OnlyBlanks(text, i + 1))
  }

  /** A line of the text, starting at `i`, is the heading. */
  predicate HeadingAt(text: string, heading: string, i: nat) {
    LineStart(text, i) && i + |heading| <= |text| && text[i..i + |heading|] == heading
        && OnlyBlanks(text, i + |heading|)
  }

  predicate IsHeading(heading: string) {
    heading != "" && '\n' !in heading
  }

  /** The first heading line at or after `from`; -1 if there is none. */
  function Find(text: string, heading: string, from: nat): (at: int)
    ensures at < 0 ==> forall k: nat :: from <= k <= |text| ==> !HeadingAt(text, heading, k)
    ensures 0 <= at ==> from <= at <= |text| && HeadingAt(text, heading, at)
                        && forall k: nat :: from <= k < at ==> !HeadingAt(text, heading, k)
    decreases |text| + 1 - from
  {
    if from > |text| then -1
    else if HeadingAt(text, heading, from) then from
    else Find(text, heading, from + 1)
  }

  function Separator(text: string): string {
    if |text| >= 2 && text[|text| - 2..] == "\n\n" then ""
    else if |text| >= 1 && text[|text| - 1] == '\n' then "\n"
    else "\n\n"
  }

  /** The section, of a body without trailing whitespace. */
  function Block(heading: string, body: string): string {
    heading + "\n\n" + body + "\n"
  }

  /** The part of the text that a result section is put after. */
  function Kept(text: string, heading: string): string {
    var at := Find(text, heading, 0);
    if at >= 0 then text[..at] else text + Separator(text)
  }

  function Written(text: string, heading: string, body: string): string {
    Kept(text, heading) + Block(heading, body)
  }

  /** What the caller keeps of the result: its id and the path of the note in the vault. */
  datatype Bookkeeping = Bookkeeping(id: string, notePath: string)

  class NoteFile {
    const path: string
    var text: string

    constructor (path: string, text: string)
      ensures this.path == path && this.text == text
    {
      this.path, this.text := path, text;
    }

    method Search(heading: string) returns (at: int)
      ensures at == Find(text, heading, 0)
    {
      at := 0;
      while at <= |text|
        invariant 0 <= at <= |text| + 1 && Find(text, heading, 0) == Find(text, heading, at)
      {
        if HeadingAt(text, heading, at) { return; }
        at := at + 1;
      }
      at := -1;
    }

    /** `rstrip` removes trailing whitespace and `digest` is the hexadecimal digest of a text; the
        id is made from the body as given.  `heading` is "## Result" unless the caller says
        otherwise. */
    method AppendResultSection(body: string, heading: string, rstrip: string -> string, digest: string -> string)
      returns (kept: Bookkeeping)
      modifies this
      ensures text == Written(old(text), heading, rstrip(body))
      ensures IsHeading(heading) ==> HoldsResult(text, heading, rstrip(body))
      ensures kept.notePath == path && |kept.id| <= |"result-"| + 8 && "result-" <= kept.id
      ensures kept.id[|"result-"|..] <= digest(body) && (|digest(body)| >= 8 ==> |kept.id| == |"result-"| + 8)
    {
      if IsHeading(heading) { ResultIsReadBack(text, heading, rstrip(body)); }
      var hex := digest(body);
      kept := Bookkeeping("result-" + (if |hex| <= 8 then hex else hex[..8]), path);
      var block := heading + "\n\n" + rstrip(body) + "\n";
      var existing := Search(heading);
      if existing >= 0 {
        text := text[..existing] + block;
      } else {
        var separator := if |text| >= 2 && text[|text| - 2..] == "\n\n" then ""
                         else if |text| >= 1 && text[|text| - 1] == '\n' then "\n" else "\n\n";
        text := text + separator + block;
      }
    }
  }

  // ---- writing twice

  lemma {:induction false} BlanksAgree(a: string, b: string, i: nat, n: nat)
    requires i <= n <= |a| && n <= |b| && a[..n] == b[..n]
    requires n == |a| || a[n] == '\n'
    requires n == |b| || b[n] == '\n'
    ensures OnlyBlanks(a, i) <==> OnlyBlanks(b, i)
    decreases n - i
  {
    if i < n {
      assert a[i] == a[..n][i] == b[..n][i] == b[i];
      BlanksAgree(a, b, i + 1, n);
    }
  }

  lemma {:induction false} BlanksStop(a: string, b: string, i: nat, n: nat)
    requires i <= n <= |a| && n <= |b| && a[..n] == b[..n] && n > i && a[n - 1] == '\n'
    ensures OnlyBlanks(a, i) <==> OnlyBlanks(b, i)
    decreases n - i
  {
    assert a[i] == a[..n][i] == b[..n][i] == b[i];
    if i < n - 1 { BlanksStop(a, b, i + 1, n); }
  }

  lemma BlockIsHeaded(kept: string, heading: string, body: string)
    requires IsHeading(heading) && (kept == "" || kept[|kept| - 1] == '\n')
    ensures HeadingAt(kept + Block(heading, body), heading, |kept|)
  {
    var text := kept + Block(heading, body);
    assert text[|kept|..|kept| + |heading|] == heading;
    assert text[|kept| + |heading|] == Block(heading, body)[|heading|] == '\n';
  }

  /** No heading line starts inside the kept part, whatever follows it. */
  lemma KeptHasNoHeading(text: string, heading: string, more: string, k: nat)
    requires IsHeading(heading) && k < |Kept(text, heading)|
    ensures Kept(text, heading)[|Kept(text, heading)| - 1] == '\n'
    ensures !HeadingAt(Kept(text, heading) + more, heading, k)
  {
    var at := Find(text, heading, 0);
    if at >= 0 {
      var whole := text[..at] + more;
      assert whole[..at] == text[..at];
      SameHeadings(whole, text, heading, k, at);
    } else {
      NoneAppended(text, heading, more, k);
    }
  }

  /** Whether a heading line starts before a line end depends on nothing after it. */
  lemma SameHeadings(a: string, b: string, heading: string, k: nat, n: nat)
    requires IsHeading(heading) && k < n <= |a| && n <= |b| && a[..n] == b[..n] && a[n - 1] == '\n'
    ensures HeadingAt(a, heading, k) <==> HeadingAt(b, heading, k)
  {
    assert forall m :: 0 <= m < n ==> a[m] == b[m] by { assert forall m :: 0 <= m < n ==> a[..n][m] == b[..n][m]; }
    if k + |heading| < n {
      assert a[k..k + |heading|] == b[k..k + |heading|];
      BlanksStop(a, b, k + |heading|, n);
    } else {
      NoHeadingAcross(a, heading, k, n);
      NoHeadingAcross(b, heading, k, n);
    }
  }

  /** A heading has no line end in it. */
  lemma NoHeadingAcross(a: string, heading: string, k: nat, n: nat)
    requires IsHeading(heading) && k < n <= |a| && n <= k + |heading| && a[n - 1] == '\n'
    ensures !HeadingAt(a, heading, k)
  {
    if k + |heading| <= |a| {
      var piece := a[k..k + |heading|];
      assert piece[n - 1 - k] == '\n';
      assert '\n' in piece;
    }
  }

  lemma NoneAppended(text: string, heading: string, more: string, k: nat)
    requires IsHeading(heading) && Find(text, heading, 0) < 0 && k < |text + Separator(text)|
    ensures !HeadingAt(text + Separator(text) + more, heading, k)
  {
    var kept, n := text + Separator(text), |text|;
    var whole := kept + more;
    assert kept[|kept| - 1] == '\n' && whole[..|kept|] == kept[..|kept|];
    SameHeadings(whole, kept, heading, k, |kept|);
    if k + |heading| <= n {
      assert kept[k..k + |heading|] == text[k..k + |heading|];
      BlanksAgree(kept, text, k + |heading|, n);
      assert HeadingAt(kept, heading, k) ==> HeadingAt(text, heading, k);
    } else if |kept| > n {
      NoHeadingAcross(kept, heading, k, if k <= n then n + 1 else k + 1);
    } else {
      NoHeadingAcross(kept, heading, k, n);
    }
  }

  /** Writing a section leaves the part before it as the part to keep next time. */
  lemma KeptIsStable(text: string, heading: string, body: string)
    requires IsHeading(heading)
    ensures Kept(Written(text, heading, body), heading) == Kept(text, heading)
  {
    var kept, whole := Kept(text, heading), Written(text, heading, body);
    if kept != "" { KeptHasNoHeading(text, heading, Block(heading, body), 0); }
    BlockIsHeaded(kept, heading, body);
    forall k: nat | k < |kept| ensures !HeadingAt(whole, heading, k) {
      KeptHasNoHeading(text, heading, Block(heading, body), k);
    }
    assert Find(whole, heading, 0) == |kept|;
  }

  /** Writing b1 and then b2 gives what writing b2 alone gives, whatever the bodies
      contain, even the heading itself. */
  lemma LastWriterWins(text: string, heading: string, b1: string, b2: string)
    requires IsHeading(heading)
    ensures Written(Written(text, heading, b1), heading, b2) == Written(text, heading, b2)
  {
    KeptIsStable(text, heading, b1);
  }

  /** From `at` on the note is the heading, an empty line, the body and a line end; and no line
      before it is the heading. */
  predicate SectionAt(text: string, heading: string, body: string, at: nat) {
    && at <= |text| && text[at..] == heading + "\n" + "\n" + body + "\n"
    && (at == 0 || text[at - 1] == '\n')
    && forall k: nat :: k < at ==> !HeadingAt(text, heading, k)
  }

  ghost predicate HoldsResult(text: string, heading: string, body: string) {
    exists at: nat :: SectionAt(text, heading, body, at)
  }

  predicate BlanksTo(text: string, i: nat, end: nat) {
    && i <= end <= |text| && (end == |text| || text[end] == '\n')
    && forall k :: i <= k < end ==> text[k] == ' ' || text[k] == '\t'
  }

  /** A line is the heading if there is nothing but spaces and tabs between it and the line's end. */
  lemma {:induction false} MeaningOfHeading(text: string, i: nat)
    requires i <= |text|
    ensures OnlyBlanks(text, i) <==> exists end: nat :: BlanksTo(text, i, end)
    decreases |text| - i
  {
    if i == |text| || text[i] == '\n' {
      assert BlanksTo(text, i, i);
    } else {
      MeaningOfHeading(text, i + 1);
      if OnlyBlanks(text, i) {
        var end: nat :| BlanksTo(text, i + 1, end);
        assert BlanksTo(text, i, end);
      }
      if end: nat :| BlanksTo(text, i, end) {
        assert BlanksTo(text, i + 1, end);
      }
    }
  }

  /** What is written is what a reader of the section finds. */
  lemma ResultIsReadBack(text: string, heading: string, body: string)
    requires IsHeading(heading)
    ensures HoldsResult(Written(text, heading, body), heading, body)
  {
    var kept, whole := Kept(text, heading), Written(text, heading, body);
    if kept != "" { KeptHasNoHeading(text, heading, Block(heading, body), 0); }
    forall k: nat | k < |kept| ensures !HeadingAt(whole, heading, k) {
      KeptHasNoHeading(text, heading, Block(heading, body), k);
    }
    assert whole[|kept|..] == heading + "\n" + "\n" + body + "\n";
    assert SectionAt(whole, heading, body, |kept|);
  }

  /** A note holds one result. */
  lemma ResultIsUnique(text: string, heading: string, b1: string, b2: string)
    requires IsHeading(heading) && HoldsResult(text, heading, b1) && HoldsResult(text, heading, b2)
    ensures b1 == b2
  {
    var i: nat :| SectionAt(text, heading, b1, i);
    var k: nat :| SectionAt(text, heading, b2, k);
    SectionIsHeaded(text, heading, b1, i);
    SectionIsHeaded(text, heading, b2, k);
    assert i == k;
    var n := |heading| + 2;
    var rest := text[i..];
    assert b1 == rest[n..|rest| - 1] && b2 == rest[n..|rest| - 1];
  }

  lemma SectionIsHeaded(text: string, heading: string, body: string, at: nat)
    requires IsHeading(heading) && SectionAt(text, heading, body, at)
    ensures HeadingAt(text, heading, at)
  {
    var rest := text[at..];
    assert rest[..|heading|] == heading && rest[|heading|] == '\n';
    assert text[at..at + |heading|] == rest[..|heading|] && text[at + |heading|] == rest[|heading|];
  }

  /** Different results make different notes, of whatever notes they were written to. */
  lemma DifferentResultsDiffer(t1: string, t2: string, heading: string, b1: string, b2: string)
    requires IsHeading(heading) && b1 != b2
    ensures Written(t1, heading, b1) != Written(t2, heading, b2)
  {
    ResultIsReadBack(t1, heading, b1);
    ResultIsReadBack(t2, heading, b2);
    if Written(t1, heading, b1) == Written(t2, heading, b2) {
      ResultIsUnique(Written(t1, heading, b1), heading, b1, b2);
    }
  }

  /** In a note without the heading the section comes last, after an empty line, for which no
      more line ends are added than are wanting. */
  lemma NewSectionComesLast(text: string, heading: string, body: string)
    requires forall k: nat :: k <= |text| ==> !HeadingAt(text, heading, k)
    ensures var ends := if |text| >= 2 && text[|text| - 2..] == "\n\n" then ""
                        else if text != "" && text[|text| - 1] == '\n' then "\n" else "\n\n";
            Written(text, heading, body) == text + ends + heading + "\n" + "\n" + body + "\n"
  {
    assert Find(text, heading, 0) < 0;
  }

  /** Nothing before the section is touched. */
  lemma PrefixIsUntouched(text: string, heading: string, body: string)
    ensures var at := Find(text, heading, 0);
            if at >= 0 then text[..at] <= Written(text, heading, body) else text <= Written(text, heading, body)
  {
    assert text[..|text|] == text;
  }
}
