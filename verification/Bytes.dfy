/**
  Byte streams: the last bytes of a stream, occurrences of a marker in it, and its
  division into lines.
*/
module Bytes {
  type Byte = x: int | 0 <= x < 256

  const NEWLINE: Byte := 10

  function Concat<T>(chunks: seq<seq<T>>): seq<T>
    decreases |chunks|
  {
    if chunks == [] then [] else Concat(chunks[..|chunks| - 1]) + chunks[|chunks| - 1]
  }

  function Last<T>(s: seq<T>, n: nat): seq<T> {
    if |s| <= n then s else s[|s| - n..]
  }

  /** Keeping the last n of what was kept loses nothing. */
  lemma LastOfLast<T>(s: seq<T>, t: seq<T>, n: nat)
    ensures Last(Last(s, n) + t, n) == Last(s + t, n)
  {
  }

  predicate OccursAt<T(==)>(marker: seq<T>, s: seq<T>, i: int) {
    0 <= i <= |s| - |marker| && s[i..i + |marker|] == marker
  }

  predicate Occurs<T(==)>(marker: seq<T>, s: seq<T>) {
    exists i :: 0 <= i <= |s| && OccursAt(marker, s, i)
  }

  /** One byte less than the marker is enough overlap to miss no occurrence. */
  lemma OverlapFindsAll<T>(marker: seq<T>, s: seq<T>, t: seq<T>)
    requires |marker| > 0
    ensures Occurs(marker, s + t) <==> Occurs(marker, s) || Occurs(marker, Last(s, |marker| - 1) + t)
  {
    var kept := Last(s, |marker| - 1);
    var gone := |s| - |kept|;
    assert forall k :: 0 <= k < |kept + t| ==> (kept + t)[k] == (s + t)[gone + k];
    if i :| 0 <= i <= |s + t| && OccursAt(marker, s + t, i) {
      if i + |marker| <= |s| {
        assert s[i..i + |marker|] == (s + t)[i..i + |marker|];
        assert OccursAt(marker, s, i);
      } else {
        assert (kept + t)[i - gone..i - gone + |marker|] == (s + t)[i..i + |marker|];
        assert OccursAt(marker, kept + t, i - gone);
      }
    }
    if i :| 0 <= i <= |s| && OccursAt(marker, s, i) {
      assert (s + t)[i..i + |marker|] == s[i..i + |marker|];
      assert OccursAt(marker, s + t, i);
    }
    if i :| 0 <= i <= |kept + t| && OccursAt(marker, kept + t, i) {
      assert (s + t)[i + gone..i + gone + |marker|] == (kept + t)[i..i + |marker|];
      assert OccursAt(marker, s + t, i + gone);
    }
  }

  // ---- lines

  /** The pieces between separators; the last piece is what follows the last one. */
  function Split<T(==)>(s: seq<T>, separator: T): (pieces: seq<seq<T>>)
    ensures |pieces| > 0
    decreases |s|
  {
    if s == [] then [[]]
    else
      var before, x := Split(s[..|s| - 1], separator), s[|s| - 1];
      if x == separator then before + [[]]
      else before[..|before| - 1] + [before[|before| - 1] + [x]]
  }

  function Join<T>(pieces: seq<seq<T>>, separator: T): seq<T>
    requires |pieces| > 0
    decreases |pieces|
  {
    if |pieces| == 1 then pieces[0]
    else Join(pieces[..|pieces| - 1], separator) + [separator] + pieces[|pieces| - 1]
  }

  /** Split divides a text into pieces free of separators. */
  lemma {:induction false} SplitDivides<T>(s: seq<T>, separator: T)
    ensures Join(Split(s, separator), separator) == s
    ensures forall i :: 0 <= i < |Split(s, separator)| ==> separator !in Split(s, separator)[i]
    decreases |s|
  {
    if s != [] {
      var before, x := Split(s[..|s| - 1], separator), s[|s| - 1];
      SplitDivides(s[..|s| - 1], separator);
      assert s == s[..|s| - 1] + [x];
      var n := |before|;
      if x == separator {
        assert Split(s, separator)[..n] == before;
      } else {
        assert Split(s, separator)[..n - 1] == before[..n - 1];
      }
    }
  }

  lemma SplitOfAppended<T>(s: seq<T>, x: T, separator: T)
    ensures var before := Split(s, separator);
            Split(s + [x], separator) == if x == separator then before + [[]]
                                         else before[..|before| - 1] + [before[|before| - 1] + [x]]
  {
    assert (s + [x])[..|s|] == s;
  }

  /** And there is no other such division. */
  lemma {:induction false} SplitIsUnique<T>(pieces: seq<seq<T>>, separator: T)
    requires |pieces| > 0 && forall i :: 0 <= i < |pieces| ==> separator !in pieces[i]
    ensures Split(Join(pieces, separator), separator) == pieces
    decreases |pieces|, |pieces[|pieces| - 1]|
  {
    var init, last := pieces[..|pieces| - 1], pieces[|pieces| - 1];
    if last != [] {
      UniqueByLast(init, last, separator);
      assert pieces == init + [last];
    } else if init != [] {
      SplitIsUnique(init, separator);
      SplitOfAppended(Join(init, separator), separator, separator);
      assert Join(pieces, separator) == Join(init, separator) + [separator];
      assert pieces == init + [[]];
    }
  }

  lemma {:induction false} UniqueByLast<T>(init: seq<seq<T>>, last: seq<T>, separator: T)
    requires last != [] && separator !in last && forall i :: 0 <= i < |init| ==> separator !in init[i]
    ensures Split(Join(init + [last], separator), separator) == init + [last]
    decreases |init| + 1, |last|, 0
  {
    var less, x := last[..|last| - 1], last[|last| - 1];
    assert x in last && last == less + [x];
    assert forall y :: y in less ==> y in last;
    SplitIsUnique(init + [less], separator);
    assert (init + [less])[..|init|] == init && (init + [last])[..|init|] == init;
    assert Join(init + [last], separator) == Join(init + [less], separator) + [x];
    SplitOfAppended(Join(init + [less], separator), x, separator);
  }
}
