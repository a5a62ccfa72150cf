/**
  Ranking a row against a typed query: a substring match, or else the subsequence found
  by taking each character at the first place it can be.
*/
module FuzzyMatch {
  import opened Basics

  datatype Rank = Rank(tier: int, first: int, second: int)

  /** `positions` places the first |positions| characters of the query in the value, in order. */
  predicate Embeds(value: string, query: string, positions: seq<int>) {
    && |positions| <= |query|
    && (forall i :: 0 <= i < |positions| ==> 0 <= positions[i] < |value| && value[positions[i]] == query[i])
    && (forall i, k :: 0 <= i < k < |positions| ==> positions[i] < positions[k])
  }

  ghost predicate IsSubsequence(value: string, query: string) {
    exists positions :: |positions| == |query| && Embeds(value, query, positions)
  }

  /** No other placement of as many characters puts any of them earlier. */
  ghost predicate Leftmost(value: string, query: string, positions: seq<int>) {
    forall others, i :: Embeds(value, query, others) && 0 <= i < |positions| <= |others| ==> positions[i] <= others[i]
  }

  predicate OccursAt(value: string, query: string, i: int) {
    0 <= i <= |value| - |query| && value[i..i + |query|] == query
  }

  /** The rank of a query that occurs only with gaps. */
  ghost predicate IsScattered(value: string, query: string, rank: Rank) {
    && rank.tier == 1 && (forall i :: !OccursAt(value, query, i))
    && exists positions ::
         && |positions| == |query| > 0 && Embeds(value, query, positions) && Leftmost(value, query, positions)
         && rank == Rank(1, positions[|query| - 1] - positions[0] + 1, positions[0])
  }

  ghost predicate IsRank(value: string, query: string, rank: Option<Rank>) {
    && (rank == None <==> !IsSubsequence(value, query))
    && (query == "" ==> rank == Some(Rank(0, 0, 0)))
    && (query != "" && rank.Some? ==>
          if rank.value.tier == 0 then FirstOccurs(value, query, rank.value) else IsScattered(value, query, rank.value))
  }

  /** The rank of a query that occurs: the first place where it does. */
  ghost predicate FirstOccurs(value: string, query: string, rank: Rank) {
    && OccursAt(value, query, rank.first) && rank.second == |query|
    && forall i :: i < rank.first ==> !OccursAt(value, query, i)
  }

  method FindChar(value: string, c: char, from: nat) returns (at: int)
    requires from <= |value|
    ensures at < 0 ==> forall i :: from <= i < |value| ==> value[i] != c
    ensures 0 <= at ==> from <= at < |value| && value[at] == c && forall i :: from <= i < at ==> value[i] != c
  {
    at := from;
    while at < |value|
      invariant from <= at <= |value| && forall i :: from <= i < at ==> value[i] != c
    {
      if value[at] == c { return; }
      at := at + 1;
    }
    at := -1;
  }

  method FindText(value: string, query: string) returns (at: int)
    ensures at < 0 ==> forall i :: !OccursAt(value, query, i)
    ensures 0 <= at ==> OccursAt(value, query, at) && forall i :: i < at ==> !OccursAt(value, query, i)
  {
    at := 0;
    while at <= |value| - |query|
      invariant 0 <= at && forall i :: i < at ==> !OccursAt(value, query, i)
    {
      if value[at..at + |query|] == query { return; }
      at := at + 1;
    }
    at := -1;
  }

  lemma NextIsLeftmost(value: string, query: string, positions: seq<int>, from: nat, at: int)
    requires Embeds(value, query, positions) && Leftmost(value, query, positions) && |positions| < |query|
    requires from == if positions == [] then 0 else positions[|positions| - 1] + 1
    requires from <= at < |value| && value[at] == query[|positions|]
    requires forall i :: from <= i < at ==> value[i] != query[|positions|]
    ensures Embeds(value, query, positions + [at]) && Leftmost(value, query, positions + [at])
  {
    var more := positions + [at];
    forall others, i | Embeds(value, query, others) && 0 <= i < |more| <= |others| ensures more[i] <= others[i] {
      NoneIsEarlier(value, query, positions, others);
      assert value[others[|positions|]] == query[|positions|];
    }
  }

  lemma NoNextNoEmbedding(value: string, query: string, positions: seq<int>, from: nat)
    requires Embeds(value, query, positions) && Leftmost(value, query, positions) && |positions| < |query|
    requires from == if positions == [] then 0 else positions[|positions| - 1] + 1
    requires forall i :: from <= i < |value| ==> value[i] != query[|positions|]
    ensures !IsSubsequence(value, query)
  {
    if others :| |others| == |query| && Embeds(value, query, others) {
      NoneIsEarlier(value, query, positions, others);
    }
  }

  /** The next character of any placement comes after the leftmost ones so far. */
  lemma NoneIsEarlier(value: string, query: string, positions: seq<int>, others: seq<int>)
    requires Embeds(value, query, positions) && Leftmost(value, query, positions)
    requires Embeds(value, query, others) && |positions| < |others|
    ensures others[|positions|] >= if positions == [] then 0 else positions[|positions| - 1] + 1
  {
    var n := |positions|;
    if n > 0 { assert positions[n - 1] <= others[n - 1] < others[n]; }
  }

  /** `fold` folds the case and `strip` removes surrounding whitespace; any functions will do.
      There is no rank exactly when the query so treated is no subsequence of the value; the
      span and start ranked are those of the placement that is leftmost in every position. */
  method FuzzyMatchRank(given: string, typed: string, fold: string -> string, strip: string -> string)
    returns (rank: Option<Rank>)
    ensures IsRank(fold(given), strip(fold(typed)), rank)
  {
    var value, query := fold(given), strip(fold(typed));
    if query == "" {
      assert Embeds(value, query, []);
      return Some(Rank(0, 0, 0));
    }
    var substringAt := FindText(value, query);
    if substringAt >= 0 {
      PlaceIsRank(value, query, substringAt);
      return Some(Rank(0, substringAt, |query|));
    }
    var positions: seq<int> := [];
    var searchFrom := 0;
    for i := 0 to |query|
      invariant |positions| == i && Embeds(value, query, positions) && Leftmost(value, query, positions)
      invariant searchFrom == if positions == [] then 0 else positions[|positions| - 1] + 1
      invariant 0 <= searchFrom <= |value|
    {
      var position := FindChar(value, query[i], searchFrom);
      if position < 0 {
        NoNextNoEmbedding(value, query, positions, searchFrom);
        return None;
      }
      NextIsLeftmost(value, query, positions, searchFrom, position);
      positions := positions + [position];
      searchFrom := position + 1;
    }
    rank := Some(Rank(1, positions[|positions| - 1] - positions[0] + 1, positions[0]));
    PlacementIsRank(value, query, positions);
  }

  lemma PlacementIsRank(value: string, query: string, positions: seq<int>)
    requires |positions| == |query| > 0 && Embeds(value, query, positions) && Leftmost(value, query, positions)
    requires forall i :: !OccursAt(value, query, i)
    ensures IsRank(value, query, Some(Rank(1, positions[|positions| - 1] - positions[0] + 1, positions[0])))
  {
    assert IsScattered(value, query, Rank(1, positions[|positions| - 1] - positions[0] + 1, positions[0]));
  }

  lemma PlaceIsRank(value: string, query: string, at: int)
    requires query != "" && OccursAt(value, query, at) && forall i :: i < at ==> !OccursAt(value, query, i)
    ensures IsRank(value, query, Some(Rank(0, at, |query|)))
  {
    SubstringIsSubsequence(value, query, at);
  }

  lemma SubstringIsSubsequence(value: string, query: string, at: int)
    requires OccursAt(value, query, at)
    ensures IsSubsequence(value, query)
  {
    var positions := seq(|query|, i => at + i);
    forall i | 0 <= i < |query| ensures value[positions[i]] == query[i] {
      assert value[at..at + |query|][i] == query[i];
    }
    assert Embeds(value, query, positions);
  }
}
