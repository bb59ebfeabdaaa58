/** The ordering of suggestions: by aggregate score, highest first. The
    handler's comments ask for Python's `sorted(..., reverse=True)` on the
    score; an insertion sort gives that order, keeping suggestions of equal
    score in their catalog order. */
module Ranking {
  import opened Schemas

  predicate SortedByScoreDesc(s: seq<RoomSuggestion>) {
    forall i, j :: 0 <= i < j < |s| ==> s[i].score >= s[j].score
  }

  /** Places x before the first suggestion whose score is below it. */
  function InsertByScore(x: RoomSuggestion, s: seq<RoomSuggestion>): (r: seq<RoomSuggestion>)
    requires SortedByScoreDesc(s)
    ensures SortedByScoreDesc(r)
    ensures multiset(r) == multiset(s) + multiset{x}
    ensures |r| == |s| + 1 && (r[0] == x || (s != [] && r[0] == s[0]))
  {
    if s == [] || x.score >= s[0].score then
      [x] + s
    else
      assert s == [s[0]] + s[1..];
      [s[0]] + InsertByScore(x, s[1..])
  }

  /** The suggestions in descending order of score. */
  function SortByScoreDesc(s: seq<RoomSuggestion>): (r: seq<RoomSuggestion>)
    ensures SortedByScoreDesc(r)
    ensures multiset(r) == multiset(s)
  {
    if s == [] then []
    else
      assert s == [s[0]] + s[1..];
      InsertByScore(s[0], SortByScoreDesc(s[1..]))
  }
}
