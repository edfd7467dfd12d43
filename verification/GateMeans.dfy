/** What the gate's decision says about the scores: the best one, the mean of the three
    largest, and the two thresholds. */
module GateMeans {
  import opened Gate

  /** `top` are the largest three of the scores, or all of them if there are fewer. */
  ghost predicate Largest(top: seq<real>, scores: seq<real>) {
    && |top| == (if |scores| < 3 then |scores| else 3)
    && multiset(top) <= multiset(scores)
    && forall x, y | x in multiset(scores) - multiset(top) && y in top :: x <= y
  }

  function Total(top: seq<real>): real
    requires 1 <= |top| <= 3
  {
    if |top| == 1 then top[0] else if |top| == 2 then top[0] + top[1] else top[0] + top[1] + top[2]
  }

  lemma SumOfFew(top: seq<real>)
    requires 1 <= |top| <= 3
    ensures Sum(top) == Total(top)
  {
    var n := |top|;
    assert Sum([]) == 0.0;
    assert top[..1] == [top[0]] && top[..1][..0] == [];
    assert Sum(top[..1]) == top[0];
    if n >= 2 {
      assert top[..2][..1] == top[..1];
      assert Sum(top[..2]) == top[0] + top[1];
    }
    if n == 3 {
      assert top[..3][..2] == top[..2];
      assert Sum(top[..3]) == Total(top);
    }
    assert top[..n] == top;
  }

  lemma RestMultiset(top: seq<real>, rest: seq<real>, scores: seq<real>)
    requires multiset(top + rest) == multiset(scores)
    ensures multiset(top) <= multiset(scores) && multiset(scores) - multiset(top) == multiset(rest)
  {
  }

  lemma FrontAbove(sorted: seq<real>, k: nat, x: real, y: real)
    requires Descending(sorted) && k <= |sorted| && x in sorted[k..] && y in sorted[..k]
    ensures x <= y
  {
    var i :| 0 <= i < |sorted[k..]| && sorted[k..][i] == x;
    var j :| 0 <= j < |sorted[..k]| && sorted[..k][j] == y;
    assert sorted[k + i] == x && sorted[j] == y;
  }

  lemma FrontIsLargest(sorted: seq<real>, scores: seq<real>)
    requires Descending(sorted) && multiset(sorted) == multiset(scores) && |sorted| == |scores|
    ensures Largest(sorted[..if |sorted| < 3 then |sorted| else 3], scores)
  {
    hide Descending;
    var k := if |sorted| < 3 then |sorted| else 3;
    assert sorted == sorted[..k] + sorted[k..];
    RestMultiset(sorted[..k], sorted[k..], scores);
    forall x, y | x in multiset(sorted[k..]) && y in sorted[..k] ensures x <= y {
      FrontAbove(sorted, k, x, y);
    }
  }

  /** The mean is that of the three largest scores, or of all of them. */
  lemma MeanOfLargest(results: seq<RetrievedChunk>, minTop1: real, minMeanTop3: real) returns (top: seq<real>)
    requires results != []
    ensures Largest(top, Scores(results)) && 1 <= |top| <= 3
    ensures EvaluateGate(results, minTop1, minMeanTop3).meanTop3 * |top| as real == Total(top)
  {
    hide SortScores, Sorted;
    SortedScores(results);
    SortDescends(Scores(results));
    SortedLength(results);
    var sorted := SortScores(Scores(results));
    top := sorted[..if |sorted| < 3 then |sorted| else 3];
    FrontIsLargest(sorted, Scores(results));
    SumOfFew(top);
    Divided(Sum(top), |top|);
  }

  lemma Divided(sum: real, n: nat)
    requires 0 < n
    ensures sum / n as real * n as real == sum
  {
  }

  /** No results fail the gate; otherwise it passes exactly when both thresholds are reached,
      and a failure names the first that is not. */
  lemma PassesIff(results: seq<RetrievedChunk>, minTop1: real, minMeanTop3: real)
    ensures var d := EvaluateGate(results, minTop1, minMeanTop3);
      if results == [] then d == Decision(false, NoChunks, 0.0, 0.0)
      else
        && (d.passed <==> d.top1 >= minTop1 && d.meanTop3 >= minMeanTop3)
        && (d.reason == LowTop1 <==> d.top1 < minTop1)
        && (d.reason == LowMean <==> d.top1 >= minTop1 && d.meanTop3 < minMeanTop3)
        && (d.reason == Fine <==> d.passed)
  {
  }
}
