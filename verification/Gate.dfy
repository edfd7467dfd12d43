/** The retrieval gate (ai-service/app/retrieval.py), over exact reals. */
module Gate {
  datatype RetrievedChunk = RetrievedChunk(chunkId: string, text: string, startMs: int, endMs: int, cosineSimilarity: real)

  datatype Reason = NoChunks | LowTop1 | LowMean | Fine

  datatype Decision = Decision(passed: bool, reason: Reason, top1: real, meanTop3: real)

  /** `sorted(results, key=score, reverse=True)`: descending, equal scores in input order. */
  function Insert(r: RetrievedChunk, sorted: seq<RetrievedChunk>): seq<RetrievedChunk> {
    if sorted == [] then [r]
    else if r.cosineSimilarity > sorted[0].cosineSimilarity then [r] + sorted
    else [sorted[0]] + Insert(r, sorted[1..])
  }

  function Sorted(results: seq<RetrievedChunk>): seq<RetrievedChunk> {
    if results == [] then [] else Insert(results[|results| - 1], Sorted(results[..|results| - 1]))
  }

  function Scores(results: seq<RetrievedChunk>): (s: seq<real>)
    ensures |s| == |results|
  {
    seq(|results|, i requires 0 <= i < |results| => results[i].cosineSimilarity)
  }

  function Sum(scores: seq<real>): real {
    if scores == [] then 0.0 else Sum(scores[..|scores| - 1]) + scores[|scores| - 1]
  }

  /** `sorted_results[:3]` */
  function TopCount(n: nat): nat { if n < 3 then n else 3 }

  /** The mean of the first three, or of all when there are fewer. */
  function MeanTop3(sorted: seq<real>): real
    requires sorted != []
  {
    Sum(sorted[..TopCount(|sorted|)]) / TopCount(|sorted|) as real
  }

  function EvaluateGate(results: seq<RetrievedChunk>, minTop1: real, minMeanTop3: real): Decision {
    if results == [] then Decision(false, NoChunks, 0.0, 0.0)
    else
      SortedLength(results);
      var scores := Scores(Sorted(results));
      var top1, mean := scores[0], MeanTop3(scores);
      if top1 < minTop1 then Decision(false, LowTop1, top1, mean)
      else if mean < minMeanTop3 then Decision(false, LowMean, top1, mean)
      else Decision(true, Fine, top1, mean)
  }

  lemma {:induction false} InsertLength(r: RetrievedChunk, sorted: seq<RetrievedChunk>)
    ensures |Insert(r, sorted)| == |sorted| + 1
  {
    if sorted != [] && r.cosineSimilarity <= sorted[0].cosineSimilarity {
      InsertLength(r, sorted[1..]);
    }
  }

  lemma {:induction false} SortedLength(results: seq<RetrievedChunk>)
    ensures |Sorted(results)| == |results|
  {
    if results == [] {
    } else {
      SortedLength(results[..|results| - 1]);
      InsertLength(results[|results| - 1], Sorted(results[..|results| - 1]));
    }
  }

  // ----- Only the scores matter -----

  function InsertScore(x: real, s: seq<real>): seq<real> {
    if s == [] then [x] else if x > s[0] then [x] + s else [s[0]] + InsertScore(x, s[1..])
  }

  function SortScores(s: seq<real>): seq<real> {
    if s == [] then [] else InsertScore(s[|s| - 1], SortScores(s[..|s| - 1]))
  }

  lemma {:induction false} InsertScores(r: RetrievedChunk, sorted: seq<RetrievedChunk>)
    ensures Scores(Insert(r, sorted)) == InsertScore(r.cosineSimilarity, Scores(sorted))
  {
    if sorted == [] {
    } else {
      if r.cosineSimilarity > sorted[0].cosineSimilarity {
        assert Scores([r] + sorted) == [r.cosineSimilarity] + Scores(sorted);
      } else {
        InsertScores(r, sorted[1..]);
        assert Scores(sorted)[1..] == Scores(sorted[1..]);
        assert Scores([sorted[0]] + Insert(r, sorted[1..])) == [sorted[0].cosineSimilarity] + Scores(Insert(r, sorted[1..]));
      }
    }
  }

  lemma {:induction false} SortedScores(results: seq<RetrievedChunk>)
    ensures Scores(Sorted(results)) == SortScores(Scores(results))
  {
    if results == [] {
    } else {
      var n := |results| - 1;
      SortedScores(results[..n]);
      InsertScores(results[n], Sorted(results[..n]));
      assert Scores(results)[..n] == Scores(results[..n]);
    }
  }

  // ----- The sort -----

  ghost predicate Descending(s: seq<real>) {
    forall i, j | 0 <= i < j < |s| :: s[i] >= s[j]
  }

  lemma {:induction false} InsertUpTo(x: real, s: seq<real>, bound: real)
    requires x <= bound && forall i | 0 <= i < |s| :: s[i] <= bound
    ensures forall i | 0 <= i < |InsertScore(x, s)| :: InsertScore(x, s)[i] <= bound
  {
    if s == [] {
    } else {
      InsertUpTo(x, s[1..], bound);
    }
  }

  lemma {:induction false} InsertDescends(x: real, s: seq<real>)
    requires Descending(s)
    ensures Descending(InsertScore(x, s))
  {
    if s != [] && x <= s[0] {
      InsertDescends(x, s[1..]);
      InsertUpTo(x, s[1..], s[0]);
    }
  }

  lemma TailMultiset(x: real, s: seq<real>)
    ensures multiset([x] + s) == multiset{x} + multiset(s)
  {
  }

  lemma {:induction false} InsertMultiset(x: real, s: seq<real>)
    ensures multiset(InsertScore(x, s)) == multiset(s) + multiset{x}
  {
    TailMultiset(x, s);
    if s != [] && x <= s[0] {
      InsertMultiset(x, s[1..]);
      assert s == [s[0]] + s[1..];
      TailMultiset(s[0], s[1..]);
      TailMultiset(s[0], InsertScore(x, s[1..]));
    }
  }

  /** The sort is a descending rearrangement. */
  lemma {:induction false} SortDescends(s: seq<real>)
    ensures Descending(SortScores(s))
    ensures multiset(SortScores(s)) == multiset(s)
  {
    if s == [] {
    } else {
      var n := |s| - 1;
      SortDescends(s[..n]);
      InsertDescends(s[n], SortScores(s[..n]));
      InsertMultiset(s[n], SortScores(s[..n]));
      assert s == s[..n] + [s[n]];
    }
  }

  lemma FirstIsLargest(s: seq<real>, t: seq<real>)
    requires Descending(t) && s != [] && multiset(s) == multiset(t)
    ensures t != [] && s[0] <= t[0]
  {
    assert s[0] in multiset(t);
    var i :| 0 <= i < |t| && t[i] == s[0];
  }

  /** Two descending rearrangements of the same scores are the same. */
  lemma {:induction false} DescendingUnique(s: seq<real>, t: seq<real>)
    requires Descending(s) && Descending(t) && multiset(s) == multiset(t)
    ensures s == t
  {
    if s != [] {
      FirstIsLargest(s, t);
      FirstIsLargest(t, s);
      assert s == [s[0]] + s[1..] && t == [s[0]] + t[1..];
      TailMultiset(s[0], s[1..]);
      TailMultiset(s[0], t[1..]);
      CancelOne(s[0], multiset(s[1..]), multiset(t[1..]));
      DescendingUnique(s[1..], t[1..]);
    } else if t != [] {
      FirstIsLargest(t, s);
    }
  }

  lemma CancelOne(x: real, m: multiset<real>, n: multiset<real>)
    requires multiset{x} + m == multiset{x} + n
    ensures m == n
  {
    assert (multiset{x} + m) - multiset{x} == m;
    assert (multiset{x} + n) - multiset{x} == n;
  }

  /** No result scores above top1, and one of them has it. */
  lemma Top1IsMax(results: seq<RetrievedChunk>, minTop1: real, minMeanTop3: real)
    requires results != []
    ensures forall i | 0 <= i < |results| :: results[i].cosineSimilarity <= EvaluateGate(results, minTop1, minMeanTop3).top1
    ensures exists i :: 0 <= i < |results| && results[i].cosineSimilarity == EvaluateGate(results, minTop1, minMeanTop3).top1
  {
    SortedScores(results);
    SortDescends(Scores(results));
    SortedLength(results);
    var sorted := SortScores(Scores(results));
    forall i | 0 <= i < |results| ensures results[i].cosineSimilarity <= sorted[0] {
      assert Scores(results)[i] in multiset(sorted);
    }
    assert sorted[0] in multiset(Scores(results));
    var i :| 0 <= i < |results| && Scores(results)[i] == sorted[0];
    assert results[i].cosineSimilarity == sorted[0];
  }

  /** Permuting the results changes nothing in the decision. */
  lemma OrderIndependent(a: seq<RetrievedChunk>, b: seq<RetrievedChunk>, minTop1: real, minMeanTop3: real)
    requires multiset(Scores(a)) == multiset(Scores(b))
    ensures EvaluateGate(a, minTop1, minMeanTop3) == EvaluateGate(b, minTop1, minMeanTop3)
  {
    SortedScores(a);
    SortedScores(b);
    SortDescends(Scores(a));
    SortDescends(Scores(b));
    DescendingUnique(SortScores(Scores(a)), SortScores(Scores(b)));
    assert |multiset(Scores(a))| == |a| && |multiset(Scores(b))| == |b|;
  }

  // ----- Monotonicity -----

  ghost predicate Below(s: seq<real>, t: seq<real>) {
    |s| == |t| && forall i | 0 <= i < |s| :: s[i] <= t[i]
  }

  lemma {:induction false} InsertInFront(x: real, s: seq<real>)
    requires Descending(s) && (s != [] ==> x >= s[0])
    ensures InsertScore(x, s) == [x] + s
  {
    if s != [] && x == s[0] {
      InsertInFront(x, s[1..]);
      assert s == [s[0]] + s[1..];
    }
  }

  lemma BelowCons(x: real, s: seq<real>, y: real, t: seq<real>)
    requires x <= y && Below(s, t)
    ensures Below([x] + s, [y] + t)
  {
  }

  lemma TailsBelow(s: seq<real>, t: seq<real>)
    requires Below(s, t) && Descending(s) && Descending(t) && s != []
    ensures t != [] && s[0] <= t[0] && Below(s[1..], t[1..]) && Descending(s[1..]) && Descending(t[1..])
    ensures |s| > 1 ==> s[0] >= s[1..][0]
    ensures |t| > 1 ==> t[0] >= t[1..][0]
    ensures s == [s[0]] + s[1..] && t == [t[0]] + t[1..]
  {
  }

  lemma {:induction false} InsertBelow(x: real, s: seq<real>, y: real, t: seq<real>)
    requires x <= y && Below(s, t) && Descending(s) && Descending(t)
    ensures Below(InsertScore(x, s), InsertScore(y, t))
    decreases |s|, 1
  {
    if s == [] {
    } else {
      TailsBelow(s, t);
      InsertTailsBelow(x, s, y, t);
    }
  }

  lemma {:induction false} InsertTailsBelow(x: real, s: seq<real>, y: real, t: seq<real>)
    requires x <= y && |s| == |t| > 0 && s[0] <= t[0] && Below(s, t)
    requires Below(s[1..], t[1..]) && Descending(s[1..]) && Descending(t[1..])
    requires |s| > 1 ==> s[0] >= s[1..][0]
    requires |t| > 1 ==> t[0] >= t[1..][0]
    requires s == [s[0]] + s[1..] && t == [t[0]] + t[1..]
    ensures Below(InsertScore(x, s), InsertScore(y, t))
    decreases |s|, 0
  {
    hide Below, Descending;
    if x > s[0] && y > t[0] {
      BelowCons(x, s, y, t);
    } else if x > s[0] {
      InsertBelow(s[0], s[1..], y, t[1..]);
      InsertInFront(s[0], s[1..]);
      BelowCons(x, s, t[0], InsertScore(y, t[1..]));
    } else if y > t[0] {
      InsertBelow(x, s[1..], t[0], t[1..]);
      InsertInFront(t[0], t[1..]);
      BelowCons(s[0], InsertScore(x, s[1..]), y, t);
    } else {
      InsertBelow(x, s[1..], y, t[1..]);
      BelowCons(s[0], InsertScore(x, s[1..]), t[0], InsertScore(y, t[1..]));
    }
  }

  lemma {:induction false} SortBelow(s: seq<real>, t: seq<real>)
    requires Below(s, t)
    ensures Below(SortScores(s), SortScores(t))
  {
    if s == [] {
    } else {
      var n := |s| - 1;
      SortBelow(s[..n], t[..n]);
      SortDescends(s[..n]);
      SortDescends(t[..n]);
      InsertBelow(s[n], SortScores(s[..n]), t[n], SortScores(t[..n]));
    }
  }

  lemma {:induction false} SumBelow(s: seq<real>, t: seq<real>)
    requires Below(s, t)
    ensures Sum(s) <= Sum(t)
  {
    if s == [] {
    } else {
      SumBelow(s[..|s| - 1], t[..|t| - 1]);
    }
  }

  /** Raising scores, in any positions, never turns a pass into a fail. */
  lemma RaisingKeepsPass(a: seq<RetrievedChunk>, b: seq<RetrievedChunk>, minTop1: real, minMeanTop3: real)
    requires Below(Scores(a), Scores(b))
    ensures EvaluateGate(a, minTop1, minMeanTop3).top1 <= EvaluateGate(b, minTop1, minMeanTop3).top1
    ensures EvaluateGate(a, minTop1, minMeanTop3).meanTop3 <= EvaluateGate(b, minTop1, minMeanTop3).meanTop3
    ensures EvaluateGate(a, minTop1, minMeanTop3).passed ==> EvaluateGate(b, minTop1, minMeanTop3).passed
  {
    if a != [] {
      SortedScores(a);
      SortedScores(b);
      SortedLength(a);
      SortedLength(b);
      SortBelow(Scores(a), Scores(b));
      var s, t := SortScores(Scores(a)), SortScores(Scores(b));
      var k := TopCount(|s|);
      SumBelow(s[..k], t[..k]);
      MeanBelow(Sum(s[..k]), Sum(t[..k]), k);
    }
  }

  lemma MeanBelow(x: real, y: real, k: nat)
    requires x <= y && 0 < k
    ensures x / k as real <= y / k as real
  {
  }

  // ----- Adding a result -----

  lemma {:induction false} SumCons(x: real, s: seq<real>)
    ensures Sum([x] + s) == x + Sum(s)
  {
    if s == [] {
      assert ([x] + s)[..0] == [];
    } else {
      var n := |s| - 1;
      SumCons(x, s[..n]);
      assert ([x] + s)[..n + 1] == [x] + s[..n];
    }
  }

  lemma {:induction false} InsertSum(x: real, s: seq<real>)
    ensures Sum(InsertScore(x, s)) == x + Sum(s)
  {
    if s == [] || x > s[0] {
      SumCons(x, s);
      assert s == [] ==> [x] + s == [x];
    } else {
      InsertSum(x, s[1..]);
      SumCons(s[0], InsertScore(x, s[1..]));
      SumCons(s[0], s[1..]);
      assert s == [s[0]] + s[1..];
    }
  }

  lemma {:induction false} SortSum(s: seq<real>)
    ensures Sum(SortScores(s)) == Sum(s)
  {
    if s == [] {
    } else {
      SortSum(s[..|s| - 1]);
      InsertSum(s[|s| - 1], SortScores(s[..|s| - 1]));
    }
  }

  /** No rank gets worse when a score is inserted. */
  lemma {:induction false} InsertRaises(x: real, s: seq<real>)
    requires Descending(s)
    ensures |InsertScore(x, s)| == |s| + 1 && forall k | 0 <= k < |s| :: s[k] <= InsertScore(x, s)[k]
  {
    if s == [] {
    } else if x <= s[0] {
      InsertRaises(x, s[1..]);
      assert s == [s[0]] + s[1..];
    }
  }

  lemma SortedWith(a: seq<RetrievedChunk>, r: RetrievedChunk)
    ensures Scores(Sorted(a + [r])) == InsertScore(r.cosineSimilarity, SortScores(Scores(a)))
  {
    SortedScores(a + [r]);
    assert Scores(a + [r]) == Scores(a) + [r.cosineSimilarity];
    assert (Scores(a) + [r.cosineSimilarity])[..|a|] == Scores(a);
  }

  lemma DividedAtLeast(sum: real, n: nat, bound: real)
    requires 0 < n
    ensures sum / n as real >= bound <==> sum >= n as real * bound
  {
  }

  lemma PassedIff(a: seq<RetrievedChunk>, minTop1: real, minMeanTop3: real)
    requires a != []
    ensures |Scores(Sorted(a))| == |a|
    ensures EvaluateGate(a, minTop1, minMeanTop3).passed <==>
      Scores(Sorted(a))[0] >= minTop1 && MeanTop3(Scores(Sorted(a))) >= minMeanTop3
  {
    SortedLength(a);
  }

  lemma MeanOfMany(x: real, s: seq<real>)
    requires Descending(s) && |s| >= 3
    ensures |InsertScore(x, s)| == |s| + 1 && MeanTop3(s) <= MeanTop3(InsertScore(x, s))
  {
    InsertRaises(x, s);
    SumBelow(s[..3], InsertScore(x, s)[..3]);
    MeanBelow(Sum(s[..3]), Sum(InsertScore(x, s)[..3]), 3);
  }

  lemma MeanOfFew(x: real, s: seq<real>, bound: real)
    requires Descending(s) && |s| < 3
    ensures |InsertScore(x, s)| == |s| + 1
    ensures MeanTop3(InsertScore(x, s)) >= bound <==> Sum(s) + x >= (|s| + 1) as real * bound
  {
    var t := InsertScore(x, s);
    InsertRaises(x, s);
    InsertSum(x, s);
    assert t[..|t|] == t;
    DividedAtLeast(Sum(t), |t|, bound);
  }

  /** A result added to three or more of a passing list never fails it; added to fewer, the
      mean of all of them decides. */
  lemma AddingDecides(a: seq<RetrievedChunk>, r: RetrievedChunk, minTop1: real, minMeanTop3: real)
    requires EvaluateGate(a, minTop1, minMeanTop3).passed
    ensures EvaluateGate(a + [r], minTop1, minMeanTop3).passed <==>
      |a| >= 3 || Sum(Scores(a)) + r.cosineSimilarity >= (|a| + 1) as real * minMeanTop3
  {
    hide EvaluateGate, Sum, MeanTop3, SortScores, InsertScore, Sorted;
    assert a != [] by { PassedNonempty(a, minTop1, minMeanTop3); }
    var x, s := r.cosineSimilarity, SortScores(Scores(a));
    PassedIff(a, minTop1, minMeanTop3);
    PassedIff(a + [r], minTop1, minMeanTop3);
    SortedScores(a);
    SortedWith(a, r);
    SortDescends(Scores(a));
    SortSum(Scores(a));
    InsertRaises(x, s);
    if |a| >= 3 {
      MeanOfMany(x, s);
    } else {
      MeanOfFew(x, s, minMeanTop3);
    }
  }

  lemma PassedNonempty(a: seq<RetrievedChunk>, minTop1: real, minMeanTop3: real)
    requires EvaluateGate(a, minTop1, minMeanTop3).passed
    ensures a != []
  {
  }
}
