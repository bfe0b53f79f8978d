/** The evaluator `calculate_map` (functions.py:77-96).  Row q of the similarity matrix
    belongs to query id q + 1; column j to document id j + 1.  The ranking that
    `np.argsort(scores)[::-1]` produces is an input here: any permutation of the column
    indices that lists the scores from highest to lowest.  Scores and precisions are exact
    reals, and the NaN that `np.mean([])` returns is `None`. */
module MapEvaluator {
  import opened Wrappers

  /** `r` lists every index below `n` exactly once. */
  predicate IsPermutation(r: seq<int>, n: nat) {
    && |r| == n
    && (forall i :: 0 <= i < n ==> 0 <= r[i] < n)
    && (forall i, j :: 0 <= i < j < n ==> r[i] != r[j])
    && (forall d :: 0 <= d < n ==> d in r)
  }

  predicate Distinct(s: seq<int>) {
    forall i, j :: 0 <= i < j < |s| ==> s[i] != s[j]
  }

  /** A ranking of the scores: a permutation of their indices in non-increasing order. */
  predicate IsRanking(scores: seq<real>, r: seq<int>) {
    && IsPermutation(r, |scores|)
    && forall i, j :: 0 <= i < j < |r| ==> scores[r[i]] >= scores[r[j]]
  }

  /** Is document index `d` relevant?  (`doc_idx + 1 in relevant_docs`, functions.py:88) */
  predicate Relevant(d: int, rel: set<int>) { d + 1 in rel }

  /** The value of `hits` once the walk has passed the ranked prefix `s`. */
  function Hits(s: seq<int>, rel: set<int>): (h: nat)
    ensures h <= |s|
  {
    if s == [] then 0
    else Hits(s[..|s| - 1], rel) + (if Relevant(s[|s| - 1], rel) then 1 else 0)
  }

  /** The value of `sum_precisions` once the walk has passed the ranked prefix `s`: at every
      relevant rank k (1-based) it adds hits / k. */
  function PrecisionSum(s: seq<int>, rel: set<int>): real {
    if s == [] then 0.0
    else PrecisionSum(s[..|s| - 1], rel)
         + (if Relevant(s[|s| - 1], rel) then Hits(s, rel) as real / |s| as real else 0.0)
  }

  /** `sum_precisions / len(relevant_docs)` (functions.py:93). */
  function AveragePrecision(ranking: seq<int>, rel: set<int>): (ap: real)
    requires rel != {}
    ensures 0.0 <= ap <= Hits(ranking, rel) as real / |rel| as real
    ensures ap == 0.0 <==> Hits(ranking, rel) == 0
  {
    PrecisionSumBounds(ranking, rel);
    PrecisionSumZero(ranking, rel);
    PrecisionSum(ranking, rel) / |rel| as real
  }

  /** The relevant ids whose document occurs in the ranked prefix `s`. */
  function RankedRelevant(s: seq<int>, rel: set<int>): set<int> {
    set d | d in rel && d - 1 in s
  }

  /** A query takes part in the mean when its key q + 1 holds a non-empty set
      (functions.py:80-82). */
  predicate Qualifies(qrels: map<int, set<int>>, q: int) {
    q + 1 in qrels && qrels[q + 1] != {}
  }

  /** `average_precisions` after the first `n` rows of the matrix. */
  function AveragePrecisions(rankings: seq<seq<int>>, qrels: map<int, set<int>>, n: nat): seq<real>
    requires n <= |rankings|
  {
    if n == 0 then []
    else AveragePrecisions(rankings, qrels, n - 1)
         + (if Qualifies(qrels, n - 1) then [AveragePrecision(rankings[n - 1], qrels[n])] else [])
  }

  function Sum(xs: seq<real>): real {
    if xs == [] then 0.0 else Sum(xs[..|xs| - 1]) + xs[|xs| - 1]
  }

  /** `np.mean(xs)`; an empty list has no mean. */
  function Mean(xs: seq<real>): Option<real> {
    if xs == [] then None else Some(Sum(xs) / |xs| as real)
  }

  /** `calculate_map(similarities, qrels)`, with `rankings[q]` standing for
      `np.argsort(similarities[q])[::-1]`. */
  method CalculateMap(similarities: seq<seq<real>>, rankings: seq<seq<int>>, qrels: map<int, set<int>>)
    returns (m: Option<real>)
    requires |rankings| == |similarities|
    requires forall q :: 0 <= q < |similarities| ==> IsRanking(similarities[q], rankings[q])
    ensures m == Mean(AveragePrecisions(rankings, qrels, |rankings|))
    ensures m == None <==> forall q :: 0 <= q < |similarities| ==> !Qualifies(qrels, q)
    ensures m != None ==> 0.0 <= m.value <= 1.0
  {
    var averagePrecisions: seq<real> := [];
    for queryIdx := 0 to |similarities|
      invariant averagePrecisions == AveragePrecisions(rankings, qrels, queryIdx)
    {
      var relevantDocs := if queryIdx + 1 in qrels then qrels[queryIdx + 1] else {};
      if relevantDocs == {} {
        continue;
      }
      var rankedDocs := rankings[queryIdx];
      var hits := 0;
      var sumPrecisions := 0.0;
      for rank := 0 to |rankedDocs|
        invariant hits == Hits(rankedDocs[..rank], relevantDocs)
        invariant sumPrecisions == PrecisionSum(rankedDocs[..rank], relevantDocs)
      {
        assert rankedDocs[..rank + 1][..rank] == rankedDocs[..rank];
        if rankedDocs[rank] + 1 in relevantDocs {
          hits := hits + 1;
          var precisionAtK := hits as real / (rank + 1) as real;
          sumPrecisions := sumPrecisions + precisionAtK;
        }
      }
      assert rankedDocs[..|rankedDocs|] == rankedDocs;
      var averagePrecision := sumPrecisions / |relevantDocs| as real;
      averagePrecisions := averagePrecisions + [averagePrecision];
    }
    m := Mean(averagePrecisions);
    ApsInUnitRange(similarities, rankings, qrels, |rankings|);
    ApsEmpty(rankings, qrels, |rankings|);
    MeanInUnitRange(averagePrecisions);
  }

  // ---- arithmetic helpers ----

  lemma Ratio(a: nat, b: nat)
    requires 0 < b && a <= b
    ensures 0.0 <= a as real / b as real <= 1.0
    ensures a > 0 ==> a as real / b as real > 0.0
    ensures a as real / b as real == 1.0 <==> a == b
  {
  }

  lemma RealRatio(x: real, y: real)
    requires 0.0 <= x <= y && 0.0 < y
    ensures 0.0 <= x / y <= 1.0
    ensures x / y == 0.0 <==> x == 0.0
    ensures x / y == 1.0 <==> x == y
  {
  }

  lemma SubsetSize<T>(a: set<T>, b: set<T>)
    requires a <= b
    ensures |a| <= |b|
  {
    assert |b - a| == |b| - |a|;
  }

  lemma SubsetSameSize<T>(a: set<T>, b: set<T>)
    requires a <= b && |a| == |b|
    ensures a == b
  {
    assert |b - a| == |b| - |a|;
  }

  // ---- the walk ----

  /** Each `precision_at_k` lies in (0, 1]: at a relevant rank, 1 <= hits <= rank. */
  lemma PrecisionAtK(s: seq<int>, rel: set<int>)
    requires s != [] && Relevant(s[|s| - 1], rel)
    ensures 0.0 < Hits(s, rel) as real / |s| as real <= 1.0
  {
    Ratio(Hits(s, rel), |s|);
  }

  lemma {:induction false} PrecisionSumBounds(s: seq<int>, rel: set<int>)
    ensures 0.0 <= PrecisionSum(s, rel) <= Hits(s, rel) as real
  {
    if s != [] {
      PrecisionSumBounds(s[..|s| - 1], rel);
      Ratio(Hits(s, rel), |s|);
    }
  }

  /** The sum of precisions is zero exactly when no relevant document was ranked. */
  lemma PrecisionSumZero(s: seq<int>, rel: set<int>)
    ensures PrecisionSum(s, rel) == 0.0 <==> Hits(s, rel) == 0
  {
    PrecisionSumBounds(s, rel);
    if Hits(s, rel) > 0 {
      PrecisionSumPositive(s, rel);
    }
  }

  lemma {:induction false} PrecisionSumPositive(s: seq<int>, rel: set<int>)
    requires Hits(s, rel) > 0
    ensures PrecisionSum(s, rel) > 0.0
  {
    var init := s[..|s| - 1];
    PrecisionSumBounds(init, rel);
    if Relevant(s[|s| - 1], rel) {
      Ratio(Hits(s, rel), |s|);
    } else {
      PrecisionSumPositive(init, rel);
    }
  }

  /** hits reaches the prefix length exactly when every ranked document so far is relevant. */
  lemma {:induction false} HitsAll(s: seq<int>, rel: set<int>)
    ensures Hits(s, rel) == |s| <==> forall i :: 0 <= i < |s| ==> Relevant(s[i], rel)
  {
    if s != [] {
      var init := s[..|s| - 1];
      HitsAll(init, rel);
      assert forall i :: 0 <= i < |init| ==> init[i] == s[i];
    }
  }

  /** On a ranking without repeats, hits counts the relevant ids whose document was
      ranked. */
  lemma {:induction false} HitsCount(s: seq<int>, rel: set<int>)
    requires Distinct(s)
    ensures Hits(s, rel) == |RankedRelevant(s, rel)|
  {
    if s == [] {
      assert RankedRelevant(s, rel) == {};
    } else {
      var init, x := s[..|s| - 1], s[|s| - 1];
      HitsCount(init, rel);
      assert x !in init;
      assert s == init + [x];
      RankedRelevantStep(init, x, rel);
      if Relevant(x, rel) {
        assert x + 1 !in RankedRelevant(init, rel);
      }
    }
  }

  /** One more ranked document adds its id when it is relevant. */
  lemma RankedRelevantStep(init: seq<int>, x: int, rel: set<int>)
    ensures RankedRelevant(init + [x], rel) == RankedRelevant(init, rel) + (if Relevant(x, rel) then {x + 1} else {})
  {
    assert forall y :: y in init + [x] <==> y in init || y == x;
  }

  /** After the walk over a permutation of the n documents, hits equals the number of
      relevant ids in 1..n (functions.py:85-91). */
  lemma FinalHits(ranking: seq<int>, rel: set<int>, n: nat)
    requires IsPermutation(ranking, n)
    ensures Hits(ranking, rel) == |set d | d in rel && 1 <= d <= n|
  {
    HitsCount(ranking, rel);
    assert RankedRelevant(ranking, rel) == set d | d in rel && 1 <= d <= n;
  }

  /** If the precision sum equals hits, every precision counted was 1, so the first `hits`
      ranked documents are all relevant. */
  lemma {:induction false} TightSumTopRanked(s: seq<int>, rel: set<int>)
    requires PrecisionSum(s, rel) == Hits(s, rel) as real
    ensures forall i :: 0 <= i < Hits(s, rel) ==> Relevant(s[i], rel)
  {
    if s != [] {
      var init := s[..|s| - 1];
      PrecisionSumBounds(init, rel);
      if Relevant(s[|s| - 1], rel) {
        Ratio(Hits(s, rel), |s|);
        assert Hits(s, rel) == |s|;
        HitsAll(s, rel);
      } else {
        TightSumTopRanked(init, rel);
        assert forall i :: 0 <= i < |init| ==> init[i] == s[i];
      }
    }
  }

  /** If the top k = |rel| ranked documents are all relevant, no later one is. */
  lemma TopRankedExhausts(s: seq<int>, rel: set<int>, m: nat)
    requires Distinct(s) && |rel| <= m < |s|
    requires forall i :: 0 <= i < |rel| ==> Relevant(s[i], rel)
    ensures !Relevant(s[m], rel)
  {
    var k := |rel|;
    var top := s[..k];
    assert Distinct(top);
    HitsAll(top, rel);
    HitsCount(top, rel);
    SubsetSameSize(RankedRelevant(top, rel), rel);
  }

  lemma {:induction false} TopRankedPrefix(s: seq<int>, rel: set<int>, m: nat)
    requires Distinct(s) && |rel| <= |s| && m <= |s|
    requires forall i :: 0 <= i < |rel| ==> Relevant(s[i], rel)
    ensures m <= |rel| ==> Hits(s[..m], rel) == m && PrecisionSum(s[..m], rel) == m as real
    ensures m >= |rel| ==> Hits(s[..m], rel) == |rel| && PrecisionSum(s[..m], rel) == |rel| as real
  {
    if m > 0 {
      TopRankedPrefix(s, rel, m - 1);
      assert s[..m][..m - 1] == s[..m - 1];
      if m > |rel| {
        TopRankedExhausts(s, rel, m - 1);
      }
    }
  }

  /** 0 <= AP <= 1 for a permutation ranking; AP is 0 exactly when no relevant id names
      one of the n documents. */
  lemma ApBounds(ranking: seq<int>, rel: set<int>, n: nat)
    requires IsPermutation(ranking, n) && rel != {}
    ensures 0.0 <= AveragePrecision(ranking, rel) <= 1.0
    ensures AveragePrecision(ranking, rel) == 0.0 <==> forall d :: d in rel ==> !(1 <= d <= n)
  {
    PrecisionSumBounds(ranking, rel);
    FinalHits(ranking, rel, n);
    var inRange := set d | d in rel && 1 <= d <= n;
    SubsetSize(inRange, rel);
    RealRatio(PrecisionSum(ranking, rel), |rel| as real);
    assert forall d :: d in rel && 1 <= d <= n ==> d in inRange;
    if Hits(ranking, rel) > 0 {
      PrecisionSumPositive(ranking, rel);
      var d :| d in inRange;
    } else {
      assert inRange == {};
    }
  }

  /** AP is 1 exactly when every relevant id names a ranked document and those documents
      fill the top |rel| ranks. */
  lemma ApOne(ranking: seq<int>, rel: set<int>, n: nat)
    requires IsPermutation(ranking, n) && rel != {}
    ensures AveragePrecision(ranking, rel) == 1.0 <==>
      && (forall d :: d in rel ==> 1 <= d <= n)
      && |rel| <= n
      && (forall i :: 0 <= i < |rel| ==> Relevant(ranking[i], rel))
  {
    var k := |rel|;
    var ps := PrecisionSum(ranking, rel);
    assert Distinct(ranking);
    HitsCount(ranking, rel);
    SubsetSize(RankedRelevant(ranking, rel), rel);
    PrecisionSumBounds(ranking, rel);
    RealRatio(ps, k as real);
    if AveragePrecision(ranking, rel) == 1.0 {
      assert ps == k as real;
      assert Hits(ranking, rel) == k;
      TightSumTopRanked(ranking, rel);
      SubsetSameSize(RankedRelevant(ranking, rel), rel);
    }
    if k <= n && forall i :: 0 <= i < k ==> Relevant(ranking[i], rel) {
      TopRankedPrefix(ranking, rel, n);
      assert ranking[..n] == ranking;
      HitsCount(ranking, rel);
      SubsetSameSize(RankedRelevant(ranking, rel), rel);
    }
  }

  // ---- the mean ----

  lemma {:induction false} ApsInUnitRange(similarities: seq<seq<real>>, rankings: seq<seq<int>>, qrels: map<int, set<int>>, n: nat)
    requires |rankings| == |similarities| && n <= |rankings|
    requires forall q :: 0 <= q < |similarities| ==> IsRanking(similarities[q], rankings[q])
    ensures forall x :: x in AveragePrecisions(rankings, qrels, n) ==> 0.0 <= x <= 1.0
  {
    if n > 0 {
      ApsInUnitRange(similarities, rankings, qrels, n - 1);
      if Qualifies(qrels, n - 1) {
        ApBounds(rankings[n - 1], qrels[n], |similarities[n - 1]|);
      }
    }
  }

  lemma {:induction false} ApsEmpty(rankings: seq<seq<int>>, qrels: map<int, set<int>>, n: nat)
    requires n <= |rankings|
    ensures AveragePrecisions(rankings, qrels, n) == [] <==> forall q :: 0 <= q < n ==> !Qualifies(qrels, q)
  {
    if n > 0 {
      ApsEmpty(rankings, qrels, n - 1);
    }
  }

  /** One average precision per qualifying query: a query without judgments is skipped,
      not scored 0. */
  lemma {:induction false} OneApPerJudgedQuery(rankings: seq<seq<int>>, qrels: map<int, set<int>>, n: nat)
    requires n <= |rankings|
    ensures |AveragePrecisions(rankings, qrels, n)| == |set q | 0 <= q < n && Qualifies(qrels, q)|
  {
    if n > 0 {
      OneApPerJudgedQuery(rankings, qrels, n - 1);
      var before := set q | 0 <= q < n - 1 && Qualifies(qrels, q);
      if Qualifies(qrels, n - 1) {
        assert (set q | 0 <= q < n && Qualifies(qrels, q)) == before + {n - 1};
      } else {
        assert (set q | 0 <= q < n && Qualifies(qrels, q)) == before;
      }
    }
  }

  lemma {:induction false} SumBounds(xs: seq<real>)
    requires forall i :: 0 <= i < |xs| ==> 0.0 <= xs[i] <= 1.0
    ensures 0.0 <= Sum(xs) <= |xs| as real
  {
    if xs != [] {
      SumBounds(xs[..|xs| - 1]);
    }
  }

  lemma MeanInUnitRange(xs: seq<real>)
    requires forall x :: x in xs ==> 0.0 <= x <= 1.0
    ensures Mean(xs) != None ==> 0.0 <= Mean(xs).value <= 1.0
  {
    if xs != [] {
      forall i | 0 <= i < |xs| ensures 0.0 <= xs[i] <= 1.0 { assert xs[i] in xs; }
      SumBounds(xs);
      var s, n := Sum(xs), |xs| as real;
      assert s / n <= 1.0 by {
        assert s <= n;
        assert s / n <= n / n;
      }
    }
  }
}
