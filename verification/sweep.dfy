/** The driver `process_dataset` that every script repeats: the 256 weighting schemes,
    the run of each scheme with and without stemming, and the ranking of the runs by MAP.
    The vectorizer and cosine similarity (`compute_tfidf_and_similarity`) are a function
    passed in, and so is the score ranking that `np.argsort(...)[::-1]` computes. */
module Sweep {
  import opened Wrappers
  import opened Normalizer
  import opened MapEvaluator

  const TfMethods: seq<char> := ['n', 'l', 'a', 'b']
  const IdfMethods: seq<char> := ['n', 't']
  const Normalizations: seq<char> := ['n', 'c']

  /** `(tf_d, idf_d, norm_d, tf_q, idf_q, norm_q)` */
  datatype Scheme = Scheme(tfD: char, idfD: char, normD: char, tfQ: char, idfQ: char, normQ: char)

  /** `scheme[:3]` and `scheme[3:]` */
  function DocScheme(s: Scheme): (char, char, char) { (s.tfD, s.idfD, s.normD) }
  function QueryScheme(s: Scheme): (char, char, char) { (s.tfQ, s.idfQ, s.normQ) }

  predicate NoDups<T(==)>(s: seq<T>) {
    forall i, j :: 0 <= i < j < |s| ==> s[i] != s[j]
  }

  /** `[(x, y) for x in xs for y in ys]` */
  function Product<A, B>(xs: seq<A>, ys: seq<B>): (r: seq<(A, B)>)
    ensures |r| == |xs| * |ys|
  {
    if xs == [] then []
    else seq(|ys|, j requires 0 <= j < |ys| => (xs[0], ys[j])) + Product(xs[1..], ys)
  }

  /** The pair (xs[i], ys[j]) sits at position i * |ys| + j: x is the outer loop. */
  lemma {:induction false} ProductAt<A, B>(xs: seq<A>, ys: seq<B>, i: nat, j: nat)
    requires i < |xs| && j < |ys|
    ensures i * |ys| + j < |xs| * |ys|
    ensures Product(xs, ys)[i * |ys| + j] == (xs[i], ys[j])
  {
    var n := |ys|;
    var head := seq(n, k requires 0 <= k < n => (xs[0], ys[k]));
    var rest := Product(xs[1..], ys);
    assert Product(xs, ys) == head + rest;
    MulStep(|xs|, n);
    if i == 0 {
      assert i * n == 0;
      assert (head + rest)[j] == head[j];
    } else {
      ProductAt(xs[1..], ys, i - 1, j);
      MulStep(i, n);
      assert (head + rest)[i * n + j] == rest[(i - 1) * n + j];
      assert xs[1..][i - 1] == xs[i];
    }
  }

  /** One row more is `b` more. */
  lemma MulStep(a: nat, b: nat)
    requires a > 0
    ensures a * b == b + (a - 1) * b
  {
  }

  lemma {:induction false} ProductMembers<A, B>(xs: seq<A>, ys: seq<B>)
    ensures forall p :: p in Product(xs, ys) <==> p.0 in xs && p.1 in ys
  {
    if xs != [] {
      var head := seq(|ys|, j requires 0 <= j < |ys| => (xs[0], ys[j]));
      ProductMembers(xs[1..], ys);
      assert forall x :: x in xs <==> x == xs[0] || x in xs[1..];
      forall p ensures p in head <==> p.0 == xs[0] && p.1 in ys {
        if p.0 == xs[0] && p.1 in ys {
          var j :| 0 <= j < |ys| && ys[j] == p.1;
          assert head[j] == p;
        }
      }
    }
  }

  lemma {:induction false} ProductFirst<A, B>(xs: seq<A>, ys: seq<B>, p: (A, B))
    requires p in Product(xs, ys)
    ensures p.0 in xs
  {
    var head := seq(|ys|, j requires 0 <= j < |ys| => (xs[0], ys[j]));
    if p !in head {
      assert Product(xs, ys) == head + Product(xs[1..], ys);
      ProductFirst(xs[1..], ys, p);
    }
  }

  lemma {:induction false} ProductNoDups<A, B>(xs: seq<A>, ys: seq<B>)
    requires NoDups(xs) && NoDups(ys)
    ensures NoDups(Product(xs, ys))
  {
    if xs != [] {
      var head := seq(|ys|, j requires 0 <= j < |ys| => (xs[0], ys[j]));
      var tail := Product(xs[1..], ys);
      ProductNoDups(xs[1..], ys);
      forall p | p in tail ensures p.0 != xs[0] {
        ProductFirst(xs[1..], ys, p);
        var m :| 0 <= m < |xs[1..]| && xs[1..][m] == p.0;
        assert xs[m + 1] == p.0;
      }
      var r := Product(xs, ys);
      forall i, j | 0 <= i < j < |r| ensures r[i] != r[j] {
        if j < |head| {
        } else if i < |head| {
          assert r[j] == tail[j - |head|];
          assert r[j] in tail;
        } else {
          assert r[i] == tail[i - |head|] && r[j] == tail[j - |head|];
        }
      }
    }
  }

  function Flat(t: (char, (char, (char, (char, (char, char)))))): Scheme {
    Scheme(t.0, t.1.0, t.1.1.0, t.1.1.1.0, t.1.1.1.1.0, t.1.1.1.1.1)
  }

  function Tuples(): seq<(char, (char, (char, (char, (char, char)))))> {
    Product(TfMethods, Product(IdfMethods, Product(Normalizations,
      Product(TfMethods, Product(IdfMethods, Normalizations)))))
  }

  /** The comprehension `weighting_schemes`: tf_d outermost, norm_q innermost. */
  function WeightingSchemes(): (ws: seq<Scheme>)
    ensures |ws| == 256
  {
    var t := Tuples();
    seq(|t|, i requires 0 <= i < |t| => Flat(t[i]))
  }

  /** The scheme built from list positions a, b, c, d, e, f is entry
      a·64 + b·32 + c·16 + d·4 + e·2 + f: the order of the nested loops. */
  lemma SchemeAt(a: nat, b: nat, c: nat, d: nat, e: nat, f: nat)
    requires a < 4 && b < 2 && c < 2 && d < 4 && e < 2 && f < 2
    ensures WeightingSchemes()[a * 64 + b * 32 + c * 16 + d * 4 + e * 2 + f]
         == Scheme(TfMethods[a], IdfMethods[b], Normalizations[c], TfMethods[d], IdfMethods[e], Normalizations[f])
  {
    var p4 := Product(TfMethods, Product(IdfMethods, Normalizations));
    var p3 := Product(Normalizations, p4);
    var p2 := Product(IdfMethods, p3);
    assert |p4| == 16 && |p3| == 32 && |p2| == 64;
    var k4 := d * 4 + e * 2 + f;
    QuerySideAt(d, e, f);
    var k3 := c * 16 + k4;
    ProductAt(Normalizations, p4, c, k4);
    assert p3[k3] == (Normalizations[c], p4[k4]);
    var k2 := b * 32 + k3;
    ProductAt(IdfMethods, p3, b, k3);
    assert p2[k2] == (IdfMethods[b], p3[k3]);
    var k1 := a * 64 + k2;
    ProductAt(TfMethods, p2, a, k2);
    assert Tuples()[k1] == (TfMethods[a], p2[k2]);
  }

  /** The query half of a scheme: entry d·4 + e·2 + f of the inner three loops. */
  lemma QuerySideAt(d: nat, e: nat, f: nat)
    requires d < 4 && e < 2 && f < 2
    ensures d * 4 + e * 2 + f < 16
    ensures Product(TfMethods, Product(IdfMethods, Normalizations))[d * 4 + e * 2 + f]
         == (TfMethods[d], (IdfMethods[e], Normalizations[f]))
  {
    var p5 := Product(IdfMethods, Normalizations);
    assert |p5| == 4;
    ProductAt(IdfMethods, Normalizations, e, f);
    assert p5[e * 2 + f] == (IdfMethods[e], Normalizations[f]);
    ProductAt(TfMethods, p5, d, e * 2 + f);
  }

  /** The 256 schemes are pairwise distinct. */
  lemma SchemesDistinct()
    ensures NoDups(WeightingSchemes())
  {
    ProductNoDups(IdfMethods, Normalizations);
    ProductNoDups(TfMethods, Product(IdfMethods, Normalizations));
    ProductNoDups(Normalizations, Product(TfMethods, Product(IdfMethods, Normalizations)));
    ProductNoDups(IdfMethods, Product(Normalizations, Product(TfMethods, Product(IdfMethods, Normalizations))));
    ProductNoDups(TfMethods, Product(IdfMethods, Product(Normalizations, Product(TfMethods, Product(IdfMethods, Normalizations)))));
    var t := Tuples();
    var ws := WeightingSchemes();
    forall i, j | 0 <= i < j < |ws| ensures ws[i] != ws[j] {
      assert t[i] != t[j];
    }
  }

  /** A scheme is listed exactly when each of its six letters comes from its list. */
  lemma SchemeMembers(s: Scheme)
    ensures s in WeightingSchemes() <==>
      && s.tfD in TfMethods && s.idfD in IdfMethods && s.normD in Normalizations
      && s.tfQ in TfMethods && s.idfQ in IdfMethods && s.normQ in Normalizations
  {
    ProductMembers(IdfMethods, Normalizations);
    ProductMembers(TfMethods, Product(IdfMethods, Normalizations));
    ProductMembers(Normalizations, Product(TfMethods, Product(IdfMethods, Normalizations)));
    ProductMembers(IdfMethods, Product(Normalizations, Product(TfMethods, Product(IdfMethods, Normalizations))));
    ProductMembers(TfMethods, Product(IdfMethods, Product(Normalizations, Product(TfMethods, Product(IdfMethods, Normalizations)))));
    var t := Tuples();
    var ws := WeightingSchemes();
    if s in ws {
      var i :| 0 <= i < |ws| && ws[i] == s;
      assert t[i] in t;
    }
    var tup := (s.tfD, (s.idfD, (s.normD, (s.tfQ, (s.idfQ, s.normQ)))));
    if tup in t {
      var i :| 0 <= i < |t| && t[i] == tup;
      assert ws[i] == s;
    }
  }

  /** The first position of `x` in `s` (|s| when absent). */
  function IndexOf<T(==)>(s: seq<T>, x: T): nat {
    if s == [] || s[0] == x then 0 else 1 + IndexOf(s[1..], x)
  }

  lemma {:induction false} IndexOfAt<T>(s: seq<T>, i: nat)
    requires NoDups(s) && i < |s|
    ensures IndexOf(s, s[i]) == i
  {
    if i > 0 {
      assert s[1..][i - 1] == s[i];
      IndexOfAt(s[1..], i - 1);
    }
  }

  /** Where a scheme sits in `weighting_schemes`. */
  function SchemeIndex(s: Scheme): nat {
    IndexOf(WeightingSchemes(), s)
  }

  lemma SchemeIndexOf(i: nat)
    requires i < 256
    ensures SchemeIndex(WeightingSchemes()[i]) == i
  {
    SchemesDistinct();
    IndexOfAt(WeightingSchemes(), i);
  }

  // ---- one run per scheme and stemming flag ----

  /** An entry of `results`: `(map_score, scheme, dataset_name, stemming_label)`. */
  datatype Run = Run(score: Option<real>, scheme: Scheme, dataset: string, stemming: string)

  function StemmingLabel(stemming: bool): string {
    if stemming then "stemming" else "no stemming"
  }

  /** `[preprocess_text(doc, stopwords, stemming=stemming) for doc in docs]` */
  function PreprocessAll(docs: seq<string>, stopwords: set<string>, stemming: bool, stem: string -> string): (r: seq<string>)
    ensures |r| == |docs|
  {
    seq(|docs|, i requires 0 <= i < |docs| => PreprocessText(docs[i], stopwords, stemming, stem))
  }

  type Similarity = (seq<string>, seq<string>, (char, char, char), (char, char, char)) -> seq<seq<real>>

  /** The ranking of every row of the similarity matrix. */
  function Rankings(sims: seq<seq<real>>, rank: seq<real> -> seq<int>): (r: seq<seq<int>>)
    ensures |r| == |sims|
  {
    seq(|sims|, q requires 0 <= q < |sims| => rank(sims[q]))
  }

  /** The MAP of one scheme on preprocessed documents and queries. */
  function SchemeScore(docs: seq<string>, queries: seq<string>, scheme: Scheme, qrels: map<int, set<int>>,
                       similarity: Similarity, rank: seq<real> -> seq<int>): Option<real>
  {
    var sims := similarity(docs, queries, DocScheme(scheme), QueryScheme(scheme));
    Mean(AveragePrecisions(Rankings(sims, rank), qrels, |sims|))
  }

  /** The i-th entry appended to `results`: stemming off for the first 256, on for the rest,
      schemes in their listed order. */
  function RunAt(i: nat, name: string, documents: seq<string>, queries: seq<string>, stopwords: set<string>,
                 qrels: map<int, set<int>>, stem: string -> string, similarity: Similarity,
                 rank: seq<real> -> seq<int>): Run
    requires i < 512
  {
    var stemming := i >= 256;
    var scheme := WeightingSchemes()[if i >= 256 then i - 256 else i];
    var docs := PreprocessAll(documents, stopwords, stemming, stem);
    var qs := PreprocessAll(queries, stopwords, stemming, stem);
    Run(SchemeScore(docs, qs, scheme, qrels, similarity, rank), scheme, name, StemmingLabel(stemming))
  }

  /** `results` before the sort. */
  function Appended(name: string, documents: seq<string>, queries: seq<string>, stopwords: set<string>,
                    qrels: map<int, set<int>>, stem: string -> string, similarity: Similarity,
                    rank: seq<real> -> seq<int>): (rs: seq<Run>)
    ensures |rs| == 512
  {
    seq(512, i requires 0 <= i < 512 => RunAt(i, name, documents, queries, stopwords, qrels, stem, similarity, rank))
  }

  /** Where a run was appended: its stemming block, then its scheme's place. */
  function Position(r: Run): nat {
    (if r.stemming == "stemming" then 256 else 0) + SchemeIndex(r.scheme)
  }

  lemma AppendedPositions(name: string, documents: seq<string>, queries: seq<string>, stopwords: set<string>,
                          qrels: map<int, set<int>>, stem: string -> string, similarity: Similarity,
                          rank: seq<real> -> seq<int>)
    ensures forall i :: 0 <= i < 512 ==>
      Position(Appended(name, documents, queries, stopwords, qrels, stem, similarity, rank)[i]) == i
  {
    forall i | 0 <= i < 512
      ensures Position(Appended(name, documents, queries, stopwords, qrels, stem, similarity, rank)[i]) == i
    {
      var r := Appended(name, documents, queries, stopwords, qrels, stem, similarity, rank)[i];
      assert r.scheme == WeightingSchemes()[if i >= 256 then i - 256 else i] && r.stemming == StemmingLabel(i >= 256);
      PositionOf(r, i);
    }
  }

  /** The run of entry i of the sweep sits at position i. */
  lemma PositionOf(r: Run, i: nat)
    requires i < 512 && r.scheme == WeightingSchemes()[if i >= 256 then i - 256 else i] && r.stemming == StemmingLabel(i >= 256)
    ensures Position(r) == i
  {
    if i < 256 {
      SchemeIndexOf(i);
      assert |r.stemming| == 11;
    } else {
      SchemeIndexOf(i - 256);
    }
  }

  /** Every scored run has a MAP in [0, 1]. */
  lemma AppendedScores(name: string, documents: seq<string>, queries: seq<string>, stopwords: set<string>,
                       qrels: map<int, set<int>>, stem: string -> string, similarity: Similarity,
                       rank: seq<real> -> seq<int>)
    requires forall scores: seq<real> :: IsRanking(scores, rank(scores))
    ensures forall i :: 0 <= i < 512 ==>
      var r := Appended(name, documents, queries, stopwords, qrels, stem, similarity, rank)[i];
      r.score.Some? ==> 0.0 <= r.score.value <= 1.0
  {
    forall i | 0 <= i < 512
      ensures var r := Appended(name, documents, queries, stopwords, qrels, stem, similarity, rank)[i];
              r.score.Some? ==> 0.0 <= r.score.value <= 1.0
    {
      var stemming := i >= 256;
      var scheme := WeightingSchemes()[if i >= 256 then i - 256 else i];
      var sims := similarity(PreprocessAll(documents, stopwords, stemming, stem),
                             PreprocessAll(queries, stopwords, stemming, stem), DocScheme(scheme), QueryScheme(scheme));
      var aps := AveragePrecisions(Rankings(sims, rank), qrels, |sims|);
      ApsInUnitRange(sims, Rankings(sims, rank), qrels, |sims|);
      MeanInUnitRange(aps);
    }
  }

  // ---- the stable descending sort ----

  /** `x` sorts strictly before `y`: both scores defined and x's higher. */
  predicate Better(x: Run, y: Run) {
    x.score.Some? && y.score.Some? && x.score.value > y.score.value
  }

  predicate AllScored(rs: seq<Run>) {
    forall k :: 0 <= k < |rs| ==> rs[k].score.Some?
  }

  predicate NonIncreasing(rs: seq<Run>)
    requires AllScored(rs)
  {
    forall k, l :: 0 <= k < l < |rs| ==> rs[k].score.value >= rs[l].score.value
  }

  /** Exchange of positions j - 1 and j. */
  function Swap<T>(s: seq<T>, j: nat): (r: seq<T>)
    requires 0 < j < |s|
    ensures |r| == |s|
  {
    s[j - 1 := s[j]][j := s[j - 1]]
  }

  /** `s` holds the runs of `orig` rearranged: `s[k]` is `orig[perm[k]]`, `perm` injective. */
  predicate Tracks(s: seq<Run>, orig: seq<Run>, perm: seq<nat>) {
    && |perm| == |s| == |orig|
    && (forall k :: 0 <= k < |s| ==> perm[k] < |s| && s[k] == orig[perm[k]])
    && (forall k, l :: 0 <= k < l < |s| ==> perm[k] != perm[l])
  }

  /** Runs with equal scores are in their original order. */
  predicate Stable(s: seq<Run>, perm: seq<nat>)
    requires |perm| == |s|
  {
    forall k, l :: 0 <= k < l < |s| && s[k].score == s[l].score ==> perm[k] < perm[l]
  }

  /** The outer loop of the sort has placed positions below `i`; the run that came from
      position `i` is now at `j`. */
  predicate Placed(perm: seq<nat>, i: nat, j: nat) {
    && j <= i < |perm|
    && perm[j] == i
    && (forall k :: 0 <= k <= i && k != j ==> perm[k] < i)
    && (forall k :: i < k < |perm| ==> perm[k] == k)
  }

  /** All scored, positions up to `i` other than `j` in non-increasing order, and the run
      at `j` strictly above every run after it up to `i`. */
  predicate Inserting(s: seq<Run>, i: nat, j: nat)
    requires j <= i < |s|
  {
    && AllScored(s)
    && (forall k, l :: 0 <= k < l <= i && k != j && l != j ==> s[k].score.value >= s[l].score.value)
    && (forall l :: j < l <= i ==> s[j].score.value > s[l].score.value)
  }

  lemma SwapTracks(s: seq<Run>, orig: seq<Run>, perm: seq<nat>, j: nat)
    requires Tracks(s, orig, perm) && Stable(s, perm)
    requires 0 < j < |s| && Better(s[j], s[j - 1])
    ensures Tracks(Swap(s, j), orig, Swap(perm, j)) && Stable(Swap(s, j), Swap(perm, j))
    ensures multiset(Swap(s, j)) == multiset(s)
  {
    var t, q := Swap(s, j), Swap(perm, j);
    forall k, l | 0 <= k < l < |t| && t[k].score == t[l].score ensures q[k] < q[l] {
      if k == j - 1 && l == j {
      } else if k == j - 1 {
        assert t[k] == s[j] && q[k] == perm[j];
      } else if k == j {
        assert t[k] == s[j - 1] && q[k] == perm[j - 1];
      } else if l == j - 1 {
        assert t[l] == s[j] && q[l] == perm[j];
      } else if l == j {
        assert t[l] == s[j - 1] && q[l] == perm[j - 1];
      }
    }
    assert s == s[..j - 1] + [s[j - 1], s[j]] + s[j + 1..];
    assert t == s[..j - 1] + [s[j], s[j - 1]] + s[j + 1..];
  }

  lemma SwapPlaced(perm: seq<nat>, i: nat, j: nat)
    requires Placed(perm, i, j) && 0 < j
    ensures Placed(Swap(perm, j), i, j - 1)
  {
  }

  lemma SwapInserting(s: seq<Run>, i: nat, j: nat)
    requires 0 < j <= i < |s| && Inserting(s, i, j) && Better(s[j], s[j - 1])
    ensures Inserting(Swap(s, j), i, j - 1)
  {
  }

  /** Once the moving run stops, positions up to `i` are in order. */
  lemma InsertDone(s: seq<Run>, i: nat, j: nat)
    requires j <= i < |s| && Inserting(s, i, j) && (j == 0 || !Better(s[j], s[j - 1]))
    ensures forall k, l :: 0 <= k < l <= i ==> s[k].score.value >= s[l].score.value
  {
    if j > 0 {
      assert forall k :: 0 <= k < j - 1 ==> s[k].score.value >= s[j - 1].score.value;
    }
  }

  /** `results.sort(reverse=True, key=lambda x: x[0])`: an insertion sort that moves a run
      ahead only past strictly lower scores, so runs with equal scores keep their order.
      `perm[k]` is the old position of the run now at k. */
  method SortByScore(runs: seq<Run>) returns (sorted: seq<Run>, ghost perm: seq<nat>)
    ensures Tracks(sorted, runs, perm)
    ensures multiset(sorted) == multiset(runs)
    ensures Stable(sorted, perm)
    ensures AllScored(runs) ==> AllScored(sorted) && NonIncreasing(sorted)
  {
    ghost var scored := AllScored(runs);
    sorted := runs;
    perm := seq(|runs|, k requires 0 <= k < |runs| => k);
    for i := 0 to |runs|
      invariant Tracks(sorted, runs, perm) && Stable(sorted, perm)
      invariant multiset(sorted) == multiset(runs)
      invariant forall k :: 0 <= k < i ==> perm[k] < i
      invariant forall k :: i <= k < |runs| ==> perm[k] == k
      invariant scored ==> AllScored(sorted)
      invariant scored ==> forall k, l :: 0 <= k < l < i ==> sorted[k].score.value >= sorted[l].score.value
    {
      sorted, perm := InsertRun(sorted, runs, perm, i, scored);
    }
  }

  /** One pass of the outer loop of the sort: the run at position `i` moves ahead past
      every strictly lower score just before it, so positions up to `i` end in order. */
  method InsertRun(s: seq<Run>, ghost orig: seq<Run>, ghost perm: seq<nat>, i: nat, ghost scored: bool)
    returns (t: seq<Run>, ghost q: seq<nat>)
    requires i < |s| && Tracks(s, orig, perm) && Stable(s, perm)
    requires forall k :: 0 <= k < i ==> perm[k] < i
    requires forall k :: i <= k < |s| ==> perm[k] == k
    requires scored ==> AllScored(s) && forall k, l :: 0 <= k < l < i ==> s[k].score.value >= s[l].score.value
    ensures Tracks(t, orig, q) && Stable(t, q)
    ensures multiset(t) == multiset(s)
    ensures forall k :: 0 <= k <= i ==> q[k] <= i
    ensures forall k :: i < k < |t| ==> q[k] == k
    ensures scored ==> AllScored(t) && forall k, l :: 0 <= k < l <= i ==> t[k].score.value >= t[l].score.value
  {
    t, q := s, perm;
    var j: nat := i;
    while j > 0 && Better(t[j], t[j - 1])
      invariant Tracks(t, orig, q) && Stable(t, q)
      invariant multiset(t) == multiset(s)
      invariant Placed(q, i, j)
      invariant scored ==> Inserting(t, i, j)
    {
      SwapTracks(t, orig, q, j);
      SwapPlaced(q, i, j);
      if scored {
        SwapInserting(t, i, j);
      }
      t := Swap(t, j);
      q := Swap(q, j);
      j := j - 1;
    }
    if scored {
      InsertDone(t, i, j);
    }
  }

  /** The 256 runs of one stemming flag, one per scheme in their listed order
      (the inner loop of `process_dataset`). */
  method RunSchemes(name: string, documents: seq<string>, queries: seq<string>, stopwords: set<string>,
                    qrels: map<int, set<int>>, stem: string -> string, similarity: Similarity,
                    rank: seq<real> -> seq<int>, stemming: bool) returns (runs: seq<Run>)
    requires forall scores: seq<real> :: IsRanking(scores, rank(scores))
    ensures |runs| == 256
    ensures forall k :: 0 <= k < 256 ==>
      runs[k] == RunAt((if stemming then 256 else 0) + k, name, documents, queries, stopwords, qrels, stem, similarity, rank)
  {
    var weightingSchemes := WeightingSchemes();
    var processedDocuments := PreprocessAll(documents, stopwords, stemming, stem);
    var processedQueries := PreprocessAll(queries, stopwords, stemming, stem);
    runs := [];
    for k := 0 to 256
      invariant |runs| == k
      invariant forall t :: 0 <= t < k ==>
        runs[t] == Run(SchemeScore(processedDocuments, processedQueries, weightingSchemes[t], qrels, similarity, rank),
                       weightingSchemes[t], name, StemmingLabel(stemming))
    {
      var scheme := weightingSchemes[k];
      var mapScore := ScoreScheme(processedDocuments, processedQueries, scheme, qrels, similarity, rank);
      var run := Run(mapScore, scheme, name, StemmingLabel(stemming));
      runs := runs + [run];
    }
    BlockRuns(runs, stemming, name, documents, queries, stopwords, qrels, stem, similarity, rank);
  }

  /** The runs of one stemming flag, built in scheme order, are the entries of that
      flag's block. */
  lemma BlockRuns(runs: seq<Run>, stemming: bool, name: string, documents: seq<string>, queries: seq<string>,
                  stopwords: set<string>, qrels: map<int, set<int>>, stem: string -> string,
                  similarity: Similarity, rank: seq<real> -> seq<int>)
    requires |runs| == 256
    requires forall t :: 0 <= t < 256 ==>
      runs[t] == Run(SchemeScore(PreprocessAll(documents, stopwords, stemming, stem), PreprocessAll(queries, stopwords, stemming, stem),
                                 WeightingSchemes()[t], qrels, similarity, rank),
                     WeightingSchemes()[t], name, StemmingLabel(stemming))
    ensures forall k :: 0 <= k < 256 ==>
      runs[k] == RunAt((if stemming then 256 else 0) + k, name, documents, queries, stopwords, qrels, stem, similarity, rank)
  {
    forall k | 0 <= k < 256
      ensures runs[k] == RunAt((if stemming then 256 else 0) + k, name, documents, queries, stopwords, qrels, stem, similarity, rank)
    {
      RunAtBlock(k, stemming, name, documents, queries, stopwords, qrels, stem, similarity, rank);
    }
  }

  /** The MAP of one scheme: the similarity matrix, each row ranked, then `calculate_map`. */
  method ScoreScheme(docs: seq<string>, queries: seq<string>, scheme: Scheme, qrels: map<int, set<int>>,
                     similarity: Similarity, rank: seq<real> -> seq<int>) returns (mapScore: Option<real>)
    requires forall scores: seq<real> :: IsRanking(scores, rank(scores))
    ensures mapScore == SchemeScore(docs, queries, scheme, qrels, similarity, rank)
  {
    var similarities := similarity(docs, queries, DocScheme(scheme), QueryScheme(scheme));
    mapScore := CalculateMap(similarities, Rankings(similarities, rank), qrels);
  }

  /** Entry `k` of a stemming block is the run of the block's k-th scheme. */
  lemma RunAtBlock(k: nat, stemming: bool, name: string, documents: seq<string>, queries: seq<string>,
                   stopwords: set<string>, qrels: map<int, set<int>>, stem: string -> string,
                   similarity: Similarity, rank: seq<real> -> seq<int>)
    requires k < 256
    ensures var i := (if stemming then 256 else 0) + k;
      RunAt(i, name, documents, queries, stopwords, qrels, stem, similarity, rank)
      == Run(SchemeScore(PreprocessAll(documents, stopwords, stemming, stem), PreprocessAll(queries, stopwords, stemming, stem),
                         WeightingSchemes()[k], qrels, similarity, rank),
             WeightingSchemes()[k], name, StemmingLabel(stemming))
  {
    var i := (if stemming then 256 else 0) + k;
    assert (i >= 256) == stemming;
  }

  /** `process_dataset` for one dataset, from parsed documents, queries, stopwords and
      relevance judgements: append a run for every stemming flag and scheme, then sort. */
  method ProcessDataset(name: string, documents: seq<string>, queries: seq<string>, stopwords: set<string>,
                        qrels: map<int, set<int>>, stem: string -> string, similarity: Similarity,
                        rank: seq<real> -> seq<int>) returns (results: seq<Run>)
    requires forall scores: seq<real> :: IsRanking(scores, rank(scores))
    ensures Ranked(results, Appended(name, documents, queries, stopwords, qrels, stem, similarity, rank))
  {
    var unstemmed := RunSchemes(name, documents, queries, stopwords, qrels, stem, similarity, rank, false);
    var stemmed := RunSchemes(name, documents, queries, stopwords, qrels, stem, similarity, rank, true);
    var appended := unstemmed + stemmed;
    ghost var spec := Appended(name, documents, queries, stopwords, qrels, stem, similarity, rank);
    assert appended == spec by {
      forall t | 0 <= t < 512 ensures appended[t] == spec[t] {
        if t >= 256 {
          assert appended[t] == stemmed[t - 256];
        }
      }
    }
    ghost var perm;
    results, perm := SortByScore(appended);
    AppendedPositions(name, documents, queries, stopwords, qrels, stem, similarity, rank);
    forall k | 0 <= k < 512 ensures Position(results[k]) == perm[k] {
      assert results[k] == spec[perm[k]];
    }
  }

  /** `results` is `appended` sorted by score, highest first, stably: the same runs; each
      pair with equal scores in append order; non-increasing when every score is defined. */
  predicate Ranked(results: seq<Run>, appended: seq<Run>) {
    && |results| == |appended|
    && multiset(results) == multiset(appended)
    && (forall k, l :: 0 <= k < l < |results| && results[k].score == results[l].score ==>
          Position(results[k]) < Position(results[l]))
    && (AllScored(appended) ==> AllScored(results) && NonIncreasing(results))
  }

  /** After the sort, every (scheme, stemming) pair of the sweep occurs exactly once. */
  lemma EachRunOnce(results: seq<Run>, name: string, documents: seq<string>, queries: seq<string>, stopwords: set<string>,
                    qrels: map<int, set<int>>, stem: string -> string, similarity: Similarity,
                    rank: seq<real> -> seq<int>, scheme: Scheme, stemming: bool)
    requires Ranked(results, Appended(name, documents, queries, stopwords, qrels, stem, similarity, rank))
    requires scheme in WeightingSchemes()
    ensures |results| == 512
    ensures exists k :: 0 <= k < 512 && results[k].scheme == scheme && results[k].stemming == StemmingLabel(stemming)
    ensures forall k, l :: 0 <= k < l < 512 && results[k].scheme == results[l].scheme ==>
      results[k].stemming != results[l].stemming
  {
    var spec := Appended(name, documents, queries, stopwords, qrels, stem, similarity, rank);
    AppendedPositions(name, documents, queries, stopwords, qrels, stem, similarity, rank);
    var ws := WeightingSchemes();
    var j :| 0 <= j < 256 && ws[j] == scheme;
    var i := (if stemming then 256 else 0) + j;
    RunAtBlock(j, stemming, name, documents, queries, stopwords, qrels, stem, similarity, rank);
    assert spec[i].scheme == scheme && spec[i].stemming == StemmingLabel(stemming);
    InResults(results, spec, i);
    PairsDistinct(results, spec);
  }

  /** A run of the appended list is somewhere in the sorted one. */
  lemma InResults(results: seq<Run>, spec: seq<Run>, i: nat)
    requires multiset(results) == multiset(spec) && i < |spec|
    ensures exists k :: 0 <= k < |results| && results[k] == spec[i]
  {
    assert spec[i] in multiset(results);
  }

  /** When the appended runs sit at their own positions, no two sorted runs share both
      scheme and stemming label. */
  lemma PairsDistinct(results: seq<Run>, spec: seq<Run>)
    requires multiset(results) == multiset(spec)
    requires forall i :: 0 <= i < |spec| ==> Position(spec[i]) == i
    ensures forall k, l :: 0 <= k < l < |results| && results[k].scheme == results[l].scheme ==>
      results[k].stemming != results[l].stemming
  {
    forall k, l | 0 <= k < l < |results| && results[k].scheme == results[l].scheme
      ensures results[k].stemming != results[l].stemming
    {
      if results[k].stemming == results[l].stemming {
        assert results[k] in multiset(spec) && results[l] in multiset(spec);
        var p :| 0 <= p < |spec| && spec[p] == results[k];
        var q :| 0 <= q < |spec| && spec[q] == results[l];
        assert Position(results[k]) == Position(results[l]);
        assert p == q;
        DistinctCount(results, k, l);
        UniqueCount(spec, p);
      }
    }
  }

  /** Two positions holding the same run count it twice. */
  lemma DistinctCount(s: seq<Run>, k: nat, l: nat)
    requires k < l < |s| && s[k] == s[l]
    ensures multiset(s)[s[k]] >= 2
  {
    assert s == s[..l] + s[l..];
    assert s[k] in s[..l];
    assert s[l] in s[l..];
    assert multiset(s) == multiset(s[..l]) + multiset(s[l..]);
  }

  /** A run of the sweep occurs once in it (runs differ in position). */
  lemma UniqueCount(spec: seq<Run>, p: nat)
    requires p < |spec| && forall i :: 0 <= i < |spec| ==> Position(spec[i]) == i
    ensures multiset(spec)[spec[p]] == 1
  {
    var x, before, after := spec[p], spec[..p], spec[p + 1..];
    assert spec == before + [x] + after;
    forall i | 0 <= i < |before| ensures before[i] != x {
      assert Position(spec[i]) == i;
    }
    forall i | 0 <= i < |after| ensures after[i] != x {
      assert after[i] == spec[p + 1 + i];
      assert Position(spec[p + 1 + i]) == p + 1 + i;
    }
    assert multiset(before)[x] == 0 && multiset(after)[x] == 0;
    assert multiset(spec) == multiset(before) + multiset([x]) + multiset(after);
  }
}
