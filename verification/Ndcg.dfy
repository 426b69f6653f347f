/** The retrieval evaluator: article ranking without repeats, and binary nDCG over it.  The discount 1/log2(p + 2) is
    an arbitrary positive, strictly falling function of the position. */
module Ndcg {
  import opened Common

  // ---- the ranking ----

  function Flatten(documents: seq<seq<string>>): seq<string> {
    if documents == [] then [] else Flatten(documents[..|documents| - 1]) + documents[|documents| - 1]
  }

  /** The order is that of the first mention: an article ranked earlier was mentioned before every mention of a later
      one. */
  lemma {:induction false} RankedByFirstMention(articles: seq<string>, i: nat, j: nat, m: nat)
    requires i < j < |WithoutRepeats(articles)|
    requires m < |articles| && articles[m] == WithoutRepeats(articles)[j]
    ensures exists l :: 0 <= l < m && articles[l] == WithoutRepeats(articles)[i]
  {
    var front, last := articles[..|articles| - 1], articles[|articles| - 1];
    var ranked, before := WithoutRepeats(articles), WithoutRepeats(front);
    KeptOnce(front);
    KeptOnce(articles);
    if m < |front| {
      assert front[m] == ranked[j];
      assert ranked[j] in before;
      RankedByFirstMention(front, i, j, m);
      var l :| 0 <= l < m && front[l] == before[i];
      assert articles[l] == ranked[i];
    } else {
      assert before[i] == ranked[i] && before[i] in front;
      var l :| 0 <= l < |front| && front[l] == before[i];
      assert articles[l] == ranked[i];
    }
  }

  lemma NextArticle(seen: seq<string>, article: string)
    ensures WithoutRepeats(seen + [article]) ==
            if article in WithoutRepeats(seen) then WithoutRepeats(seen) else WithoutRepeats(seen) + [article]
  {
    assert (seen + [article])[..|seen|] == seen;
    KeptOnce(seen);
  }

  lemma NextDocument(documents: seq<seq<string>>, d: nat)
    requires d < |documents|
    ensures Flatten(documents[..d + 1]) == Flatten(documents[..d]) + documents[d]
  {
    assert documents[..d + 1][..d] == documents[..d];
  }

  lemma NextPrefix(seen: seq<string>, document: seq<string>, a: nat)
    requires a < |document|
    ensures seen + document[..a] + [document[a]] == seen + document[..a + 1]
  {
  }

  /** The inner loop, over one document's articles. */
  method RankDocument(ghost seen: seq<string>, document: seq<string>, before: seq<string>) returns (ranked: seq<string>)
    requires before == WithoutRepeats(seen)
    ensures ranked == WithoutRepeats(seen + document)
  {
    hide WithoutRepeats;
    ranked := before;
    assert seen + document[..0] == seen;
    for a := 0 to |document|
      invariant ranked == WithoutRepeats(seen + document[..a])
    {
      NextArticle(seen + document[..a], document[a]);
      NextPrefix(seen, document, a);
      if document[a] !in ranked {
        ranked := ranked + [document[a]];
      }
    }
    assert document[..|document|] == document;
  }

  /** Each document is given by its article ids in sorted order. */
  method UniqueArticleRanking(documents: seq<seq<string>>) returns (ranked: seq<string>)
    ensures ranked == WithoutRepeats(Flatten(documents))
    ensures Distinct(ranked)
  {
    ranked := [];
    assert Flatten(documents[..0]) == [] && WithoutRepeats<string>([]) == [];
    hide WithoutRepeats, Distinct, Flatten;
    for d := 0 to |documents|
      invariant ranked == WithoutRepeats(Flatten(documents[..d]))
    {
      ranked := RankDocument(Flatten(documents[..d]), documents[d], ranked);
      NextDocument(documents, d);
    }
    assert documents[..|documents|] == documents;
    KeptOnce(Flatten(documents));
  }

  // ---- nDCG ----

  ghost predicate Discounts(discount: nat -> real) {
    && (forall p :: 0.0 < discount(p))
    && (forall p, q :: p < q ==> discount(q) < discount(p))
  }

  function Dcg(relevant: set<string>, ranked: seq<string>, n: nat, discount: nat -> real): real
    requires n <= |ranked|
  {
    if n == 0 then 0.0
    else Dcg(relevant, ranked, n - 1, discount) + if ranked[n - 1] in relevant then discount(n - 1) else 0.0
  }

  function Ideal(m: nat, discount: nat -> real): real {
    if m == 0 then 0.0 else Ideal(m - 1, discount) + discount(m - 1)
  }

  function Min(a: nat, b: nat): nat { if a <= b then a else b }

  function BinaryNdcg(relevant: set<string>, ranked: seq<string>, k: nat, discount: nat -> real): real {
    if relevant == {} then 0.0
    else
      var dcg := Dcg(relevant, ranked, Min(k, |ranked|), discount);
      var ideal := Ideal(Min(k, |relevant|), discount);
      if ideal != 0.0 then dcg / ideal else 0.0
  }

  ghost function Hits(relevant: set<string>, ranked: seq<string>, n: nat): nat
    requires n <= |ranked|
  {
    if n == 0 then 0 else Hits(relevant, ranked, n - 1) + if ranked[n - 1] in relevant then 1 else 0
  }

  ghost predicate AllRelevant(relevant: set<string>, ranked: seq<string>, m: nat) {
    m <= |ranked| && forall p :: 0 <= p < m ==> ranked[p] in relevant
  }

  lemma {:induction false} HitsBounds(relevant: set<string>, ranked: seq<string>, n: nat, m: nat)
    requires m <= n <= |ranked|
    ensures Hits(relevant, ranked, m) <= Hits(relevant, ranked, n) <= Hits(relevant, ranked, m) + (n - m)
    ensures Hits(relevant, ranked, m) == m <==> AllRelevant(relevant, ranked, m)
    decreases n
  {
    if m < n {
      HitsBounds(relevant, ranked, n - 1, m);
    } else if n > 0 {
      HitsBounds(relevant, ranked, n - 1, n - 1);
      HitsAtMost(relevant, ranked, n - 1);
      assert AllRelevant(relevant, ranked, n) <==> AllRelevant(relevant, ranked, n - 1) && ranked[n - 1] in relevant;
    }
  }

  lemma HitsAtMost(relevant: set<string>, ranked: seq<string>, n: nat)
    requires n <= |ranked|
    ensures Hits(relevant, ranked, n) <= n
  {
  }

  /** Distinct positions hold distinct articles, so there are no more hits than relevant articles. */
  lemma {:induction false} HitsAreArticles(relevant: set<string>, ranked: seq<string>, n: nat)
    returns (hit: set<string>)
    requires n <= |ranked| && Distinct(ranked)
    ensures hit <= relevant && |hit| == Hits(relevant, ranked, n)
    ensures forall a :: a in hit ==> a in ranked[..n]
  {
    if n == 0 {
      hit := {};
    } else {
      hit := HitsAreArticles(relevant, ranked, n - 1);
      if ranked[n - 1] in relevant {
        assert ranked[n - 1] !in ranked[..n - 1];
        hit := hit + {ranked[n - 1]};
      }
    }
  }

  lemma {:induction false} IdealRises(m: nat, n: nat, discount: nat -> real)
    requires Discounts(discount) && m <= n
    ensures Ideal(m, discount) <= Ideal(n, discount)
    ensures m < n ==> Ideal(m, discount) < Ideal(n, discount)
  {
    if m < n {
      IdealRises(m, n - 1, discount);
    }
  }

  /** Rearrangement: the discounts of any n positions' hits sum to at most those of as many leading positions, with
      equality exactly when the hits are the leading positions. */
  lemma {:induction false} Rearrangement(relevant: set<string>, ranked: seq<string>, n: nat, discount: nat -> real)
    requires n <= |ranked| && Discounts(discount)
    ensures Dcg(relevant, ranked, n, discount) <= Ideal(Hits(relevant, ranked, n), discount)
    ensures Dcg(relevant, ranked, n, discount) == Ideal(Hits(relevant, ranked, n), discount)
            <==> AllRelevant(relevant, ranked, Hits(relevant, ranked, n))
  {
    if n > 0 {
      Rearrangement(relevant, ranked, n - 1, discount);
      var h := Hits(relevant, ranked, n);
      HitsAtMost(relevant, ranked, n);
      HitsBounds(relevant, ranked, n, h);
      if ranked[n - 1] in relevant && h < n {
        assert discount(n - 1) < discount(h - 1);
        HitsBounds(relevant, ranked, n - 1, h);
      } else if h == n {
        HitsBounds(relevant, ranked, n - 1, n - 1);
      }
    }
  }

  /** nDCG is a true ratio, and 1 exactly when every position that could hold a relevant article does. */
  lemma NdcgIsRatio(relevant: set<string>, ranked: seq<string>, k: nat, discount: nat -> real)
    requires relevant != {} && k >= 1 && Distinct(ranked) && Discounts(discount)
    ensures 0.0 <= BinaryNdcg(relevant, ranked, k, discount) <= 1.0
    ensures BinaryNdcg(relevant, ranked, k, discount) == 1.0 <==> AllRelevant(relevant, ranked, Min(k, |relevant|))
  {
    var n, m := Min(k, |ranked|), Min(k, |relevant|);
    var h := Hits(relevant, ranked, n);
    var dcg, ideal := Dcg(relevant, ranked, n, discount), Ideal(m, discount);
    assert |relevant| > 0;
    IdealRises(0, m, discount);
    var hit := HitsAreArticles(relevant, ranked, n);
    SubsetSize(hit, relevant);
    HitsBounds(relevant, ranked, n, 0);
    assert h <= m;
    Rearrangement(relevant, ranked, n, discount);
    IdealRises(h, m, discount);
    DcgNonNegative(relevant, ranked, n, discount);
    RatioBounds(dcg, ideal);
    if AllRelevant(relevant, ranked, m) {
      HitsBounds(relevant, ranked, m, m);
      HitsBounds(relevant, ranked, n, m);
      assert h == m;
    }
  }

  lemma DcgNonNegative(relevant: set<string>, ranked: seq<string>, n: nat, discount: nat -> real)
    requires n <= |ranked| && Discounts(discount)
    ensures 0.0 <= Dcg(relevant, ranked, n, discount)
  {
  }

  lemma RatioBounds(a: real, b: real)
    requires 0.0 <= a <= b && 0.0 < b
    ensures 0.0 <= a / b <= 1.0
    ensures a / b == 1.0 <==> a == b
  {
    assert a / b * b == a;
  }

  /** The evaluator's own use: the ranking it builds has no repeats, so its nDCG is such a ratio. */
  method EvaluateNdcg(relevant: set<string>, documents: seq<seq<string>>, k: nat, discount: nat -> real)
    returns (value: real)
    requires relevant != {} && k >= 1 && Discounts(discount)
    ensures 0.0 <= value <= 1.0
    ensures value == 1.0 <==> AllRelevant(relevant, WithoutRepeats(Flatten(documents)), Min(k, |relevant|))
  {
    var ranked := UniqueArticleRanking(documents);
    value := BinaryNdcg(relevant, ranked, k, discount);
    NdcgIsRatio(relevant, ranked, k, discount);
  }
}
