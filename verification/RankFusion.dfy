/** Multi-query reciprocal rank fusion in the legal search tool.  Scores are exact reals; the content digest is an
    arbitrary function. */
module RankFusion {
  import opened Common

  /** The parts of a retrieved document that the fusion reads.  An absent metadata value is the empty string. */
  datatype Document = Document(source: string, chunkId: string, sourceDocumentId: string, documentId: string,
                               content: string)

  /** One place where a document was found: query index and 1-based rank. */
  datatype Placement = Placement(query: nat, rank: nat)

  datatype Entry = Entry(document: Document, score: real, ranks: seq<Placement>)

  /** A retrieval call either failed or returned a ranked list. */
  datatype Retrieval = Failed | Ranked(documents: seq<Document>)

  datatype Fusion = AllQueriesFailed | Fused(order: seq<string>, ranked: map<string, Entry>, selected: seq<string>)

  function FirstNonEmpty(parts: seq<string>): string {
    if parts == [] then "" else if parts[0] != "" then parts[0] else FirstNonEmpty(parts[1..])
  }

  function FusionKey(d: Document, digest: string -> string): string {
    var identity := FirstNonEmpty([d.chunkId, d.sourceDocumentId, d.documentId, digest(d.content)]);
    d.source + ":" + identity + ":" + digest(d.content)
  }

  function Weight(rank: nat): real { 1.0 / (60 + rank + 1) as real }

  /** max(1, min(top_k, 8)) */
  function SelectionSize(topK: int): nat { if topK < 1 then 1 else if topK > 8 then 8 else topK }

  // ---- what the dictionary means, over the key lists of the queries ----

  /** The keys of a result list, in rank order; a failed query contributes none. */
  ghost function KeysOf(r: Retrieval, digest: string -> string): seq<string> {
    if r.Ranked? then seq(|r.documents|, i requires 0 <= i < |r.documents| => FusionKey(r.documents[i], digest)) else []
  }

  ghost function KeyLists(rs: seq<Retrieval>, digest: string -> string): seq<seq<string>> {
    seq(|rs|, q requires 0 <= q < |rs| => KeysOf(rs[q], digest))
  }

  ghost function ListScore(list: seq<string>, key: string): real {
    if list == [] then 0.0
    else ListScore(list[..|list| - 1], key) + if list[|list| - 1] == key then Weight(|list| - 1) else 0.0
  }

  ghost function TotalScore(lists: seq<seq<string>>, key: string): real {
    if lists == [] then 0.0 else TotalScore(lists[..|lists| - 1], key) + ListScore(lists[|lists| - 1], key)
  }

  ghost function ListPlacements(q: nat, list: seq<string>, key: string): seq<Placement> {
    if list == [] then []
    else ListPlacements(q, list[..|list| - 1], key) + if list[|list| - 1] == key then [Placement(q, |list|)] else []
  }

  ghost function Placements(lists: seq<seq<string>>, key: string): seq<Placement> {
    if lists == [] then []
    else Placements(lists[..|lists| - 1], key) + ListPlacements(|lists| - 1, lists[|lists| - 1], key)
  }

  ghost predicate Occurs(lists: seq<seq<string>>, key: string) {
    exists q :: 0 <= q < |lists| && key in lists[q]
  }

  /** The dictionary and its insertion order hold exactly what the given lists say. */
  ghost predicate Counted(lists: seq<seq<string>>, order: seq<string>, ranked: map<string, Entry>) {
    && Distinct(order)
    && (forall k :: k in order <==> k in ranked)
    && (forall k :: k in ranked <==> Occurs(lists, k))
    && (forall k :: k in ranked ==> ranked[k].score == TotalScore(lists, k) && ranked[k].ranks == Placements(lists, k))
  }

  lemma AbsentKey(lists: seq<seq<string>>, key: string)
    requires !Occurs(lists, key)
    ensures TotalScore(lists, key) == 0.0 && Placements(lists, key) == []
  {
    if lists != [] {
      assert key !in lists[|lists| - 1];
      AbsentFromList(|lists| - 1, lists[|lists| - 1], key);
      AbsentKey(lists[..|lists| - 1], key);
    }
  }

  lemma AbsentFromList(q: nat, list: seq<string>, key: string)
    requires key !in list
    ensures ListScore(list, key) == 0.0 && ListPlacements(q, list, key) == []
  {
    if list != [] {
      assert list[|list| - 1] in list;
      AbsentFromList(q, list[..|list| - 1], key);
    }
  }

  lemma CountedKeys(lists: seq<seq<string>>, order: seq<string>, ranked: map<string, Entry>)
    requires Counted(lists, order, ranked)
    ensures forall k :: k in order <==> k in ranked
  {
  }

  lemma CountedInAnyOrder(lists: seq<seq<string>>, order: seq<string>, sorted: seq<string>, ranked: map<string, Entry>)
    requires Counted(lists, order, ranked) && multiset(sorted) == multiset(order)
    requires forall k :: k in sorted <==> k in order
    ensures Counted(lists, sorted, ranked)
  {
    PermutationDistinct(order, sorted);
  }

  /** Opening an empty list changes nothing. */
  lemma OpenList(full: seq<seq<string>>, order: seq<string>, ranked: map<string, Entry>)
    requires Counted(full, order, ranked)
    ensures Counted(full + [[]], order, ranked)
  {
    var lists := full + [[]];
    assert lists[..|lists| - 1] == full && lists[|lists| - 1] == [];
    forall k ensures Occurs(lists, k) <==> Occurs(full, k) {
      if Occurs(full, k) {
        var q :| 0 <= q < |full| && k in full[q];
        assert k in lists[q];
      }
    }
  }

  /** Appending one key to the open list is what one turn of the inner loop records. */
  lemma CountOne(full: seq<seq<string>>, part: seq<string>, key: string, order: seq<string>,
                 ranked: map<string, Entry>, order': seq<string>, ranked': map<string, Entry>)
    requires Counted(full + [part], order, ranked)
    requires order' == if key in ranked then order else order + [key]
    requires ranked'.Keys == ranked.Keys + {key}
    requires ranked'[key].score == (if key in ranked then ranked[key].score else 0.0) + Weight(|part|)
    requires ranked'[key].ranks == (if key in ranked then ranked[key].ranks else []) + [Placement(|full|, |part| + 1)]
    requires forall k :: k in ranked && k != key ==> ranked'[k] == ranked[k]
    ensures Counted(full + [part + [key]], order', ranked')
  {
    hide Weight, TotalScore, Placements, Occurs;
    var was, now := full + [part], full + [part + [key]];
    forall k
      ensures k in ranked' <==> Occurs(now, k)
    {
      assert k in ranked' <==> k in ranked || k == key;
      OccursAfter(full, part, key, k);
    }
    forall k | k in ranked'
      ensures ranked'[k].score == TotalScore(now, k) && ranked'[k].ranks == Placements(now, k)
    {
      ExtendLast(full, part, key, k);
      if k != key {
        assert k in ranked && ranked'[k] == ranked[k];
      } else if key !in ranked {
        AbsentKey(was, key);
      }
    }
    assert Distinct(order') by {
      assert key !in ranked ==> key !in order;
    }
    assert forall k :: k in order' <==> k in ranked';
  }

  lemma OccursAfter(full: seq<seq<string>>, part: seq<string>, key: string, k: string)
    ensures Occurs(full + [part + [key]], k) <==> k == key || Occurs(full + [part], k)
  {
    var was, now := full + [part], full + [part + [key]];
    if Occurs(was, k) {
      var q :| 0 <= q < |was| && k in was[q];
      assert k in now[q];
    }
    if k == key {
      assert key in now[|full|];
    } else if Occurs(now, k) {
      var q :| 0 <= q < |now| && k in now[q];
      assert k in was[q];
    }
  }

  lemma ExtendLast(full: seq<seq<string>>, part: seq<string>, key: string, k: string)
    ensures TotalScore(full + [part + [key]], k) ==
            TotalScore(full + [part], k) + if k == key then Weight(|part|) else 0.0
    ensures Placements(full + [part + [key]], k) ==
            Placements(full + [part], k) + if k == key then [Placement(|full|, |part| + 1)] else []
  {
    var was, now := full + [part], full + [part + [key]];
    assert was[..|was| - 1] == full == now[..|now| - 1];
    assert (part + [key])[..|part|] == part;
  }

  // ---- the stable descending sort over the insertion order of the dictionary ----

  function InsertDescending(key: string, keys: seq<string>, ranked: map<string, Entry>): (out: seq<string>)
    requires key in ranked && forall k :: k in keys ==> k in ranked
    ensures multiset(out) == multiset(keys) + multiset{key}
    ensures forall k :: k in out <==> k == key || k in keys
  {
    if keys == [] then [key]
    else if ranked[keys[0]].score < ranked[key].score then [key] + keys
    else
      assert keys == [keys[0]] + keys[1..];
      [keys[0]] + InsertDescending(key, keys[1..], ranked)
  }

  function SortDescending(keys: seq<string>, ranked: map<string, Entry>): (sorted: seq<string>)
    requires forall k :: k in keys ==> k in ranked
    ensures multiset(sorted) == multiset(keys)
    ensures forall k :: k in sorted <==> k in keys
  {
    if keys == [] then []
    else
      assert keys == keys[..|keys| - 1] + [keys[|keys| - 1]];
      InsertDescending(keys[|keys| - 1], SortDescending(keys[..|keys| - 1], ranked), ranked)
  }

  ghost predicate Descending(keys: seq<string>, ranked: map<string, Entry>)
    requires forall k :: k in keys ==> k in ranked
  {
    forall i, j :: 0 <= i < j < |keys| ==> ranked[keys[j]].score <= ranked[keys[i]].score
  }

  lemma ConsDescending(head: string, tail: seq<string>, ranked: map<string, Entry>)
    requires head in ranked && forall k :: k in tail ==> k in ranked && ranked[k].score <= ranked[head].score
    requires Descending(tail, ranked)
    ensures Descending([head] + tail, ranked)
  {
  }

  lemma {:induction false} InsertKeepsDescending(key: string, keys: seq<string>, ranked: map<string, Entry>)
    requires key in ranked && forall k :: k in keys ==> k in ranked
    requires Descending(keys, ranked)
    ensures Descending(InsertDescending(key, keys, ranked), ranked)
  {
    if keys != [] {
      var head, tail := keys[0], keys[1..];
      assert forall i :: 0 <= i < |tail| ==> tail[i] == keys[i + 1];
      forall k | k in tail ensures ranked[k].score <= ranked[head].score {
        var i :| 0 <= i < |tail| && tail[i] == k;
      }
      if ranked[head].score < ranked[key].score {
        assert keys == [head] + tail;
        ConsDescending(key, keys, ranked);
      } else {
        InsertKeepsDescending(key, tail, ranked);
        ConsDescending(head, InsertDescending(key, tail, ranked), ranked);
      }
    }
  }

  lemma {:induction false} SortIsDescending(keys: seq<string>, ranked: map<string, Entry>)
    requires forall k :: k in keys ==> k in ranked
    ensures Descending(SortDescending(keys, ranked), ranked)
  {
    if keys != [] {
      var front := keys[..|keys| - 1];
      SortIsDescending(front, ranked);
      InsertKeepsDescending(keys[|keys| - 1], SortDescending(front, ranked), ranked);
    }
  }

  /** Of two keys with equal scores the one inserted first stays first (the sort is stable). */
  lemma {:induction false} SortIsStable(keys: seq<string>, ranked: map<string, Entry>, i: nat, j: nat)
    requires forall k :: k in keys ==> k in ranked
    requires Distinct(keys) && i < j < |keys| && ranked[keys[i]].score == ranked[keys[j]].score
    ensures Precedes(SortDescending(keys, ranked), keys[i], keys[j])
  {
    var front, last := keys[..|keys| - 1], keys[|keys| - 1];
    var sorted := SortDescending(front, ranked);
    SortIsDescending(front, ranked);
    if j == |keys| - 1 {
      assert front[i] in sorted;
      InsertAfterEqual(last, sorted, ranked, keys[i]);
    } else {
      SortIsStable(front, ranked, i, j);
      InsertKeepsOrder(last, sorted, ranked, keys[i], keys[j]);
    }
  }

  lemma {:induction false} InsertAfterEqual(key: string, keys: seq<string>, ranked: map<string, Entry>, a: string)
    requires key in ranked && forall k :: k in keys ==> k in ranked
    requires Descending(keys, ranked) && a in keys && ranked[a].score == ranked[key].score
    ensures Precedes(InsertDescending(key, keys, ranked), a, key)
  {
    var out := InsertDescending(key, keys, ranked);
    var n :| 0 <= n < |keys| && keys[n] == a;
    assert !(ranked[keys[0]].score < ranked[key].score);
    var tail := InsertDescending(key, keys[1..], ranked);
    if n == 0 {
      assert key in tail;
      var m :| 0 <= m < |tail| && tail[m] == key;
      assert out[0] == a && out[m + 1] == key;
    } else {
      assert keys[1..][n - 1] == a;
      InsertAfterEqual(key, keys[1..], ranked, a);
      ConsPrecedes(keys[0], tail, a, key);
    }
  }

  lemma {:induction false} InsertKeepsOrder(key: string, keys: seq<string>, ranked: map<string, Entry>,
                                            a: string, b: string)
    requires key in ranked && forall k :: k in keys ==> k in ranked
    requires Precedes(keys, a, b)
    ensures Precedes(InsertDescending(key, keys, ranked), a, b)
  {
    var n, m :| 0 <= n < m < |keys| && keys[n] == a && keys[m] == b;
    if ranked[keys[0]].score < ranked[key].score {
      ConsPrecedes(key, keys, a, b);
    } else {
      var tail := InsertDescending(key, keys[1..], ranked);
      if n == 0 {
        assert keys[1..][m - 1] == b;
        assert b in keys[1..] && b in tail;
        var p :| 0 <= p < |tail| && tail[p] == b;
        assert ([keys[0]] + tail)[0] == a && ([keys[0]] + tail)[p + 1] == b;
      } else {
        assert keys[1..][n - 1] == a && keys[1..][m - 1] == b;
        InsertKeepsOrder(key, keys[1..], ranked, a, b);
        ConsPrecedes(keys[0], tail, a, b);
      }
    }
  }

  lemma ConsPrecedes(head: string, tail: seq<string>, a: string, b: string)
    requires Precedes(tail, a, b)
    ensures Precedes([head] + tail, a, b)
  {
    var n, m :| 0 <= n < m < |tail| && tail[n] == a && tail[m] == b;
    assert ([head] + tail)[n + 1] == a && ([head] + tail)[m + 1] == b;
  }

  lemma {:induction false} DistinctMultiplicity(keys: seq<string>, k: string)
    requires Distinct(keys)
    ensures multiset(keys)[k] <= 1
  {
    if keys != [] {
      DistinctMultiplicity(keys[1..], k);
      assert keys == [keys[0]] + keys[1..];
      if k == keys[0] {
        assert k !in keys[1..];
      }
    }
  }

  lemma RepeatedMultiplicity(keys: seq<string>, i: nat, j: nat)
    requires i < j < |keys| && keys[i] == keys[j]
    ensures multiset(keys)[keys[i]] >= 2
  {
    assert keys == keys[..i] + [keys[i]] + keys[i + 1..j] + [keys[j]] + keys[j + 1..];
  }

  lemma PermutationDistinct(a: seq<string>, b: seq<string>)
    requires Distinct(a) && multiset(a) == multiset(b)
    ensures Distinct(b)
  {
    forall i, j | 0 <= i < j < |b| ensures b[i] != b[j] {
      DistinctMultiplicity(a, b[i]);
      if b[i] == b[j] {
        RepeatedMultiplicity(b, i, j);
      }
    }
  }

  // ---- the fusion loop ----

  ghost predicate Precedes(order: seq<string>, a: string, b: string) {
    exists i, j :: 0 <= i < j < |order| && order[i] == a && order[j] == b
  }

  /** The fused result of the given key lists. */
  ghost predicate IsFusionOf(lists: seq<seq<string>>, topK: int, f: Fusion) {
    && f.Fused?
    && Counted(lists, f.order, f.ranked)
    && Descending(f.order, f.ranked)
    && f.selected == if |f.order| <= SelectionSize(topK) then f.order else f.order[..SelectionSize(topK)]
  }

  /** The inner loop: counts one result list into the dictionary, place by place. */
  method CountList(q: nat, docs: seq<Document>, digest: string -> string, ghost full: seq<seq<string>>,
                   order0: seq<string>, ranked0: map<string, Entry>)
    returns (order: seq<string>, ranked: map<string, Entry>)
    requires |full| == q && Counted(full + [[]], order0, ranked0)
    requires forall k :: k in ranked0 ==> FusionKey(ranked0[k].document, digest) == k
    ensures Counted(full + [KeysOf(Ranked(docs), digest)], order, ranked)
    ensures forall k :: k in ranked ==> FusionKey(ranked[k].document, digest) == k
  {
    hide FusionKey, Weight, Counted;
    order, ranked := order0, ranked0;
    ghost var list := KeysOf(Ranked(docs), digest);
    var n := 0;
    assert list[..0] == [];
    while n < |docs|
      invariant 0 <= n <= |docs|
      invariant Counted(full + [list[..n]], order, ranked)
      invariant forall k :: k in ranked ==> FusionKey(ranked[k].document, digest) == k
    {
      CountedKeys(full + [list[..n]], order, ranked);
      ghost var rankedBefore, orderBefore := ranked, order;
      var document := docs[n];
      var key := FusionKey(document, digest);
      if key !in ranked {
        ranked := ranked[key := Entry(document, 0.0, [])];
        order := order + [key];
      }
      var entry := ranked[key];
      ranked := ranked[key := entry.(score := entry.score + Weight(n), ranks := entry.ranks + [Placement(q, n + 1)])];
      CountOne(full, list[..n], key, orderBefore, rankedBefore, order, ranked);
      assert list[..n] + [key] == list[..n + 1];
      n := n + 1;
    }
    assert list[..|docs|] == list;
  }

  method SortAndSelect(ghost lists: seq<seq<string>>, order: seq<string>, ranked: map<string, Entry>, topK: int)
    returns (f: Fusion)
    requires Counted(lists, order, ranked)
    ensures IsFusionOf(lists, topK, f) && f.ranked == ranked
  {
    hide Counted, Descending;
    CountedKeys(lists, order, ranked);
    var sorted := SortDescending(order, ranked);
    SortIsDescending(order, ranked);
    CountedInAnyOrder(lists, order, sorted, ranked);
    var size := if topK < 1 then 1 else if topK > 8 then 8 else topK;
    f := Fused(sorted, ranked, if |sorted| <= size then sorted else sorted[..size]);
  }

  lemma NextKeys(rs: seq<Retrieval>, digest: string -> string, q: nat)
    requires q <= |rs|
    ensures |KeyLists(rs, digest)| == |rs| && KeyLists(rs, digest)[..0] == []
    ensures KeyLists(rs, digest)[..|rs|] == KeyLists(rs, digest)
    ensures q < |rs| ==> KeyLists(rs, digest)[..q + 1] == KeyLists(rs, digest)[..q] + [KeysOf(rs[q], digest)]
    ensures q < |rs| && rs[q].Failed? ==> KeysOf(rs[q], digest) == []
  {
  }

  /** Fuses the successful result lists and keeps the best ones. */
  method Fuse(rs: seq<Retrieval>, topK: int, digest: string -> string) returns (f: Fusion)
    ensures f.AllQueriesFailed? <==> forall q :: 0 <= q < |rs| ==> rs[q].Failed?
    ensures f.Fused? ==> IsFusionOf(KeyLists(rs, digest), topK, f)
    ensures f.Fused? ==> forall k :: k in f.ranked ==> FusionKey(f.ranked[k].document, digest) == k
  {
    if forall q :: 0 <= q < |rs| ==> rs[q].Failed? {
      return AllQueriesFailed;
    }
    assert Counted([], [], map[]);
    hide FusionKey, Weight, Counted, Descending, IsFusionOf, KeyLists, KeysOf;
    ghost var lists := KeyLists(rs, digest);
    var ranked: map<string, Entry> := map[];
    var order: seq<string> := [];
    var q := 0;
    NextKeys(rs, digest, 0);
    while q < |rs|
      invariant 0 <= q <= |rs|
      invariant Counted(lists[..q], order, ranked)
      invariant forall k :: k in ranked ==> FusionKey(ranked[k].document, digest) == k
    {
      OpenList(lists[..q], order, ranked);
      if rs[q].Ranked? {
        order, ranked := CountList(q, rs[q].documents, digest, lists[..q], order, ranked);
      }
      NextKeys(rs, digest, q);
      q := q + 1;
    }
    f := SortAndSelect(lists, order, ranked, topK);
  }

  // ---- dominance ----

  /** Wherever b is listed, a is listed before it. */
  ghost predicate RankedBetter(list: seq<string>, a: string, b: string) {
    forall j :: 0 <= j < |list| && list[j] == b ==> exists i :: 0 <= i < j && list[i] == a
  }

  lemma {:induction false} ScoreNonNegative(list: seq<string>, key: string)
    ensures 0.0 <= ListScore(list, key)
  {
    if list != [] {
      ScoreNonNegative(list[..|list| - 1], key);
    }
  }

  /** In a list without repeats a listed key scores exactly the weight of its place. */
  lemma {:induction false} ScoreOfPlace(list: seq<string>, i: nat)
    requires Distinct(list) && i < |list|
    ensures ListScore(list, list[i]) == Weight(i)
  {
    var front := list[..|list| - 1];
    if i == |list| - 1 {
      assert list[i] !in front;
      AbsentFromList(0, front, list[i]);
    } else {
      assert front[i] == list[i];
      ScoreOfPlace(front, i);
    }
  }

  lemma ReciprocalOrder(u: real, x: real, v: real, y: real)
    requires 0.0 < x < y && u * x == 1.0 && v * y == 1.0
    ensures 0.0 < v < u
  {
    assert 0.0 < v by {
      assert v <= 0.0 ==> v * y <= 0.0;
    }
    var d := u - v;
    assert d * x == v * (y - x);
    assert 0.0 < v * (y - x);
    assert d <= 0.0 ==> d * x <= 0.0;
  }

  lemma WeightFalls(i: nat, j: nat)
    requires i < j
    ensures 0.0 < Weight(j) < Weight(i)
  {
    var x, y := (60 + i + 1) as real, (60 + j + 1) as real;
    assert Weight(i) * x == 1.0 && Weight(j) * y == 1.0;
    ReciprocalOrder(Weight(i), x, Weight(j), y);
  }

  lemma ListDominance(list: seq<string>, a: string, b: string)
    requires Distinct(list) && RankedBetter(list, a, b)
    ensures ListScore(list, b) <= ListScore(list, a)
    ensures b in list ==> ListScore(list, b) < ListScore(list, a) && a in list
  {
    hide Weight, ListScore;
    if b in list {
      var j :| 0 <= j < |list| && list[j] == b;
      var i :| 0 <= i < j && list[i] == a;
      ScoreOfPlace(list, j);
      ScoreOfPlace(list, i);
      WeightFalls(i, j);
    } else {
      AbsentFromList(0, list, b);
      ScoreNonNegative(list, a);
    }
  }

  lemma {:induction false} ScoreDominance(lists: seq<seq<string>>, a: string, b: string)
    requires forall q :: 0 <= q < |lists| ==> Distinct(lists[q]) && RankedBetter(lists[q], a, b)
    ensures TotalScore(lists, b) <= TotalScore(lists, a)
    ensures Occurs(lists, b) ==> TotalScore(lists, b) < TotalScore(lists, a) && Occurs(lists, a)
  {
    if lists != [] {
      var front, last := lists[..|lists| - 1], lists[|lists| - 1];
      assert forall q :: 0 <= q < |front| ==> front[q] == lists[q];
      ScoreDominance(front, a, b);
      ListDominance(last, a, b);
      if Occurs(lists, b) {
        var q :| 0 <= q < |lists| && b in lists[q];
        if q < |front| {
          assert b in front[q];
          var p :| 0 <= p < |front| && a in front[p];
          assert a in lists[p];
        } else {
          assert a in lists[q];
        }
      }
    }
  }

  /** Dominance: a document placed before b in every list that contains b precedes b in the fused order and is
      selected whenever b is. */
  lemma FusionRespectsDominance(lists: seq<seq<string>>, topK: int, f: Fusion, a: string, b: string)
    requires IsFusionOf(lists, topK, f)
    requires forall q :: 0 <= q < |lists| ==> Distinct(lists[q]) && RankedBetter(lists[q], a, b)
    requires b in f.order
    ensures Precedes(f.order, a, b)
    ensures b in f.selected ==> a in f.selected
  {
    ScoreDominance(lists, a, b);
    assert a in f.ranked;
    var i :| 0 <= i < |f.order| && f.order[i] == a;
    var j :| 0 <= j < |f.order| && f.order[j] == b;
    assert f.ranked[f.order[j]].score < f.ranked[f.order[i]].score;
    assert i < j;
    if b in f.selected {
      var s :| 0 <= s < |f.selected| && f.selected[s] == b;
      assert f.order[s] == b;
      assert s == j;
      assert f.selected[i] == a;
    }
  }

  // ---- conservation: the fused scores add up to the weights of all list entries ----

  ghost function WeightsUpTo(n: nat): real { if n == 0 then 0.0 else WeightsUpTo(n - 1) + Weight(n - 1) }

  ghost function AllWeights(lists: seq<seq<string>>): real {
    if lists == [] then 0.0 else AllWeights(lists[..|lists| - 1]) + WeightsUpTo(|lists[|lists| - 1]|)
  }

  ghost function SumOfScores(keys: seq<string>, lists: seq<seq<string>>): real {
    if keys == [] then 0.0 else TotalScore(lists, keys[0]) + SumOfScores(keys[1..], lists)
  }

  ghost function ListSum(keys: seq<string>, list: seq<string>): real {
    if keys == [] then 0.0 else ListScore(list, keys[0]) + ListSum(keys[1..], list)
  }

  /** One more place adds its weight exactly once, to the one key it belongs to. */
  lemma {:induction false} LastPlaceCountsOnce(keys: seq<string>, list: seq<string>)
    requires list != [] && Distinct(keys)
    ensures ListSum(keys, list) == ListSum(keys, list[..|list| - 1]) +
                                   if list[|list| - 1] in keys then Weight(|list| - 1) else 0.0
  {
    if keys != [] {
      LastPlaceCountsOnce(keys[1..], list);
      assert keys == [keys[0]] + keys[1..];
      if list[|list| - 1] == keys[0] {
        assert keys[0] !in keys[1..];
      }
    }
  }

  lemma {:induction false} ListConservation(keys: seq<string>, list: seq<string>)
    requires Distinct(keys) && forall k :: k in list ==> k in keys
    ensures ListSum(keys, list) == WeightsUpTo(|list|)
    decreases |list|
  {
    if list == [] {
      EmptyListSum(keys);
    } else {
      assert list[|list| - 1] in list;
      ListConservation(keys, list[..|list| - 1]);
      LastPlaceCountsOnce(keys, list);
    }
  }

  lemma EmptyListSum(keys: seq<string>)
    ensures ListSum(keys, []) == 0.0 && SumOfScores(keys, []) == 0.0
  {
    if keys != [] {
      EmptyListSum(keys[1..]);
    }
  }

  lemma {:induction false} SumSplitsLastList(keys: seq<string>, lists: seq<seq<string>>)
    requires lists != []
    ensures SumOfScores(keys, lists) ==
            SumOfScores(keys, lists[..|lists| - 1]) + ListSum(keys, lists[|lists| - 1])
  {
    if keys != [] {
      SumSplitsLastList(keys[1..], lists);
    }
  }

  /** The scores of all fused documents add up to 1/(61 + rank) summed over every entry of every list. */
  lemma {:induction false} ScoreConservation(lists: seq<seq<string>>, keys: seq<string>)
    requires Distinct(keys) && forall k :: Occurs(lists, k) ==> k in keys
    ensures SumOfScores(keys, lists) == AllWeights(lists)
    decreases |lists|
  {
    if lists == [] {
      EmptyListSum(keys);
    } else {
      var front, last := lists[..|lists| - 1], lists[|lists| - 1];
      forall k | Occurs(front, k) ensures Occurs(lists, k) {
        var q :| 0 <= q < |front| && k in front[q];
        assert k in lists[q];
      }
      ScoreConservation(front, keys);
      SumSplitsLastList(keys, lists);
      forall k | k in last ensures k in keys {
        assert k in lists[|lists| - 1];
        assert Occurs(lists, k);
      }
      ListConservation(keys, last);
    }
  }

  lemma {:induction false} FusionConservesScore(lists: seq<seq<string>>, topK: int, f: Fusion)
    requires IsFusionOf(lists, topK, f)
    ensures SumOfScores(f.order, lists) == AllWeights(lists)
  {
    ScoreConservation(lists, f.order);
  }
}
