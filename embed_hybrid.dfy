/**
 * The two fusion policies of the hybrid retriever: a convex `alpha` mix of
 * the TF-IDF and semantic scores, and a weighted mix of min-max normalised
 * scores over a TF-IDF floor. The two underlying retrievers are parameters:
 * each maps a query and a requested count to a hit list, or to the exception
 * it raised.
 *
 * Score dictionaries are modelled as maps: they are only looked up and
 * iterated as a set of keys, whose iteration order Python leaves unspecified;
 * the fusion loop therefore picks the next id with `:|`, and every property
 * below holds whichever order it picks.
 */
module EmbedHybrid {
  import opened Base
  import opened Ranking

  /** The metadata dictionary a semantic hit carries. */
  type Meta = map<string, string>

  const DefaultTopK: int := 5
  const DefaultAlpha: real := 0.5
  const DefaultTfidfWeight: real := 0.3
  const DefaultSemanticWeight: real := 0.7
  const DefaultMinTfidfScore: real := 0.1

  /** `{doc_id: score for doc_id, score, ... in hits}`. */
  function Scores<M>(hits: seq<Hit<M>>): (m: map<string, real>)
    ensures m.Keys == set id | id in Ids(hits)
  {
    var latest := Latest(hits);
    map id | id in latest :: latest[id].score
  }

  /** `{doc_id: meta for doc_id, _, meta in hits}`. */
  function Metadata(hits: seq<Hit<Meta>>): (m: map<string, Meta>)
    ensures m.Keys == set id | id in Ids(hits)
  {
    var latest := Latest(hits);
    map id | id in latest :: latest[id].meta
  }

  /** `d.get(id, 0.0)` on a score dictionary. */
  function ScoreOrZero(d: map<string, real>, id: string): real
  {
    if id in d then d[id] else 0.0
  }

  /** The fused score of one id: each side weighted, a side that lacks the id counting 0.0. */
  function Combine(t: map<string, real>, s: map<string, real>, tWeight: real, sWeight: real, id: string): real
  {
    tWeight * ScoreOrZero(t, id) + sWeight * ScoreOrZero(s, id)
  }

  /** The metadata reported for an id: the semantic side's, or a placeholder naming the id. */
  function MetaFor(meta: map<string, Meta>, id: string): Meta
  {
    if id in meta then meta[id] else map["title" := "Unknown", "doc_id" := id]
  }

  /**
   * What a fused ranking promises about ids and scores: distinct ids drawn
   * from the union of both score dictionaries, each with its combined score,
   * in descending score order, as many as `[:top_k]` keeps, and no id left
   * out scoring above one that was kept.
   */
  ghost predicate IsTopScored<M>(res: seq<Hit<M>>, t: map<string, real>, s: map<string, real>,
                                 tWeight: real, sWeight: real, topK: int)
  {
    var all := t.Keys + s.Keys;
    && DistinctIds(res)
    && SortedDesc(res)
    && |res| == SliceLen(|all|, topK)
    && (forall i :: 0 <= i < |res| ==>
          res[i].id in all && res[i].score == Combine(t, s, tWeight, sWeight, res[i].id))
    && (forall id, i :: id in all && id !in Ids(res) && 0 <= i < |res| ==>
          Combine(t, s, tWeight, sWeight, id) <= res[i].score)
  }

  /** A fused result list: `IsTopScored`, each entry carrying the metadata `MetaFor` gives its id. */
  ghost predicate IsTopFused(res: seq<Hit<Meta>>, t: map<string, real>, s: map<string, real>,
                             tWeight: real, sWeight: real, meta: map<string, Meta>, topK: int)
  {
    && IsTopScored(res, t, s, tWeight, sWeight, topK)
    && (forall i :: 0 <= i < |res| ==> res[i].meta == MetaFor(meta, res[i].id))
  }

  /** The state of the fusion loop: the ids visited so far, each once, each with its combined score. */
  ghost predicate FusedSoFar(fused: seq<Hit<()>>, t: map<string, real>, s: map<string, real>,
                             tWeight: real, sWeight: real, remaining: set<string>)
  {
    && remaining <= t.Keys + s.Keys
    && (forall id :: id in Ids(fused) <==> id in t.Keys + s.Keys && id !in remaining)
    && DistinctIds(fused)
    && (forall i :: 0 <= i < |fused| ==> fused[i].score == Combine(t, s, tWeight, sWeight, fused[i].id))
  }

  lemma FuseStep(fused: seq<Hit<()>>, t: map<string, real>, s: map<string, real>,
                 tWeight: real, sWeight: real, remaining: set<string>, id: string)
    requires FusedSoFar(fused, t, s, tWeight, sWeight, remaining) && id in remaining
    ensures FusedSoFar(fused + [Hit(id, Combine(t, s, tWeight, sWeight, id), ())], t, s, tWeight, sWeight, remaining - {id})
  {
    var x := Hit(id, Combine(t, s, tWeight, sWeight, id), ());
    AppendFresh(fused, x);
  }

  lemma FuseDone(fused: seq<Hit<()>>, t: map<string, real>, s: map<string, real>, tWeight: real, sWeight: real)
    requires FusedSoFar(fused, t, s, tWeight, sWeight, {})
    ensures |fused| == |t.Keys + s.Keys|
  {
    DistinctIdsCard(fused);
    assert (set id | id in Ids(fused)) == t.Keys + s.Keys;
  }

  /**
   * The fusion loop: one entry per id of either dictionary, visited in an
   * unspecified order, scored by `Combine`.
   */
  method Fuse(t: map<string, real>, s: map<string, real>, tWeight: real, sWeight: real) returns (fused: seq<Hit<()>>)
    ensures FusedSoFar(fused, t, s, tWeight, sWeight, {})
    ensures |fused| == |t.Keys + s.Keys|
  {
    var remaining := t.Keys + s.Keys;
    fused := [];
    while remaining != {}
      invariant FusedSoFar(fused, t, s, tWeight, sWeight, remaining)
      decreases remaining
    {
      var id :| id in remaining;
      var combined := Combine(t, s, tWeight, sWeight, id);
      FuseStep(fused, t, s, tWeight, sWeight, remaining, id);
      fused := fused + [Hit(id, combined, ())];
      remaining := remaining - {id};
    }
    FuseDone(fused, t, s, tWeight, sWeight);
  }

  /** The ids and scores of `top`, each with the metadata `MetaFor` gives it. */
  ghost predicate WithMeta(results: seq<Hit<Meta>>, top: seq<Hit<()>>, meta: map<string, Meta>)
  {
    && |results| == |top|
    && forall i :: 0 <= i < |top| ==>
         results[i].id == top[i].id && results[i].score == top[i].score && results[i].meta == MetaFor(meta, top[i].id)
  }

  /** One more entry with its metadata attached extends the metadata loop by one. */
  lemma WithMetaStep(results: seq<Hit<Meta>>, top: seq<Hit<()>>, k: nat, meta: map<string, Meta>)
    requires k < |top| && WithMeta(results, top[..k], meta)
    ensures WithMeta(results + [Hit(top[k].id, top[k].score, MetaFor(meta, top[k].id))], top[..k + 1], meta)
  {
  }

  /** Each entry of the sorted, cut list is a fused id with its combined score. */
  lemma TopEntriesFused(fused: seq<Hit<()>>, t: map<string, real>, s: map<string, real>, tWeight: real, sWeight: real,
                        top: seq<Hit<()>>)
    requires FusedSoFar(fused, t, s, tWeight, sWeight, {})
    requires forall i :: 0 <= i < |top| ==> top[i] in fused
    ensures forall i :: 0 <= i < |top| ==>
      top[i].id in t.Keys + s.Keys && top[i].score == Combine(t, s, tWeight, sWeight, top[i].id)
  {
    forall i | 0 <= i < |top|
      ensures top[i].id in t.Keys + s.Keys && top[i].score == Combine(t, s, tWeight, sWeight, top[i].id)
    {
      var j :| 0 <= j < |fused| && fused[j] == top[i];
      assert Ids(fused)[j] == fused[j].id;
    }
  }

  /** An id cut off by `[:top_k]` sits further down the sorted list, so it scores no higher than a kept one. */
  lemma CutIdsScoreLower(fused: seq<Hit<()>>, t: map<string, real>, s: map<string, real>, tWeight: real, sWeight: real,
                         top: seq<Hit<()>>)
    requires FusedSoFar(fused, t, s, tWeight, sWeight, {})
    requires forall x, i :: x in fused && x.id !in Ids(top) && 0 <= i < |top| ==> x.score <= top[i].score
    ensures forall id, i :: id in t.Keys + s.Keys && id !in Ids(top) && 0 <= i < |top| ==>
      Combine(t, s, tWeight, sWeight, id) <= top[i].score
  {
    forall id, i | id in t.Keys + s.Keys && id !in Ids(top) && 0 <= i < |top|
      ensures Combine(t, s, tWeight, sWeight, id) <= top[i].score
    {
      var j :| 0 <= j < |fused| && Ids(fused)[j] == id;
      var x := fused[j];
      assert x in fused && x.id == id;
    }
  }

  /** The fused entries in `[:top_k]` of their sorted order satisfy `IsTopScored`. */
  lemma RankedIsTopScored(fused: seq<Hit<()>>, t: map<string, real>, s: map<string, real>, tWeight: real, sWeight: real,
                          topK: int)
    requires FusedSoFar(fused, t, s, tWeight, sWeight, {})
    requires |fused| == |t.Keys + s.Keys|
    ensures IsTopScored(SliceTo(SortDesc(fused), topK), t, s, tWeight, sWeight, topK)
  {
    var top := SliceTo(SortDesc(fused), topK);
    TopOfSorted(fused, topK);
    TopEntriesFused(fused, t, s, tWeight, sWeight, top);
    CutIdsScoreLower(fused, t, s, tWeight, sWeight, top);
  }

  /** Attaching metadata keeps ids and scores, so it keeps `IsTopScored`. */
  lemma WithMetaTopFused(results: seq<Hit<Meta>>, top: seq<Hit<()>>, t: map<string, real>, s: map<string, real>,
                         tWeight: real, sWeight: real, meta: map<string, Meta>, topK: int)
    requires IsTopScored(top, t, s, tWeight, sWeight, topK)
    requires WithMeta(results, top, meta)
    ensures IsTopFused(results, t, s, tWeight, sWeight, meta, topK)
  {
    assert Ids(results) == Ids(top);
  }

  /**
   * Sorting, cutting to `[:top_k]` and attaching metadata: the shared tail of
   * both hybrid searches.
   */
  method RankFused(fused: seq<Hit<()>>, t: map<string, real>, s: map<string, real>, tWeight: real, sWeight: real,
                   meta: map<string, Meta>, topK: int) returns (results: seq<Hit<Meta>>)
    requires FusedSoFar(fused, t, s, tWeight, sWeight, {}) && |fused| == |t.Keys + s.Keys|
    ensures IsTopFused(results, t, s, tWeight, sWeight, meta, topK)
  {
    var top := SliceTo(SortDesc(fused), topK);
    results := [];
    var k := 0;
    while k < |top|
      invariant 0 <= k <= |top|
      invariant WithMeta(results, top[..k], meta)
    {
      var h := top[k];
      var m := MetaFor(meta, h.id);
      WithMetaStep(results, top, k, meta);
      results := results + [Hit(h.id, h.score, m)];
      k := k + 1;
    }
    assert top[..k] == top;
    assert IsTopScored(top, t, s, tWeight, sWeight, topK) by {
      RankedIsTopScored(fused, t, s, tWeight, sWeight, topK);
    }
    WithMetaTopFused(results, top, t, s, tWeight, sWeight, meta, topK);
  }

  /** Fusion followed by ranking: the part both hybrid searches share once their score dictionaries are built. */
  method FuseAndRank(t: map<string, real>, s: map<string, real>, tWeight: real, sWeight: real,
                     meta: map<string, Meta>, topK: int) returns (results: seq<Hit<Meta>>)
    ensures IsTopFused(results, t, s, tWeight, sWeight, meta, topK)
  {
    var fused := Fuse(t, s, tWeight, sWeight);
    results := RankFused(fused, t, s, tWeight, sWeight, meta, topK);
  }

  /**
   * `search_hybrid`: both retrievers are asked for `2 * top_k` hits; every id
   * either side found is scored `(1 - alpha) * tfidf + alpha * semantic`.
   * A retriever's exception propagates.
   */
  method SearchHybrid(query: string, topK: int, alpha: real, tfidf: Retriever<()>, semantic: Retriever<Meta>)
    returns (r: Result<seq<Hit<Meta>>>)
    ensures tfidf(query, topK * 2).Err? ==> r == Err(tfidf(query, topK * 2).error)
    ensures tfidf(query, topK * 2).Ok? && semantic(query, topK * 2).Err? ==> r == Err(semantic(query, topK * 2).error)
    ensures tfidf(query, topK * 2).Ok? && semantic(query, topK * 2).Ok? ==>
      var t := Scores(tfidf(query, topK * 2).value);
      var s := Scores(semantic(query, topK * 2).value);
      && r.Ok?
      && IsTopFused(r.value, t, s, TfidfShare(alpha), alpha, Metadata(semantic(query, topK * 2).value), topK)
  {
    var tfidfResults := tfidf(query, topK * 2);
    if tfidfResults.Err? {
      return Err(tfidfResults.error);
    }
    var tfidfScores := Scores(tfidfResults.value);
    var semanticResults := semantic(query, topK * 2);
    if semanticResults.Err? {
      return Err(semanticResults.error);
    }
    var semanticScores := Scores(semanticResults.value);
    var semanticMetadata := Metadata(semanticResults.value);
    var results := FuseAndRank(tfidfScores, semanticScores, TfidfShare(alpha), alpha, semanticMetadata, topK);
    return Ok(results);
  }

  /** At `alpha` 0 an id's hybrid score is its TF-IDF score alone, at `alpha` 1 its semantic score alone. */
  lemma HybridEndpoints(t: map<string, real>, s: map<string, real>, alpha: real, id: string)
    ensures alpha == 0.0 ==> Combine(t, s, TfidfShare(alpha), alpha, id) == ScoreOrZero(t, id)
    ensures alpha == 1.0 ==> Combine(t, s, TfidfShare(alpha), alpha, id) == ScoreOrZero(s, id)
  {
  }

  /** `min(d.values())`. */
  function MinValue(d: map<string, real>): (lo: real)
    requires d != map[]
    ensures lo in d.Values && forall id :: id in d ==> lo <= d[id]
  {
    MinExists(d);
    var lo :| lo in d.Values && forall id :: id in d ==> lo <= d[id];
    lo
  }

  /** `max(d.values())`. */
  function MaxValue(d: map<string, real>): (hi: real)
    requires d != map[]
    ensures hi in d.Values && forall id :: id in d ==> d[id] <= hi
  {
    MaxExists(d);
    var hi :| hi in d.Values && forall id :: id in d ==> d[id] <= hi;
    hi
  }

  lemma {:induction false} MinExists(d: map<string, real>)
    requires d != map[]
    ensures exists lo :: lo in d.Values && forall id :: id in d ==> lo <= d[id]
    decreases |d|
  {
    var x :| x in d;
    var rest := d - {x};
    assert d[x] in d.Values;
    assert forall id :: id in d ==> id == x || id in rest;
    if rest != map[] {
      MinExists(rest);
      var lo :| lo in rest.Values && forall id :: id in rest ==> lo <= rest[id];
      var w :| w in rest && rest[w] == lo;
      assert d[w] == lo && d[w] in d.Values;
      if d[x] < lo {
        assert forall id :: id in d ==> d[x] <= d[id];
      } else {
        assert forall id :: id in d ==> lo <= d[id];
      }
    } else {
      assert forall id :: id in d ==> d[x] <= d[id];
    }
  }

  lemma {:induction false} MaxExists(d: map<string, real>)
    requires d != map[]
    ensures exists hi :: hi in d.Values && forall id :: id in d ==> d[id] <= hi
    decreases |d|
  {
    var x :| x in d;
    var rest := d - {x};
    assert d[x] in d.Values;
    assert forall id :: id in d ==> id == x || id in rest;
    if rest != map[] {
      MaxExists(rest);
      var hi :| hi in rest.Values && forall id :: id in rest ==> rest[id] <= hi;
      var w :| w in rest && rest[w] == hi;
      assert d[w] == hi && d[w] in d.Values;
      if d[x] > hi {
        assert forall id :: id in d ==> d[id] <= d[x];
      } else {
        assert forall id :: id in d ==> d[id] <= hi;
      }
    } else {
      assert forall id :: id in d ==> d[id] <= d[x];
    }
  }

  /**
   * Min-max normalisation of a score dictionary: `(score - min) / range`, the
   * range being `max - min`, or 1.0 when all scores are equal.
   */
  function MinMaxNormalize(d: map<string, real>): (n: map<string, real>)
    ensures n.Keys == d.Keys
  {
    if d == map[] then d
    else
      var lo := MinValue(d);
      var hi := MaxValue(d);
      var range := if hi > lo then hi - lo else 1.0;
      map id | id in d :: (d[id] - lo) / range
  }

  lemma DivInUnitRange(x: real, y: real)
    requires 0.0 <= x <= y && y > 0.0
    ensures 0.0 <= x / y <= 1.0
  {
    assert x / y * y == x;
  }

  lemma DivMonotone(x1: real, x2: real, y: real)
    requires x1 <= x2 && y > 0.0
    ensures x1 / y <= x2 / y
  {
    assert x1 / y * y == x1;
    assert x2 / y * y == x2;
  }

  /** A normalised score lies in [0, 1]. */
  lemma MinMaxNormalizeInUnitRange(d: map<string, real>, id: string)
    requires id in d
    ensures 0.0 <= MinMaxNormalize(d)[id] <= 1.0
  {
    var lo := MinValue(d);
    var hi := MaxValue(d);
    var range := if hi > lo then hi - lo else 1.0;
    assert d[id] in d.Values;
    DivInUnitRange(d[id] - lo, range);
  }

  /** Normalisation keeps the order of the raw scores. */
  lemma MinMaxNormalizeMonotone(d: map<string, real>, a: string, b: string)
    requires a in d && b in d && d[a] <= d[b]
    ensures MinMaxNormalize(d)[a] <= MinMaxNormalize(d)[b]
  {
    var lo := MinValue(d);
    var hi := MaxValue(d);
    var range := if hi > lo then hi - lo else 1.0;
    DivMonotone(d[a] - lo, d[b] - lo, range);
  }

  /** When every raw score is the same (a single score included), every normalised score is 0. */
  lemma MinMaxNormalizeConstant(d: map<string, real>, id: string)
    requires id in d && forall a :: a in d ==> d[a] == d[id]
    ensures MinMaxNormalize(d)[id] == 0.0
  {
    var lo := MinValue(d);
    var w :| w in d && d[w] == lo;
  }

  /** `{doc_id: score for doc_id, score in hits if score >= floor}`. */
  function AboveFloor<M>(hits: seq<Hit<M>>, floor: real): (r: seq<Hit<M>>)
    ensures forall i :: 0 <= i < |r| ==> r[i].score >= floor && r[i] in hits
    ensures forall i :: 0 <= i < |hits| && hits[i].score >= floor ==> hits[i] in r
  {
    if hits == [] then []
    else if hits[0].score >= floor then [hits[0]] + AboveFloor(hits[1..], floor)
    else AboveFloor(hits[1..], floor)
  }

  /**
   * `search_hybrid_advanced`: both retrievers are asked for `3 * top_k` hits;
   * TF-IDF hits below the floor are dropped; both score dictionaries are
   * min-max normalised; every id is scored
   * `tfidf_weight * tfidf + semantic_weight * semantic`.
   */
  method SearchHybridAdvanced(query: string, topK: int, tfidfWeight: real, semanticWeight: real, minTfidfScore: real,
                              tfidf: Retriever<()>, semantic: Retriever<Meta>)
    returns (r: Result<seq<Hit<Meta>>>)
    ensures tfidf(query, topK * 3).Err? ==> r == Err(tfidf(query, topK * 3).error)
    ensures tfidf(query, topK * 3).Ok? && semantic(query, topK * 3).Err? ==> r == Err(semantic(query, topK * 3).error)
    ensures tfidf(query, topK * 3).Ok? && semantic(query, topK * 3).Ok? ==>
      var t := MinMaxNormalize(Scores(AboveFloor(tfidf(query, topK * 3).value, minTfidfScore)));
      var s := MinMaxNormalize(Scores(semantic(query, topK * 3).value));
      && r.Ok?
      && IsTopFused(r.value, t, s, tfidfWeight, semanticWeight, Metadata(semantic(query, topK * 3).value), topK)
  {
    var tfidfResults := tfidf(query, topK * 3);
    if tfidfResults.Err? {
      return Err(tfidfResults.error);
    }
    var tfidfScores := Scores(AboveFloor(tfidfResults.value, minTfidfScore));
    var semanticResults := semantic(query, topK * 3);
    if semanticResults.Err? {
      return Err(semanticResults.error);
    }
    var semanticScores := Scores(semanticResults.value);
    var semanticMetadata := Metadata(semanticResults.value);
    tfidfScores := MinMaxNormalize(tfidfScores);
    semanticScores := MinMaxNormalize(semanticScores);
    var results := FuseAndRank(tfidfScores, semanticScores, tfidfWeight, semanticWeight, semanticMetadata, topK);
    return Ok(results);
  }

  /** Every score of a normalised dictionary lies in [0, 1]. */
  lemma MinMaxNormalizeAllInUnitRange(d: map<string, real>)
    ensures forall id :: id in MinMaxNormalize(d) ==> 0.0 <= MinMaxNormalize(d)[id] <= 1.0
  {
    forall id | id in MinMaxNormalize(d) ensures 0.0 <= MinMaxNormalize(d)[id] <= 1.0 {
      MinMaxNormalizeInUnitRange(d, id);
    }
  }

  /**
   * With non-negative weights summing to at most 1, and both sides' scores in
   * [0, 1] (as min-max normalisation makes them), every fused score lies in
   * [0, 1].
   */
  lemma FusedScoreInUnitRange(t: map<string, real>, s: map<string, real>, tWeight: real, sWeight: real, id: string)
    requires 0.0 <= tWeight && 0.0 <= sWeight && tWeight + sWeight <= 1.0
    requires forall k :: k in t ==> 0.0 <= t[k] <= 1.0
    requires forall k :: k in s ==> 0.0 <= s[k] <= 1.0
    ensures 0.0 <= Combine(t, s, tWeight, sWeight, id) <= 1.0
  {
    var x := ScoreOrZero(t, id);
    var y := ScoreOrZero(s, id);
    assert 0.0 <= x <= 1.0 && 0.0 <= y <= 1.0;
    WeightedInUnitRange(tWeight, x, sWeight, y);
  }
}
