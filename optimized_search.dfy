/**
 * The optimized search paths the search facade dispatches to: TF-IDF hits
 * enriched with patent metadata and cached chunk text, semantic hits read
 * from the vector index's result slots, and the two hybrid fusions, which
 * merge both lists in an insertion-ordered dictionary.
 *
 * The vector index, the TF-IDF index and the chunk files are parameters: the
 * TF-IDF retriever and the index search return a hit list (or the exception
 * they raised), and the chunk files are a map from chunk id to text.
 */
module OptimizedSearch {
  import opened Base
  import opened Text
  import opened Ranking
  import opened DocIds
  import SearchUtils
  import opened Stats

  /** The metadata every optimized search attaches to a hit. */
  datatype Enriched = Enriched(title: string, docType: string, sourceFile: string, baseDocId: string, chunkText: string)

  /** Patent metadata by base document id, each a dictionary of string fields. */
  type PatentMeta = map<string, map<string, string>>

  /** `d.get(key, default)` on a dictionary of strings. */
  function Field(d: map<string, string>, key: string, default: string): string
  {
    if key in d then d[key] else default
  }

  /** `get_chunk_text(id)`: the chunk's text, or `None` when the chunk files lack it. */
  function Lookup(texts: map<string, string>, id: string): Option<string>
  {
    if id in texts then Some(texts[id]) else None
  }

  /** The enriched metadata of chunk `id`, given the patent metadata and the chunk's cached text. */
  function EnrichedFor(patents: PatentMeta, id: string, text: Option<string>): Enriched
  {
    var base := BaseDocId(id);
    var meta := if base in patents then patents[base] else map[];
    Enriched(Field(meta, "title", ""), Field(meta, "doc_type", "unknown"), Field(meta, "source_file", ""), base,
             if text.Some? then text.value else "")
  }

  /**
   * A chunk whose document has no metadata gets the defaults; the base id
   * never contains the chunk marker; the chunk text is the looked-up text,
   * missing text counting as "".
   */
  lemma EnrichedForDefaults(patents: PatentMeta, id: string, text: Option<string>)
    ensures var e := EnrichedFor(patents, id, text);
      && (BaseDocId(id) !in patents ==> e.title == "" && e.docType == "unknown" && e.sourceFile == "")
      && StartsWith(id, e.baseDocId) && !Contains(e.baseDocId, ChunkMarker)
      && (text.None? ==> e.chunkText == "")
  {
    BaseDocIdFacts(id);
  }

  /**
   * The memoised chunk-text lookup `_get_chunk_text_cached`: each chunk id
   * is read from the chunk files at most once, a missing text (`None`)
   * included, and later lookups answer from the cache.
   */
  class ChunkTextCache {
    /** What `get_chunk_text` finds in the chunk files. */
    const texts: map<string, string>
    /** `_chunk_text_cache`. */
    var entries: map<string, Option<string>>
    /** The chunk ids read from the chunk files, in order. */
    var fetched: seq<string>

    ghost predicate Valid()
      reads this
    {
      && (forall id :: id in entries ==> entries[id] == Lookup(texts, id))
      && (forall id :: id in entries <==> id in fetched)
      && (forall i, j :: 0 <= i < j < |fetched| ==> fetched[i] != fetched[j])
    }

    constructor(texts: map<string, string>)
      ensures Valid() && this.texts == texts && entries == map[] && fetched == []
    {
      this.texts := texts;
      entries := map[];
      fetched := [];
    }

    /** The cached text of `id`, read from the chunk files the first time only. */
    method Get(id: string) returns (r: Option<string>)
      requires Valid()
      modifies this
      ensures Valid()
      ensures r == Lookup(texts, id)
      ensures entries == old(entries)[id := r]
      ensures fetched == if id in old(entries) then old(fetched) else old(fetched) + [id]
    {
      if id !in entries {
        entries := entries[id := Lookup(texts, id)];
        fetched := fetched + [id];
      }
      r := entries[id];
    }
  }

  /**
   * The chunk ids a cache already holding `known` reads from the chunk files
   * while it is asked for `ids` in order: each id it does not hold yet, the
   * first time it is asked for.
   */
  function NewIds(known: set<string>, ids: seq<string>): seq<string>
    decreases |ids|
  {
    if ids == [] then []
    else
      var n := |ids| - 1;
      var prev := NewIds(known, ids[..n]);
      if ids[n] in known || ids[n] in ids[..n] then prev else prev + [ids[n]]
  }

  /** The ids read are exactly those asked for and not known before, each read once. */
  lemma {:induction false} NewIdsFacts(known: set<string>, ids: seq<string>)
    ensures forall x :: x in NewIds(known, ids) <==> x in ids && x !in known
    ensures Distinct(NewIds(known, ids))
    decreases |ids|
  {
    if ids != [] {
      var n := |ids| - 1;
      NewIdsFacts(known, ids[..n]);
      assert forall x :: x in ids <==> x in ids[..n] || x == ids[n] by {
        assert ids == ids[..n] + [ids[n]];
      }
    }
  }

  /** Asking for `a` and then for `b` reads what asking for `a + b` reads. */
  lemma {:induction false} NewIdsAppend(known: set<string>, a: seq<string>, b: seq<string>)
    ensures NewIds(known, a + b) == NewIds(known, a) + NewIds(known + SetOf(a), b)
    decreases |b|
  {
    if b != [] {
      var n := |b| - 1;
      NewIdsAppend(known, a, b[..n]);
      assert (a + b)[..|a| + n] == a + b[..n];
      assert (a + b)[|a| + n] == b[n];
      assert b[n] in (a + b)[..|a| + n] <==> b[n] in a || b[n] in b[..n];
    } else {
      assert a + b == a;
    }
  }

  /**
   * The cache's `entries` and `fetched` after asking for `ids` in order,
   * starting from `oldEntries` and `oldFetched`: every id asked for is held,
   * nothing held before changes, and `fetched` gains the newly read ids in
   * the order they were first asked for.
   */
  ghost predicate LookedUp(oldEntries: map<string, Option<string>>, oldFetched: seq<string>, ids: seq<string>,
                           entries: map<string, Option<string>>, fetched: seq<string>)
  {
    && entries.Keys == oldEntries.Keys + SetOf(ids)
    && (forall k :: k in oldEntries ==> k in entries && entries[k] == oldEntries[k])
    && fetched == oldFetched + NewIds(oldEntries.Keys, ids)
  }

  /** Asking for nothing leaves the cache as it was. */
  lemma LookedUpNothing(entries: map<string, Option<string>>, fetched: seq<string>)
    ensures LookedUp(entries, fetched, [], entries, fetched)
  {
    assert SetOf([]) == {};
  }

  /** One more `_get_chunk_text_cached(id)`, as `ChunkTextCache.Get` performs it. */
  lemma LookedUpStep(oe: map<string, Option<string>>, of: seq<string>, ids: seq<string>,
                     e: map<string, Option<string>>, f: seq<string>, id: string, v: Option<string>)
    requires LookedUp(oe, of, ids, e, f)
    requires id in e ==> e[id] == v
    ensures LookedUp(oe, of, ids + [id], e[id := v], if id in e then f else f + [id])
  {
    NewIdsSnoc(oe.Keys, ids, id);
    assert SetOf(ids + [id]) == SetOf(ids) + {id};
    assert id in e <==> id in oe.Keys || id in ids;
  }

  /** Asking for one more id reads it exactly when it is neither known nor asked for before. */
  lemma NewIdsSnoc(known: set<string>, ids: seq<string>, id: string)
    ensures NewIds(known, ids + [id]) == NewIds(known, ids) + if id in known || id in ids then [] else [id]
  {
    assert (ids + [id])[..|ids|] == ids;
  }


  /** `_get_chunk_text_cached(id)` as one more lookup of a round that has so far asked for `looked`. */
  method CachedText(cache: ChunkTextCache, id: string, ghost oe: map<string, Option<string>>, ghost of: seq<string>,
                    ghost looked: seq<string>) returns (r: Option<string>)
    requires cache.Valid() && LookedUp(oe, of, looked, cache.entries, cache.fetched)
    modifies cache
    ensures cache.Valid() && r == Lookup(cache.texts, id)
    ensures LookedUp(oe, of, looked + [id], cache.entries, cache.fetched)
  {
    ghost var e, f := cache.entries, cache.fetched;
    r := cache.Get(id);
    LookedUpStep(oe, of, looked, e, f, id, r);
  }

  /** Two rounds of lookups compose into one. */
  lemma LookedUpThen(oe: map<string, Option<string>>, of: seq<string>, a: seq<string>,
                     e1: map<string, Option<string>>, f1: seq<string>, b: seq<string>,
                     e2: map<string, Option<string>>, f2: seq<string>)
    requires LookedUp(oe, of, a, e1, f1) && LookedUp(e1, f1, b, e2, f2)
    ensures LookedUp(oe, of, a + b, e2, f2)
  {
    NewIdsAppend(oe.Keys, a, b);
    assert SetOf(a + b) == SetOf(a) + SetOf(b);
  }

  /** One hit enriched as `optimized_tfidf_search_with_metadata` and `optimized_semantic_search` do. */
  function Enrich(h: Hit<()>, patents: PatentMeta, texts: map<string, string>): Hit<Enriched>
  {
    Hit(h.id, h.score, EnrichedFor(patents, h.id, Lookup(texts, h.id)))
  }

  /** The outcome of `optimized_tfidf_search_with_metadata`: `[]` on an error, else each hit enriched. */
  function TfidfOutcome(raw: Result<seq<Hit<()>>>, patents: PatentMeta, texts: map<string, string>): seq<Hit<Enriched>>
  {
    if raw.Err? then []
    else seq(|raw.value|, i requires 0 <= i < |raw.value| => Enrich(raw.value[i], patents, texts))
  }

  /** One enriched triple per raw hit, in order, with its id and score. */
  lemma TfidfOutcomeOnePerHit(raw: Result<seq<Hit<()>>>, patents: PatentMeta, texts: map<string, string>)
    ensures raw.Err? ==> TfidfOutcome(raw, patents, texts) == []
    ensures raw.Ok? ==> |TfidfOutcome(raw, patents, texts)| == |raw.value|
    ensures raw.Ok? ==> Ids(TfidfOutcome(raw, patents, texts)) == Ids(raw.value)
    ensures raw.Ok? ==> forall i :: 0 <= i < |raw.value| ==> TfidfOutcome(raw, patents, texts)[i].score == raw.value[i].score
  {
  }

  /** The enrichment loop: each hit with its document's metadata and its cached chunk text. */
  method EnrichAll(results: seq<Hit<()>>, patents: PatentMeta, cache: ChunkTextCache) returns (r: seq<Hit<Enriched>>)
    requires cache.Valid()
    modifies cache
    ensures cache.Valid()
    ensures |r| == |results|
    ensures forall j :: 0 <= j < |results| ==> r[j] == Enrich(results[j], patents, cache.texts)
    ensures LookedUp(old(cache.entries), old(cache.fetched), Ids(results), cache.entries, cache.fetched)
  {
    r := [];
    var i := 0;
    ghost var looked: seq<string> := [];
    LookedUpNothing(cache.entries, cache.fetched);
    while i < |results|
      invariant 0 <= i <= |results|
      invariant cache.Valid()
      invariant r == EnrichedList(results[..i], patents, cache.texts)
      invariant looked == Ids(results[..i])
      invariant LookedUp(old(cache.entries), old(cache.fetched), looked, cache.entries, cache.fetched)
    {
      var h := results[i];
      var chunkText := CachedText(cache, h.id, old(cache.entries), old(cache.fetched), looked);
      var hit := Hit(h.id, h.score, EnrichedFor(patents, h.id, chunkText));
      EnrichStep(results, patents, cache.texts, i);
      looked := looked + [h.id];
      r := r + [hit];
      i := i + 1;
    }
    assert results[..i] == results;
    EnrichedListAt(results, patents, cache.texts);
  }

  /** One more hit of the enrichment loop. */
  lemma EnrichStep(results: seq<Hit<()>>, patents: PatentMeta, texts: map<string, string>, i: nat)
    requires i < |results|
    ensures EnrichedList(results[..i + 1], patents, texts)
         == EnrichedList(results[..i], patents, texts) + [Hit(results[i].id, results[i].score, EnrichedFor(patents, results[i].id, Lookup(texts, results[i].id)))]
    ensures Ids(results[..i + 1]) == Ids(results[..i]) + [results[i].id]
  {
    assert results[..i + 1][..i] == results[..i];
    IdsPrefixStep(results, i);
  }

  /** The hits enriched one by one, in order. */
  function EnrichedList(hits: seq<Hit<()>>, patents: PatentMeta, texts: map<string, string>): seq<Hit<Enriched>>
    decreases |hits|
  {
    if hits == [] then []
    else EnrichedList(hits[..|hits| - 1], patents, texts) + [Enrich(hits[|hits| - 1], patents, texts)]
  }

  /** The enriched list holds each hit's enrichment at the hit's own position. */
  lemma {:induction false} EnrichedListAt(hits: seq<Hit<()>>, patents: PatentMeta, texts: map<string, string>)
    ensures |EnrichedList(hits, patents, texts)| == |hits|
    ensures forall j :: 0 <= j < |hits| ==> EnrichedList(hits, patents, texts)[j] == Enrich(hits[j], patents, texts)
    decreases |hits|
  {
    if hits != [] {
      EnrichedListAt(hits[..|hits| - 1], patents, texts);
    }
  }

  /** The chunk ids `optimized_tfidf_search_with_metadata` looks up: one per hit, none on an error. */
  function TfidfLookups(raw: Result<seq<Hit<()>>>): seq<string>
  {
    if raw.Err? then [] else Ids(raw.value)
  }

  /**
   * `optimized_tfidf_search_with_metadata`: the raw TF-IDF hits (the
   * retriever's error gives `[]`, as `optimized_tfidf_search` catches it),
   * each enriched with its document's metadata and its cached chunk text.
   */
  method TfidfWithMetadata(query: string, topK: int, tfidf: Retriever<()>, patents: PatentMeta, cache: ChunkTextCache)
    returns (r: seq<Hit<Enriched>>)
    requires cache.Valid()
    modifies cache
    ensures cache.Valid()
    ensures r == TfidfOutcome(tfidf(query, topK), patents, cache.texts)
    ensures LookedUp(old(cache.entries), old(cache.fetched), TfidfLookups(tfidf(query, topK)), cache.entries, cache.fetched)
  {
    var raw := tfidf(query, topK);
    if raw.Err? || raw.value == [] {
      LookedUpNothing(cache.entries, cache.fetched);
      return [];
    }
    r := EnrichAll(raw.value, patents, cache);
  }

  /** One result slot of the vector index: a similarity and a position in the id list, -1 when empty. */
  datatype Slot = Slot(score: real, index: int)

  /** The vector index search: the result slots for a query and a requested count, or the exception raised. */
  type IndexSearch = (string, int) -> Result<seq<Slot>>

  /** Python's `xs[i]` on a list of length `n`: the position read (negative `i` counting from the end), or `None` for an IndexError. */
  function PyIndex(n: nat, i: int): (r: Option<nat>)
    ensures r.Some? <==> 0 <= n + i && i < n
    ensures r.Some? ==> r.value < n && (r.value == i || r.value == n + i)
  {
    if 0 <= i < n then Some(i) else if 0 <= n + i && i < 0 then Some(n + i) else None
  }

  /** `top_k * 3 if rerank else top_k`: how many slots the semantic search asks the index for. */
  function SearchK(topK: int, rerank: bool): int
  {
    if rerank then topK * 3 else topK
  }

  /**
   * The hits the semantic search reads from the slots, in slot order: empty
   * slots skipped, every other slot's chunk id enriched; `None` when a slot's
   * position is outside the id list or the chunk metadata list (an IndexError).
   */
  function Collected(slots: seq<Slot>, ids: seq<string>, metadataCount: nat, patents: PatentMeta, texts: map<string, string>)
    : Option<seq<Hit<Enriched>>>
    decreases |slots|
  {
    if slots == [] then Some([])
    else
      var prev := Collected(slots[..|slots| - 1], ids, metadataCount, patents, texts);
      var slot := slots[|slots| - 1];
      if prev.None? || slot.index == -1 then prev
      else
        var p := PyIndex(|ids|, slot.index);
        if p.None? || PyIndex(metadataCount, slot.index).None? then None
        else Some(prev.value + [Enrich(Hit(ids[p.value], slot.score, ()), patents, texts)])
  }

  /** An IndexError ends the collection: once `None`, longer prefixes stay `None`. */
  lemma {:induction false} CollectedStaysNone(slots: seq<Slot>, n: nat, ids: seq<string>, metadataCount: nat,
                                              patents: PatentMeta, texts: map<string, string>)
    requires n <= |slots| && Collected(slots[..n], ids, metadataCount, patents, texts).None?
    ensures Collected(slots, ids, metadataCount, patents, texts).None?
    decreases |slots| - n
  {
    if n < |slots| {
      assert slots[..n + 1][..n] == slots[..n];
      CollectedStaysNone(slots, n + 1, ids, metadataCount, patents, texts);
    } else {
      assert slots[..n] == slots;
    }
  }

  /**
   * The chunk ids the slot loop looks up, in slot order, and whether an
   * IndexError ended the loop: a filled slot in range looks up its chunk id,
   * and no slot after an IndexError is read.
   */
  function SlotLookups(slots: seq<Slot>, ids: seq<string>, metadataCount: nat): (seq<string>, bool)
    decreases |slots|
  {
    if slots == [] then ([], false)
    else
      var prev := SlotLookups(slots[..|slots| - 1], ids, metadataCount);
      var slot := slots[|slots| - 1];
      if prev.1 || slot.index == -1 then prev
      else
        var p := PyIndex(|ids|, slot.index);
        if p.None? || PyIndex(metadataCount, slot.index).None? then (prev.0, true)
        else (prev.0 + [ids[p.value]], false)
  }

  /** Once an IndexError has ended the loop, no later slot is read. */
  lemma {:induction false} SlotLookupsStay(slots: seq<Slot>, n: nat, ids: seq<string>, metadataCount: nat)
    requires n <= |slots| && SlotLookups(slots[..n], ids, metadataCount).1
    ensures SlotLookups(slots, ids, metadataCount) == SlotLookups(slots[..n], ids, metadataCount)
    decreases |slots| - n
  {
    if n < |slots| {
      assert slots[..n + 1][..n] == slots[..n];
      SlotLookupsStay(slots, n + 1, ids, metadataCount);
    } else {
      assert slots[..n] == slots;
    }
  }

  /**
   * The slot loop ends in an IndexError exactly when the collection fails,
   * and otherwise it has looked up exactly the collected hits' ids.
   */
  lemma {:induction false} SlotLookupsCollected(slots: seq<Slot>, ids: seq<string>, metadataCount: nat,
                                                patents: PatentMeta, texts: map<string, string>)
    ensures var l := SlotLookups(slots, ids, metadataCount);
      var c := Collected(slots, ids, metadataCount, patents, texts);
      && (l.1 <==> c.None?)
      && (c.Some? ==> l.0 == Ids(c.value))
    decreases |slots|
  {
    if slots != [] {
      var n := |slots| - 1;
      SlotLookupsCollected(slots[..n], ids, metadataCount, patents, texts);
      var c := Collected(slots[..n], ids, metadataCount, patents, texts);
      var slot := slots[n];
      var p := PyIndex(|ids|, slot.index);
      if c.Some? && slot.index != -1 && p.Some? && PyIndex(metadataCount, slot.index).Some? {
        var h := Enrich(Hit(ids[p.value], slot.score, ()), patents, texts);
        IdsInit(c.value + [h]);
        assert (c.value + [h])[..|c.value|] == c.value;
      }
    }
  }

  /** The chunk ids `optimized_semantic_search` looks up: none when the index raised. */
  function SemanticLookups(found: Result<seq<Slot>>, ids: seq<string>, metadataCount: nat): seq<string>
  {
    if found.Err? then [] else SlotLookups(found.value, ids, metadataCount).0
  }

  /** The number of non-empty slots. */
  function Filled(slots: seq<Slot>): nat
  {
    if slots == [] then 0 else Filled(slots[..|slots| - 1]) + if slots[|slots| - 1].index == -1 then 0 else 1
  }

  /**
   * A successful collection has one hit per non-empty slot, each naming a
   * chunk id of the index and carrying the slot's score.
   */
  lemma {:induction false} CollectedOnePerSlot(slots: seq<Slot>, ids: seq<string>, metadataCount: nat,
                                              patents: PatentMeta, texts: map<string, string>)
    requires Collected(slots, ids, metadataCount, patents, texts).Some?
    ensures var c := Collected(slots, ids, metadataCount, patents, texts).value;
      && |c| == Filled(slots)
      && forall k :: 0 <= k < |c| ==> c[k].id in ids && c[k].meta == EnrichedFor(patents, c[k].id, Lookup(texts, c[k].id))
    decreases |slots|
  {
    if slots != [] {
      CollectedOnePerSlot(slots[..|slots| - 1], ids, metadataCount, patents, texts);
    }
  }

  /** `[(doc_id, score) for doc_id, score, _ in results]`. */
  function Scored<M>(results: seq<Hit<M>>): (r: seq<Hit<()>>)
    ensures Ids(r) == Ids(results)
  {
    var r := seq(|results|, i requires 0 <= i < |results| => Hit(results[i].id, results[i].score, ()));
    assert forall i :: 0 <= i < |r| ==> Ids(r)[i] == Ids(results)[i];
    r
  }

  /**
   * The rebuild after re-ranking: the hits in their order before re-ranking,
   * those whose id the re-ranked list has, each with the score the re-ranked
   * list gives its id (the last one, as a dictionary built from it keeps).
   */
  function Rebuild<M>(results: seq<Hit<M>>, reranked: seq<Hit<()>>): seq<Hit<M>>
  {
    if results == [] then []
    else
      var latest := Latest(reranked);
      var h := results[0];
      (if h.id in latest then [h.(score := latest[h.id].score)] else []) + Rebuild(results[1..], reranked)
  }

  /**
   * When every id survives re-ranking, the rebuild keeps the order, ids and
   * metadata of the hits and only replaces their scores.
   */
  lemma {:induction false} RebuildKeepsOrder<M>(results: seq<Hit<M>>, reranked: seq<Hit<()>>)
    requires forall i :: 0 <= i < |results| ==> results[i].id in Ids(reranked)
    ensures var r := Rebuild(results, reranked);
      && |r| == |results|
      && forall i :: 0 <= i < |results| ==>
           r[i].id == results[i].id && r[i].meta == results[i].meta && r[i].score == Latest(reranked)[results[i].id].score
  {
    if results != [] {
      var latest := Latest(reranked);
      var h := results[0];
      var rest := Rebuild(results[1..], reranked);
      assert h.id in latest;
      assert Rebuild(results, reranked) == [h.(score := latest[h.id].score)] + rest;
      assert |rest| == |results| - 1 && forall i :: 0 <= i < |results| - 1 ==>
        rest[i].id == results[i + 1].id && rest[i].meta == results[i + 1].meta && rest[i].score == latest[results[i + 1].id].score
      by {
        RebuildKeepsOrder(results[1..], reranked);
      }
    }
  }

  /** Re-ranking loses no id, so after it the rebuild keeps every hit. */
  lemma RerankedKeepsIds<M>(results: seq<Hit<M>>, query: string, texts: map<string, string>, keywordWeight: real, semanticWeight: real)
    ensures forall i :: 0 <= i < |results| ==>
      results[i].id in Ids(SearchUtils.Reranked(Scored(results), query, texts, keywordWeight, semanticWeight))
  {
    var scored := Scored(results);
    var reranked := SearchUtils.Reranked(scored, query, texts, keywordWeight, semanticWeight);
    if scored != [] && query != [] {
      SearchUtils.RerankKeepsHits(scored, query, texts, keywordWeight, semanticWeight);
    }
    assert multiset(Ids(reranked)) == multiset(Ids(scored));
    forall i | 0 <= i < |results| ensures results[i].id in Ids(reranked) {
      assert Ids(scored)[i] == results[i].id;
      assert results[i].id in multiset(Ids(scored));
    }
  }

  /** Re-ranking inside a search path: only when asked for and when there are more than `top_k` hits. */
  function MaybeReranked(results: seq<Hit<Enriched>>, query: string, topK: int, rerank: bool, texts: map<string, string>,
                         keywordWeight: real, semanticWeight: real): seq<Hit<Enriched>>
  {
    if rerank && |results| > topK then
      Rebuild(results, SearchUtils.Reranked(Scored(results), query, texts, keywordWeight, semanticWeight))
    else results
  }

  /**
   * Re-ranking keeps the hits, their order and their metadata; it changes
   * scores only, and only for hits with chunk text.
   */
  lemma MaybeRerankedKeepsOrder(results: seq<Hit<Enriched>>, query: string, topK: int, rerank: bool,
                                texts: map<string, string>, keywordWeight: real, semanticWeight: real)
    ensures var r := MaybeReranked(results, query, topK, rerank, texts, keywordWeight, semanticWeight);
      && |r| == |results|
      && forall i :: 0 <= i < |results| ==> r[i].id == results[i].id && r[i].meta == results[i].meta
  {
    if rerank && |results| > topK {
      RerankedKeepsIds(results, query, texts, keywordWeight, semanticWeight);
      RebuildKeepsOrder(results, SearchUtils.Reranked(Scored(results), query, texts, keywordWeight, semanticWeight));
    }
  }

  /** What `optimized_semantic_search` returns for the index's answer. */
  function SemanticOutcome(found: Result<seq<Slot>>, ids: seq<string>, metadataCount: nat, patents: PatentMeta,
                           texts: map<string, string>, query: string, topK: int, rerank: bool,
                           keywordWeight: real, semanticWeight: real): seq<Hit<Enriched>>
  {
    if found.Err? then []
    else
      var c := Collected(found.value, ids, metadataCount, patents, texts);
      if c.None? then []
      else SliceTo(MaybeReranked(c.value, query, topK, rerank, texts, keywordWeight, semanticWeight), topK)
  }

  /**
   * The semantic search gives at most `top_k` hits (`[:top_k]` of them),
   * one per non-empty slot before the cut, in slot order, each naming a
   * chunk of the index with its enriched metadata; an error gives `[]`.
   */
  lemma SemanticOutcomeFacts(found: Result<seq<Slot>>, ids: seq<string>, metadataCount: nat, patents: PatentMeta,
                             texts: map<string, string>, query: string, topK: int, rerank: bool,
                             keywordWeight: real, semanticWeight: real)
    ensures var r := SemanticOutcome(found, ids, metadataCount, patents, texts, query, topK, rerank, keywordWeight, semanticWeight);
      && (found.Err? ==> r == [])
      && (found.Ok? && Collected(found.value, ids, metadataCount, patents, texts).Some? ==>
            |r| == SliceLen(Filled(found.value), topK))
      && forall k :: 0 <= k < |r| ==> r[k].id in ids && r[k].meta == EnrichedFor(patents, r[k].id, Lookup(texts, r[k].id))
  {
    if found.Ok? {
      var c := Collected(found.value, ids, metadataCount, patents, texts);
      if c.Some? {
        var m := MaybeReranked(c.value, query, topK, rerank, texts, keywordWeight, semanticWeight);
        var r := SliceTo(m, topK);
        assert r == SemanticOutcome(found, ids, metadataCount, patents, texts, query, topK, rerank, keywordWeight, semanticWeight);
        CollectedOnePerSlot(found.value, ids, metadataCount, patents, texts);
        MaybeRerankedKeepsOrder(c.value, query, topK, rerank, texts, keywordWeight, semanticWeight);
        assert |m| == Filled(found.value);
        forall k | 0 <= k < |r|
          ensures r[k].id in ids && r[k].meta == EnrichedFor(patents, r[k].id, Lookup(texts, r[k].id))
        {
          assert r[k] == m[k];
          assert m[k].id == c.value[k].id && m[k].meta == c.value[k].meta;
        }
      }
    }
  }

  /** One more slot: skipped when empty, an IndexError when out of range, else one more enriched hit. */
  lemma CollectedStep(slots: seq<Slot>, ids: seq<string>, metadataCount: nat, patents: PatentMeta, texts: map<string, string>, i: nat)
    requires i < |slots|
    ensures var prev := Collected(slots[..i], ids, metadataCount, patents, texts);
      var slot := slots[i];
      var p := PyIndex(|ids|, slot.index);
      Collected(slots[..i + 1], ids, metadataCount, patents, texts)
      == if prev.None? || slot.index == -1 then prev
         else if p.None? || PyIndex(metadataCount, slot.index).None? then None
         else Some(prev.value + [Hit(ids[p.value], slot.score, EnrichedFor(patents, ids[p.value], Lookup(texts, ids[p.value])))])
  {
    assert slots[..i + 1][..i] == slots[..i];
  }

  /** The loop of `optimized_semantic_search` over the index's result slots. */
  method CollectSlots(slots: seq<Slot>, ids: seq<string>, metadataCount: nat, patents: PatentMeta, cache: ChunkTextCache)
    returns (r: Option<seq<Hit<Enriched>>>)
    requires cache.Valid()
    modifies cache
    ensures cache.Valid()
    ensures r == Collected(slots, ids, metadataCount, patents, cache.texts)
    ensures LookedUp(old(cache.entries), old(cache.fetched), SlotLookups(slots, ids, metadataCount).0,
                     cache.entries, cache.fetched)
  {
    var results: seq<Hit<Enriched>> := [];
    var i := 0;
    ghost var looked: seq<string> := [];
    LookedUpNothing(cache.entries, cache.fetched);
    while i < |slots|
      invariant 0 <= i <= |slots|
      invariant cache.Valid()
      invariant Collected(slots[..i], ids, metadataCount, patents, cache.texts) == Some(results)
      invariant SlotLookups(slots[..i], ids, metadataCount) == (looked, false)
      invariant LookedUp(old(cache.entries), old(cache.fetched), looked, cache.entries, cache.fetched)
    {
      var slot := slots[i];
      if slot.index != -1 {
        var p := PyIndex(|ids|, slot.index);
        if p.None? || PyIndex(metadataCount, slot.index).None? {
          SlotOutOfRange(slots, ids, metadataCount, patents, cache.texts, i, results, looked);
          return None;
        }
        var docId := ids[p.value];
        var chunkText := CachedText(cache, docId, old(cache.entries), old(cache.fetched), looked);
        var hit := Hit(docId, slot.score, EnrichedFor(patents, docId, chunkText));
        SlotRead(slots, ids, metadataCount, patents, cache.texts, i, results, looked);
        looked := looked + [docId];
        results := results + [hit];
      } else {
        SlotEmpty(slots, ids, metadataCount, patents, cache.texts, i, results, looked);
      }
      i := i + 1;
    }
    assert slots[..i] == slots;
    r := Some(results);
  }

  /** An empty slot changes neither the collection nor the lookups. */
  lemma SlotEmpty(slots: seq<Slot>, ids: seq<string>, metadataCount: nat, patents: PatentMeta, texts: map<string, string>,
                  i: nat, results: seq<Hit<Enriched>>, looked: seq<string>)
    requires i < |slots| && slots[i].index == -1
    requires Collected(slots[..i], ids, metadataCount, patents, texts) == Some(results)
    requires SlotLookups(slots[..i], ids, metadataCount) == (looked, false)
    ensures Collected(slots[..i + 1], ids, metadataCount, patents, texts) == Some(results)
    ensures SlotLookups(slots[..i + 1], ids, metadataCount) == (looked, false)
  {
    CollectedStep(slots, ids, metadataCount, patents, texts, i);
    SlotLookupsStep(slots, ids, metadataCount, i);
  }

  /** A slot in range adds its enriched chunk to the collection and its chunk id to the lookups. */
  lemma SlotRead(slots: seq<Slot>, ids: seq<string>, metadataCount: nat, patents: PatentMeta, texts: map<string, string>,
                 i: nat, results: seq<Hit<Enriched>>, looked: seq<string>)
    requires i < |slots| && slots[i].index != -1
    requires PyIndex(|ids|, slots[i].index).Some? && PyIndex(metadataCount, slots[i].index).Some?
    requires Collected(slots[..i], ids, metadataCount, patents, texts) == Some(results)
    requires SlotLookups(slots[..i], ids, metadataCount) == (looked, false)
    ensures var docId := ids[PyIndex(|ids|, slots[i].index).value];
      && Collected(slots[..i + 1], ids, metadataCount, patents, texts)
         == Some(results + [Hit(docId, slots[i].score, EnrichedFor(patents, docId, Lookup(texts, docId)))])
      && SlotLookups(slots[..i + 1], ids, metadataCount) == (looked + [docId], false)
  {
    CollectedStep(slots, ids, metadataCount, patents, texts, i);
    SlotLookupsStep(slots, ids, metadataCount, i);
  }

  /** A slot out of range fails the collection after the lookups made so far, and no later slot is read. */
  lemma SlotOutOfRange(slots: seq<Slot>, ids: seq<string>, metadataCount: nat, patents: PatentMeta, texts: map<string, string>,
                       i: nat, results: seq<Hit<Enriched>>, looked: seq<string>)
    requires i < |slots| && slots[i].index != -1
    requires PyIndex(|ids|, slots[i].index).None? || PyIndex(metadataCount, slots[i].index).None?
    requires Collected(slots[..i], ids, metadataCount, patents, texts) == Some(results)
    requires SlotLookups(slots[..i], ids, metadataCount) == (looked, false)
    ensures Collected(slots, ids, metadataCount, patents, texts) == None
    ensures SlotLookups(slots, ids, metadataCount).0 == looked
  {
    CollectedStep(slots, ids, metadataCount, patents, texts, i);
    SlotLookupsStep(slots, ids, metadataCount, i);
    CollectedStaysNone(slots, i + 1, ids, metadataCount, patents, texts);
    SlotLookupsStay(slots, i + 1, ids, metadataCount);
  }

  /** One more slot of the loop's lookups. */
  lemma SlotLookupsStep(slots: seq<Slot>, ids: seq<string>, metadataCount: nat, i: nat)
    requires i < |slots|
    ensures var prev := SlotLookups(slots[..i], ids, metadataCount);
      var slot := slots[i];
      var p := PyIndex(|ids|, slot.index);
      SlotLookups(slots[..i + 1], ids, metadataCount)
      == if prev.1 || slot.index == -1 then prev
         else if p.None? || PyIndex(metadataCount, slot.index).None? then (prev.0, true)
         else (prev.0 + [ids[p.value]], false)
  {
    assert slots[..i + 1][..i] == slots[..i];
  }

  /**
   * `optimized_semantic_search`: the index is asked for `top_k * 3` slots
   * when re-ranking and `top_k` otherwise; an error or an IndexError gives
   * `[]`; re-ranking runs only with more than `top_k` hits and keeps their
   * order; the result is cut to `[:top_k]`.
   */
  method SemanticSearch(query: string, topK: int, rerank: bool, keywordWeight: real, semanticWeight: real,
                        index: IndexSearch, ids: seq<string>, metadataCount: nat, patents: PatentMeta, cache: ChunkTextCache)
    returns (r: seq<Hit<Enriched>>)
    requires cache.Valid()
    modifies cache
    ensures cache.Valid()
    ensures r == SemanticOutcome(index(query, SearchK(topK, rerank)), ids, metadataCount, patents, cache.texts,
                                 query, topK, rerank, keywordWeight, semanticWeight)
    ensures LookedUp(old(cache.entries), old(cache.fetched), SemanticLookups(index(query, SearchK(topK, rerank)), ids, metadataCount),
                     cache.entries, cache.fetched)
  {
    var searchK := if rerank then topK * 3 else topK;
    var found := index(query, searchK);
    if found.Err? {
      LookedUpNothing(cache.entries, cache.fetched);
      return [];
    }
    var collected := CollectSlots(found.value, ids, metadataCount, patents, cache);
    if collected.None? {
      return [];
    }
    var results := collected.value;
    if rerank && |results| > topK {
      var reranked := SearchUtils.RerankResults(Scored(results), query, cache.texts, keywordWeight, semanticWeight);
      results := Rebuild(results, reranked);
    }
    r := SliceTo(results, topK);
  }

  /** `keyword_weight` and `semantic_weight` left at their defaults when the hybrid paths call the semantic search. */
  const DefaultKeywordWeight: real := 0.3
  const DefaultSemanticWeight: real := 0.7

  /** One value of the `combined_scores` dictionary. */
  datatype Entry = Entry(tfidf: real, semantic: real, meta: Enriched)

  /** The distinct elements of `s` in order of first appearance (the keys of a dictionary filled from `s`). */
  function FirstSeen(s: seq<string>): (r: seq<string>)
    ensures forall i, j :: 0 <= i < j < |r| ==> r[i] != r[j]
    ensures forall x :: x in r <==> x in s
  {
    if s == [] then []
    else
      var p := FirstSeen(s[..|s| - 1]);
      assert forall x :: x in s <==> x in s[..|s| - 1] || x == s[|s| - 1] by {
        assert s == s[..|s| - 1] + [s[|s| - 1]];
      }
      if s[|s| - 1] in p then p else p + [s[|s| - 1]]
  }

  /** The first hit of `hits` with the given id. */
  function FirstWith<M>(hits: seq<Hit<M>>, id: string): (h: Hit<M>)
    requires id in Ids(hits)
    ensures h in hits && h.id == id
    decreases |hits|
  {
    var n := |hits| - 1;
    IdsInit(hits);
    if id in Ids(hits[..n]) then FirstWith(hits[..n], id) else hits[n]
  }

  /** The TF-IDF loop of both hybrid fusions: each hit sets its id's entry, with semantic score 0.0. */
  function AddTfidf(d: Dict<Entry>, hits: seq<Hit<Enriched>>): Dict<Entry>
    decreases |hits|
  {
    if hits == [] then d
    else
      var h := hits[|hits| - 1];
      Put(AddTfidf(d, hits[..|hits| - 1]), h.id, Entry(h.score, 0.0, h.meta))
  }

  /**
   * The semantic loop of both hybrid fusions: a hit whose id is present sets
   * only the semantic score; a new id gets an entry with TF-IDF score 0.0.
   */
  function AddSemantic(d: Dict<Entry>, hits: seq<Hit<Enriched>>): Dict<Entry>
    decreases |hits|
  {
    if hits == [] then d
    else
      var prev := AddSemantic(d, hits[..|hits| - 1]);
      var h := hits[|hits| - 1];
      if h.id in prev.vals then Put(prev, h.id, prev.vals[h.id].(semantic := h.score))
      else Put(prev, h.id, Entry(0.0, h.score, h.meta))
  }

  /** `combined_scores` once both loops have run. */
  function Combined(tfidf: seq<Hit<Enriched>>, semantic: seq<Hit<Enriched>>): Dict<Entry>
  {
    AddSemantic(AddTfidf(Dict([], map[]), tfidf), semantic)
  }

  /** A put on a dictionary filled from `pre` gives the dictionary filled from `pre + [k]`. */
  lemma PutFirstSeen<V>(d: Dict<V>, pre: seq<string>, k: string, v: V)
    requires WellFormed(d) && d.keys == FirstSeen(pre)
    ensures WellFormed(Put(d, k, v)) && Put(d, k, v).keys == FirstSeen(pre + [k])
  {
    assert (pre + [k])[..|pre|] == pre;
  }

  lemma {:induction false} AddTfidfKeys(hits: seq<Hit<Enriched>>)
    ensures WellFormed(AddTfidf(Dict([], map[]), hits))
    ensures AddTfidf(Dict([], map[]), hits).keys == FirstSeen(Ids(hits))
    decreases |hits|
  {
    if hits != [] {
      var n := |hits| - 1;
      AddTfidfKeys(hits[..n]);
      IdsInit(hits);
      PutFirstSeen(AddTfidf(Dict([], map[]), hits[..n]), Ids(hits[..n]), hits[n].id, Entry(hits[n].score, 0.0, hits[n].meta));
    }
  }

  /** After the TF-IDF loop each id holds its last TF-IDF hit's score and metadata. */
  lemma {:induction false} AddTfidfValues(hits: seq<Hit<Enriched>>)
    ensures var d := AddTfidf(Dict([], map[]), hits);
      forall k :: k in d.vals ==> k in Latest(hits) && d.vals[k] == Entry(Latest(hits)[k].score, 0.0, Latest(hits)[k].meta)
    ensures forall k :: k in Latest(hits) ==> k in AddTfidf(Dict([], map[]), hits).vals
    decreases |hits|
  {
    if hits != [] {
      AddTfidfValues(hits[..|hits| - 1]);
    }
  }

  lemma {:induction false} AddSemanticKeys(d: Dict<Entry>, pre: seq<string>, hits: seq<Hit<Enriched>>)
    requires WellFormed(d) && d.keys == FirstSeen(pre)
    ensures WellFormed(AddSemantic(d, hits))
    ensures AddSemantic(d, hits).keys == FirstSeen(pre + Ids(hits))
    decreases |hits|
  {
    if hits != [] {
      var n := |hits| - 1;
      var prev := AddSemantic(d, hits[..n]);
      var q := pre + Ids(hits[..n]);
      var h := hits[n];
      assert WellFormed(prev) && prev.keys == FirstSeen(q) by { AddSemanticKeys(d, pre, hits[..n]); }
      assert pre + Ids(hits) == q + [h.id] by { IdsInit(hits); }
      var e := if h.id in prev.vals then prev.vals[h.id].(semantic := h.score) else Entry(0.0, h.score, h.meta);
      assert AddSemantic(d, hits) == Put(prev, h.id, e);
      PutFirstSeen(prev, q, h.id, e);
    } else {
      assert pre + Ids(hits) == pre;
    }
  }

  /**
   * After the semantic loop, for id `k`: it keeps its TF-IDF score and
   * metadata when the TF-IDF loop put it in, else it has 0.0 and the
   * metadata of its first semantic hit; its semantic score is its last
   * semantic hit's, else what it had.
   */
  ghost predicate MergedAt(d: Dict<Entry>, hits: seq<Hit<Enriched>>, e: Dict<Entry>, k: string)
  {
    && (k in e.vals <==> k in d.vals || k in Latest(hits))
    && (k in e.vals ==>
         && e.vals[k].tfidf == (if k in d.vals then d.vals[k].tfidf else 0.0)
         && e.vals[k].semantic == (if k in Latest(hits) then Latest(hits)[k].score else d.vals[k].semantic)
         && e.vals[k].meta == (if k in d.vals then d.vals[k].meta else FirstWith(hits, k).meta))
  }

  /** One step of the semantic loop, seen from a single key. */
  lemma AddSemanticStep(d: Dict<Entry>, hits: seq<Hit<Enriched>>, k: string)
    requires hits != []
    ensures var prev := AddSemantic(d, hits[..|hits| - 1]);
      var h := hits[|hits| - 1];
      var e := AddSemantic(d, hits);
      && (k == h.id ==> k in e.vals && e.vals[k] == if k in prev.vals then prev.vals[k].(semantic := h.score) else Entry(0.0, h.score, h.meta))
      && (k != h.id ==> (k in e.vals <==> k in prev.vals) && (k in prev.vals ==> e.vals[k] == prev.vals[k]))
  {
  }

  /** The first hit with an id, once one more hit is appended. */
  lemma FirstWithStep<M>(hits: seq<Hit<M>>, k: string)
    requires hits != [] && k in Ids(hits)
    ensures var n := |hits| - 1;
      if k in Ids(hits[..n]) then FirstWith(hits, k) == FirstWith(hits[..n], k) else FirstWith(hits, k) == hits[n] && k == hits[n].id
  {
    var n := |hits| - 1;
    assert FirstWith(hits, k) == if k in Ids(hits[..n]) then FirstWith(hits[..n], k) else hits[n];
    IdsInit(hits);
  }

  lemma {:induction false} AddSemanticAt(d: Dict<Entry>, hits: seq<Hit<Enriched>>, k: string)
    ensures MergedAt(d, hits, AddSemantic(d, hits), k)
    decreases |hits|
  {
    if hits != [] {
      var n := |hits| - 1;
      var h := hits[n];
      AddSemanticAt(d, hits[..n], k);
      AddSemanticStep(d, hits, k);
      assert Latest(hits) == Latest(hits[..n])[h.id := h];
      if k in Ids(hits) {
        FirstWithStep(hits, k);
      }
    }
  }

  /** The score a hit list gives an id: its last hit's, or 0.0 when it has none. */
  function ScoreIn<M>(hits: seq<Hit<M>>, k: string): real
  {
    if k in Latest(hits) then Latest(hits)[k].score else 0.0
  }

  /** Whose metadata a fused id carries: its last TF-IDF hit's, else its first semantic hit's. */
  function FusedMeta(t: seq<Hit<Enriched>>, s: seq<Hit<Enriched>>, k: string): Enriched
    requires k in Ids(t) || k in Ids(s)
  {
    if k in Latest(t) then Latest(t)[k].meta else FirstWith(s, k).meta
  }

  lemma CombinedKeys(t: seq<Hit<Enriched>>, s: seq<Hit<Enriched>>)
    ensures WellFormed(Combined(t, s))
    ensures Combined(t, s).keys == FirstSeen(Ids(t) + Ids(s))
  {
    AddTfidfKeys(t);
    AddSemanticKeys(AddTfidf(Dict([], map[]), t), Ids(t), s);
  }

  /**
   * The fused entry of id `k`: present exactly when either list has `k`;
   * each side's score is that list's last score for `k`, or 0.0; the
   * metadata is the TF-IDF side's when it has `k`.
   */
  lemma CombinedAt(t: seq<Hit<Enriched>>, s: seq<Hit<Enriched>>, k: string)
    ensures var c := Combined(t, s);
      && (k in c.vals <==> k in Ids(t) || k in Ids(s))
      && (k in c.vals ==> c.vals[k] == Entry(ScoreIn(t, k), ScoreIn(s, k), FusedMeta(t, s, k)))
  {
    AddTfidfValues(t);
    AddSemanticAt(AddTfidf(Dict([], map[]), t), s, k);
  }

  /** The weighted score of one fused entry. */
  function EntryScore(e: Entry, tWeight: real, sWeight: real): real
  {
    Weighted(tWeight, e.tfidf, sWeight, e.semantic)
  }

  /** The `final_results` list: one triple per key of the dictionary, in its key order. */
  function Listed(keys: seq<string>, vals: map<string, Entry>, tWeight: real, sWeight: real): (r: seq<Hit<Enriched>>)
    requires forall k :: k in keys ==> k in vals
    ensures |r| == |keys|
    decreases |keys|
  {
    if keys == [] then []
    else
      var k := keys[|keys| - 1];
      Listed(keys[..|keys| - 1], vals, tWeight, sWeight) + [Hit(k, EntryScore(vals[k], tWeight, sWeight), vals[k].meta)]
  }

  lemma {:induction false} ListedAt(keys: seq<string>, vals: map<string, Entry>, tWeight: real, sWeight: real)
    requires forall k :: k in keys ==> k in vals
    ensures var r := Listed(keys, vals, tWeight, sWeight);
      forall i :: 0 <= i < |keys| ==> r[i] == Hit(keys[i], EntryScore(vals[keys[i]], tWeight, sWeight), vals[keys[i]].meta)
    decreases |keys|
  {
    if keys != [] {
      ListedAt(keys[..|keys| - 1], vals, tWeight, sWeight);
    }
  }

  /** The candidates both hybrid paths sort: every fused id once, in dictionary order, with its weighted score. */
  function Candidates(t: seq<Hit<Enriched>>, s: seq<Hit<Enriched>>, tWeight: real, sWeight: real): seq<Hit<Enriched>>
  {
    var c := Combined(t, s);
    CombinedKeys(t, s);
    Listed(c.keys, c.vals, tWeight, sWeight)
  }

  /** A fused triple: an id of either list, with its weighted fused score and its fused metadata. */
  ghost predicate IsFused(t: seq<Hit<Enriched>>, s: seq<Hit<Enriched>>, tWeight: real, sWeight: real, h: Hit<Enriched>)
  {
    && (h.id in Ids(t) || h.id in Ids(s))
    && h.score == Weighted(tWeight, ScoreIn(t, h.id), sWeight, ScoreIn(s, h.id))
    && h.meta == FusedMeta(t, s, h.id)
  }

  lemma CandidateAt(t: seq<Hit<Enriched>>, s: seq<Hit<Enriched>>, tWeight: real, sWeight: real, i: nat)
    requires i < |Candidates(t, s, tWeight, sWeight)|
    ensures Candidates(t, s, tWeight, sWeight)[i].id == Combined(t, s).keys[i]
    ensures IsFused(t, s, tWeight, sWeight, Candidates(t, s, tWeight, sWeight)[i])
  {
    var c := Combined(t, s);
    CombinedKeys(t, s);
    var k := c.keys[i];
    ListedAt(c.keys, c.vals, tWeight, sWeight);
    var h := Listed(c.keys, c.vals, tWeight, sWeight)[i];
    assert h == Hit(k, EntryScore(c.vals[k], tWeight, sWeight), c.vals[k].meta);
    assert Candidates(t, s, tWeight, sWeight)[i] == h;
    assert k in c.vals;
    CombinedAt(t, s, k);
    var e := c.vals[k];
    assert e == Entry(ScoreIn(t, k), ScoreIn(s, k), FusedMeta(t, s, k));
    assert h.meta == e.meta;
  }

  /**
   * The candidates: distinct ids, the ids of both lists in order of first
   * appearance (TF-IDF ones first), each scored `tWeight * tfidf +
   * sWeight * semantic` (`Base.Weighted`) with the fused scores and metadata.
   */
  lemma CandidatesFacts(t: seq<Hit<Enriched>>, s: seq<Hit<Enriched>>, tWeight: real, sWeight: real)
    ensures var r := Candidates(t, s, tWeight, sWeight);
      && Ids(r) == FirstSeen(Ids(t) + Ids(s))
      && DistinctIds(r)
      && forall i :: 0 <= i < |r| ==> IsFused(t, s, tWeight, sWeight, r[i])
  {
    var c := Combined(t, s);
    CombinedKeys(t, s);
    var r := Candidates(t, s, tWeight, sWeight);
    forall i | 0 <= i < |r| ensures r[i].id == c.keys[i] && IsFused(t, s, tWeight, sWeight, r[i]) {
      CandidateAt(t, s, tWeight, sWeight, i);
    }
    assert Ids(r) == c.keys;
  }

  /** The two loops that fill `combined_scores`. */
  method FuseInOrder(t: seq<Hit<Enriched>>, s: seq<Hit<Enriched>>) returns (d: Dict<Entry>)
    ensures d == Combined(t, s)
  {
    d := Dict([], map[]);
    var i := 0;
    while i < |t|
      invariant 0 <= i <= |t|
      invariant d == AddTfidf(Dict([], map[]), t[..i])
    {
      assert t[..i + 1][..i] == t[..i];
      d := Put(d, t[i].id, Entry(t[i].score, 0.0, t[i].meta));
      i := i + 1;
    }
    assert t[..i] == t;
    var afterTfidf := d;
    var j := 0;
    while j < |s|
      invariant 0 <= j <= |s|
      invariant d == AddSemantic(afterTfidf, s[..j])
    {
      assert s[..j + 1][..j] == s[..j];
      var h := s[j];
      if h.id in d.vals {
        d := Put(d, h.id, d.vals[h.id].(semantic := h.score));
      } else {
        d := Put(d, h.id, Entry(0.0, h.score, h.meta));
      }
      j := j + 1;
    }
    assert s[..j] == s;
  }

  /** The loop that turns the dictionary into scored triples. */
  method ListScores(d: Dict<Entry>, tWeight: real, sWeight: real) returns (r: seq<Hit<Enriched>>)
    requires forall k :: k in d.keys ==> k in d.vals
    ensures r == Listed(d.keys, d.vals, tWeight, sWeight)
  {
    r := [];
    var i := 0;
    while i < |d.keys|
      invariant 0 <= i <= |d.keys|
      invariant r == Listed(d.keys[..i], d.vals, tWeight, sWeight)
    {
      assert d.keys[..i + 1][..i] == d.keys[..i];
      var k := d.keys[i];
      var e := d.vals[k];
      r := r + [Hit(k, EntryScore(e, tWeight, sWeight), e.meta)];
      i := i + 1;
    }
    assert d.keys[..i] == d.keys;
  }

  /** What `optimized_hybrid_search` returns for the two lists it fuses. */
  function HybridOutcome(t: seq<Hit<Enriched>>, s: seq<Hit<Enriched>>, query: string, topK: int, alpha: real, rerank: bool,
                         texts: map<string, string>, keywordWeight: real, semanticWeight: real): seq<Hit<Enriched>>
  {
    var sorted := SortDesc(Candidates(t, s, TfidfShare(alpha), alpha));
    SliceTo(MaybeReranked(sorted, query, topK, rerank, texts, keywordWeight, semanticWeight), topK)
  }

  /** What `optimized_hybrid_advanced_search` returns for the two lists it fuses. */
  function AdvancedOutcome(t: seq<Hit<Enriched>>, s: seq<Hit<Enriched>>, topK: int, tWeight: real, sWeight: real): seq<Hit<Enriched>>
  {
    SliceTo(SortDesc(Candidates(t, s, tWeight, sWeight)), topK)
  }

  /**
   * The fused ranking without re-ranking: in descending score order,
   * `[:top_k]` of the distinct fused ids, and no cut id outscoring a kept
   * one. Ties keep dictionary order, which is first-seen order over the
   * TF-IDF ids and then the semantic ids: at every score, the kept hits are
   * the first candidates with that score.
   */
  lemma AdvancedOutcomeRanked(t: seq<Hit<Enriched>>, s: seq<Hit<Enriched>>, topK: int, tWeight: real, sWeight: real)
    ensures var r := AdvancedOutcome(t, s, topK, tWeight, sWeight);
      && SortedDesc(r)
      && DistinctIds(r)
      && |r| == SliceLen(|FirstSeen(Ids(t) + Ids(s))|, topK)
      && (forall x, i :: x in Candidates(t, s, tWeight, sWeight) && x.id !in Ids(r) && 0 <= i < |r| ==> x.score <= r[i].score)
    ensures Ids(Candidates(t, s, tWeight, sWeight)) == FirstSeen(Ids(t) + Ids(s))
    ensures forall v :: WithScore(AdvancedOutcome(t, s, topK, tWeight, sWeight), v) <= WithScore(Candidates(t, s, tWeight, sWeight), v)
  {
    var cands := Candidates(t, s, tWeight, sWeight);
    CandidatesFacts(t, s, tWeight, sWeight);
    assert |cands| == |FirstSeen(Ids(t) + Ids(s))|;
    TopOfSorted(cands, topK);
    var sorted := SortDesc(cands);
    var r := AdvancedOutcome(t, s, topK, tWeight, sWeight);
    forall v ensures WithScore(r, v) <= WithScore(cands, v) {
      WithScorePrefix(sorted, |r|, v);
      SortDescStable(cands, v);
    }
  }

  /** Every hit of the fused ranking is a fused triple: an id of either list with its weighted score and fused metadata. */
  lemma AdvancedOutcomeFused(t: seq<Hit<Enriched>>, s: seq<Hit<Enriched>>, topK: int, tWeight: real, sWeight: real)
    ensures var r := AdvancedOutcome(t, s, topK, tWeight, sWeight);
      forall i :: 0 <= i < |r| ==> IsFused(t, s, tWeight, sWeight, r[i])
  {
    var cands := Candidates(t, s, tWeight, sWeight);
    var sorted := SortDesc(cands);
    var r := AdvancedOutcome(t, s, topK, tWeight, sWeight);
    assert r == sorted[..|r|];
    assert forall j :: 0 <= j < |cands| ==> IsFused(t, s, tWeight, sWeight, cands[j]) by {
      CandidatesFacts(t, s, tWeight, sWeight);
    }
    forall i | 0 <= i < |r| ensures IsFused(t, s, tWeight, sWeight, r[i]) {
      assert r[i] == sorted[i];
      assert sorted[i] in multiset(cands) by {
        SortDescPerm(cands);
        assert sorted[i] in multiset(sorted);
      }
      var j :| 0 <= j < |cands| && cands[j] == sorted[i];
    }
  }

  /**
   * The hybrid search is the advanced one with weights `1 - alpha` and
   * `alpha` when it does not re-rank; when it re-ranks, it keeps the same
   * hits in the same order and changes scores only.
   */
  lemma HybridOutcomeFacts(t: seq<Hit<Enriched>>, s: seq<Hit<Enriched>>, query: string, topK: int, alpha: real, rerank: bool,
                           texts: map<string, string>, keywordWeight: real, semanticWeight: real)
    ensures var r := HybridOutcome(t, s, query, topK, alpha, rerank, texts, keywordWeight, semanticWeight);
      var a := AdvancedOutcome(t, s, topK, TfidfShare(alpha), alpha);
      && (!rerank ==> r == a)
      && |r| == |a|
      && forall i :: 0 <= i < |r| ==> r[i].id == a[i].id && r[i].meta == a[i].meta
  {
    var sorted := SortDesc(Candidates(t, s, TfidfShare(alpha), alpha));
    MaybeRerankedKeepsOrder(sorted, query, topK, rerank, texts, keywordWeight, semanticWeight);
  }

  /** The chunk ids both hybrid searches look up: the TF-IDF search's, then the semantic search's. */
  function HybridLookups(query: string, topK: int, tfidf: Retriever<()>, index: IndexSearch, ids: seq<string>,
                         metadataCount: nat): seq<string>
  {
    TfidfLookups(tfidf(query, topK * 2)) + SemanticLookups(index(query, SearchK(topK * 2, false)), ids, metadataCount)
  }

  /**
   * `optimized_hybrid_search`: both searches asked for `top_k * 2` hits, the
   * semantic one without re-ranking; the fusion weighted `1 - alpha` for
   * TF-IDF and `alpha` for semantic; sorted, optionally re-ranked, cut.
   */
  method HybridSearch(query: string, topK: int, alpha: real, rerank: bool, keywordWeight: real, semanticWeight: real,
                      tfidf: Retriever<()>, index: IndexSearch, ids: seq<string>, metadataCount: nat,
                      patents: PatentMeta, cache: ChunkTextCache)
    returns (r: seq<Hit<Enriched>>)
    requires cache.Valid()
    modifies cache
    ensures cache.Valid()
    ensures r == HybridOutcome(TfidfOutcome(tfidf(query, topK * 2), patents, cache.texts),
                               SemanticOutcome(index(query, SearchK(topK * 2, false)), ids, metadataCount, patents, cache.texts,
                                               query, topK * 2, false, DefaultKeywordWeight, DefaultSemanticWeight),
                               query, topK, alpha, rerank, cache.texts, keywordWeight, semanticWeight)
    ensures LookedUp(old(cache.entries), old(cache.fetched), HybridLookups(query, topK, tfidf, index, ids, metadataCount),
                     cache.entries, cache.fetched)
  {
    ghost var e0, f0 := cache.entries, cache.fetched;
    var t := TfidfWithMetadata(query, topK * 2, tfidf, patents, cache);
    ghost var e1, f1 := cache.entries, cache.fetched;
    var s := SemanticSearch(query, topK * 2, false, DefaultKeywordWeight, DefaultSemanticWeight, index, ids, metadataCount, patents, cache);
    LookedUpThen(e0, f0, TfidfLookups(tfidf(query, topK * 2)), e1, f1,
                 SemanticLookups(index(query, SearchK(topK * 2, false)), ids, metadataCount), cache.entries, cache.fetched);
    var d := FuseInOrder(t, s);
    CombinedKeys(t, s);
    var finalResults := ListScores(d, TfidfShare(alpha), alpha);
    finalResults := SortDesc(finalResults);
    if rerank && |finalResults| > topK {
      var reranked := SearchUtils.RerankResults(Scored(finalResults), query, cache.texts, keywordWeight, semanticWeight);
      finalResults := Rebuild(finalResults, reranked);
    }
    r := SliceTo(finalResults, topK);
  }

  /** `optimized_hybrid_advanced_search`: as the hybrid search, with explicit weights and no re-ranking. */
  method HybridAdvancedSearch(query: string, topK: int, tWeight: real, sWeight: real,
                              tfidf: Retriever<()>, index: IndexSearch, ids: seq<string>, metadataCount: nat,
                              patents: PatentMeta, cache: ChunkTextCache)
    returns (r: seq<Hit<Enriched>>)
    requires cache.Valid()
    modifies cache
    ensures cache.Valid()
    ensures r == AdvancedOutcome(TfidfOutcome(tfidf(query, topK * 2), patents, cache.texts),
                                 SemanticOutcome(index(query, SearchK(topK * 2, false)), ids, metadataCount, patents, cache.texts,
                                                 query, topK * 2, false, DefaultKeywordWeight, DefaultSemanticWeight),
                                 topK, tWeight, sWeight)
    ensures LookedUp(old(cache.entries), old(cache.fetched), HybridLookups(query, topK, tfidf, index, ids, metadataCount),
                     cache.entries, cache.fetched)
  {
    ghost var e0, f0 := cache.entries, cache.fetched;
    var t := TfidfWithMetadata(query, topK * 2, tfidf, patents, cache);
    ghost var e1, f1 := cache.entries, cache.fetched;
    var s := SemanticSearch(query, topK * 2, false, DefaultKeywordWeight, DefaultSemanticWeight, index, ids, metadataCount, patents, cache);
    LookedUpThen(e0, f0, TfidfLookups(tfidf(query, topK * 2)), e1, f1,
                 SemanticLookups(index(query, SearchK(topK * 2, false)), ids, metadataCount), cache.entries, cache.fetched);
    var d := FuseInOrder(t, s);
    CombinedKeys(t, s);
    var finalResults := ListScores(d, tWeight, sWeight);
    r := SliceTo(SortDesc(finalResults), topK);
  }
}
