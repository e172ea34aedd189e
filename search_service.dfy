/**
 * The search facade shared by the command line and the HTTP layer: it
 * validates a request in a fixed order, dispatches to one of the four
 * optimized search paths, and turns their raw hits into standard results,
 * one per hit and in the same order, with optional snippets.
 *
 * The clock is a parameter (the elapsed search time); query logging writes
 * to a file and is not part of this model.
 */
module SearchService {
  import opened Base
  import opened Text
  import opened Ranking
  import opened OptimizedSearch
  import SearchUtils

  const ModeTfidf: string := "tfidf"
  const ModeSemantic: string := "semantic"
  const ModeHybrid: string := "hybrid"
  const ModeHybridAdvanced: string := "hybrid-advanced"
  const ValidModes: seq<string> := [ModeTfidf, ModeSemantic, ModeHybrid, ModeHybridAdvanced]

  /** Everything a request carries besides query, mode and `top_k`, with the constructor's defaults. */
  datatype Options = Options(alpha: real, tfidfWeight: real, semanticWeight: real, rerank: bool,
                             includeSnippets: bool, includeMetadata: bool, logEnabled: bool)

  const DefaultOptions: Options := Options(0.5, 0.3, 0.7, false, true, true, false)

  datatype SearchRequest = SearchRequest(query: string, mode: string, topK: int, opts: Options)

  /** The standard result; every text field defaults to "". */
  datatype SearchResult = SearchResult(docId: string, score: real, title: string, docType: string,
                                       sourceFile: string, snippet: string, baseDocId: string)

  /** The metadata `run_search` returns beside the results. */
  datatype SearchMeta = SearchMeta(searchTime: real, mode: string, totalResults: nat, query: string)

  /** A raw hit as a search path returns it: `(doc_id, score, metadata)` or `(doc_id, score)`. */
  datatype RawHit = Triple(id: string, score: real, meta: map<string, string>) | Pair(id: string, score: real)

  /** What the search backends hold: the TF-IDF retriever, the vector index and its id list, and the patent metadata. */
  datatype Backends = Backends(tfidf: Retriever<()>, index: IndexSearch, ids: seq<string>, metadataCount: nat, patents: PatentMeta)

  const InvalidModeMessage: string := "Must be one of ['tfidf', 'semantic', 'hybrid', 'hybrid-advanced']"

  /** The checks of `run_search`, in their order; `None` when the request passes all of them. */
  function Validate(req: SearchRequest): Option<Error>
  {
    if Strip(req.query) == [] then Some(ValueError("Query cannot be empty"))
    else if req.topK <= 0 then Some(ValueError("top_k must be positive"))
    else if req.topK > 100 then Some(ValueError("top_k cannot exceed 100"))
    else if req.mode !in ValidModes then Some(ValueError("Invalid search mode: " + req.mode + ". " + InvalidModeMessage))
    else if req.mode == ModeHybrid && (req.opts.alpha < 0.0 || req.opts.alpha > 1.0) then
      Some(ValueError("alpha must be between 0 and 1 for hybrid mode"))
    else None
  }

  /** The requests `run_search` accepts. */
  predicate Acceptable(req: SearchRequest)
  {
    && Strip(req.query) != []
    && 1 <= req.topK <= 100
    && req.mode in ValidModes
    && (req.mode == ModeHybrid ==> 0.0 <= req.opts.alpha <= 1.0)
  }

  /**
   * A request passes validation exactly when it is acceptable; the first
   * failing check names the error: an empty query before a bad `top_k`,
   * before a bad mode, before a bad `alpha`, which is checked for the
   * hybrid mode only.
   */
  lemma ValidateExactlyAcceptable(req: SearchRequest)
    ensures Validate(req).None? <==> Acceptable(req)
    ensures Strip(req.query) == [] ==> Validate(req) == Some(ValueError("Query cannot be empty"))
    ensures Strip(req.query) != [] && req.topK <= 0 ==> Validate(req) == Some(ValueError("top_k must be positive"))
    ensures Strip(req.query) != [] && req.topK > 100 ==> Validate(req) == Some(ValueError("top_k cannot exceed 100"))
    ensures Strip(req.query) != [] && 1 <= req.topK <= 100 && req.mode != ModeHybrid ==>
      (Validate(req).None? <==> req.mode in ValidModes)
  {
  }

  /** The metadata dictionary of an optimized hit as the facade reads it. */
  function MetaDict(e: Enriched): map<string, string>
  {
    map["title" := e.title, "doc_type" := e.docType, "source_file" := e.sourceFile,
        "base_doc_id" := e.baseDocId, "chunk_text" := e.chunkText]
  }

  function AsTriples(hits: seq<Hit<Enriched>>): (r: seq<RawHit>)
    ensures |r| == |hits|
    ensures forall i :: 0 <= i < |hits| ==> r[i] == Triple(hits[i].id, hits[i].score, MetaDict(hits[i].meta))
  {
    seq(|hits|, i requires 0 <= i < |hits| => Triple(hits[i].id, hits[i].score, MetaDict(hits[i].meta)))
  }

  /** The raw hits of the optimized search path the request's mode selects. */
  function RawResults(req: SearchRequest, b: Backends, texts: map<string, string>): seq<Hit<Enriched>>
  {
    var q := req.query;
    var o := req.opts;
    if req.mode == ModeTfidf then
      TfidfOutcome(b.tfidf(q, req.topK), b.patents, texts)
    else if req.mode == ModeSemantic then
      SemanticOutcome(b.index(q, SearchK(req.topK, o.rerank)), b.ids, b.metadataCount, b.patents, texts,
                      q, req.topK, o.rerank, o.tfidfWeight, o.semanticWeight)
    else
      var t := TfidfOutcome(b.tfidf(q, req.topK * 2), b.patents, texts);
      var s := SemanticOutcome(b.index(q, SearchK(req.topK * 2, false)), b.ids, b.metadataCount, b.patents, texts,
                               q, req.topK * 2, false, DefaultKeywordWeight, DefaultSemanticWeight);
      if req.mode == ModeHybrid then
        HybridOutcome(t, s, q, req.topK, o.alpha, o.rerank, texts, o.tfidfWeight, o.semanticWeight)
      else
        AdvancedOutcome(t, s, req.topK, o.tfidfWeight, o.semanticWeight)
  }

  /** The chunk text a raw hit offers for a snippet: a triple's `chunk_text`, else "". */
  function ChunkTextOf(item: RawHit): string
  {
    if item.Triple? then Field(item.meta, "chunk_text", "") else ""
  }

  /** One raw hit as a standard result. */
  function Converted(item: RawHit, query: string, includeSnippets: bool): SearchResult
  {
    var result :=
      if item.Triple? then
        SearchResult(item.id, item.score, Field(item.meta, "title", ""), Field(item.meta, "doc_type", ""),
                     Field(item.meta, "source_file", ""), "", Field(item.meta, "base_doc_id", ""))
      else SearchResult(item.id, item.score, "", "", "", "", "");
    var chunkText := ChunkTextOf(item);
    if includeSnippets && chunkText != [] then
      result.(snippet := SearchUtils.Snippet(chunkText, query, SearchUtils.DefaultSnippetLength))
    else result
  }

  function ConvertedAll(raw: seq<RawHit>, query: string, includeSnippets: bool): (r: seq<SearchResult>)
    ensures |r| == |raw|
  {
    seq(|raw|, i requires 0 <= i < |raw| => Converted(raw[i], query, includeSnippets))
  }

  /**
   * One standard result per raw hit, in order, with its id and score; a
   * triple's fields copied with "" for a missing one, a pair's left ""; the
   * snippet set only when snippets are asked for and the chunk text is not
   * empty.
   */
  lemma ConvertedOnePerHit(raw: seq<RawHit>, query: string, includeSnippets: bool)
    ensures var r := ConvertedAll(raw, query, includeSnippets);
      && |r| == |raw|
      && forall i :: 0 <= i < |raw| ==>
           && r[i].docId == raw[i].id && r[i].score == raw[i].score
           && (raw[i].Triple? ==>
                 && r[i].title == Field(raw[i].meta, "title", "")
                 && r[i].docType == Field(raw[i].meta, "doc_type", "")
                 && r[i].sourceFile == Field(raw[i].meta, "source_file", "")
                 && r[i].baseDocId == Field(raw[i].meta, "base_doc_id", ""))
           && (raw[i].Pair? ==> r[i].title == r[i].docType == r[i].sourceFile == r[i].baseDocId == r[i].snippet == "")
           && (r[i].snippet != [] ==> includeSnippets && ChunkTextOf(raw[i]) != [])
           && (includeSnippets && ChunkTextOf(raw[i]) != [] ==>
                 r[i].snippet == SearchUtils.Snippet(ChunkTextOf(raw[i]), query, SearchUtils.DefaultSnippetLength))
  {
  }

  /** What `run_search` returns or raises, given the elapsed time it measures. */
  function RunOutcome(req: SearchRequest, b: Backends, texts: map<string, string>, elapsed: real): Result<(seq<SearchResult>, SearchMeta)>
  {
    match Validate(req)
    case Some(e) => Err(e)
    case None =>
      var results := ConvertedAll(AsTriples(RawResults(req, b, texts)), req.query, req.opts.includeSnippets);
      Ok((results, SearchMeta(elapsed, req.mode, |results|, req.query)))
  }

  /** The chunk ids `run_search` looks up in the chunk-text cache: none for a rejected request. */
  function RunLookups(req: SearchRequest, b: Backends): seq<string>
  {
    if Validate(req).Some? then []
    else if req.mode == ModeTfidf then TfidfLookups(b.tfidf(req.query, req.topK))
    else if req.mode == ModeSemantic then
      SemanticLookups(b.index(req.query, SearchK(req.topK, req.opts.rerank)), b.ids, b.metadataCount)
    else HybridLookups(req.query, req.topK, b.tfidf, b.index, b.ids, b.metadataCount)
  }

  /**
   * `run_search` succeeds exactly on acceptable requests; then it returns one
   * result per raw hit of the selected path, in order, and metadata that
   * counts them and echoes mode and query.
   */
  lemma RunOutcomeFacts(req: SearchRequest, b: Backends, texts: map<string, string>, elapsed: real)
    ensures var r := RunOutcome(req, b, texts, elapsed);
      && (r.Ok? <==> Acceptable(req))
      && (r.Err? ==> Some(r.error) == Validate(req))
      && (r.Ok? ==>
            var raw := RawResults(req, b, texts);
            && |r.value.0| == |raw|
            && r.value.1 == SearchMeta(elapsed, req.mode, |raw|, req.query)
            && forall i :: 0 <= i < |raw| ==> r.value.0[i].docId == raw[i].id && r.value.0[i].score == raw[i].score)
  {
    ValidateExactlyAcceptable(req);
    if Acceptable(req) {
      var raw := RawResults(req, b, texts);
      ConvertedOnePerHit(AsTriples(raw), req.query, req.opts.includeSnippets);
    }
  }

  /** The conversion loop: builds each result, then attaches its snippet. */
  method ConvertAll(raw: seq<RawHit>, query: string, includeSnippets: bool) returns (results: seq<SearchResult>)
    ensures results == ConvertedAll(raw, query, includeSnippets)
  {
    results := [];
    var i := 0;
    while i < |raw|
      invariant 0 <= i <= |raw|
      invariant results == ConvertedAll(raw[..i], query, includeSnippets)
    {
      var item := raw[i];
      var result;
      if item.Triple? {
        var meta := item.meta;
        result := SearchResult(item.id, item.score, Field(meta, "title", ""), Field(meta, "doc_type", ""),
                               Field(meta, "source_file", ""), "", Field(meta, "base_doc_id", ""));
      } else {
        result := SearchResult(item.id, item.score, "", "", "", "", "");
      }
      if includeSnippets {
        var chunkText := if item.Triple? then Field(item.meta, "chunk_text", "") else "";
        if chunkText != [] {
          var snippet := SearchUtils.GenerateSnippet(chunkText, query, SearchUtils.DefaultSnippetLength);
          result := result.(snippet := snippet);
        }
      }
      results := results + [result];
      i := i + 1;
    }
    assert raw[..i] == raw;
  }

  /**
   * `run_search` over the optimized paths. A rejected request raises before
   * any search runs, leaving the chunk-text cache as it was.
   */
  method RunSearch(req: SearchRequest, b: Backends, cache: ChunkTextCache, elapsed: real)
    returns (r: Result<(seq<SearchResult>, SearchMeta)>)
    requires cache.Valid()
    modifies cache
    ensures cache.Valid()
    ensures r == RunOutcome(req, b, cache.texts, elapsed)
    ensures r.Err? ==> cache.entries == old(cache.entries) && cache.fetched == old(cache.fetched)
    ensures LookedUp(old(cache.entries), old(cache.fetched), RunLookups(req, b), cache.entries, cache.fetched)
  {
    var invalid := Validate(req);
    if invalid.Some? {
      LookedUpNothing(cache.entries, cache.fetched);
      return Err(invalid.value);
    }
    var q := req.query;
    var o := req.opts;
    var raw: seq<Hit<Enriched>>;
    if req.mode == ModeTfidf {
      raw := TfidfWithMetadata(q, req.topK, b.tfidf, b.patents, cache);
    } else if req.mode == ModeSemantic {
      raw := SemanticSearch(q, req.topK, o.rerank, o.tfidfWeight, o.semanticWeight, b.index, b.ids, b.metadataCount, b.patents, cache);
    } else if req.mode == ModeHybrid {
      raw := HybridSearch(q, req.topK, o.alpha, o.rerank, o.tfidfWeight, o.semanticWeight,
                          b.tfidf, b.index, b.ids, b.metadataCount, b.patents, cache);
    } else {
      raw := HybridAdvancedSearch(q, req.topK, o.tfidfWeight, o.semanticWeight,
                                  b.tfidf, b.index, b.ids, b.metadataCount, b.patents, cache);
    }
    var results := ConvertAll(AsTriples(raw), q, o.includeSnippets);
    r := Ok((results, SearchMeta(elapsed, req.mode, |results|, q)));
  }

  /** `validate_search_request`: the query and `top_k` checks, not the mode; the query stored stripped. */
  function ValidateSearchRequest(query: string, mode: string, topK: int, opts: Options): Result<SearchRequest>
  {
    if Strip(query) == [] then Err(ValueError("Query cannot be empty"))
    else if topK <= 0 then Err(ValueError("top_k must be positive"))
    else if topK > 100 then Err(ValueError("top_k cannot exceed 100"))
    else Ok(SearchRequest(Strip(query), mode, topK, opts))
  }

  /**
   * A request is built exactly when the stripped query is not empty and
   * `top_k` lies in 1..100; it holds the stripped query and the other
   * arguments unchanged, and a refusal carries the message `run_search`
   * gives for the same arguments.
   */
  lemma ValidateSearchRequestChecks(query: string, mode: string, topK: int, opts: Options)
    ensures var r := ValidateSearchRequest(query, mode, topK, opts);
      && (r.Ok? <==> Strip(query) != [] && 1 <= topK <= 100)
      && (r.Ok? ==> r.value == SearchRequest(Strip(query), mode, topK, opts))
      && (r.Err? ==> Validate(SearchRequest(query, mode, topK, opts)) == Some(r.error))
  {
  }

  /**
   * A built request passes the query and `top_k` checks of `run_search`
   * again (stripping twice changes nothing); only the mode and `alpha`
   * checks can still refuse it.
   */
  lemma ValidatedRequestPassesChecks(query: string, mode: string, topK: int, opts: Options)
    requires ValidateSearchRequest(query, mode, topK, opts).Ok?
    ensures var req := ValidateSearchRequest(query, mode, topK, opts).value;
      && Strip(req.query) == req.query
      && (Validate(req).None? <==> mode in ValidModes && (mode == ModeHybrid ==> 0.0 <= opts.alpha <= 1.0))
  {
    var req := SearchRequest(Strip(query), mode, topK, opts);
    StripIdempotent(query);
    ValidatedAcceptable(req);
  }

  lemma ValidatedAcceptable(req: SearchRequest)
    requires Strip(req.query) != [] && 1 <= req.topK <= 100
    ensures Validate(req).None? <==> req.mode in ValidModes && (req.mode == ModeHybrid ==> 0.0 <= req.opts.alpha <= 1.0)
  {
  }

  /** `SearchResult.to_dict`. */
  function ToDict(r: SearchResult): map<string, Value>
  {
    map["doc_id" := PyStr(r.docId), "score" := PyNum(r.score), "title" := PyStr(r.title),
        "doc_type" := PyStr(r.docType), "source_file" := PyStr(r.sourceFile),
        "snippet" := PyStr(r.snippet), "base_doc_id" := PyStr(r.baseDocId)]
  }

  /** Reads a result back from its dictionary; `None` when a field is missing or of the wrong kind. */
  function FromDict(d: map<string, Value>): Option<SearchResult>
  {
    if && "doc_id" in d && d["doc_id"].PyStr?
       && "score" in d && d["score"].PyNum?
       && "title" in d && d["title"].PyStr?
       && "doc_type" in d && d["doc_type"].PyStr?
       && "source_file" in d && d["source_file"].PyStr?
       && "snippet" in d && d["snippet"].PyStr?
       && "base_doc_id" in d && d["base_doc_id"].PyStr?
    then Some(SearchResult(d["doc_id"].s, d["score"].n, d["title"].s, d["doc_type"].s,
                           d["source_file"].s, d["snippet"].s, d["base_doc_id"].s))
    else None
  }

  /** The dictionary has exactly the seven fields, and loses nothing: reading it back gives the result. */
  lemma ToDictRoundTrip(r: SearchResult)
    ensures ToDict(r).Keys == {"doc_id", "score", "title", "doc_type", "source_file", "snippet", "base_doc_id"}
    ensures FromDict(ToDict(r)) == Some(r)
  {
  }

  /** `format_results_for_api`. */
  function FormatForApi(results: seq<SearchResult>, meta: SearchMeta): map<string, Value>
  {
    map["query" := PyStr(meta.query), "mode" := PyStr(meta.mode), "search_time" := PyNum(meta.searchTime),
        "total_results" := PyNum(meta.totalResults as real),
        "results" := PyList(seq(|results|, i requires 0 <= i < |results| => PyDict(ToDict(results[i]))))]
  }

  /**
   * The API response lists every result, in order, as its dictionary, and
   * echoes query, mode, time and count from the metadata.
   */
  lemma FormatForApiFacts(results: seq<SearchResult>, meta: SearchMeta)
    ensures var d := FormatForApi(results, meta);
      && d["results"].PyList? && |d["results"].items| == |results|
      && d["total_results"] == PyNum(meta.totalResults as real)
      && d["query"] == PyStr(meta.query) && d["mode"] == PyStr(meta.mode) && d["search_time"] == PyNum(meta.searchTime)
      && forall i :: 0 <= i < |results| ==> d["results"].items[i].PyDict? && FromDict(d["results"].items[i].fields) == Some(results[i])
  {
    forall i | 0 <= i < |results| ensures FromDict(ToDict(results[i])) == Some(results[i]) {
      ToDictRoundTrip(results[i]);
    }
  }
}
