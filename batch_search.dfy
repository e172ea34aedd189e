/**
 * Batch query processing for evaluation: reading the query file, running
 * every query through one search mode and shaping the hits as rows, and the
 * summary report over a batch.
 */
module BatchSearch {
  import opened Base
  import opened Text
  import opened DocIds
  import opened OptimizedSearch
  import opened SearchService
  import opened Stats
  import SearchUtils

  // ---------------------------------------------------------------------------
  // load_queries_from_file

  /** A stripped line that is kept as a query: not empty and not a `#` comment. */
  predicate IsQuery(q: string)
  {
    q != [] && !StartsWith(q, "#")
  }

  /** The query a line gives: the stripped line, when it is a query. */
  function QueryOf(line: string): Option<string>
  {
    var q := Strip(line);
    if IsQuery(q) then Some(q) else None
  }

  /** The values `f` gives for the lines it accepts, in line order. */
  function Filtered(lines: seq<string>, f: string -> Option<string>): seq<string>
    decreases |lines|
  {
    if lines == [] then []
    else
      var n := |lines| - 1;
      Filtered(lines[..n], f) + match f(lines[n]) case Some(q) => [q] case None => []
  }

  /** The queries of a file's lines, in file order. */
  function Queries(lines: seq<string>): seq<string>
  {
    Filtered(lines, QueryOf)
  }

  /** The reading loop of `load_queries_from_file`; the file's lines are the input. */
  method LoadQueries(lines: seq<string>) returns (queries: seq<string>)
    ensures queries == Queries(lines)
  {
    queries := [];
    for i := 0 to |lines|
      invariant queries == Filtered(lines[..i], QueryOf)
    {
      assert lines[..i + 1][..i] == lines[..i];
      var query := Strip(lines[i]);
      if query != [] && !StartsWith(query, "#") {
        queries := queries + [query];
      }
    }
    assert lines[..|lines|] == lines;
  }

  /** A line gives a query exactly when it strips to a non-empty, non-comment string, and that string gives itself. */
  lemma QueryOfFacts(line: string)
    ensures QueryOf(line).Some? <==> Strip(line) != [] && !StartsWith(Strip(line), "#")
    ensures QueryOf(line).Some? ==> QueryOf(line).value == Strip(line) && QueryOf(QueryOf(line).value) == QueryOf(line)
  {
    StripIdempotent(line);
  }

  /** A value is kept exactly when some line gives it, and there are no more values than lines. */
  lemma {:induction false} FilteredFacts(lines: seq<string>, f: string -> Option<string>)
    ensures |Filtered(lines, f)| <= |lines|
    ensures forall q :: q in Filtered(lines, f) <==> exists i :: 0 <= i < |lines| && f(lines[i]) == Some(q)
    decreases |lines|
  {
    if lines != [] {
      var n := |lines| - 1;
      var prefix := lines[..n];
      FilteredFacts(prefix, f);
      forall q ensures q in Filtered(lines, f) <==> exists i :: 0 <= i < |lines| && f(lines[i]) == Some(q)
      {
        if q in Filtered(prefix, f) {
          var i :| 0 <= i < n && f(prefix[i]) == Some(q);
          assert f(lines[i]) == Some(q);
        }
        if exists i :: 0 <= i < |lines| && f(lines[i]) == Some(q) {
          var i :| 0 <= i < |lines| && f(lines[i]) == Some(q);
          if i < n {
            assert f(prefix[i]) == Some(q);
          }
        }
      }
    }
  }

  /** Filtering two pieces one after the other gives the values of each, in order. */
  lemma {:induction false} FilteredAppend(a: seq<string>, b: seq<string>, f: string -> Option<string>)
    ensures Filtered(a + b, f) == Filtered(a, f) + Filtered(b, f)
    decreases |b|
  {
    if b == [] {
      assert a + b == a;
    } else {
      var n := |b| - 1;
      FilteredAppend(a, b[..n], f);
      assert (a + b)[..|a + b| - 1] == a + b[..n];
      assert (a + b)[|a + b| - 1] == b[n];
    }
  }

  /** When every value `f` gives is given back by `f` for itself, filtering the values again changes nothing. */
  lemma {:induction false} FilteredIdempotent(lines: seq<string>, f: string -> Option<string>)
    requires forall line :: f(line).Some? ==> f(f(line).value) == f(line)
    ensures Filtered(Filtered(lines, f), f) == Filtered(lines, f)
    decreases |lines|
  {
    if lines != [] {
      var n := |lines| - 1;
      FilteredIdempotent(lines[..n], f);
      match f(lines[n])
      case None =>
        assert Filtered(lines, f) == Filtered(lines[..n], f);
      case Some(q) =>
        FilteredAppend(Filtered(lines[..n], f), [q], f);
        assert [q][..0] == [];
    }
  }

  /**
   * Loading is order-preserving: the queries of two pieces of a file are those
   * of each in turn; a loaded query comes from a line, each non-blank,
   * non-comment line gives one; and a file of loaded queries loads to itself.
   */
  lemma QueriesFacts(lines: seq<string>, more: seq<string>)
    ensures |Queries(lines)| <= |lines|
    ensures forall q :: q in Queries(lines) <==> exists i :: 0 <= i < |lines| && QueryOf(lines[i]) == Some(q)
    ensures forall q :: q in Queries(lines) ==> Strip(q) == q && q != [] && !StartsWith(q, "#")
    ensures Queries(lines + more) == Queries(lines) + Queries(more)
    ensures Queries(Queries(lines)) == Queries(lines)
  {
    FilteredFacts(lines, QueryOf);
    FilteredAppend(lines, more, QueryOf);
    forall line ensures QueryOf(line).Some? ==> QueryOf(QueryOf(line).value) == QueryOf(line) {
      QueryOfFacts(line);
    }
    FilteredIdempotent(lines, QueryOf);
    forall q | q in Queries(lines) ensures Strip(q) == q && q != [] && !StartsWith(q, "#") {
      var i :| 0 <= i < |lines| && QueryOf(lines[i]) == Some(q);
      QueryOfFacts(lines[i]);
      StripIdempotent(lines[i]);
    }
  }

  // ---------------------------------------------------------------------------
  // run_batch_search

  /** One row of a query's results. */
  datatype Row = Row(rank: nat, docId: string, baseDocId: string, score: real, title: string, docType: string, snippet: string)

  /** The entry of one query; `error` is present exactly for a failed query. */
  datatype QueryResult = QueryResult(query: string, mode: string, searchTime: real, numResults: nat, rows: seq<Row>, error: Option<string>)

  /** A search function of the modelled backends: the raw hits for a query, or the exception it raises. */
  type Search = string -> Result<seq<RawHit>>

  const SnippetLength: nat := 150

  const SemanticKeywordError: string := "search_semantic() got an unexpected keyword argument 'rerank'"
  const HybridKeywordError: string := "search_hybrid() got an unexpected keyword argument 'rerank'"

  /**
   * The mode dispatch. The semantic and hybrid calls pass `rerank=` and
   * weight keywords that `search_semantic(query, top_k)` and
   * `search_hybrid(query, top_k, alpha)` do not accept, so they raise
   * TypeError before searching; an unknown mode raises ValueError.
   */
  function Dispatch(mode: string, query: string, tfidf: Search, advanced: Search): (r: Result<seq<RawHit>>)
  {
    if mode == ModeTfidf then tfidf(query)
    else if mode == ModeSemantic then Err(TypeError(SemanticKeywordError))
    else if mode == ModeHybrid then Err(TypeError(HybridKeywordError))
    else if mode == ModeHybridAdvanced then advanced(query)
    else Err(ValueError("Unknown mode: " + mode))
  }

  /**
   * The row of the hit at `rank`: a `(doc_id, score)` pair takes title and
   * type from the metadata of its base document and has no snippet; a triple
   * takes them from its own metadata and has a snippet of its chunk text
   * when that is not empty.
   */
  function ShapeHit(hit: RawHit, rank: nat, query: string, metadata: PatentMeta): Row
  {
    var base := BaseDocId(hit.id);
    if hit.Pair? then
      var meta := if base in metadata then metadata[base] else map[];
      Row(rank, hit.id, base, hit.score, Field(meta, "title", "No title"), Field(meta, "doc_type", "unknown"), "")
    else
      var chunkText := Field(hit.meta, "chunk_text", "");
      var snippet := if chunkText != [] then SearchUtils.Snippet(chunkText, query, SnippetLength) else "";
      Row(rank, hit.id, base, hit.score, Field(hit.meta, "title", "No title"), Field(hit.meta, "doc_type", "unknown"), snippet)
  }

  /** The rows of a query's hits, ranked from 1. */
  function ShapedRows(hits: seq<RawHit>, query: string, metadata: PatentMeta): (r: seq<Row>)
  {
    seq(|hits|, i requires 0 <= i < |hits| => ShapeHit(hits[i], i + 1, query, metadata))
  }

  /** The entry of one query, given the time its search took. */
  function QueryEntry(query: string, mode: string, tfidf: Search, advanced: Search, metadata: PatentMeta, elapsed: real): QueryResult
  {
    match Dispatch(mode, query, tfidf, advanced)
    case Ok(hits) =>
      var rows := ShapedRows(hits, query, metadata);
      QueryResult(query, mode, elapsed, |rows|, rows, None)
    case Err(e) => QueryResult(query, mode, 0.0, 0, [], Some(Message(e)))
  }

  /** The entries of a batch, given the time each query's search took. */
  function BatchEntries(queries: seq<string>, mode: string, tfidf: Search, advanced: Search, metadata: PatentMeta,
                        elapsed: nat -> real): seq<QueryResult>
  {
    seq(|queries|, i requires 0 <= i < |queries| => QueryEntry(queries[i], mode, tfidf, advanced, metadata, elapsed(i)))
  }

  /** The inner loop of `run_batch_search`: one row per hit. */
  method ProcessHits(hits: seq<RawHit>, query: string, metadata: PatentMeta) returns (rows: seq<Row>)
    ensures rows == ShapedRows(hits, query, metadata)
  {
    rows := [];
    for i := 0 to |hits|
      invariant rows == ShapedRows(hits, query, metadata)[..i]
    {
      var hit := hits[i];
      var base := BaseDocId(hit.id);
      var row;
      if hit.Pair? {
        var meta := if base in metadata then metadata[base] else map[];
        row := Row(i + 1, hit.id, base, hit.score, Field(meta, "title", "No title"), Field(meta, "doc_type", "unknown"), "");
      } else {
        var snippet := "";
        var chunkText := Field(hit.meta, "chunk_text", "");
        if chunkText != [] {
          snippet := SearchUtils.GenerateSnippet(chunkText, query, SnippetLength);
        }
        row := Row(i + 1, hit.id, base, hit.score, Field(hit.meta, "title", "No title"), Field(hit.meta, "doc_type", "unknown"), snippet);
      }
      assert row == ShapeHit(hit, i + 1, query, metadata);
      ShapedRowsStep(hits, query, metadata, i);
      rows := rows + [row];
    }
  }

  /** One more hit gives one more row. */
  lemma ShapedRowsStep(hits: seq<RawHit>, query: string, metadata: PatentMeta, i: nat)
    requires i < |hits|
    ensures ShapedRows(hits, query, metadata)[..i + 1]
         == ShapedRows(hits, query, metadata)[..i] + [ShapeHit(hits[i], i + 1, query, metadata)]
  {
  }

  /**
   * `run_batch_search`: the queries in order, each through the mode's search;
   * a raised exception becomes an error entry. The clock is a parameter:
   * `elapsed(i)` is the time the i-th search took.
   */
  method RunBatchSearch(queries: seq<string>, mode: string, tfidf: Search, advanced: Search, metadata: PatentMeta,
                        elapsed: nat -> real) returns (results: seq<QueryResult>)
    ensures results == BatchEntries(queries, mode, tfidf, advanced, metadata, elapsed)
  {
    results := [];
    for i := 0 to |queries|
      invariant results == BatchEntries(queries, mode, tfidf, advanced, metadata, elapsed)[..i]
    {
      var query := queries[i];
      var outcome := Dispatch(mode, query, tfidf, advanced);
      var entry;
      if outcome.Ok? {
        var processed := ProcessHits(outcome.value, query, metadata);
        entry := QueryResult(query, mode, elapsed(i), |processed|, processed, None);
      } else {
        entry := QueryResult(query, mode, 0.0, 0, [], Some(Message(outcome.error)));
      }
      assert BatchEntries(queries, mode, tfidf, advanced, metadata, elapsed)[i]
          == QueryEntry(query, mode, tfidf, advanced, metadata, elapsed(i));
      QueryEntryFacts(query, mode, tfidf, advanced, metadata, elapsed(i));
      results := results + [entry];
    }
  }

  /** The rows of a search: in hit order, ranked 1 to n, each with the base id of its document id. */
  lemma ShapedRowsFacts(hits: seq<RawHit>, query: string, metadata: PatentMeta)
    ensures var r := ShapedRows(hits, query, metadata);
      && |r| == |hits|
      && forall i :: 0 <= i < |r| ==>
        && r[i].rank == i + 1
        && r[i].docId == hits[i].id
        && r[i].score == hits[i].score
        && r[i].baseDocId == BaseDocId(hits[i].id)
        && StartsWith(hits[i].id, r[i].baseDocId)
        && !Contains(r[i].baseDocId, ChunkMarker)
        && (hits[i].Pair? ==> r[i].snippet == [])
        && (hits[i].Triple? ==>
              (r[i].snippet != [] <==> Field(hits[i].meta, "chunk_text", "") != [] &&
                                       SearchUtils.Snippet(Field(hits[i].meta, "chunk_text", ""), query, SnippetLength) != []))
  {
    var r := ShapedRows(hits, query, metadata);
    forall i | 0 <= i < |r|
      ensures StartsWith(hits[i].id, r[i].baseDocId) && !Contains(r[i].baseDocId, ChunkMarker)
    {
      BaseDocIdFacts(hits[i].id);
    }
  }

  /** The entry of one query: its rows and time when the search succeeds, else time 0, no rows and the message. */
  lemma QueryEntryFacts(query: string, mode: string, tfidf: Search, advanced: Search, metadata: PatentMeta, elapsed: real)
    ensures var e := QueryEntry(query, mode, tfidf, advanced, metadata, elapsed);
      var d := Dispatch(mode, query, tfidf, advanced);
      && e.query == query && e.mode == mode
      && e.numResults == |e.rows|
      && (e.error.Some? <==> d.Err?)
      && (d.Err? ==> e.searchTime == 0.0 && e.rows == [] && e.error == Some(Message(d.error)))
      && (d.Ok? ==> e.searchTime == elapsed && e.rows == ShapedRows(d.value, query, metadata))
  {
  }

  /**
   * One entry per query, in order, with the batch's mode. A failed search
   * gives an entry with time 0, no rows and the exception's message; a
   * successful one gives its rows, as many as `num_results` says, and no
   * error.
   */
  lemma BatchEntriesFacts(queries: seq<string>, mode: string, tfidf: Search, advanced: Search, metadata: PatentMeta,
                          elapsed: nat -> real)
    ensures var r := BatchEntries(queries, mode, tfidf, advanced, metadata, elapsed);
      && |r| == |queries|
      && forall i :: 0 <= i < |r| ==>
        && r[i].query == queries[i] && r[i].mode == mode
        && r[i].numResults == |r[i].rows|
        && (r[i].error.Some? <==> Dispatch(mode, queries[i], tfidf, advanced).Err?)
        && (r[i].error.Some? ==> r[i].searchTime == 0.0 && r[i].rows == []
                                 && r[i].error.value == Message(Dispatch(mode, queries[i], tfidf, advanced).error))
        && (r[i].error.None? ==> r[i].searchTime == elapsed(i)
                                 && r[i].rows == ShapedRows(Dispatch(mode, queries[i], tfidf, advanced).value, queries[i], metadata))
  {
    forall i | 0 <= i < |queries| {
      QueryEntryFacts(queries[i], mode, tfidf, advanced, metadata, elapsed(i));
    }
  }

  /** Every query of a semantic or hybrid batch fails with TypeError, and every query of an unknown mode with "Unknown mode". */
  lemma OnlyTfidfAndAdvancedSearch(queries: seq<string>, mode: string, tfidf: Search, advanced: Search, metadata: PatentMeta,
                                   elapsed: nat -> real)
    requires mode != ModeTfidf && mode != ModeHybridAdvanced
    ensures var r := BatchEntries(queries, mode, tfidf, advanced, metadata, elapsed);
      forall i :: 0 <= i < |r| ==>
        && r[i].error.Some? && r[i].rows == [] && r[i].searchTime == 0.0
        && (mode !in ValidModes ==> r[i].error.value == "Unknown mode: " + mode)
        && (mode == ModeSemantic ==> r[i].error.value == SemanticKeywordError)
        && (mode == ModeHybrid ==> r[i].error.value == HybridKeywordError)
  {
    var r := BatchEntries(queries, mode, tfidf, advanced, metadata, elapsed);
    forall i | 0 <= i < |r|
      ensures && r[i].error.Some? && r[i].rows == [] && r[i].searchTime == 0.0
              && (mode !in ValidModes ==> r[i].error.value == "Unknown mode: " + mode)
              && (mode == ModeSemantic ==> r[i].error.value == SemanticKeywordError)
              && (mode == ModeHybrid ==> r[i].error.value == HybridKeywordError)
    {
      assert r[i] == QueryEntry(queries[i], mode, tfidf, advanced, metadata, elapsed(i));
      QueryEntryFacts(queries[i], mode, tfidf, advanced, metadata, elapsed(i));
    }
  }

  // ---------------------------------------------------------------------------
  // generate_summary_report

  /** `score_statistics` when there are scores. */
  datatype ScoreStats = ScoreStats(min: real, max: real, avg: real, count: nat)

  /** The summary of a batch; `scoreStats` is `None` where the source reports `{}`. */
  datatype Summary = Summary(totalQueries: nat, successful: nat, failed: int, totalTime: real, avgTime: real,
                             totalResults: nat, avgResults: real, scoreStats: Option<ScoreStats>)

  /** The entries without an error. */
  function CountOk(results: seq<QueryResult>): (n: nat)
    ensures n <= |results|
    decreases |results|
  {
    if results == [] then 0
    else CountOk(results[..|results| - 1]) + if results[|results| - 1].error.None? then 1 else 0
  }

  /** `sum(r["search_time"] for r in results)`. */
  function TotalTime(results: seq<QueryResult>): real
    decreases |results|
  {
    if results == [] then 0.0 else TotalTime(results[..|results| - 1]) + results[|results| - 1].searchTime
  }

  /** `sum(r["num_results"] for r in results)`. */
  function TotalResults(results: seq<QueryResult>): nat
    decreases |results|
  {
    if results == [] then 0 else TotalResults(results[..|results| - 1]) + results[|results| - 1].numResults
  }

  /** The scores of some rows, in order. */
  function RowScores(rows: seq<Row>): (r: seq<real>)
    ensures |r| == |rows| && forall i :: 0 <= i < |rows| ==> r[i] == rows[i].score
  {
    seq(|rows|, i requires 0 <= i < |rows| => rows[i].score)
  }

  /** `all_scores`: the scores of every row of every entry, entry by entry. */
  function Scores(results: seq<QueryResult>): seq<real>
    decreases |results|
  {
    if results == [] then [] else Scores(results[..|results| - 1]) + RowScores(results[|results| - 1].rows)
  }

  /** The number of rows of the entries. */
  function RowCount(results: seq<QueryResult>): nat
    decreases |results|
  {
    if results == [] then 0 else RowCount(results[..|results| - 1]) + |results[|results| - 1].rows|
  }

  /** The statistics of a list of scores, `{}` for none. */
  function StatsOf(scores: seq<real>): Option<ScoreStats>
  {
    if scores == [] then None
    else Some(ScoreStats(Min(scores), Max(scores), Sum(scores) / |scores| as real, |scores|))
  }

  /** The report of `generate_summary_report`. */
  function SummaryOf(results: seq<QueryResult>): Summary
  {
    var total := |results|;
    var ok := CountOk(results);
    var time := TotalTime(results);
    var count := TotalResults(results);
    Summary(total, ok, total - ok, time, if total > 0 then time / total as real else 0.0,
            count, if total > 0 then count as real / total as real else 0.0, StatsOf(Scores(results)))
  }

  /** The loop of `generate_summary_report` that gathers `all_scores`. */
  method CollectScores(results: seq<QueryResult>) returns (allScores: seq<real>)
    ensures allScores == Scores(results)
  {
    allScores := [];
    for i := 0 to |results|
      invariant allScores == Scores(results[..i])
    {
      assert results[..i + 1][..i] == results[..i];
      var rows := results[i].rows;
      for j := 0 to |rows|
        invariant allScores == Scores(results[..i]) + RowScores(rows)[..j]
      {
        allScores := allScores + [rows[j].score];
      }
      assert RowScores(rows)[..|rows|] == RowScores(rows);
    }
    assert results[..|results|] == results;
  }

  /** `generate_summary_report`, with its score loop. */
  method GenerateSummaryReport(results: seq<QueryResult>) returns (summary: Summary)
    ensures summary == SummaryOf(results)
  {
    var allScores := CollectScores(results);
    var total := |results|;
    var ok := CountOk(results);
    var time := TotalTime(results);
    var count := TotalResults(results);
    var stats: Option<ScoreStats> := None;
    if allScores != [] {
      stats := Some(ScoreStats(Min(allScores), Max(allScores), Sum(allScores) / |allScores| as real, |allScores|));
    }
    summary := Summary(total, ok, total - ok, time, if total > 0 then time / total as real else 0.0,
                       count, if total > 0 then count as real / total as real else 0.0, stats);
  }

  /** There are as many scores as rows. */
  lemma {:induction false} ScoresCount(results: seq<QueryResult>)
    ensures |Scores(results)| == RowCount(results)
    decreases |results|
  {
    if results != [] {
      ScoresCount(results[..|results| - 1]);
    }
  }

  /** In entries whose `num_results` counts their rows, the results total is the row count. */
  lemma {:induction false} TotalResultsCountsRows(results: seq<QueryResult>)
    requires forall i :: 0 <= i < |results| ==> results[i].numResults == |results[i].rows|
    ensures TotalResults(results) == RowCount(results)
    decreases |results|
  {
    if results != [] {
      TotalResultsCountsRows(results[..|results| - 1]);
    }
  }

  /**
   * The report counts every entry, and a successful one exactly when it has
   * no error, the rest as failed; averages are 0 for an empty batch; score
   * statistics are absent exactly when no entry has rows, and otherwise
   * count the rows and have `min <= avg <= max`, with `min` and `max` among
   * the scores.
   */
  lemma SummaryFacts(results: seq<QueryResult>)
    ensures var s := SummaryOf(results);
      && s.totalQueries == |results|
      && s.successful == CountOk(results) && s.successful + s.failed == s.totalQueries && 0 <= s.failed
      && (results == [] ==> s.avgTime == 0.0 && s.avgResults == 0.0)
      && (s.scoreStats.None? <==> RowCount(results) == 0)
      && (s.scoreStats.Some? ==>
            && s.scoreStats.value.count == RowCount(results)
            && s.scoreStats.value.min <= s.scoreStats.value.avg <= s.scoreStats.value.max
            && s.scoreStats.value.min in Scores(results) && s.scoreStats.value.max in Scores(results)
            && forall x :: x in Scores(results) ==> s.scoreStats.value.min <= x <= s.scoreStats.value.max)
  {
    ScoresCount(results);
    if Scores(results) != [] {
      var scores := Scores(results);
      AverageBetween(scores, Min(scores), Max(scores));
    }
  }

  /** The entries without error are counted one by one, so failures are exactly the error entries. */
  lemma {:induction false} CountOkAllFailed(results: seq<QueryResult>)
    requires forall i :: 0 <= i < |results| ==> results[i].error.Some?
    ensures CountOk(results) == 0 && SummaryOf(results).failed == |results|
    decreases |results|
  {
    if results != [] {
      CountOkAllFailed(results[..|results| - 1]);
    }
  }

  /**
   * The report of a batch: it counts the queries, its results total is its
   * row count, and a semantic, hybrid or unknown-mode batch reports every
   * query failed and no score statistics.
   */
  lemma SummaryOfBatch(queries: seq<string>, mode: string, tfidf: Search, advanced: Search, metadata: PatentMeta,
                       elapsed: nat -> real)
    ensures var r := BatchEntries(queries, mode, tfidf, advanced, metadata, elapsed);
      && SummaryOf(r).totalQueries == |queries|
      && SummaryOf(r).totalResults == RowCount(r)
      && (mode != ModeTfidf && mode != ModeHybridAdvanced ==>
            SummaryOf(r).successful == 0 && SummaryOf(r).failed == |queries| && SummaryOf(r).scoreStats.None?)
  {
    var r := BatchEntries(queries, mode, tfidf, advanced, metadata, elapsed);
    BatchEntriesFacts(queries, mode, tfidf, advanced, metadata, elapsed);
    TotalResultsCountsRows(r);
    if mode != ModeTfidf && mode != ModeHybridAdvanced {
      OnlyTfidfAndAdvancedSearch(queries, mode, tfidf, advanced, metadata, elapsed);
      CountOkAllFailed(r);
      NoRowsNoScores(r);
    }
  }

  /** Entries without rows have no scores. */
  lemma {:induction false} NoRowsNoScores(results: seq<QueryResult>)
    requires forall i :: 0 <= i < |results| ==> results[i].rows == []
    ensures Scores(results) == []
    decreases |results|
  {
    if results != [] {
      NoRowsNoScores(results[..|results| - 1]);
    }
  }
}
