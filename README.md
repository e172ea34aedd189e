# Patent drafting assistant: a verified model of its search and draft-analysis core

This project models, in Dafny, the deterministic core of a patent drafting
assistant: the layer that retrieves prior-art patents for a query and ranks
them, and the layer that analyses a generated patent draft section by
section against that search. Everything the system hands to a machine
learning model, a language model, a disk or a clock is a parameter of the
model: retrievers are functions from a query and a requested count to a hit
list or the exception they raised, metadata and chunk texts are maps, the
draft generator's server is a record of functions, and timings are reals.

The modules follow the source files:

- `SearchUtils` (search_utils.dfy): the sliding-window snippet generator with
  term highlighting and ellipses, the Jaccard keyword-overlap score, and the
  re-ranking that blends that score into retrieval scores.
- `EmbedHybrid` (embed_hybrid.dfy): the hybrid retriever's two fusion policies,
  the convex `alpha` mix and the weighted mix over a TF-IDF floor with min-max
  normalisation.
- `OptimizedSearch` (optimized_search.dfy): the four optimized search paths,
  with the memoised chunk-text cache as a class and the insertion-ordered
  fusion dictionary built step by step.
- `SearchService` (search_service.dfy): the search facade's request
  validation, dispatch, result conversion and API formatting.
- `SectionSimilarityAnalyzer` (section_similarity_analyzer.dfy) and
  `AsyncOrchestration` (async_orchestration.dfy): the two draft analysers,
  their section parsers, the fan-out over sections, the outcome of a draft
  request with background search, and the flattened similarity maps.
- `PreprocessPatents` (preprocess_patents.dfy) and `ParsePatents`
  (parse_patents.dfy): text cleaning, the overlapping token chunker and chunk
  ids; namespace stripping and the line-based XML record splitter.
- `BenchmarkEvaluation`, `BatchSearch`, `AnalyzeLogs`, `ConfigLoader` and
  `OllamaService`: the ranking metrics, batch query runs and their summary,
  the query-log reports, configuration layering and query-type detection,
  and the draft generator's checks, prompts and control flow.

Shared modules hold what several files rely on: `Base` (optional values,
exceptions as data, Python values), `Text` (Python string operations),
`Stats` (sets, sums, minimum, maximum and averages of lists), `Ranking`
(hits, the stable descending sort, `[:k]` slices, id-keyed dictionaries),
`DocIds` (chunk ids and the document ids they map back to), `SectionParser`
(the heading regular expression both analysers use) and `SectionAnalysis`
(the similar-patent records and the per-section fan-out both analysers
share).

Where the code loops or updates state, the model is a method with loop
invariants, proved equal to a function that specifies it; the properties
are lemmas about those functions.

## Where the code and its documentation differ

The model follows the code in each of these cases.

- Section parsing uses `re.IGNORECASE`, so the terminator `\n[A-Z]` also
  fires on a newline followed by a lower-case letter: a section ends at its
  first line that starts with any letter, not at the next all-capital heading
  (section_similarity_analyzer.py:49-63, async_orchestration.py:273-289).
- The draft cache of `generate_patent_draft` re-enters the generator with
  the description "", which fails validation; the exception is swallowed,
  so a result is never marked cached (ollama_service.py:154-191).
- `run_batch_search` passes `rerank=` and weight keywords to
  `search_semantic` and `search_hybrid`, which do not accept them, so every
  query of a "semantic" or "hybrid" batch becomes an error entry
  (batch_search.py:44-49).
- The re-ranked semantic path rebuilds its list in the pre-rerank order and
  only replaces the scores (optimized_search_service.py:164-168).

## Model

| member | source | states |
|---|---|---|
| DocIds.BaseDocIdFacts | optimized_search_service.py:78 | the base id is a prefix of the id that holds no "_chunk"; an id without the marker is its own base id, and otherwise the marker's first occurrence starts right after the base id |
| DocIds.BaseDocIdIdempotent | search_utils.py:100 | deriving the base id of a base id changes nothing |
| DocIds.ChunkId | preprocess_patents.py:59 | the chunk id `f"{doc_id}_chunk{i}"` starts with the document id |
| DocIds.BaseOfChunkId | preprocess_patents.py:56-59 | round trip: the base id of the i-th chunk id of a document whose id holds no "_chunk" is that document id |
| Ranking.SortDesc | optimized_search_service.py:214 | `list.sort(key=score, reverse=True)` keeps the length of the list |
| Ranking.SortDescSorted | optimized_search_service.py:214 | the sorted list is in descending score order |
| Ranking.SortDescPerm | optimized_search_service.py:214 | the sort is a permutation: the same hits, each as often as before |
| Ranking.SortDescStable | optimized_search_service.py:214 | the sort is stable: for every score value, the hits with that score keep their input order |
| Ranking.WithScorePrefix | optimized_search_service.py:280 | cutting a list to `[:top_k]` keeps, at every score, a prefix of the hits with that score |
| Ranking.SortDescIds | search_utils.py:205 | the sort keeps the multiset of ids |
| Ranking.SortDescDistinct | embed_hybrid.py:45 | sorting a list with distinct ids gives a list with distinct ids |
| Ranking.Take | embed_hybrid.py:49 | `s[:k]` for `k >= 0` is the first `min(k, len(s))` elements |
| Ranking.SliceTo | optimized_search_service.py:170 | `s[:k]` for any integer `k`, negative `k` dropping the last `-k` elements: a prefix of length `SliceLen(len(s), k)` |
| Ranking.Latest | optimized_search_service.py:165 | an id-keyed dictionary built from a list maps exactly the listed ids, each to the last hit carrying it |
| Ranking.TopOfSorted | embed_hybrid.py:45-49 | the first `k` of the sorted list are sorted, have length `SliceLen(n, k)`, are drawn from the input, keep distinct ids distinct, and score at least as high as every hit whose id was cut |
| SearchUtils.MatchCount | search_utils.py:59 | the number of query terms found in a window is at most the number of terms |
| SearchUtils.BestStartUnique | search_utils.py:57-62 | at most one window start satisfies the best-window rule, so the rule determines the start |
| SearchUtils.Scan | search_utils.py:57-62 | the scan over candidate windows returns its initial start or a start whose whole window fits in the text |
| SearchUtils.BestStart | search_utils.py:53-62 | the chosen start lies within the text |
| SearchUtils.BestStartIsBest | search_utils.py:57-62 | the chosen start is 0 when no window fits, and otherwise a multiple of 50 whose window holds the most query terms, with every earlier candidate holding strictly fewer (earliest best window wins) |
| SearchUtils.BestWindowStart | search_utils.py:53-62 | the window loop returns the best start in the sense above, and the same start as the scan function |
| SearchUtils.ReplaceAbsent | search_utils.py:70-71 | a case-insensitive `re.sub` of a pattern that does not occur leaves the text unchanged |
| SearchUtils.ReplacePresent | search_utils.py:70-71 | a case-insensitive `re.sub` of a pattern that occurs puts the replacement into the text |
| SearchUtils.MarkWrapsIffPresent | search_utils.py:68-71 | a term longer than two characters yields `**term**` in the snippet when it occurs ignoring case, and leaves the snippet unchanged when it does not |
| SearchUtils.HighlightSkipsShortTerms | search_utils.py:69 | terms of at most two characters are never highlighted |
| SearchUtils.Window | search_utils.py:65 | `text[best_start:best_start + max_length]` is at most `max_length` long |
| SearchUtils.GenerateSnippet | search_utils.py:33-79 | the snippet method computes the snippet function: short-circuit for empty text or query, best window, highlighting in query-term order, ellipses |
| SearchUtils.SnippetWithoutQuery | search_utils.py:45-46 | with empty text or query the snippet is the text when it fits, otherwise its first `max_length` characters plus "..." (`max_length + 3` characters) |
| SearchUtils.SnippetIsBestWindow | search_utils.py:57-77 | the snippet is the highlighted best window, led by "..." exactly when the window starts after 0 and followed by "..." exactly when text remains after it |
| SearchUtils.BestStartOfShort | search_utils.py:57 | when the text is no longer than `max_length` the start is 0 |
| SearchUtils.SnippetOfShortText | search_utils.py:57-77 | a text that fits one window is shown whole and highlighted, with no ellipsis |
| SearchUtils.KeywordOverlap | search_utils.py:137-166 | the overlap is in [0, 1]; it is 0 for empty text, empty query, or a query with no token longer than two characters |
| SearchUtils.KeywordOverlapIsJaccard | search_utils.py:152-166 | otherwise the union of the token sets is non-empty and the overlap times its size equals the size of the intersection (Jaccard) |
| SearchUtils.KeywordOverlapIsOneIffSameTokens | search_utils.py:152-166 | the overlap is 1 exactly when text and query have the same token set |
| SearchUtils.KeywordOverlapIsZeroIffDisjoint | search_utils.py:152-166 | the overlap is 0 exactly when the token sets are disjoint |
| SearchUtils.Rescore | search_utils.py:188-202 | a rescored hit keeps its id; a hit without chunk text is unchanged |
| SearchUtils.RescoreAll | search_utils.py:186-202 | one rescored entry per input hit, in input order |
| SearchUtils.RerankResults | search_utils.py:169-207 | the re-rank loop returns the input unchanged for empty results or query, and otherwise the rescored hits sorted descending |
| SearchUtils.RerankKeepsHits | search_utils.py:186-205 | the re-ranked list is sorted descending, is a permutation of the rescored hits, and has the same multiset of ids as the input |
| SearchUtils.RerankKeepsScoreWithoutText | search_utils.py:190-193 | a hit without chunk text appears in the output with its original score |
| SearchUtils.RescoreStaysInUnitRange | search_utils.py:199-200 | with non-negative weights summing to 1, a score in [0, 1] stays in [0, 1] after blending |
| EmbedHybrid.Scores | embed_hybrid.py:21 | the score dictionary of a hit list has exactly the listed ids as keys |
| EmbedHybrid.Metadata | embed_hybrid.py:26 | the metadata dictionary of a hit list has exactly the listed ids as keys |
| EmbedHybrid.FuseStep | embed_hybrid.py:32-42 | one fusion step adds the next id, once, with its combined score, and removes it from the ids still to visit |
| EmbedHybrid.FuseDone | embed_hybrid.py:29-42 | when every id has been visited the fused list has one entry per id of the union |
| EmbedHybrid.Fuse | embed_hybrid.py:29-42 | the fusion loop, in whatever order it visits the set of ids, yields each id of either dictionary exactly once with `tWeight * t.get(id, 0.0) + sWeight * s.get(id, 0.0)` |
| EmbedHybrid.TopEntriesFused | embed_hybrid.py:45-49 | every entry kept after sorting and cutting is an id of the union carrying its combined score |
| EmbedHybrid.CutIdsScoreLower | embed_hybrid.py:45-49 | an id cut by `[:top_k]` scores no higher than any kept entry |
| EmbedHybrid.RankedIsTopScored | embed_hybrid.py:45-49 | the sorted and cut fused list has distinct ids from the union, combined scores, descending order, `len == min(top_k, |union|)` (Python slice length) and no better id left out |
| EmbedHybrid.WithMetaTopFused | embed_hybrid.py:48-51 | attaching metadata keeps ids, scores and order |
| EmbedHybrid.RankFused | embed_hybrid.py:45-53 | sorting, `[:top_k]` and metadata attachment give a top-scored list whose metadata is the semantic side's or `{"title": "Unknown", "doc_id": id}` |
| EmbedHybrid.FuseAndRank | embed_hybrid.py:29-53 | fusion then ranking gives a top-scored, metadata-carrying result list |
| EmbedHybrid.SearchHybrid | embed_hybrid.py:10-53 | both retrievers are asked for `top_k * 2`; an exception of either propagates (TF-IDF first); otherwise the result is the top `top_k` of the union scored `(1 - alpha) * tfidf + alpha * semantic`, a missing side counting 0.0 |
| EmbedHybrid.HybridEndpoints | embed_hybrid.py:41 | at `alpha = 0` the hybrid score is the TF-IDF score, at `alpha = 1` the semantic score |
| EmbedHybrid.MinValue | embed_hybrid.py:79 | `min(d.values())` is a value of the dictionary no larger than any other |
| EmbedHybrid.MaxValue | embed_hybrid.py:79 | `max(d.values())` is a value of the dictionary no smaller than any other |
| EmbedHybrid.MinMaxNormalize | embed_hybrid.py:78-86 | normalisation keeps the keys of the dictionary |
| EmbedHybrid.MinMaxNormalizeInUnitRange | embed_hybrid.py:80-81 | every normalised score lies in [0, 1] |
| EmbedHybrid.MinMaxNormalizeMonotone | embed_hybrid.py:80-81 | normalisation keeps the order of the raw scores |
| EmbedHybrid.MinMaxNormalizeConstant | embed_hybrid.py:80 | when all scores are equal, a single score included, the range is taken as 1.0 and every normalised score is 0 |
| EmbedHybrid.AboveFloor | embed_hybrid.py:70 | the floor filter keeps exactly the hits scoring at least the floor |
| EmbedHybrid.SearchHybridAdvanced | embed_hybrid.py:56-109 | both retrievers are asked for `top_k * 3`; an exception propagates; TF-IDF hits below the floor are dropped, both dictionaries min-max normalised, and the result is the top `top_k` of the union scored `tfidf_weight * t + semantic_weight * s` |
| EmbedHybrid.MinMaxNormalizeAllInUnitRange | embed_hybrid.py:78-86 | every score of a normalised dictionary lies in [0, 1] |
| EmbedHybrid.FusedScoreInUnitRange | embed_hybrid.py:97 | with non-negative weights summing to at most 1 and normalised sides, every advanced fused score lies in [0, 1] |
| OptimizedSearch.EnrichedForDefaults | optimized_search_service.py:76-96 | a hit whose document has no metadata gets title "", doc_type "unknown" and source_file ""; the base id is a prefix of the id without "_chunk"; missing chunk text becomes "" |
| OptimizedSearch.ChunkTextCache.constructor | optimized_search_service.py:285 | the cache starts empty, with nothing read from the chunk files |
| OptimizedSearch.ChunkTextCache.Get | optimized_search_service.py:297-303 | a lookup returns the chunk files' answer (`None` included); the cache gains that entry; the chunk files are read only when the id was not cached yet |
| OptimizedSearch.NewIdsFacts | optimized_search_service.py:297-303 | the ids first read from the chunk files in a run of lookups are exactly the looked-up ids the cache did not hold, each once |
| OptimizedSearch.NewIdsAppend | optimized_search_service.py:297-303 | the new ids of two runs of lookups are those of the first, then those of the second among ids neither the cache nor the first run held |
| OptimizedSearch.LookedUpThen | optimized_search_service.py:297-303 | two runs of lookups in a row have the effect of one run over both id lists: every looked-up id cached, old entries kept, new ids read once in first-lookup order |
| OptimizedSearch.CachedText | optimized_search_service.py:297-303 | one cached lookup returns the chunk files' answer and records the id as looked up |
| OptimizedSearch.TfidfOutcome | optimized_search_service.py:63-101 | `[]` when the retriever raised, else each hit enriched with its document's metadata and chunk text |
| OptimizedSearch.TfidfOutcomeOnePerHit | optimized_search_service.py:63-101 | the enriched TF-IDF search gives `[]` on an exception and otherwise one triple per raw hit, same ids in the same order, same scores |
| OptimizedSearch.EnrichAll | optimized_search_service.py:75-96 | the enrichment loop yields one enriched triple per hit, in order, through the cache; afterwards the cache holds every hit's id, keeps every old entry unchanged, and has read the chunk files only for the ids it did not hold, each once, in first-lookup order |
| OptimizedSearch.EnrichedListAt | optimized_search_service.py:75-96 | the list built hit by hit has one entry per hit, the `j`-th being hit `j` enriched |
| OptimizedSearch.TfidfWithMetadata | optimized_search_service.py:63-101 | the method returns the enriched TF-IDF outcome for the retriever's answer; the cache has looked up exactly the retriever's hit ids, none when it raised, with the effect described for `EnrichAll` |
| OptimizedSearch.PyIndex | optimized_search_service.py:131-132 | Python indexing `xs[i]` succeeds exactly for `-n <= i < n`, reading position `i` or `n + i` |
| OptimizedSearch.CollectedStaysNone | optimized_search_service.py:127-132 | an IndexError on a slot ends the search: once the collection fails it fails for the whole slot list |
| OptimizedSearch.CollectedOnePerSlot | optimized_search_service.py:127-152 | a successful collection has one hit per slot not equal to -1, each an id of the index with its enriched metadata |
| OptimizedSearch.Scored | optimized_search_service.py:158 | dropping the metadata keeps the ids in order |
| OptimizedSearch.RebuildKeepsOrder | optimized_search_service.py:164-168 | when every id survives re-ranking, the rebuild keeps the pre-rerank order, ids and metadata and takes each score from the re-ranked dictionary |
| OptimizedSearch.RerankedKeepsIds | optimized_search_service.py:157-168 | re-ranking loses no id, so the rebuild's `if doc_id in reranked_dict` drops nothing |
| OptimizedSearch.MaybeRerankedKeepsOrder | optimized_search_service.py:155-168 | the optional re-rank keeps length, ids, order and metadata, changing only scores |
| OptimizedSearch.SemanticOutcome | optimized_search_service.py:103-173 | `[]` when the index raised or a slot is out of range; else the collected hits, re-ranked when asked, cut to `[:top_k]` |
| OptimizedSearch.SemanticOutcomeFacts | optimized_search_service.py:103-173 | an exception gives `[]`; otherwise the result has `min(top_k, filled slots)` hits, each an id of the index with its enriched metadata |
| OptimizedSearch.SlotLookupsCollected | optimized_search_service.py:126-152 | the slot loop ends early exactly when the collection fails with an IndexError; when it succeeds, the ids looked up are the ids of the collected hits, in order |
| OptimizedSearch.CollectSlots | optimized_search_service.py:126-152 | the slot loop computes the collection function, skipping -1 slots, through the cache; the cache has looked up the id of every slot read before the loop ended, in slot order, keeping every old entry and reading each new id once |
| OptimizedSearch.SemanticSearch | optimized_search_service.py:103-173 | the index is asked for `top_k * 3` slots when re-ranking and `top_k` otherwise, and the method returns the semantic outcome for its answer; the cache has looked up the ids the slot loop read, none when the index raised |
| OptimizedSearch.Candidates | optimized_search_service.py:185-211 | the fused `(doc_id, score, metadata)` list both hybrid paths sort: one triple per key of `combined_scores`, in its key order, with its weighted score |
| OptimizedSearch.FirstSeen | optimized_search_service.py:185-204 | the keys of a dictionary filled from a list are distinct and are exactly the list's elements |
| OptimizedSearch.FirstWith | optimized_search_service.py:200-204 | the first hit with an id is a hit of the list carrying that id |
| OptimizedSearch.PutFirstSeen | optimized_search_service.py:189-200 | assigning a key keeps the dictionary well formed, and its key order is first-insertion order |
| OptimizedSearch.AddTfidfKeys | optimized_search_service.py:188-193 | after the TF-IDF loop the keys are the TF-IDF ids in first-seen order |
| OptimizedSearch.AddTfidfValues | optimized_search_service.py:188-193 | after the TF-IDF loop each id holds its last TF-IDF hit's score and metadata, with semantic score 0.0 |
| OptimizedSearch.AddSemanticKeys | optimized_search_service.py:196-204 | after the semantic loop the keys are the TF-IDF then the semantic ids in first-seen order |
| OptimizedSearch.AddSemanticStep | optimized_search_service.py:196-204 | one semantic hit updates only the semantic score of an existing key, or adds a key with TF-IDF score 0.0 |
| OptimizedSearch.FirstWithStep | optimized_search_service.py:200-204 | the first hit with an id is unchanged by appending a hit, or is the appended hit when the id is new |
| OptimizedSearch.AddSemanticAt | optimized_search_service.py:196-204 | after the semantic loop every key is merged as `MergedAt` says: TF-IDF side kept, semantic score the last semantic hit's |
| OptimizedSearch.CombinedKeys | optimized_search_service.py:185-204 | `combined_scores` is well formed, keyed by the TF-IDF ids then the new semantic ids, in first-seen order |
| OptimizedSearch.CombinedAt | optimized_search_service.py:185-204 | an id is a key exactly when either list has it; its scores are each side's last score or 0.0; its metadata is the TF-IDF side's when that side has it |
| OptimizedSearch.Listed | optimized_search_service.py:207-211 | one triple per key of the dictionary |
| OptimizedSearch.ListedAt | optimized_search_service.py:207-211 | the i-th triple carries the i-th key, its weighted score and its metadata |
| OptimizedSearch.CandidateAt | optimized_search_service.py:207-211 | the i-th candidate is the i-th key of `combined_scores`, a fused triple |
| OptimizedSearch.CandidatesFacts | optimized_search_service.py:185-211 | the candidates have distinct ids, in first-seen order (TF-IDF first), each with the weighted fused score and fused metadata |
| OptimizedSearch.FuseInOrder | optimized_search_service.py:185-204 | the two loops build exactly `combined_scores` |
| OptimizedSearch.ListScores | optimized_search_service.py:207-211 | the listing loop builds exactly the candidate list |
| OptimizedSearch.AdvancedOutcome | optimized_search_service.py:268-278 | the candidates sorted by descending weighted score and cut to `[:top_k]` |
| OptimizedSearch.AdvancedOutcomeRanked | optimized_search_service.py:268-278 | the advanced result is sorted descending, has distinct ids, has `min(top_k, |ids|)` entries and no cut candidate outscores a kept one; ties keep first-seen order: the candidates list the TF-IDF ids, then the new semantic ids, in first-seen order, and at every score the kept results are the first candidates with that score |
| OptimizedSearch.AdvancedOutcomeFused | optimized_search_service.py:268-278 | every advanced result is a fused triple scored `tfidf_weight * tfidf + semantic_weight * semantic`, without floor or normalisation |
| OptimizedSearch.HybridOutcome | optimized_search_service.py:206-232 | the candidates weighted `1 - alpha` and `alpha`, sorted by descending score, re-ranked when asked, cut to `[:top_k]` |
| OptimizedSearch.HybridOutcomeFacts | optimized_search_service.py:206-232 | without re-ranking the hybrid result equals the advanced result with weights `1 - alpha` and `alpha`; with re-ranking it has the same ids, order and metadata |
| OptimizedSearch.HybridSearch | optimized_search_service.py:175-235 | both searches are asked for `top_k * 2`, the semantic one without re-ranking, and the method returns the hybrid outcome for their answers; the cache has looked up the TF-IDF ids, then the ids the semantic slot loop read |
| OptimizedSearch.HybridAdvancedSearch | optimized_search_service.py:237-281 | both searches are asked for `top_k * 2`, and the method returns the advanced outcome for their answers; the cache has looked up the TF-IDF ids, then the ids the semantic slot loop read |
| SearchService.Validate | search_service.py:101-119 | the first failed check of `run_search`, in its order, with its message; none when every check passes |
| SearchService.ValidateExactlyAcceptable | search_service.py:101-119 | a request passes validation exactly when it is acceptable; the first failing check names the error: empty or blank query, then `top_k <= 0`, then `top_k > 100`, then an unknown mode, then `alpha` outside [0, 1], which is checked for mode "hybrid" only |
| SearchService.AsTriples | search_service.py:185-194 | an optimized hit becomes a three-field raw hit carrying its id, score and metadata dictionary, one per hit |
| SearchService.ConvertedAll | search_service.py:183-205 | one standard result per raw hit |
| SearchService.ConvertedOnePerHit | search_service.py:183-205 | results are in raw-hit order with the same ids and scores; a triple's title, doc_type, source_file and base_doc_id are copied with "" for a missing field, a pair's are ""; the snippet is set only when snippets are asked for and the chunk text is not empty, and is then the generated snippet |
| SearchService.RunOutcome | search_service.py:87-222 | the validation error, or the converted results of the path the mode selects with their metadata |
| SearchService.RunOutcomeFacts | search_service.py:87-222 | `run_search` raises exactly on unacceptable requests, with the validation error; otherwise it returns one result per raw hit of the path the mode selects, and metadata with `total_results == len(results)`, the mode and the query |
| SearchService.ConvertAll | search_service.py:183-205 | the conversion loop computes the conversion function |
| SearchService.RunSearch | search_service.py:87-222 | the method returns the outcome function; a rejected request runs no search and leaves the chunk-text cache unchanged; otherwise the cache has looked up the ids of the selected path, with the effect described for `OptimizedSearch.EnrichAll` |
| SearchService.ValidateSearchRequest | search_service.py:257-275 | the query and `top_k` checks of `run_search`, then a request holding the stripped query |
| SearchService.ValidateSearchRequestChecks | search_service.py:257-275 | a request is built exactly when the stripped query is non-empty and `top_k` is in 1..100; it holds the stripped query and the other arguments unchanged; a refusal carries the same message as `run_search` |
| SearchService.ValidatedRequestPassesChecks | search_service.py:257-275 | a built request passes the query and `top_k` checks of `run_search` again |
| SearchService.ValidatedAcceptable | search_service.py:113-119 | once query and `top_k` pass, only the mode and the hybrid `alpha` check decide acceptance |
| SearchService.ToDict | search_service.py:74-84 | the seven-field dictionary of a result |
| SearchService.ToDictRoundTrip | search_service.py:74-84 | `to_dict` has exactly the seven fields and loses nothing: reading it back gives the result |
| SearchService.FormatForApi | search_service.py:244-254 | the API response: query, mode, search time, count and the results' dictionaries |
| SearchService.FormatForApiFacts | search_service.py:244-254 | the API response lists every result's dictionary, in order, and echoes query, mode, search time and count |
| SectionParser.SpaceRunEnd | section_similarity_analyzer.py:49 | the greedy `\s*` run from a position ends at the first non-whitespace character or at the end of the text |
| SectionParser.AfterLastNewline | section_similarity_analyzer.py:49 | the position after the last newline of a whitespace run, when it has one; no newline in the run otherwise |
| SectionParser.FirstMatch | section_similarity_analyzer.py:61 | `re.search` finds the leftmost position where the pattern matches, or none |
| SectionParser.CaptureEnd | section_similarity_analyzer.py:49 | the lazy `(.*?)` ends at the first position where the lookahead `\n[A-Z]`, `\n\n` or end of text holds |
| SectionParser.SectionWithoutHeading | section_similarity_analyzer.py:62-65 | a draft in which the heading does not occur, in any letter case, has the section "" |
| SectionParser.SectionOfShortText | section_similarity_analyzer.py:62-65 | a draft shorter than the heading, the empty draft among them, has the section "" |
| SectionParser.CaptureStopsAtBreak | section_similarity_analyzer.py:49-61 | a capture never holds a newline followed by a letter of either case (IGNORECASE) or by another newline |
| SectionParser.SectionIsFirstMatch | section_similarity_analyzer.py:49-63 | the section is the stripped text from after the heading's trailing whitespace (ending in a newline) up to the first stop of the first match |
| SectionParser.ClaimsExampleMatch | section_similarity_analyzer.py:56 | in "CLAIMS\nA b.\nwhere" the claims pattern matches at 0 and the capture starts at 7 |
| SectionParser.ClaimsExampleEnd | section_similarity_analyzer.py:56 | in that draft the capture ends at 11, before "\nwhere" |
| SectionParser.LowerCaseLineEndsSection | section_similarity_analyzer.py:56-61 | a line starting with a lower-case letter ends the section: the claims section of that draft is "A b." |
| SectionParser.Names | section_similarity_analyzer.py:48-57 | the names of a pattern table, in order |
| SectionParser.ParsedKeys | section_similarity_analyzer.py:59-67 | the parsed dictionary has exactly the table's names as keys, in table order |
| SectionParser.ParsedValues | section_similarity_analyzer.py:59-65 | each name holds its own heading's section |
| SectionParser.ParsedEmptyDraft | section_similarity_analyzer.py:62-65 | an empty draft gives "" for every section |
| SectionParser.ParseSections | section_similarity_analyzer.py:45-67 | the parser's loop computes the parsed dictionary |
| SectionAnalysis.SimilarAllOnePerResult | section_similarity_analyzer.py:106-115 | one similar patent per search result, in order, with its id, title, score, type and source file, snippet "" when snippets are off |
| SectionAnalysis.ConvertResults | section_similarity_analyzer.py:106-115 | the conversion loop computes the similar-patent list |
| SectionAnalysis.PatentsValue | section_similarity_analyzer.py:106-117 | the similar patents as a Python list of the same length |
| SectionAnalysis.FacadeAcceptsSectionQueries | section_similarity_analyzer.py:93-103 | a section query with non-blank text, a valid mode and `top_k` in 1..100 passes the facade's checks, the request carrying the default alpha, and gets one result per raw hit |
| SectionAnalysis.NonBlank | section_similarity_analyzer.py:152-153 | the names whose section text is not blank, in order |
| SectionAnalysis.FannedKeys | section_similarity_analyzer.py:150-183 | the fan-out has exactly the non-blank sections as keys, in section order |
| SectionAnalysis.FannedValues | section_similarity_analyzer.py:166-181 | each non-blank section's entry is its task's result, or the fallback entry when the task raised; a blank section has no entry |
| SectionAnalysis.FanOut | section_similarity_analyzer.py:150-183 | the fan-out loop computes the fan-out dictionary |
| SectionSimilarityAnalyzer.AnalyzerTable | section_similarity_analyzer.py:48-57 | the analyser's pattern table has eight distinct names, title through claims with abstract, and no empty heading |
| SectionSimilarityAnalyzer.ParseDraftSections | section_similarity_analyzer.py:36-67 | `parse_draft_sections` returns exactly the eight names as keys, in order, each holding its heading's section |
| SectionSimilarityAnalyzer.EmptyDraftSections | section_similarity_analyzer.py:59-65 | an empty draft gives all eight keys, each "" |
| SectionSimilarityAnalyzer.AnalyzedSimilarity | section_similarity_analyzer.py:69-121 | nothing for a blank text; else the similar patents of the search on the stripped text, nothing when it raised |
| SectionSimilarityAnalyzer.AnalyzedSimilarityFacts | section_similarity_analyzer.py:88-121 | a blank text is not searched and gives `[]`; a raising search gives `[]`; otherwise one similar patent per result of the search on the stripped text, in order |
| SectionSimilarityAnalyzer.AnalyzeSimilarity | section_similarity_analyzer.py:69-121 | the method computes the analysis function |
| SectionSimilarityAnalyzer.WithTimingFacts | section_similarity_analyzer.py:185-213 | a timed analysis keeps name, text and time; `patent_count == len(similar_patents)`; the top score is the first result's score, or 0.0 with no patents |
| SectionSimilarityAnalyzer.AnalyzeAllSections | section_similarity_analyzer.py:128-183 | the method computes the all-sections analysis |
| SectionSimilarityAnalyzer.AnalyzedAllSectionsKeys | section_similarity_analyzer.py:148-183 | the analysis has an entry exactly for each section whose text is not blank, in section order |
| SectionSimilarityAnalyzer.AnalyzedAllSectionsEntries | section_similarity_analyzer.py:166-181 | a section whose task raised gets the empty entry; every other entry is that section's timed analysis; every entry's count is its number of patents |
| SectionSimilarityAnalyzer.SectionSimilarityMap | section_similarity_analyzer.py:216-258 | the loop computes the similarity map function, including the TypeError of the eagerly evaluated `len` default |
| SectionSimilarityAnalyzer.SimilarityMap | section_similarity_analyzer.py:216-258 | the flattened map of the section data, `{}` without any, or the AttributeError or TypeError reading it raises |
| SectionSimilarityAnalyzer.SimilarityMapFacts | section_similarity_analyzer.py:226-247 | a non-dictionary, or a dictionary with neither "section_similarities" nor "sections", gives `{}`; otherwise the map has the source's keys, and an empty entry gets its key as name, `[]`, count 0 and zero time and score |
| SectionSimilarityAnalyzer.ResultEntry | section_similarity_analyzer.py:249-256 | the map entry of an analysed section object carries its name, patents, time, count and top score |
| SectionSimilarityAnalyzer.AnalysisMapRoundTrip | section_similarity_analyzer.py:216-258 | flattening an analysis keeps one key per analysed section, each entry with that section's name, patents, time, count and top score |
| AsyncOrchestration.OrchestratorTable | async_orchestration.py:273-281 | the orchestrator's table has seven distinct names without "abstract", and no empty heading |
| AsyncOrchestration.ParseDraftSections | async_orchestration.py:268-291 | `_parse_draft_sections` returns exactly the seven names as keys, in order, each holding its heading's section |
| AsyncOrchestration.EmptyDraftSections | async_orchestration.py:284-289 | an empty draft gives all seven keys, each "" |
| AsyncOrchestration.AnalyzeSingleSection | async_orchestration.py:218-266 | the method computes the single-section analysis, converting results in a loop |
| AsyncOrchestration.AnalyzedSingleSectionFacts | async_orchestration.py:229-266 | a section analysis keeps its name and text; a raising search leaves no patents; otherwise one similar patent per result, in order, snippet "" when snippets are off |
| AsyncOrchestration.AnalyzeSectionSimilarities | async_orchestration.py:173-216 | the method computes the per-section fan-out; the background search results take no part |
| AsyncOrchestration.SectionSimilaritiesKeys | async_orchestration.py:183-216 | one entry per section whose text is not blank, in section order, none for a blank section |
| AsyncOrchestration.SectionSimilaritiesEntries | async_orchestration.py:201-214 | a section whose task raised gets empty text, no patents and time 0.0; every other section gets its own analysis, whatever happened to the others |
| AsyncOrchestration.Gathered | async_orchestration.py:79-127 | the request's result once both tasks finished: the generation's failure, else the search's, else the analysed draft |
| AsyncOrchestration.GatheredFacts | async_orchestration.py:79-127 | once both tasks have finished, the request succeeds exactly when generation and background search both return; a failure has empty draft, model and template, time 0.0, not cached, no sections and message "Error: " plus an exception's message; a success copies the generated fields, has the fixed success message and the analysis of the generated draft |
| AsyncOrchestration.GatheredCached | async_orchestration.py:104-127 | the request is marked cached only when the generation succeeded and was marked cached |
| AsyncOrchestration.OrchestratedDraftNotCached | async_orchestration.py:104-114 | an orchestrated draft is never marked cached, because the generator's cache lookup never hits |
| AsyncOrchestration.SimilarityMap | async_orchestration.py:293-319 | the map of a combined result, of a dictionary of section objects, or `{}`; the exception reading an object raises |
| AsyncOrchestration.ObjectsMap | async_orchestration.py:310-319 | one entry per section object, or the AttributeError or TypeError reading one raises |
| AsyncOrchestration.ObjectsMapAllRead | async_orchestration.py:310-319 | when every section object reads, the map holds exactly each one's entry |
| AsyncOrchestration.ObjectEntryOfSimilarity | async_orchestration.py:311-317 | a section similarity object reads as its name, patents, time and `len(similar_patents)` |
| AsyncOrchestration.SimilarityMapFacts | async_orchestration.py:293-319 | a combined result gives a map with exactly its section names, each counting the section's patents; anything but a combined result or a dictionary with "section_similarities" gives `{}` |
| AsyncOrchestration.ObjectsReadBack | async_orchestration.py:311-317 | every section object of a result reads back as its entry |
| AsyncOrchestration.SimilarityMapOfObjects | async_orchestration.py:303-319 | a dictionary holding a result's sections as objects gives the same map as the result itself |
| AsyncOrchestration.ToJsonSchema | async_orchestration.py:321-342 | the JSON form of a combined result: its draft fields and each section's map entry with its text |
| AsyncOrchestration.ToJsonSchemaFacts | async_orchestration.py:321-342 | the JSON form keeps the section names; each section's entry is its map entry plus its text, with `patent_count == len(similar_patents)`; success and message are echoed |
| OllamaService.ValidateDescription | ollama_service.py:144-152 | accepts a description or raises the ValueError naming the first failed length bound |
| OllamaService.ValidateDescriptionExactly | ollama_service.py:144-152 | a description is accepted exactly when its stripped text has at least 50 characters and the raw text at most 5000; the empty, too-short and too-long errors are raised in that order with their messages |
| OllamaService.CreatePatentPrompt | ollama_service.py:77-142 | the template of the type (utility for an unknown type) formatted with the description |
| OllamaService.PromptEmbedsDescription | ollama_service.py:77-142 | the prompt holds the description verbatim right after the template's opening; an unknown template type gets the utility template |
| OllamaService.ItemsListHeadings | ollama_service.py:86-105 | every heading of the numbered item list occurs in the listed text |
| OllamaService.TemplateKeeps | ollama_service.py:141-142 | text of a template after the placeholder survives formatting with any description |
| OllamaService.UtilityPromptListsHeadings | ollama_service.py:81-108 | a utility prompt names all seven headings, TITLE OF THE INVENTION through CLAIMS, whatever the description |
| OllamaService.GeneratePatentDraft | ollama_service.py:161-220 | the checks on server, description and model, then the server's answer to the prompt, or the RuntimeError it becomes |
| OllamaService.GeneratePatentDraftChecks | ollama_service.py:161-175 | the generator raises, in this order, when the server is not available, when the description is invalid (with the validation's error), and when the model (the one asked for, else the default) is not available |
| OllamaService.GeneratePatentDraftGenerates | ollama_service.py:170-220 | past the checks the result is the server's answer to the prompt for the description, with the model, the template type, not cached and the elapsed time; a server error becomes "Failed to generate draft: " plus its message |
| OllamaService.GeneratePatentDraftNeverCached | ollama_service.py:161-220 | a draft the generator returns is never marked cached |
| OllamaService.EmptyDescriptionFails | ollama_service.py:154-159 | the cache lookup, which generates from the empty description, always raises, so the cache never answers |
| ParsePatents.StripNamespace | parse_patents.py:12-13 | the result is the tag's suffix after its last `}`, holds no `}`, and is shorter than the tag only when a `}` precedes it |
| ParsePatents.StripNamespaceFacts | parse_patents.py:12-13 | a tag without `}` is unchanged, and stripping twice is stripping once |
| ParsePatents.StripNamespaceExample | parse_patents.py:12-13 | `{urn:x}claims` strips to `claims` |
| ParsePatents.SplitRecords | parse_patents.py:15-32 | the line loop yields what the scanner's state machine yields, which is the records closed at each line, in order |
| ParsePatents.LastStart | parse_patents.py:24-26 | the last line at or before a position that holds the start pattern, and none after it up to that position; none means no line does |
| ParsePatents.ScanAgrees | parse_patents.py:19-32 | after any number of lines the scanner has yielded exactly the records closed so far, is inside a record exactly when one is open, and then buffers the lines from its last start line on |
| ParsePatents.ClosingUpToFacts | parse_patents.py:29-32 | one record per closing line, in increasing line order, every line that closes an open record among them |
| ParsePatents.StepAtStart | parse_patents.py:24-32 | after a line holding the start pattern (a fresh buffer of that line alone, closed at once if it also holds the end pattern) the scanner's records, flag and buffer still agree with the line-indexed description |
| ParsePatents.StepInside | parse_patents.py:27-32 | after any other line inside a record (appended, and the record yielded when the line holds the end pattern) the scanner state still agrees with the description |
| ParsePatents.StepOutside | parse_patents.py:23-30 | after a line without the start pattern outside a record, which changes nothing even when it holds the end pattern, the scanner state still agrees with the description |
| ParsePatents.ClosingRecords | parse_patents.py:29-32 | the `k`-th record yielded is the record closed at the `k`-th closing line, which lies before the cursor |
| ParsePatents.ClosingIncreasing | parse_patents.py:29-32 | the closing lines come in strictly increasing order |
| ParsePatents.ClosingComplete | parse_patents.py:29-32 | every line before the cursor that closes an open record is one of the closing lines |
| ParsePatents.RecordAtFacts | parse_patents.py:24-32 | a record runs from a start line to an end line, with no start line after its first and no end line before its last; a line with both is a record by itself |
| ParsePatents.OneLineRecord | parse_patents.py:24-32 | a line holding both the start and the end pattern yields itself |
| ParsePatents.UnterminatedDropped | parse_patents.py:27-32 | lines after the last end line add no record: an unterminated record is dropped |
| PreprocessPatents.TagEnd | preprocess_patents.py:27 | a tag match at the start of a text runs from `<` through at least one non-`>` character to the first `>`; no match means no `>` after a leading `<` other than directly after it |
| PreprocessPatents.StripTags | preprocess_patents.py:27 | tag substitution introduces only spaces and keeps a first character that opens no tag |
| PreprocessPatents.Collapse | preprocess_patents.py:28 | whitespace collapsing keeps a text non-empty exactly when it was, turns a leading whitespace into one space, and introduces only spaces |
| PreprocessPatents.StripTagsTagFree | preprocess_patents.py:27 | after tag substitution no `<[^>]+>` match remains |
| PreprocessPatents.CollapseTagFree | preprocess_patents.py:28 | collapsing whitespace creates no tag |
| PreprocessPatents.CollapseSingleSpaced | preprocess_patents.py:28 | after collapsing, every whitespace character is one plain space not followed by another |
| PreprocessPatents.LowerKeeps | preprocess_patents.py:29 | lower-casing keeps single spacing and tag freedom and leaves no capital |
| PreprocessPatents.StripKeeps | preprocess_patents.py:29 | `strip()` keeps single spacing, tag freedom and the absence of capitals |
| PreprocessPatents.CleanTextFacts | preprocess_patents.py:23-29 | a missing or empty text cleans to ""; any cleaned text has no edge whitespace, only single spaces inside, no capital and no tag |
| PreprocessPatents.KeptTokens | preprocess_patents.py:31-33 | a token is kept exactly when it occurs in the input, is alphanumeric and is not a stop word; nothing is added |
| PreprocessPatents.ChunksFrom | preprocess_patents.py:35-43 | from any cursor the chunks are empty exactly when the cursor is past the end; the `i`-th starts `i` strides of `size - overlap` on and holds up to `size` tokens; all but the last end before the input does, the last reaches its end |
| PreprocessPatents.ChunkTokensFacts | preprocess_patents.py:35-43 | no tokens give no chunks; otherwise every chunk is a contiguous slice of 1 to `size` tokens at its stride offset, the first a prefix and the last a suffix of the input |
| PreprocessPatents.ChunkTokensEmpty | preprocess_patents.py:35-43 | the chunk list is empty exactly when there are no tokens |
| PreprocessPatents.ChunkTokensSlice | preprocess_patents.py:35-43 | the `i`-th chunk holds 1 to `size` tokens and is the slice of the input starting `i` strides of `size - overlap` in |
| PreprocessPatents.ChunkTokensEnds | preprocess_patents.py:35-43 | the first chunk is a prefix and the last chunk a suffix of the tokens, so no token at either end is lost |
| PreprocessPatents.ChunkAt | preprocess_patents.py:38-43 | chunk `i` is the slice at its offset, cut at `size` or the end, and is not last only when it ends before the input |
| PreprocessPatents.ChunksOverlap | preprocess_patents.py:39-43 | every chunk but the last holds `size` tokens and its last `overlap` tokens begin the next chunk |
| PreprocessPatents.ChunkTokens | preprocess_patents.py:35-43 | the generator's cursor loop yields exactly the chunks described above |
| PreprocessPatents.ChunkRecordsFacts | preprocess_patents.py:45-61 | one record per chunk of the filtered tokens of the four cleaned fields joined by spaces, in order; the `i`-th carries the patent's id, chunk id `<doc_id>_chunk<i>` and its tokens joined by spaces |
| PreprocessPatents.ChunkRecordsBaseIds | preprocess_patents.py:56-59 | every chunk id of a patent whose id holds no "_chunk" maps back to that id |
| BenchmarkEvaluation.Take | benchmark_evaluation.py:29 | `retrieved[:k]` is the first `k` entries for a non-negative `k`, and all but the last `-k` for a negative one |
| BenchmarkEvaluation.RelevantRetrievedBounds | benchmark_evaluation.py:29-41 | the relevant documents found among the first `k` are at most the entries taken and at most the relevant list's length |
| BenchmarkEvaluation.PrecisionAtKFacts | benchmark_evaluation.py:24-31 | for a positive cut-off precision lies in [0, 1], is 0 exactly when no relevant document is among the first `k`, and ignores entries after the `k`-th |
| BenchmarkEvaluation.PrecisionAtNonPositiveK | benchmark_evaluation.py:26-31 | a cut-off of 0 gives 0.0; a negative cut-off divides by `k` as it is and gives at most 0 |
| BenchmarkEvaluation.RecallAtKFacts | benchmark_evaluation.py:34-41 | recall lies in [0, 1], is 0 exactly when there are no relevant documents or none among the first `k`, and ignores entries after the `k`-th |
| BenchmarkEvaluation.TakeOfLonger | benchmark_evaluation.py:29 | entries appended after the first `k` do not change the first `k` |
| BenchmarkEvaluation.Hits | benchmark_evaluation.py:84-88 | the loop's relevant count never exceeds the entries scanned |
| BenchmarkEvaluation.ComputeMapAtK | benchmark_evaluation.py:71-92 | the early returns and the loop with its two counters compute the mean average precision as defined position by position |
| BenchmarkEvaluation.PrecisionSumBounds | benchmark_evaluation.py:86-90 | the precision sum lies between 0 and the number of hits, each term being at most 1 |
| BenchmarkEvaluation.HitsDistinct | benchmark_evaluation.py:77-88 | without repeated entries the hits are exactly the distinct relevant documents retrieved |
| BenchmarkEvaluation.MapAtKFacts | benchmark_evaluation.py:71-92 | MAP is never negative and is 0 without relevant documents or without one among the first `k` |
| BenchmarkEvaluation.MapAtKAtMostOne | benchmark_evaluation.py:71-92 | when the retrieved list repeats no document, MAP is at most 1 |
| BenchmarkEvaluation.MapAtKRepeatedEntry | benchmark_evaluation.py:86-92 | a relevant document retrieved twice is counted twice: `map_at_k(["a"], ["a", "a"], 2)` is 2.0, so the bound needs distinct entries |
| BenchmarkEvaluation.FirstRelevant | benchmark_evaluation.py:100-102 | the first position holding a relevant document, none before it; none means no entry is relevant |
| BenchmarkEvaluation.ComputeMrr | benchmark_evaluation.py:95-104 | the loop that returns at the first relevant document computes one over its rank, 0 without one or without relevant documents |
| BenchmarkEvaluation.MrrFacts | benchmark_evaluation.py:95-104 | the reciprocal rank lies in [0, 1], is 1 exactly when the first entry is relevant and 0 exactly when no entry is |
| BatchSearch.LoadQueries | batch_search.py:16-25 | the reading loop returns the queries of the file's lines in order |
| BatchSearch.QueryOfFacts | batch_search.py:21-23 | a line gives a query exactly when it strips to a non-empty string not starting with `#`, the query is that stripped string, and it gives itself again |
| BatchSearch.FilteredFacts | batch_search.py:20-24 | a value is kept exactly when some line gives it, and there are no more values than lines |
| BatchSearch.FilteredAppend | batch_search.py:20-24 | filtering two pieces gives the values of the first, then those of the second |
| BatchSearch.FilteredIdempotent | batch_search.py:20-24 | when every kept value gives itself, filtering the kept values again changes nothing |
| BatchSearch.QueriesFacts | batch_search.py:16-25 | loading is order-preserving over pieces of a file, every loaded query comes from a line and every non-blank non-comment line gives one, queries are stripped, non-empty and not comments, and a file of loaded queries loads to itself |
| BatchSearch.Dispatch | batch_search.py:42-55 | the mode's search: TF-IDF or hybrid-advanced results, the TypeError of the semantic and hybrid calls, or the ValueError of an unknown mode |
| BatchSearch.ShapeHit | batch_search.py:64-92 | the row of a hit at its rank: a pair takes title and type from its base document and no snippet, a triple from its own metadata with a snippet |
| BatchSearch.ProcessHits | batch_search.py:59-92 | the inner loop builds one row per hit, in order |
| BatchSearch.RunBatchSearch | batch_search.py:28-116 | the outer loop builds one entry per query, in order, as the batch's entries describe |
| BatchSearch.ShapedRowsFacts | batch_search.py:62-92 | one row per hit, ranked from 1, with the hit's id and score and its base id (a prefix without "_chunk"); a pair has no snippet, a triple has one exactly when its chunk text and the snippet of it are not empty |
| BatchSearch.QueryEntry | batch_search.py:40-114 | the entry of one query: its rows and time, or its error with no rows |
| BatchSearch.QueryEntryFacts | batch_search.py:40-114 | an entry keeps query and mode, counts its rows, and has an error exactly when the mode's search raised; then its time is 0, it has no rows and the error is the message, else it has the elapsed time and the shaped rows |
| BatchSearch.BatchEntriesFacts | batch_search.py:35-116 | one entry per query, in order, each as for a single query with that query's elapsed time |
| BatchSearch.OnlyTfidfAndAdvancedSearch | batch_search.py:42-55 | every query of a "semantic" or "hybrid" batch fails with the unexpected keyword TypeError, and every query of another unknown mode with "Unknown mode: " and the mode |
| BatchSearch.CountOk | batch_search.py:154 | the successful entries are at most all entries |
| BatchSearch.RowScores | batch_search.py:166-167 | the scores of rows, one per row, in order |
| BatchSearch.CollectScores | batch_search.py:164-167 | the nested loop gathers every row's score, entry by entry |
| BatchSearch.GenerateSummaryReport | batch_search.py:151-187 | the report method computes the summary of its entries |
| BatchSearch.ScoresCount | batch_search.py:164-167 | there are as many scores as rows |
| BatchSearch.TotalResultsCountsRows | batch_search.py:160 | when every entry's `num_results` counts its rows, the results total is the row count |
| BatchSearch.SummaryOf | batch_search.py:151-187 | the summary report: success and failure counts, averages, and score statistics |
| BatchSearch.SummaryFacts | batch_search.py:151-187 | every entry is counted, successful exactly when it has no error and failed otherwise; averages are 0 for no entries; score statistics are empty exactly when there are no rows, and otherwise count the rows and have min and max among the scores, bounding every score and the average |
| BatchSearch.CountOkAllFailed | batch_search.py:154-155 | when every entry has an error, none is successful and all are failed |
| BatchSearch.SummaryOfBatch | batch_search.py:28-187 | the report of a batch counts its queries and its rows; a semantic, hybrid or unknown-mode batch reports every query failed and no score statistics |
| BatchSearch.NoRowsNoScores | batch_search.py:164-170 | entries without rows give no scores |
| AnalyzeLogs.QueriesOf | analyze_logs.py:29 | the query of each entry, in entry order |
| AnalyzeLogs.ModesOf | analyze_logs.py:30 | the mode of each entry, in entry order |
| AnalyzeLogs.KeysFacts | analyze_logs.py:30-34 | a `Counter`'s keys are distinct, are exactly the elements counted, and are no more than the elements |
| AnalyzeLogs.CountFacts | analyze_logs.py:30-34 | an element is counted at least once exactly when it occurs, and at most as often as there are elements |
| AnalyzeLogs.CountSumSnoc | analyze_logs.py:30 | counting one more element adds one to the counts of distinct keys that include it, nothing otherwise |
| AnalyzeLogs.CountSumAll | analyze_logs.py:30 | distinct keys covering every element have counts summing to the number of elements |
| AnalyzeLogs.CounterSumsToTotal | analyze_logs.py:30 | a `Counter` has exactly the elements as keys, each with its positive number of occurrences, the counts summing to the total |
| AnalyzeLogs.CounterItems | analyze_logs.py:34 | one `(element, count)` pair per distinct element |
| AnalyzeLogs.MostCommon | analyze_logs.py:34 | `Counter(xs).most_common(n)`: the elements with their counts by descending count, equal counts in key order, cut to `n` |
| AnalyzeLogs.MostCommonFacts | analyze_logs.py:34 | `most_common(n)` lists at most `n` distinct elements (all when fewer), each with its count, by descending count, no left-out element more frequent than a listed one; the stable sort keeps each count's elements |
| AnalyzeLogs.GroupByMode | analyze_logs.py:59-61 | the `defaultdict(list)` loop has a list exactly for each mode that occurs, holding that mode's values in entry order |
| AnalyzeLogs.GroupedCount | analyze_logs.py:60-61 | a mode's list has one element per entry of that mode |
| AnalyzeLogs.Lengths | analyze_logs.py:39 | each entry's query length is its word count |
| AnalyzeLogs.CollectScores | analyze_logs.py:47-49 | the loop extends the scores with each entry's `top_scores`, in order |
| AnalyzeLogs.AnalyzeQueryPatterns | analyze_logs.py:25-63 | the method, with its two loops, computes the patterns report |
| AnalyzeLogs.PatternsOf | analyze_logs.py:25-63 | the query-pattern report: counts, most common queries and modes, query lengths and score distribution |
| AnalyzeLogs.PatternCounts | analyze_logs.py:27-36 | the report counts every entry and no more distinct queries, zero exactly for no entries; mode usage counts exactly the modes that occur, summing to the total; each mode's query list is as long as its usage |
| AnalyzeLogs.QueryLengthFacts | analyze_logs.py:38-44 | query lengths are all 0 without entries; otherwise minimum and maximum are some entries' word counts, bound every entry's, and the average lies between them |
| AnalyzeLogs.AllScoresSplit | analyze_logs.py:47-49 | splitting the entries anywhere splits their scores there: the scores of all entries are those of the first part followed by those of the rest |
| AnalyzeLogs.ScoreDistributionFacts | analyze_logs.py:46-57 | the score distribution is filled exactly when some entry has a score, then counts all scores, and its minimum and maximum bound every score with the average between them |
| AnalyzeLogs.ScoresInAll | analyze_logs.py:48-49 | every score of an entry is among all the scores |
| AnalyzeLogs.NoScores | analyze_logs.py:51 | entries without scores give no scores |
| AnalyzeLogs.Times | analyze_logs.py:72 | each entry's search time, 0 when it is missing |
| AnalyzeLogs.GeneratePerformanceReport | analyze_logs.py:66-95 | the method, grouping times by mode in a loop, computes the performance report |
| AnalyzeLogs.PerformanceOf | analyze_logs.py:66-95 | the performance report: the error for no entries, else the count, total and average time and each mode's figures |
| AnalyzeLogs.PerformanceFacts | analyze_logs.py:66-95 | the report is the "No entries to analyze" error exactly for no entries; otherwise it counts the entries, sums their times (missing ones as 0) with the average between the shortest and longest, and has figures exactly for the modes that occur, each counting that mode's entries with min, average and max in order |
| ConfigLoader.Merge | config_loader.py:66-67 | `copy()` then `update()` holds every setting of either side, the update's values winning and the others kept |
| ConfigLoader.MatchingFacts | config_loader.py:109-110 | the matching indicators are exactly those occurring in the text as substrings, each once, no more than listed, none when none occurs |
| ConfigLoader.DetectQueryType | config_loader.py:93-117 | "keyword_heavy", "conceptual" or "mixed" by which kind of indicator occurs more often in the lower-cased query |
| ConfigLoader.DetectQueryTypeFacts | config_loader.py:93-117 | the type is "keyword_heavy" exactly when more keyword than conceptual indicators occur in the lower-cased query, "conceptual" exactly for the converse and "mixed" exactly for a tie; each count is bounded by its list, and case does not matter |
| ConfigLoader.IndicatorInsideWord | config_loader.py:98-117 | indicators match inside words: "Bus" is keyword-heavy because it contains "us" |
| ConfigLoader.SearchConfig.constructor | config_loader.py:16-32 | the configuration is the loaded one, or the built-in defaults when the file is missing or fails to load |
| ConfigLoader.SearchConfig.SectionOf | config_loader.py:62-63 | `config.get(name, {})`: the section when present, else the empty section |
| ConfigLoader.SearchConfig.GetConfig | config_loader.py:50-58 | an unknown section falls back to "default", and the lookup fails exactly when that is missing too; without a key the whole section, else the key's value or `None` |
| ConfigLoader.SearchConfig.Layered | config_loader.py:60-91 | a mode, profile or query-type configuration is the defaults updated by the group's entry, and fails exactly when the entry is not a dictionary |
| ConfigLoader.SearchConfig.GetModeConfig | config_loader.py:60-69 | the defaults updated by the mode's entry |
| ConfigLoader.SearchConfig.GetProfileConfig | config_loader.py:71-80 | the defaults updated by the profile's entry |
| ConfigLoader.SearchConfig.GetQueryTypeConfig | config_loader.py:82-91 | the defaults updated by the query type's entry |
| ConfigLoader.SearchConfig.GetOptimizedConfig | config_loader.py:119-134 | the defaults, updated by a non-empty profile's entry, then by the entry of the query's detected type |
| ConfigLoader.SearchConfig.UpdateConfig | config_loader.py:136-141 | the section is created when missing and only the one key is set; the key then reads back as the value |
| ConfigLoader.LayeredFacts | config_loader.py:60-91 | a layered configuration holds every default and every setting of its entry, the entry's winning; a missing entry gives the defaults alone |
| ConfigLoader.OptimizedLayering | config_loader.py:119-134 | with a profile, a setting of the query type's entry wins; any other default keeps its default value even when the profile sets it; only settings absent from the defaults survive from the profile |
| ConfigLoader.OptimizedWithoutProfile | config_loader.py:119-134 | without a profile the optimized configuration is the configuration of the query's detected type |
| ConfigLoader.UpdateKeepsOthers | config_loader.py:136-141 | after an update the key holds the value, and every other section and every other key of the section is as before |

## Left out

- Concurrency: the `asyncio` tasks, `gather` and the thread pools are modelled by their outcomes, each task's result or exception being an input, folded in the order the code awaits them.
- AsyncOrchestration.GatheredFacts: states only that the error message comes from one of the two failed tasks, because which exception `gather` reports first depends on timing; the model takes the draft's.
- Clocks: every `time.time()` difference is a real parameter, and no property bounds it.
- File, network and database I/O: loading metadata and chunk files, reading query and log files, YAML loading and `save_config`, JSON, JSONL and CSV output, `log_query`, and every call to the model server (`is_available`, `ensure_model_available`, `generate`, streaming).
- The machine learning wrappers: the TF-IDF and sentence-embedding retrievers, the FAISS index and the tokenizer are parameters; the `-1` sentinel handling of `embed_semantic.py` is not part of this model.
- The lock-guarded lazy singletons of optimized_search_service.py:13-46 and the metadata cache: the metadata is a map parameter; only the chunk-text cache is modelled.
- The non-optimized dispatch branch of `run_search` (search_service.py:138-164), which calls the base retrievers with keywords they do not accept.
- `ndcg_at_k` and `_compute_aggregate_metrics`: they rest on `log2`, `np.mean` and `np.std`.
- Floating point: scores, weights and times are exact reals, so rounding is not modelled.
- Unicode: case folding and `\w` are ASCII-only, and `isalnum` is restricted to ASCII letters and digits.
- The nltk word tokenizer and the English stop-word list are parameters of the chunk-record function.
- XML parsing (`parse_record`, `extract_metadata`) and the JSONL readers: only namespace stripping and the record splitter are modelled. The splitter's input is the file's lines, newline characters included.
- Dictionary key order: `Counter` and `defaultdict` results other than `most_common` are maps, so their key order is not modelled. The score dictionaries of embed_hybrid.py are visited in an arbitrary order, and every property holds for any order.
- AnalyzeLogs: `time_distribution` is always `{}` in the source and is not a field of the model; log entries lacking `query`, `mode` or `top_scores` raise KeyError in the source and cannot be expressed in the model.
- ConfigLoader: a YAML file that loads as `None` or as a non-dictionary is not modelled; top-level section values are modelled as dictionaries only, so a scalar such as `version: 2` cannot be expressed; a sub-section value that is not a dictionary is modelled as a TypeError; `get_available_modes`, `get_available_profiles`, `get_available_query_types`, `save_config` and the module-level getters around a global instance are not part of this model.
- AsyncOrchestration.SimilarityMap: dictionaries are unordered maps in this model, so when several section objects fail to read, it raises AttributeError if any lacks an attribute and TypeError otherwise; the source raises the exception of the first failing object in insertion order (async_orchestration.py:311-317).
- PreprocessPatents.ChunkTokens, PreprocessPatents.Chunks: require `overlap < size`. With `overlap == size` and more than `size` tokens the source's cursor returns to 0 and the generator never ends; with `overlap > size` the cursor goes negative and it never ends either (preprocess_patents.py:38-43). Its one caller passes 500 and 50.
- OllamaService: `lru_cache` and the MD5 description hash are not modelled, since the cached lookup never answers; `generate_draft_stream` is not part of this model.
- The HTTP, database and command-line layers, the schema validator, and the test, demo and benchmark-driver scripts are not part of this model.
