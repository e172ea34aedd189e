/**
 * The per-section similarity analyser: parses a generated draft into its
 * eight sections, searches each non-blank section's text, and reports the
 * similar patents per section; plus the flattening of an analysis result
 * into a plain similarity map.
 */
module SectionSimilarityAnalyzer {
  import opened Base
  import opened Text
  import opened SearchService
  import opened SectionParser
  import opened SectionAnalysis

  /** The analyser's section names and headings, in the order it fills them. */
  const AnalyzerPatterns: seq<(string, string)> := [
    ("title", "TITLE OF THE INVENTION"), ("abstract", "ABSTRACT"), ("field", "FIELD OF THE INVENTION"),
    ("background", "BACKGROUND OF THE INVENTION"), ("summary", "SUMMARY OF THE INVENTION"),
    ("drawings", "BRIEF DESCRIPTION OF THE DRAWINGS"), ("description", "DETAILED DESCRIPTION OF THE INVENTION"),
    ("claims", "CLAIMS")]

  const AnalyzerSections: seq<string> := ["title", "abstract", "field", "background", "summary", "drawings", "description", "claims"]

  /** The analyser's table has distinct names, and its names are the eight sections. */
  lemma AnalyzerTable()
    ensures DistinctNames(AnalyzerPatterns) && Names(AnalyzerPatterns) == AnalyzerSections
    ensures forall i :: 0 <= i < |AnalyzerPatterns| ==> AnalyzerPatterns[i].1 != []
  {
  }

  /**
   * `parse_draft_sections`: exactly the eight section names as keys, in
   * order, each holding its heading's section ("" when the heading does not
   * match).
   */
  method ParseDraftSections(draftText: string) returns (sections: Dict<string>)
    ensures WellFormed(sections) && sections.keys == AnalyzerSections
    ensures forall i :: 0 <= i < |AnalyzerPatterns| ==>
      AnalyzerPatterns[i].0 in sections.vals && sections.vals[AnalyzerPatterns[i].0] == Section(draftText, AnalyzerPatterns[i].1)
  {
    sections := ParseSections(draftText, AnalyzerPatterns);
    AnalyzerTable();
    ParsedKeys(draftText, AnalyzerPatterns);
    ParsedValues(draftText, AnalyzerPatterns);
  }

  /** An empty draft has all eight sections, each "". */
  lemma EmptyDraftSections()
    ensures var d := Parsed("", AnalyzerPatterns);
      d.keys == AnalyzerSections && forall k :: k in d.vals ==> d.vals[k] == ""
  {
    AnalyzerTable();
    ParsedKeys("", AnalyzerPatterns);
    ParsedEmptyDraft(AnalyzerPatterns);
  }

  /**
   * `analyze_similarity`: nothing for a blank text; otherwise the similar
   * patents for the search on the stripped text, or nothing when the search
   * raised.
   */
  function AnalyzedSimilarity(sectionText: string, mode: string, topK: int, includeSnippets: bool, search: Searcher): seq<SimilarPatent>
  {
    if Strip(sectionText) == [] then []
    else
      match search(RequestFor(Strip(sectionText), mode, topK, includeSnippets))
      case Err(_) => []
      case Ok(results) => SimilarAll(results, includeSnippets)
  }

  /**
   * A blank text is not searched; a raising search gives no patents;
   * otherwise one similar patent per result of the search on the stripped
   * text, in order, with its snippet only when snippets are on.
   */
  lemma AnalyzedSimilarityFacts(sectionText: string, mode: string, topK: int, includeSnippets: bool, search: Searcher)
    ensures var r := AnalyzedSimilarity(sectionText, mode, topK, includeSnippets, search);
      var outcome := search(RequestFor(Strip(sectionText), mode, topK, includeSnippets));
      && (IsBlank(sectionText) ==> r == [])
      && (!IsBlank(sectionText) && outcome.Err? ==> r == [])
      && (!IsBlank(sectionText) && outcome.Ok? ==>
            && |r| == |outcome.value|
            && forall i :: 0 <= i < |r| ==>
                 r[i].patentId == outcome.value[i].docId && r[i].similarityScore == outcome.value[i].score
                 && r[i].snippet == (if includeSnippets then outcome.value[i].snippet else ""))
  {
    var outcome := search(RequestFor(Strip(sectionText), mode, topK, includeSnippets));
    if outcome.Ok? {
      SimilarAllOnePerResult(outcome.value, includeSnippets);
    }
  }

  /** The analysis of one section text, with its conversion loop. */
  method AnalyzeSimilarity(sectionText: string, mode: string, topK: int, includeSnippets: bool, search: Searcher)
    returns (patents: seq<SimilarPatent>)
    ensures patents == AnalyzedSimilarity(sectionText, mode, topK, includeSnippets, search)
  {
    var query := Strip(sectionText);
    if query == [] {
      return [];
    }
    var outcome := search(RequestFor(query, mode, topK, includeSnippets));
    if outcome.Err? {
      return [];
    }
    patents := ConvertResults(outcome.value, includeSnippets);
  }

  datatype SectionSimilarityResult = SectionSimilarityResult(sectionName: string, sectionText: string,
    similarPatents: seq<SimilarPatent>, analysisTime: real, patentCount: nat, topSimilarityScore: real)

  /** `_analyze_section_with_timing`, given the time the analysis took. */
  function WithTiming(name: string, text: string, mode: string, topK: int, includeSnippets: bool, search: Searcher, elapsed: real)
    : SectionSimilarityResult
  {
    var patents := AnalyzedSimilarity(text, mode, topK, includeSnippets, search);
    SectionSimilarityResult(name, text, patents, elapsed, |patents|,
                            if patents != [] then patents[0].similarityScore else 0.0)
  }

  /**
   * A timed analysis counts its patents, and its top score is the score of
   * the search's first result, or 0.0 when there are no patents.
   */
  lemma WithTimingFacts(name: string, text: string, mode: string, topK: int, includeSnippets: bool, search: Searcher, elapsed: real)
    ensures var r := WithTiming(name, text, mode, topK, includeSnippets, search, elapsed);
      var outcome := search(RequestFor(Strip(text), mode, topK, includeSnippets));
      && r.sectionName == name && r.sectionText == text && r.analysisTime == elapsed
      && r.patentCount == |r.similarPatents|
      && (r.similarPatents == [] ==> r.topSimilarityScore == 0.0)
      && (!IsBlank(text) && outcome.Ok? && outcome.value != [] ==> r.topSimilarityScore == outcome.value[0].score)
  {
    AnalyzedSimilarityFacts(text, mode, topK, includeSnippets, search);
  }

  /** The entry a raising section task leaves. */
  function FailedSection(name: string): SectionSimilarityResult
  {
    SectionSimilarityResult(name, "", [], 0.0, 0, 0.0)
  }

  /**
   * The section tasks: `raised` holds the sections whose task raised, and
   * `elapsed` the time each analysis took.
   */
  function SectionTask(mode: string, topK: int, includeSnippets: bool, search: Searcher, raised: set<string>, elapsed: string -> real)
    : (string, string) -> Result<SectionSimilarityResult>
  {
    (name, text) =>
      if name in raised then Err(Failure("section analysis raised"))
      else Ok(WithTiming(name, text, mode, topK, includeSnippets, search, elapsed(name)))
  }

  /** `analyze_all_sections`. */
  function AnalyzedAllSections(draftText: string, mode: string, topK: int, includeSnippets: bool, search: Searcher,
                               raised: set<string>, elapsed: string -> real): Dict<SectionSimilarityResult>
  {
    var sections := Parsed(draftText, AnalyzerPatterns);
    AnalyzerTable();
    ParsedKeys(draftText, AnalyzerPatterns);
    Fanned(sections.keys, sections.vals, SectionTask(mode, topK, includeSnippets, search, raised, elapsed), FailedSection)
  }

  method AnalyzeAllSections(draftText: string, mode: string, topK: int, includeSnippets: bool, search: Searcher,
                            raised: set<string>, elapsed: string -> real) returns (results: Dict<SectionSimilarityResult>)
    ensures results == AnalyzedAllSections(draftText, mode, topK, includeSnippets, search, raised, elapsed)
  {
    var sections := ParseSections(draftText, AnalyzerPatterns);
    AnalyzerTable();
    ParsedKeys(draftText, AnalyzerPatterns);
    results := FanOut(sections, SectionTask(mode, topK, includeSnippets, search, raised, elapsed), FailedSection);
  }

  /**
   * The analysis has an entry exactly for each section whose text is not
   * blank, in section order.
   */
  lemma AnalyzedAllSectionsKeys(draftText: string, mode: string, topK: int, includeSnippets: bool, search: Searcher,
                                raised: set<string>, elapsed: string -> real)
    ensures WellFormed(Parsed(draftText, AnalyzerPatterns)) && Parsed(draftText, AnalyzerPatterns).keys == AnalyzerSections
    ensures var sections := Parsed(draftText, AnalyzerPatterns);
      var r := AnalyzedAllSections(draftText, mode, topK, includeSnippets, search, raised, elapsed);
      && WellFormed(r)
      && r.keys == NonBlank(AnalyzerSections, sections.vals)
  {
    var sections := Parsed(draftText, AnalyzerPatterns);
    AnalyzerTable();
    ParsedKeys(draftText, AnalyzerPatterns);
    FannedKeys(sections.keys, sections.vals, SectionTask(mode, topK, includeSnippets, search, raised, elapsed), FailedSection);
  }

  /**
   * A section whose task raised has the empty entry; every other entry is
   * that section's timed analysis; and every entry's count is the number of
   * its patents.
   */
  lemma AnalyzedAllSectionsEntries(draftText: string, mode: string, topK: int, includeSnippets: bool, search: Searcher,
                                   raised: set<string>, elapsed: string -> real)
    ensures var sections := Parsed(draftText, AnalyzerPatterns);
      var r := AnalyzedAllSections(draftText, mode, topK, includeSnippets, search, raised, elapsed);
      && (forall k :: k in r.vals ==> k in sections.vals && !IsBlank(sections.vals[k]))
      && (forall k :: k in r.vals && k in raised ==> r.vals[k] == FailedSection(k))
      && (forall k :: k in r.vals && k !in raised ==>
            r.vals[k] == WithTiming(k, sections.vals[k], mode, topK, includeSnippets, search, elapsed(k)))
      && (forall k :: k in r.vals ==> r.vals[k].patentCount == |r.vals[k].similarPatents|)
  {
    var sections := Parsed(draftText, AnalyzerPatterns);
    AnalyzerTable();
    ParsedKeys(draftText, AnalyzerPatterns);
    var task := SectionTask(mode, topK, includeSnippets, search, raised, elapsed);
    FannedValues(sections.keys, sections.vals, task, FailedSection);
    var r := AnalyzedAllSections(draftText, mode, topK, includeSnippets, search, raised, elapsed);
    forall k | k in r.vals
      ensures r.vals[k] == if k in raised then FailedSection(k) else WithTiming(k, sections.vals[k], mode, topK, includeSnippets, search, elapsed(k))
      ensures r.vals[k].patentCount == |r.vals[k].similarPatents|
    {
      var t := sections.vals[k];
      assert r.vals[k] == Outcome(task(k, t), FailedSection(k));
      if k !in raised {
        assert task(k, t) == Ok(WithTiming(k, t, mode, topK, includeSnippets, search, elapsed(k)));
      }
    }
  }

  /** A section result as the object `get_section_similarity_map` reads attributes from. */
  function ResultObject(r: SectionSimilarityResult): Value
  {
    PyObject(map["section_name" := PyStr(r.sectionName), "section_text" := PyStr(r.sectionText),
                 "similar_patents" := PatentsValue(r.similarPatents), "analysis_time" := PyNum(r.analysisTime),
                 "patent_count" := PyNum(r.patentCount as real), "top_similarity_score" := PyNum(r.topSimilarityScore)])
  }

  /** A field of a section entry: a dictionary's key, else an object's attribute, else the default. */
  function Read(data: Value, name: string, default: Value): Value
  {
    if data.PyDict? then Get(data.fields, name, default) else GetAttr(data, name, default)
  }

  /**
   * One section's map entry, or the TypeError of the `len` default, which is
   * evaluated even when the entry has its own `patent_count`.
   */
  function MapEntry(name: string, data: Value): Result<Value>
  {
    var patents := Read(data, "similar_patents", PyList([]));
    match Len(patents)
    case Err(e) => Err(e)
    case Ok(n) =>
      Ok(PyDict(map["section_name" := Read(data, "section_name", PyStr(name)),
                    "similar_patents" := patents,
                    "analysis_time" := Read(data, "analysis_time", PyNum(0.0)),
                    "patent_count" := Read(data, "patent_count", PyNum(n as real)),
                    "top_similarity_score" := Read(data, "top_similarity_score", PyNum(0.0))]))
  }

  /** Where the per-section data sits: "section_similarities", else "sections"; `None` when there is none. */
  function Source(draft: Value): Option<Value>
  {
    if !draft.PyDict? then None
    else if "section_similarities" in draft.fields then Some(draft.fields["section_similarities"])
    else if "sections" in draft.fields then Some(draft.fields["sections"])
    else None
  }

  const NoItems: Error := AttributeError("object has no attribute 'items'")
  const NoLen: Error := TypeError("object has no len()")

  /** `get_section_similarity_map`: the map, or the exception it raises. */
  function SimilarityMap(draft: Value): Result<map<string, Value>>
  {
    match Source(draft)
    case None => Ok(map[])
    case Some(src) =>
      if !src.PyDict? then Err(NoItems)
      else if exists k :: k in src.fields && MapEntry(k, src.fields[k]).Err? then Err(NoLen)
      else Ok(map k | k in src.fields :: MapEntry(k, src.fields[k]).value)
  }

  /** The loop over the section data, entry by entry. */
  method SectionSimilarityMap(draft: Value) returns (r: Result<map<string, Value>>)
    ensures r == SimilarityMap(draft)
  {
    var source := Source(draft);
    if source.None? {
      return Ok(map[]);
    }
    var src := source.value;
    if !src.PyDict? {
      return Err(NoItems);
    }
    var similarityMap: map<string, Value> := map[];
    var remaining := src.fields.Keys;
    while remaining != {}
      invariant remaining <= src.fields.Keys
      invariant forall k :: k in src.fields && k !in remaining ==> MapEntry(k, src.fields[k]).Ok?
      invariant similarityMap == map k | k in src.fields && k !in remaining :: MapEntry(k, src.fields[k]).value
      decreases |remaining|
    {
      var name :| name in remaining;
      var entry := MapEntry(name, src.fields[name]);
      if entry.Err? {
        return Err(entry.error);
      }
      similarityMap := similarityMap[name := entry.value];
      remaining := remaining - {name};
    }
    assert similarityMap == map k | k in src.fields :: MapEntry(k, src.fields[k]).value;
    return Ok(similarityMap);
  }

  /**
   * Anything but a dictionary, or a dictionary with neither
   * "section_similarities" nor "sections", gives the empty map; otherwise
   * the map has the source's keys, and an entry without its own fields gets
   * its key as name, an empty patent list and count 0, and time and top
   * score 0.0.
   */
  lemma SimilarityMapFacts(draft: Value)
    ensures !draft.PyDict? ==> SimilarityMap(draft) == Ok(map[])
    ensures draft.PyDict? && "section_similarities" !in draft.fields && "sections" !in draft.fields ==> SimilarityMap(draft) == Ok(map[])
    ensures SimilarityMap(draft).Ok? && Source(draft).Some? ==> SimilarityMap(draft).value.Keys == Source(draft).value.fields.Keys
    ensures SimilarityMap(draft).Ok? && Source(draft).Some? ==>
      forall k :: k in SimilarityMap(draft).value && Source(draft).value.fields[k] == PyDict(map[]) ==>
        SimilarityMap(draft).value[k] == PyDict(map["section_name" := PyStr(k), "similar_patents" := PyList([]),
          "analysis_time" := PyNum(0.0), "patent_count" := PyNum(0.0), "top_similarity_score" := PyNum(0.0)])
  {
  }

  /** The map entry of one analysed section, read from its result object. */
  lemma ResultEntry(name: string, e: SectionSimilarityResult)
    requires e.patentCount == |e.similarPatents|
    ensures MapEntry(name, ResultObject(e)) == Ok(PyDict(map["section_name" := PyStr(e.sectionName),
      "similar_patents" := PatentsValue(e.similarPatents), "analysis_time" := PyNum(e.analysisTime),
      "patent_count" := PyNum(|e.similarPatents| as real), "top_similarity_score" := PyNum(e.topSimilarityScore)]))
  {
  }

  /**
   * Flattening an analysis: the map has a key per analysed section, and each
   * entry carries the section's name, its patents as dictionaries, its time,
   * its patent count (the number of its patents) and its top score.
   */
  lemma AnalysisMapRoundTrip(results: Dict<SectionSimilarityResult>)
    requires forall k :: k in results.vals ==> results.vals[k].patentCount == |results.vals[k].similarPatents|
    ensures var draft := PyDict(map["section_similarities" := PyDict(map k | k in results.vals :: ResultObject(results.vals[k]))]);
      && SimilarityMap(draft).Ok?
      && SimilarityMap(draft).value.Keys == results.vals.Keys
      && forall k :: k in results.vals ==>
           SimilarityMap(draft).value[k] == MapEntry(k, ResultObject(results.vals[k])).value
  {
    var src := map k | k in results.vals :: ResultObject(results.vals[k]);
    var draft := PyDict(map["section_similarities" := PyDict(src)]);
    assert Source(draft) == Some(PyDict(src));
    forall k | k in src ensures MapEntry(k, src[k]).Ok? {
      ResultEntry(k, results.vals[k]);
    }
  }
}
