/**
 * The orchestration of one draft request: the draft is generated while a
 * background search runs on the invention description; then the draft's
 * seven sections are parsed and each non-blank one is searched. Concurrency
 * is modelled by its outcomes: each task's result or exception is an input,
 * and the waits are folded in the order the code awaits them.
 */
module AsyncOrchestration {
  import opened Base
  import opened Text
  import opened SearchService
  import opened SectionParser
  import opened SectionAnalysis
  import OllamaService

  /** The orchestrator's section names and headings (no abstract), in the order it fills them. */
  const OrchestratorPatterns: seq<(string, string)> := [
    ("title", "TITLE OF THE INVENTION"), ("field", "FIELD OF THE INVENTION"),
    ("background", "BACKGROUND OF THE INVENTION"), ("summary", "SUMMARY OF THE INVENTION"),
    ("drawings", "BRIEF DESCRIPTION OF THE DRAWINGS"), ("description", "DETAILED DESCRIPTION OF THE INVENTION"),
    ("claims", "CLAIMS")]

  const OrchestratorSections: seq<string> := ["title", "field", "background", "summary", "drawings", "description", "claims"]

  /** The orchestrator's table has distinct names, seven sections without "abstract", and no empty heading. */
  lemma OrchestratorTable()
    ensures DistinctNames(OrchestratorPatterns) && Names(OrchestratorPatterns) == OrchestratorSections
    ensures "abstract" !in OrchestratorSections
    ensures forall i :: 0 <= i < |OrchestratorPatterns| ==> OrchestratorPatterns[i].1 != []
  {
  }

  /**
   * `_parse_draft_sections`: exactly the seven section names as keys, in
   * order, each holding its heading's section ("" when the heading does not
   * match).
   */
  method ParseDraftSections(draft: string) returns (sections: Dict<string>)
    ensures WellFormed(sections) && sections.keys == OrchestratorSections
    ensures forall i :: 0 <= i < |OrchestratorPatterns| ==>
      OrchestratorPatterns[i].0 in sections.vals && sections.vals[OrchestratorPatterns[i].0] == Section(draft, OrchestratorPatterns[i].1)
  {
    sections := ParseSections(draft, OrchestratorPatterns);
    OrchestratorTable();
    ParsedKeys(draft, OrchestratorPatterns);
    ParsedValues(draft, OrchestratorPatterns);
  }

  /** An empty draft has all seven sections, each "". */
  lemma EmptyDraftSections()
    ensures var d := Parsed("", OrchestratorPatterns);
      d.keys == OrchestratorSections && forall k :: k in d.vals ==> d.vals[k] == ""
  {
    OrchestratorTable();
    ParsedKeys("", OrchestratorPatterns);
    ParsedEmptyDraft(OrchestratorPatterns);
  }

  datatype SectionSimilarity = SectionSimilarity(sectionName: string, sectionText: string,
                                                 similarPatents: seq<SimilarPatent>, analysisTime: real)

  /**
   * `_analyze_single_section`, given the time it took: the section text is
   * searched as it is, and a raising search keeps the text with no patents.
   */
  function AnalyzedSingleSection(name: string, text: string, mode: string, topK: int, includeSnippets: bool,
                                 search: Searcher, elapsed: real): SectionSimilarity
  {
    match search(RequestFor(text, mode, topK, includeSnippets))
    case Err(_) => SectionSimilarity(name, text, [], elapsed)
    case Ok(results) => SectionSimilarity(name, text, SimilarAll(results, includeSnippets), elapsed)
  }

  method AnalyzeSingleSection(name: string, text: string, mode: string, topK: int, includeSnippets: bool,
                              search: Searcher, elapsed: real) returns (similarity: SectionSimilarity)
    ensures similarity == AnalyzedSingleSection(name, text, mode, topK, includeSnippets, search, elapsed)
  {
    var outcome := search(RequestFor(text, mode, topK, includeSnippets));
    if outcome.Err? {
      return SectionSimilarity(name, text, [], elapsed);
    }
    var patents := ConvertResults(outcome.value, includeSnippets);
    similarity := SectionSimilarity(name, text, patents, elapsed);
  }

  /**
   * A section analysis keeps its name and text; a raising search leaves it
   * without patents, otherwise it has one similar patent per result, in
   * order, with its snippet only when snippets are on.
   */
  lemma AnalyzedSingleSectionFacts(name: string, text: string, mode: string, topK: int, includeSnippets: bool,
                                   search: Searcher, elapsed: real)
    ensures var r := AnalyzedSingleSection(name, text, mode, topK, includeSnippets, search, elapsed);
      var outcome := search(RequestFor(text, mode, topK, includeSnippets));
      && r.sectionName == name && r.sectionText == text && r.analysisTime == elapsed
      && (outcome.Err? ==> r.similarPatents == [])
      && (outcome.Ok? ==>
            && |r.similarPatents| == |outcome.value|
            && forall i :: 0 <= i < |outcome.value| ==>
                 r.similarPatents[i].patentId == outcome.value[i].docId
                 && r.similarPatents[i].similarityScore == outcome.value[i].score
                 && r.similarPatents[i].snippet == (if includeSnippets then outcome.value[i].snippet else ""))
  {
    var outcome := search(RequestFor(text, mode, topK, includeSnippets));
    if outcome.Ok? {
      SimilarAllOnePerResult(outcome.value, includeSnippets);
    }
  }

  /** The entry a raising section task leaves. */
  function FailedSection(name: string): SectionSimilarity
  {
    SectionSimilarity(name, "", [], 0.0)
  }

  /** The section tasks: `raised` holds the sections whose task raised, `elapsed` the time each took. */
  function SectionTask(mode: string, topK: int, includeSnippets: bool, search: Searcher, raised: set<string>, elapsed: string -> real)
    : (string, string) -> Result<SectionSimilarity>
  {
    (name, text) =>
      if name in raised then Err(Failure("section analysis raised"))
      else Ok(AnalyzedSingleSection(name, text, mode, topK, includeSnippets, search, elapsed(name)))
  }

  /** `_analyze_section_similarities`; the background search's results play no part in it. */
  function AnalyzedSectionSimilarities(draft: string, mode: string, topK: int, includeSnippets: bool, search: Searcher,
                                       raised: set<string>, elapsed: string -> real): Dict<SectionSimilarity>
  {
    var sections := Parsed(draft, OrchestratorPatterns);
    OrchestratorTable();
    ParsedKeys(draft, OrchestratorPatterns);
    Fanned(sections.keys, sections.vals, SectionTask(mode, topK, includeSnippets, search, raised, elapsed), FailedSection)
  }

  method AnalyzeSectionSimilarities(draft: string, mode: string, topK: int, includeSnippets: bool, search: Searcher,
                                    raised: set<string>, elapsed: string -> real) returns (similarities: Dict<SectionSimilarity>)
    ensures similarities == AnalyzedSectionSimilarities(draft, mode, topK, includeSnippets, search, raised, elapsed)
  {
    var sections := ParseSections(draft, OrchestratorPatterns);
    OrchestratorTable();
    ParsedKeys(draft, OrchestratorPatterns);
    similarities := FanOut(sections, SectionTask(mode, topK, includeSnippets, search, raised, elapsed), FailedSection);
  }

  /**
   * One entry per section whose text is not blank, in section order, and
   * none for a blank section.
   */
  lemma SectionSimilaritiesKeys(draft: string, mode: string, topK: int, includeSnippets: bool, search: Searcher,
                                raised: set<string>, elapsed: string -> real)
    ensures WellFormed(Parsed(draft, OrchestratorPatterns)) && Parsed(draft, OrchestratorPatterns).keys == OrchestratorSections
    ensures var sections := Parsed(draft, OrchestratorPatterns);
      var r := AnalyzedSectionSimilarities(draft, mode, topK, includeSnippets, search, raised, elapsed);
      && WellFormed(r)
      && r.keys == NonBlank(OrchestratorSections, sections.vals)
  {
    var sections := Parsed(draft, OrchestratorPatterns);
    OrchestratorTable();
    ParsedKeys(draft, OrchestratorPatterns);
    FannedKeys(sections.keys, sections.vals, SectionTask(mode, topK, includeSnippets, search, raised, elapsed), FailedSection);
  }

  /**
   * Failures are isolated: a section whose task raised gets the entry with
   * empty text, no patents and time 0.0, and every other section gets its
   * own analysis, whatever happened to the others.
   */
  lemma SectionSimilaritiesEntries(draft: string, mode: string, topK: int, includeSnippets: bool, search: Searcher,
                                   raised: set<string>, elapsed: string -> real)
    ensures var sections := Parsed(draft, OrchestratorPatterns);
      var r := AnalyzedSectionSimilarities(draft, mode, topK, includeSnippets, search, raised, elapsed);
      forall k :: k in r.vals ==>
        && k in sections.vals && !IsBlank(sections.vals[k])
        && r.vals[k] == if k in raised then FailedSection(k)
                        else AnalyzedSingleSection(k, sections.vals[k], mode, topK, includeSnippets, search, elapsed(k))
  {
    var sections := Parsed(draft, OrchestratorPatterns);
    OrchestratorTable();
    ParsedKeys(draft, OrchestratorPatterns);
    var task := SectionTask(mode, topK, includeSnippets, search, raised, elapsed);
    FannedValues(sections.keys, sections.vals, task, FailedSection);
    var r := AnalyzedSectionSimilarities(draft, mode, topK, includeSnippets, search, raised, elapsed);
    forall k | k in r.vals
      ensures r.vals[k] == if k in raised then FailedSection(k)
                           else AnalyzedSingleSection(k, sections.vals[k], mode, topK, includeSnippets, search, elapsed(k))
    {
      var t := sections.vals[k];
      assert r.vals[k] == Outcome(task(k, t), FailedSection(k));
    }
  }

  /** The combined result of one orchestrated request. */
  datatype DraftWithSimilarity = DraftWithSimilarity(draft: string, model: string, templateType: string,
    generationTime: real, cached: bool, sectionSimilarities: Dict<SectionSimilarity>, totalAnalysisTime: real,
    success: bool, message: string)

  const SuccessMessage: string := "Draft generated and similarity analysis completed successfully"

  /** The result for a request that raised: nothing but the time and the exception's message. */
  function FailedDraft(e: Error, totalTime: real): DraftWithSimilarity
  {
    DraftWithSimilarity("", "", "", 0.0, false, Dict([], map[]), totalTime, false, "Error: " + Message(e))
  }

  /**
   * `generate_with_background_search`: the generation and the background
   * search on the description both run; the first of them that raised (the
   * generation's exception taken first) fails the whole request; otherwise
   * the draft's sections are analysed. `raised` and `sectionTime` describe
   * the section tasks, `totalTime` the time measured at the end.
   */
  function GenerateWithBackgroundSearch(prompt: string, mode: string, modelName: Option<string>, templateType: string,
                                        topK: int, includeSnippets: bool, useCache: bool,
                                        server: OllamaService.Server, search: Searcher,
                                        raised: set<string>, sectionTime: string -> real, totalTime: real): DraftWithSimilarity
  {
    Gathered(OllamaService.GeneratePatentDraft(server, prompt, modelName, templateType, useCache),
             search(RequestFor(prompt, mode, topK, includeSnippets)),
             mode, topK, includeSnippets, search, raised, sectionTime, totalTime)
  }

  /**
   * What the request makes of the two tasks' outcomes once `gather` has
   * both: the generation's exception first, then the search's, otherwise
   * the analysed draft.
   */
  function Gathered(generated: Result<OllamaService.GenerationResult>, background: Result<seq<SearchResult>>,
                    mode: string, topK: int, includeSnippets: bool, search: Searcher,
                    raised: set<string>, sectionTime: string -> real, totalTime: real): DraftWithSimilarity
  {
    if generated.Err? then FailedDraft(generated.error, totalTime)
    else if background.Err? then FailedDraft(background.error, totalTime)
    else
      var g := generated.value;
      DraftWithSimilarity(g.draft, g.model, g.templateType, g.generationTime, g.cached,
        AnalyzedSectionSimilarities(g.draft, mode, topK, includeSnippets, search, raised, sectionTime),
        totalTime, true, SuccessMessage)
  }

  /**
   * All or nothing: the request succeeds exactly when the generation and the
   * background search both return; a failure carries "Error: " and the
   * exception's message, empty fields and no sections; a success copies the
   * generated draft's fields, carries the fixed success message and the
   * analysis of the generated draft's sections.
   */
  lemma GatheredFacts(generated: Result<OllamaService.GenerationResult>, background: Result<seq<SearchResult>>,
                      mode: string, topK: int, includeSnippets: bool, search: Searcher,
                      raised: set<string>, sectionTime: string -> real, totalTime: real)
    ensures var r := Gathered(generated, background, mode, topK, includeSnippets, search, raised, sectionTime, totalTime);
      && (r.success <==> generated.Ok? && background.Ok?)
      && (!r.success ==>
            && r.draft == r.model == r.templateType == "" && r.generationTime == 0.0 && !r.cached
            && r.sectionSimilarities.keys == [] && r.totalAnalysisTime == totalTime
            && exists e :: r.message == "Error: " + Message(e) && (generated == Err(e) || background == Err(e)))
      && (r.success ==>
            && r.draft == generated.value.draft && r.model == generated.value.model
            && r.templateType == generated.value.templateType && r.generationTime == generated.value.generationTime
            && r.cached == generated.value.cached && r.message == SuccessMessage
            && r.sectionSimilarities == AnalyzedSectionSimilarities(generated.value.draft, mode, topK, includeSnippets, search, raised, sectionTime))
  {
    if generated.Err? {
      assert generated == Err(generated.error);
    } else if background.Err? {
      assert background == Err(background.error);
    }
  }

  /** The request is marked cached only when the generation succeeded and said so. */
  lemma GatheredCached(generated: Result<OllamaService.GenerationResult>, background: Result<seq<SearchResult>>,
                       mode: string, topK: int, includeSnippets: bool, search: Searcher,
                       raised: set<string>, sectionTime: string -> real, totalTime: real)
    ensures Gathered(generated, background, mode, topK, includeSnippets, search, raised, sectionTime, totalTime).cached
            ==> generated.Ok? && generated.value.cached
  {
  }

  /**
   * A successful orchestrated draft is never marked cached: the generator's
   * cache lookup never hits, so its result says `cached` false.
   */
  lemma OrchestratedDraftNotCached(prompt: string, mode: string, modelName: Option<string>, templateType: string,
                                   topK: int, includeSnippets: bool, useCache: bool,
                                   server: OllamaService.Server, search: Searcher,
                                   raised: set<string>, sectionTime: string -> real, totalTime: real)
    ensures !GenerateWithBackgroundSearch(prompt, mode, modelName, templateType, topK, includeSnippets, useCache,
                                          server, search, raised, sectionTime, totalTime).cached
  {
    var generated := OllamaService.GeneratePatentDraft(server, prompt, modelName, templateType, useCache);
    OllamaService.GeneratePatentDraftNeverCached(server, prompt, modelName, templateType, useCache);
    GatheredCached(generated, search(RequestFor(prompt, mode, topK, includeSnippets)),
                   mode, topK, includeSnippets, search, raised, sectionTime, totalTime);
  }

  /** One section's similarity data as `get_section_similarity_map` and `to_json_schema` report it. */
  function MapEntry(s: SectionSimilarity): Value
  {
    PyDict(map["section_name" := PyStr(s.sectionName), "similar_patents" := PatentsValue(s.similarPatents),
               "analysis_time" := PyNum(s.analysisTime), "patent_count" := PyNum(|s.similarPatents| as real)])
  }

  /** What `get_section_similarity_map` is given: the combined result itself, or any other value. */
  datatype MapInput = FromResult(result: DraftWithSimilarity) | FromValue(v: Value)

  const NoAttribute: Error := AttributeError("object has no attribute")

  /** An object's attribute, or the AttributeError for a missing one. */
  function Attr(v: Value, name: string): Result<Value>
  {
    if v.PyObject? && name in v.attrs then Ok(v.attrs[name]) else Err(NoAttribute)
  }

  /** The map entry read from an object's attributes, or the exception reading them raises. */
  function ObjectEntry(v: Value): Result<Value>
  {
    match (Attr(v, "section_name"), Attr(v, "similar_patents"), Attr(v, "analysis_time"))
    case (Ok(name), Ok(patents), Ok(time)) =>
      (match Len(patents)
       case Ok(n) => Ok(PyDict(map["section_name" := name, "similar_patents" := patents,
                                   "analysis_time" := time, "patent_count" := PyNum(n as real)]))
       case Err(e) => Err(e))
    case _ => Err(NoAttribute)
  }

  /**
   * `get_section_similarity_map`: a combined result gives one entry per
   * section; a dictionary holding "section_similarities" gives one entry
   * per object in it, or raises when an entry lacks an attribute (or its
   * patents have no length); anything else gives the empty map.
   */
  function SimilarityMap(input: MapInput): Result<map<string, Value>>
  {
    match input
    case FromResult(r) => Ok(map k | k in r.sectionSimilarities.vals :: MapEntry(r.sectionSimilarities.vals[k]))
    case FromValue(v) =>
      if !(v.PyDict? && "section_similarities" in v.fields) then Ok(map[])
      else
        var src := v.fields["section_similarities"];
        if !src.PyDict? then Err(AttributeError("object has no attribute 'items'"))
        else ObjectsMap(src.fields)
  }

  /** The entries read from a dictionary of objects, or the exception one of them raises. */
  function ObjectsMap(src: map<string, Value>): Result<map<string, Value>>
  {
    if exists k :: k in src && ObjectEntry(src[k]) == Err(NoAttribute) then Err(NoAttribute)
    else if exists k :: k in src && ObjectEntry(src[k]).Err? then Err(TypeError("object has no len()"))
    else Ok(map k | k in src :: ObjectEntry(src[k]).value)
  }

  /** When every object reads, the entries are exactly what each one reads as. */
  lemma ObjectsMapAllRead(src: map<string, Value>)
    requires forall k :: k in src ==> ObjectEntry(src[k]).Ok?
    ensures ObjectsMap(src) == Ok(map k | k in src :: ObjectEntry(src[k]).value)
  {
  }

  /** A section similarity as an object with its three attributes. */
  function SimilarityObject(s: SectionSimilarity): Value
  {
    PyObject(map["section_name" := PyStr(s.sectionName), "section_text" := PyStr(s.sectionText),
                 "similar_patents" := PatentsValue(s.similarPatents), "analysis_time" := PyNum(s.analysisTime)])
  }

  lemma ObjectEntryOfSimilarity(s: SectionSimilarity)
    ensures ObjectEntry(SimilarityObject(s)) == Ok(MapEntry(s))
  {
  }

  /**
   * A combined result gives a map with exactly the result's section names,
   * each entry counting the section's patents; anything other than a
   * combined result or a dictionary with "section_similarities" gives the
   * empty map.
   */
  lemma SimilarityMapFacts(r: DraftWithSimilarity, v: Value)
    ensures var m := SimilarityMap(FromResult(r));
      && m.Ok? && m.value.Keys == r.sectionSimilarities.vals.Keys
      && forall k :: k in m.value ==>
           var s := r.sectionSimilarities.vals[k];
           m.value[k].PyDict? && m.value[k].fields["patent_count"] == PyNum(|s.similarPatents| as real)
    ensures !(v.PyDict? && "section_similarities" in v.fields) ==> SimilarityMap(FromValue(v)) == Ok(map[])
  {
  }

  lemma ObjectsReadBack(sims: map<string, SectionSimilarity>)
    ensures var src := map k | k in sims :: SimilarityObject(sims[k]);
      forall k :: k in src ==> ObjectEntry(src[k]) == Ok(MapEntry(sims[k]))
  {
    forall k | k in sims ensures ObjectEntry(SimilarityObject(sims[k])) == Ok(MapEntry(sims[k])) {
      ObjectEntryOfSimilarity(sims[k]);
    }
  }

  /**
   * A dictionary holding a result's sections as objects gives the same map
   * as the result itself.
   */
  lemma SimilarityMapOfObjects(r: DraftWithSimilarity)
    ensures SimilarityMap(FromValue(PyDict(map["section_similarities" :=
              PyDict(map k | k in r.sectionSimilarities.vals :: SimilarityObject(r.sectionSimilarities.vals[k]))])))
            == SimilarityMap(FromResult(r))
  {
    var sims := r.sectionSimilarities.vals;
    var src := map k | k in sims :: SimilarityObject(sims[k]);
    var v := PyDict(map["section_similarities" := PyDict(src)]);
    assert SimilarityMap(FromValue(v)) == ObjectsMap(src);
    ObjectsMapOfSimilarities(sims);
  }

  /** Reading back a dictionary of section objects gives each section's entry. */
  lemma ObjectsMapOfSimilarities(sims: map<string, SectionSimilarity>)
    ensures ObjectsMap(map k | k in sims :: SimilarityObject(sims[k])) == Ok(map k | k in sims :: MapEntry(sims[k]))
  {
    var src := map k | k in sims :: SimilarityObject(sims[k]);
    var direct := map k | k in sims :: MapEntry(sims[k]);
    assert src.Keys == sims.Keys;
    assert forall k :: k in src ==> ObjectEntry(src[k]) == Ok(MapEntry(sims[k])) by {
      ObjectsReadBack(sims);
    }
    var read := map k | k in src :: ObjectEntry(src[k]).value;
    assert ObjectsMap(src) == Ok(read) by {
      ObjectsMapAllRead(src);
    }
    assert read.Keys == direct.Keys;
    assert forall k :: k in read ==> read[k] == direct[k];
    SameEntries(read, direct);
  }

  /** Two maps with the same keys and the same value at each key are equal. */
  lemma SameEntries<K, V>(a: map<K, V>, b: map<K, V>)
    requires a.Keys == b.Keys && forall k :: k in a ==> a[k] == b[k]
    ensures a == b
  {
  }

  /** `to_json_schema`. */
  function ToJsonSchema(r: DraftWithSimilarity): map<string, Value>
  {
    map["draft" := PyStr(r.draft), "model" := PyStr(r.model), "template_type" := PyStr(r.templateType),
        "generation_time" := PyNum(r.generationTime), "cached" := PyBool(r.cached),
        "section_similarities" := PyDict(map k | k in r.sectionSimilarities.vals ::
            var s := r.sectionSimilarities.vals[k];
            PyDict(MapEntry(s).fields["section_text" := PyStr(s.sectionText)])),
        "total_analysis_time" := PyNum(r.totalAnalysisTime), "success" := PyBool(r.success), "message" := PyStr(r.message)]
  }

  /**
   * The JSON form keeps the section names, and each section's entry is its
   * similarity-map entry plus its text: the patent count is the number of
   * its patents.
   */
  lemma ToJsonSchemaFacts(r: DraftWithSimilarity)
    ensures var j := ToJsonSchema(r);
      var sections := j["section_similarities"];
      var m := SimilarityMap(FromResult(r)).value;
      && sections.PyDict? && sections.fields.Keys == m.Keys
      && (forall k :: k in m ==> m[k].PyDict? && sections.fields[k] == PyDict(m[k].fields["section_text" := PyStr(r.sectionSimilarities.vals[k].sectionText)]))
      && j["success"] == PyBool(r.success) && j["message"] == PyStr(r.message)
  {
  }
}
