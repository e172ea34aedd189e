/**
 * What the two draft analysers share: the similar-patent record each search
 * hit becomes, the search request a section analysis sends, and the fan-out
 * over the parsed sections, folded in section order, in which every
 * non-blank section gets its analysis task's result, or a fallback entry
 * when that task raised.
 */
module SectionAnalysis {
  import opened Base
  import opened Text
  import opened SearchService

  /** One similar patent, the dictionary with six keys both analysers build per search result. */
  datatype SimilarPatent = SimilarPatent(patentId: string, title: string, similarityScore: real,
                                         docType: string, snippet: string, sourceFile: string)

  /** One search result as a similar patent; its snippet is kept only when snippets are asked for. */
  function Similar(r: SearchResult, includeSnippets: bool): SimilarPatent
  {
    SimilarPatent(r.docId, r.title, r.score, r.docType, if includeSnippets then r.snippet else "", r.sourceFile)
  }

  /** The list the conversion loop appends to, one entry per result. */
  function SimilarAll(results: seq<SearchResult>, includeSnippets: bool): seq<SimilarPatent>
    decreases |results|
  {
    if results == [] then []
    else
      var n := |results| - 1;
      SimilarAll(results[..n], includeSnippets) + [Similar(results[n], includeSnippets)]
  }

  /**
   * One similar patent per search result, in order, carrying the result's
   * id, title, score, type and source file, with snippet "" when snippets
   * are off.
   */
  lemma {:induction false} SimilarAllOnePerResult(results: seq<SearchResult>, includeSnippets: bool)
    ensures var r := SimilarAll(results, includeSnippets);
      && |r| == |results|
      && forall i :: 0 <= i < |results| ==>
           && r[i].patentId == results[i].docId && r[i].title == results[i].title
           && r[i].similarityScore == results[i].score && r[i].docType == results[i].docType
           && r[i].sourceFile == results[i].sourceFile
           && r[i].snippet == (if includeSnippets then results[i].snippet else "")
    decreases |results|
  {
    if results != [] {
      var n := |results| - 1;
      SimilarAllOnePerResult(results[..n], includeSnippets);
    }
  }

  /** The loop that turns search results into similar patents. */
  method ConvertResults(results: seq<SearchResult>, includeSnippets: bool) returns (patents: seq<SimilarPatent>)
    ensures patents == SimilarAll(results, includeSnippets)
  {
    patents := [];
    var i := 0;
    while i < |results|
      invariant 0 <= i <= |results|
      invariant patents == SimilarAll(results[..i], includeSnippets)
    {
      assert results[..i + 1][..i] == results[..i];
      var result := results[i];
      patents := patents + [SimilarPatent(result.docId, result.title, result.score, result.docType,
                                          if includeSnippets then result.snippet else "", result.sourceFile)];
      i := i + 1;
    }
    assert results[..i] == results;
  }

  /** A similar patent as the dictionary the analysers hand on. */
  function PatentValue(p: SimilarPatent): Value
  {
    PyDict(map["patent_id" := PyStr(p.patentId), "title" := PyStr(p.title), "similarity_score" := PyNum(p.similarityScore),
               "doc_type" := PyStr(p.docType), "snippet" := PyStr(p.snippet), "source_file" := PyStr(p.sourceFile)])
  }

  /** A list of similar patents as a Python list. */
  function PatentsValue(ps: seq<SimilarPatent>): (v: Value)
    ensures v.PyList? && |v.items| == |ps|
  {
    PyList(seq(|ps|, i requires 0 <= i < |ps| => PatentValue(ps[i])))
  }

  /**
   * The part of `run_search` the analysers consume: the results for a
   * request, or the exception it raised.
   */
  type Searcher = SearchRequest -> Result<seq<SearchResult>>

  /**
   * The request an analyser sends: the given query, mode, `top_k` and
   * snippet switch, metadata on, logging off, the other options at the
   * request's defaults.
   */
  function RequestFor(query: string, mode: string, topK: int, includeSnippets: bool): SearchRequest
  {
    SearchRequest(query, mode, topK, DefaultOptions.(includeSnippets := includeSnippets, includeMetadata := true, logEnabled := false))
  }

  /** The search facade as a searcher, for a given cache content and measured time. */
  function Facade(b: Backends, texts: map<string, string>, elapsed: real): Searcher
  {
    req => match RunOutcome(req, b, texts, elapsed)
           case Ok(v) => Ok(v.0)
           case Err(e) => Err(e)
  }

  /**
   * A section query the analysers send never trips the facade's request
   * checks when its text is not blank, its mode is one of the four and
   * `top_k` is between 1 and 100: the alpha the request carries is the
   * default 0.5; the facade then returns one result per raw hit.
   */
  lemma FacadeAcceptsSectionQueries(query: string, mode: string, topK: int, includeSnippets: bool,
                                    b: Backends, texts: map<string, string>, elapsed: real)
    requires Strip(query) != [] && mode in ValidModes && 1 <= topK <= 100
    ensures var req := RequestFor(query, mode, topK, includeSnippets);
      && Facade(b, texts, elapsed)(req).Ok?
      && |Facade(b, texts, elapsed)(req).value| == |RawResults(req, b, texts)|
  {
    var req := RequestFor(query, mode, topK, includeSnippets);
    ValidateExactlyAcceptable(req);
    RunOutcomeFacts(req, b, texts, elapsed);
  }

  /** A task's entry: what it returned, or the fallback entry when it raised. */
  function Outcome<R>(r: Result<R>, fallback: R): R
  {
    if r.Ok? then r.value else fallback
  }

  /** The names, in order, whose section text is not blank. */
  function NonBlank(names: seq<string>, texts: map<string, string>): (r: seq<string>)
    requires forall k :: k in names ==> k in texts
    ensures forall k :: k in r <==> k in names && Strip(texts[k]) != []
    decreases |names|
  {
    if names == [] then []
    else
      var n := |names| - 1;
      assert names == names[..n] + [names[n]];
      NonBlank(names[..n], texts) + if Strip(texts[names[n]]) != [] then [names[n]] else []
  }

  /**
   * The fan-out: for each section in order whose text is not blank, its
   * entry set to the outcome of its task.
   */
  function Fanned<R>(names: seq<string>, texts: map<string, string>, task: (string, string) -> Result<R>, failed: string -> R): Dict<R>
    requires forall k :: k in names ==> k in texts
    decreases |names|
  {
    if names == [] then Dict([], map[])
    else
      var n := |names| - 1;
      var prev := Fanned(names[..n], texts, task, failed);
      var k := names[n];
      if Strip(texts[k]) != [] then Put(prev, k, Outcome(task(k, texts[k]), failed(k))) else prev
  }

  /**
   * With distinct section names the fan-out has exactly the non-blank
   * sections as keys, in section order.
   */
  lemma {:induction false} FannedKeys<R>(names: seq<string>, texts: map<string, string>, task: (string, string) -> Result<R>, failed: string -> R)
    requires forall k :: k in names ==> k in texts
    requires forall i, j :: 0 <= i < j < |names| ==> names[i] != names[j]
    ensures WellFormed(Fanned(names, texts, task, failed))
    ensures Fanned(names, texts, task, failed).keys == NonBlank(names, texts)
    decreases |names|
  {
    if names != [] {
      var n := |names| - 1;
      var k := names[n];
      var prev := Fanned(names[..n], texts, task, failed);
      FannedKeys(names[..n], texts, task, failed);
      assert k !in names[..n];
      assert k !in prev.vals by {
        assert k !in NonBlank(names[..n], texts);
      }
      assert NonBlank(names, texts) == prev.keys + if Strip(texts[k]) != [] then [k] else [];
    }
  }

  /**
   * Each non-blank section's entry is its task's result, or the fallback
   * entry when that task raised; a blank section has no entry.
   */
  lemma {:induction false} FannedValues<R>(names: seq<string>, texts: map<string, string>, task: (string, string) -> Result<R>, failed: string -> R)
    requires forall k :: k in names ==> k in texts
    ensures var d := Fanned(names, texts, task, failed);
      forall k :: k in d.vals <==> k in names && Strip(texts[k]) != []
    ensures var d := Fanned(names, texts, task, failed);
      forall k :: k in d.vals ==> d.vals[k] == Outcome(task(k, texts[k]), failed(k))
    decreases |names|
  {
    if names != [] {
      var n := |names| - 1;
      FannedValues(names[..n], texts, task, failed);
      assert names == names[..n] + [names[n]];
    }
  }

  /** One more section extends the fan-out by that section's entry, when its text is not blank. */
  lemma FannedStep<R>(names: seq<string>, texts: map<string, string>, task: (string, string) -> Result<R>, failed: string -> R, i: nat)
    requires i < |names| && forall k :: k in names ==> k in texts
    ensures forall k :: k in names[..i + 1] ==> k in texts
    ensures var k := names[i];
      Fanned(names[..i + 1], texts, task, failed)
      == if Strip(texts[k]) != [] then Put(Fanned(names[..i], texts, task, failed), k, Outcome(task(k, texts[k]), failed(k)))
         else Fanned(names[..i], texts, task, failed)
  {
    assert names[..i + 1][..i] == names[..i];
  }

  /** The fan-out's loop: one task per non-blank section, then each task's entry collected in order. */
  method FanOut<R>(sections: Dict<string>, task: (string, string) -> Result<R>, failed: string -> R) returns (results: Dict<R>)
    requires WellFormed(sections)
    ensures results == Fanned(sections.keys, sections.vals, task, failed)
  {
    results := Dict([], map[]);
    var i := 0;
    while i < |sections.keys|
      invariant 0 <= i <= |sections.keys|
      invariant results == Fanned(sections.keys[..i], sections.vals, task, failed)
    {
      var name := sections.keys[i];
      var text := sections.vals[name];
      FannedStep(sections.keys, sections.vals, task, failed, i);
      if Strip(text) != [] {
        var outcome := task(name, text);
        results := Put(results, name, if outcome.Ok? then outcome.value else failed(name));
      }
      i := i + 1;
    }
    assert sections.keys[..i] == sections.keys;
  }
}
