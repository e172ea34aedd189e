/**
 * Result enrichment helpers of the search layer: the sliding-window snippet
 * generator with term highlighting, the Jaccard keyword-overlap score, and the
 * re-ranking that blends that score into retrieval scores.
 *
 * Chunk texts, which the system reads from its chunk file, are a map from
 * chunk id to text here; an id absent from the map is a chunk the file does
 * not hold.
 */
module SearchUtils {
  import opened Base
  import opened Text
  import opened Ranking

  /** Distance between two candidate window starts. */
  const WindowStep: nat := 50
  /** Default snippet length. */
  const DefaultSnippetLength: nat := 200
  const Ellipsis: string := "..."
  /** Terms of this length or shorter are never highlighted or used for overlap. */
  const ShortTermLength: nat := 2

  /* ---------------- snippets ---------------- */

  /** The query terms: the word tokens of the lowercased query, repetitions kept. */
  function QueryTerms(query: string): seq<string>
  {
    Words(Lower(query))
  }

  /** How many of the terms (with repetition) occur in the window text. */
  function MatchCount(terms: seq<string>, window: string): (n: nat)
    ensures n <= |terms|
  {
    if terms == [] then 0
    else (if Contains(window, terms[0]) then 1 else 0) + MatchCount(terms[1..], window)
  }

  /** `i` is one of the window starts the generator tries: 0, 50, 100, … while a whole window fits. */
  predicate IsCandidate(length: nat, maxLength: nat, i: nat)
  {
    i % WindowStep == 0 && i + maxLength <= length
  }

  /** The number of query terms found in the lowercased window that starts at `i`. */
  function WindowScore(lowered: string, terms: seq<string>, maxLength: nat, i: nat): nat
    requires i + maxLength <= |lowered|
  {
    MatchCount(terms, lowered[i..i + maxLength])
  }

  /**
   * `b` is the chosen window start: with no candidate it is 0; otherwise a
   * candidate whose score no candidate exceeds, and every earlier candidate
   * scores strictly less (the earliest best window wins ties).
   */
  ghost predicate IsBestStart(lowered: string, terms: seq<string>, maxLength: nat, b: nat)
  {
    if |lowered| < maxLength then b == 0
    else
      IsCandidate(|lowered|, maxLength, b)
      && (forall c: nat :: IsCandidate(|lowered|, maxLength, c) ==>
            WindowScore(lowered, terms, maxLength, c) <= WindowScore(lowered, terms, maxLength, b))
      && (forall c: nat :: IsCandidate(|lowered|, maxLength, c) && c < b ==>
            WindowScore(lowered, terms, maxLength, c) < WindowScore(lowered, terms, maxLength, b))
  }

  /** At most one start is the best one. */
  lemma BestStartUnique(lowered: string, terms: seq<string>, maxLength: nat, b1: nat, b2: nat)
    requires IsBestStart(lowered, terms, maxLength, b1)
    requires IsBestStart(lowered, terms, maxLength, b2)
    ensures b1 == b2
  {
  }

  /** The scan of the candidate windows from `i` on, given the best start and count found so far. */
  function Scan(lowered: string, terms: seq<string>, maxLength: nat, i: nat, best: nat, most: nat): (r: nat)
    ensures r == best || r + maxLength <= |lowered|
    decreases |lowered| - i
  {
    if i + maxLength > |lowered| then best
    else
      var m := WindowScore(lowered, terms, maxLength, i);
      if m > most then Scan(lowered, terms, maxLength, i + WindowStep, i, m)
      else Scan(lowered, terms, maxLength, i + WindowStep, best, most)
  }

  /** The window start the generator settles on. */
  function BestStart(lowered: string, terms: seq<string>, maxLength: nat): (r: nat)
    ensures r <= |lowered|
  {
    Scan(lowered, terms, maxLength, 0, 0, 0)
  }

  /** What the scan keeps true while it moves forward (see `BestWindowStart`). */
  ghost predicate ScanState(lowered: string, terms: seq<string>, maxLength: nat, i: nat, best: nat, most: nat)
  {
    i % WindowStep == 0
    && (i == 0 ==> best == 0 && most == 0)
    && (i > 0 ==> IsCandidate(|lowered|, maxLength, best) && best < i
                  && most == WindowScore(lowered, terms, maxLength, best))
    && (i > 0 ==> i - WindowStep + maxLength <= |lowered|)
    && (forall c: nat :: IsCandidate(|lowered|, maxLength, c) && c < i ==>
          WindowScore(lowered, terms, maxLength, c) <= most)
    && (forall c: nat :: IsCandidate(|lowered|, maxLength, c) && c < best ==>
          WindowScore(lowered, terms, maxLength, c) < most)
  }

  /** No multiple of the window step lies strictly between two consecutive ones. */
  lemma NextMultiple(c: nat, i: nat)
    requires c % WindowStep == 0 && i % WindowStep == 0 && c < i + WindowStep
    ensures c <= i
  {
    var p, q := c / WindowStep, i / WindowStep;
    assert c == WindowStep * p && i == WindowStep * q;
  }

  /** One window further, the scan state holds again, with that window taken when it scores higher. */
  lemma ScanStateStep(lowered: string, terms: seq<string>, maxLength: nat, i: nat, best: nat, most: nat)
    requires ScanState(lowered, terms, maxLength, i, best, most) && i + maxLength <= |lowered|
    ensures var m := WindowScore(lowered, terms, maxLength, i);
      if m > most then ScanState(lowered, terms, maxLength, i + WindowStep, i, m)
      else ScanState(lowered, terms, maxLength, i + WindowStep, best, most)
  {
    var m := WindowScore(lowered, terms, maxLength, i);
    assert (i + WindowStep) % WindowStep == 0;
    forall c: nat | IsCandidate(|lowered|, maxLength, c) && c < i + WindowStep
      ensures c < i || c == i
    {
      NextMultiple(c, i);
    }
  }

  lemma {:induction false} ScanIsBest(lowered: string, terms: seq<string>, maxLength: nat, i: nat, best: nat, most: nat)
    requires ScanState(lowered, terms, maxLength, i, best, most)
    ensures IsBestStart(lowered, terms, maxLength, Scan(lowered, terms, maxLength, i, best, most))
    decreases |lowered| - i
  {
    if i + maxLength > |lowered| {
      if |lowered| >= maxLength {
        assert i > 0 by {
          if i == 0 { assert false; }
        }
      }
    } else {
      var m := WindowScore(lowered, terms, maxLength, i);
      ScanStateStep(lowered, terms, maxLength, i, best, most);
      if m > most {
        ScanIsBest(lowered, terms, maxLength, i + WindowStep, i, m);
      } else {
        ScanIsBest(lowered, terms, maxLength, i + WindowStep, best, most);
      }
    }
  }

  /**
   * The start the generator settles on is the best one: the earliest candidate
   * window holding the most query terms, or 0 when no window fits.
   */
  lemma BestStartIsBest(lowered: string, terms: seq<string>, maxLength: nat)
    ensures IsBestStart(lowered, terms, maxLength, BestStart(lowered, terms, maxLength))
  {
    ScanIsBest(lowered, terms, maxLength, 0, 0, 0);
  }

  /** The window loop of the generator. */
  method BestWindowStart(lowered: string, terms: seq<string>, maxLength: nat) returns (best: nat)
    ensures IsBestStart(lowered, terms, maxLength, best)
    ensures best == BestStart(lowered, terms, maxLength)
  {
    best := 0;
    var most: nat := 0;
    var i: nat := 0;
    while i + maxLength <= |lowered|
      invariant ScanState(lowered, terms, maxLength, i, best, most)
      invariant Scan(lowered, terms, maxLength, i, best, most) == BestStart(lowered, terms, maxLength)
      decreases |lowered| - i
    {
      var matches := MatchCount(terms, lowered[i..i + maxLength]);
      ScanStateStep(lowered, terms, maxLength, i, best, most);
      if matches > most {
        most := matches;
        best := i;
      }
      i := i + WindowStep;
    }
    BestStartIsBest(lowered, terms, maxLength);
    ScanIsBest(lowered, terms, maxLength, i, best, most);
  }

  /** `pat` occurs at `i` in `s`, ignoring ASCII case. */
  predicate OccursAtCI(s: string, pat: string, i: int)
  {
    0 <= i && i + |pat| <= |s| && Lower(s[i..i + |pat|]) == Lower(pat)
  }

  /**
   * `re.sub` of a case-insensitive literal pattern: scanning left to right,
   * every non-overlapping occurrence of `pat` is replaced by `repl`.
   */
  function ReplaceCI(s: string, pat: string, repl: string): string
    requires |pat| > 0
    decreases |s|
  {
    if |s| < |pat| then s
    else if Lower(s[..|pat|]) == Lower(pat) then repl + ReplaceCI(s[|pat|..], pat, repl)
    else [s[0]] + ReplaceCI(s[1..], pat, repl)
  }

  /** Text without an occurrence of the pattern is left as it is. */
  lemma {:induction false} ReplaceAbsent(s: string, pat: string, repl: string)
    requires |pat| > 0
    requires forall i :: !OccursAtCI(s, pat, i)
    ensures ReplaceCI(s, pat, repl) == s
    decreases |s|
  {
    if |s| >= |pat| {
      assert !OccursAtCI(s, pat, 0);
      assert s[..|pat|] == s[0..|pat|];
      forall i ensures !OccursAtCI(s[1..], pat, i) {
        if 0 <= i && i + |pat| <= |s| - 1 {
          assert s[1..][i..i + |pat|] == s[i + 1..i + 1 + |pat|];
          assert !OccursAtCI(s, pat, i + 1);
        }
      }
      ReplaceAbsent(s[1..], pat, repl);
      assert [s[0]] + s[1..] == s;
    }
  }

  /** Text with an occurrence of the pattern gets at least one replacement. */
  lemma {:induction false} ReplacePresent(s: string, pat: string, repl: string, i: nat)
    requires |pat| > 0
    requires OccursAtCI(s, pat, i)
    ensures Contains(ReplaceCI(s, pat, repl), repl)
    decreases |s|
  {
    var r := ReplaceCI(s, pat, repl);
    if Lower(s[..|pat|]) == Lower(pat) {
      assert r[..|repl|] == repl;
      assert OccursAt(r, repl, 0);
    } else {
      assert s[1..][i - 1..i - 1 + |pat|] == s[i..i + |pat|];
      ReplacePresent(s[1..], pat, repl, i - 1);
      var t := ReplaceCI(s[1..], pat, repl);
      var k :| OccursAt(t, repl, k);
      assert r == [s[0]] + t;
      assert r[k + 1..k + 1 + |repl|] == t[k..k + |repl|];
      assert OccursAt(r, repl, k + 1);
    }
  }

  /** The highlighted form of a term: `**term**`. */
  function Marked(term: string): string
  {
    "**" + term + "**"
  }

  /** One highlighting step: terms longer than two characters are wrapped wherever they occur. */
  function Mark(s: string, term: string): string
  {
    if |term| > ShortTermLength then ReplaceCI(s, term, Marked(term)) else s
  }

  /** Highlighting the terms one after the other, in query order. */
  function Highlight(s: string, terms: seq<string>): string
  {
    if terms == [] then s else Mark(Highlight(s, terms[..|terms| - 1]), terms[|terms| - 1])
  }

  /**
   * A term longer than two characters is wrapped as `**term**` exactly when it
   * occurs (ignoring case); otherwise the text is unchanged.
   */
  lemma MarkWrapsIffPresent(s: string, term: string)
    requires |term| > ShortTermLength
    ensures (exists i :: OccursAtCI(s, term, i)) ==> Contains(Mark(s, term), Marked(term))
    ensures (forall i :: !OccursAtCI(s, term, i)) ==> Mark(s, term) == s
  {
    if i :| OccursAtCI(s, term, i) {
      ReplacePresent(s, term, Marked(term), i);
    } else {
      ReplaceAbsent(s, term, Marked(term));
    }
  }

  /** Highlighting one more term marks it in the text highlighted so far. */
  lemma HighlightStep(s: string, terms: seq<string>, k: nat)
    requires k < |terms|
    ensures Highlight(s, terms[..k + 1]) == Mark(Highlight(s, terms[..k]), terms[k])
  {
    assert terms[..k + 1][..k] == terms[..k];
  }

  /** Terms of at most two characters are never highlighted. */
  lemma {:induction false} HighlightSkipsShortTerms(s: string, terms: seq<string>)
    requires forall k :: 0 <= k < |terms| ==> |terms[k]| <= ShortTermLength
    ensures Highlight(s, terms) == s
  {
    if terms != [] {
      HighlightSkipsShortTerms(s, terms[..|terms| - 1]);
    }
  }

  /** `text[start:start + length]` for a start inside the text. */
  function Window(text: string, start: nat, length: nat): (r: string)
    requires start <= |text|
    ensures |r| <= length
  {
    Take(text[start..], length)
  }

  /** The window at `b`, highlighted, with "..." marking text cut off on either side. */
  function Decorate(text: string, terms: seq<string>, b: nat, maxLength: nat): string
    requires b <= |text|
  {
    (if b > 0 then Ellipsis else "")
    + Highlight(Window(text, b, maxLength), terms)
    + (if b + maxLength < |text| then Ellipsis else "")
  }

  /** The snippet of `generate_snippet`, by definition. */
  function Snippet(text: string, query: string, maxLength: nat): string
  {
    if text == [] || query == [] then
      (if |text| > maxLength then text[..maxLength] + Ellipsis else text)
    else
      Decorate(text, QueryTerms(query), BestStart(Lower(text), QueryTerms(query), maxLength), maxLength)
  }

  /**
   * `generate_snippet`: picks the window with the most query terms, highlights
   * the terms in it and marks cut text with ellipses.
   */
  method GenerateSnippet(text: string, query: string, maxLength: nat) returns (snippet: string)
    ensures snippet == Snippet(text, query, maxLength)
  {
    if text == [] || query == [] {
      snippet := if |text| > maxLength then text[..maxLength] + Ellipsis else text;
      return;
    }
    var terms := QueryTerms(query);
    var lowered := Lower(text);
    var best := BestWindowStart(lowered, terms, maxLength);
    snippet := text[best..];
    if |snippet| > maxLength {
      snippet := snippet[..maxLength];
    }
    assert snippet == Window(text, best, maxLength);
    assert terms[..0] == [];
    var k := 0;
    while k < |terms|
      invariant 0 <= k <= |terms|
      invariant snippet == Highlight(Window(text, best, maxLength), terms[..k])
    {
      var term := terms[k];
      HighlightStep(Window(text, best, maxLength), terms, k);
      if |term| > ShortTermLength {
        snippet := ReplaceCI(snippet, term, Marked(term));
      }
      k := k + 1;
    }
    assert terms[..k] == terms;
    var lead := if best > 0 then Ellipsis else "";
    var trail := if best + maxLength < |text| then Ellipsis else "";
    snippet := lead + snippet + trail;
    assert snippet == Decorate(text, terms, best, maxLength);
  }

  /**
   * With an empty text or query the snippet is the text itself when it fits,
   * and otherwise its first `maxLength` characters followed by "...".
   */
  lemma SnippetWithoutQuery(text: string, query: string, maxLength: nat)
    requires text == [] || query == []
    ensures |text| <= maxLength ==> Snippet(text, query, maxLength) == text
    ensures |text| > maxLength ==>
      Snippet(text, query, maxLength) == text[..maxLength] + Ellipsis
      && |Snippet(text, query, maxLength)| == maxLength + 3
  {
  }

  /**
   * The snippet is the highlighted best window, led by "..." exactly when the
   * window does not start the text and followed by "..." exactly when it does
   * not reach the end.
   */
  lemma SnippetIsBestWindow(text: string, query: string, maxLength: nat)
    requires text != [] && query != []
    ensures exists b: nat ::
      b <= |text| && IsBestStart(Lower(text), QueryTerms(query), maxLength, b)
      && Snippet(text, query, maxLength) == Decorate(text, QueryTerms(query), b, maxLength)
  {
    var b := BestStart(Lower(text), QueryTerms(query), maxLength);
    BestStartIsBest(Lower(text), QueryTerms(query), maxLength);
  }

  /** When no whole window fits after the first, the first window is chosen. */
  lemma BestStartOfShort(lowered: string, terms: seq<string>, maxLength: nat)
    requires |lowered| <= maxLength
    ensures BestStart(lowered, terms, maxLength) == 0
  {
    BestStartIsBest(lowered, terms, maxLength);
    if |lowered| == maxLength {
      assert IsCandidate(|lowered|, maxLength, 0);
    }
  }

  /** A text that fits in one window is shown whole, highlighted, without ellipses. */
  lemma SnippetOfShortText(text: string, query: string, maxLength: nat)
    requires text != [] && query != []
    requires |text| <= maxLength
    ensures Snippet(text, query, maxLength) == Highlight(text, QueryTerms(query))
  {
    var terms := QueryTerms(query);
    BestStartOfShort(Lower(text), terms, maxLength);
    assert text[0..] == text;
    assert Window(text, 0, maxLength) == text;
    var h := Highlight(text, terms);
    assert Decorate(text, terms, 0, maxLength) == "" + h + "";
    assert "" + h + "" == h;
  }

  /* ---------------- keyword overlap ---------------- */

  /** The distinct word tokens longer than two characters of the lowercased text. */
  function TokenSet(s: string): set<string>
  {
    set w | w in Words(Lower(s)) && |w| > ShortTermLength
  }

  /** `compute_keyword_overlap_score`: the Jaccard similarity of the two token sets. */
  function KeywordOverlap(text: string, query: string): (r: real)
    ensures 0.0 <= r <= 1.0
    ensures text == [] || query == [] || TokenSet(query) == {} ==> r == 0.0
  {
    if text == [] || query == [] then 0.0
    else
      var t := TokenSet(text);
      var q := TokenSet(query);
      if q == {} then 0.0
      else
        SubsetCard(t * q, t + q);
        SubsetCard(q, t + q);
        Ratio(|t * q|, |t + q|)
  }

  /** `a / b` for `0 <= a <= b`, `b > 0`: a fraction in [0, 1] that times `b` gives back `a`. */
  function Ratio(a: nat, b: nat): (r: real)
    requires a <= b && b > 0
    ensures 0.0 <= r <= 1.0 && r * (b as real) == a as real
  {
    assert (a as real) / (b as real) <= 1.0 by {
      assert (a as real) <= (b as real);
    }
    (a as real) / (b as real)
  }

  /** Otherwise the overlap is the Jaccard similarity: times the size of the union it gives the size of the intersection. */
  lemma KeywordOverlapIsJaccard(text: string, query: string)
    requires text != [] && query != [] && TokenSet(query) != {}
    ensures var t := TokenSet(text);
      var q := TokenSet(query);
      |t + q| > 0 && KeywordOverlap(text, query) * (|t + q| as real) == |t * q| as real
  {
    var t := TokenSet(text);
    var q := TokenSet(query);
    SubsetCard(t * q, t + q);
    SubsetCard(q, t + q);
    assert KeywordOverlap(text, query) == Ratio(|t * q|, |t + q|);
  }

  lemma SubsetCard<T>(a: set<T>, b: set<T>)
    requires a <= b
    ensures |a| <= |b|
    ensures |a| == |b| ==> a == b
  {
    if a != b {
      var x :| x in b && x !in a;
      assert a <= b - {x};
      SubsetCardLe(a, b - {x});
    } else {
    }
  }

  lemma {:induction false} SubsetCardLe<T>(a: set<T>, b: set<T>)
    requires a <= b
    ensures |a| <= |b|
    decreases |b|
  {
    if a != {} {
      var x :| x in a;
      SubsetCardLe(a - {x}, b - {x});
    }
  }

  /** The overlap is 1 exactly when both sides have the same (non-empty) token set. */
  lemma KeywordOverlapIsOneIffSameTokens(text: string, query: string)
    requires text != [] && query != [] && TokenSet(query) != {}
    ensures KeywordOverlap(text, query) == 1.0 <==> TokenSet(text) == TokenSet(query)
  {
    var t := TokenSet(text);
    var q := TokenSet(query);
    SubsetCard(t * q, t + q);
    var r := KeywordOverlap(text, query);
    KeywordOverlapIsJaccard(text, query);
    if r == 1.0 {
      assert |t * q| == |t + q|;
      assert t * q == t + q;
      assert t <= t * q && q <= t * q;
    }
    if t == q {
      assert t * q == t + q;
      assert |t + q| > 0;
    }
  }

  /** The overlap is 0 exactly when the token sets share nothing. */
  lemma KeywordOverlapIsZeroIffDisjoint(text: string, query: string)
    requires text != [] && query != [] && TokenSet(query) != {}
    ensures KeywordOverlap(text, query) == 0.0 <==> TokenSet(text) * TokenSet(query) == {}
  {
    var t := TokenSet(text);
    var q := TokenSet(query);
    KeywordOverlapIsJaccard(text, query);
    if KeywordOverlap(text, query) == 0.0 {
      assert |t * q| == 0;
    }
  }

  /* ---------------- re-ranking ---------------- */

  /** A retrieval hit as `(doc_id, score)`. */
  type ScoredId = Hit<()>

  /** The text of a chunk as the chunk file gives it; missing and empty text count alike. */
  predicate HasText(chunks: map<string, string>, id: string)
  {
    id in chunks && chunks[id] != []
  }

  /** The re-ranked score of one hit. */
  function Rescore(h: ScoredId, query: string, chunks: map<string, string>, keywordWeight: real, semanticWeight: real): (r: ScoredId)
    ensures r.id == h.id
    ensures !HasText(chunks, h.id) ==> r == h
  {
    if !HasText(chunks, h.id) then h
    else h.(score := Weighted(semanticWeight, h.score, keywordWeight, KeywordOverlap(chunks[h.id], query)))
  }

  function RescoreAll(results: seq<ScoredId>, query: string, chunks: map<string, string>, keywordWeight: real, semanticWeight: real): (r: seq<ScoredId>)
    ensures |r| == |results|
    ensures forall i :: 0 <= i < |r| ==> r[i] == Rescore(results[i], query, chunks, keywordWeight, semanticWeight)
  {
    seq(|results|, i requires 0 <= i < |results| => Rescore(results[i], query, chunks, keywordWeight, semanticWeight))
  }

  /** What `rerank_results` returns: its input when there is nothing to do, else the rescored hits sorted. */
  function Reranked(results: seq<ScoredId>, query: string, chunks: map<string, string>, keywordWeight: real, semanticWeight: real): seq<ScoredId>
  {
    if results == [] || query == [] then results
    else SortDesc(RescoreAll(results, query, chunks, keywordWeight, semanticWeight))
  }

  /** `rerank_results`: rescore every hit, then sort by the new scores (stable, descending). */
  method RerankResults(results: seq<ScoredId>, query: string, chunks: map<string, string>, keywordWeight: real, semanticWeight: real)
    returns (reranked: seq<ScoredId>)
    ensures reranked == Reranked(results, query, chunks, keywordWeight, semanticWeight)
  {
    if results == [] || query == [] {
      return results;
    }
    var acc: seq<ScoredId> := [];
    var i := 0;
    while i < |results|
      invariant 0 <= i <= |results|
      invariant |acc| == i
      invariant forall j :: 0 <= j < i ==> acc[j] == Rescore(results[j], query, chunks, keywordWeight, semanticWeight)
    {
      var h := results[i];
      if !HasText(chunks, h.id) {
        acc := acc + [h];
      } else {
        var keywordScore := KeywordOverlap(chunks[h.id], query);
        var combined := Weighted(semanticWeight, h.score, keywordWeight, keywordScore);
        acc := acc + [h.(score := combined)];
      }
      i := i + 1;
    }
    assert acc == RescoreAll(results, query, chunks, keywordWeight, semanticWeight);
    reranked := SortDesc(acc);
  }

  /**
   * Re-ranking keeps one entry per input hit (the same ids, as often as
   * before), each carrying its rescored value, in descending score order.
   */
  lemma RerankKeepsHits(results: seq<ScoredId>, query: string, chunks: map<string, string>, keywordWeight: real, semanticWeight: real)
    ensures var r := SortDesc(RescoreAll(results, query, chunks, keywordWeight, semanticWeight));
      && SortedDesc(r)
      && multiset(r) == multiset(RescoreAll(results, query, chunks, keywordWeight, semanticWeight))
      && multiset(Ids(r)) == multiset(Ids(results))
  {
    var s := RescoreAll(results, query, chunks, keywordWeight, semanticWeight);
    SortDescSorted(s);
    SortDescPerm(s);
    SortDescIds(s);
    assert Ids(s) == Ids(results);
  }

  /** A hit without chunk text survives re-ranking with its original score. */
  lemma RerankKeepsScoreWithoutText(results: seq<ScoredId>, query: string, chunks: map<string, string>, keywordWeight: real, semanticWeight: real, i: nat)
    requires i < |results| && !HasText(chunks, results[i].id)
    ensures results[i] in SortDesc(RescoreAll(results, query, chunks, keywordWeight, semanticWeight))
  {
    var s := RescoreAll(results, query, chunks, keywordWeight, semanticWeight);
    SortDescPerm(s);
    assert s[i] == results[i];
    assert results[i] in multiset(s);
  }

  /**
   * With non-negative weights summing to 1, a score in [0, 1] stays in [0, 1]
   * after blending in the overlap.
   */
  lemma RescoreStaysInUnitRange(h: ScoredId, query: string, chunks: map<string, string>, keywordWeight: real, semanticWeight: real)
    requires 0.0 <= keywordWeight && 0.0 <= semanticWeight && keywordWeight + semanticWeight == 1.0
    requires 0.0 <= h.score <= 1.0
    ensures 0.0 <= Rescore(h, query, chunks, keywordWeight, semanticWeight).score <= 1.0
  {
    if HasText(chunks, h.id) {
      WeightedInUnitRange(semanticWeight, h.score, keywordWeight, KeywordOverlap(chunks[h.id], query));
    }
  }
}
