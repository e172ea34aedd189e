/**
 * The heading-anchored section parser both draft analysers use. Each
 * section is the regular expression `HEADING\s*\n(.*?)(?=\n[A-Z]|\n\n|$)`
 * searched with DOTALL and IGNORECASE: the first place where the heading
 * occurs (in any letter case) followed by whitespace that holds a newline;
 * the capture runs from after the last newline of that whitespace up to the
 * first newline followed by a letter (of either case, because of
 * IGNORECASE) or by another newline, or to the end of the text (or its final
 * newline); the captured text is stripped, and a section without a match is
 * "".
 */
module SectionParser {
  import opened Base
  import opened Text

  /** The heading occurs at `p`, letter case ignored. */
  predicate HeadingAt(text: string, heading: string, p: nat)
  {
    p + |heading| <= |text| && forall k :: 0 <= k < |heading| ==> LowerChar(text[p + k]) == LowerChar(heading[k])
  }

  /** The end of the whitespace run that starts at `i`. */
  function SpaceRunEnd(text: string, i: nat): (e: nat)
    requires i <= |text|
    ensures i <= e <= |text|
    ensures forall k :: i <= k < e ==> IsSpace(text[k])
    ensures e == |text| || !IsSpace(text[e])
    decreases |text| - i
  {
    if i < |text| && IsSpace(text[i]) then SpaceRunEnd(text, i + 1) else i
  }

  /** The position after the last newline in `text[i..e]`, if it has one. */
  function AfterLastNewline(text: string, i: nat, e: nat): (r: Option<nat>)
    requires i <= e <= |text|
    ensures r.Some? ==> i < r.value <= e && text[r.value - 1] == '\n' && forall k :: r.value <= k < e ==> text[k] != '\n'
    ensures r.None? ==> forall k :: i <= k < e ==> text[k] != '\n'
    decreases e - i
  {
    if e == i then None
    else if text[e - 1] == '\n' then Some(e)
    else AfterLastNewline(text, i, e - 1)
  }

  /**
   * Where the capture starts for a heading at `p`: `\s*` takes the whole
   * whitespace run and gives characters back until a newline follows, so the
   * capture starts after the run's last newline; a run without one fails.
   */
  function CaptureStart(text: string, heading: string, p: nat): Option<nat>
    requires HeadingAt(text, heading, p)
  {
    var i := p + |heading|;
    AfterLastNewline(text, i, SpaceRunEnd(text, i))
  }

  predicate MatchAt(text: string, heading: string, p: nat)
  {
    HeadingAt(text, heading, p) && CaptureStart(text, heading, p).Some?
  }

  /** The leftmost position at or after `p` where the pattern matches, as `re.search` scans. */
  function FirstMatch(text: string, heading: string, p: nat): (r: Option<nat>)
    requires p <= |text|
    ensures r.Some? ==> p <= r.value <= |text| && MatchAt(text, heading, r.value)
    ensures r.Some? ==> forall k :: p <= k < r.value ==> !MatchAt(text, heading, k)
    ensures r.None? ==> forall k :: p <= k <= |text| ==> !MatchAt(text, heading, k)
    decreases |text| - p
  {
    if MatchAt(text, heading, p) then Some(p)
    else if p == |text| then None
    else FirstMatch(text, heading, p + 1)
  }

  /** The lookahead `(?=\n[A-Z]|\n\n|$)` holds at `q`. */
  predicate StopAt(text: string, q: nat)
  {
    || q == |text|
    || (q + 1 == |text| && text[q] == '\n')
    || (q + 1 < |text| && text[q] == '\n' && (IsLetter(text[q + 1]) || text[q + 1] == '\n'))
  }

  /** The lazy `(.*?)`: the first position at or after `s` where the lookahead holds. */
  function CaptureEnd(text: string, s: nat): (e: nat)
    requires s <= |text|
    ensures s <= e <= |text| && StopAt(text, e)
    ensures forall q :: s <= q < e ==> !StopAt(text, q)
    decreases |text| - s
  {
    if StopAt(text, s) then s else CaptureEnd(text, s + 1)
  }

  /** `match.group(1)` for a match at `p`. */
  function Captured(text: string, heading: string, p: nat): string
    requires MatchAt(text, heading, p)
  {
    var s := CaptureStart(text, heading, p).value;
    text[s..CaptureEnd(text, s)]
  }

  /** One section: the stripped capture of the first match, or "" when the pattern does not match. */
  function Section(text: string, heading: string): string
  {
    match FirstMatch(text, heading, 0)
    case None => ""
    case Some(p) => Strip(Captured(text, heading, p))
  }

  /** A text in which the heading does not occur (in any case) has the section "". */
  lemma SectionWithoutHeading(text: string, heading: string)
    requires forall p: nat :: !HeadingAt(text, heading, p)
    ensures Section(text, heading) == ""
  {
  }

  /** A text too short to hold the heading, the empty draft among them, has every section "". */
  lemma SectionOfShortText(text: string, heading: string)
    requires |text| < |heading|
    ensures Section(text, heading) == ""
  {
    SectionWithoutHeading(text, heading);
  }

  /**
   * The capture never runs past a line break followed by a letter of either
   * case or by a blank line: a section keeps a single line unless the next
   * lines start with something other than a letter.
   */
  lemma CaptureStopsAtBreak(text: string, heading: string, p: nat)
    requires MatchAt(text, heading, p)
    ensures var c := Captured(text, heading, p);
      forall k :: 0 <= k < |c| - 1 ==> !(c[k] == '\n' && (IsLetter(c[k + 1]) || c[k + 1] == '\n'))
  {
    var s := CaptureStart(text, heading, p).value;
    var e := CaptureEnd(text, s);
    var c := text[s..e];
    forall k | 0 <= k < |c| - 1 ensures !(c[k] == '\n' && (IsLetter(c[k + 1]) || c[k + 1] == '\n')) {
      assert c[k] == text[s + k] && c[k + 1] == text[s + k + 1];
      assert !StopAt(text, s + k);
    }
  }

  /**
   * The capture starts on the line after the heading's whitespace and ends at
   * the first stop: the section body is the stripped text between them.
   */
  lemma SectionIsFirstMatch(text: string, heading: string)
    requires FirstMatch(text, heading, 0).Some?
    ensures var p := FirstMatch(text, heading, 0).value;
      var s := CaptureStart(text, heading, p).value;
      && p + |heading| < s <= |text| && text[s - 1] == '\n'
      && (forall k :: p + |heading| <= k < s ==> IsSpace(text[k]))
      && Section(text, heading) == Strip(text[s..CaptureEnd(text, s)])
  {
  }

  /** A claims section whose second line starts with a lower-case letter. */
  const ClaimsExample: string := "CLAIMS\nA b.\nwhere"

  lemma ClaimsExampleMatch()
    ensures FirstMatch(ClaimsExample, "CLAIMS", 0) == Some(0)
    ensures CaptureStart(ClaimsExample, "CLAIMS", 0) == Some(7)
  {
    assert HeadingAt(ClaimsExample, "CLAIMS", 0);
    assert SpaceRunEnd(ClaimsExample, 6) == 7;
  }

  lemma ClaimsExampleEnd()
    ensures CaptureEnd(ClaimsExample, 7) == 11
  {
    assert StopAt(ClaimsExample, 11);
    assert !StopAt(ClaimsExample, 7) && !StopAt(ClaimsExample, 8) && !StopAt(ClaimsExample, 9) && !StopAt(ClaimsExample, 10);
  }

  /**
   * A line starting with a lower-case letter ends the section too: under
   * IGNORECASE the `\n[A-Z]` stop matches any letter.
   */
  lemma LowerCaseLineEndsSection()
    ensures Section(ClaimsExample, "CLAIMS") == "A b."
  {
    ClaimsExampleMatch();
    ClaimsExampleEnd();
    var c := ClaimsExample[7..11];
    assert c == "A b.";
    assert !IsSpace(c[0]) && !IsSpace(c[|c| - 1]);
    assert TrimStart(c) == c;
    assert TrimEnd(c) == c;
  }

  /** The dictionary a parser fills: for each (name, heading) in order, `sections[name]` set to that section. */
  function Parsed(draft: string, patterns: seq<(string, string)>): Dict<string>
    decreases |patterns|
  {
    if patterns == [] then Dict([], map[])
    else
      var last := patterns[|patterns| - 1];
      Put(Parsed(draft, patterns[..|patterns| - 1]), last.0, Section(draft, last.1))
  }

  /** The section names of a pattern table. */
  function Names(patterns: seq<(string, string)>): (r: seq<string>)
    ensures |r| == |patterns| && forall i :: 0 <= i < |patterns| ==> r[i] == patterns[i].0
  {
    seq(|patterns|, i requires 0 <= i < |patterns| => patterns[i].0)
  }

  predicate DistinctNames(patterns: seq<(string, string)>)
  {
    forall i, j :: 0 <= i < j < |patterns| ==> patterns[i].0 != patterns[j].0
  }

  /** With distinct names the parsed dictionary has exactly the names as keys, in table order. */
  lemma {:induction false} ParsedKeys(draft: string, patterns: seq<(string, string)>)
    requires DistinctNames(patterns)
    ensures WellFormed(Parsed(draft, patterns))
    ensures Parsed(draft, patterns).keys == Names(patterns)
    decreases |patterns|
  {
    if patterns != [] {
      var n := |patterns| - 1;
      ParsedKeys(draft, patterns[..n]);
      assert Names(patterns) == Names(patterns[..n]) + [patterns[n].0];
      assert patterns[n].0 !in Names(patterns[..n]);
    }
  }

  /** With distinct names each name holds its own heading's section. */
  lemma {:induction false} ParsedValues(draft: string, patterns: seq<(string, string)>)
    requires DistinctNames(patterns)
    ensures forall i :: 0 <= i < |patterns| ==>
      patterns[i].0 in Parsed(draft, patterns).vals && Parsed(draft, patterns).vals[patterns[i].0] == Section(draft, patterns[i].1)
    decreases |patterns|
  {
    if patterns != [] {
      var n := |patterns| - 1;
      ParsedValues(draft, patterns[..n]);
      forall i | 0 <= i < n
        ensures patterns[i].0 in Parsed(draft, patterns).vals && Parsed(draft, patterns).vals[patterns[i].0] == Section(draft, patterns[i].1)
      {
        assert patterns[..n][i] == patterns[i];
      }
    }
  }

  /** An empty draft has every section "", as long as no heading is empty. */
  lemma {:induction false} ParsedEmptyDraft(patterns: seq<(string, string)>)
    requires forall i :: 0 <= i < |patterns| ==> patterns[i].1 != []
    ensures forall k :: k in Parsed("", patterns).vals ==> Parsed("", patterns).vals[k] == ""
    decreases |patterns|
  {
    if patterns != [] {
      var n := |patterns| - 1;
      ParsedEmptyDraft(patterns[..n]);
      SectionOfShortText("", patterns[n].1);
    }
  }

  /** The parser's loop over its pattern table. */
  method ParseSections(draft: string, patterns: seq<(string, string)>) returns (sections: Dict<string>)
    ensures sections == Parsed(draft, patterns)
  {
    sections := Dict([], map[]);
    var i := 0;
    while i < |patterns|
      invariant 0 <= i <= |patterns|
      invariant sections == Parsed(draft, patterns[..i])
    {
      assert patterns[..i + 1][..i] == patterns[..i];
      var (name, heading) := patterns[i];
      var section := Section(draft, heading);
      sections := Put(sections, name, section);
      i := i + 1;
    }
    assert patterns[..i] == patterns;
  }
}
