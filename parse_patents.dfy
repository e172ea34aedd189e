/**
 * The XML record splitter of the patent parser: namespace stripping of tag
 * names, and the line scanner that cuts a bulk file into one string per
 * `<record_tag ...> ... </record_tag>` record.
 */
module ParsePatents {
  import opened Base
  import opened Text

  // ---------------------------------------------------------------------------
  // strip_namespace

  /** `tag.split("}")[-1] if "}" in tag else tag`: the text after the last `}`. */
  function StripNamespace(tag: string): (r: string)
    ensures |r| <= |tag| && r == tag[|tag| - |r|..]
    ensures '}' !in r
    ensures |r| < |tag| ==> tag[|tag| - |r| - 1] == '}'
    decreases |tag|
  {
    if tag == [] then []
    else
      var n := |tag| - 1;
      if tag[n] == '}' then [] else StripNamespace(tag[..n]) + [tag[n]]
  }

  /** A tag without `}` is returned unchanged; the result never has `}`, so stripping twice is stripping once. */
  lemma StripNamespaceFacts(tag: string)
    ensures '}' !in tag ==> StripNamespace(tag) == tag
    ensures StripNamespace(StripNamespace(tag)) == StripNamespace(tag)
  {
  }

  /** A namespaced tag loses exactly its `{uri}` part. */
  lemma StripNamespaceExample()
    ensures StripNamespace("{urn:x}claims") == "claims"
  {
    var t := "{urn:x}claims";
    var r := StripNamespace(t);
    assert t[7..] == "claims";
    assert t[6] == '}';
  }

  // ---------------------------------------------------------------------------
  // split_records: the state machine

  /** What opens a record: `<` and the tag, as a substring. */
  function StartPattern(tag: string): string { "<" + tag }

  /** What closes a record: `</`, the tag and `>`. */
  function EndPattern(tag: string): string { "</" + tag + ">" }

  /** The scanner's state: whether it is inside a record, the lines buffered, the records yielded. */
  datatype Scanner = Scanner(inside: bool, buffer: seq<string>, records: seq<string>)

  /**
   * One line: a start line begins a fresh buffer (dropping any unfinished
   * one); any other line inside a record is buffered; then, if inside, a
   * line with the end pattern closes the record and yields the buffer's
   * concatenation.
   */
  function Step(s: Scanner, line: string, startPat: string, endPat: string): Scanner
  {
    var s1 := if Contains(line, startPat) then s.(inside := true, buffer := [line])
              else if s.inside then s.(buffer := s.buffer + [line])
              else s;
    if s1.inside && Contains(line, endPat) then s1.(inside := false, records := s1.records + [Concat(s1.buffer)])
    else s1
  }

  /** The state after the first `n` lines. */
  function ScanUpTo(lines: seq<string>, startPat: string, endPat: string, n: nat): Scanner
    requires n <= |lines|
  {
    if n == 0 then Scanner(false, [], [])
    else Step(ScanUpTo(lines, startPat, endPat, n - 1), lines[n - 1], startPat, endPat)
  }

  /** The generator's loop over the lines of a file. */
  method SplitRecords(lines: seq<string>, tag: string) returns (records: seq<string>)
    ensures records == ScanUpTo(lines, StartPattern(tag), EndPattern(tag), |lines|).records
    ensures records == RecordsUpTo(lines, StartPattern(tag), EndPattern(tag), |lines|)
  {
    var startPat := "<" + tag;
    var endPat := "</" + tag + ">";
    var buffer: seq<string> := [];
    var inside := false;
    records := [];
    for i := 0 to |lines|
      invariant Scanner(inside, buffer, records) == ScanUpTo(lines, startPat, endPat, i)
    {
      var line := lines[i];
      if Contains(line, startPat) {
        inside := true;
        buffer := [line];
      } else if inside {
        buffer := buffer + [line];
      }
      if inside && Contains(line, endPat) {
        inside := false;
        records := records + [Concat(buffer)];
      }
    }
    ScanAgrees(lines, startPat, endPat, |lines|);
  }

  // ---------------------------------------------------------------------------
  // split_records: what it yields, by line positions

  /** The last line at or before `j` that holds the start pattern. */
  function LastStart(lines: seq<string>, startPat: string, j: nat): (r: Option<nat>)
    requires j < |lines|
    ensures r.Some? ==> r.value <= j && Contains(lines[r.value], startPat)
    ensures r.Some? ==> forall k :: r.value < k <= j ==> !Contains(lines[k], startPat)
    ensures r.None? ==> forall k :: 0 <= k <= j ==> !Contains(lines[k], startPat)
  {
    if Contains(lines[j], startPat) then Some(j)
    else if j == 0 then None
    else LastStart(lines, startPat, j - 1)
  }

  /** No line in `lines[a..b]` holds the end pattern. */
  predicate NoEndIn(lines: seq<string>, endPat: string, a: nat, b: nat)
    requires a <= b <= |lines|
  {
    forall k :: a <= k < b ==> !Contains(lines[k], endPat)
  }

  /** After line `j` a record is open: a start line at or before it, and no end line since. */
  predicate OpenAfter(lines: seq<string>, startPat: string, endPat: string, j: nat)
    requires j < |lines|
  {
    LastStart(lines, startPat, j).Some? && NoEndIn(lines, endPat, LastStart(lines, startPat, j).value, j + 1)
  }

  /** Line `j` closes a record: it holds the end pattern, and a record is open up to it. */
  predicate Closes(lines: seq<string>, startPat: string, endPat: string, j: nat)
    requires j < |lines|
  {
    Contains(lines[j], endPat) && LastStart(lines, startPat, j).Some?
    && NoEndIn(lines, endPat, LastStart(lines, startPat, j).value, j)
  }

  /** The record closed at line `j`: the lines from the last start line through `j`, concatenated. */
  function RecordAt(lines: seq<string>, startPat: string, endPat: string, j: nat): string
    requires j < |lines| && Closes(lines, startPat, endPat, j)
  {
    Concat(lines[LastStart(lines, startPat, j).value..j + 1])
  }

  /** The records closed within the first `n` lines, in order. */
  function RecordsUpTo(lines: seq<string>, startPat: string, endPat: string, n: nat): seq<string>
    requires n <= |lines|
  {
    if n == 0 then []
    else RecordsUpTo(lines, startPat, endPat, n - 1)
         + if Closes(lines, startPat, endPat, n - 1) then [RecordAt(lines, startPat, endPat, n - 1)] else []
  }

  /** The lines that close a record within the first `n` lines, in order. */
  function ClosingUpTo(lines: seq<string>, startPat: string, endPat: string, n: nat): seq<nat>
    requires n <= |lines|
  {
    if n == 0 then []
    else ClosingUpTo(lines, startPat, endPat, n - 1)
         + if Closes(lines, startPat, endPat, n - 1) then [n - 1] else []
  }

  /**
   * The scanner agrees with the line-position account after `n` lines: it
   * has yielded exactly the records closed so far, it is inside a record
   * exactly when one is open after line `n - 1`, and then its buffer is the
   * lines from that record's start line on.
   */
  ghost predicate Agrees(lines: seq<string>, startPat: string, endPat: string, n: nat)
    requires n <= |lines|
  {
    var s := ScanUpTo(lines, startPat, endPat, n);
    && s.records == RecordsUpTo(lines, startPat, endPat, n)
    && (s.inside <==> n > 0 && OpenAfter(lines, startPat, endPat, n - 1))
    && (s.inside ==> s.buffer == lines[LastStart(lines, startPat, n - 1).value..n])
  }

  /** A start line opens a fresh record, closed at once when it also holds the end pattern. */
  lemma StepAtStart(lines: seq<string>, startPat: string, endPat: string, j: nat)
    requires j < |lines| && Agrees(lines, startPat, endPat, j) && Contains(lines[j], startPat)
    ensures Agrees(lines, startPat, endPat, j + 1)
  {
    assert LastStart(lines, startPat, j) == Some(j);
    assert lines[j..j + 1] == [lines[j]];
  }

  /** Inside a record, a line is buffered, and closes the record when it holds the end pattern. */
  lemma StepInside(lines: seq<string>, startPat: string, endPat: string, j: nat)
    requires j < |lines| && Agrees(lines, startPat, endPat, j) && !Contains(lines[j], startPat)
    requires ScanUpTo(lines, startPat, endPat, j).inside
    ensures Agrees(lines, startPat, endPat, j + 1)
  {
    var i := LastStart(lines, startPat, j - 1).value;
    assert LastStart(lines, startPat, j) == Some(i);
    assert lines[i..j + 1] == lines[i..j] + [lines[j]];
    assert NoEndIn(lines, endPat, i, j);
  }

  /** Outside a record, a line without the start pattern changes nothing. */
  lemma StepOutside(lines: seq<string>, startPat: string, endPat: string, j: nat)
    requires j < |lines| && Agrees(lines, startPat, endPat, j) && !Contains(lines[j], startPat)
    requires !ScanUpTo(lines, startPat, endPat, j).inside
    ensures Agrees(lines, startPat, endPat, j + 1)
  {
    assert !Closes(lines, startPat, endPat, j) && !OpenAfter(lines, startPat, endPat, j) by {
      if j > 0 && LastStart(lines, startPat, j - 1).Some? {
        assert LastStart(lines, startPat, j) == LastStart(lines, startPat, j - 1);
        assert !NoEndIn(lines, endPat, LastStart(lines, startPat, j - 1).value, j);
      }
    }
  }

  /** The scanner agrees with the line-position account after any number of lines. */
  lemma {:induction false} ScanAgrees(lines: seq<string>, startPat: string, endPat: string, n: nat)
    requires n <= |lines|
    ensures Agrees(lines, startPat, endPat, n)
  {
    if n > 0 {
      var j := n - 1;
      ScanAgrees(lines, startPat, endPat, j);
      if Contains(lines[j], startPat) {
        StepAtStart(lines, startPat, endPat, j);
      } else if ScanUpTo(lines, startPat, endPat, j).inside {
        StepInside(lines, startPat, endPat, j);
      } else {
        StepOutside(lines, startPat, endPat, j);
      }
    }
  }

  /** The closing lines are increasing, each closes a record, and every closing line is among them. */
  lemma ClosingUpToFacts(lines: seq<string>, startPat: string, endPat: string, n: nat)
    requires n <= |lines|
    ensures var c := ClosingUpTo(lines, startPat, endPat, n);
      && |c| == |RecordsUpTo(lines, startPat, endPat, n)|
      && (forall k :: 0 <= k < |c| ==>
            && c[k] < n && Closes(lines, startPat, endPat, c[k])
            && RecordsUpTo(lines, startPat, endPat, n)[k] == RecordAt(lines, startPat, endPat, c[k]))
      && (forall k, l :: 0 <= k < l < |c| ==> c[k] < c[l])
      && (forall j :: 0 <= j < n && Closes(lines, startPat, endPat, j) ==> j in c)
  {
    ClosingRecords(lines, startPat, endPat, n);
    ClosingIncreasing(lines, startPat, endPat, n);
    ClosingComplete(lines, startPat, endPat, n);
  }

  /** The `k`-th record is the one closed at the `k`-th closing line. */
  lemma {:induction false} ClosingRecords(lines: seq<string>, startPat: string, endPat: string, n: nat)
    requires n <= |lines|
    ensures var c := ClosingUpTo(lines, startPat, endPat, n);
      && |c| == |RecordsUpTo(lines, startPat, endPat, n)|
      && (forall k :: 0 <= k < |c| ==>
            && c[k] < n && Closes(lines, startPat, endPat, c[k])
            && RecordsUpTo(lines, startPat, endPat, n)[k] == RecordAt(lines, startPat, endPat, c[k]))
  {
    if n > 0 {
      ClosingRecords(lines, startPat, endPat, n - 1);
    }
  }

  /** The closing lines are increasing. */
  lemma {:induction false} ClosingIncreasing(lines: seq<string>, startPat: string, endPat: string, n: nat)
    requires n <= |lines|
    ensures var c := ClosingUpTo(lines, startPat, endPat, n);
      forall k, l :: 0 <= k < l < |c| ==> c[k] < c[l]
  {
    if n > 0 {
      ClosingIncreasing(lines, startPat, endPat, n - 1);
      ClosingRecords(lines, startPat, endPat, n - 1);
    }
  }

  /** Every line that closes a record is a closing line. */
  lemma {:induction false} ClosingComplete(lines: seq<string>, startPat: string, endPat: string, n: nat)
    requires n <= |lines|
    ensures forall j :: 0 <= j < n && Closes(lines, startPat, endPat, j) ==> j in ClosingUpTo(lines, startPat, endPat, n)
  {
    if n > 0 {
      ClosingComplete(lines, startPat, endPat, n - 1);
    }
  }

  /**
   * A yielded record runs from a line with the start pattern to a line with
   * the end pattern: no line after its first holds the start pattern, no
   * line before its last holds the end pattern, and a single line holding
   * both is a record by itself.
   */
  lemma RecordAtFacts(lines: seq<string>, startPat: string, endPat: string, j: nat)
    requires j < |lines| && Closes(lines, startPat, endPat, j)
    ensures var i := LastStart(lines, startPat, j).value;
      && i <= j
      && Contains(lines[i], startPat) && Contains(lines[j], endPat)
      && (forall k :: i < k <= j ==> !Contains(lines[k], startPat))
      && (forall k :: i <= k < j ==> !Contains(lines[k], endPat))
      && RecordAt(lines, startPat, endPat, j) == Concat(lines[i..j + 1])
      && (i == j ==> RecordAt(lines, startPat, endPat, j) == lines[j])
  {
    var i := LastStart(lines, startPat, j).value;
    if i == j {
      assert lines[i..j + 1] == [lines[j]];
      assert Concat([lines[j]]) == lines[j] + Concat([]);
    }
  }

  /** A line holding both patterns yields itself as a record. */
  lemma OneLineRecord(lines: seq<string>, startPat: string, endPat: string, j: nat)
    requires j < |lines| && Contains(lines[j], startPat) && Contains(lines[j], endPat)
    ensures Closes(lines, startPat, endPat, j) && RecordAt(lines, startPat, endPat, j) == lines[j]
  {
    RecordAtFacts(lines, startPat, endPat, j);
  }

  /** Lines after the last end line, open record or not, yield nothing: an unterminated record is dropped. */
  lemma {:induction false} UnterminatedDropped(lines: seq<string>, startPat: string, endPat: string, m: nat)
    requires m <= |lines| && NoEndIn(lines, endPat, m, |lines|)
    ensures RecordsUpTo(lines, startPat, endPat, |lines|) == RecordsUpTo(lines, startPat, endPat, m)
    decreases |lines| - m
  {
    if m < |lines| {
      UnterminatedDropped(lines, startPat, endPat, m + 1);
      assert !Closes(lines, startPat, endPat, m);
    }
  }
}
