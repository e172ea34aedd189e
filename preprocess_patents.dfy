/**
 * Preprocessing of parsed patents into overlapping token chunks: the text
 * cleaner (tags out, whitespace collapsed, lower-cased, stripped), the
 * token filter, the overlapping chunker and the chunk records with their
 * `<doc_id>_chunk<i>` ids.
 */
module PreprocessPatents {
  import opened Base
  import opened Text
  import opened DocIds

  /** The chunker's defaults: 500 tokens per chunk, 50 shared between neighbours. */
  const ChunkSize: nat := 500
  const ChunkOverlap: nat := 50

  // ---------------------------------------------------------------------------
  // clean_text

  /** No `>` at or after index `i`. */
  predicate NoGtFrom(s: string, i: nat)
  {
    forall k :: i <= k < |s| ==> s[k] != '>'
  }

  /** The `<` at `i`, if there is one, is followed directly by `>` or by no `>` at all. */
  predicate OpensNoTag(s: string, i: nat)
    requires i < |s|
  {
    s[i] == '<' ==> (i + 1 < |s| && s[i + 1] == '>') || NoGtFrom(s, i + 1)
  }

  /** `<[^>]+>` matches nowhere in `s`. */
  predicate TagFree(s: string)
  {
    forall i: nat :: i < |s| ==> OpensNoTag(s, i)
  }

  /** The whitespace character at `i`, if there is one, is a plain space not followed by whitespace. */
  predicate LoneSpace(s: string, i: nat)
    requires i < |s|
  {
    IsSpace(s[i]) ==> s[i] == ' ' && (i + 1 < |s| ==> !IsSpace(s[i + 1]))
  }

  /** Every whitespace character is a single plain space. */
  predicate SingleSpaced(s: string)
  {
    forall i: nat :: i < |s| ==> LoneSpace(s, i)
  }

  /** Every character of `r` is a space or occurs in `s`. */
  predicate FromSpaceOr(r: string, s: string)
  {
    forall k :: 0 <= k < |r| ==> r[k] == ' ' || r[k] in s
  }

  /** The first index at or after `i` holding `>`, or `|s|` when there is none. */
  function NextGt(s: string, i: nat): (j: nat)
    requires i <= |s|
    ensures i <= j <= |s| && (j < |s| ==> s[j] == '>')
    ensures forall k :: i <= k < j ==> s[k] != '>'
    decreases |s| - i
  {
    if i == |s| || s[i] == '>' then i else NextGt(s, i + 1)
  }

  /**
   * Where the match of `<[^>]+>` at the start of `s` ends (exclusively):
   * the `<` followed by at least one character up to the first `>`.
   */
  function TagEnd(s: string): (e: Option<nat>)
    ensures e.Some? ==> 3 <= e.value <= |s| && s[0] == '<' && s[e.value - 1] == '>'
    ensures e.Some? ==> forall k :: 0 < k < e.value - 1 ==> s[k] != '>'
    ensures e.None? && |s| > 0 && s[0] == '<' ==>
      (|s| > 1 && s[1] == '>') || NoGtFrom(s, 1)
  {
    if |s| > 0 && s[0] == '<' then
      var j := NextGt(s, 1);
      if 2 <= j < |s| then Some(j + 1) else None
    else None
  }

  /** `re.sub(r"<[^>]+>", " ", s)`: each tag, scanned from the left, becomes one space. */
  function StripTags(s: string): (r: string)
    ensures FromSpaceOr(r, s)
    ensures s != [] && s[0] != '<' ==> r != [] && r[0] == s[0]
    decreases |s|
  {
    if s == [] then []
    else
      var e := TagEnd(s);
      if e.Some? then " " + StripTags(s[e.value..]) else [s[0]] + StripTags(s[1..])
  }

  /** `re.sub(r"\s+", " ", s)`: each run of whitespace becomes one space. */
  function Collapse(s: string): (r: string)
    ensures |r| > 0 <==> |s| > 0
    ensures s != [] ==> r[0] == (if IsSpace(s[0]) then ' ' else s[0])
    ensures FromSpaceOr(r, s)
    decreases |s|
  {
    if s == [] then []
    else if IsSpace(s[0]) then
      var t := TrimStart(s);
      " " + Collapse(t)
    else [s[0]] + Collapse(s[1..])
  }

  /** `clean_text`: "" for a missing or empty text, else tags out, whitespace collapsed, lower-cased, stripped. */
  function CleanText(text: Option<string>): string
  {
    if text.None? || text.value == [] then ""
    else Strip(Lower(Collapse(StripTags(text.value))))
  }

  /** Putting one character in front keeps a text tag-free unless it opens a tag. */
  lemma TagFreePrepend(c: char, r: string)
    requires TagFree(r)
    requires c == '<' ==> (|r| > 0 && r[0] == '>') || NoGtFrom(r, 0)
    ensures TagFree([c] + r)
  {
    var s := [c] + r;
    forall i: nat | i < |s| && s[i] == '<'
      ensures OpensNoTag(s, i)
    {
      if i > 0 {
        assert s[i] == r[i - 1];
        assert OpensNoTag(r, i - 1);
        if !(i + 1 < |s| && s[i + 1] == '>') {
          assert NoGtFrom(r, i);
          forall k | i < k < |s| ensures s[k] != '>' {
            assert s[k] == r[k - 1];
          }
        }
      } else if !(|r| > 0 && r[0] == '>') {
        assert NoGtFrom(r, 0);
        forall k | 0 < k < |s| ensures s[k] != '>' {
          assert s[k] == r[k - 1];
        }
      }
    }
  }

  /** A suffix of a tag-free text is tag-free. */
  lemma TagFreeSuffix(s: string, m: nat)
    requires TagFree(s) && m <= |s|
    ensures TagFree(s[m..])
  {
    var t := s[m..];
    forall i: nat | i < |t| && t[i] == '<'
      ensures OpensNoTag(t, i)
    {
      assert s[m + i] == '<';
      assert OpensNoTag(s, m + i);
      if !(i + 1 < |t| && t[i + 1] == '>') {
        assert NoGtFrom(s, m + i + 1);
        forall k | i < k < |t| ensures t[k] != '>' {
          assert t[k] == s[m + k];
        }
      }
    }
  }

  /** Tag substitution leaves no tag behind. */
  lemma {:induction false} StripTagsTagFree(s: string)
    ensures TagFree(StripTags(s))
    decreases |s|
  {
    if s != [] {
      var e := TagEnd(s);
      if e.Some? {
        StripTagsTagFree(s[e.value..]);
        TagFreePrepend(' ', StripTags(s[e.value..]));
      } else {
        var rest := StripTags(s[1..]);
        StripTagsTagFree(s[1..]);
        if s[0] == '<' {
          if !(|s| > 1 && s[1] == '>') {
            forall k | 0 <= k < |rest| ensures rest[k] != '>' {
              if rest[k] != ' ' {
                var q :| 0 <= q < |s[1..]| && s[1..][q] == rest[k];
                assert s[q + 1] == rest[k];
              }
            }
          }
        }
        TagFreePrepend(s[0], rest);
      }
    }
  }

  /** Collapsing whitespace creates no tag. */
  lemma {:induction false} CollapseTagFree(s: string)
    requires TagFree(s)
    ensures TagFree(Collapse(s))
    decreases |s|
  {
    if s != [] {
      if IsSpace(s[0]) {
        var t := TrimStart(s);
        TagFreeSuffix(s, |s| - |t|);
        CollapseTagFree(t);
        TagFreePrepend(' ', Collapse(t));
      } else {
        var rest := Collapse(s[1..]);
        TagFreeSuffix(s, 1);
        CollapseTagFree(s[1..]);
        if s[0] == '<' && !(|s| > 1 && s[1] == '>') {
          assert OpensNoTag(s, 0);
          assert NoGtFrom(s, 1);
          forall k | 0 <= k < |rest| ensures rest[k] != '>' {
            if rest[k] != ' ' {
              var q :| 0 <= q < |s[1..]| && s[1..][q] == rest[k];
              assert s[q + 1] == rest[k];
            }
          }
        }
        TagFreePrepend(s[0], rest);
      }
    }
  }

  /** After collapsing, whitespace is single plain spaces. */
  lemma {:induction false} CollapseSingleSpaced(s: string)
    ensures SingleSpaced(Collapse(s))
    decreases |s|
  {
    if s != [] {
      var r := Collapse(s);
      var t := if IsSpace(s[0]) then TrimStart(s) else s[1..];
      CollapseSingleSpaced(t);
      var rest := Collapse(t);
      assert r == [r[0]] + rest;
      forall i: nat | i < |r| && IsSpace(r[i])
        ensures LoneSpace(r, i)
      {
        if i > 0 {
          assert r[i] == rest[i - 1];
          assert LoneSpace(rest, i - 1);
          if i + 1 < |r| { assert r[i + 1] == rest[i]; }
        } else if i + 1 < |r| {
          assert r[1] == rest[0];
        }
      }
    }
  }

  /** No ASCII capital letter. */
  predicate NoUpper(s: string)
  {
    forall k :: 0 <= k < |s| ==> !IsUpper(s[k])
  }

  /** Lower-casing touches neither whitespace nor angle brackets, and leaves no capital. */
  lemma LowerKeeps(s: string)
    requires SingleSpaced(s) && TagFree(s)
    ensures SingleSpaced(Lower(s)) && TagFree(Lower(s)) && NoUpper(Lower(s))
  {
    var l := Lower(s);
    forall i: nat | i < |l| ensures LoneSpace(l, i) && OpensNoTag(l, i) {
      assert LoneSpace(s, i) && OpensNoTag(s, i);
      if l[i] == '<' && !(i + 1 < |l| && l[i + 1] == '>') {
        assert NoGtFrom(s, i + 1);
      }
    }
  }

  /** A slice keeps single spacing, tag freedom and the absence of capitals. */
  lemma SliceKeeps(s: string, a: nat, b: nat)
    requires a <= b <= |s| && SingleSpaced(s) && TagFree(s) && NoUpper(s)
    ensures SingleSpaced(s[a..b]) && TagFree(s[a..b]) && NoUpper(s[a..b])
  {
    var t := s[a..b];
    forall i: nat | i < |t| && IsSpace(t[i]) ensures LoneSpace(t, i) {
      assert t[i] == s[a + i];
      assert LoneSpace(s, a + i);
      if i + 1 < |t| { assert t[i + 1] == s[a + i + 1]; }
    }
    forall i: nat | i < |t| && t[i] == '<'
      ensures OpensNoTag(t, i)
    {
      assert s[a + i] == '<';
      assert OpensNoTag(s, a + i);
      if i + 1 < |t| && t[i + 1] != '>' {
        assert t[i + 1] == s[a + i + 1];
        assert NoGtFrom(s, a + i + 1);
        forall k | i < k < |t| ensures t[k] != '>' {
          assert t[k] == s[a + k];
        }
      }
    }
    forall k | 0 <= k < |t| ensures !IsUpper(t[k]) {
      assert t[k] == s[a + k];
    }
  }

  /** `strip()` keeps a contiguous slice. */
  lemma StripIsSlice(s: string) returns (a: nat, b: nat)
    ensures a <= b <= |s| && Strip(s) == s[a..b]
  {
    a := |s| - |TrimStart(s)|;
    b := a + |Strip(s)|;
  }

  /** `strip()` keeps single spacing, tag freedom and the absence of capitals. */
  lemma StripKeeps(s: string)
    requires SingleSpaced(s) && TagFree(s) && NoUpper(s)
    ensures SingleSpaced(Strip(s)) && TagFree(Strip(s)) && NoUpper(Strip(s))
  {
    var a, b := StripIsSlice(s);
    SliceKeeps(s, a, b);
  }

  /**
   * A cleaned text is "" for a missing or empty input; otherwise it has no
   * leading or trailing whitespace, every whitespace character is a single
   * space between two non-space characters, no ASCII capital remains and no
   * `<...>` tag remains.
   */
  lemma CleanTextFacts(text: Option<string>)
    ensures text.None? || text == Some("") ==> CleanText(text) == ""
    ensures var r := CleanText(text); r == [] || (!IsSpace(r[0]) && !IsSpace(r[|r| - 1]))
    ensures SingleSpaced(CleanText(text)) && TagFree(CleanText(text)) && NoUpper(CleanText(text))
  {
    if text.Some? && text.value != [] {
      var u := StripTags(text.value);
      var c := Collapse(u);
      var l := Lower(c);
      assert CleanText(text) == Strip(l);
      assert SingleSpaced(c) && TagFree(c) by {
        StripTagsTagFree(text.value);
        CollapseTagFree(u);
        CollapseSingleSpaced(u);
      }
      assert SingleSpaced(l) && TagFree(l) && NoUpper(l) by { LowerKeeps(c); }
      StripKeeps(l);
    }
  }

  // ---------------------------------------------------------------------------
  // tokenize_and_filter

  /** `t.isalnum()` restricted to ASCII letters and digits. */
  predicate IsAlnum(t: string)
  {
    |t| > 0 && forall i :: 0 <= i < |t| ==> IsLetter(t[i]) || IsDigit(t[i])
  }

  /** The tokens kept for indexing: alphanumeric and not a stop word, in order. */
  function KeptTokens(tokens: seq<string>, stopwords: set<string>): (r: seq<string>)
    ensures |r| <= |tokens|
    ensures forall t :: t in r <==> t in tokens && IsAlnum(t) && t !in stopwords
    decreases |tokens|
  {
    if tokens == [] then []
    else
      var n := |tokens| - 1;
      assert tokens == tokens[..n] + [tokens[n]];
      KeptTokens(tokens[..n], stopwords) + if IsAlnum(tokens[n]) && tokens[n] !in stopwords then [tokens[n]] else []
  }

  // ---------------------------------------------------------------------------
  // chunk_tokens

  function Min(a: int, b: int): int { if a < b then a else b }

  /** The chunks the generator yields from cursor `start` on. */
  function Chunks<T>(tokens: seq<T>, size: nat, overlap: nat, start: nat): seq<seq<T>>
    requires overlap < size
    decreases |tokens| - start
  {
    if start >= |tokens| then []
    else
      var end := Min(start + size, |tokens|);
      [tokens[start..end]] + if end == |tokens| then [] else Chunks(tokens, size, overlap, end - overlap)
  }

  /** Where the `i`-th chunk after cursor `start` begins: `i` steps of `size - overlap`. */
  function Offset(start: nat, i: nat, size: nat, overlap: nat): nat
    requires overlap < size
  {
    start + i * (size - overlap)
  }

  /**
   * Chunk `i` of the chunks `r` from cursor `start` is the slice of at most
   * `size` tokens beginning at `Offset(start, i, ...)`; it is full and ends
   * before the input does unless it is the last, and the last one ends with
   * the input.
   */
  ghost predicate SliceAt<T>(tokens: seq<T>, size: nat, overlap: nat, start: nat, r: seq<seq<T>>, i: nat)
    requires overlap < size && i < |r|
  {
    var a := Offset(start, i, size, overlap);
    && a < |tokens|
    && r[i] == tokens[a..Min(a + size, |tokens|)]
    && (i + 1 < |r| ==> a + size < |tokens|)
    && (i + 1 == |r| ==> a + size >= |tokens|)
  }

  /** From cursor `start` there are chunks exactly when the cursor is inside the input, and each is its slice. */
  lemma {:induction false} ChunksFrom<T>(tokens: seq<T>, size: nat, overlap: nat, start: nat)
    requires overlap < size
    ensures var r := Chunks(tokens, size, overlap, start);
      && (r == [] <==> start >= |tokens|)
      && (forall i: nat :: i < |r| ==> SliceAt(tokens, size, overlap, start, r, i))
    decreases |tokens| - start
  {
    if start < |tokens| {
      var end := Min(start + size, |tokens|);
      var r := Chunks(tokens, size, overlap, start);
      assert Offset(start, 0, size, overlap) == start;
      if end < |tokens| {
        var next := end - overlap;
        var rest := Chunks(tokens, size, overlap, next);
        ChunksFrom(tokens, size, overlap, next);
        assert r == [tokens[start..end]] + rest;
        forall i: nat | i < |r| ensures SliceAt(tokens, size, overlap, start, r, i) {
          if i > 0 {
            assert r[i] == rest[i - 1];
            assert SliceAt(tokens, size, overlap, next, rest, i - 1);
            assert Offset(start, i, size, overlap) == Offset(next, i - 1, size, overlap) by {
              assert i * (size - overlap) == (i - 1) * (size - overlap) + (size - overlap);
            }
          }
        }
      }
    }
  }

  /** `chunk_tokens` yields nothing exactly when there are no tokens. */
  lemma ChunkTokensEmpty<T>(tokens: seq<T>, size: nat, overlap: nat)
    requires overlap < size
    ensures Chunks(tokens, size, overlap, 0) == [] <==> tokens == []
  {
    ChunksFrom(tokens, size, overlap, 0);
  }

  /** Each chunk is a contiguous slice of 1 to `size` tokens beginning `i * (size - overlap)` tokens in. */
  lemma ChunkTokensSlice<T>(tokens: seq<T>, size: nat, overlap: nat, i: nat)
    requires overlap < size && i < |Chunks(tokens, size, overlap, 0)|
    ensures var c := Chunks(tokens, size, overlap, 0)[i];
      var a := Offset(0, i, size, overlap);
      && 1 <= |c| <= size && a + |c| <= |tokens|
      && c == tokens[a..a + |c|]
  {
    ChunkAt(tokens, size, overlap, i);
  }

  /** The first chunk starts at the first token and the last one ends at the last token. */
  lemma ChunkTokensEnds<T>(tokens: seq<T>, size: nat, overlap: nat)
    requires overlap < size && Chunks(tokens, size, overlap, 0) != []
    ensures var r := Chunks(tokens, size, overlap, 0);
      && |r[0]| <= |tokens| && r[0] == tokens[..|r[0]|]
      && |r[|r| - 1]| <= |tokens| && r[|r| - 1] == tokens[|tokens| - |r[|r| - 1]|..]
  {
    var r := Chunks(tokens, size, overlap, 0);
    ChunkAt(tokens, size, overlap, 0);
    var l := |r| - 1;
    ChunkAt(tokens, size, overlap, l);
  }

  /**
   * What `chunk_tokens` yields: nothing for no tokens; otherwise contiguous
   * slices of 1 to `size` tokens, the `i`-th beginning `i * (size - overlap)`
   * tokens in, the first at 0 and the last ending at the last token.
   */
  lemma ChunkTokensFacts<T>(tokens: seq<T>, size: nat, overlap: nat)
    requires overlap < size
    ensures var r := Chunks(tokens, size, overlap, 0);
      && (r == [] <==> tokens == [])
      && (forall i: nat :: i < |r| ==>
            1 <= |r[i]| <= size && i * (size - overlap) + |r[i]| <= |tokens|
            && r[i] == tokens[i * (size - overlap)..i * (size - overlap) + |r[i]|])
      && (r != [] ==> r[0] == tokens[..|r[0]|] && r[|r| - 1] == tokens[|tokens| - |r[|r| - 1]|..])
  {
    ChunkTokensEmpty(tokens, size, overlap);
    forall i: nat | i < |Chunks(tokens, size, overlap, 0)| {
      ChunkTokensSlice(tokens, size, overlap, i);
    }
    if Chunks(tokens, size, overlap, 0) != [] {
      ChunkTokensEnds(tokens, size, overlap);
    }
  }

  /**
   * Chunk `i` holds `size` tokens and its last `overlap` tokens are the
   * first `overlap` of chunk `i + 1`.
   */
  ghost predicate SharedWithNext<T>(r: seq<seq<T>>, i: nat, size: nat, overlap: nat)
    requires overlap < size
  {
    i + 1 < |r| ==> |r[i]| == size && |r[i + 1]| >= overlap && r[i][size - overlap..] == r[i + 1][..overlap]
  }

  /** Chunk `i` of a cursor's chunks and what `ChunksFrom` says about it. */
  lemma ChunkAt<T>(tokens: seq<T>, size: nat, overlap: nat, i: nat)
    requires overlap < size && i < |Chunks(tokens, size, overlap, 0)|
    ensures var r := Chunks(tokens, size, overlap, 0);
      var a := Offset(0, i, size, overlap);
      && a < |tokens| && r[i] == tokens[a..Min(a + size, |tokens|)]
      && (i + 1 < |r| ==> a + size < |tokens|)
      && (i + 1 == |r| ==> a + size >= |tokens|)
  {
    ChunksFrom(tokens, size, overlap, 0);
    assert SliceAt(tokens, size, overlap, 0, Chunks(tokens, size, overlap, 0), i);
  }

  /** Every chunk but the last is full and shares exactly `overlap` tokens with the next. */
  lemma ChunksOverlap<T>(tokens: seq<T>, size: nat, overlap: nat)
    requires overlap < size
    ensures forall i: nat :: SharedWithNext(Chunks(tokens, size, overlap, 0), i, size, overlap)
  {
    var r := Chunks(tokens, size, overlap, 0);
    forall i: nat ensures SharedWithNext(r, i, size, overlap) {
      if i + 1 < |r| {
        var a := Offset(0, i, size, overlap);
        var b := Offset(0, i + 1, size, overlap);
        assert b == a + (size - overlap) by {
          assert (i + 1) * (size - overlap) == i * (size - overlap) + (size - overlap);
        }
        ChunkAt(tokens, size, overlap, i);
        assert r[i] == tokens[a..a + size];
        ChunkAt(tokens, size, overlap, i + 1);
        assert r[i + 1] == tokens[b..Min(b + size, |tokens|)];
        assert r[i][size - overlap..] == tokens[b..a + size];
      }
    }
  }

  /** The generator's loop: a cursor that moves back by `overlap` after every chunk but the last. */
  method ChunkTokens<T>(tokens: seq<T>, size: nat, overlap: nat) returns (chunks: seq<seq<T>>)
    requires overlap < size
    ensures chunks == Chunks(tokens, size, overlap, 0)
  {
    chunks := [];
    var start := 0;
    while start < |tokens|
      invariant chunks + Chunks(tokens, size, overlap, start) == Chunks(tokens, size, overlap, 0)
      decreases |tokens| - start
    {
      var end := Min(start + size, |tokens|);
      chunks := chunks + [tokens[start..end]];
      if end == |tokens| {
        break;
      }
      start := end - overlap;
    }
  }

  // ---------------------------------------------------------------------------
  // process_file

  /** The text fields of one parsed patent, each possibly missing or null; `summary` is the `abstract` field. */
  datatype Patent = Patent(docId: Option<string>, title: Option<string>, summary: Option<string>,
                           claims: Option<string>, description: Option<string>)

  /** One line of the chunk file. */
  datatype ChunkRecord = ChunkRecord(docId: Option<string>, chunkId: string, text: string)

  /** The id as an f-string shows it; a null id prints as "None". */
  function IdText(d: Option<string>): string
  {
    if d.Some? then d.value else "None"
  }

  /** The four cleaned fields joined by single spaces. */
  function CombinedText(p: Patent): string
  {
    Join(" ", [CleanText(p.title), CleanText(p.summary), CleanText(p.claims), CleanText(p.description)])
  }

  /**
   * The records written for one patent; the word tokenizer and the stop-word
   * list are parameters.
   */
  function ChunkRecords(p: Patent, tokenize: string -> seq<string>, stopwords: set<string>): seq<ChunkRecord>
  {
    var chunks := Chunks(KeptTokens(tokenize(CombinedText(p)), stopwords), ChunkSize, ChunkOverlap, 0);
    seq(|chunks|, i requires 0 <= i < |chunks| => ChunkRecord(p.docId, ChunkId(IdText(p.docId), i), Join(" ", chunks[i])))
  }

  /**
   * One record per chunk, in order: the `i`-th carries the patent's id, the
   * chunk id `<doc_id>_chunk<i>` and its chunk's tokens joined by spaces.
   */
  lemma ChunkRecordsFacts(p: Patent, tokenize: string -> seq<string>, stopwords: set<string>)
    ensures var chunks := Chunks(KeptTokens(tokenize(CombinedText(p)), stopwords), ChunkSize, ChunkOverlap, 0);
      var r := ChunkRecords(p, tokenize, stopwords);
      && |r| == |chunks|
      && forall i :: 0 <= i < |r| ==>
           && r[i].docId == p.docId
           && r[i].chunkId == IdText(p.docId) + "_chunk" + NatToString(i)
           && r[i].text == Join(" ", chunks[i])
  {
  }

  /** Every chunk id maps back to the patent's id when that id holds no "_chunk". */
  lemma ChunkRecordsBaseIds(p: Patent, tokenize: string -> seq<string>, stopwords: set<string>)
    requires p.docId.Some? && !Contains(p.docId.value, ChunkMarker)
    ensures var r := ChunkRecords(p, tokenize, stopwords);
      forall i :: 0 <= i < |r| ==> BaseDocId(r[i].chunkId) == p.docId.value
  {
    var r := ChunkRecords(p, tokenize, stopwords);
    forall i | 0 <= i < |r| ensures BaseDocId(r[i].chunkId) == p.docId.value {
      BaseOfChunkId(p.docId.value, i);
    }
  }
}
