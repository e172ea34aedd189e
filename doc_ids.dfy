/**
 * Chunk ids and the document ids they belong to. Preprocessing names the
 * i-th chunk of document `d` as `d + "_chunk" + str(i)`; every search path
 * recovers the document id as the text before the first `"_chunk"`.
 */
module DocIds {
  import opened Base
  import opened Text

  const ChunkMarker: string := "_chunk"

  /** `doc_id.split('_chunk')[0] if '_chunk' in doc_id else doc_id`. */
  function BaseDocId(id: string): string
  {
    match IndexOf(id, ChunkMarker)
    case None => id
    case Some(k) => id[..k]
  }

  /**
   * The base id is a prefix of the id without the marker: the whole id when
   * it has no marker, else the text up to the marker's first occurrence.
   */
  lemma BaseDocIdFacts(id: string)
    ensures var r := BaseDocId(id);
      && StartsWith(id, r)
      && !Contains(r, ChunkMarker)
      && (!Contains(id, ChunkMarker) ==> r == id)
      && (Contains(id, ChunkMarker) ==> OccursAt(id, ChunkMarker, |r|))
  {
    match IndexOf(id, ChunkMarker)
    case None =>
    case Some(k) =>
      PrefixHasNoMarker(id, k);
  }

  /** Before the first occurrence of the marker, a prefix cannot contain it. */
  lemma PrefixHasNoMarker(id: string, k: nat)
    requires k <= |id|
    requires forall j :: 0 <= j < k ==> !OccursAt(id, ChunkMarker, j)
    ensures !Contains(id[..k], ChunkMarker)
  {
    forall j | OccursAt(id[..k], ChunkMarker, j) ensures false {
      assert id[..k][j..j + |ChunkMarker|] == id[j..j + |ChunkMarker|];
      assert OccursAt(id, ChunkMarker, j);
    }
  }

  /** The marker cannot start before an underscore and cover it: "chunk" has none. */
  lemma NoStraddle(c: string, u: nat, j: nat)
    requires j < u < |c| && c[u] == '_' && u < j + |ChunkMarker|
    ensures !OccursAt(c, ChunkMarker, j)
  {
    if j + |ChunkMarker| <= |c| {
      assert c[j..j + |ChunkMarker|][u - j] == c[u];
    }
  }

  /** Deriving the base id twice changes nothing. */
  lemma BaseDocIdIdempotent(id: string)
    ensures BaseDocId(BaseDocId(id)) == BaseDocId(id)
  {
    BaseDocIdFacts(id);
  }

  /** The id of the `i`-th chunk of document `d`. */
  function ChunkId(d: string, i: nat): (r: string)
    ensures StartsWith(r, d)
  {
    d + ChunkMarker + NatToString(i)
  }

  /**
   * Round trip: a chunk id maps back to its document, provided the document id
   * does not itself contain the marker.
   */
  lemma BaseOfChunkId(d: string, i: nat)
    requires !Contains(d, ChunkMarker)
    ensures BaseDocId(ChunkId(d, i)) == d
  {
    var c := ChunkId(d, i);
    assert OccursAt(c, ChunkMarker, |d|) by {
      assert c[|d|..|d| + |ChunkMarker|] == ChunkMarker;
    }
    // a match straddling the end of d would need the marker's underscore inside "chunk"
    forall j | 0 <= j < |d| ensures !OccursAt(c, ChunkMarker, j) {
      if OccursAt(c, ChunkMarker, j) && j + |ChunkMarker| <= |d| {
        assert d[j..j + |ChunkMarker|] == c[j..j + |ChunkMarker|];
        assert OccursAt(d, ChunkMarker, j);
      }
      if |d| < j + |ChunkMarker| {
        NoStraddle(c, |d|, j);
      }
    }
    assert IndexOf(c, ChunkMarker) == Some(|d|);
    assert c[..|d|] == d;
  }
}
