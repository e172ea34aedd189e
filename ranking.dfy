/**
 * Ranked result lists as the search code builds them: a hit is a document id
 * with a score and a payload; lists are ordered by Python's stable
 * `sort(key=score, reverse=True)`, cut with `[:top_k]`, and keyed in
 * insertion-ordered dictionaries.
 */
module Ranking {
  import opened Base

  /** One candidate: a document or chunk id, its score and what travels with it. */
  datatype Hit<M> = Hit(id: string, score: real, meta: M)

  function Ids<M>(s: seq<Hit<M>>): (r: seq<string>)
    ensures |r| == |s|
    ensures forall i :: 0 <= i < |s| ==> r[i] == s[i].id
  {
    seq(|s|, i requires 0 <= i < |s| => s[i].id)
  }

  predicate SortedDesc<M>(s: seq<Hit<M>>)
  {
    forall i, j :: 0 <= i < j < |s| ==> s[i].score >= s[j].score
  }

  /** No id occurs twice. */
  predicate DistinctIds<M>(s: seq<Hit<M>>)
  {
    forall i, j :: 0 <= i < j < |s| ==> s[i].id != s[j].id
  }

  /** Places `x` into a descending list, in front of every element that does not outscore it. */
  function InsertDesc<M>(x: Hit<M>, s: seq<Hit<M>>): (r: seq<Hit<M>>)
    ensures |r| == |s| + 1
  {
    if s == [] || s[0].score <= x.score then [x] + s else [s[0]] + InsertDesc(x, s[1..])
  }

  /**
   * `sorted(s, key=score, reverse=True)`: a stable insertion sort, each element
   * inserted ahead of the later elements that tie with it.
   */
  function SortDesc<M>(s: seq<Hit<M>>): (r: seq<Hit<M>>)
    ensures |r| == |s|
  {
    if s == [] then [] else InsertDesc(s[0], SortDesc(s[1..]))
  }

  /** The elements of `s` whose score is `v`, in order. */
  function WithScore<M>(s: seq<Hit<M>>, v: real): seq<Hit<M>>
  {
    if s == [] then []
    else if s[0].score == v then [s[0]] + WithScore(s[1..], v)
    else WithScore(s[1..], v)
  }

  /** `s[:k]`. */
  function Take<T>(s: seq<T>, k: nat): (r: seq<T>)
    ensures |r| == if k < |s| then k else |s|
    ensures r == s[..|r|]
  {
    if k < |s| then s[..k] else s
  }

  /** The length of `s[:k]` for a list of length `n` and any integer `k`. */
  function SliceLen(n: nat, k: int): nat
  {
    if k >= 0 then (if k < n then k else n)
    else if n + k > 0 then n + k else 0
  }

  /** `s[:k]` for any integer `k`: a negative `k` drops the last `-k` elements. */
  function SliceTo<T>(s: seq<T>, k: int): (r: seq<T>)
    ensures |r| == SliceLen(|s|, k)
    ensures r == s[..|r|]
  {
    s[..SliceLen(|s|, k)]
  }

  /** A retriever: the hits for a query and a requested count, or the exception it raised. */
  type Retriever<M> = (string, int) -> Result<seq<Hit<M>>>

  /** `{h.id: h for h in hits}` as a lookup: each id of the list maps to its last hit. */
  function Latest<M>(hits: seq<Hit<M>>): (m: map<string, Hit<M>>)
    ensures forall id :: id in m <==> id in Ids(hits)
    ensures forall id :: id in m ==> m[id].id == id
    ensures hits != [] ==> m[hits[|hits| - 1].id] == hits[|hits| - 1]
    decreases |hits|
  {
    if hits == [] then map[]
    else
      var last := hits[|hits| - 1];
      IdsInit(hits);
      Latest(hits[..|hits| - 1])[last.id := last]
  }

  /** The TF-IDF weight of an `alpha` mix, `alpha` being the semantic weight: `1 - alpha`. */
  function TfidfShare(alpha: real): real
  {
    1.0 - alpha
  }

  lemma IdsAppend<M>(s: seq<Hit<M>>, x: Hit<M>)
    ensures Ids(s + [x]) == Ids(s) + [x.id]
  {
    assert forall i :: 0 <= i < |s| + 1 ==> Ids(s + [x])[i] == (Ids(s) + [x.id])[i];
  }

  /** The ids of a non-empty list: those of all but its last hit, then its last hit's. */
  lemma IdsInit<M>(hits: seq<Hit<M>>)
    requires hits != []
    ensures Ids(hits) == Ids(hits[..|hits| - 1]) + [hits[|hits| - 1].id]
  {
    var n := |hits| - 1;
    assert Ids(hits) == Ids(hits[..n]) + [hits[n].id];
  }

  /** The ids of one more element of a list. */
  lemma IdsPrefixStep<M>(hits: seq<Hit<M>>, i: nat)
    requires i < |hits|
    ensures Ids(hits[..i + 1]) == Ids(hits[..i]) + [hits[i].id]
  {
    assert hits[..i + 1][..i] == hits[..i];
    IdsInit(hits[..i + 1]);
  }


  /** The ids of a hit put in front of a list. */
  lemma IdsCons<M>(x: Hit<M>, s: seq<Hit<M>>)
    ensures Ids([x] + s) == [x.id] + Ids(s)
  {
    assert ([x] + s)[1..] == s;
  }

  /** Appending a hit whose id is new keeps the ids distinct. */
  lemma AppendFresh<M>(s: seq<Hit<M>>, x: Hit<M>)
    requires DistinctIds(s) && x.id !in Ids(s)
    ensures DistinctIds(s + [x])
    ensures Ids(s + [x]) == Ids(s) + [x.id]
  {
    IdsAppend(s, x);
    forall i | 0 <= i < |s| ensures s[i].id != x.id {
      assert Ids(s)[i] == s[i].id;
    }
  }

  /** A list of distinct ids has as many ids as entries. */
  lemma DistinctIdsCard<M>(s: seq<Hit<M>>)
    requires DistinctIds(s)
    ensures |set id | id in Ids(s)| == |s|
  {
    DistinctCard(Ids(s));
  }


  lemma {:induction false} InsertDescSorted<M>(x: Hit<M>, s: seq<Hit<M>>)
    requires SortedDesc(s)
    ensures SortedDesc(InsertDesc(x, s))
    ensures InsertDesc(x, s)[0] == x || (s != [] && InsertDesc(x, s)[0] == s[0])
  {
    if s == [] || s[0].score <= x.score {
    } else {
      InsertDescSorted(x, s[1..]);
    }
  }

  /** The result of the sort is in descending score order. */
  lemma {:induction false} SortDescSorted<M>(s: seq<Hit<M>>)
    ensures SortedDesc(SortDesc(s))
  {
    if s != [] {
      SortDescSorted(s[1..]);
      InsertDescSorted(s[0], SortDesc(s[1..]));
    }
  }

  lemma {:induction false} InsertDescPerm<M>(x: Hit<M>, s: seq<Hit<M>>)
    ensures multiset(InsertDesc(x, s)) == multiset(s) + multiset{x}
  {
    if s == [] || s[0].score <= x.score {
    } else {
      InsertDescPerm(x, s[1..]);
      assert s == [s[0]] + s[1..];
    }
  }

  /** The sort only reorders: the same hits, each as often as before. */
  lemma {:induction false} SortDescPerm<M>(s: seq<Hit<M>>)
    ensures multiset(SortDesc(s)) == multiset(s)
  {
    if s != [] {
      SortDescPerm(s[1..]);
      InsertDescPerm(s[0], SortDesc(s[1..]));
      assert s == [s[0]] + s[1..];
    }
  }

  lemma {:induction false} InsertDescStable<M>(x: Hit<M>, s: seq<Hit<M>>, v: real)
    requires SortedDesc(s)
    ensures WithScore(InsertDesc(x, s), v) == if x.score == v then [x] + WithScore(s, v) else WithScore(s, v)
  {
    if s == [] || s[0].score <= x.score {
      assert InsertDesc(x, s) == [x] + s;
      assert ([x] + s)[1..] == s;
    } else {
      InsertDescStable(x, s[1..], v);
      assert InsertDesc(x, s)[1..] == InsertDesc(x, s[1..]);
      if x.score == v {
        // every element ahead of the insertion point outscores x, so none of them has score v
        assert s[0].score != v;
      }
    }
  }

  /** Stability: hits that tie keep their original relative order. */
  lemma {:induction false} SortDescStable<M>(s: seq<Hit<M>>, v: real)
    ensures WithScore(SortDesc(s), v) == WithScore(s, v)
  {
    if s != [] {
      SortDescStable(s[1..], v);
      SortDescSorted(s[1..]);
      InsertDescStable(s[0], SortDesc(s[1..]), v);
    }
  }

  /** Cutting a list keeps, at every score, a prefix of the hits with that score. */
  lemma {:induction false} WithScorePrefix<M>(s: seq<Hit<M>>, n: nat, v: real)
    requires n <= |s|
    ensures WithScore(s[..n], v) <= WithScore(s, v)
  {
    if n > 0 {
      assert s[..n][0] == s[0];
      assert s[..n][1..] == s[1..][..n - 1];
      WithScorePrefix(s[1..], n - 1, v);
    }
  }

  lemma {:induction false} InsertDescIds<M>(x: Hit<M>, s: seq<Hit<M>>)
    ensures multiset(Ids(InsertDesc(x, s))) == multiset(Ids(s)) + multiset{x.id}
  {
    if s == [] || s[0].score <= x.score {
      assert InsertDesc(x, s) == [x] + s;
      IdsCons(x, s);
    } else {
      var rest := InsertDesc(x, s[1..]);
      assert multiset(Ids(rest)) == multiset(Ids(s[1..])) + multiset{x.id} by { InsertDescIds(x, s[1..]); }
      assert InsertDesc(x, s) == [s[0]] + rest;
      assert Ids(InsertDesc(x, s)) == [s[0].id] + Ids(rest) by { IdsCons(s[0], rest); }
      assert Ids(s) == [s[0].id] + Ids(s[1..]);
    }
  }

  /** Sorting keeps every id, as often as it occurred. */
  lemma {:induction false} SortDescIds<M>(s: seq<Hit<M>>)
    ensures multiset(Ids(SortDesc(s))) == multiset(Ids(s))
  {
    if s != [] {
      SortDescIds(s[1..]);
      InsertDescIds(s[0], SortDesc(s[1..]));
      assert Ids(s) == [s[0].id] + Ids(s[1..]);
    }
  }

  lemma {:induction false} InsertDescDistinct<M>(x: Hit<M>, s: seq<Hit<M>>)
    requires DistinctIds(s)
    requires forall k :: 0 <= k < |s| ==> s[k].id != x.id
    ensures DistinctIds(InsertDesc(x, s))
  {
    if s != [] && s[0].score > x.score {
      InsertDescDistinct(x, s[1..]);
      InsertDescPerm(x, s[1..]);
      var r := InsertDesc(x, s[1..]);
      forall j | 0 <= j < |r| ensures r[j].id != s[0].id {
        assert r[j] in multiset(r);
      }
    }
  }

  /** Sorting a list with distinct ids yields a list with distinct ids. */
  lemma {:induction false} SortDescDistinct<M>(s: seq<Hit<M>>)
    requires DistinctIds(s)
    ensures DistinctIds(SortDesc(s))
  {
    if s != [] {
      SortDescDistinct(s[1..]);
      SortDescPerm(s[1..]);
      var r := SortDesc(s[1..]);
      forall j | 0 <= j < |r| ensures r[j].id != s[0].id {
        assert r[j] in multiset(r);
      }
      InsertDescDistinct(s[0], r);
    }
  }

  /** A prefix of a sorted list is sorted and drawn from the list. */
  lemma PrefixOfSorted<M>(sorted: seq<Hit<M>>, n: nat)
    requires SortedDesc(sorted) && n <= |sorted|
    ensures SortedDesc(sorted[..n])
    ensures DistinctIds(sorted) ==> DistinctIds(sorted[..n])
  {
  }

  /** Every hit whose id is missing from a prefix of a sorted list scores no higher than the prefix. */
  lemma CutScoresLower<M>(sorted: seq<Hit<M>>, n: nat, x: Hit<M>)
    requires SortedDesc(sorted) && n <= |sorted|
    requires x in sorted && x.id !in Ids(sorted[..n])
    ensures forall i :: 0 <= i < n ==> x.score <= sorted[i].score
  {
    var top := sorted[..n];
    forall j | 0 <= j < n ensures sorted[j].id != x.id {
      assert Ids(top)[j] == top[j].id;
    }
    var j :| 0 <= j < |sorted| && sorted[j] == x;
    assert n <= j;
  }

  /**
   * The first `k` (as `[:k]` counts) of a list sorted by score: sorted,
   * drawn from the list, distinct when the list is, and outscoring or tying
   * every hit whose id was cut.
   */
  lemma TopOfSorted<M>(s: seq<Hit<M>>, k: int)
    ensures var top := SliceTo(SortDesc(s), k);
      && SortedDesc(top)
      && |top| == SliceLen(|s|, k)
      && (forall i :: 0 <= i < |top| ==> top[i] in s)
      && (DistinctIds(s) ==> DistinctIds(top))
      && (forall x, i :: x in s && x.id !in Ids(top) && 0 <= i < |top| ==> x.score <= top[i].score)
  {
    var sorted := SortDesc(s);
    var n := SliceLen(|s|, k);
    SortDescSorted(s);
    SortDescPerm(s);
    if DistinctIds(s) {
      SortDescDistinct(s);
    }
    PrefixOfSorted(sorted, n);
    forall i | 0 <= i < n ensures sorted[i] in s {
      assert sorted[i] in multiset(s);
    }
    forall x | x in s && x.id !in Ids(sorted[..n]) ensures forall i :: 0 <= i < n ==> x.score <= sorted[i].score {
      assert x in multiset(sorted);
      CutScoresLower(sorted, n, x);
    }
  }
}
