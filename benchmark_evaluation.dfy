/**
 * The ranking metrics of the benchmark evaluation: precision and recall at a
 * cut-off, mean average precision at a cut-off and reciprocal rank, each
 * comparing a list of retrieved document ids with a list of relevant ones.
 */
module BenchmarkEvaluation {
  import opened Base
  import opened Stats

  /** `s[:k]` with Python's slice rules: a negative `k` drops that many entries from the end. */
  function Take(s: seq<string>, k: int): (r: seq<string>)
    ensures 0 <= k ==> r == s[..if k < |s| then k else |s|]
    ensures k < 0 ==> r == s[..if |s| + k > 0 then |s| + k else 0]
  {
    if 0 <= k then s[..if k < |s| then k else |s|]
    else s[..if |s| + k > 0 then |s| + k else 0]
  }

  /** `set(relevant) & set(retrieved[:k])`. */
  function RelevantRetrieved(relevant: seq<string>, retrieved: seq<string>, k: int): set<string>
  {
    SetOf(relevant) * SetOf(Take(retrieved, k))
  }

  /** `precision_at_k`: 0 for `k == 0`, else the relevant documents among the first `k`, over `k`. */
  function PrecisionAtK(relevant: seq<string>, retrieved: seq<string>, k: int): real
  {
    if k == 0 then 0.0 else |RelevantRetrieved(relevant, retrieved, k)| as real / k as real
  }

  /** `recall_at_k`: 0 without relevant documents, else the relevant documents among the first `k`, over their number. */
  function RecallAtK(relevant: seq<string>, retrieved: seq<string>, k: int): real
  {
    if |relevant| == 0 then 0.0 else |RelevantRetrieved(relevant, retrieved, k)| as real / |relevant| as real
  }

  /** The relevant documents found among the first `k` are at most `k` and at most the relevant ones. */
  lemma RelevantRetrievedBounds(relevant: seq<string>, retrieved: seq<string>, k: int)
    ensures |RelevantRetrieved(relevant, retrieved, k)| <= |Take(retrieved, k)|
    ensures |RelevantRetrieved(relevant, retrieved, k)| <= |relevant|
  {
    SetOfSize(Take(retrieved, k));
    SetOfSize(relevant);
    SubsetSize(RelevantRetrieved(relevant, retrieved, k), SetOf(Take(retrieved, k)));
    SubsetSize(RelevantRetrieved(relevant, retrieved, k), SetOf(relevant));
  }

  /** A count over a larger positive count lies in [0, 1] and is 0 only for a zero count. */
  lemma Ratio(n: nat, d: nat)
    requires 0 < d && n <= d
    ensures 0.0 <= n as real / d as real <= 1.0
    ensures n as real / d as real == 0.0 <==> n == 0
  {
  }

  /**
   * For a positive cut-off precision lies in [0, 1]; it is 0 exactly when
   * no relevant document is among the first `k`, and only those `k` count.
   */
  lemma PrecisionAtKFacts(relevant: seq<string>, retrieved: seq<string>, k: int)
    requires k > 0
    ensures 0.0 <= PrecisionAtK(relevant, retrieved, k) <= 1.0
    ensures PrecisionAtK(relevant, retrieved, k) == 0.0 <==> RelevantRetrieved(relevant, retrieved, k) == {}
    ensures k <= |retrieved| ==>
      forall more :: PrecisionAtK(relevant, retrieved + more, k) == PrecisionAtK(relevant, retrieved, k)
  {
    RelevantRetrievedBounds(relevant, retrieved, k);
    Ratio(|RelevantRetrieved(relevant, retrieved, k)|, k);
    if k <= |retrieved| {
      forall more ensures PrecisionAtK(relevant, retrieved + more, k) == PrecisionAtK(relevant, retrieved, k) {
        TakeOfLonger(retrieved, k, more);
      }
    }
  }

  /**
   * A cut-off of 0 gives 0; a negative one, which slices from the end, is
   * divided by as it is and gives a value at most 0.
   */
  lemma PrecisionAtNonPositiveK(relevant: seq<string>, retrieved: seq<string>, k: int)
    requires k <= 0
    ensures k == 0 ==> PrecisionAtK(relevant, retrieved, k) == 0.0
    ensures PrecisionAtK(relevant, retrieved, k) <= 0.0
  {
    if k < 0 {
      NegativeDivisor(|RelevantRetrieved(relevant, retrieved, k)| as real, k as real);
    }
  }

  /** A non-negative number over a negative one is at most 0. */
  lemma NegativeDivisor(x: real, d: real)
    requires 0.0 <= x && d < 0.0
    ensures x / d <= 0.0
  {
    assert x / d == -(x / -d);
    Quotient(x, -d);
  }

  /** Recall lies in [0, 1]; it is 0 exactly when no relevant document is among the first `k` (or there are none). */
  lemma RecallAtKFacts(relevant: seq<string>, retrieved: seq<string>, k: int)
    ensures 0.0 <= RecallAtK(relevant, retrieved, k) <= 1.0
    ensures RecallAtK(relevant, retrieved, k) == 0.0 <==> |relevant| == 0 || RelevantRetrieved(relevant, retrieved, k) == {}
    ensures 0 <= k <= |retrieved| ==>
      forall more :: RecallAtK(relevant, retrieved + more, k) == RecallAtK(relevant, retrieved, k)
  {
    RelevantRetrievedBounds(relevant, retrieved, k);
    if |relevant| > 0 {
      Ratio(|RelevantRetrieved(relevant, retrieved, k)|, |relevant|);
    }
    if 0 <= k <= |retrieved| {
      forall more ensures RecallAtK(relevant, retrieved + more, k) == RecallAtK(relevant, retrieved, k) {
        TakeOfLonger(retrieved, k, more);
      }
    }
  }

  /** Entries after the first `k` do not change the first `k`. */
  lemma TakeOfLonger(retrieved: seq<string>, k: int, more: seq<string>)
    requires 0 <= k <= |retrieved|
    ensures Take(retrieved + more, k) == Take(retrieved, k)
  {
    assert (retrieved + more)[..k] == retrieved[..k];
  }

  // ---------------------------------------------------------------------------
  // map_at_k

  /** How many entries of `s` are relevant (the loop's `relevant_count` after `s`). */
  function Hits(s: seq<string>, relevant: seq<string>): (n: nat)
    ensures n <= |s|
    decreases |s|
  {
    if s == [] then 0
    else Hits(s[..|s| - 1], relevant) + if s[|s| - 1] in relevant then 1 else 0
  }

  /** The loop's `precision_sum` after `s`: at each relevant position `i`, the hits so far over `i + 1`. */
  function PrecisionSum(s: seq<string>, relevant: seq<string>): real
    decreases |s|
  {
    if s == [] then 0.0
    else
      var n := |s| - 1;
      PrecisionSum(s[..n], relevant) + if s[n] in relevant then Hits(s, relevant) as real / (n + 1) as real else 0.0
  }

  /** `map_at_k`: 0 without relevant documents or without a relevant one in the first `k`, else the precision sum over their number. */
  function MapAtK(relevant: seq<string>, retrieved: seq<string>, k: int): real
  {
    if |relevant| == 0 then 0.0
    else if RelevantRetrieved(relevant, retrieved, k) == {} then 0.0
    else PrecisionSum(Take(retrieved, k), relevant) / |relevant| as real
  }

  /** The metric's loop, with its two counters. */
  method ComputeMapAtK(relevant: seq<string>, retrieved: seq<string>, k: int) returns (r: real)
    ensures r == MapAtK(relevant, retrieved, k)
  {
    if |relevant| == 0 {
      return 0.0;
    }
    var top := Take(retrieved, k);
    if SetOf(relevant) * SetOf(top) == {} {
      return 0.0;
    }
    var precisionSum := 0.0;
    var relevantCount := 0;
    for i := 0 to |top|
      invariant relevantCount == Hits(top[..i], relevant)
      invariant precisionSum == PrecisionSum(top[..i], relevant)
    {
      assert top[..i + 1][..i] == top[..i];
      if top[i] in relevant {
        relevantCount := relevantCount + 1;
        precisionSum := precisionSum + relevantCount as real / (i + 1) as real;
      }
    }
    assert top[..|top|] == top;
    r := precisionSum / |relevant| as real;
  }

  /** Every term of the precision sum lies in [0, 1], so the sum is between 0 and the number of hits. */
  lemma {:induction false} PrecisionSumBounds(s: seq<string>, relevant: seq<string>)
    ensures 0.0 <= PrecisionSum(s, relevant) <= Hits(s, relevant) as real
    decreases |s|
  {
    if s != [] {
      var n := |s| - 1;
      PrecisionSumBounds(s[..n], relevant);
      if s[n] in relevant {
        assert Hits(s, relevant) as real / (n + 1) as real <= 1.0;
      }
    }
  }

  /** Without repeated entries, the hits are distinct relevant documents. */
  lemma {:induction false} HitsDistinct(s: seq<string>, relevant: seq<string>)
    requires Distinct(s)
    ensures Hits(s, relevant) == |SetOf(s) * SetOf(relevant)|
    decreases |s|
  {
    if s != [] {
      var n := |s| - 1;
      var x := s[n];
      var prev := SetOf(s[..n]) * SetOf(relevant);
      var cur := SetOf(s) * SetOf(relevant);
      assert Hits(s[..n], relevant) == |prev| by {
        assert Distinct(s[..n]);
        HitsDistinct(s[..n], relevant);
      }
      assert Hits(s, relevant) == Hits(s[..n], relevant) + if x in relevant then 1 else 0;
      if x in relevant {
        assert cur == prev + {x} by { SetOfInit(s); }
        assert x !in prev by { assert x !in s[..n]; }
        assert |cur| == |prev| + 1;
      } else {
        assert cur == prev by { SetOfInit(s); }
      }
    }
  }


  /** MAP is never negative, and it is 0 without relevant documents or without a relevant one in the first `k`. */
  lemma MapAtKFacts(relevant: seq<string>, retrieved: seq<string>, k: int)
    ensures 0.0 <= MapAtK(relevant, retrieved, k)
    ensures |relevant| == 0 || RelevantRetrieved(relevant, retrieved, k) == {} ==> MapAtK(relevant, retrieved, k) == 0.0
  {
    if |relevant| > 0 && RelevantRetrieved(relevant, retrieved, k) != {} {
      var top := Take(retrieved, k);
      PrecisionSumBounds(top, relevant);
      Quotient(PrecisionSum(top, relevant), |relevant| as real);
    }
  }

  /** When the retrieved list repeats no document, MAP is at most 1. */
  lemma MapAtKAtMostOne(relevant: seq<string>, retrieved: seq<string>, k: int)
    requires forall i, j :: 0 <= i < j < |retrieved| ==> retrieved[i] != retrieved[j]
    ensures MapAtK(relevant, retrieved, k) <= 1.0
  {
    if |relevant| > 0 && RelevantRetrieved(relevant, retrieved, k) != {} {
      var top := Take(retrieved, k);
      assert forall i, j :: 0 <= i < j < |top| ==> top[i] != top[j];
      PrecisionSumBounds(top, relevant);
      HitsDistinct(top, relevant);
      SetOfSize(relevant);
      SubsetSize(SetOf(top) * SetOf(relevant), SetOf(relevant));
      var h := Hits(top, relevant);
      assert h <= |relevant|;
      Quotient(PrecisionSum(top, relevant), |relevant| as real);
    }
  }

  /** A non-negative quotient by a positive number, at most 1 when the dividend is at most the divisor. */
  lemma Quotient(x: real, d: real)
    requires 0.0 <= x && 0.0 < d
    ensures 0.0 <= x / d
    ensures x <= d ==> x / d <= 1.0
  {
  }

  /** With the same relevant document retrieved twice, MAP exceeds 1: the bound needs distinct entries. */
  lemma MapAtKRepeatedEntry()
    ensures MapAtK(["a"], ["a", "a"], 2) == 2.0
  {
    assert Take(["a", "a"], 2) == ["a", "a"];
    assert "a" in RelevantRetrieved(["a"], ["a", "a"], 2);
    assert ["a", "a"][..1] == ["a"];
    assert Hits(["a"], ["a"]) == 1;
    assert Hits(["a", "a"], ["a"]) == 2;
    assert PrecisionSum(["a"], ["a"]) == 1.0;
  }

  // ---------------------------------------------------------------------------
  // mrr

  /** The first position of a relevant document, if any. */
  function FirstRelevant(retrieved: seq<string>, relevant: seq<string>): (r: Option<nat>)
    ensures r.Some? ==> r.value < |retrieved| && retrieved[r.value] in relevant
    ensures r.Some? ==> forall j :: 0 <= j < r.value ==> retrieved[j] !in relevant
    ensures r.None? ==> forall j :: 0 <= j < |retrieved| ==> retrieved[j] !in relevant
    decreases |retrieved|
  {
    if retrieved == [] then None
    else if retrieved[0] in relevant then Some(0)
    else match FirstRelevant(retrieved[1..], relevant)
      case None => None
      case Some(i) => Some(i + 1)
  }

  /** `mrr`: one over the rank of the first relevant document, 0 without one or without relevant documents. */
  function Mrr(relevant: seq<string>, retrieved: seq<string>): real
  {
    if |relevant| == 0 then 0.0
    else match FirstRelevant(retrieved, relevant)
      case None => 0.0
      case Some(i) => 1.0 / (i + 1) as real
  }

  /** The metric's loop, which returns at the first relevant document. */
  method ComputeMrr(relevant: seq<string>, retrieved: seq<string>) returns (r: real)
    ensures r == Mrr(relevant, retrieved)
  {
    if |relevant| == 0 {
      return 0.0;
    }
    for i := 0 to |retrieved|
      invariant forall j :: 0 <= j < i ==> retrieved[j] !in relevant
    {
      if retrieved[i] in relevant {
        return 1.0 / (i + 1) as real;
      }
    }
    return 0.0;
  }

  /**
   * The reciprocal rank lies in [0, 1]; it is 1 exactly when the first
   * retrieved document is relevant, and 0 exactly when none is.
   */
  lemma MrrFacts(relevant: seq<string>, retrieved: seq<string>)
    ensures 0.0 <= Mrr(relevant, retrieved) <= 1.0
    ensures Mrr(relevant, retrieved) == 1.0 <==> |retrieved| > 0 && retrieved[0] in relevant
    ensures Mrr(relevant, retrieved) == 0.0 <==> forall j :: 0 <= j < |retrieved| ==> retrieved[j] !in relevant
  {
    match FirstRelevant(retrieved, relevant)
    case None =>
    case Some(i) =>
      assert |relevant| > 0;
      if i > 0 {
        assert 1.0 / (i + 1) as real < 1.0;
      }
  }
}
