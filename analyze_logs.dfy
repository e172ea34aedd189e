/**
 * The query-log analysis: patterns over the logged queries (counts, modes,
 * query lengths, scores, the most common queries, the queries of each mode)
 * and the performance report (search times overall and per mode).
 */
module AnalyzeLogs {
  import opened Base
  import opened Text
  import opened Ranking
  import opened Stats

  /** One logged search; `searchTime` is `None` when the entry has no `search_time` key. */
  datatype LogEntry = LogEntry(query: string, mode: string, topScores: seq<real>, searchTime: Option<real>)

  function QueryField(e: LogEntry): string { e.query }

  /** `entry.get("search_time", 0)`. */
  function TimeOf(e: LogEntry): real
  {
    if e.searchTime.Some? then e.searchTime.value else 0.0
  }

  /** The queries of the entries, in order. */
  function QueriesOf(entries: seq<LogEntry>): (r: seq<string>)
    ensures |r| == |entries| && forall i :: 0 <= i < |entries| ==> r[i] == entries[i].query
  {
    seq(|entries|, i requires 0 <= i < |entries| => entries[i].query)
  }

  /** The modes of the entries, in order. */
  function ModesOf(entries: seq<LogEntry>): (r: seq<string>)
    ensures |r| == |entries| && forall i :: 0 <= i < |entries| ==> r[i] == entries[i].mode
  {
    seq(|entries|, i requires 0 <= i < |entries| => entries[i].mode)
  }

  // ---------------------------------------------------------------------------
  // Counter

  /** How often `x` occurs in `xs`. */
  function Count(xs: seq<string>, x: string): nat
    decreases |xs|
  {
    if xs == [] then 0
    else Count(xs[..|xs| - 1], x) + if xs[|xs| - 1] == x then 1 else 0
  }

  /** The distinct elements in order of first occurrence: the key order of a `Counter`. */
  function Keys(xs: seq<string>): seq<string>
    decreases |xs|
  {
    if xs == [] then []
    else
      var n := |xs| - 1;
      Keys(xs[..n]) + if xs[n] in xs[..n] then [] else [xs[n]]
  }

  /** `Counter(xs)` as a lookup: each element's number of occurrences. */
  function Counter(xs: seq<string>): map<string, nat>
  {
    map x | x in xs :: Count(xs, x)
  }

  /** The sum of the counts of `keys` in `xs`. */
  function CountSum(keys: seq<string>, xs: seq<string>): nat
  {
    if keys == [] then 0 else Count(xs, keys[0]) + CountSum(keys[1..], xs)
  }

  /** The keys are distinct, they are exactly the elements, and there are no more of them than elements. */
  lemma {:induction false} KeysFacts(xs: seq<string>)
    ensures Distinct(Keys(xs))
    ensures forall x :: x in Keys(xs) <==> x in xs
    ensures |Keys(xs)| <= |xs|
    decreases |xs|
  {
    if xs != [] {
      var n := |xs| - 1;
      KeysFacts(xs[..n]);
      assert xs == xs[..n] + [xs[n]];
    }
  }

  /** An element occurs at least once exactly when it is in the list, and at most as often as the list is long. */
  lemma {:induction false} CountFacts(xs: seq<string>, x: string)
    ensures Count(xs, x) > 0 <==> x in xs
    ensures Count(xs, x) <= |xs|
    decreases |xs|
  {
    if xs != [] {
      var n := |xs| - 1;
      CountFacts(xs[..n], x);
      assert xs == xs[..n] + [xs[n]];
    }
  }

  /** One more element adds one to the count sum of distinct keys that include it, and nothing otherwise. */
  lemma {:induction false} CountSumSnoc(keys: seq<string>, ys: seq<string>, x: string)
    requires Distinct(keys)
    ensures CountSum(keys, ys + [x]) == CountSum(keys, ys) + if x in keys then 1 else 0
    decreases |keys|
  {
    if keys != [] {
      CountSumSnoc(keys[1..], ys, x);
      assert (ys + [x])[..|ys + [x]| - 1] == ys;
      assert x in keys <==> x == keys[0] || x in keys[1..];
    }
  }

  /** Distinct keys that cover every element count each element once: their counts sum to the length. */
  lemma {:induction false} CountSumAll(keys: seq<string>, xs: seq<string>)
    requires Distinct(keys) && forall x :: x in xs ==> x in keys
    ensures CountSum(keys, xs) == |xs|
    decreases |xs|
  {
    if xs == [] {
      CountSumEmpty(keys);
    } else {
      var n := |xs| - 1;
      assert xs == xs[..n] + [xs[n]];
      CountSumAll(keys, xs[..n]);
      CountSumSnoc(keys, xs[..n], xs[n]);
    }
  }

  lemma {:induction false} CountSumEmpty(keys: seq<string>)
    ensures CountSum(keys, []) == 0
    decreases |keys|
  {
    if keys != [] {
      CountSumEmpty(keys[1..]);
    }
  }

  /** A `Counter`'s counts, summed over its keys, are the number of elements counted. */
  lemma CounterSumsToTotal(xs: seq<string>)
    ensures forall x :: x in Counter(xs) <==> x in xs
    ensures forall x :: x in Counter(xs) ==> Counter(xs)[x] == Count(xs, x) && Counter(xs)[x] > 0
    ensures CountSum(Keys(xs), xs) == |xs|
  {
    KeysFacts(xs);
    CountSumAll(Keys(xs), xs);
    forall x | x in xs ensures Count(xs, x) > 0 {
      CountFacts(xs, x);
    }
  }

  // ---------------------------------------------------------------------------
  // most_common

  /** The `(element, count)` pairs of a `Counter`, in key order. */
  function CounterItems(xs: seq<string>): (r: seq<Hit<()>>)
    ensures |r| == |Keys(xs)|
  {
    seq(|Keys(xs)|, i requires 0 <= i < |Keys(xs)| => Hit(Keys(xs)[i], Count(xs, Keys(xs)[i]) as real, ()))
  }

  /** `Counter(xs).most_common(n)`: the items by descending count, equal counts in key order, cut to `n`. */
  function MostCommon(xs: seq<string>, n: int): seq<Hit<()>>
  {
    SliceTo(SortDesc(CounterItems(xs)), n)
  }

  /**
   * The most common elements: at most `n` of them (all of them when there
   * are fewer), each once with its count, by descending count, and every
   * element left out occurs no more often than any listed; elements with
   * equal counts keep their order of first occurrence.
   */
  lemma MostCommonFacts(xs: seq<string>, n: int)
    ensures var top := MostCommon(xs, n);
      && |top| == SliceLen(|Keys(xs)|, n)
      && SortedDesc(top) && DistinctIds(top)
      && (forall i :: 0 <= i < |top| ==> top[i].id in xs && top[i].score == Count(xs, top[i].id) as real)
      && (forall x, i :: x in xs && x !in Ids(top) && 0 <= i < |top| ==> Count(xs, x) as real <= top[i].score)
    ensures forall v :: WithScore(SortDesc(CounterItems(xs)), v) == WithScore(CounterItems(xs), v)
  {
    var items := CounterItems(xs);
    var top := MostCommon(xs, n);
    KeysFacts(xs);
    TopOfSorted(items, n);
    forall v ensures WithScore(SortDesc(items), v) == WithScore(items, v) {
      SortDescStable(items, v);
    }
    forall i | 0 <= i < |top| ensures top[i].id in xs && top[i].score == Count(xs, top[i].id) as real {
      var j :| 0 <= j < |items| && items[j] == top[i];
    }
    forall x, i | x in xs && x !in Ids(top) && 0 <= i < |top| ensures Count(xs, x) as real <= top[i].score {
      var j :| 0 <= j < |Keys(xs)| && Keys(xs)[j] == x;
      assert items[j] in items;
    }
  }

  // ---------------------------------------------------------------------------
  // grouping by mode

  /** `f` of each entry of mode `m`, in entry order. */
  function Grouped<T>(entries: seq<LogEntry>, f: LogEntry -> T, m: string): seq<T>
    decreases |entries|
  {
    if entries == [] then []
    else
      var n := |entries| - 1;
      Grouped(entries[..n], f, m) + if entries[n].mode == m then [f(entries[n])] else []
  }

  /**
   * The loop that fills a `defaultdict(list)` by mode: each entry appends
   * `f(entry)` to the list of its mode.
   */
  method GroupByMode<T>(entries: seq<LogEntry>, f: LogEntry -> T) returns (groups: map<string, seq<T>>)
    ensures forall m :: m in groups <==> m in ModesOf(entries)
    ensures forall m :: m in groups ==> groups[m] == Grouped(entries, f, m)
  {
    groups := map[];
    for i := 0 to |entries|
      invariant forall m :: m in groups <==> m in ModesOf(entries[..i])
      invariant forall m :: m in groups ==> groups[m] == Grouped(entries[..i], f, m)
      invariant forall m :: m !in groups ==> Grouped(entries[..i], f, m) == []
    {
      var e := entries[i];
      assert entries[..i + 1][..i] == entries[..i];
      assert ModesOf(entries[..i + 1]) == ModesOf(entries[..i]) + [e.mode];
      var current := if e.mode in groups then groups[e.mode] else [];
      groups := groups[e.mode := current + [f(e)]];
    }
    assert entries[..|entries|] == entries;
  }

  /** The list of a mode has one element per entry of that mode. */
  lemma {:induction false} GroupedCount<T>(entries: seq<LogEntry>, f: LogEntry -> T, m: string)
    ensures |Grouped(entries, f, m)| == Count(ModesOf(entries), m)
    decreases |entries|
  {
    if entries != [] {
      var n := |entries| - 1;
      GroupedCount(entries[..n], f, m);
      assert ModesOf(entries)[..n] == ModesOf(entries[..n]);
    }
  }

  // ---------------------------------------------------------------------------
  // analyze_query_patterns

  /** `query_length_distribution`. */
  datatype LengthDistribution = LengthDistribution(min: real, max: real, avg: real)

  /** `score_distribution` when there are scores. */
  datatype ScoreDistribution = ScoreDistribution(min: real, max: real, avg: real, count: nat)

  /** The patterns report; `scores` is `None` where the source leaves `{}`. */
  datatype Patterns = Patterns(totalQueries: nat, uniqueQueries: nat, modeUsage: map<string, nat>,
                               queryLengths: LengthDistribution, scores: Option<ScoreDistribution>,
                               mostCommon: seq<Hit<()>>, queriesByMode: map<string, seq<string>>)

  const MostCommonCount: int := 20

  /** `len(entry["query"].split())` of each entry. */
  function Lengths(entries: seq<LogEntry>): (r: seq<real>)
    ensures |r| == |entries| && forall i :: 0 <= i < |entries| ==> r[i] == WordCount(entries[i].query) as real
  {
    seq(|entries|, i requires 0 <= i < |entries| => WordCount(entries[i].query) as real)
  }

  /** The `top_scores` of every entry, one entry after the other. */
  function AllScores(entries: seq<LogEntry>): seq<real>
    decreases |entries|
  {
    if entries == [] then [] else AllScores(entries[..|entries| - 1]) + entries[|entries| - 1].topScores
  }

  /** Minimum, maximum and average of the lengths, all 0 for none. */
  function LengthDistributionOf(lengths: seq<real>): LengthDistribution
  {
    if lengths == [] then LengthDistribution(0.0, 0.0, 0.0)
    else LengthDistribution(Min(lengths), Max(lengths), Sum(lengths) / |lengths| as real)
  }

  /** Minimum, maximum, average and count of the scores, absent for none. */
  function ScoreDistributionOf(scores: seq<real>): Option<ScoreDistribution>
  {
    if scores == [] then None
    else Some(ScoreDistribution(Min(scores), Max(scores), Sum(scores) / |scores| as real, |scores|))
  }

  /** The report of `analyze_query_patterns`. */
  function PatternsOf(entries: seq<LogEntry>): Patterns
  {
    Patterns(|entries|, |SetOf(QueriesOf(entries))|, Counter(ModesOf(entries)),
             LengthDistributionOf(Lengths(entries)), ScoreDistributionOf(AllScores(entries)),
             MostCommon(QueriesOf(entries), MostCommonCount),
             map m | m in ModesOf(entries) :: Grouped(entries, QueryField, m))
  }

  /** The loop of `analyze_query_patterns` that extends `all_scores` entry by entry. */
  method CollectScores(entries: seq<LogEntry>) returns (allScores: seq<real>)
    ensures allScores == AllScores(entries)
  {
    allScores := [];
    for i := 0 to |entries|
      invariant allScores == AllScores(entries[..i])
    {
      assert entries[..i + 1][..i] == entries[..i];
      allScores := allScores + entries[i].topScores;
    }
    assert entries[..|entries|] == entries;
  }

  /** `analyze_query_patterns`, with its two loops. */
  method AnalyzeQueryPatterns(entries: seq<LogEntry>) returns (p: Patterns)
    ensures p == PatternsOf(entries)
  {
    var lengths := Lengths(entries);
    var allScores := CollectScores(entries);
    var byMode := GroupByMode(entries, QueryField);
    assert byMode == map m | m in ModesOf(entries) :: Grouped(entries, QueryField, m);
    p := Patterns(|entries|, |SetOf(QueriesOf(entries))|, Counter(ModesOf(entries)),
                  LengthDistributionOf(lengths), ScoreDistributionOf(allScores),
                  MostCommon(QueriesOf(entries), MostCommonCount), byMode);
  }

  /**
   * The patterns count every entry and at most as many distinct queries;
   * the mode usage counts each mode that occurs, the counts summing to the
   * total; and each mode's query list, in entry order, is as long as its
   * usage count.
   */
  lemma PatternCounts(entries: seq<LogEntry>)
    ensures var p := PatternsOf(entries);
      && p.totalQueries == |entries|
      && p.uniqueQueries <= p.totalQueries
      && (p.uniqueQueries == 0 <==> entries == [])
      && (forall m :: m in p.modeUsage <==> m in ModesOf(entries))
      && (forall m :: m in p.modeUsage ==> p.modeUsage[m] == Count(ModesOf(entries), m) > 0)
      && CountSum(Keys(ModesOf(entries)), ModesOf(entries)) == p.totalQueries
      && (forall m :: m in p.queriesByMode <==> m in p.modeUsage)
      && (forall m :: m in p.queriesByMode ==> |p.queriesByMode[m]| == p.modeUsage[m])
  {
    var queries := QueriesOf(entries);
    SetOfSize(queries);
    if entries != [] {
      assert queries[0] in SetOf(queries);
    }
    CounterSumsToTotal(ModesOf(entries));
    forall m | m in ModesOf(entries) ensures |Grouped(entries, QueryField, m)| == Count(ModesOf(entries), m) {
      GroupedCount(entries, QueryField, m);
    }
  }

  /**
   * Query lengths are word counts: all three are 0 without entries;
   * otherwise the minimum and maximum are word counts of some entries,
   * bound every entry's, and the average lies between them.
   */
  lemma QueryLengthFacts(entries: seq<LogEntry>)
    ensures var d := PatternsOf(entries).queryLengths;
      && (entries == [] ==> d == LengthDistribution(0.0, 0.0, 0.0))
      && (entries != [] ==>
            && d.min <= d.avg <= d.max
            && (exists i :: 0 <= i < |entries| && d.min == WordCount(entries[i].query) as real)
            && (exists i :: 0 <= i < |entries| && d.max == WordCount(entries[i].query) as real)
            && forall i :: 0 <= i < |entries| ==> d.min <= WordCount(entries[i].query) as real <= d.max)
  {
    var lengths := Lengths(entries);
    if entries != [] {
      AverageBetween(lengths, Min(lengths), Max(lengths));
      assert lengths[0] in lengths;
      forall i | 0 <= i < |entries| ensures Min(lengths) <= WordCount(entries[i].query) as real <= Max(lengths) {
        assert lengths[i] in lengths;
      }
    }
  }

  /** Splitting the entries anywhere splits their scores there: each entry's scores stay together, in entry order. */
  lemma {:induction false} AllScoresSplit(entries: seq<LogEntry>, k: nat)
    requires k <= |entries|
    ensures AllScores(entries) == AllScores(entries[..k]) + AllScores(entries[k..])
    decreases |entries|
  {
    if k < |entries| {
      var n := |entries| - 1;
      AllScoresSplit(entries[..n], k);
      assert entries[..n][..k] == entries[..k];
      assert entries[..n][k..] == entries[k..n];
      assert entries[k..][..|entries[k..]| - 1] == entries[k..n];
    } else {
      assert entries[..k] == entries;
      assert entries[k..] == [];
    }
  }

  /**
   * The score distribution is filled exactly when some entry has a score;
   * then it counts all of them and its minimum and maximum bound every
   * score with the average between them.
   */
  lemma ScoreDistributionFacts(entries: seq<LogEntry>)
    ensures var d := PatternsOf(entries).scores;
      && (d.None? <==> forall i :: 0 <= i < |entries| ==> entries[i].topScores == [])
      && (d.Some? ==>
            && d.value.count == |AllScores(entries)|
            && d.value.min <= d.value.avg <= d.value.max
            && forall i, j :: 0 <= i < |entries| && 0 <= j < |entries[i].topScores| ==>
                 d.value.min <= entries[i].topScores[j] <= d.value.max)
  {
    var all := AllScores(entries);
    forall i, j | 0 <= i < |entries| && 0 <= j < |entries[i].topScores|
      ensures entries[i].topScores[j] in all
    {
      ScoresInAll(entries, i, j);
    }
    if all != [] {
      AverageBetween(all, Min(all), Max(all));
    } else {
      forall i | 0 <= i < |entries| ensures entries[i].topScores == [] {
        if entries[i].topScores != [] {
          ScoresInAll(entries, i, 0);
        }
      }
    }
    if forall i :: 0 <= i < |entries| ==> entries[i].topScores == [] {
      NoScores(entries);
    }
  }

  /** A score of an entry is among all the scores. */
  lemma ScoresInAll(entries: seq<LogEntry>, i: nat, j: nat)
    requires i < |entries| && j < |entries[i].topScores|
    ensures entries[i].topScores[j] in AllScores(entries)
  {
    AllScoresSplit(entries, i + 1);
    assert entries[..i + 1][..i] == entries[..i];
    assert AllScores(entries)[|AllScores(entries[..i])| + j] == entries[i].topScores[j];
  }


  /** Entries without scores give no scores. */
  lemma {:induction false} NoScores(entries: seq<LogEntry>)
    requires forall i :: 0 <= i < |entries| ==> entries[i].topScores == []
    ensures AllScores(entries) == []
    decreases |entries|
  {
    if entries != [] {
      NoScores(entries[..|entries| - 1]);
    }
  }

  // ---------------------------------------------------------------------------
  // generate_performance_report

  /** The figures of one mode. */
  datatype ModePerformance = ModePerformance(avgTime: real, minTime: real, maxTime: real, queryCount: nat)

  /** The performance report, or the error dictionary for no entries. */
  datatype PerformanceReport =
    | NoEntries(error: string)
    | Performance(totalQueries: nat, totalTime: real, averageTime: real, byMode: map<string, ModePerformance>)

  const NoEntriesMessage: string := "No entries to analyze"

  /** The search time of each entry, 0 where it is missing. */
  function Times(entries: seq<LogEntry>): (r: seq<real>)
    ensures |r| == |entries| && forall i :: 0 <= i < |entries| ==> r[i] == TimeOf(entries[i])
  {
    seq(|entries|, i requires 0 <= i < |entries| => TimeOf(entries[i]))
  }

  /** The figures of a non-empty list of times. */
  function PerformanceOfTimes(times: seq<real>): ModePerformance
    requires times != []
  {
    ModePerformance(Sum(times) / |times| as real, Min(times), Max(times), |times|)
  }

  /** The figures of each mode whose list of times is not empty. */
  function ByMode(groups: map<string, seq<real>>): map<string, ModePerformance>
  {
    map m | m in groups && groups[m] != [] :: PerformanceOfTimes(groups[m])
  }

  /** The report of `generate_performance_report`. */
  function PerformanceOf(entries: seq<LogEntry>): PerformanceReport
  {
    if entries == [] then NoEntries(NoEntriesMessage)
    else
      var total := Sum(Times(entries));
      Performance(|entries|, total, total / |entries| as real,
                  ByMode(map m | m in ModesOf(entries) :: Grouped(entries, TimeOf, m)))
  }

  /** `generate_performance_report`: the times grouped by mode, then the figures of each group. */
  method GeneratePerformanceReport(entries: seq<LogEntry>) returns (r: PerformanceReport)
    ensures r == PerformanceOf(entries)
  {
    if entries == [] {
      return NoEntries(NoEntriesMessage);
    }
    var total := Sum(Times(entries));
    var groups := GroupByMode(entries, TimeOf);
    assert groups == map m | m in ModesOf(entries) :: Grouped(entries, TimeOf, m);
    var performance: map<string, ModePerformance> := map[];
    var pending := groups.Keys;
    while pending != {}
      invariant pending <= groups.Keys
      invariant forall m :: m in performance <==> m in groups && m !in pending && groups[m] != []
      invariant forall m :: m in performance ==> performance[m] == PerformanceOfTimes(groups[m])
      decreases pending
    {
      var mode :| mode in pending;
      var times := groups[mode];
      if times != [] {
        performance := performance[mode := PerformanceOfTimes(times)];
      }
      pending := pending - {mode};
    }
    assert performance == ByMode(groups);
    r := Performance(|entries|, total, total / |entries| as real, performance);
  }

  /**
   * The report: the error dictionary exactly for no entries; otherwise the
   * entries counted, a missing search time counted as 0, the average time
   * between the shortest and the longest; each mode that occurs has its
   * figures, with as many queries as entries of that mode (the counts
   * summing to the total), and its minimum, average and maximum in order.
   */
  lemma PerformanceFacts(entries: seq<LogEntry>)
    ensures PerformanceOf(entries).NoEntries? <==> entries == []
    ensures entries == [] ==> PerformanceOf(entries).error == NoEntriesMessage
    ensures var r := PerformanceOf(entries);
      r.Performance? ==>
        && r.totalQueries == |entries|
        && r.totalTime == Sum(Times(entries))
        && (forall i :: 0 <= i < |entries| && entries[i].searchTime.None? ==> Times(entries)[i] == 0.0)
        && Min(Times(entries)) <= r.averageTime <= Max(Times(entries))
        && (forall m :: m in r.byMode <==> m in ModesOf(entries))
        && CountSum(Keys(ModesOf(entries)), ModesOf(entries)) == r.totalQueries
        && forall m :: m in r.byMode ==>
             && r.byMode[m].queryCount == Count(ModesOf(entries), m)
             && r.byMode[m].minTime <= r.byMode[m].avgTime <= r.byMode[m].maxTime
  {
    if entries != [] {
      var times := Times(entries);
      AverageBetween(times, Min(times), Max(times));
      CounterSumsToTotal(ModesOf(entries));
      forall m | m in ModesOf(entries)
        ensures var g := Grouped(entries, TimeOf, m);
          g != [] && |g| == Count(ModesOf(entries), m) && Min(g) <= Sum(g) / |g| as real <= Max(g)
      {
        var g := Grouped(entries, TimeOf, m);
        GroupedCount(entries, TimeOf, m);
        CountFacts(ModesOf(entries), m);
        AverageBetween(g, Min(g), Max(g));
      }
    }
  }
}
