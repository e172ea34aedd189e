/**
 * Aggregates over Python lists that several reports compute: `set(...)`,
 * `sum`, `min`, `max` and the average, with the bounds they obey.
 */
module Stats {

  /** The elements of a list, as Python's `set(...)`. */
  function SetOf(s: seq<string>): (r: set<string>)
    ensures forall x :: x in r <==> x in s
  {
    set x | x in s
  }

  /** The elements of a non-empty list: those before its last entry, and that entry. */
  lemma SetOfInit(s: seq<string>)
    requires s != []
    ensures SetOf(s) == SetOf(s[..|s| - 1]) + {s[|s| - 1]}
  {
    assert s == s[..|s| - 1] + [s[|s| - 1]];
  }

  /** A list has at least as many entries as distinct elements. */
  lemma {:induction false} SetOfSize(s: seq<string>)
    ensures |SetOf(s)| <= |s|
    decreases |s|
  {
    if s != [] {
      var n := |s| - 1;
      SetOfSize(s[..n]);
      assert SetOf(s) == SetOf(s[..n]) + {s[n]};
    }
  }

  /** A subset is no larger than its superset. */
  lemma {:induction false} SubsetSize(a: set<string>, b: set<string>)
    requires a <= b
    ensures |a| <= |b|
    decreases |a|
  {
    if a != {} {
      var x :| x in a;
      SubsetSize(a - {x}, b - {x});
    }
  }

  /** `sum(s)`. */
  function Sum(s: seq<real>): real
    decreases |s|
  {
    if s == [] then 0.0 else Sum(s[..|s| - 1]) + s[|s| - 1]
  }

  /** `min(s)` of a non-empty list. */
  function Min(s: seq<real>): (m: real)
    requires s != []
    ensures m in s && forall x :: x in s ==> m <= x
    decreases |s|
  {
    if |s| == 1 then s[0]
    else
      var m := Min(s[..|s| - 1]);
      assert forall x :: x in s ==> x in s[..|s| - 1] || x == s[|s| - 1];
      if s[|s| - 1] < m then s[|s| - 1] else m
  }

  /** `max(s)` of a non-empty list. */
  function Max(s: seq<real>): (m: real)
    requires s != []
    ensures m in s && forall x :: x in s ==> x <= m
    decreases |s|
  {
    if |s| == 1 then s[0]
    else
      var m := Max(s[..|s| - 1]);
      assert forall x :: x in s ==> x in s[..|s| - 1] || x == s[|s| - 1];
      if s[|s| - 1] > m then s[|s| - 1] else m
  }

  /** The sum of a list lies between its length times a lower bound and its length times an upper bound. */
  lemma {:induction false} SumBounds(s: seq<real>, lo: real, hi: real)
    requires forall x :: x in s ==> lo <= x <= hi
    ensures |s| as real * lo <= Sum(s) <= |s| as real * hi
    decreases |s|
  {
    if s != [] {
      var n := |s| - 1;
      assert forall x :: x in s[..n] ==> x in s;
      SumBounds(s[..n], lo, hi);
      assert s[n] in s;
      assert |s| as real * lo == n as real * lo + lo;
      assert |s| as real * hi == n as real * hi + hi;
    }
  }

  /** If `c * lo <= x <= c * hi` for a positive `c`, then `x / c` lies between `lo` and `hi`. */
  lemma QuotientBetween(x: real, c: real, lo: real, hi: real)
    requires 0.0 < c && c * lo <= x <= c * hi
    ensures lo <= x / c <= hi
  {
    var q := x / c;
    assert q * c == x;
  }

  /** The average of a non-empty list lies between any bounds of its elements. */
  lemma AverageBetween(s: seq<real>, lo: real, hi: real)
    requires s != [] && forall x :: x in s ==> lo <= x <= hi
    ensures lo <= Sum(s) / |s| as real <= hi
  {
    SumBounds(s, lo, hi);
    QuotientBetween(Sum(s), |s| as real, lo, hi);
  }
}
