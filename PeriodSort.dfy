/** The chronological order of reports: `Array.prototype.sort` with the
    comparator `new Date(a.periodStart) - new Date(b.periodStart)`, which is a
    stable sort, modelled as an insertion sort on the `periodStart` key. */
module PeriodSort {
  import opened Types
  import opened Folds

  ghost predicate Sorted(s: seq<Report>)
  {
    forall i, j :: 0 <= i < j < |s| ==> s[i].periodStart <= s[j].periodStart
  }

  /** Places `x` in front of the first report that is not earlier than it. */
  function Insert(x: Report, s: seq<Report>): (r: seq<Report>)
    ensures |r| == |s| + 1
    ensures multiset(r) == multiset(s) + multiset{x}
    ensures s != [] ==> r[0] == x || r[0] == s[0]
  {
    if s == [] || x.periodStart <= s[0].periodStart then [x] + s
    else
      assert s == [s[0]] + s[1..];
      [s[0]] + Insert(x, s[1..])
  }

  lemma {:induction false} InsertSorted(x: Report, s: seq<Report>)
    requires Sorted(s)
    ensures Sorted(Insert(x, s))
  {
    if s != [] && x.periodStart > s[0].periodStart {
      var rest := Insert(x, s[1..]);
      InsertSorted(x, s[1..]);
      assert s[0].periodStart <= rest[0].periodStart;
      assert Insert(x, s) == [s[0]] + rest;
    }
  }

  /** The reports in ascending `periodStart` order; equal keys keep their input order. */
  function SortByPeriod(s: seq<Report>): (r: seq<Report>)
    ensures |r| == |s|
    ensures multiset(r) == multiset(s)
  {
    if s == [] then []
    else
      assert s == [s[0]] + s[1..];
      Insert(s[0], SortByPeriod(s[1..]))
  }

  lemma {:induction false} SortIsSorted(s: seq<Report>)
    ensures Sorted(SortByPeriod(s))
  {
    if s != [] {
      SortIsSorted(s[1..]);
      InsertSorted(s[0], SortByPeriod(s[1..]));
    }
  }

  /** The reports of one period, in sequence order. */
  function SamePeriod(s: seq<Report>, key: int): seq<Report>
  {
    if s == [] then []
    else (if s[0].periodStart == key then [s[0]] else []) + SamePeriod(s[1..], key)
  }

  lemma {:induction false} InsertSamePeriod(x: Report, s: seq<Report>, key: int)
    requires Sorted(s)
    ensures SamePeriod(Insert(x, s), key)
         == (if x.periodStart == key then [x] else []) + SamePeriod(s, key)
  {
    if s == [] || x.periodStart <= s[0].periodStart {
      assert ([x] + s)[1..] == s;
    } else {
      var r := Insert(x, s[1..]);
      assert ([s[0]] + r)[1..] == r;
      InsertSamePeriod(x, s[1..], key);
    }
  }

  /** Stability: within one period, the sort keeps the input order. */
  lemma {:induction false} SortIsStable(s: seq<Report>, key: int)
    ensures SamePeriod(SortByPeriod(s), key) == SamePeriod(s, key)
  {
    if s != [] {
      SortIsStable(s[1..], key);
      SortIsSorted(s[1..]);
      InsertSamePeriod(s[0], SortByPeriod(s[1..]), key);
    }
  }

  lemma {:induction false} InsertSum(x: Report, s: seq<Report>, f: Report -> real)
    ensures SumOf(Insert(x, s), f) == f(x) + SumOf(s, f)
  {
    if s == [] || x.periodStart <= s[0].periodStart {
      assert ([x] + s)[1..] == s;
    } else {
      var r := Insert(x, s[1..]);
      assert ([s[0]] + r)[1..] == r;
      InsertSum(x, s[1..], f);
    }
  }

  /** Sorting does not change any column sum. */
  lemma {:induction false} SortSum(s: seq<Report>, f: Report -> real)
    ensures SumOf(SortByPeriod(s), f) == SumOf(s, f)
  {
    if s != [] {
      SortSum(s[1..], f);
      InsertSum(s[0], SortByPeriod(s[1..]), f);
    }
  }
}
