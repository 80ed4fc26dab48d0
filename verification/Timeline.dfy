/** Lists ordered by an instant, and how many instants fall inside an interval. */
module Timeline {
  import opened Prelude

  predicate Sorted(times: seq<Time>) {
    forall i, j :: 0 <= i < j < |times| ==> times[i] <= times[j]
  }

  function CountBetween(times: seq<Time>, from: Time, to: Time): (n: nat) {
    if times == [] then 0 else (if from <= times[0] < to then 1 else 0) + CountBetween(times[1..], from, to)
  }

  /** In an ordered log, a count over an interval is a stretch of consecutive entries. */
  lemma {:induction false} CountedTogether(times: seq<Time>, from: Time, to: Time) returns (i: nat)
    requires Sorted(times) && CountBetween(times, from, to) > 0
    ensures i + CountBetween(times, from, to) <= |times|
    ensures from <= times[i] && times[i + CountBetween(times, from, to) - 1] < to
  {
    if from <= times[0] < to {
      i := 0;
      if CountBetween(times[1..], from, to) > 0 { var _ := CountedTogether(times[1..], from, to); }
    } else {
      var j := CountedTogether(times[1..], from, to);
      i := j + 1;
    }
  }

  // ---- Sorting ------------------------------------------------------------------------------------

  /** Insertion into a list ordered by date, after everything not later: what a stable sort does. */
  function InsertBy<T>(x: T, xs: seq<T>, date: T -> Time): seq<T> {
    if xs == [] || date(xs[|xs| - 1]) <= date(x) then xs + [x] else InsertBy(x, xs[..|xs| - 1], date) + [xs[|xs| - 1]]
  }

  function SortBy<T>(xs: seq<T>, date: T -> Time): seq<T> {
    if xs == [] then [] else InsertBy(xs[|xs| - 1], SortBy(xs[..|xs| - 1], date), date)
  }

  predicate InOrderBy<T>(xs: seq<T>, date: T -> Time) {
    forall i, j :: 0 <= i < j < |xs| ==> date(xs[i]) <= date(xs[j])
  }

  lemma {:induction false} InsertKeepsOrder<T>(x: T, xs: seq<T>, date: T -> Time)
    requires InOrderBy(xs, date)
    ensures InOrderBy(InsertBy(x, xs, date), date)
    ensures forall y :: y in InsertBy(x, xs, date) ==> y == x || y in xs
    ensures forall y :: y == x || y in xs ==> y in InsertBy(x, xs, date)
    ensures |InsertBy(x, xs, date)| == |xs| + 1
  {
    if xs != [] && date(xs[|xs| - 1]) > date(x) {
      var last := xs[|xs| - 1];
      InsertKeepsOrder(x, xs[..|xs| - 1], date);
      var r := InsertBy(x, xs[..|xs| - 1], date);
      assert xs == xs[..|xs| - 1] + [last];
      forall y | y in xs[..|xs| - 1] ensures date(y) <= date(last) { var k :| 0 <= k < |xs| - 1 && xs[k] == y; }
      forall i | 0 <= i < |r| ensures date(r[i]) <= date(last) {
        assert r[i] in r;
        assert r[i] == x || r[i] in xs[..|xs| - 1];
      }
    }
  }

  lemma {:induction false} SortKeepsOrder<T>(xs: seq<T>, date: T -> Time)
    ensures InOrderBy(SortBy(xs, date), date)
    ensures forall y :: y in SortBy(xs, date) <==> y in xs
    ensures |SortBy(xs, date)| == |xs|
  {
    if xs != [] {
      SortKeepsOrder(xs[..|xs| - 1], date);
      InsertKeepsOrder(xs[|xs| - 1], SortBy(xs[..|xs| - 1], date), date);
      assert xs == xs[..|xs| - 1] + [xs[|xs| - 1]];
    }
  }
}
