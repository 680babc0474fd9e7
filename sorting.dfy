/** Ordering a series by its date column, as `sort_values` does in both
    variants. pandas' default sort is not guaranteed to be stable; the model
    picks one admissible behaviour (rows with equal dates keep their input
    order) and states order independence only for distinct dates. */
module Sorting {
  import opened Table

  predicate SortedByDate(s: seq<Row>)
  {
    forall i, j :: 0 <= i < j < |s| ==> s[i].date <= s[j].date
  }

  predicate StrictlySortedByDate(s: seq<Row>)
  {
    forall i, j :: 0 <= i < j < |s| ==> s[i].date < s[j].date
  }

  predicate DistinctDates(s: seq<Row>)
  {
    forall i, j :: 0 <= i < j < |s| ==> s[i].date != s[j].date
  }

  /** Places `x` in front of the first row of `s` whose date is not earlier. */
  function Insert(x: Row, s: seq<Row>): (r: seq<Row>)
    ensures multiset(r) == multiset(s) + multiset{x}
  {
    if s == [] || x.date <= s[0].date then
      [x] + s
    else
      assert s == [s[0]] + s[1..];
      [s[0]] + Insert(x, s[1..])
  }

  lemma {:induction false} InsertSorted(x: Row, s: seq<Row>)
    requires SortedByDate(s)
    ensures SortedByDate(Insert(x, s))
  {
    if s == [] || x.date <= s[0].date {
    } else {
      var r' := Insert(x, s[1..]);
      InsertSorted(x, s[1..]);
      forall y | y in r' ensures s[0].date <= y.date {
        assert y in multiset(r');
      }
    }
  }

  /** Insertion sort by date. */
  function SortByDate(s: seq<Row>): (r: seq<Row>)
    ensures SortedByDate(r)
    ensures multiset(r) == multiset(s)
    ensures |r| == |s|
  {
    if s == [] then []
    else
      assert s == [s[0]] + s[1..];
      InsertSorted(s[0], SortByDate(s[1..]));
      var r := Insert(s[0], SortByDate(s[1..]));
      assert |r| == |multiset(r)|;
      r
  }

  /** Sorting a series that is already in date order changes nothing. */
  lemma {:induction false} SortOfSortedIsIdentity(s: seq<Row>)
    requires SortedByDate(s)
    ensures SortByDate(s) == s
  {
    if s != [] {
      SortOfSortedIsIdentity(s[1..]);
    }
  }

  /** Sorting is idempotent. */
  lemma SortIdempotent(s: seq<Row>)
    ensures SortByDate(SortByDate(s)) == SortByDate(s)
  {
    SortOfSortedIsIdentity(SortByDate(s));
  }

  lemma {:induction false} InsertFreshDate(x: Row, s: seq<Row>)
    requires StrictlySortedByDate(s)
    requires forall y :: y in s ==> y.date != x.date
    ensures StrictlySortedByDate(Insert(x, s))
  {
    if s == [] || x.date <= s[0].date {
    } else {
      var r' := Insert(x, s[1..]);
      InsertFreshDate(x, s[1..]);
      forall y | y in r' ensures s[0].date < y.date {
        assert y in multiset(r');
      }
    }
  }

  /** With distinct dates the sorted series is strictly increasing. */
  lemma {:induction false} SortDistinctIsStrict(s: seq<Row>)
    requires DistinctDates(s)
    ensures StrictlySortedByDate(SortByDate(s))
  {
    if s != [] {
      var rest := SortByDate(s[1..]);
      SortDistinctIsStrict(s[1..]);
      forall y | y in rest ensures y.date != s[0].date {
        assert y in multiset(s[1..]);
        var k :| 0 <= k < |s[1..]| && s[1..][k] == y;
        assert s[k + 1] == y;
      }
      InsertFreshDate(s[0], rest);
    }
  }

  /** A strictly sorted series is the only date-sorted arrangement of its rows. */
  lemma {:induction false} SortedArrangementUnique(a: seq<Row>, b: seq<Row>)
    requires StrictlySortedByDate(a) && SortedByDate(b)
    requires multiset(a) == multiset(b)
    ensures a == b
    decreases |a|
  {
    assert |b| == |multiset(b)| == |multiset(a)| == |a|;
    if a != [] {
      SameHead(a, b);
      HeadCancels(a, b);
      SortedArrangementUnique(a[1..], b[1..]);
    }
  }

  lemma SameHead(a: seq<Row>, b: seq<Row>)
    requires StrictlySortedByDate(a) && SortedByDate(b)
    requires multiset(a) == multiset(b) && a != [] && b != []
    ensures a[0] == b[0]
  {
    assert a[0] in multiset(b);
    var j :| 0 <= j < |b| && b[j] == a[0];
    assert b[0] in multiset(a);
    var i :| 0 <= i < |a| && a[i] == b[0];
    assert a[0].date <= a[i].date == b[0].date <= b[j].date == a[0].date;
  }

  lemma HeadCancels<T>(a: seq<T>, b: seq<T>)
    requires a != [] && b != [] && a[0] == b[0]
    requires multiset(a) == multiset(b)
    ensures multiset(a[1..]) == multiset(b[1..])
  {
    assert a == [a[0]] + a[1..] && b == [b[0]] + b[1..];
    assert multiset(a) == multiset{a[0]} + multiset(a[1..]);
    assert multiset(b) == multiset{a[0]} + multiset(b[1..]);
    forall y ensures multiset(a[1..])[y] == multiset(b[1..])[y] {
      assert multiset(a)[y] == multiset(b)[y];
    }
  }

  /** If all dates are distinct, the sorted series does not depend on the
      order in which the rows arrived. */
  lemma SortOrderIndependent(s: seq<Row>, t: seq<Row>)
    requires multiset(s) == multiset(t)
    requires DistinctDates(s)
    ensures SortByDate(s) == SortByDate(t)
  {
    SortDistinctIsStrict(s);
    SortedArrangementUnique(SortByDate(s), SortByDate(t));
  }

  /** The last row of the sorted series carries the latest date. */
  lemma LastIsLatest(s: seq<Row>)
    requires s != []
    ensures forall y :: y in s ==> y.date <= SortByDate(s)[|s| - 1].date
  {
    LastOfArrangement(SortByDate(s), s);
  }

  lemma LastOfArrangement(r: seq<Row>, s: seq<Row>)
    requires SortedByDate(r) && multiset(r) == multiset(s) && |r| == |s| > 0
    ensures forall y :: y in s ==> y.date <= r[|r| - 1].date
  {
    forall y | y in s ensures y.date <= r[|r| - 1].date {
      assert y in multiset(r);
    }
  }

  /** The caller's rows, coerced and put in date order. */
  function SortedSeries(rows: seq<RawRow>, parse: Parser): (s: seq<Row>)
    requires AllCoercible(rows, parse)
    ensures SortedByDate(s) && multiset(s) == multiset(CoercedRows(rows, parse))
    ensures |s| == |rows|
  {
    SortByDate(CoercedRows(rows, parse))
  }

  /** A sheet whose date cells are already the timestamps of a series in
      date order comes out of coercion and sorting as that series. */
  lemma SortedSeriesOfStamped(series: seq<Row>, parse: Parser)
    requires SortedByDate(series)
    ensures AllCoercible(Stamped(series), parse)
    ensures SortedSeries(Stamped(series), parse) == series
  {
    StampedRoundTrip(series, parse);
    SortOfSortedIsIdentity(series);
  }

  /** The balance of the chronologically last row: no coerced row has a
      later date. */
  function LatestBalance(rows: seq<RawRow>, parse: Parser): (cash: real)
    requires AllCoercible(rows, parse) && |rows| > 0
    ensures exists x :: x in CoercedRows(rows, parse) && x.balance == cash
              && forall y :: y in CoercedRows(rows, parse) ==> y.date <= x.date
  {
    var s := SortedSeries(rows, parse);
    LastIsLatest(CoercedRows(rows, parse));
    assert s[|s| - 1] in multiset(CoercedRows(rows, parse));
    s[|s| - 1].balance
  }
}
