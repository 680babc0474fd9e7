/** The full-history variant (the inline pipeline of app.py): strict date
    coercion, sort by date, the mean of all successive changes as a signed
    average burn rate, a runway only when that average is negative, and the
    bounded excerpt of the series that goes into the summary prompt. */
module App {
  import opened Common
  import opened Table
  import opened Sorting
  import opened Stats
  import opened Frames

  /** The name of the column the script adds to the sorted frame. */
  const CashDiff := "cash_diff"

  /** The number of latest rows the prompt excerpt shows. */
  const ExcerptRows: nat := 10

  /** A runway estimate, or the "not available" warning. An estimate
      records the two operands of `current_cash / abs(avg_burn_rate)`;
      `Periods` is their quotient. */
  datatype Estimate = Estimated(cash: real, magnitude: real) | NotAvailable

  /** What the script computes before any of it is rendered: the sorted
      series, `avg_burn_rate` (`None` is NaN) and the runway branch taken. */
  datatype Analysis = Analysis(series: seq<Row>, avgBurnRate: Option<real>, runway: Estimate)

  function Abs(x: real): real
  {
    if x < 0.0 then -x else x
  }

  /** `df['cash_diff'] = df[cashflow_col].diff()` then `df['cash_diff'].mean()`,
      which skips the leading NaN. */
  function AverageBurnRate(b: seq<real>): (avg: Option<real>)
    ensures avg.Some? <==> |b| >= 2
  {
    DropNaOfDiff(b);
    Mean(DropNa(DiffColumn(b)))
  }

  /** The branch at the runway: a value when the average is negative,
      computed from the last balance of the sorted series. */
  function EstimateRunway(series: seq<Row>, avg: Option<real>): (e: Estimate)
    requires avg.Some? ==> |series| > 0
    ensures e.Estimated? <==> avg.Some? && avg.value < 0.0
    ensures e.Estimated? ==> e.cash == series[|series| - 1].balance && e.magnitude == -avg.value
  {
    if avg.Some? && avg.value < 0.0 then
      Estimated(series[|series| - 1].balance, Abs(avg.value))
    else
      NotAvailable
  }

  /** `runway_periods`: the number of periods the cash lasts at that rate,
      not negative while the cash is not. */
  function Periods(e: Estimate): (p: real)
    requires e.Estimated? && e.magnitude > 0.0
    ensures p * e.magnitude == e.cash
    ensures e.cash >= 0.0 ==> p >= 0.0
  {
    QuotientTimes(e.cash / e.magnitude, e.cash, e.magnitude);
    e.cash / e.magnitude
  }

  lemma PeriodsOf(cash: real, magnitude: real)
    requires magnitude > 0.0
    ensures Periods(Estimated(cash, magnitude)) == cash / magnitude
  {
  }

  /** The script, up to the rendering of its figures. A date that does not
      parse stops it before anything is computed. */
  function Analyze(rows: seq<RawRow>, parse: Parser): (r: Result<Analysis>)
    ensures r.Success? <==> AllCoercible(rows, parse)
    ensures r.Success? ==> r.value.series == SortedSeries(rows, parse) && |r.value.series| == |rows|
  {
    match CoerceDates(rows, parse)
    case Failure(e) => Failure(e)
    case Success(c) =>
      var series := SortByDate(c);
      var avg := AverageBurnRate(Balances(series));
      Success(Analysis(series, avg, EstimateRunway(series, avg)))
  }

  /** `df[[date_col, cashflow_col]].tail(10)`: the last `min(10, n)` rows of
      the sorted series, restricted to the two chosen columns, in order. */
  function PromptExcerpt(series: seq<Row>): (e: seq<Point>)
    ensures |e| == Min(ExcerptRows, |series|)
    ensures forall i :: 0 <= i < |e| ==>
              e[i] == Point(series[|series| - |e| + i].date, series[|series| - |e| + i].balance)
  {
    Project(Tail(series, ExcerptRows))
  }

  /** The figures of a sheet whose dates all parse are those of its sorted series. */
  lemma AnalyzeUnfold(rows: seq<RawRow>, parse: Parser)
    requires AllCoercible(rows, parse)
    ensures Analyze(rows, parse) == Success(Analysis(SortedSeries(rows, parse),
              AverageBurnRate(Balances(SortedSeries(rows, parse))),
              EstimateRunway(SortedSeries(rows, parse), AverageBurnRate(Balances(SortedSeries(rows, parse))))))
  {
  }

  /** Strict policy: the script stops, with no figures at all, exactly when
      some date cell does not parse; otherwise it always reaches the figures
      (even for an empty sheet). */
  lemma AnalyzeStrict(rows: seq<RawRow>, parse: Parser)
    ensures Analyze(rows, parse).Failure? <==>
              exists i :: 0 <= i < |rows| && CoerceCell(rows[i].date, parse).None?
    ensures Analyze(rows, parse).Failure? ==> Analyze(rows, parse).error == DateParseError
  {
  }

  /** The series the figures are taken from is the coerced rows in date order. */
  lemma AnalyzeSortsFirst(rows: seq<RawRow>, parse: Parser)
    requires AllCoercible(rows, parse)
    ensures Analyze(rows, parse).Success?
    ensures Analyze(rows, parse).value.series == SortedSeries(rows, parse)
    ensures SortedByDate(Analyze(rows, parse).value.series)
    ensures multiset(Analyze(rows, parse).value.series) == multiset(CoercedRows(rows, parse))
  {
  }

  /** Telescoping: the mean of the n - 1 changes is the overall change
      divided by n - 1; with fewer than two rows it is NaN. */
  lemma {:induction false} AverageTelescopes(b: seq<real>)
    ensures AverageBurnRate(b).Some? <==> |b| >= 2
    ensures |b| >= 2 ==> AverageBurnRate(b).value == (b[|b| - 1] - b[0]) / ((|b| - 1) as real)
  {
    DropNaOfDiff(b);
    if |b| >= 2 {
      ChangesTelescope(b);
      MeanOfSum(Changes(b), b[|b| - 1] - b[0]);
    }
  }

  /** The runway for a negative average `v` and a latest balance `cash`. */
  lemma EstimateFor(series: seq<Row>, v: real, cash: real)
    requires |series| > 0 && series[|series| - 1].balance == cash && v < 0.0
    ensures EstimateRunway(series, Some(v)) == Estimated(cash, -v)
  {
  }

  /** The average from the overall change `d` over `n` periods. */
  lemma AverageFromChange(b: seq<real>, n: nat, d: real)
    requires |b| == n + 1 && n >= 1 && b[n] - b[0] == d
    ensures AverageBurnRate(b) == Some(d / (n as real))
  {
    AverageTelescopes(b);
  }

  lemma MeanOfSum(s: seq<real>, total: real)
    requires |s| > 0 && Sum(s) == total
    ensures Mean(s).value == total / (|s| as real)
  {
    MeanTimesCount(s);
  }

  /** The runway is reported exactly when the average is negative, which is
      exactly when the latest balance is below the earliest; it is then the
      latest balance over the magnitude of the average. */
  lemma RunwayReportedIffShrinking(rows: seq<RawRow>, parse: Parser)
    requires AllCoercible(rows, parse)
    ensures Analyze(rows, parse).value.runway.Estimated? <==>
              Analyze(rows, parse).value.avgBurnRate.Some? && Analyze(rows, parse).value.avgBurnRate.value < 0.0
    ensures Analyze(rows, parse).value.runway.Estimated? <==>
              |rows| >= 2 && LatestBalance(rows, parse) < SortedSeries(rows, parse)[0].balance
    ensures Analyze(rows, parse).value.runway.Estimated? ==>
              Analyze(rows, parse).value.runway.cash == LatestBalance(rows, parse)
              && Analyze(rows, parse).value.runway.magnitude == -Analyze(rows, parse).value.avgBurnRate.value
              && Analyze(rows, parse).value.runway.magnitude > 0.0
  {
    AnalyzeUnfold(rows, parse);
    SeriesRunway(SortedSeries(rows, parse));
  }

  /** On a sorted series: a runway exactly when it ends lower than it started. */
  lemma SeriesRunway(series: seq<Row>)
    ensures EstimateRunway(series, AverageBurnRate(Balances(series))).Estimated? <==>
              |series| >= 2 && series[|series| - 1].balance < series[0].balance
  {
    if |series| >= 2 {
      AverageSign(Balances(series));
      BalancesEnds(series);
    }
  }

  /** The average is negative exactly when the series ends lower than it started. */
  lemma AverageSign(b: seq<real>)
    requires |b| >= 2
    ensures AverageBurnRate(b).value < 0.0 <==> b[|b| - 1] < b[0]
  {
    AverageTelescopes(b);
    DropSign(b[|b| - 1] - b[0], (|b| - 1) as real);
  }

  lemma DropSign(d: real, m: real)
    requires m > 0.0
    ensures d / m < 0.0 <==> d < 0.0
  {
  }

  lemma QuotientTimes(p: real, c: real, d: real)
    requires d > 0.0 && p == c / d
    ensures p * d == c
  {
  }

  /** The app's figures in closed form, from the first and last balances of
      the sorted series and its `n` periods. */
  lemma FiguresFromEnds(rows: seq<RawRow>, parse: Parser, n: nat, first: real, last: real)
    requires AllCoercible(rows, parse) && |rows| == n + 1 && n >= 1
    requires SortedSeries(rows, parse)[0].balance == first
    requires SortedSeries(rows, parse)[n].balance == last
    ensures Analyze(rows, parse).value.avgBurnRate == Some((last - first) / (n as real))
    ensures Analyze(rows, parse).value.runway
              == if last < first then Estimated(last, -((last - first) / (n as real))) else NotAvailable
  {
    AnalyzeUnfold(rows, parse);
    var series := SortedSeries(rows, parse);
    var b := Balances(series);
    assert b[n] == last && b[0] == first;
    AverageFromChange(b, n, last - first);
    DropSign(last - first, n as real);
    assert series[|series| - 1] == series[n];
  }

  /** A flat balance gives an average of zero and no runway. */
  lemma FlatBalanceHasNoRunway(rows: seq<RawRow>, parse: Parser)
    requires AllCoercible(rows, parse) && |rows| >= 2
    requires forall i :: 0 <= i < |rows| ==> rows[i].balance == rows[0].balance
    ensures Analyze(rows, parse).value.avgBurnRate == Some(0.0)
    ensures Analyze(rows, parse).value.runway == NotAvailable
  {
    var series := SortedSeries(rows, parse);
    var b := Balances(series);
    assert b[|b| - 1] == b[0] by {
      assert series[0] in multiset(CoercedRows(rows, parse));
      assert series[|b| - 1] in multiset(CoercedRows(rows, parse));
    }
    FlatAverage(b);
  }

  lemma FlatAverage(b: seq<real>)
    requires |b| >= 2 && b[|b| - 1] == b[0]
    ensures AverageBurnRate(b) == Some(0.0)
  {
    AverageTelescopes(b);
  }

  /** The excerpt shows the most recent rows: in date order, and no row left
      out of it is later than any row in it. */
  lemma ExcerptIsLatest(series: seq<Row>)
    requires SortedByDate(series)
    ensures var e := PromptExcerpt(series);
      && (forall i, j :: 0 <= i < j < |e| ==> e[i].date <= e[j].date)
      && (forall k, i :: 0 <= k < |series| - |e| && 0 <= i < |e| ==> series[k].date <= e[i].date)
  {
  }

  /** If all dates are distinct, the figures do not depend on the order of
      the rows in the sheet. */
  lemma AnalyzeOrderIndependent(rows: seq<RawRow>, rows': seq<RawRow>, parse: Parser)
    requires multiset(rows) == multiset(rows')
    requires AllCoercible(rows, parse) ==> DistinctDates(CoercedRows(rows, parse))
    ensures Analyze(rows, parse) == Analyze(rows', parse)
  {
    CoercionPermutes(rows, rows', parse);
    if AllCoercible(rows, parse) {
      SortOrderIndependent(CoercedRows(rows, parse), CoercedRows(rows', parse));
    }
  }

  /** The rows `SetColumn` leaves behind when it writes into the stamped
      rows of a series. */
  lemma SetColumnOnStamped(series: seq<Row>, cols: seq<string>, columns: seq<string>,
                           after: seq<RawRow>, name: string, values: seq<Value>)
    requires forall i :: 0 <= i < |series| ==> |series[i].other| == |cols|
    requires columns == if name in cols then cols else cols + [name]
    requires |after| == |series| && |values| == |series|
    requires forall i :: 0 <= i < |after| ==>
               after[i] == Stamped(series)[i].(other := Put(cols, Stamped(series)[i].other, name, values[i]))
    ensures HoldsWithColumn(columns, after, cols, series, name, values)
  {
  }

  /** `df['cash_diff'] = df[cashflow_col].diff()` on the sorted copy, whose
      rows are the stamped rows of `series`. Returns the `diff` column. */
  method AddCashDiff(f: Frame, ghost series: seq<Row>) returns (diff: seq<Option<real>>)
    requires f.Valid() && f.rows == Stamped(series)
    modifies f
    ensures diff == DiffColumn(Balances(series))
    ensures f.Valid() && AllStamped(f.rows) && Project(Typed(f.rows)) == Project(series)
    ensures CashDiff in f.columns && f.Column(CashDiff) == NumberColumn(diff)
    ensures HoldsWithColumn(f.columns, f.rows, old(f.columns), series, CashDiff, NumberColumn(diff))
  {
    ghost var cols, before := f.columns, f.rows;
    StampedRoundTrip(series, _ => None);
    diff := DiffColumn(Balances(Typed(f.rows)));
    forall i | 0 <= i < |series| ensures |series[i].other| == |cols| {
      assert before[i].other == series[i].other;
    }
    f.SetColumn(CashDiff, NumberColumn(diff));
    ProjectIgnoresOtherColumns(before, f.rows);
    SetColumnOnStamped(series, cols, f.columns, f.rows, CashDiff, NumberColumn(diff));
  }

  /** The script step by step: the date column is overwritten in place,
      `df` is rebound to the sorted copy, and the copy gains the
      "cash_diff" column. Returns the figures and the frame `df` names at
      the end. */
  method RunScript(df: Frame, parse: Parser) returns (r: Result<Analysis>, last: Frame)
    requires df.Valid()
    modifies df
    ensures r == Analyze(old(df.rows), parse)
    ensures last.Valid()
    ensures df.rows == if AllCoercible(old(df.rows), parse)
                       then Stamped(CoercedRows(old(df.rows), parse)) else old(df.rows)
    ensures r.Failure? ==> last == df
    ensures r.Success? ==> (fresh(last) && AllStamped(last.rows)
              && Project(Typed(last.rows)) == Project(r.value.series)
              && CashDiff in last.columns
              && last.Column(CashDiff) == NumberColumn(DiffColumn(Balances(r.value.series))))
    ensures r.Success? ==>
              HoldsWithColumn(last.columns, last.rows, old(df.columns), r.value.series,
                              CashDiff, NumberColumn(DiffColumn(Balances(r.value.series))))
  {
    var ok := df.CoerceDateColumn(parse);
    if !ok {
      return Failure(DateParseError), df;
    }
    ghost var c := CoercedRows(old(df.rows), parse);
    StampedRoundTrip(c, parse);
    last := df.SortValuesByDate();
    StampedRoundTrip(SortByDate(c), parse);
    var series := Typed(last.rows);
    assert series == SortedSeries(old(df.rows), parse);
    var diff := AddCashDiff(last, series);
    var avg := Mean(DropNa(diff));
    assert avg == AverageBurnRate(Balances(series));
    r := Success(Analysis(series, avg, EstimateRunway(series, avg)));
  }
}
