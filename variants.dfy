/** The two variants side by side, and the sample sheet the app offers for
    download as a concrete test vector. */
module Variants {
  import opened Common
  import opened Table
  import opened Sorting
  import opened Stats
  import Helpers
  import App

  /** The sample sheet: six month-end dates of 2025 (keys written as
      yyyymmdd) and a balance that falls by 15000 each month. */
  function SampleRows(): seq<RawRow>
  {
    Stamped(SampleSeries())
  }

  /** The sample sheet, coerced. */
  function SampleSeries(): seq<Row>
  {
    [ Row(20250131, 100000.0, []), Row(20250228, 85000.0, []), Row(20250331, 70000.0, []),
      Row(20250430, 55000.0, []), Row(20250531, 40000.0, []), Row(20250630, 25000.0, []) ]
  }

  lemma SampleIsSorted(parse: Parser)
    ensures AllCoercible(SampleRows(), parse)
    ensures SortedSeries(SampleRows(), parse) == SampleSeries()
  {
    assert SortedByDate(SampleSeries());
    SortedSeriesOfStamped(SampleSeries(), parse);
  }

  /** On any sheet whose sorted series is the sample's (the sample sheet
      itself, by `SampleIsSorted`), the app reports an average of -15000
      per period and a runway of 25000 / 15000 periods. */
  lemma SampleFullHistory(rows: seq<RawRow>, parse: Parser)
    requires AllCoercible(rows, parse) && SortedSeries(rows, parse) == SampleSeries()
    ensures App.Analyze(rows, parse).value.avgBurnRate == Some(-15000.0)
    ensures App.Analyze(rows, parse).value.runway == App.Estimated(25000.0, 15000.0)
  {
    App.FiguresFromEnds(rows, parse, 5, 100000.0, 25000.0);
    SampleQuotient();
  }

  lemma SampleQuotient()
    ensures (25000.0 - 100000.0) / (5 as real) == -15000.0
  {
  }

  /** That runway is 25000 / 15000 periods. */
  lemma SampleRunwayPeriods(rows: seq<RawRow>, parse: Parser)
    requires AllCoercible(rows, parse) && SortedSeries(rows, parse) == SampleSeries()
    ensures App.Analyze(rows, parse).value.runway.Estimated?
    ensures App.Periods(App.Analyze(rows, parse).value.runway) == 25000.0 / 15000.0
  {
    SampleFullHistory(rows, parse);
    SamplePeriods();
  }

  lemma SamplePeriods()
    ensures App.Periods(App.Estimated(25000.0, 15000.0)) == 25000.0 / 15000.0
  {
    App.PeriodsOf(25000.0, 15000.0);
  }

  /** On the same sheets the helper reports a burn of 15000 and the same
      runway: the last three changes are all -15000. */
  lemma SampleTrailingWindow(rows: seq<RawRow>, parse: Parser)
    requires AllCoercible(rows, parse) && SortedSeries(rows, parse) == SampleSeries()
    ensures Helpers.CalculateBurnAndRunway(rows, parse)
              == Success(Helpers.BurnRunway(Some(15000.0), Helpers.Finite(25000.0 / 15000.0)))
  {
    Helpers.CalculateUnfold(rows, parse);
    var series := SampleSeries();
    var b := Balances(series);
    assert |b| == 6 && b[2] == 70000.0 && b[5] == 25000.0;
    SampleBurn(b);
    assert series[|series| - 1].balance == 25000.0;
  }

  lemma SampleBurn(b: seq<real>)
    requires |b| == 6 && b[2] == 70000.0 && b[5] == 25000.0
    ensures Helpers.RecentBurn(b) == Some(15000.0)
  {
    Helpers.RecentBurnFromDrop(b, 3, 45000.0);
  }

  /** When the window covers every change (one to four rows), the two
      variants agree: the helper's burn is the app's average negated, and
      one reports a finite runway exactly when the other does, of the same
      length. */
  lemma VariantsAgreeOnShortSeries(rows: seq<RawRow>, parse: Parser)
    requires AllCoercible(rows, parse) && 1 <= |rows| <= Helpers.Window + 1
    ensures Helpers.CalculateBurnAndRunway(rows, parse).Success?
    ensures Helpers.CalculateBurnAndRunway(rows, parse).value.burn
              == Helpers.Negate(App.Analyze(rows, parse).value.avgBurnRate)
    ensures Helpers.CalculateBurnAndRunway(rows, parse).value.runway.Finite? <==>
              App.Analyze(rows, parse).value.runway.Estimated?
    ensures Helpers.CalculateBurnAndRunway(rows, parse).value.runway.Finite? ==>
              Helpers.CalculateBurnAndRunway(rows, parse).value.runway.periods
              == App.Periods(App.Analyze(rows, parse).value.runway)
  {
    App.AnalyzeUnfold(rows, parse);
    Helpers.CalculateUnfold(rows, parse);
    var series := SortedSeries(rows, parse);
    var b := Balances(series);
    Helpers.ShortSeriesUsesAllChanges(b);
    DropNaOfDiff(b);
  }

  /** Both variants refuse the same sheets: a date cell that does not parse. */
  lemma VariantsShareDatePolicy(rows: seq<RawRow>, parse: Parser)
    ensures App.Analyze(rows, parse).Failure? <==>
              Helpers.CalculateBurnAndRunway(rows, parse) == Failure(DateParseError)
  {
    Helpers.CalculateErrors(rows, parse);
  }

  /** A sheet that fell early and has been flat for the last three months. */
  function EarlyDropRows(): seq<RawRow>
  {
    Stamped(EarlyDropSeries())
  }

  lemma EarlyDropAverage(b: seq<real>)
    requires |b| == 5 && b[0] == 100.0 && b[4] == 0.0
    ensures App.AverageBurnRate(b) == Some(-25.0)
  {
    App.AverageFromChange(b, 4, -100.0);
  }

  lemma EarlyDropBurn(b: seq<real>)
    requires |b| == 5 && b[1] == 0.0 && b[4] == 0.0
    ensures Helpers.RecentBurn(b) == Some(0.0)
  {
    Helpers.RecentBurnFromDrop(b, 3, 0.0);
  }

  lemma EarlyDropEstimate(series: seq<Row>)
    requires |series| == 5 && series[4].balance == 0.0
    ensures App.EstimateRunway(series, Some(-25.0)) == App.Estimated(0.0, 25.0)
  {
    App.EstimateFor(series, -25.0, 0.0);
  }

  /** Beyond four rows the variants can disagree: on a sheet that fell early
      and then stayed flat, whatever its dates and other cells (such as
      `EarlyDropRows`, by `EarlyDropIsSorted`), the app reports a runway, of
      zero periods, while the helper reports none. */
  lemma VariantsDifferOnLongerSeries(rows: seq<RawRow>, parse: Parser)
    requires AllCoercible(rows, parse)
    requires Balances(SortedSeries(rows, parse)) == [100.0, 0.0, 0.0, 0.0, 0.0]
    ensures App.Analyze(rows, parse).value.runway == App.Estimated(0.0, 25.0)
    ensures Helpers.CalculateBurnAndRunway(rows, parse).value.runway == Helpers.Unbounded
  {
    App.AnalyzeUnfold(rows, parse);
    Helpers.CalculateUnfold(rows, parse);
    var s := SortedSeries(rows, parse);
    var b := Balances(s);
    assert |b| == 5 && b[0] == 100.0 && b[1] == 0.0 && b[4] == 0.0;
    EarlyDropAverage(b);
    assert |s| == 5 && s[4].balance == b[4];
    EarlyDropEstimate(s);
    EarlyDropBurn(b);
  }

  function EarlyDropSeries(): seq<Row>
  {
    [ Row(1, 100.0, []), Row(2, 0.0, []), Row(3, 0.0, []), Row(4, 0.0, []), Row(5, 0.0, []) ]
  }

  lemma EarlyDropIsSorted(parse: Parser)
    ensures AllCoercible(EarlyDropRows(), parse)
    ensures SortedSeries(EarlyDropRows(), parse) == EarlyDropSeries()
    ensures Balances(SortedSeries(EarlyDropRows(), parse)) == [100.0, 0.0, 0.0, 0.0, 0.0]
  {
    assert SortedByDate(EarlyDropSeries());
    SortedSeriesOfStamped(EarlyDropSeries(), parse);
    EarlyDropBalances();
  }

  lemma EarlyDropBalances()
    ensures Balances(EarlyDropSeries()) == [100.0, 0.0, 0.0, 0.0, 0.0]
  {
    var b := Balances(EarlyDropSeries());
    assert |b| == 5 && b[0] == 100.0 && b[1] == 0.0 && b[2] == 0.0 && b[3] == 0.0 && b[4] == 0.0;
  }
}
