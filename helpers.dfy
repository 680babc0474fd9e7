/** The trailing-window variant (helpers.py, `calculate_burn_and_runway`):
    sort by date, take the monthly changes, average the last three of them,
    negate that average to get the burn, and divide the latest balance by
    the burn when the burn is positive. */
module Helpers {
  import opened Common
  import opened Table
  import opened Sorting
  import opened Stats
  import opened Frames

  /** The name of the column the function adds to its sorted copy. */
  const MonthlyChange := "Monthly Change"

  /** The number of most recent monthly changes that are averaged. */
  const Window: nat := 3

  /** The runway: a finite number of periods, or `inf` when the balance is
      not shrinking. */
  datatype Runway = Finite(periods: real) | Unbounded

  /** The pair the function returns; a burn of `None` is pandas' NaN. */
  datatype BurnRunway = BurnRunway(burn: Option<real>, runway: Runway)

  /** Multiplication by -1; NaN stays NaN. */
  function Negate(m: Option<real>): (r: Option<real>)
    ensures r.Some? <==> m.Some?
    ensures r.Some? ==> r.value + m.value == 0.0
  {
    match m
    case None => None
    case Some(v) => Some(-v)
  }

  /** `df["Monthly Change"].dropna().tail(3).mean() * -1`. */
  function RecentBurn(b: seq<real>): Option<real>
  {
    Negate(Mean(Tail(DropNa(DiffColumn(b)), Window)))
  }

  /** `current_cash / recent_burn if recent_burn > 0 else inf`; a NaN burn
      fails the comparison. */
  function RunwayFor(cash: real, burn: Option<real>): (r: Runway)
    ensures r.Finite? <==> burn.Some? && burn.value > 0.0
  {
    if burn.Some? && burn.value > 0.0 then Finite(cash / burn.value) else Unbounded
  }

  /** A finite runway is the number of periods the cash lasts at the burn:
      runway times burn is the cash, and the runway is not negative while the
      cash is not. */
  lemma RunwayLastsTheCash(cash: real, burn: Option<real>)
    ensures RunwayFor(cash, burn).Finite? ==> RunwayFor(cash, burn).periods * burn.value == cash
    ensures RunwayFor(cash, burn).Finite? && cash >= 0.0 ==> RunwayFor(cash, burn).periods >= 0.0
  {
    if burn.Some? && burn.value > 0.0 {
      assert (cash / burn.value) * burn.value == cash;
    }
  }

  /** Burn and runway of a series that is already in date order; `iloc[-1]`
      on an empty frame raises. */
  function FromSorted(series: seq<Row>): Result<BurnRunway>
  {
    if |series| == 0 then Failure(EmptySeries)
    else
      var burn := RecentBurn(Balances(series));
      Success(BurnRunway(burn, RunwayFor(series[|series| - 1].balance, burn)))
  }

  /** The whole function, from the caller's rows. */
  function CalculateBurnAndRunway(rows: seq<RawRow>, parse: Parser): Result<BurnRunway>
  {
    match CoerceDates(rows, parse)
    case Failure(e) => Failure(e)
    case Success(c) => FromSorted(SortByDate(c))
  }

  /** The burn is the mean of the last `m = min(3, n - 1)` changes, negated;
      by telescoping it is the drop over the last `m` periods divided by
      `m`. With fewer than two balances there is no change and the burn is
      NaN. */
  lemma RecentBurnIsTrailingMean(b: seq<real>)
    ensures RecentBurn(b).Some? <==> |b| >= 2
    ensures |b| >= 2 ==> RecentBurn(b).value == TrailingDrop(b) / (TrailingCount(b) as real)
  {
    DropNaOfDiff(b);
    if |b| >= 2 {
      TrailingChangesTelescope(b, Window);
      NegatedMean(Tail(Changes(b), Window), TrailingDrop(b));
    }
  }

  /** The burn from the drop `d` over the `m` periods of the window. */
  lemma RecentBurnFromDrop(b: seq<real>, m: nat, d: real)
    requires |b| >= 2 && TrailingCount(b) == m && TrailingDrop(b) == d
    ensures RecentBurn(b) == Some(d / (m as real))
  {
    RecentBurnIsTrailingMean(b);
  }

  /** The number of changes the window averages: `min(3, n - 1)`. */
  function TrailingCount(b: seq<real>): nat
    requires |b| >= 2
  {
    Min(Window, |b| - 1)
  }

  /** How far the balance fell over the window. */
  function TrailingDrop(b: seq<real>): real
    requires |b| >= 2
  {
    b[|b| - 1 - TrailingCount(b)] - b[|b| - 1]
  }

  /** The negated mean of values that add up to `-d` is `d` over their count. */
  lemma NegatedMean(s: seq<real>, d: real)
    requires |s| > 0 && Sum(s) == -d
    ensures Negate(Mean(s)).value == d / (|s| as real)
  {
    MeanTimesCount(s);
  }

  /** When at most three changes exist, all of them are averaged. */
  lemma ShortSeriesUsesAllChanges(b: seq<real>)
    requires |b| <= Window + 1
    ensures RecentBurn(b) == Negate(Mean(Changes(b)))
  {
    DropNaOfDiff(b);
    assert Tail(Changes(b), Window) == Changes(b);
  }

  /** Only the last four rows of the sorted series matter: rows before them
      may carry any balance without changing burn or runway. */
  lemma OnlyLastFourRowsMatter(s: seq<Row>, t: seq<Row>)
    requires |s| == |t|
    requires forall i :: 0 <= i < |s| && i >= |s| - (Window + 1) ==> s[i].balance == t[i].balance
    ensures FromSorted(s) == FromSorted(t)
  {
    if |s| > 0 {
      var b, c := Balances(s), Balances(t);
      RecentBurnIsTrailingMean(b);
      RecentBurnIsTrailingMean(c);
      assert RecentBurn(b) == RecentBurn(c);
    }
  }

  /** A sheet whose dates all parse gets the figures of its sorted series. */
  lemma CalculateUnfold(rows: seq<RawRow>, parse: Parser)
    requires AllCoercible(rows, parse)
    ensures CalculateBurnAndRunway(rows, parse) == FromSorted(SortedSeries(rows, parse))
  {
  }

  /** The errors: a date that does not parse, else an empty frame. */
  lemma CalculateErrors(rows: seq<RawRow>, parse: Parser)
    ensures var r := CalculateBurnAndRunway(rows, parse);
      && (r.Failure? && r.error == DateParseError <==> !AllCoercible(rows, parse))
      && (r.Failure? && r.error == EmptySeries <==> AllCoercible(rows, parse) && |rows| == 0)
      && (r.Success? <==> AllCoercible(rows, parse) && |rows| > 0)
  {
  }

  /** What a successful call reports: the negated trailing mean of the
      sorted series, and a finite runway exactly when that burn is
      positive, equal to the balance of the row with the latest date
      divided by the burn. */
  lemma CalculateFigures(rows: seq<RawRow>, parse: Parser)
    requires AllCoercible(rows, parse) && |rows| > 0
    ensures CalculateBurnAndRunway(rows, parse).Success?
    ensures CalculateBurnAndRunway(rows, parse).value.burn.Some? <==> |rows| >= 2
    ensures |rows| >= 2 ==> (CalculateBurnAndRunway(rows, parse).value.burn.value
              == TrailingDrop(Balances(SortedSeries(rows, parse)))
                 / (TrailingCount(Balances(SortedSeries(rows, parse))) as real))
    ensures CalculateBurnAndRunway(rows, parse).value.runway
              == RunwayFor(LatestBalance(rows, parse), CalculateBurnAndRunway(rows, parse).value.burn)
  {
    RecentBurnIsTrailingMean(Balances(SortedSeries(rows, parse)));
  }

  /** If all dates are distinct, the result does not depend on the order of
      the caller's rows. */
  lemma CalculateOrderIndependent(rows: seq<RawRow>, rows': seq<RawRow>, parse: Parser)
    requires multiset(rows) == multiset(rows')
    requires AllCoercible(rows, parse) ==> DistinctDates(CoercedRows(rows, parse))
    ensures CalculateBurnAndRunway(rows, parse) == CalculateBurnAndRunway(rows', parse)
  {
    CoercionPermutes(rows, rows', parse);
    if AllCoercible(rows, parse) {
      SortOrderIndependent(CoercedRows(rows, parse), CoercedRows(rows', parse));
    }
  }

  /** The function step by step on the caller's frame: the caller sees its
      date column overwritten with timestamps (when they all parse); the
      sorted copy that gains the "Monthly Change" column is discarded. */
  method CalculateBurnAndRunwayOnFrame(df: Frame, parse: Parser) returns (r: Result<BurnRunway>)
    requires df.Valid()
    modifies df
    ensures df.Valid() && df.columns == old(df.columns)
    ensures df.rows == if AllCoercible(old(df.rows), parse)
                       then Stamped(CoercedRows(old(df.rows), parse)) else old(df.rows)
    ensures r == CalculateBurnAndRunway(old(df.rows), parse)
  {
    var ok := df.CoerceDateColumn(parse);
    if !ok {
      return Failure(DateParseError);
    }
    ghost var c := CoercedRows(old(df.rows), parse);
    StampedRoundTrip(c, parse);
    var sorted := df.SortValuesByDate();
    StampedRoundTrip(SortByDate(c), parse);
    var change := DiffColumn(Balances(Typed(sorted.rows)));
    sorted.SetColumn(MonthlyChange, NumberColumn(change));
    var burn := Negate(Mean(Tail(DropNa(change), Window)));
    if |sorted.rows| == 0 {
      return Failure(EmptySeries);
    }
    var cash := sorted.rows[|sorted.rows| - 1].balance;
    r := Success(BurnRunway(burn, RunwayFor(cash, burn)));
  }
}
