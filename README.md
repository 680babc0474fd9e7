# Burn rate and runway

This project models the calculation at the heart of the burn-rate and runway
analyzer. A sheet of rows, each with a date and a cash balance, is turned
into a burn figure and a runway, meaning how many periods the cash lasts at
that burn. The repository computes this in two slightly different ways, and
both are modelled:

- **The trailing-window variant** (`calculate_burn_and_runway` in
  `helpers.py`).
  - It converts the "Date" column in place and sorts by date.
  - It adds a "Monthly Change" column of successive differences.
  - It averages the last (up to) three changes and negates that mean to get
    the burn.
  - It divides the latest balance by the burn when the burn is positive, and
    reports an infinite runway otherwise.
- **The full-history variant** (the inline script in `app.py`).
  - It converts the chosen date column strictly and stops on a parse failure.
  - It sorts, adds a `cash_diff` column, and takes the mean of all changes as
    a signed average burn rate.
  - It reports a runway of latest balance / |average| only when the average
    is negative, and the "not available" warning otherwise. The estimate
    records the two operands of that division, the latest balance and
    |average|. `App.Periods` is the quotient, so the sign test and the
    division are stated apart.
  - It takes the last ten rows of the date and cash columns as the excerpt
    that goes into the summary prompt.

Modelling choices:

- **Dates** are already-parsed ordered integer keys. A date cell is either a
  timestamp or text. Converting text to a date is an abstract parameter
  `parse: string -> Option<int>`, which stands in for `pd.to_datetime`.
- **Arithmetic** is exact `real` arithmetic.
  - pandas' NaN, from the mean of no values, is `None`.
  - so one-row and empty sheets are modelled rather than excluded.
  - An empty frame reaching `iloc[-1]` in `helpers.py` is the `EmptySeries` error.
- **Sorting** is a stable insertion sort.
  - pandas' default sort is not guaranteed to be stable.
  - so results are stated to be independent of row order only when all dates
    are distinct.
- **Frames** are a class `Frames.Frame`, with the extra column names and rows
  of cells.
  - Its methods model the in-place column writes: date conversion, and adding
    or replacing a column.
  - They also model `sort_values` returning a new frame.
  - The methods that run the two variants on a frame
    (`Helpers.CalculateBurnAndRunwayOnFrame`, `App.RunScript`) are proved
    equal to the pure functions `Helpers.CalculateBurnAndRunway` and
    `App.Analyze`.

Modules:

| module | file | contents |
|---|---|---|
| `Common` | common.dfy | `Option`, `Result`, `Error` |
| `Table` | table.dfy | rows and cells, date coercion |
| `Sorting` | sorting.dfy | sort by date |
| `Stats` | stats.dfy | `diff`, `dropna`, `tail`, `mean`, telescoping |
| `Frames` | frames.dfy | the frame class |
| `Helpers` | helpers.dfy | the trailing-window variant |
| `App` | app.dfy | the full-history variant and the excerpt |
| `Variants` | variants.dfy | the two variants compared, and the sample sheet |

## Model

| member | source | states |
|---|---|---|
| Table.CoerceDates | app.py:57-61 | Conversion fails exactly when some date cell does not parse, and the error is a date-parse error. Otherwise every row keeps its balance and other cells and gets the parsed date. |
| Table.CoercionPermutes | app.py:58 | Conversion is row-wise: permuting the rows permutes the converted rows, and one sheet converts exactly when the other does. |
| Table.StampedRoundTrip | helpers.py:10 | Writing parsed dates back into the date column and reading them again gives back the same series. Converting an already-converted column changes nothing. |
| Table.Project | app.py:84 | The restriction to the date and cash columns keeps one point per row, holding that row's date and balance. |
| Table.ProjectIgnoresOtherColumns | app.py:84 | The date/cash projection of a frame does not depend on its other columns. |
| Sorting.SortByDate | helpers.py:11 | The result is in ascending date order, is a permutation of the input, and has the same length. |
| Sorting.SortOfSortedIsIdentity | helpers.py:11 | Sorting a series already in date order leaves it unchanged. |
| Sorting.SortIdempotent | app.py:64 | Sorting twice is the same as sorting once. |
| Sorting.SortDistinctIsStrict | helpers.py:11 | With distinct dates, the sorted series is strictly increasing in date. |
| Sorting.SortOrderIndependent | helpers.py:11 | With distinct dates, the sorted series does not depend on the input order. |
| Sorting.LastIsLatest | helpers.py:15 | The last row of the sorted series has the latest date of all rows. |
| Sorting.SortedSeries | app.py:64 | The figures' series is the converted rows, sorted by date and permuted, with the same number of rows. |
| Sorting.SortedSeriesOfStamped | helpers.py:10-11 | A series already in date order, written out as a sheet of timestamps, converts and sorts back to itself. |
| Sorting.LatestBalance | helpers.py:15 | The current cash is the balance of a row whose date no other row exceeds. |
| Stats.Mean | app.py:71 | The mean is NaN exactly for an empty column. |
| Stats.MeanTimesCount | app.py:71 | For a non-empty column, the mean times the count is the sum. |
| Stats.DiffColumn | helpers.py:13 | `diff`. `Stats.DropNaOfDiff` states its contract: its only NaN is the first entry, and the rest are the successive changes. |
| Stats.DropNa | helpers.py:14 | `dropna`. `Stats.DropNaOfDiff` states its contract on the `diff` column: the result is exactly the n-1 successive changes. |
| Stats.Changes | helpers.py:13 | There are n-1 changes, and change i is balance i+1 minus balance i. |
| Stats.DropNaOfDiff | helpers.py:13-14 | Dropping the NaNs of the `diff` column, whose only NaN is the first row, leaves exactly the n-1 successive changes. |
| Stats.ChangesTelescope | app.py:70-71 | The changes sum to the last balance minus the first. |
| Stats.TrailingChangesTelescope | helpers.py:14 | The last k changes sum to the last balance minus the balance min(k, n-1) rows before it. |
| Stats.Tail | app.py:84 | `tail(k)` has length min(k, n) and is the last part of the sequence. |
| Frames.NumberColumn | helpers.py:13 | A column of changes becomes cells position by position, with NaN as a missing cell. |
| Frames.IndexOf | app.py:70 | A column name is found at its first position. |
| Frames.Frame.CoerceDateColumn | app.py:58 | The date column is overwritten in place with timestamps exactly when every cell parses. Otherwise the frame is unchanged and the call reports failure. |
| Frames.Frame.SortValuesByDate | app.py:64 | A new frame holds the rows sorted by date, and the original frame is not modified. |
| Frames.Frame.SetColumn | app.py:70 | The named column is replaced, or appended when it is new, and holds the given values. Every other column, every date and every balance is unchanged. |
| Helpers.Negate | helpers.py:14 | Multiplying by -1 keeps NaN as NaN and otherwise gives the additive inverse. |
| Helpers.RecentBurn | helpers.py:14 | `diff().dropna().tail(3).mean() * -1` on the sorted balances. `Helpers.RecentBurnIsTrailingMean` states its contract: NaN exactly with fewer than two balances, otherwise the drop over the last min(3, n-1) periods divided by their count. |
| Helpers.FromSorted | helpers.py:13-16 | The figures from an already-sorted series. `Helpers.CalculateUnfold` ties it to the whole function, and `Helpers.CalculateErrors` and `Helpers.CalculateFigures` state what it returns: the empty-series error for no rows, otherwise the trailing burn and `RunwayFor` of the last balance. |
| Helpers.CalculateBurnAndRunway | helpers.py:9-18 | The whole function. `Helpers.CalculateErrors` states its error cases and `Helpers.CalculateFigures` its figures. |
| Helpers.RunwayFor | helpers.py:16 | The runway is finite exactly when the burn is a positive number. Otherwise it is the infinite runway. |
| Helpers.RunwayLastsTheCash | helpers.py:16 | A finite runway times the burn is the cash, and the runway is non-negative when the cash is. |
| Helpers.RecentBurnIsTrailingMean | helpers.py:13-14 | The burn is NaN exactly with fewer than two rows. Otherwise it is the negated mean of the last min(3, n-1) changes: the drop over those periods divided by their count. |
| Helpers.ShortSeriesUsesAllChanges | helpers.py:14 | With at most three changes, the burn is the negated mean of all of them. |
| Helpers.OnlyLastFourRowsMatter | helpers.py:14-16 | Two sorted series of the same length that agree on the balances of their last four rows give the same burn and runway. |
| Helpers.CalculateErrors | helpers.py:10-15 | A date that does not parse gives the date error, and that is the only way to get it. A sheet that parses but is empty gives the empty-series error (`iloc[-1]`). Every other sheet succeeds. |
| Helpers.CalculateFigures | helpers.py:9-18 | On success, the burn is the trailing-window drop over the count of the sorted series (NaN for one row). The runway is `RunwayFor` of the latest balance and that burn. |
| Helpers.CalculateOrderIndependent | helpers.py:11 | With distinct dates, the result does not depend on the order of the input rows. |
| Helpers.CalculateBurnAndRunwayOnFrame | helpers.py:9-18 | The step-by-step run returns `CalculateBurnAndRunway` of the original rows. The caller's frame is left with its date column converted in place, or unchanged when conversion fails. |
| App.AverageBurnRate | app.py:70-71 | The mean of `cash_diff` is a number exactly when there are at least two rows. |
| App.AverageTelescopes | app.py:70-71 | With n >= 2 the average is (last balance - first balance) / (n-1). Otherwise it is NaN. |
| App.EstimateRunway | app.py:75-80 | A runway is estimated exactly when the average is a negative number, and it is then the last balance over -average. Otherwise it is "not available". |
| App.Periods | app.py:77 | The number of periods times the magnitude of the burn is the current cash, and it is non-negative when the cash is. |
| App.FiguresFromEnds | app.py:70-78 | On n+1 rows whose sorted series runs from balance `first` to balance `last`, the average is (last - first) / n. A runway of `last` over (first - last) / n is estimated exactly when last < first. |
| App.Analyze | app.py:57-80 | The script reaches its figures exactly when every date parses, and the series they use is the sorted converted rows. |
| App.AnalyzeStrict | app.py:57-61 | Processing stops, with no figures, exactly when some date cell fails to parse, and the error is the date error. |
| App.AnalyzeSortsFirst | app.py:64 | The series the changes are taken from is sorted by date and a permutation of the converted rows. |
| App.RunwayReportedIffShrinking | app.py:75-78 | A runway is reported exactly when the average is negative, which is exactly when n >= 2 and the latest balance is below the first. It then divides the latest balance by -average, which is positive. |
| App.SeriesRunway | app.py:75 | On any sorted series, a runway is estimated exactly when the series ends lower than it starts. |
| App.AverageSign | app.py:75 | The average is negative exactly when the last balance is below the first. |
| App.FlatBalanceHasNoRunway | app.py:79-80 | A constant balance gives an average of zero and the "not available" branch. |
| App.PromptExcerpt | app.py:84 | The excerpt has min(10, n) rows: the date and balance of the last rows of the series, in order. |
| App.ExcerptIsLatest | app.py:84 | On a sorted series, the excerpt is in date order, and no row left out of it is later than a row in it. |
| App.AnalyzeOrderIndependent | app.py:64 | With distinct dates, the figures do not depend on the order of the input rows. |
| App.RunScript | app.py:57-80 | The script run step by step returns `Analyze` of the original rows. The original frame has its date column converted in place. On success, the frame `df` finally names is new. Row for row it holds the sorted series: its date and balance, and every other cell under the original column names. Its columns are the original ones, with `cash_diff` appended when it is new, and that column is the `diff` of the balances. |
| App.AddCashDiff | app.py:70 | Writing `cash_diff` into the sorted copy returns the `diff` of its balances and leaves that column holding it. Dates, balances and every other cell are kept, and the column list gains `cash_diff` only when it is new. |
| Variants.SampleIsSorted | app.py:27-30 | The sample sheet parses and is already in date order. |
| Variants.SampleFullHistory | app.py:27-30 | On any sheet whose sorted series is the sample's, the app's average is -15000 and its runway divides 25000 by 15000. |
| Variants.SampleRunwayPeriods | app.py:27-30 | On those sheets the app's runway is 25000 / 15000 periods. |
| Variants.SampleTrailingWindow | app.py:27-30 | On those sheets the helper's burn is 15000 and its runway is 25000 / 15000 periods. |
| Variants.VariantsAgreeOnShortSeries | helpers.py:14-16 | With one to four rows, the helper's burn is the app's average negated. The helper has a finite runway exactly when the app estimates one, and then of the same length. |
| Variants.VariantsShareDatePolicy | app.py:57-61 | Both variants refuse exactly the same sheets: those with a date that does not parse. |
| Variants.VariantsDifferOnLongerSeries | helpers.py:14 | With five rows they can disagree. On any sheet whose sorted balances are 100, 0, 0, 0, 0, whatever its dates and other cells, the app estimates a runway of 0 over 25, which is 0 periods, and the helper reports an infinite runway. |

## Left out

- The Streamlit presentation layer is not modelled: title, instructions, select boxes, download button, file uploader, line chart, the rendered markdown and warnings, and `st.stop`. The model ends at the values the script renders and the branch it takes.
- Choosing the date and cash columns is left out. The model starts from rows already reduced to a date cell, a balance and the other cells, so a user who picks the same column for both is not modelled.
- App.EstimateRunway, App.PromptExcerpt, App.RunScript: a chosen column that is itself named `cash_diff` is not modelled. The model keeps the date and the balance apart from the named columns, so writing `cash_diff` never touches them. In the source, `df['cash_diff'] = ...` (app.py:70) overwrites a cash column of that name with its changes. Line 76 then reads the last change as the current cash, and the excerpt (line 84) shows changes as the cash. For example, sorted balances 100, 80, 50 give an average of -25 in both; the source then reports -30 / 25 = -1.2 periods where the model estimates 50 over 25. A date column named `cash_diff` likewise has its dates replaced by changes in the excerpt.
- Reading and writing Excel (`to_excel`, `pd.ExcelFile`, `read_excel`) is foreign library I/O and is left out. The sample sheet is modelled as its rows.
- The internals of `pd.to_datetime` are abstracted as the `parse` parameter. Only "this cell parses to this key" or "it does not" is modelled, for example with no time zones and no mixed formats.
- The OpenAI client, the chat-completion requests, response extraction, API-key loading and error display are network calls and are left out. So is `generate_summary` in `helpers.py`, which is a string template around such a call.
- Text formatting is left out: `to_string`, `£{:,.0f}`, `strftime`, `.1f` and `.2f`. `App.PromptExcerpt` stops at the rows the excerpt holds.
- Floating-point rounding is not modelled. Arithmetic is exact. NaN is modelled only as the mean of no values (`None`), not as propagation from missing balance cells, so every balance is a number.
- Table.CoerceDates, App.AnalyzeStrict, Sorting.LatestBalance: a blank or missing date cell is not modelled as pandas treats it. `pd.to_datetime` turns such a cell into NaT instead of raising. `sort_values` then puts the NaT rows last, so their balance becomes the current cash (`iloc[-1]`) and feeds the last change. The model's cell is a timestamp or text, and `parse` of a blank text either fails the whole sheet or gives an ordinary key. So for sheets with blank dates the model stops where the source goes on, or sorts the row among the dated ones instead of after them.
- Sorting.SortByDate: pandas' default `sort_values` is not stable, so rows with equal dates may come out in any order. The model fixes one admissible order, the stable one, and every order-independence lemma requires distinct dates.

## Findings

None. The two variants give different figures on longer series
(`Variants.VariantsDifferOnLongerSeries`), but that follows from their
different definitions and is not a defect in either.
