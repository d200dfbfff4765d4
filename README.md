# Stock scanner screening core, in Dafny

This project models the screening pipeline of `run_scanner` in `main.py`.
The scanner walks a fixed list of 14 ticker symbols and downloads each one's
daily bars (close, volume). It skips a series shorter than 151 bars. For a
long enough series it computes:

- the 50- and 150-bar simple moving averages (MA50, MA150);
- the 20-bar average volume and the relative volume (RVOL), guarded against
  a zero average;
- the percentage change from the close at `iloc[-126]`.

A ticker is kept when the latest close is strictly within 5% of MA50 or of
MA150. Each kept ticker is labelled:

- "Near MA50", which takes priority, or "Near MA150";
- "💎 RECOVERY" when the change is below −30%, otherwise "Standard".

It is then enriched by `get_detailed_info` with up to two news links and the
text of the first row of the insider-transaction table. One `try` covers both
reads: if either raises, both columns take the placeholders "No News" and
"No Data". A ticker whose processing raises is skipped, and the scan
goes on. The page written at the end is either "No matches today." or a
table of the results.

Modules:

- `Signals` (signals.dfy): the bar series, the trailing means, RVOL, and the
  percentage distance and change. Reals are exact.
- `Screening` (screening.dfy): the length guard and the proximity rule, with
  the `Type` and `Condition` labels.
- `Enrichment` (enrichment.dfy): `get_detailed_info` as a specification
  function and as a method with the link-building loop.
- `Scanner` (scanner.dfy): the scan loop as a method, `Scan`, proved equal to
  a specification function. It also holds the report choice and the properties
  of the results list.
- `Wrappers` (wrappers.dfy): `Option`.

The percentage rules are stated twice. The functions compute them with the
divisions the code performs. The contracts and lemmas restate them without
division: the price lies strictly inside a 5% band around the average, or
below 70% of a positive old close (the inequality flips for a negative one).
They also prove the two forms agree.

The market-data download and the per-ticker news/insider lookup are network
calls. They appear as parameters, `download: string -> Download` and
`lookup: string -> Lookup`. A `Download` is either a failure or a frame of
bars. A `Lookup` is either a failure or the news list together with the
optional insider table.

Facts of main.py the model keeps:

- Results stay in scan order; nothing sorts them (main.py:64).
- The recovery test is the strict `drop_6m < -30` (main.py:67).
- The "six-month" close is `iloc[-126]`, 125 bars before the latest bar
  (main.py:55).
- The length guard is `len(df) < 151` (main.py:35).
- The insider column is the first row's `Text` exactly as provided
  (main.py:19).

A worked case: a price of 100 with MA50 96 and MA150 97 is 4.17% and 3.09%
away, both under 5%, so it is accepted as "Near MA50"
(`Screening.CaseBothNear`).

## Model

| member | source | states |
|---|---|---|
| `Signals.RelativeVolume` | main.py:51-52 | RVOL is 0 when the 20-bar average volume is 0; otherwise RVOL times that average is the latest volume. It has no failure path. |
| `Signals.TrailingMean` | main.py:43-44 | The last entry of a rolling mean times its window is the sum of the last `w` values. |
| `Signals.Distance` | main.py:59-60 | The distance is non-negative, and times `abs(ma)` it is `abs(price - ma) * 100`. |
| `Signals.Change` | main.py:56 | The change times its base is `(price - base) * 100`. |
| `Signals.ComputeSignals` | main.py:43-55 | Price is the latest close. The six-month close is the one 125 bars before it. MA50, MA150 and the average volume times their window equal the sums over exactly the last 50, 150 and 20 bars. The RVOL relation holds. |
| `Signals.TrailingMeanBounds` | main.py:43-44 | A moving average lies between any lower and upper bound of the values in its window. |
| `Signals.TrailingMeanPositive` | main.py:43-44 | A moving average over positive closes is positive. |
| `Signals.TrailingMeanNonNegative` | main.py:51 | A moving average over non-negative volumes is non-negative. |
| `Signals.RelativeVolumeNonNegative` | main.py:51-52 | With non-negative volumes, RVOL is non-negative. |
| `Signals.DistanceBelow` | main.py:59-60 | `abs((p - ma) / ma) * 100 < t` holds exactly when `abs(p - ma) * 100 < t * abs(ma)`. |
| `Signals.ChangeBelow` | main.py:56 | `((p - b) / b) * 100 < t` holds exactly when `(p - b) * 100` is below `t * b` for a positive `b`, or above it for a negative `b`. |
| `Signals.SignalsReadOnlyLastBars` | main.py:43-55 | Two series of at least 151 bars that agree on their last 150 bars get the same snapshot. |
| `Screening.Classify` | main.py:55-68 | The rule fails exactly when the six-month close, MA50 or MA150 is zero, and the error names the first zero divisor in code order: the six-month close, then MA50, then MA150. It accepts exactly when the price is within the 5% band of MA50 or of MA150. An accepted candidate carries the price and RVOL. Its condition is Near MA50 exactly when the MA50 band holds. Its type is Recovery exactly when the change is below −30%. |
| `Screening.Screen` | main.py:35-68 | A series is too short exactly when it has fewer than 151 bars; this includes the empty frame. An accepted series is priced at its latest close. |
| `Screening.ScreenAcceptsWithinBand` | main.py:43-62 | A long enough series is accepted exactly when its three divisors are non-zero and its latest close lies in the 5% band of the 50- or 150-bar mean of its closes. |
| `Screening.NearMA150OnlyOutsideMA50Band` | main.py:68 | Near MA150 is given exactly when the price is outside the MA50 band and inside the MA150 band. |
| `Screening.KindDoesNotAffectAcceptance` | main.py:62-68 | Changing the six-month close to any other non-zero value leaves the verdict and the condition unchanged. |
| `Screening.ScreenReadsOnlyLastBars` | main.py:43-60 | The outcome of a series of at least 151 bars depends only on its last 150 bars. |
| `Screening.PositiveClosesNeverFail` | main.py:55-60 | If every close is positive, screening never raises a division error. |
| `Screening.FlatSeriesIsNearMA50` | main.py:43-68 | A series whose last 150 closes all equal a non-zero value is accepted as Near MA50. |
| `Screening.KindLabel` | main.py:67 | The Type string is "💎 RECOVERY" or "Standard", and it starts with the gem character exactly for Recovery. |
| `Screening.ConditionLabel` | main.py:68 | The Condition string is "Near MA50" or "Near MA150", and it is the 9-character "Near MA50" exactly for NearMA50. |
| `Screening.LabelsAreDistinct` | main.py:67-68 | Two Type strings are equal exactly when the kinds are, and likewise for Condition strings. |
| `Screening.CaseNearMA50` | main.py:59-68 | Price 100, MA50 98, MA150 120 is accepted as Near MA50 and Standard. |
| `Screening.CaseBothFar` | main.py:59-62 | Price 100, MA50 90, MA150 120 is rejected. |
| `Screening.CaseBothNear` | main.py:59-68 | Price 100, MA50 96, MA150 97 is accepted as Near MA50. |
| `Screening.CaseDropOfThirtyIsStandard` | main.py:55-67 | A change of exactly −30% gives Standard. |
| `Screening.CaseDeepDropIsRecovery` | main.py:55-67 | A change of −31% gives Recovery. |
| `Enrichment.Headlines` | main.py:8 | The result is the prefix of the news list of length min(2, its length). |
| `Enrichment.NewsLink` | main.py:11-13 | The link is a bullet, then an anchor whose `href` is the item's link (or "#" when it has none) and whose text is its title (or "News"), each at a fixed position. |
| `Enrichment.Join` | main.py:21 | Joining one part gives that part; joining two gives them with the separator between. The join starts with the first character of the first part. |
| `Enrichment.JoinSnoc` | main.py:21 | Appending one more part to a non-empty join adds a separator and that part. |
| `Enrichment.InsiderSummary` | main.py:16-19 | A missing or empty insider table gives "No Recent Data". Otherwise the first row's text passes through unchanged, with "Transaction Reported" when the text is missing. |
| `Enrichment.DetailedInfo` | main.py:4-23 | A failed lookup gives ("No News", "No Data"). The news column is "No News" exactly when the lookup failed or returned no news. With one news item it is that item's link; with two or more, the first two links joined by `<br>`. A successful lookup's insider column is the insider summary. |
| `Enrichment.GetDetailedInfo` | main.py:4-23 | The loop that builds the links returns exactly the pair `DetailedInfo` specifies. |
| `Enrichment.NewsFromFirstTwoItems` | main.py:8-13 | News items after the second never change the enrichment. |
| `Scanner.TypeColumn` | main.py:67 | A row's Type column is "💎 RECOVERY" exactly when its kind is Recovery, and "Standard" for a Standard kind. |
| `Scanner.ConditionColumn` | main.py:68 | A row's Condition column is "Near MA50" exactly when its condition is NearMA50, and "Near MA150" for NearMA150. |
| `Scanner.RecordOf` | main.py:64-72 | A row carries the ticker, the candidate's price, type, condition and RVOL, and the (news, insider) pair of its lookup. |
| `Scanner.ScanAll` | main.py:32-75 | The results list is no longer than the ticker list, and every row names a matching ticker of the list. |
| `Scanner.Process` | main.py:33-75 | A ticker yields a row exactly when its download succeeded and its series is accepted. The row names the ticker and carries its candidate and its enrichment. |
| `Scanner.Render` | main.py:78-103 | The report is the no-matches page exactly when there are no results; otherwise it is a non-empty table of exactly the results. |
| `Scanner.Scan` | main.py:32-75 | The loop over any ticker list returns exactly the scan's results list. |
| `Scanner.RunScanner` | main.py:25-103 | Over the fixed list, it returns the scan's results and the report chosen from them. |
| `Scanner.CollectAppend` | main.py:32-75 | Scanning a list in two parts concatenates the two results lists. |
| `Scanner.CollectOrder` | main.py:32-64 | If each row names its own ticker and rows exist exactly where the filter holds, the rows name the filtered tickers in list order. |
| `Scanner.SkippedTickerDoesNotStopScan` | main.py:73-75 | A ticker that yields no row, for any reason, leaves the results of the tickers before and after it unchanged. |
| `Scanner.ScanOrder` | main.py:32-64 | The results name exactly the matching tickers, in list order. |
| `Scanner.ScanAllLength` | main.py:32-64 | There are never more results than tickers. |
| `Scanner.ScanAllSound` | main.py:62-72 | Every result belongs to a matching ticker of the list. It is built from that ticker's candidate and lookup. |
| `Scanner.ScanAllComplete` | main.py:62-64 | The record of every matching ticker is among the results. |
| `Scanner.AtMostOneRecordPerTicker` | main.py:32-64 | A list without repeated symbols gives results without repeated tickers. |
| `Scanner.TickersAreDistinct` | main.py:27 | The fixed ticker list has no repeated symbol. |
| `Scanner.OneRowPerTicker` | main.py:27-64 | The real scan yields at most one row per ticker. |
| `Scanner.EnrichmentNeverDropsRecords` | main.py:63-72 | Which tickers appear in the results does not depend on what the lookups return or whether they fail. |
| `Scanner.ShortSeriesGivesNoRecord` | main.py:35-36 | A ticker whose frame has fewer than 151 bars adds no row. |

## Left out

- The market-data download, the news list and the insider table (main.py:6, 8, 16, 34) come from network calls. They are function parameters, and each call on a ticker is assumed to give the same answer.
- Price and RVOL are kept as reals. Their display strings (`f"{price:.2f}$"`, `f"{rvol:.2f}"`, main.py:66, 69) are display rounding and are not modelled.
- IEEE floating point is not modelled. Arithmetic is exact, so there is no rounding, no NaN and no infinity. In the code a NaN inside a close window makes that average NaN and its band test false. A NaN inside the 20-bar volume window passes the `avg_vol != 0` test of main.py:52, so RVOL becomes NaN and the ticker can still be accepted. A NaN six-month close makes the Type "Standard"; the model has no NaN.
- The pandas mechanics are not modelled. The `rolling(...).mean()` columns become the mean of the last values. MultiIndex flattening (main.py:39-40) and the results DataFrame (main.py:79) are shape handling.
- A frame without a `Close` or `Volume` column is not modelled separately. The exception it would raise is folded into a failed download.
- Any exception inside `get_detailed_info` becomes a single failed lookup. The model does not distinguish whether the news or the insider read failed, because both give the same placeholders.
- The HTML and CSS of the results page, its timestamp and the writes of index.html (main.py:80-103) are not modelled. The report is `NoMatches` or `Table(rows)`; the text of the "No matches today." page (main.py:103) is not modelled.
- The `print` diagnostics (main.py:30, 74) are not modelled.
