# Procurement ingestion and digital-adoption ranking — a Dafny model

The pipeline fetches government tender listings from the eTender JSON API
month by month and writes each page to disk. It consolidates the records
into a master table with five columns (id, title, date, amount, buyer), and
has a language model label every procurement description with a category.
From the labels it computes one row per ministry: Total, Digital, Office,
DigitalShare, PaperPenalty and Score. It then ranks the ministries by Score.

This project models the core of that pipeline and proves properties of the
model:

- `Calendar` (calendar.dfy): `month_range`. This is the closed window from
  the first to the last day of a month, with the `ValueError` that
  `datetime.date` raises outside years 1..9999.
- `Fetch` (fetch.dfy): `make_url`, `fetch_month` and `fetch_period`.
  - Every HTTP request is replaced by the next element of a finite
    transcript of outcomes: a network error, or a status together with a
    decoded body.
  - `fetch_period` receives one transcript per month, through a function
    `server(year, month)`.
  - `FetchMonth` and `FetchPeriod` are imperative loops, as in the source.
    Each is proved equal to a specification function (`MonthSpec`,
    `PeriodSpec`), and the properties of the pagination are proved about
    those functions.
- `Normalize` (normalize.dfy): the inner `norm` of `build_master_csv`
  (Python `or` chains over candidate keys, with Python truthiness), and the
  table it builds, including the headered empty table.
- `Ranking` (ranking.dfy):
  - `step_classify` is a method on a mutable `Frame` class (columns and
    rows). It has the `Description` check, the `ministry` default and the
    `Category` column.
  - `step_aggregate` has the grouping in ascending ministry order, the
    three counts, the shares and score as exact rationals, and the ranking.
- `Text` (text.dfy): the string operations these use, namely `str(n)`,
  `format(n, "0Nd")`, `str.startswith`, and ASCII `str.strip` and
  `str.upper`.

Behaviour of the code a reader may not expect:

- The `or` chains of `norm` fall back to the last candidate (which may be
  `0`, `""` or `[]`), not to None.
- No records are deduplicated.
- `fetch_month` has no page ceiling and no retry budget. A 5xx status ends
  the month like any other status of 400 or more.
- `sort_values` is pandas' default unstable sort, so equal scores may come
  out in any order.
- A missing `ministry` column (not a missing buyer) is what puts rows in
  the `UNKNOWN` group.

## Model

| member | source | states |
|---|---|---|
| Text.Decimal | pipeline/pipeline/fetch_etender.py:50 | `str(page)`: a non-empty run of digits, with no leading zero, whose value is the number |
| Text.DecimalInjective | pipeline/pipeline/fetch_etender.py:104 | two page numbers with the same spelling are equal |
| Text.FormatInt | pipeline/pipeline/fetch_etender.py:59 | `f"{n:04d}"`: exactly max(width, digits) characters, zeros then the decimal digits of n; for a negative n a '-' counted in the width, then zeros, then the digits of -n |
| Text.Strip | pipeline/pipeline/pipeline.py:31 | `strip()` gives no longer a string that neither starts nor ends with whitespace |
| Text.StripIsInfix | pipeline/pipeline/pipeline.py:31 | `strip()` removes only a whitespace prefix and a whitespace suffix |
| Text.StripKeepsTrimmed | pipeline/pipeline/pipeline.py:31 | a string without whitespace at either end is its own strip |
| Text.Upper | pipeline/pipeline/pipeline.py:31 | `upper()` keeps the length, capitalises every letter pointwise and leaves no lower-case letter |
| Calendar.MakeDate | pipeline/pipeline/fetch_etender.py:40 | `date(y, m, d)` succeeds exactly for a real calendar day in years 1..9999, and the error otherwise is ValueError |
| Calendar.NextPrevInverse | pipeline/pipeline/fetch_etender.py:42-44 | stepping one day back and one day forward are inverse |
| Calendar.Yesterday | pipeline/pipeline/fetch_etender.py:42-44 | `d - timedelta(days=1)` is the day whose next day is d; it fails only on 0001-01-01, and then with OverflowError |
| Calendar.MonthRange | pipeline/pipeline/fetch_etender.py:38-45 | succeeds exactly for months with both window ends in years 1..9999 (not December 9999); the window is day 1 to the last day of the month, leap years included; otherwise ValueError |
| Calendar.WindowHoldsItsMonth | pipeline/pipeline/fetch_etender.py:38-45 | a calendar day lies in a month's window iff it belongs to that month |
| Calendar.WindowsAreContiguous | pipeline/pipeline/fetch_etender.py:41-44 | the day after a window's end is the next month's first day, with December rolling over to January |
| Calendar.YearPartition | pipeline/pipeline/fetch_etender.py:120-122 | the twelve windows of a year exist and cover each of its days exactly once, and no day of another year |
| Fetch.MakeUrl | pipeline/pipeline/fetch_etender.py:48-50 | the URL starts with the base, and passes the "http" check iff the base does, whatever the page and dates |
| Fetch.CheckUrl | pipeline/pipeline/fetch_etender.py:66-68 | the check on the built URL succeeds iff the base starts with "http" |
| Fetch.BatchOf | pipeline/pipeline/fetch_etender.py:92-96 | a list body is the batch; an object gives non-empty `results`, else non-empty `items`, else nothing |
| Fetch.Classify | pipeline/pipeline/fetch_etender.py:70-101 | 429 retries; a network error, another status of 400 or more, a non-JSON body or an empty batch stops; a JSON scalar raises AttributeError; a list or object body below 400 (not 429) yields its non-empty batch, or stops when the batch is empty |
| Fetch.StopIndex | pipeline/pipeline/fetch_etender.py:65-101 | the first outcome that ends the month: all outcomes before it continue the loop |
| Fetch.FetchMonth | pipeline/pipeline/fetch_etender.py:53-111 | the loop's end and saved pages equal MonthSpec: the batches before the first stopping outcome, in order, saved as pages 1, 2, ..., and ending as that outcome says |
| Fetch.ResumeStep | pipeline/pipeline/fetch_etender.py:77-80 | a continuing outcome moves the loop from one resumed state to the next (a 429 changes nothing, a batch advances the page) |
| Fetch.MonthLoopMatchesSpec | pipeline/pipeline/fetch_etender.py:62-111 | the page loop agrees with MonthSpec from every point up to the stopping outcome |
| Fetch.BatchesConcat | pipeline/pipeline/fetch_etender.py:108 | the batches of two transcripts in a row are the batches of each, concatenated |
| Fetch.FlattenConcat | pipeline/pipeline/fetch_etender.py:108 | the items of two runs of batches in a row are the items of each, concatenated |
| Fetch.RateLimitRetriesSamePage | pipeline/pipeline/fetch_etender.py:77-80 | a 429 is invisible: the month then behaves as if it had not happened, so the same page is asked again and nothing is counted twice |
| Fetch.StopIndexAt | pipeline/pipeline/fetch_etender.py:65-101 | the month stops at the first outcome that does not continue the loop, whatever follows it |
| Fetch.StopEndsMonth | pipeline/pipeline/fetch_etender.py:70-101 | a stopping outcome returns exactly the batches before it and saves nothing for it; later outcomes are never requested |
| Fetch.ItemsAreSavedPages | pipeline/pipeline/fetch_etender.py:103-109 | the returned items are the saved batches concatenated in page order; every snapshot is non-empty, belongs to the month and is page i + 1 |
| Fetch.BatchesNonEmpty | pipeline/pipeline/fetch_etender.py:99-101 | no empty batch is ever collected |
| Fetch.SnapshotPathDeterminesPage | pipeline/pipeline/fetch_etender.py:104 | distinct pages of a month are written to distinct files |
| Fetch.ThreeTwoZeroExample | pipeline/pipeline/fetch_etender.py:93-109 | pages of sizes 3, 2 and 0 give five items and two saved pages |
| Fetch.VisitMonthIsSpec | pipeline/pipeline/fetch_etender.py:122-123 | a month of the period is `fetch_month` on its transcript when its window exists, and raises before any request otherwise |
| Fetch.PeriodRunCons | pipeline/pipeline/fetch_etender.py:123-125 | one month's result is appended, or its exception ends the period |
| Fetch.PeriodFromIsRun | pipeline/pipeline/fetch_etender.py:120-125 | the nested year and month loops visit exactly the months of Months, in order |
| Fetch.PeriodFromIsSpec | pipeline/pipeline/fetch_etender.py:114-126 | the nested loops starting at January of the start year compute PeriodSpec |
| Fetch.FetchMonthOf | pipeline/pipeline/fetch_etender.py:122-123 | `month_range` then `fetch_month`: a month without a window raises before any request |
| Fetch.FetchPeriod | pipeline/pipeline/fetch_etender.py:114-126 | the nested loops' result and saved pages equal PeriodSpec, the run over every month of the years in order |
| Fetch.MonthsInOrder | pipeline/pipeline/fetch_etender.py:120-121 | 12 months per year from start to end, month i being (start + i / 12, i % 12 + 1); none when start > end |
| Fetch.PeriodConcatenatesMonths | pipeline/pipeline/fetch_etender.py:119-126 | when every month returns, the period returns the months' rows concatenated in visiting order |
| Fetch.EmptyPeriod | pipeline/pipeline/fetch_etender.py:119-126 | a start year after the end year fetches nothing |
| Normalize.FirstTruthy | pipeline/pipeline/fetch_etender.py:141-144 | an `or` chain yields one of its operands, and yields a truthy one iff some operand is truthy |
| Normalize.FirstTruthyPicksEarliest | pipeline/pipeline/fetch_etender.py:141-144 | the `or` chain yields the earliest truthy operand |
| Normalize.FirstTruthyFallsBack | pipeline/pipeline/fetch_etender.py:141-144 | with no truthy operand the chain yields the last one |
| Normalize.AbsentKeysGiveNone | pipeline/pipeline/fetch_etender.py:141-144 | a column whose candidate keys are all absent is None |
| Normalize.FieldPicksEarliestTruthy | pipeline/pipeline/fetch_etender.py:141-144 | a column takes the value of its earliest truthy candidate key |
| Normalize.NestedBuyerUnwrapped | pipeline/pipeline/fetch_etender.py:136-138 | a non-empty `buyer` dict is replaced by its name, whatever procuringEntity holds |
| Normalize.NormAll | pipeline/pipeline/fetch_etender.py:151 | `[norm(x) for x in items]` succeeds iff every item is a dict, with one row per item in order |
| Normalize.BuildMaster | pipeline/pipeline/fetch_etender.py:148-151 | no items give the five headers and no rows; otherwise the five headers and one normalised row per item in order, or AttributeError when some item is not a dict |
| Ranking.CategoryOf | pipeline/pipeline/pipeline.py:31 | a label has no lower-case letter, no whitespace at either end, and is no longer than the reply |
| Ranking.CategoryOfIdempotent | pipeline/pipeline/pipeline.py:31 | normalising a label again changes nothing |
| Ranking.Frame.constructor | pipeline/pipeline/pipeline.py:34 | the table read has distinct columns, and every row has exactly those columns |
| Ranking.Frame.SetColumn | pipeline/pipeline/pipeline.py:38-39 | `df[name] = values` overwrites or appends the column, sets its cell in every row, keeps every other cell, and keeps the table well formed |
| Ranking.ClassifiedRow | pipeline/pipeline/pipeline.py:37-39 | a classified row gains Category (and ministry = UNKNOWN when the table had none), keeping every other cell |
| Ranking.StepClassify | pipeline/pipeline/pipeline.py:33-41 | raises, changing nothing, iff there is no Description column; otherwise adds ministry = UNKNOWN when missing and Category for every row, and changes nothing else |
| Ranking.LexLessTransitive | pipeline/pipeline/pipeline.py:45 | Python's string order is transitive |
| Ranking.LexLessTotal | pipeline/pipeline/pipeline.py:45 | Python's string order is total |
| Ranking.GroupKeys | pipeline/pipeline/pipeline.py:45 | the groups are the ministries that occur, strictly ascending |
| Ranking.AscendingKeysDistinct | pipeline/pipeline/pipeline.py:45 | no ministry forms two groups |
| Ranking.Count | pipeline/pipeline/pipeline.py:46 | a group's Total is at most the number of rows |
| Ranking.CountPositive | pipeline/pipeline/pipeline.py:45-46 | a ministry that occurs has Total at least 1 |
| Ranking.DigitalAndOfficeWithinTotal | pipeline/pipeline/pipeline.py:47-48 | Digital + Office <= Total, since OFFICE is not a digital category |
| Ranking.AllOfficeCounts | pipeline/pipeline/pipeline.py:48 | when every row of a group is OFFICE, Office = Total and Digital = 0 |
| Ranking.AllDigitalCounts | pipeline/pipeline/pipeline.py:47 | when every row of a group is digital, Digital = Total and Office = 0 |
| Ranking.Summaries | pipeline/pipeline/pipeline.py:49 | one summary per group key, in key order |
| Ranking.GroupsAreInhabited | pipeline/pipeline/pipeline.py:45-46 | every group has at least one row, so no share divides by zero |
| Ranking.Aggregate | pipeline/pipeline/pipeline.py:45-52 | one row per group key in ascending order, each the summary of that ministry with a positive Total |
| Ranking.OneRowPerMinistry | pipeline/pipeline/pipeline.py:45-49 | the table's ministries are strictly ascending and distinct, and are exactly those of the input |
| Ranking.ScoreBounds | pipeline/pipeline/pipeline.py:50-52 | shares lie in [0, 1] and sum to at most 1, so Score lies in [-20, 100] |
| Ranking.AggregateBounds | pipeline/pipeline/pipeline.py:45-52 | every aggregated row has Digital + Office <= Total and obeys the share and score bounds |
| Ranking.ScoredExtremes | pipeline/pipeline/pipeline.py:50-52 | only office purchases score -20, only digital ones 100 |
| Ranking.ExtremeScores | pipeline/pipeline/pipeline.py:47-52 | a ministry that bought only OFFICE scores -20; one that bought only digital categories scores 100 |
| Ranking.CountsPartitionRows | pipeline/pipeline/pipeline.py:45-46 | over distinct keys covering every ministry, the counts add up to the number of rows |
| Ranking.TotalsSumToRowCount | pipeline/pipeline/pipeline.py:45-49 | every classified row is counted in exactly one group: the Totals sum to the number of rows |
| Ranking.SingleUnknownGroup | pipeline/pipeline/pipeline.py:37-38 | when every row has the default ministry, the table has the single group UNKNOWN holding all rows |
| Ranking.InsertByScore | pipeline/pipeline/pipeline.py:53 | inserting a row adds exactly that row, and the head is the new row or the old head |
| Ranking.InsertKeepsRanking | pipeline/pipeline/pipeline.py:53 | inserting into a ranking keeps Score non-increasing |
| Ranking.RankByScore | pipeline/pipeline/pipeline.py:53 | the ranking is a permutation of the table with Score non-increasing |
| Ranking.StepAggregate | pipeline/pipeline/pipeline.py:43-54 | the column-by-column computation returns the grouped table Aggregate, and writes a permutation of it sorted by non-increasing Score |

## Left out

- HTTP itself (requests, headers, timeouts, `time.sleep` after a 429, the
  log lines). Each request's outcome is the next element of a transcript.
- Fetch.FetchMonth: the model adds an `Unfinished` end for a transcript
  that runs out while the loop still asks for pages. The code would keep
  requesting, possibly forever, since it has no page ceiling.
- The filesystem. The month directory, `mkdir` and the JSON text of each
  page are not modelled. A saved page is a `Snapshot` (year, month, page,
  batch), and its path is `SnapshotPath`.
- Reading the configuration from the environment. `BASE_API`, its
  `rstrip("/")` and the parameter names form the `Config` parameter. As
  written, the module calls `os.getenv` without importing `os`; the model
  assumes the configuration was obtained.
- JSON values of `results`/`items` that are neither a list nor null, and
  list elements other than records. A batch is a sequence of any element
  type.
- The language model call in `classify_text`. The reply to each description
  is a parameter `classifier: string -> string`, so the model treats it as
  deterministic. Errors from the service are not modelled.
- Text.Strip: removes the ASCII whitespace `str.strip` removes (space,
  tab, line feed, carriage return, vertical tab, form feed and U+001C to
  U+001F), but not non-ASCII whitespace such as U+0085, U+00A0 or U+2028.
- Text.Upper: maps only ASCII letters, not all of Unicode as `str.upper`
  does.
- The CSV files between the steps (`procurements.csv`, `classified.csv`,
  `ranking.csv`) and pandas type inference. Cells are strings in
  `step_classify` and (ministry, category) records in `step_aggregate`.
  `astype(str)` of missing values ("nan") and the NaN keys `groupby` drops
  are not modelled.
- Ranking.StepAggregate: shares and score are exact rationals. The
  `.round(3)` and `.round(1)` of floating point are left out, so the
  ranking is by the unrounded score.
- Ranking.Aggregate: as for StepAggregate, no rounding. On an empty table
  the model gives an empty result; pandas' behaviour of `apply` on no
  groups is not modelled.
- Ranking.RankByScore: states only that the ranking is ordered and a
  permutation. The order among equal scores that pandas' unstable sort
  produces is not determined.
- `main` and the print of the top ten rows.
