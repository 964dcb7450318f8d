# nefindata downloaders, modelled in Dafny

nefindata downloads financial time series that NEFIN publishes as
spreadsheets: risk factors, sector cost of capital, the market illiquidity
index and loan fees. Every downloader follows one pipeline:

1. Resolve a series name to a file URL through an alias table (several
   spellings may name one file). An unknown name raises `KeyError` before
   anything is read.
2. Read the sheet (`pd.read_excel`).
3. Build a `datetime` index from the date-part columns (`year`/`month`/`day`,
   `year`/`month` with day 1, or a `Month/Year` "MM/YYYY" label) and drop
   those columns.
4. Either return the table as it is (an identity `agg` token) or resample it
   (`RESAMPLE_FREQ[agg]`). The aggregation function defaults to "last", with
   a printed warning. Any other token raises `KeyError`, after the read.

On top of that, `get_risk_factors` normalises its `factors` argument and
loops over `set(factors)`. The loop keeps `urls_visited` and `list_dfs`, then
joins the tables with `pd.concat`.

The model is laid out as follows:

- `Pipeline` holds the generic pipeline. A `Family` value fixes the identity
  tokens, the resample map and the date layout.
- The website and console are a `Web` class. `published` says what each URL
  serves, the ghost `fetched` logs every read in order, and `output` logs the
  default-function warning.
- Each downloader is a method (`Retrieve`, `RetrieveByKey`, and one per family).
  Each method is proved against specification functions: `Outcome`,
  `KeyedOutcome`, `WarningOf` and, for the risk-factor loop, `Run`.
- `Frames` models the index construction. `Dates` models the strptime
  formats the package uses.
- There is one module per downloader file: `RiskFactors`, `CostCapital`,
  `Illiquidity` and `LoanFees`. `Sequences` and `Outcomes` hold general
  helpers.

Some behaviour is modelled exactly as written:

- **Duplicate check on line 91.** The check in
  python/nefindata/risk_factors/risk_factors_downloaders.py:91 compares a
  factor name with the list of visited URLs. It therefore never skips a
  known factor name (`RiskFactors.NoKeyIsUrl`), and two spellings of one
  factor are both fetched (`RiskFactors.MarketAliasesFetchedTwice`,
  `RiskFactors.MarketPairFetched`). The model keeps that behaviour.
  It does skip a name that is itself a visited URL, so with a URL among the
  names the outcome depends on the iteration order
  (`RiskFactors.UrlAsNameSkipped`).
  `RiskFactors.VisitByUrl` states the URL-based check described by the comment
  on line 87, and `RiskFactors.VisitByUrlOncePerFile` proves that it would read
  each file once.
- **Empty join.** An empty `list_dfs` makes `pd.concat` raise. The model reports
  this as the error `NothingToConcatenate`; it is not a precondition.

## Model

| member | source | states |
|---|---|---|
| Dates.NumberStep | python/nefindata/risk_factors/risk_factors_downloaders.py:51 | a `%Y`/`%m`/`%d` directive reads a rendered integer followed by a non-digit exactly when it is in the directive's width and range, and stores it in the field |
| Dates.LiteralStep | python/nefindata/risk_factors/risk_factors_downloaders.py:51 | a literal in the format consumes the same character and nothing else |
| Dates.IntText | python/nefindata/risk_factors/risk_factors_downloaders.py:50 | `f"{n}"` of an integer: never empty, a leading "-" exactly for a negative number, otherwise only digits; `Dates.NatTextValue` reads the digits back to the number |
| Dates.Parse | python/nefindata/risk_factors/risk_factors_downloaders.py:51 | strptime matching of a whole text: a field the format does not mention keeps its default, and every field the format reads is in the directive's range |
| Dates.YearMonthDayRoundTrip | python/nefindata/risk_factors/risk_factors_downloaders.py:50-51 | the text `f"{y}-{m}-{d}"` parses with "%Y-%m-%d" if and only if the parts are in range, and then to (y, m, d) |
| Dates.YearMonthFirstRoundTrip | python/nefindata/illiquidity_index/illiquidity_downloaders.py:33-34 | `f"{y}-{m}-01"` parses with "%Y-%m-%d" if and only if year and month are in range, and then to (y, m, 1) |
| Dates.YearMonthFirstRejected | python/nefindata/illiquidity_index/illiquidity_downloaders.py:33-34 | `f"{y}-{m}-01"` never parses with "%Y-%m": the "-01" is left over |
| Dates.MonthYearLabelRoundTrip | python-package/nefindata/cost_capital/cost_capital_downloaders.py:47 | an "MM/YYYY" label parses with "%m/%Y" to the first of that month |
| Frames.FirstMissing | python/nefindata/risk_factors/risk_factors_downloaders.py:50 | reports a missing date-part column exactly when one is absent, and only such a column |
| Frames.CellText | python/nefindata/risk_factors/risk_factors_downloaders.py:50 | the text one date-part cell contributes: `f"{n}"` of an integer cell, a text cell as it is, nothing for a missing column or a float; stated through `Frames.RowKeyOfIntParts`, `Frames.RowKeyOfYearMonthInts` and `Frames.RowKeyOfDated` |
| Frames.DateText | python/nefindata/risk_factors/risk_factors_downloaders.py:50 | the text handed to `to_datetime` for one row: `f"{y}-{m}-{d}"` here, `f"{y}-{m}-01"` at python/nefindata/illiquidity_index/illiquidity_downloaders.py:33, the "Month/Year" cell itself at python-package/nefindata/cost_capital/cost_capital_downloaders.py:47; its properties are stated through `Frames.RowKeyOfDated` and the round-trip lemmas |
| Frames.RowKey | python/nefindata/risk_factors/risk_factors_downloaders.py:50-51 | a row's key, when `to_datetime` accepts its text, always has a month in 1..12 and a day in 1..31; with "%m/%Y" it is always the first of the month |
| Frames.Keys | python/nefindata/risk_factors/risk_factors_downloaders.py:50-51 | the date keys exist if and only if every row's text parses; then there is one key per row, in order, each the parse of its row |
| Frames.Without | python/nefindata/risk_factors/risk_factors_downloaders.py:53 | the remaining columns are exactly those not dropped |
| Frames.IndexRows | python/nefindata/risk_factors/risk_factors_downloaders.py:52-53 | one indexed row per sheet row, carrying its key and its other cells |
| Frames.Normalize | python/nefindata/risk_factors/risk_factors_downloaders.py:50-53 | succeeds if and only if every date-part column is present and every row parses; keeps the row count, keys each row by its own date, drops the date-part and `datetime` columns, and leaves every other cell unchanged; fails only with a missing column or an unparsable date |
| Frames.RowKeyOfDated | python/nefindata/risk_factors/risk_factors_downloaders.py:50-51 | a row whose date parts denote a date, in any of the three layouts, gets that date as its key |
| Frames.RowKeyOfIntParts | python/nefindata/risk_factors/risk_factors_downloaders.py:50-51 | integer year/month/day cells give a key if and only if in range, and the key is their date |
| Frames.RowKeyOfYearMonthInts | python/nefindata/illiquidity_index/illiquidity_downloaders.py:33-34 | integer year/month cells give a key if and only if in range, and the key is the first of the month |
| Frames.NormalizeIntParts | python-package/nefindata/loan_fees/loan_fees_downloaders.py:34-37 | a sheet of integer date parts normalises if and only if the columns are there and every row is in range, and then each key is its row's date |
| Frames.NormalizeYearMonthInts | python/nefindata/illiquidity_index/illiquidity_downloaders.py:33-36 | a sheet of integer year/month cells normalises if and only if both columns are there and every row is in range, and then each key is the first of its month |
| Frames.NormalizeDated | python-package/nefindata/cost_capital/cost_capital_downloaders.py:47-49 | a sheet whose every row denotes a date normalises, with those dates as keys, in order |
| Pipeline.Web.ReadExcel | python/nefindata/risk_factors/risk_factors_downloaders.py:48 | logs exactly one read of the URL and returns what the site publishes there, or a fetch error |
| Pipeline.Web.Warn | python/nefindata/risk_factors/risk_factors_downloaders.py:57-60 | appends exactly one warning to the output |
| Pipeline.Aggregate | python/nefindata/risk_factors/risk_factors_downloaders.py:56-63 | the aggregation step as a specification: an identity token keeps the table, a mapped token resamples with the function or "last", any other token fails; stated by `Pipeline.IdentityReturnsNormalized`, `Pipeline.DefaultFunctionIsLast`, `Pipeline.BadTokenFailsAfterRead` and each family's `AggregationTokens` |
| Pipeline.Outcome | python/nefindata/risk_factors/risk_factors_downloaders.py:48-63 | what one download from a URL returns: a fetch error, a normalisation error, or the aggregation of the normalised table; stated by the `Pipeline` lemmas below and met by `Pipeline.Retrieve` |
| Pipeline.KeyedOutcome | python/nefindata/risk_factors/risk_factors_downloaders.py:45-63 | a download by series name: a KeyError for an unknown name, otherwise the download of its URL; stated by `Pipeline.AliasesAgree` and met by `Pipeline.RetrieveByKey` |
| Pipeline.WarningOf | python/nefindata/risk_factors/risk_factors_downloaders.py:57-60 | the warning one download prints: one default-function warning exactly when the aggregation step is reached with a non-identity token and no function; met by `Pipeline.Retrieve` and stated by `UnknownTokenFailsAfterRead` in `CostCapital`, `Illiquidity` and `LoanFees` |
| Pipeline.Warnings | python/nefindata/risk_factors/risk_factors_downloaders.py:86-95 | the warnings of successive downloads, in order; stated by `RiskFactors.RunWarnings` and met by `RiskFactors.VisitFactors` |
| Pipeline.AggregateStep | python/nefindata/risk_factors/risk_factors_downloaders.py:56-63 | warns once exactly when aggregating with no function (also before a bad-token error), and returns the aggregation the specification defines |
| Pipeline.Retrieve | python/nefindata/risk_factors/risk_factors_downloaders.py:48-65 | reads exactly the URL once, prints the warning only if the aggregation step is reached, and returns the specified outcome |
| Pipeline.RetrieveByKey | python/nefindata/risk_factors/risk_factors_downloaders.py:45-65 | an unknown name fails with a KeyError, reads nothing and prints nothing; a known name reads its URL once |
| Pipeline.IdentityReturnsNormalized | python/nefindata/risk_factors/risk_factors_downloaders.py:56 | an identity token returns the normalised table, whatever the function and the resampler |
| Pipeline.IdentityKeepsRows | python/nefindata/risk_factors/risk_factors_downloaders.py:50-56 | without aggregation the result has the sheet's row count and none of the date-part columns |
| Pipeline.DefaultFunctionIsLast | python/nefindata/risk_factors/risk_factors_downloaders.py:57-61 | no function behaves as "last" |
| Pipeline.BadTokenFailsAfterRead | python/nefindata/risk_factors/risk_factors_downloaders.py:48-63 | a bad token fails with a KeyError if and only if the read and the normalisation succeed |
| Pipeline.OutcomeNeverUnknownKey | python/nefindata/risk_factors/risk_factors_downloaders.py:48-63 | after the lookup, no failure is a series-name KeyError |
| Pipeline.AliasesAgree | python/nefindata/risk_factors/risk_factors_downloaders.py:7-21 | two aliases of one URL give the same download |
| RiskFactors.FactorsFilesKeys | python/nefindata/risk_factors/risk_factors_downloaders.py:7-21 | the accepted spellings are exactly the thirteen listed |
| RiskFactors.FactorsFilesCount | python/nefindata/risk_factors/risk_factors_downloaders.py:7-21 | there are thirteen spellings |
| RiskFactors.FactorsFilesValues | python/nefindata/risk_factors/risk_factors_downloaders.py:7-21 | the spellings name exactly the six factor files |
| RiskFactors.FactorUrlsDistinct | python/nefindata/risk_factors/risk_factors_downloaders.py:8-20 | the six factor files are distinct |
| RiskFactors.FactorsFilesShape | python/nefindata/risk_factors/risk_factors_downloaders.py:7-21 | 13 spellings, 6 files; three spellings name the market file and exactly six name the risk-free file |
| RiskFactors.MarketSpellings | python/nefindata/risk_factors/risk_factors_downloaders.py:8-10 | Mkt, Market and Rm_minus_Rf name the market file |
| RiskFactors.RiskFreeSpellings | python/nefindata/risk_factors/risk_factors_downloaders.py:15-20 | a spelling names the risk-free file if and only if it is one of the six risk-free spellings |
| RiskFactors.NoKeyIsUrl | python/nefindata/risk_factors/risk_factors_downloaders.py:7-21 | no spelling is also a URL of the table |
| RiskFactors.AggregationTokens | python/nefindata/risk_factors/risk_factors_downloaders.py:23-30 | day tokens and None are kept as they are, month tokens go to "BM", year tokens to "BY", anything else is bad |
| RiskFactors.FactorList | python/nefindata/risk_factors/risk_factors_downloaders.py:79-84 | the names the loop iterates once `factors` is normalised; stated by `RiskFactors.FullExpansion`, `RiskFactors.SingleKeyWrapped` and `RiskFactors.StrayNameSplit` |
| RiskFactors.FullExpansion | python/nefindata/risk_factors/risk_factors_downloaders.py:80-81 | None and "all" expand to the six names, all known, whose files are all six factor files |
| RiskFactors.SingleKeyWrapped | python/nefindata/risk_factors/risk_factors_downloaders.py:83-84 | a known name given alone becomes a one-element list |
| RiskFactors.StrayNameSplit | python/nefindata/risk_factors/risk_factors_downloaders.py:83-90 | any other string is iterated character by character, and no character is a factor name |
| RiskFactors.Visit | python/nefindata/risk_factors/risk_factors_downloaders.py:90-94 | `urls_visited` as the code writes it, name by name: skip a name found among the URLs, else append its URL or raise a KeyError; stated by the `Visit*` lemmas below |
| RiskFactors.VisitAllKeys | python/nefindata/risk_factors/risk_factors_downloaders.py:90-94 | over known names the check on line 91 never skips: each name's URL is visited, in order |
| RiskFactors.VisitNoKeys | python/nefindata/risk_factors/risk_factors_downloaders.py:90-94 | over unknown names the first name raises a KeyError |
| RiskFactors.VisitSnoc | python/nefindata/risk_factors/risk_factors_downloaders.py:90-94 | one more name is skipped, appended or raises, in the three cases of lines 91-94 |
| RiskFactors.VisitLength | python/nefindata/risk_factors/risk_factors_downloaders.py:88-94 | no more URLs are visited than names |
| RiskFactors.VisitByUrl | python/nefindata/risk_factors/risk_factors_downloaders.py:87-94 | the deduplication the comment on line 87 describes: skip a name whose URL was already visited; stated by `RiskFactors.VisitByUrlOncePerFile` |
| RiskFactors.VisitByUrlOncePerFile | python/nefindata/risk_factors/risk_factors_downloaders.py:87-94 | deduplicating by URL, as the comment on line 87 intends, visits distinct URLs, exactly those of the names |
| RiskFactors.MarketAliasesFetchedTwice | python/nefindata/risk_factors/risk_factors_downloaders.py:87-94 | as written, "Market" and "Mkt" visit the market file twice in either order; by URL, once |
| RiskFactors.UrlAsNameSkipped | python/nefindata/risk_factors/risk_factors_downloaders.py:90-94 | a name equal to a visited URL is skipped: "Market" then its URL reads the file once, while the URL first raises a KeyError |
| RiskFactors.VisitOne | python/nefindata/risk_factors/risk_factors_downloaders.py:90-94 | one known name is visited by either check |
| RiskFactors.Step | python/nefindata/risk_factors/risk_factors_downloaders.py:90-95 | one pass of the loop body over the loop state; nothing changes once an error has ended the loop |
| RiskFactors.Run | python/nefindata/risk_factors/risk_factors_downloaders.py:86-95 | the loop over an iteration order, as a specification; stated by the `Run*` lemmas below and met by `RiskFactors.VisitFactors` |
| RiskFactors.RunVisit | python/nefindata/risk_factors/risk_factors_downloaders.py:86-95 | until an error ends it, the loop visits the URLs the check on line 91 lets through |
| RiskFactors.RunWarnings | python/nefindata/risk_factors/risk_factors_downloaders.py:57-60 | the loop prints one warning for each visited URL whose sheet reaches aggregation without a function |
| RiskFactors.RunTables | python/nefindata/risk_factors/risk_factors_downloaders.py:86-95 | without an error, one table per visited URL, in order, each that URL's download |
| RiskFactors.RunFailure | python/nefindata/risk_factors/risk_factors_downloaders.py:90-95 | the loop ends with a KeyError on a name it met that is unknown, or with the error of the last URL downloaded |
| RiskFactors.RunLength | python/nefindata/risk_factors/risk_factors_downloaders.py:88-95 | at most one URL fetched per name |
| RiskFactors.RunNoKeys | python/nefindata/risk_factors/risk_factors_downloaders.py:90-95 | over unknown names nothing is fetched and the first name raises |
| RiskFactors.GetSingleRiskFactor | python/nefindata/risk_factors/risk_factors_downloaders.py:33-65 | an unknown factor raises before any read; a known one reads its file once and returns the specified download |
| RiskFactors.FactorSheetDownload | python/nefindata/risk_factors/risk_factors_downloaders.py:50-56 | a sheet of integer date parts, downloaded without aggregation, succeeds if and only if the columns are there and every row is in range; it then keeps its rows, keys each by its date, drops the three columns and ignores the function |
| RiskFactors.IterationOrder | python/nefindata/risk_factors/risk_factors_downloaders.py:90 | `set(factors)` yields each distinct name once, in some order |
| RiskFactors.VisitStep | python/nefindata/risk_factors/risk_factors_downloaders.py:90-95 | one pass of the loop body moves the loop state and the logs by one `Step` |
| RiskFactors.VisitFactors | python/nefindata/risk_factors/risk_factors_downloaders.py:86-95 | the loop's reads, warnings, tables and error are those of `Run` over the order it got through; on success every name was visited and there is one table per visited URL, one per distinct name when all are known |
| RiskFactors.FetchCount | python/nefindata/risk_factors/risk_factors_downloaders.py:86-95 | at most one read per distinct name, in any iteration order; exactly one when every name is known and the loop completes |
| RiskFactors.AllFactorsFetched | python/nefindata/risk_factors/risk_factors_downloaders.py:80-95 | a complete pass over the six factors reads the six files, one each |
| RiskFactors.AllFactorsCount | python/nefindata/risk_factors/risk_factors_downloaders.py:81 | any iteration order of the six factors has six names |
| RiskFactors.StrayNameFetchesNothing | python/nefindata/risk_factors/risk_factors_downloaders.py:83-95 | a stray string fetches nothing and yields no table |
| RiskFactors.MarketPairFetched | python/nefindata/risk_factors/risk_factors_downloaders.py:87-95 | a completed loop over "Market" and "Mkt" reads the market file twice |
| RiskFactors.MarketOrders | python/nefindata/risk_factors/risk_factors_downloaders.py:90 | `set(["Market", "Mkt"])` iterates in one of its two orders |
| RiskFactors.GetRiskFactors | python/nefindata/risk_factors/risk_factors_downloaders.py:68-98 | reads, warnings and result follow `Run` over the iteration order and then the join; at most one read per distinct name, exactly one on success with known names; None or "all" read the six files; a stray string fails before any read; "Market" with "Mkt" reads the market file twice; an empty list fails in the join |
| CostCapital.SectorsFilesKeys | python-package/nefindata/cost_capital/cost_capital_downloaders.py:7-19 | the accepted spellings are exactly the eleven listed |
| CostCapital.SectorsFilesCount | python-package/nefindata/cost_capital/cost_capital_downloaders.py:7-19 | there are eleven spellings |
| CostCapital.SectorsFilesValues | python-package/nefindata/cost_capital/cost_capital_downloaders.py:7-19 | the spellings name exactly the seven sector files |
| CostCapital.SectorUrlsDistinct | python-package/nefindata/cost_capital/cost_capital_downloaders.py:8-18 | the seven sector files are distinct |
| CostCapital.SectorsFilesShape | python-package/nefindata/cost_capital/cost_capital_downloaders.py:7-19 | 11 spellings, 7 files; exactly the four Basic spellings share one file, and exactly Other and Others share one |
| CostCapital.BasicSpellings | python-package/nefindata/cost_capital/cost_capital_downloaders.py:8-11 | a spelling names the basic-products file if and only if it is one of the four Basic spellings |
| CostCapital.OtherSpellings | python-package/nefindata/cost_capital/cost_capital_downloaders.py:17-18 | a spelling names the other-sectors file if and only if it is Other or Others |
| CostCapital.AggregationTokens | python-package/nefindata/cost_capital/cost_capital_downloaders.py:21-26 | day and month tokens and None are kept as they are, year tokens go to "BY", anything else is bad |
| CostCapital.GetSectorCostOfCapital | python-package/nefindata/cost_capital/cost_capital_downloaders.py:29-61 | an unknown sector raises before any read; a known one reads its file once, warns only if aggregation is reached without a function, and returns the specified download |
| CostCapital.LabelledSheetDownload | python-package/nefindata/cost_capital/cost_capital_downloaders.py:42-52 | a sheet of "MM/YYYY" labels, downloaded without aggregation, keeps its rows, keys each by the first of its month and drops the label column |
| CostCapital.MonthStartKeys | python-package/nefindata/cost_capital/cost_capital_downloaders.py:47-52 | whatever the labels, every row of a successful unaggregated download is keyed by the first of a month |
| CostCapital.YearlyResamples | python-package/nefindata/cost_capital/cost_capital_downloaders.py:52-59 | a year token resamples to "BY" with the given function or "last" |
| CostCapital.UnknownTokenFailsAfterRead | python-package/nefindata/cost_capital/cost_capital_downloaders.py:45-59 | any other token raises a KeyError if and only if the read and the normalisation succeed, after the warning when no function is given |
| Illiquidity.AggregationTokens | python/nefindata/illiquidity_index/illiquidity_downloaders.py:9-14 | day and month tokens and None are kept as they are, year tokens go to "BY", anything else is bad |
| Illiquidity.GetIlliquidityIndex | python/nefindata/illiquidity_index/illiquidity_downloaders.py:17-48 | reads the one fixed file once, warns only if aggregation is reached without a function, and returns the specified download, whose keys are parsed with "%Y-%m-%d" rather than the "%Y-%m" of line 34 (see Findings) |
| Illiquidity.MonthlySheetDownload | python/nefindata/illiquidity_index/illiquidity_downloaders.py:31-39 | a sheet of integer year/month cells, downloaded without aggregation, succeeds if and only if both columns are there and every row is in range; it then keeps its rows, keys each by the first of its month and drops both columns |
| Illiquidity.YearlyResamples | python/nefindata/illiquidity_index/illiquidity_downloaders.py:39-46 | a year token resamples to "BY" with the given function or "last" |
| Illiquidity.UnknownTokenFailsAfterRead | python/nefindata/illiquidity_index/illiquidity_downloaders.py:31-46 | any other token raises a KeyError if and only if the read and the normalisation succeed, after the warning when no function is given |
| Illiquidity.RowKeyAsWritten | python/nefindata/illiquidity_index/illiquidity_downloaders.py:33-34 | the row key as written: the text `f"{y}-{m}-01"` matched exactly against "%Y-%m"; stated by `Illiquidity.AsWrittenRejectsEveryRow` and `Illiquidity.AsWrittenRejectsSheet` |
| Illiquidity.AsWrittenRejectsEveryRow | python/nefindata/illiquidity_index/illiquidity_downloaders.py:33-34 | as written, with exact format matching (pandas 2.0 and later), no row with integer year and month gets a date |
| Illiquidity.AsWrittenRejectsSheet | python/nefindata/illiquidity_index/illiquidity_downloaders.py:33-34 | as written, and with exact format matching (pandas 2.0 and later), a sheet with any row cannot be indexed; earlier pandas parses such texts leniently |
| Illiquidity.CorrectedKeysEveryRow | python/nefindata/illiquidity_index/illiquidity_downloaders.py:33-34 | with "%Y-%m-%d" the same row gets the first of its month whenever year and month are in range |
| LoanFees.AggregationTokens | python-package/nefindata/loan_fees/loan_fees_downloaders.py:8-15 | day tokens and None are kept as they are, month tokens go to "BM", year tokens to "BY", anything else is bad |
| LoanFees.GetLoanFees | python-package/nefindata/loan_fees/loan_fees_downloaders.py:18-49 | reads the one fixed file once, warns only if aggregation is reached without a function, and returns the specified download |
| LoanFees.DailySheetDownload | python-package/nefindata/loan_fees/loan_fees_downloaders.py:32-40 | a sheet of integer date parts, downloaded without aggregation, succeeds if and only if the columns are there and every row is in range; it then keeps its rows, keys each by its date, drops the three columns and ignores the function |
| LoanFees.Resamples | python-package/nefindata/loan_fees/loan_fees_downloaders.py:40-47 | month tokens resample to "BM" and year tokens to "BY", with the given function or "last" |
| LoanFees.UnknownTokenFailsAfterRead | python-package/nefindata/loan_fees/loan_fees_downloaders.py:32-47 | any other token raises a KeyError if and only if the read and the normalisation succeed, after the warning when no function is given |

## Left out

- Network and Excel reading: the site is the map `Web.published` from URL to sheet, and every read failure is one `FetchFailed` error.
- Value cells: floating-point values are an opaque type parameter. A float or missing (NaN) cell in an integer date-part column renders as text that no format accepts ("2020.0", "nan"), so the row has no key.
- `resample(...).apply(...)`: a function parameter, not interpreted. Business month-end and year-end calendars are not modelled.
- `pd.concat(list_dfs, axis=1, join="outer")`: a function parameter, not interpreted. Alignment of the joined indexes is not modelled.
- `to_datetime` calendar checks and `Timestamp` bounds: a day of 1..31 is accepted in every month, and the year is limited only to four digits.
- strptime matching: a numeric directive is read greedily up to its width, with no backtracking. This agrees with strptime for every text the package builds.
- Console text: the "Getting data..." and "Done!" progress lines are not modelled. Only the default-function warning is logged.
- Argument types: `agg` is None or a string, and `agg_func` is None or a function name. Callables and lists as `agg_func`, and `factors` iterables other than a list, are not modelled.
- Python `set` iteration order: `RiskFactors.IterationOrder` picks some order, one element at a time; nothing about the order is assumed.
- Illiquidity.GetIlliquidityIndex: parses the texts of line 33 with "%Y-%m-%d" (`DateFormat(YearMonth)`), not the "%Y-%m" of line 34; the behaviour as written is stated separately by `Illiquidity.AsWrittenRejectsEveryRow`.
- Frames.CellText: a missing or non-text "Month/Year" cell gives the row no key and the download fails with `UnparsableDate`, whereas `to_datetime` turns a missing cell into NaT without raising; NaT keys are not modelled.
- In-place mutation of the data frame (`set_index` and `drop` with `inplace=True`): modelled as the value `Normalize` returns, since no caller can observe the intermediate frame.

## Findings

| source | as written | input that shows it | evidently intended | confidence | as-written member | corrected member |
|---|---|---|---|---|---|---|
| python/nefindata/illiquidity_index/illiquidity_downloaders.py:33-34 | the texts `f"{y}-{m}-01"` are parsed with format "%Y-%m" | year 2020, month 3: the text "2020-3-01" leaves "-01" unparsed; with exact format matching (pandas 2.0 and later) every non-empty sheet raises, while earlier pandas reads "%Y-%m" as an ISO 8601 prefix and parses the text leniently to 2020-03-01 | "%Y-%m-%d", keying each row by the first of its month | not executed; depends on the pandas version | Illiquidity.AsWrittenRejectsEveryRow | Illiquidity.CorrectedKeysEveryRow |
| python/nefindata/risk_factors/risk_factors_downloaders.py:91 | `if factor in urls_visited` compares a factor name with the list of visited URLs, so it never skips a known factor name | `factors=["Market", "Mkt"]`: the market file is read twice and its columns appear twice in the join | skip a name whose URL `FACTORS_FILES[factor]` was already visited, as the comment on line 87 says | not executed | RiskFactors.MarketAliasesFetchedTwice | RiskFactors.VisitByUrlOncePerFile |
