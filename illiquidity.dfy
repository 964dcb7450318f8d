/**
 * The market illiquidity index: one monthly series at a fixed address, with
 * integer year and month columns and the day taken as the first.
 */
module Illiquidity {
  import opened Outcomes
  import opened Dates
  import opened Frames
  import opened Pipeline

  const RootUrl := "http://nefin.com.br/Risk%20Factors/"
  const FileName := "Market_Liquidity"
  const FileExt := ".xls"

  /** The one file of the series; the download takes no series name. */
  const Url := RootUrl + FileName + FileExt

  /** RESAMPLE_FREQ */
  const ResampleFreq: map<string, string> := map["year" := "BY", "yearly" := "BY"]

  /** IDENTITY_AGG */
  const IdentityAgg: set<Option<string>> := {Some("day"), Some("daily"), Some("month"), Some("monthly"), None}

  const Fam := Family(IdentityAgg, ResampleFreq, YearMonth)

  /** Day and month tokens and None keep the monthly table; year tokens resample to year end; anything else is a bad token. */
  lemma AggregationTokens(agg: Option<string>)
    ensures Classify(Fam, agg) ==
              if agg in {Some("day"), Some("daily"), Some("month"), Some("monthly"), None} then AsIs
              else if agg in {Some("year"), Some("yearly")} then ResampleTo("BY")
              else BadToken(agg)
  {
  }

  // ---------------------------------------------------------------------------
  // The download
  // ---------------------------------------------------------------------------

  /** get_illiquidity_index: one read, of the fixed file. */
  method GetIlliquidityIndex<V>(web: Web<V>, agg: Option<string>, aggFunc: Option<string>, resample: Resampler<V>)
    returns (r: Result<Table<V>>)
    modifies web
    ensures web.fetched == old(web.fetched) + [Url]
    ensures web.output == old(web.output) + WarningOf(Fam, web.published, Url, agg, aggFunc)
    ensures r == Outcome(Fam, web.published, Url, agg, aggFunc, resample)
  {
    r := Retrieve(web, Fam, Url, agg, aggFunc, resample);
  }

  /**
   * A sheet of integer year and month cells, downloaded without aggregation,
   * succeeds exactly when both columns are there and every row is in range;
   * it then keeps its rows, keys each by the first of its month and drops the
   * year and month columns.
   */
  lemma MonthlySheetDownload<V>(published: map<string, Sheet<V>>, sheet: Sheet<V>,
                                agg: Option<string>, aggFunc: Option<string>, resample: Resampler<V>)
    requires Url in published && published[Url] == sheet && agg in IdentityAgg
    requires forall i :: 0 <= i < |sheet.rows| ==>
               "year" in sheet.rows[i] && sheet.rows[i]["year"].Int? && "month" in sheet.rows[i] && sheet.rows[i]["month"].Int?
    ensures Outcome(Fam, published, Url, agg, aggFunc, resample).Ok? <==>
              && "year" in sheet.columns && "month" in sheet.columns
              && forall i :: 0 <= i < |sheet.rows| ==> ValidParts(sheet.rows[i]["year"].n, sheet.rows[i]["month"].n, 1)
    ensures Outcome(Fam, published, Url, agg, aggFunc, resample).Ok? ==>
              var t := Outcome(Fam, published, Url, agg, aggFunc, resample).value;
              && |t.rows| == |sheet.rows|
              && "year" !in t.columns && "month" !in t.columns
              && forall i :: 0 <= i < |sheet.rows| ==> t.rows[i].key == Date(sheet.rows[i]["year"].n, sheet.rows[i]["month"].n, 1)
  {
    IdentityReturnsNormalized(Fam, published, Url, agg, aggFunc, resample);
    NormalizeYearMonthInts(sheet);
  }

  /** A year token resamples the monthly table to year end ("BY") with the given function, or "last". */
  lemma YearlyResamples<V>(published: map<string, Sheet<V>>, agg: Option<string>, aggFunc: Option<string>,
                           resample: Resampler<V>)
    requires Reaches(Fam, published, Url) && agg in {Some("year"), Some("yearly")}
    ensures var t := resample(Normalize(published[Url], YearMonth).value, "BY", FunctionName(aggFunc));
            Outcome(Fam, published, Url, agg, aggFunc, resample) == if t.None? then Err(AggregationFailed) else Ok(t.value)
  {
    AggregationTokens(agg);
  }

  /** Any other token fails with a KeyError, after the read and the normalisation, and after the default-function warning when no function is given. */
  lemma UnknownTokenFailsAfterRead<V>(published: map<string, Sheet<V>>, agg: Option<string>, aggFunc: Option<string>,
                                      resample: Resampler<V>)
    requires agg !in IdentityAgg && agg !in {Some("year"), Some("yearly")}
    ensures Reaches(Fam, published, Url) <==> Outcome(Fam, published, Url, agg, aggFunc, resample) == Err(UnknownAggregation(agg))
    ensures Reaches(Fam, published, Url) && aggFunc.None? ==> WarningOf(Fam, published, Url, agg, aggFunc) == [AggregationWarning]
  {
    BadTokenFailsAfterRead(Fam, published, Url, agg, aggFunc, resample);
  }

  // ---------------------------------------------------------------------------
  // The date format as written
  // ---------------------------------------------------------------------------

  /**
   * The row key as the source writes it: the text `f"{y}-{m}-01"` parsed
   * with "%Y-%m", which has no directive for the trailing "-01", under exact
   * format matching (as pandas 2.0 and later do; earlier pandas reads the
   * text leniently as an ISO 8601 date). The model
   * uses "%Y-%m-%d" instead (DateFormat(YearMonth)).
   */
  function RowKeyAsWritten<V>(row: map<string, Cell<V>>): Option<Date> {
    var t := DateText(YearMonth, row);
    if t.None? then None else ParseDate(YearMonthFormat, t.value)
  }

  /** As written, no row with integer year and month cells gets a key, whatever their values. */
  lemma AsWrittenRejectsEveryRow<V>(row: map<string, Cell<V>>)
    requires "year" in row && row["year"].Int? && "month" in row && row["month"].Int?
    ensures RowKeyAsWritten(row) == None
  {
    assert DateText(YearMonth, row) == Some(YearMonthFirstText(row["year"].n, row["month"].n));
    YearMonthFirstRejected(row["year"].n, row["month"].n);
  }

  /** As written, a sheet with any row at all cannot be indexed: the first row already has no key. */
  lemma AsWrittenRejectsSheet<V>(sheet: Sheet<V>)
    requires |sheet.rows| > 0
    requires "year" in sheet.rows[0] && sheet.rows[0]["year"].Int? && "month" in sheet.rows[0] && sheet.rows[0]["month"].Int?
    ensures Collect(seq(|sheet.rows|, i requires 0 <= i < |sheet.rows| => RowKeyAsWritten(sheet.rows[i]))).None?
  {
    AsWrittenRejectsEveryRow(sheet.rows[0]);
  }

  /** With "%Y-%m-%d", the same row gets the first of its month as key whenever year and month are in range. */
  lemma CorrectedKeysEveryRow<V>(row: map<string, Cell<V>>)
    requires "year" in row && row["year"].Int? && "month" in row && row["month"].Int?
    ensures RowKey(YearMonth, row) == if ValidParts(row["year"].n, row["month"].n, 1) then Some(Date(row["year"].n, row["month"].n, 1)) else None
  {
    RowKeyOfYearMonthInts(row, row["year"].n, row["month"].n);
  }
}
