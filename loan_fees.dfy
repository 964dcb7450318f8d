/**
 * Loan fees: one daily series at a fixed address, with integer year, month
 * and day columns.
 */
module LoanFees {
  import opened Outcomes
  import opened Dates
  import opened Frames
  import opened Pipeline

  const RootUrl := "http://nefin.com.br/Predictability/"
  const FileName := "loan_fees"
  const FileExt := ".xls"

  /** The one file of the series; the download takes no series name. */
  const Url := RootUrl + FileName + FileExt

  /** RESAMPLE_FREQ */
  const ResampleFreq: map<string, string> := map["month" := "BM", "monthly" := "BM", "year" := "BY", "yearly" := "BY"]

  /** IDENTITY_AGG */
  const IdentityAgg: set<Option<string>> := {Some("day"), Some("daily"), None}

  const Fam := Family(IdentityAgg, ResampleFreq, YearMonthDay)

  /** Day tokens and None keep the daily table; month tokens resample to month end, year tokens to year end; anything else is a bad token. */
  lemma AggregationTokens(agg: Option<string>)
    ensures Classify(Fam, agg) ==
              if agg in {Some("day"), Some("daily"), None} then AsIs
              else if agg in {Some("month"), Some("monthly")} then ResampleTo("BM")
              else if agg in {Some("year"), Some("yearly")} then ResampleTo("BY")
              else BadToken(agg)
  {
  }

  /** get_loan_fees: one read, of the fixed file. */
  method GetLoanFees<V>(web: Web<V>, agg: Option<string>, aggFunc: Option<string>, resample: Resampler<V>)
    returns (r: Result<Table<V>>)
    modifies web
    ensures web.fetched == old(web.fetched) + [Url]
    ensures web.output == old(web.output) + WarningOf(Fam, web.published, Url, agg, aggFunc)
    ensures r == Outcome(Fam, web.published, Url, agg, aggFunc, resample)
  {
    r := Retrieve(web, Fam, Url, agg, aggFunc, resample);
  }

  /**
   * A sheet of integer year, month and day cells, downloaded without
   * aggregation, succeeds exactly when the three columns are there and every
   * row is in range; it then keeps its rows, keys each by its date and drops
   * the three columns. The function given is ignored.
   */
  lemma DailySheetDownload<V>(published: map<string, Sheet<V>>, sheet: Sheet<V>,
                              agg: Option<string>, aggFunc: Option<string>, resample: Resampler<V>)
    requires Url in published && published[Url] == sheet && agg in IdentityAgg
    requires forall i :: 0 <= i < |sheet.rows| ==>
               "year" in sheet.rows[i] && sheet.rows[i]["year"].Int? && "month" in sheet.rows[i] && sheet.rows[i]["month"].Int? &&
               "day" in sheet.rows[i] && sheet.rows[i]["day"].Int?
    ensures Outcome(Fam, published, Url, agg, aggFunc, resample) == Outcome(Fam, published, Url, agg, None, resample)
    ensures Outcome(Fam, published, Url, agg, aggFunc, resample).Ok? <==>
              && "year" in sheet.columns && "month" in sheet.columns && "day" in sheet.columns
              && forall i :: 0 <= i < |sheet.rows| ==>
                   ValidParts(sheet.rows[i]["year"].n, sheet.rows[i]["month"].n, sheet.rows[i]["day"].n)
    ensures Outcome(Fam, published, Url, agg, aggFunc, resample).Ok? ==>
              var t := Outcome(Fam, published, Url, agg, aggFunc, resample).value;
              && |t.rows| == |sheet.rows|
              && "year" !in t.columns && "month" !in t.columns && "day" !in t.columns
              && forall i :: 0 <= i < |sheet.rows| ==>
                   t.rows[i].key == Date(sheet.rows[i]["year"].n, sheet.rows[i]["month"].n, sheet.rows[i]["day"].n)
  {
    IdentityReturnsNormalized(Fam, published, Url, agg, aggFunc, resample);
    IdentityReturnsNormalized(Fam, published, Url, agg, None, resample);
    NormalizeIntParts(sheet);
  }

  /** A month or year token resamples the daily table to month end ("BM") or year end ("BY") with the given function, or "last". */
  lemma Resamples<V>(published: map<string, Sheet<V>>, agg: Option<string>, aggFunc: Option<string>, resample: Resampler<V>)
    requires Reaches(Fam, published, Url) && agg in {Some("month"), Some("monthly"), Some("year"), Some("yearly")}
    ensures var freq := if agg in {Some("month"), Some("monthly")} then "BM" else "BY";
            var t := resample(Normalize(published[Url], YearMonthDay).value, freq, FunctionName(aggFunc));
            Outcome(Fam, published, Url, agg, aggFunc, resample) == if t.None? then Err(AggregationFailed) else Ok(t.value)
  {
    AggregationTokens(agg);
  }

  /** Any other token fails with a KeyError, after the read and the normalisation, and after the default-function warning when no function is given. */
  lemma UnknownTokenFailsAfterRead<V>(published: map<string, Sheet<V>>, agg: Option<string>, aggFunc: Option<string>,
                                      resample: Resampler<V>)
    requires agg !in IdentityAgg && agg !in {Some("month"), Some("monthly"), Some("year"), Some("yearly")}
    ensures Reaches(Fam, published, Url) <==> Outcome(Fam, published, Url, agg, aggFunc, resample) == Err(UnknownAggregation(agg))
    ensures Reaches(Fam, published, Url) && aggFunc.None? ==> WarningOf(Fam, published, Url, agg, aggFunc) == [AggregationWarning]
  {
    BadTokenFailsAfterRead(Fam, published, Url, agg, aggFunc, resample);
  }
}
