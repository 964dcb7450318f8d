/**
 * The pipeline every downloader follows: resolve the series name to a URL,
 * read the spreadsheet, normalise it to a date-indexed table, and either
 * return it as it is or resample it to a coarser frequency.
 */
module Pipeline {
  import opened Outcomes
  import opened Dates
  import opened Frames

  /** What the console shows that callers may want to observe. */
  datatype Event = AggregationWarning   // "WARNING: aggregation function not provided. Using last() by default"

  /**
   * What a downloader family fixes: the `agg` tokens that mean "as it is"
   * (IDENTITY_AGG, None among them as the Python None), the resample map
   * (RESAMPLE_FREQ, token to pandas frequency code) and its date layout.
   */
  datatype Family = Family(identity: set<Option<string>>, resampleFreq: map<string, string>, layout: DateLayout)

  /** `df.resample(freq).apply(func)`: pandas, kept abstract; None when it raises. */
  type Resampler<!V> = (Table<V>, string, string) -> Option<Table<V>>

  /**
   * The website and the console. `published` is what each URL serves;
   * `fetched` logs every read in order; `output` holds the warnings printed.
   */
  class Web<V> {
    const published: map<string, Sheet<V>>
    ghost var fetched: seq<string>
    var output: seq<Event>

    constructor (published: map<string, Sheet<V>>)
      ensures this.published == published && fetched == [] && output == []
    {
      this.published := published;
      fetched := [];
      output := [];
    }

    /** `pd.read_excel(url)`. */
    method ReadExcel(url: string) returns (r: Result<Sheet<V>>)
      modifies this`fetched
      ensures fetched == old(fetched) + [url]
      ensures r == if url in published then Ok(published[url]) else Err(FetchFailed(url))
    {
      fetched := fetched + [url];
      if url in published {
        r := Ok(published[url]);
      } else {
        r := Err(FetchFailed(url));
      }
    }

    /** The warning printed when no aggregation function is given. */
    method Warn()
      modifies this`output
      ensures output == old(output) + [AggregationWarning]
    {
      output := output + [AggregationWarning];
    }
  }

  // ---------------------------------------------------------------------------
  // The aggregation step, as a specification
  // ---------------------------------------------------------------------------

  /** The three ways an `agg` token is handled. */
  datatype Dispatch = AsIs | ResampleTo(freq: string) | BadToken(token: Option<string>)

  /** Identity tokens first (`agg not in IDENTITY_AGG`), then the resample map (`RESAMPLE_FREQ[agg]`). */
  function Classify(fam: Family, agg: Option<string>): Dispatch {
    if agg in fam.identity then AsIs
    else if agg.Some? && agg.value in fam.resampleFreq then ResampleTo(fam.resampleFreq[agg.value])
    else BadToken(agg)
  }

  /** The aggregation function actually applied: the one given, or "last". */
  function FunctionName(aggFunc: Option<string>): string {
    if aggFunc.Some? then aggFunc.value else "last"
  }

  /** The default-function warning is printed: aggregation is asked for and no function is given. */
  predicate Warns(fam: Family, agg: Option<string>, aggFunc: Option<string>) {
    agg !in fam.identity && aggFunc.None?
  }

  function Aggregate<V>(fam: Family, df: Table<V>, agg: Option<string>, aggFunc: Option<string>, resample: Resampler<V>): Result<Table<V>> {
    match Classify(fam, agg)
    case AsIs => Ok(df)
    case BadToken(t) => Err(UnknownAggregation(t))
    case ResampleTo(freq) =>
      var t := resample(df, freq, FunctionName(aggFunc));
      if t.None? then Err(AggregationFailed) else Ok(t.value)
  }

  /** The read and the normalisation succeed, so the aggregation step is reached. */
  predicate Reaches<V>(fam: Family, published: map<string, Sheet<V>>, url: string) {
    url in published && Normalize(published[url], fam.layout).Ok?
  }

  /** What a download from `url` returns, given what the site publishes. */
  function Outcome<V>(fam: Family, published: map<string, Sheet<V>>, url: string,
                      agg: Option<string>, aggFunc: Option<string>, resample: Resampler<V>): Result<Table<V>>
  {
    if url !in published then Err(FetchFailed(url))
    else
      var df := Normalize(published[url], fam.layout);
      if df.Err? then Err(df.error) else Aggregate(fam, df.value, agg, aggFunc, resample)
  }

  /** What a download of the series named `key` returns. */
  function KeyedOutcome<V>(fam: Family, aliases: map<string, string>, published: map<string, Sheet<V>>, key: string,
                           agg: Option<string>, aggFunc: Option<string>, resample: Resampler<V>): Result<Table<V>>
  {
    if key !in aliases then Err(UnknownKey(key)) else Outcome(fam, published, aliases[key], agg, aggFunc, resample)
  }

  /** The warning printed by a download from `url`: once the aggregation step is reached, if no function is given. */
  function WarningOf<V>(fam: Family, published: map<string, Sheet<V>>, url: string,
                        agg: Option<string>, aggFunc: Option<string>): seq<Event>
  {
    if Reaches(fam, published, url) && Warns(fam, agg, aggFunc) then [AggregationWarning] else []
  }

  /** The warnings printed by downloads from `urls`, one after the other. */
  function Warnings<V>(fam: Family, published: map<string, Sheet<V>>, urls: seq<string>,
                       agg: Option<string>, aggFunc: Option<string>): seq<Event>
  {
    if urls == [] then []
    else Warnings(fam, published, urls[..|urls| - 1], agg, aggFunc) + WarningOf(fam, published, urls[|urls| - 1], agg, aggFunc)
  }

  // ---------------------------------------------------------------------------
  // The pipeline, step by step
  // ---------------------------------------------------------------------------

  /** Read, normalise and aggregate the sheet at `url`. */
  method Retrieve<V>(web: Web<V>, fam: Family, url: string, agg: Option<string>, aggFunc: Option<string>,
                     resample: Resampler<V>) returns (r: Result<Table<V>>)
    modifies web
    ensures web.fetched == old(web.fetched) + [url]
    ensures web.output == old(web.output) + WarningOf(fam, web.published, url, agg, aggFunc)
    ensures r == Outcome(fam, web.published, url, agg, aggFunc, resample)
  {
    var sheet :- web.ReadExcel(url);
    var df :- Normalize(sheet, fam.layout);
    r := AggregateStep(web, fam, df, agg, aggFunc, resample);
  }

  /** The `if agg not in IDENTITY_AGG` block: warn when no function is given, then resample. */
  method AggregateStep<V>(web: Web<V>, fam: Family, df: Table<V>, agg: Option<string>, aggFunc: Option<string>,
                          resample: Resampler<V>) returns (r: Result<Table<V>>)
    modifies web`output
    ensures web.output == old(web.output) + if Warns(fam, agg, aggFunc) then [AggregationWarning] else []
    ensures r == Aggregate(fam, df, agg, aggFunc, resample)
  {
    r := Ok(df);
    if agg !in fam.identity {
      var func := aggFunc;
      if func.None? {
        web.Warn();
        func := Some("last");
      }
      if agg.None? || agg.value !in fam.resampleFreq {
        return Err(UnknownAggregation(agg));
      }
      var t := resample(df, fam.resampleFreq[agg.value], func.value);
      if t.None? {
        return Err(AggregationFailed);
      }
      r := Ok(t.value);
    }
  }

  /** Look the series up in the family's alias table, then retrieve it; an unknown name fails before any read. */
  method RetrieveByKey<V>(web: Web<V>, fam: Family, aliases: map<string, string>, key: string,
                          agg: Option<string>, aggFunc: Option<string>, resample: Resampler<V>) returns (r: Result<Table<V>>)
    modifies web
    ensures key !in aliases ==> r == Err(UnknownKey(key)) && web.fetched == old(web.fetched) && web.output == old(web.output)
    ensures key in aliases ==> web.fetched == old(web.fetched) + [aliases[key]]
    ensures key in aliases ==> web.output == old(web.output) + WarningOf(fam, web.published, aliases[key], agg, aggFunc)
    ensures r == KeyedOutcome(fam, aliases, web.published, key, agg, aggFunc, resample)
  {
    if key !in aliases {
      return Err(UnknownKey(key));
    }
    var url := aliases[key];
    r := Retrieve(web, fam, url, agg, aggFunc, resample);
  }

  // ---------------------------------------------------------------------------
  // Properties of the specification
  // ---------------------------------------------------------------------------

  /** An identity token returns the normalised table, whatever the function and the resampler. */
  lemma IdentityReturnsNormalized<V>(fam: Family, published: map<string, Sheet<V>>, url: string,
                                     agg: Option<string>, aggFunc: Option<string>, resample: Resampler<V>)
    requires agg in fam.identity && url in published
    ensures Outcome(fam, published, url, agg, aggFunc, resample) == Normalize(published[url], fam.layout)
  {
  }

  /** With no aggregation asked for, the result has the sheet's rows and none of its date-part columns. */
  lemma IdentityKeepsRows<V>(fam: Family, published: map<string, Sheet<V>>, url: string,
                             agg: Option<string>, aggFunc: Option<string>, resample: Resampler<V>)
    requires agg in fam.identity
    requires Outcome(fam, published, url, agg, aggFunc, resample).Ok?
    ensures url in published
    ensures |Outcome(fam, published, url, agg, aggFunc, resample).value.rows| == |published[url].rows|
    ensures forall c :: c in DatePartColumns(fam.layout) ==> c !in Outcome(fam, published, url, agg, aggFunc, resample).value.columns
  {
    var df := Normalize(published[url], fam.layout);
    assert forall c :: c in DatePartColumns(fam.layout) ==> c in Removed(fam.layout);
  }

  /** Aggregating without a function is aggregating with "last". */
  lemma DefaultFunctionIsLast<V>(fam: Family, published: map<string, Sheet<V>>, url: string,
                                 agg: Option<string>, resample: Resampler<V>)
    ensures Outcome(fam, published, url, agg, None, resample) == Outcome(fam, published, url, agg, Some("last"), resample)
  {
  }

  /** A token that is neither an identity token nor in the resample map fails, but only once the read and the normalisation are done. */
  lemma BadTokenFailsAfterRead<V>(fam: Family, published: map<string, Sheet<V>>, url: string,
                                  agg: Option<string>, aggFunc: Option<string>, resample: Resampler<V>)
    requires agg !in fam.identity && (agg.None? || agg.value !in fam.resampleFreq)
    ensures Reaches(fam, published, url) <==> Outcome(fam, published, url, agg, aggFunc, resample) == Err(UnknownAggregation(agg))
  {
    if !Reaches(fam, published, url) && url in published {
      assert Normalize(published[url], fam.layout).error.UnparsableDate? ||
             Normalize(published[url], fam.layout).error.MissingColumn?;
    }
  }

  /** Once the URL is known, a download never fails with an unknown series name. */
  lemma OutcomeNeverUnknownKey<V>(fam: Family, published: map<string, Sheet<V>>, url: string,
                                  agg: Option<string>, aggFunc: Option<string>, resample: Resampler<V>)
    ensures Outcome(fam, published, url, agg, aggFunc, resample).Err? ==>
              !Outcome(fam, published, url, agg, aggFunc, resample).error.UnknownKey?
  {
    if url in published {
      var df := Normalize(published[url], fam.layout);
      assert df.Err? ==> df.error.UnparsableDate? || df.error.MissingColumn?;
    }
  }

  /** Aliases of one URL give the same download. */
  lemma AliasesAgree<V>(fam: Family, aliases: map<string, string>, published: map<string, Sheet<V>>, k1: string, k2: string,
                        agg: Option<string>, aggFunc: Option<string>, resample: Resampler<V>)
    requires k1 in aliases && k2 in aliases && aliases[k1] == aliases[k2]
    ensures KeyedOutcome(fam, aliases, published, k1, agg, aggFunc, resample)
         == KeyedOutcome(fam, aliases, published, k2, agg, aggFunc, resample)
  {
  }
}
