/**
 * Risk factors: one series per factor, several spellings per factor, and a
 * multi-factor download that loops over the requested names and joins the
 * per-factor tables.
 */
module RiskFactors {
  import opened Outcomes
  import opened Dates
  import opened Frames
  import opened Pipeline
  import opened Sequences

  const RootUrl := "http://nefin.com.br/Risk%20Factors/"
  const FileExt := ".xls"

  function FileUrl(name: string): string {
    RootUrl + name + FileExt
  }

  const MarketUrl := FileUrl("Market_Factor")
  const SmbUrl := FileUrl("SMB_Factor")
  const HmlUrl := FileUrl("HML_Factor")
  const WmlUrl := FileUrl("WML_Factor")
  const ImlUrl := FileUrl("IML_Factor")
  const RiskFreeUrl := FileUrl("Risk_Free")

  /** FACTORS_FILES: every accepted spelling of a factor and the file it names. */
  const FactorsFiles: map<string, string> := map[
    "Mkt" := MarketUrl,
    "Market" := MarketUrl,
    "Rm_minus_Rf" := MarketUrl,
    "SMB" := SmbUrl,
    "HML" := HmlUrl,
    "WML" := WmlUrl,
    "IML" := ImlUrl,
    "Rf" := RiskFreeUrl,
    "Risk_free" := RiskFreeUrl,
    "Risk Free" := RiskFreeUrl,
    "Risk free" := RiskFreeUrl,
    "Risk-free" := RiskFreeUrl,
    "Risk-Free" := RiskFreeUrl
  ]

  /** RESAMPLE_FREQ */
  const ResampleFreq: map<string, string> := map["month" := "BM", "monthly" := "BM", "year" := "BY", "yearly" := "BY"]

  /** IDENTITY_AGG */
  const IdentityAgg: set<Option<string>> := {Some("day"), Some("daily"), None}

  const Fam := Family(IdentityAgg, ResampleFreq, YearMonthDay)

  /** The names `factors=None` and `factors="all"` stand for. */
  const AllFactors := ["Market", "SMB", "HML", "WML", "IML", "Rf"]

  // ---------------------------------------------------------------------------
  // The alias table
  // ---------------------------------------------------------------------------

  /** The thirteen accepted spellings. */
  lemma FactorsFilesKeys()
    ensures FactorsFiles.Keys == {"Mkt", "Market", "Rm_minus_Rf", "SMB", "HML", "WML", "IML",
                                  "Rf", "Risk_free", "Risk Free", "Risk free", "Risk-free", "Risk-Free"}
  {
  }

  /** Every spelling names one of the six factor files, and each file is named. */
  lemma FactorsFilesValues()
    ensures FactorsFiles.Values == {MarketUrl, SmbUrl, HmlUrl, WmlUrl, ImlUrl, RiskFreeUrl}
  {
    var urls := {MarketUrl, SmbUrl, HmlUrl, WmlUrl, ImlUrl, RiskFreeUrl};
    forall u | u in FactorsFiles.Values ensures u in urls {
      var k :| k in FactorsFiles && FactorsFiles[k] == u;
      FactorsFilesKeys();
    }
    assert urls <= FactorsFiles.Values by {
      assert FactorsFiles["Mkt"] == MarketUrl && FactorsFiles["SMB"] == SmbUrl && FactorsFiles["HML"] == HmlUrl;
      assert FactorsFiles["WML"] == WmlUrl && FactorsFiles["IML"] == ImlUrl && FactorsFiles["Rf"] == RiskFreeUrl;
    }
  }

  lemma FileUrlLength(name: string)
    ensures |FileUrl(name)| == |RootUrl| + |name| + 4
  {
  }

  /** The six factor files are distinct. */
  lemma FactorUrlsDistinct()
    ensures |{MarketUrl, SmbUrl, HmlUrl, WmlUrl, ImlUrl, RiskFreeUrl}| == 6
  {
    var names := ["Market_Factor", "SMB_Factor", "HML_Factor", "WML_Factor", "IML_Factor", "Risk_Free"];
    var urls := [MarketUrl, SmbUrl, HmlUrl, WmlUrl, ImlUrl, RiskFreeUrl];
    forall i, j | 0 <= i < j < |urls| ensures urls[i] != urls[j] {
      assert urls[i] == FileUrl(names[i]) && urls[j] == FileUrl(names[j]);
      if urls[i] == urls[j] {
        AffixInjective(RootUrl, names[i], names[j], FileExt);
      }
    }
    DistinctCard(urls);
    assert (set u | u in urls) == {MarketUrl, SmbUrl, HmlUrl, WmlUrl, ImlUrl, RiskFreeUrl};
  }

  /** Thirteen spellings name six files: three for the market, six for the risk-free rate, one each for the others. */
  lemma FactorsFilesShape()
    ensures |FactorsFiles.Keys| == 13 && |FactorsFiles.Values| == 6
    ensures FactorsFiles["Mkt"] == FactorsFiles["Market"] == FactorsFiles["Rm_minus_Rf"] == MarketUrl
    ensures forall k :: k in FactorsFiles && FactorsFiles[k] == RiskFreeUrl <==>
              k in {"Rf", "Risk_free", "Risk Free", "Risk free", "Risk-free", "Risk-Free"}
  {
    FactorsFilesCount();
    FactorsFilesValues();
    FactorUrlsDistinct();
    MarketSpellings();
    RiskFreeSpellings();
  }

  lemma MarketSpellings()
    ensures FactorsFiles["Mkt"] == FactorsFiles["Market"] == FactorsFiles["Rm_minus_Rf"] == MarketUrl
  {
  }

  lemma RiskFreeSpellings()
    ensures forall k :: k in FactorsFiles && FactorsFiles[k] == RiskFreeUrl <==>
              k in {"Rf", "Risk_free", "Risk Free", "Risk free", "Risk-free", "Risk-Free"}
  {
    FactorUrlsDistinct();
    FactorsFilesKeys();
  }

  /** There are thirteen spellings. */
  lemma FactorsFilesCount()
    ensures |FactorsFiles.Keys| == 13
  {
    var ks := ["Mkt", "Market", "Rm_minus_Rf", "SMB", "HML", "WML", "IML",
               "Rf", "Risk_free", "Risk Free", "Risk free", "Risk-free", "Risk-Free"];
    assert Distinct(ks);
    DistinctCard(ks);
    FactorsFilesKeys();
    assert (set k | k in ks) == FactorsFiles.Keys;
  }

  /** No spelling of a factor is also a URL, so `factor in urls_visited` never holds for a known factor. */
  lemma NoKeyIsUrl()
    ensures forall k :: k in FactorsFiles ==> k !in FactorsFiles.Values
  {
    FactorsFilesKeys();
    FactorsFilesValues();
    FileUrlLength("Market_Factor");
    FileUrlLength("SMB_Factor");
    FileUrlLength("HML_Factor");
    FileUrlLength("WML_Factor");
    FileUrlLength("IML_Factor");
    FileUrlLength("Risk_Free");
    forall k | k in FactorsFiles ensures |k| < |RootUrl| {}
    forall u | u in FactorsFiles.Values ensures |u| > |RootUrl| {}
  }

  /** Day tokens and None keep the daily table; month tokens resample to month end, year tokens to year end; anything else is a bad token. */
  lemma AggregationTokens(agg: Option<string>)
    ensures Classify(Fam, agg) ==
              if agg in {Some("day"), Some("daily"), None} then AsIs
              else if agg in {Some("month"), Some("monthly")} then ResampleTo("BM")
              else if agg in {Some("year"), Some("yearly")} then ResampleTo("BY")
              else BadToken(agg)
  {
  }

  // ---------------------------------------------------------------------------
  // Normalising the `factors` argument
  // ---------------------------------------------------------------------------

  /** The `factors` argument: None, one string, or a list of strings. */
  datatype Factors = Unset | Name(name: string) | Names(names: seq<string>)

  /** Iterating a Python string yields its characters, each a one-character string. */
  function Characters(s: string): seq<string> {
    seq(|s|, i requires 0 <= i < |s| => [s[i]])
  }

  /** The sequence the loop iterates over once `factors` has been normalised. */
  function FactorList(factors: Factors): seq<string> {
    match factors
    case Unset => AllFactors
    case Name(s) => if s == "all" then AllFactors else if s in FactorsFiles then [s] else Characters(s)
    case Names(ns) => ns
  }

  predicate AllKeys(names: seq<string>) {
    forall f :: f in names ==> f in FactorsFiles
  }

  /** None and "all" expand to six names, all known, that between them cover every factor file. */
  lemma FullExpansion()
    ensures FactorList(Unset) == FactorList(Name("all")) == AllFactors
    ensures |AllFactors| == 6 && AllKeys(AllFactors)
    ensures (set f | f in AllFactors :: FactorsFiles[f]) == FactorsFiles.Values
  {
    var us := [FactorsFiles["Market"], FactorsFiles["SMB"], FactorsFiles["HML"],
               FactorsFiles["WML"], FactorsFiles["IML"], FactorsFiles["Rf"]];
    assert us == [MarketUrl, SmbUrl, HmlUrl, WmlUrl, ImlUrl, RiskFreeUrl];
    assert (set f | f in AllFactors :: FactorsFiles[f]) == (set u | u in us);
    FactorsFilesValues();
  }

  /** A known name given alone is wrapped into a one-element list. */
  lemma SingleKeyWrapped(s: string)
    requires s in FactorsFiles
    ensures FactorList(Name(s)) == [s]
  {
  }

  /** Any other string is iterated character by character, and no character is a factor name. */
  lemma StrayNameSplit(s: string)
    requires s != "all" && s !in FactorsFiles
    ensures FactorList(Name(s)) == Characters(s)
    ensures forall f :: f in FactorList(Name(s)) ==> f !in FactorsFiles
  {
    forall k | k in FactorsFiles ensures |k| >= 2 {}
  }

  // ---------------------------------------------------------------------------
  // The loop over set(factors), as a specification
  // ---------------------------------------------------------------------------

  /**
   * `urls_visited` after the loop body has run for the names of `order` in
   * turn, as written: a name is skipped when it is itself among the visited
   * URLs, otherwise its URL is looked up (a KeyError for an unknown name)
   * and appended.
   */
  function Visit(order: seq<string>): Result<seq<string>> {
    if order == [] then Ok([])
    else
      var prev, f := Visit(order[..|order| - 1]), order[|order| - 1];
      if prev.Err? then prev
      else if f in prev.value then prev
      else if f in FactorsFiles then Ok(prev.value + [FactorsFiles[f]])
      else Err(UnknownKey(f))
  }

  /** The URL of each name, in order. */
  function UrlsOf(order: seq<string>): (r: seq<string>)
    requires AllKeys(order)
    ensures |r| == |order| && forall i :: 0 <= i < |order| ==> r[i] == FactorsFiles[order[i]]
  {
    if order == [] then []
    else
      var p := order[..|order| - 1];
      assert forall f :: f in p ==> f in order;
      UrlsOf(p) + [FactorsFiles[order[|order| - 1]]]
  }

  /** Over known names the check on line 91 never skips: every name visited is fetched. */
  lemma {:induction false} VisitAllKeys(order: seq<string>)
    requires AllKeys(order)
    ensures Visit(order) == Ok(UrlsOf(order))
  {
    if order != [] {
      var p, f := order[..|order| - 1], order[|order| - 1];
      assert forall g :: g in p ==> g in order;
      VisitAllKeys(p);
      NoKeyIsUrl();
      assert f in FactorsFiles;
      assert f !in UrlsOf(p) by {
        forall u | u in UrlsOf(p) ensures u in FactorsFiles.Values {
          var i :| 0 <= i < |p| && UrlsOf(p)[i] == u;
        }
      }
    }
  }

  /** Over names none of which is known, the first name visited raises. */
  lemma {:induction false} VisitNoKeys(order: seq<string>)
    requires forall f :: f in order ==> f !in FactorsFiles
    ensures Visit(order) == if order == [] then Ok([]) else Err(UnknownKey(order[0]))
  {
    if order != [] {
      var p := order[..|order| - 1];
      assert forall g :: g in p ==> g in order;
      VisitNoKeys(p);
      if p != [] {
        assert p[0] == order[0];
      }
    }
  }

  /** One more name: skipped, fetched, or a KeyError, after the names before it. */
  lemma VisitSnoc(order: seq<string>, f: string, urls: seq<string>)
    requires Visit(order) == Ok(urls)
    ensures f in urls ==> Visit(order + [f]) == Ok(urls)
    ensures f !in urls && f in FactorsFiles ==> Visit(order + [f]) == Ok(urls + [FactorsFiles[f]])
    ensures f !in urls && f !in FactorsFiles ==> Visit(order + [f]) == Err(UnknownKey(f))
  {
    assert (order + [f])[..|order|] == order;
  }

  /** The number of URLs visited never exceeds the number of names. */
  lemma {:induction false} VisitLength(order: seq<string>)
    requires Visit(order).Ok?
    ensures |Visit(order).value| <= |order|
  {
    if order != [] {
      VisitLength(order[..|order| - 1]);
    }
  }

  /**
   * The deduplication the comment on line 87 describes: skip a name whose
   * URL has been visited already.
   */
  function VisitByUrl(order: seq<string>): Result<seq<string>> {
    if order == [] then Ok([])
    else
      var prev, f := VisitByUrl(order[..|order| - 1]), order[|order| - 1];
      if prev.Err? then prev
      else if f !in FactorsFiles then Err(UnknownKey(f))
      else if FactorsFiles[f] in prev.value then prev
      else Ok(prev.value + [FactorsFiles[f]])
  }

  /** Deduplicating by URL reads each factor file once: the URLs visited are distinct and are those of the names. */
  lemma {:induction false} VisitByUrlOncePerFile(order: seq<string>)
    requires AllKeys(order)
    ensures VisitByUrl(order).Ok?
    ensures Distinct(VisitByUrl(order).value)
    ensures (set u | u in VisitByUrl(order).value) == (set f | f in order :: FactorsFiles[f])
  {
    if order != [] {
      var p, f := order[..|order| - 1], order[|order| - 1];
      assert forall g :: g in p ==> g in order;
      VisitByUrlOncePerFile(p);
      assert (set g | g in order :: FactorsFiles[g]) == (set g | g in p :: FactorsFiles[g]) + {FactorsFiles[f]} by {
        assert forall g :: g in order <==> g in p || g == f;
      }
    }
  }

  /** As written, two spellings of the market factor are both fetched; by URL, the file would be read once. */
  lemma MarketAliasesFetchedTwice()
    ensures Visit(["Market", "Mkt"]) == Ok([MarketUrl, MarketUrl])
    ensures Visit(["Mkt", "Market"]) == Ok([MarketUrl, MarketUrl])
    ensures VisitByUrl(["Market", "Mkt"]) == Ok([MarketUrl])
  {
    FileUrlLength("Market_Factor");
    assert FactorsFiles["Market"] == MarketUrl && FactorsFiles["Mkt"] == MarketUrl;
    VisitOne("Market");
    VisitOne("Mkt");
    assert ["Market", "Mkt"][..1] == ["Market"] && ["Mkt", "Market"][..1] == ["Mkt"];
    assert "Mkt" != MarketUrl && "Market" != MarketUrl;
    assert [MarketUrl] + [MarketUrl] == [MarketUrl, MarketUrl];
  }

  /**
   * The check on line 91 does skip a name that is itself a visited URL, so
   * with a URL among the names the outcome depends on the iteration order.
   */
  lemma UrlAsNameSkipped()
    ensures Visit(["Market", MarketUrl]) == Ok([MarketUrl])
    ensures Visit([MarketUrl, "Market"]) == Err(UnknownKey(MarketUrl))
  {
    NoKeyIsUrl();
    assert FactorsFiles["Market"] == MarketUrl;
    assert MarketUrl in FactorsFiles.Values;
    VisitOne("Market");
    assert ["Market", MarketUrl][..1] == ["Market"] && [MarketUrl, "Market"][..1] == [MarketUrl];
  }

  /** One known name is fetched, by either check. */
  lemma VisitOne(f: string)
    requires f in FactorsFiles
    ensures Visit([f]) == Ok([FactorsFiles[f]]) && VisitByUrl([f]) == Ok([FactorsFiles[f]])
  {
    assert [f][..0] == [];
    var prev := Visit([f][..0]);
    assert prev == Ok([]);
    assert prev.value + [FactorsFiles[f]] == [FactorsFiles[f]];
    assert Visit([f]) == Ok([FactorsFiles[f]]);
  }

  // ---------------------------------------------------------------------------
  // The whole loop, as a specification
  // ---------------------------------------------------------------------------

  /** Where the loop stands: URLs visited, warnings printed, tables downloaded, and the error that ended it, if any. */
  datatype Progress<V> = Progress(urls: seq<string>, output: seq<Event>, tables: seq<Table<V>>, failure: Option<Error>)

  /** One pass of the loop body for `factor`; nothing happens once an error has ended the loop. */
  function Step<V>(published: map<string, Sheet<V>>, p: Progress<V>, factor: string,
                   agg: Option<string>, aggFunc: Option<string>, resample: Resampler<V>): Progress<V>
  {
    if p.failure.Some? || factor in p.urls then p
    else if factor !in FactorsFiles then p.(failure := Some(UnknownKey(factor)))
    else
      var url := FactorsFiles[factor];
      var o := Outcome(Fam, published, url, agg, aggFunc, resample);
      Progress(p.urls + [url], p.output + WarningOf(Fam, published, url, agg, aggFunc),
               if o.Ok? then p.tables + [o.value] else p.tables,
               if o.Ok? then None else Some(o.error))
  }

  /** The loop run over the names of `order`, in turn. */
  function Run<V>(published: map<string, Sheet<V>>, order: seq<string>,
                  agg: Option<string>, aggFunc: Option<string>, resample: Resampler<V>): Progress<V>
  {
    if order == [] then Progress([], [], [], None)
    else Step(published, Run(published, order[..|order| - 1], agg, aggFunc, resample), order[|order| - 1], agg, aggFunc, resample)
  }

  /** Until an error ends it, the loop visits the URLs the deduplication check of line 91 lets through. */
  lemma {:induction false} RunVisit<V>(published: map<string, Sheet<V>>, order: seq<string>,
                                       agg: Option<string>, aggFunc: Option<string>, resample: Resampler<V>)
    requires Run(published, order, agg, aggFunc, resample).failure.None?
    ensures Visit(order) == Ok(Run(published, order, agg, aggFunc, resample).urls)
  {
    if order != [] {
      RunVisit(published, order[..|order| - 1], agg, aggFunc, resample);
    }
  }

  /** A warning is printed for each URL visited whose sheet reaches the aggregation step. */
  lemma {:induction false} RunWarnings<V>(published: map<string, Sheet<V>>, order: seq<string>,
                                          agg: Option<string>, aggFunc: Option<string>, resample: Resampler<V>)
    ensures Run(published, order, agg, aggFunc, resample).output
         == Warnings(Fam, published, Run(published, order, agg, aggFunc, resample).urls, agg, aggFunc)
  {
    if order != [] {
      var prefix := order[..|order| - 1];
      var p := Run(published, prefix, agg, aggFunc, resample);
      RunWarnings(published, prefix, agg, aggFunc, resample);
      var q := Run(published, order, agg, aggFunc, resample);
      if q.urls != p.urls {
        assert q.urls[..|q.urls| - 1] == p.urls;
      }
    }
  }

  /** Without an error, the tables are the downloads of the URLs visited, one for one and in order. */
  lemma {:induction false} RunTables<V>(published: map<string, Sheet<V>>, order: seq<string>,
                                        agg: Option<string>, aggFunc: Option<string>, resample: Resampler<V>)
    requires Run(published, order, agg, aggFunc, resample).failure.None?
    ensures |Run(published, order, agg, aggFunc, resample).tables| == |Run(published, order, agg, aggFunc, resample).urls|
    ensures forall j :: 0 <= j < |Run(published, order, agg, aggFunc, resample).urls| ==>
              Outcome(Fam, published, Run(published, order, agg, aggFunc, resample).urls[j], agg, aggFunc, resample)
                == Ok(Run(published, order, agg, aggFunc, resample).tables[j])
  {
    if order != [] {
      RunTables(published, order[..|order| - 1], agg, aggFunc, resample);
    }
  }

  /** The loop ends with a KeyError on an unknown name, or with the error of the last URL it downloaded. */
  lemma {:induction false} RunFailure<V>(published: map<string, Sheet<V>>, order: seq<string>,
                                         agg: Option<string>, aggFunc: Option<string>, resample: Resampler<V>)
    requires Run(published, order, agg, aggFunc, resample).failure.Some?
    ensures var p := Run(published, order, agg, aggFunc, resample);
            || (p.failure.value.UnknownKey? && p.failure.value.key in order && p.failure.value.key !in FactorsFiles)
            || (p.urls != [] && Outcome(Fam, published, p.urls[|p.urls| - 1], agg, aggFunc, resample) == Err(p.failure.value))
  {
    var prefix := order[..|order| - 1];
    if Run(published, prefix, agg, aggFunc, resample).failure.Some? {
      RunFailure(published, prefix, agg, aggFunc, resample);
      assert forall f :: f in prefix ==> f in order;
    }
  }

  /** The loop fetches at most one URL per name. */
  lemma {:induction false} RunLength<V>(published: map<string, Sheet<V>>, order: seq<string>,
                                        agg: Option<string>, aggFunc: Option<string>, resample: Resampler<V>)
    ensures |Run(published, order, agg, aggFunc, resample).urls| <= |order|
  {
    if order != [] {
      RunLength(published, order[..|order| - 1], agg, aggFunc, resample);
    }
  }

  /** Over unknown names the loop fetches nothing and ends with a KeyError on the first name. */
  lemma {:induction false} RunNoKeys<V>(published: map<string, Sheet<V>>, order: seq<string>,
                                        agg: Option<string>, aggFunc: Option<string>, resample: Resampler<V>)
    requires forall f :: f in order ==> f !in FactorsFiles
    ensures Run(published, order, agg, aggFunc, resample).urls == []
    ensures Run(published, order, agg, aggFunc, resample).failure == if order == [] then None else Some(UnknownKey(order[0]))
  {
    if order != [] {
      var prefix := order[..|order| - 1];
      assert forall f :: f in prefix ==> f in order;
      RunNoKeys(published, prefix, agg, aggFunc, resample);
      if prefix != [] {
        assert prefix[0] == order[0];
      }
    }
  }

  // ---------------------------------------------------------------------------
  // The downloads
  // ---------------------------------------------------------------------------

  /** get_single_risk_factor */
  method GetSingleRiskFactor<V>(web: Web<V>, factor: string, agg: Option<string>, aggFunc: Option<string>,
                                resample: Resampler<V>) returns (r: Result<Table<V>>)
    modifies web
    ensures factor !in FactorsFiles ==> r == Err(UnknownKey(factor)) && web.fetched == old(web.fetched) && web.output == old(web.output)
    ensures factor in FactorsFiles ==> web.fetched == old(web.fetched) + [FactorsFiles[factor]]
    ensures factor in FactorsFiles ==> web.output == old(web.output) + WarningOf(Fam, web.published, FactorsFiles[factor], agg, aggFunc)
    ensures r == KeyedOutcome(Fam, FactorsFiles, web.published, factor, agg, aggFunc, resample)
  {
    r := RetrieveByKey(web, Fam, FactorsFiles, factor, agg, aggFunc, resample);
  }

  /**
   * A factor sheet of integer year, month and day cells, downloaded without
   * aggregation, succeeds exactly when the three columns are there and every
   * row is in range; it then keeps its rows, keys each by its date and drops
   * the three columns, whatever function is given.
   */
  lemma FactorSheetDownload<V>(published: map<string, Sheet<V>>, factor: string, sheet: Sheet<V>,
                               agg: Option<string>, aggFunc: Option<string>, resample: Resampler<V>)
    requires factor in FactorsFiles && FactorsFiles[factor] in published && published[FactorsFiles[factor]] == sheet
    requires agg in IdentityAgg
    requires forall i :: 0 <= i < |sheet.rows| ==>
               "year" in sheet.rows[i] && sheet.rows[i]["year"].Int? && "month" in sheet.rows[i] && sheet.rows[i]["month"].Int? &&
               "day" in sheet.rows[i] && sheet.rows[i]["day"].Int?
    ensures KeyedOutcome(Fam, FactorsFiles, published, factor, agg, aggFunc, resample)
         == KeyedOutcome(Fam, FactorsFiles, published, factor, agg, None, resample)
    ensures KeyedOutcome(Fam, FactorsFiles, published, factor, agg, aggFunc, resample).Ok? <==>
              && "year" in sheet.columns && "month" in sheet.columns && "day" in sheet.columns
              && forall i :: 0 <= i < |sheet.rows| ==>
                   ValidParts(sheet.rows[i]["year"].n, sheet.rows[i]["month"].n, sheet.rows[i]["day"].n)
    ensures KeyedOutcome(Fam, FactorsFiles, published, factor, agg, aggFunc, resample).Ok? ==>
              var t := KeyedOutcome(Fam, FactorsFiles, published, factor, agg, aggFunc, resample).value;
              && |t.rows| == |sheet.rows|
              && "year" !in t.columns && "month" !in t.columns && "day" !in t.columns
              && forall i :: 0 <= i < |sheet.rows| ==>
                   t.rows[i].key == Date(sheet.rows[i]["year"].n, sheet.rows[i]["month"].n, sheet.rows[i]["day"].n)
  {
    IdentityReturnsNormalized(Fam, published, FactorsFiles[factor], agg, aggFunc, resample);
    IdentityReturnsNormalized(Fam, published, FactorsFiles[factor], agg, None, resample);
    NormalizeIntParts(sheet);
  }

  /**
   * The order in which a Python set yields its elements: some order, each
   * element once. It is chosen element by element, so nothing is assumed
   * about it.
   */
  method IterationOrder(s: set<string>) returns (order: seq<string>)
    ensures Distinct(order) && forall f :: f in order <==> f in s
  {
    var pending := s;
    order := [];
    while pending != {}
      invariant forall f :: f in pending ==> f in s && f !in order
      invariant forall f :: f in s ==> f in pending || f in order
      invariant Distinct(order) && forall f :: f in order ==> f in s
      decreases pending
    {
      var f :| f in pending;
      DistinctSnoc(order, f);
      pending := pending - {f};
      order := order + [f];
    }
  }

  /**
   * Lines 86-95: the loop over `set(factors)`, in whatever order the set
   * yields; `order` is the part of that order the loop got through before
   * it finished or an error ended it.
   */
  method VisitFactors<V>(web: Web<V>, factors: seq<string>, agg: Option<string>, aggFunc: Option<string>,
                         resample: Resampler<V>)
      returns (r: Result<seq<Table<V>>>, urlsVisited: seq<string>, ghost order: seq<string>)
    modifies web
    ensures Distinct(order) && forall f :: f in order ==> f in factors
    ensures r.Ok? ==> forall f :: f in factors ==> f in order
    ensures r.Ok? ==> |r.value| == |urlsVisited|
    ensures r.Ok? && AllKeys(factors) ==> |r.value| == |set f | f in factors|
    ensures r.Err? ==> order != [] && Run(web.published, order[..|order| - 1], agg, aggFunc, resample).failure.None?
    ensures urlsVisited == Run(web.published, order, agg, aggFunc, resample).urls
    ensures web.fetched == old(web.fetched) + urlsVisited
    ensures web.output == old(web.output) + Run(web.published, order, agg, aggFunc, resample).output
    ensures r == if Run(web.published, order, agg, aggFunc, resample).failure.Some?
                 then Err(Run(web.published, order, agg, aggFunc, resample).failure.value)
                 else Ok(Run(web.published, order, agg, aggFunc, resample).tables)
  {
    var names := IterationOrder(set f | f in factors);
    var listDfs: seq<Table<V>> := [];
    ghost var out: seq<Event> := [];
    ghost var fetched0, output0 := web.fetched, web.output;
    urlsVisited := [];
    for i := 0 to |names|
      invariant Run(web.published, names[..i], agg, aggFunc, resample) == Progress(urlsVisited, out, listDfs, None)
      invariant web.fetched == fetched0 + urlsVisited
      invariant web.output == output0 + out
    {
      assert names[..i + 1] == names[..i] + [names[i]];
      var failure;
      failure, urlsVisited, listDfs, out :=
        VisitStep(web, names[..i], names[i], urlsVisited, listDfs, out, fetched0, output0, agg, aggFunc, resample);
      if failure.Some? {
        r, order := Err(failure.value), names[..i + 1];
        PrefixFacts(names, i + 1);
        return;
      }
    }
    r, order := Ok(listDfs), names;
    assert names[..|names|] == names;
    RunTables(web.published, names, agg, aggFunc, resample);
    FetchCount(web.published, names, factors, agg, aggFunc, resample);
  }

  /**
   * One pass of the loop body for the next name of the order: skip it when
   * the name is itself among the visited URLs, fail on an unknown name, else
   * download its file, record the URL and keep the table or the error.
   */
  method VisitStep<V>(web: Web<V>, ghost done: seq<string>, factor: string, urlsVisited: seq<string>,
                      listDfs: seq<Table<V>>, ghost out: seq<Event>, ghost fetched0: seq<string>, ghost output0: seq<Event>,
                      agg: Option<string>, aggFunc: Option<string>, resample: Resampler<V>)
      returns (failure: Option<Error>, urls: seq<string>, tables: seq<Table<V>>, ghost outAfter: seq<Event>)
    requires Run(web.published, done, agg, aggFunc, resample) == Progress(urlsVisited, out, listDfs, None)
    requires web.fetched == fetched0 + urlsVisited && web.output == output0 + out
    modifies web
    ensures Run(web.published, done + [factor], agg, aggFunc, resample) == Progress(urls, outAfter, tables, failure)
    ensures web.fetched == fetched0 + urls && web.output == output0 + outAfter
  {
    assert (done + [factor])[..|done|] == done;
    failure, urls, tables, outAfter := None, urlsVisited, listDfs, out;
    if factor in urlsVisited {
      return;
    }
    if factor !in FactorsFiles {
      failure := Some(UnknownKey(factor));
      return;
    }
    var url := FactorsFiles[factor];
    var df := GetSingleRiskFactor(web, factor, agg, aggFunc, resample);
    ghost var w := WarningOf(Fam, web.published, url, agg, aggFunc);
    SeqAssoc(output0, out, w);
    SeqAssoc(fetched0, urlsVisited, [url]);
    urls, outAfter := urlsVisited + [url], out + w;
    if df.Err? {
      failure := Some(df.error);
    } else {
      tables := listDfs + [df.value];
    }
  }

  /** A prefix of a sequence of distinct names is distinct, and dropping its last name gives the shorter prefix. */
  lemma PrefixFacts(names: seq<string>, n: nat)
    requires Distinct(names) && 0 < n <= |names|
    ensures Distinct(names[..n]) && forall f :: f in names[..n] ==> f in names
    ensures names[..n][..n - 1] == names[..n - 1]
  {
  }

  /** The loop fetches at most one URL per distinct name; exactly one when every name is known and the loop completes. */
  lemma FetchCount<V>(published: map<string, Sheet<V>>, order: seq<string>, names: seq<string>,
                      agg: Option<string>, aggFunc: Option<string>, resample: Resampler<V>)
    requires Distinct(order) && forall f :: f in order ==> f in names
    ensures |Run(published, order, agg, aggFunc, resample).urls| <= |set f | f in names|
    ensures Run(published, order, agg, aggFunc, resample).failure.None? && AllKeys(names) &&
            (forall f :: f in names ==> f in order) ==>
              |Run(published, order, agg, aggFunc, resample).urls| == |set f | f in names|
  {
    RunLength(published, order, agg, aggFunc, resample);
    DistinctCard(order);
    SubsetCard(set f | f in order, set f | f in names);
    if Run(published, order, agg, aggFunc, resample).failure.None? && AllKeys(names) && forall f :: f in names ==> f in order {
      RunVisit(published, order, agg, aggFunc, resample);
      assert AllKeys(order);
      VisitAllKeys(order);
      assert (set f | f in order) == (set f | f in names);
    }
  }

  /** The URLs of the names of `order` are the URLs the names look up. */
  lemma UrlsOfCover(order: seq<string>, names: seq<string>)
    requires AllKeys(order) && AllKeys(names)
    requires forall f :: f in order <==> f in names
    ensures (set u | u in UrlsOf(order)) == (set f | f in names :: FactorsFiles[f])
  {
    var us := UrlsOf(order);
    forall u | u in us ensures u in (set f | f in names :: FactorsFiles[f]) {
      var i :| 0 <= i < |order| && us[i] == u;
      assert order[i] in names;
    }
    forall f | f in names ensures FactorsFiles[f] in us {
      var i :| 0 <= i < |order| && order[i] == f;
      assert us[i] == FactorsFiles[f];
    }
  }

  /** A complete pass over all six factors reads the six factor files, one each. */
  lemma AllFactorsFetched<V>(published: map<string, Sheet<V>>, order: seq<string>,
                             agg: Option<string>, aggFunc: Option<string>, resample: Resampler<V>)
    requires Distinct(order) && forall f :: f in order <==> f in AllFactors
    requires Run(published, order, agg, aggFunc, resample).failure.None?
    ensures |Run(published, order, agg, aggFunc, resample).urls| == 6
    ensures (set u | u in Run(published, order, agg, aggFunc, resample).urls) == FactorsFiles.Values
  {
    FullExpansion();
    assert AllKeys(order);
    RunVisit(published, order, agg, aggFunc, resample);
    VisitAllKeys(order);
    UrlsOfCover(order, AllFactors);
    AllFactorsCount(order);
  }

  /** An order of the six factors has six names. */
  lemma AllFactorsCount(order: seq<string>)
    requires Distinct(order) && forall f :: f in order <==> f in AllFactors
    ensures |order| == 6
  {
    DistinctCard(order);
    assert Distinct(AllFactors);
    DistinctCard(AllFactors);
    assert (set f | f in order) == (set f | f in AllFactors);
  }

  /** A stray name that is not a factor fetches nothing and does not return a table. */
  lemma StrayNameFetchesNothing<V>(published: map<string, Sheet<V>>, s: string, order: seq<string>,
                                   agg: Option<string>, aggFunc: Option<string>, resample: Resampler<V>)
    requires s != "all" && s !in FactorsFiles
    requires forall f :: f in order ==> f in FactorList(Name(s))
    ensures Run(published, order, agg, aggFunc, resample).urls == []
    ensures Run(published, order, agg, aggFunc, resample).failure.Some? || Run(published, order, agg, aggFunc, resample).tables == []
  {
    StrayNameSplit(s);
    RunNoKeys(published, order, agg, aggFunc, resample);
    if order == [] {
      assert Run(published, order, agg, aggFunc, resample).tables == [];
    }
  }

  /** Two spellings of the market factor, in either order, read the market file twice. */
  lemma MarketPairFetched<V>(published: map<string, Sheet<V>>, order: seq<string>,
                             agg: Option<string>, aggFunc: Option<string>, resample: Resampler<V>)
    requires Distinct(order) && forall f :: f in order <==> f in ["Market", "Mkt"]
    requires Run(published, order, agg, aggFunc, resample).failure.None?
    ensures Run(published, order, agg, aggFunc, resample).urls == [MarketUrl, MarketUrl]
  {
    MarketOrders(order);
    MarketAliasesFetchedTwice();
    RunVisit(published, order, agg, aggFunc, resample);
  }

  /** The orders `set(["Market", "Mkt"])` can be iterated in. */
  lemma MarketOrders(order: seq<string>)
    requires Distinct(order)
    requires forall f :: f in order <==> f in ["Market", "Mkt"]
    ensures order == ["Market", "Mkt"] || order == ["Mkt", "Market"]
  {
    DistinctCard(order);
    assert (set f | f in order) == {"Market", "Mkt"};
    assert |order| == 2;
  }

  /**
   * get_risk_factors; `concat` stands for `pd.concat(list_dfs, axis=1,
   * join="outer")`, which raises on an empty list. `order` is the order
   * `set(factors)` was iterated in, as far as the loop got.
   */
  method GetRiskFactors<V>(web: Web<V>, factors: Factors, agg: Option<string>, aggFunc: Option<string>,
                           resample: Resampler<V>, concat: seq<Table<V>> -> Table<V>)
      returns (r: Result<Table<V>>, ghost order: seq<string>)
    modifies web
    ensures Distinct(order) && forall f :: f in order ==> f in FactorList(factors)
    ensures web.fetched == old(web.fetched) + Run(web.published, order, agg, aggFunc, resample).urls
    ensures web.output == old(web.output) + Run(web.published, order, agg, aggFunc, resample).output
    ensures r == if Run(web.published, order, agg, aggFunc, resample).failure.Some?
                 then Err(Run(web.published, order, agg, aggFunc, resample).failure.value)
                 else if Run(web.published, order, agg, aggFunc, resample).tables == [] then Err(NothingToConcatenate)
                 else Ok(concat(Run(web.published, order, agg, aggFunc, resample).tables))
    ensures r.Ok? ==> forall f :: f in FactorList(factors) ==> f in order
    ensures |web.fetched| <= |old(web.fetched)| + |set f | f in FactorList(factors)|
    ensures r.Ok? && AllKeys(FactorList(factors)) ==>
              |web.fetched| == |old(web.fetched)| + |set f | f in FactorList(factors)|
    ensures (factors == Unset || factors == Name("all")) && r.Ok? ==>
              |web.fetched| == |old(web.fetched)| + 6 &&
              (set u | u in web.fetched[|old(web.fetched)|..]) == FactorsFiles.Values
    ensures factors.Name? && factors.name != "all" && factors.name !in FactorsFiles ==>
              r.Err? && web.fetched == old(web.fetched)
    ensures factors == Names(["Market", "Mkt"]) && r.Ok? ==>
              web.fetched == old(web.fetched) + [MarketUrl, MarketUrl]
  {
    var names: seq<string>;
    if factors.Unset? || factors == Name("all") {
      names := AllFactors;
    } else if factors.Name? && factors.name in FactorsFiles {
      names := [factors.name];
    } else if factors.Name? {
      names := Characters(factors.name);
    } else {
      names := factors.names;
    }
    assert names == FactorList(factors);
    var listDfs, urlsVisited;
    listDfs, urlsVisited, order := VisitFactors(web, names, agg, aggFunc, resample);
    assert web.fetched[|old(web.fetched)|..] == urlsVisited;
    FetchCount(web.published, order, names, agg, aggFunc, resample);
    if factors.Name? && factors.name != "all" && factors.name !in FactorsFiles {
      StrayNameFetchesNothing(web.published, factors.name, order, agg, aggFunc, resample);
    }
    if listDfs.Err? {
      return Err(listDfs.error), order;
    }
    if |listDfs.value| == 0 {
      return Err(NothingToConcatenate), order;
    }
    if factors == Unset || factors == Name("all") {
      AllFactorsFetched(web.published, order, agg, aggFunc, resample);
    }
    if factors == Names(["Market", "Mkt"]) {
      MarketPairFetched(web.published, order, agg, aggFunc, resample);
    }
    return Ok(concat(listDfs.value)), order;
  }
}
