/**
 * Sector cost of capital: one monthly series per industrial sector, labelled
 * "MM/YYYY", with several accepted spellings for some sectors.
 */
module CostCapital {
  import opened Outcomes
  import opened Dates
  import opened Frames
  import opened Pipeline
  import opened Sequences

  const RootUrl := "http://nefin.com.br/Cost%20of%20Capital/"
  const FileExt := ".xls"

  function FileUrl(name: string): string {
    RootUrl + name + FileExt
  }

  const BasicUrl := FileUrl("Basic%20Products")
  const ConstructionUrl := FileUrl("Construction")
  const ConsumerUrl := FileUrl("Consumer")
  const EnergyUrl := FileUrl("Energy")
  const FinanceUrl := FileUrl("Finance")
  const ManufacturingUrl := FileUrl("Manufacturing")
  const OtherUrl := FileUrl("Other")

  /** SECTORS_FILES: every accepted spelling of a sector and the file it names. */
  const SectorsFiles: map<string, string> := map[
    "Basic" := BasicUrl,
    "Basic Products" := BasicUrl,
    "Basic_Products" := BasicUrl,
    "Basic_products" := BasicUrl,
    "Construction" := ConstructionUrl,
    "Consumer" := ConsumerUrl,
    "Energy" := EnergyUrl,
    "Finance" := FinanceUrl,
    "Manufacturing" := ManufacturingUrl,
    "Other" := OtherUrl,
    "Others" := OtherUrl
  ]

  /** RESAMPLE_FREQ */
  const ResampleFreq: map<string, string> := map["year" := "BY", "yearly" := "BY"]

  /** IDENTITY_AGG */
  const IdentityAgg: set<Option<string>> := {Some("day"), Some("daily"), Some("month"), Some("monthly"), None}

  const Fam := Family(IdentityAgg, ResampleFreq, MonthYear)

  // ---------------------------------------------------------------------------
  // The alias table
  // ---------------------------------------------------------------------------

  /** The eleven accepted spellings. */
  lemma SectorsFilesKeys()
    ensures SectorsFiles.Keys == {"Basic", "Basic Products", "Basic_Products", "Basic_products", "Construction",
                                  "Consumer", "Energy", "Finance", "Manufacturing", "Other", "Others"}
  {
  }

  /** There are eleven spellings. */
  lemma SectorsFilesCount()
    ensures |SectorsFiles.Keys| == 11
  {
    var ks := ["Basic", "Basic Products", "Basic_Products", "Basic_products", "Construction",
               "Consumer", "Energy", "Finance", "Manufacturing", "Other", "Others"];
    assert Distinct(ks);
    DistinctCard(ks);
    SectorsFilesKeys();
    assert (set k | k in ks) == SectorsFiles.Keys;
  }

  /** Every spelling names one of the seven sector files, and each file is named. */
  lemma SectorsFilesValues()
    ensures SectorsFiles.Values == {BasicUrl, ConstructionUrl, ConsumerUrl, EnergyUrl, FinanceUrl, ManufacturingUrl, OtherUrl}
  {
    var urls := {BasicUrl, ConstructionUrl, ConsumerUrl, EnergyUrl, FinanceUrl, ManufacturingUrl, OtherUrl};
    forall u | u in SectorsFiles.Values ensures u in urls {
      var k :| k in SectorsFiles && SectorsFiles[k] == u;
      SectorsFilesKeys();
    }
    assert urls <= SectorsFiles.Values by {
      assert SectorsFiles["Basic"] == BasicUrl && SectorsFiles["Construction"] == ConstructionUrl;
      assert SectorsFiles["Consumer"] == ConsumerUrl && SectorsFiles["Energy"] == EnergyUrl;
      assert SectorsFiles["Finance"] == FinanceUrl && SectorsFiles["Manufacturing"] == ManufacturingUrl;
      assert SectorsFiles["Other"] == OtherUrl;
    }
  }

  /** The seven sector files are distinct. */
  lemma SectorUrlsDistinct()
    ensures |{BasicUrl, ConstructionUrl, ConsumerUrl, EnergyUrl, FinanceUrl, ManufacturingUrl, OtherUrl}| == 7
  {
    var names := ["Basic%20Products", "Construction", "Consumer", "Energy", "Finance", "Manufacturing", "Other"];
    var urls := [BasicUrl, ConstructionUrl, ConsumerUrl, EnergyUrl, FinanceUrl, ManufacturingUrl, OtherUrl];
    forall i, j | 0 <= i < j < |urls| ensures urls[i] != urls[j] {
      assert urls[i] == FileUrl(names[i]) && urls[j] == FileUrl(names[j]);
      if urls[i] == urls[j] {
        AffixInjective(RootUrl, names[i], names[j], FileExt);
      }
    }
    DistinctCard(urls);
    assert (set u | u in urls) == {BasicUrl, ConstructionUrl, ConsumerUrl, EnergyUrl, FinanceUrl, ManufacturingUrl, OtherUrl};
  }

  /** Eleven spellings name seven files: four for basic products, two for the other sectors' file, one each for the rest. */
  lemma SectorsFilesShape()
    ensures |SectorsFiles.Keys| == 11 && |SectorsFiles.Values| == 7
    ensures forall k :: k in SectorsFiles && SectorsFiles[k] == BasicUrl <==>
              k in {"Basic", "Basic Products", "Basic_Products", "Basic_products"}
    ensures forall k :: k in SectorsFiles && SectorsFiles[k] == OtherUrl <==> k in {"Other", "Others"}
  {
    SectorsFilesCount();
    SectorsFilesValues();
    SectorUrlsDistinct();
    BasicSpellings();
    OtherSpellings();
  }

  lemma BasicSpellings()
    ensures forall k :: k in SectorsFiles && SectorsFiles[k] == BasicUrl <==>
              k in {"Basic", "Basic Products", "Basic_Products", "Basic_products"}
  {
    SectorUrlsDistinct();
    SectorsFilesKeys();
  }

  lemma OtherSpellings()
    ensures forall k :: k in SectorsFiles && SectorsFiles[k] == OtherUrl <==> k in {"Other", "Others"}
  {
    SectorUrlsDistinct();
    SectorsFilesKeys();
  }

  // ---------------------------------------------------------------------------
  // The aggregation tokens
  // ---------------------------------------------------------------------------

  /** Day and month tokens and None keep the monthly table; year tokens resample to year end; anything else is a bad token. */
  lemma AggregationTokens(agg: Option<string>)
    ensures Classify(Fam, agg) ==
              if agg in {Some("day"), Some("daily"), Some("month"), Some("monthly"), None} then AsIs
              else if agg in {Some("year"), Some("yearly")} then ResampleTo("BY")
              else BadToken(agg)
  {
  }

  // ---------------------------------------------------------------------------
  // The download
  // ---------------------------------------------------------------------------

  /** get_sector_cost_of_capital */
  method GetSectorCostOfCapital<V>(web: Web<V>, sector: string, agg: Option<string>, aggFunc: Option<string>,
                                   resample: Resampler<V>) returns (r: Result<Table<V>>)
    modifies web
    ensures sector !in SectorsFiles ==> r == Err(UnknownKey(sector)) && web.fetched == old(web.fetched) && web.output == old(web.output)
    ensures sector in SectorsFiles ==> web.fetched == old(web.fetched) + [SectorsFiles[sector]]
    ensures sector in SectorsFiles ==> web.output == old(web.output) + WarningOf(Fam, web.published, SectorsFiles[sector], agg, aggFunc)
    ensures r == KeyedOutcome(Fam, SectorsFiles, web.published, sector, agg, aggFunc, resample)
  {
    r := RetrieveByKey(web, Fam, SectorsFiles, sector, agg, aggFunc, resample);
  }

  /**
   * A sheet whose rows carry "MM/YYYY" labels, downloaded without
   * aggregation, gives one row per label, keyed by the first of that month,
   * and without the label column.
   */
  lemma LabelledSheetDownload<V>(published: map<string, Sheet<V>>, sector: string, sheet: Sheet<V>,
                                 agg: Option<string>, aggFunc: Option<string>, resample: Resampler<V>,
                                 months: seq<nat>, years: seq<nat>)
    requires sector in SectorsFiles && SectorsFiles[sector] in published && published[SectorsFiles[sector]] == sheet
    requires agg in IdentityAgg
    requires "Month/Year" in sheet.columns && |months| == |years| == |sheet.rows|
    requires forall i :: 0 <= i < |sheet.rows| ==>
               1 <= months[i] <= 12 && 1000 <= years[i] <= 9999 &&
               "Month/Year" in sheet.rows[i] && sheet.rows[i]["Month/Year"] == Text(MonthYearLabel(months[i], years[i]))
    ensures KeyedOutcome(Fam, SectorsFiles, published, sector, agg, aggFunc, resample).Ok?
    ensures var t := KeyedOutcome(Fam, SectorsFiles, published, sector, agg, aggFunc, resample).value;
            && |t.rows| == |sheet.rows|
            && "Month/Year" !in t.columns
            && forall i :: 0 <= i < |sheet.rows| ==> t.rows[i].key == Date(years[i], months[i], 1)
  {
    var dates := seq(|sheet.rows|, i requires 0 <= i < |sheet.rows| => Date(years[i], months[i], 1));
    NormalizeDated(sheet, MonthYear, dates);
    IdentityReturnsNormalized(Fam, published, SectorsFiles[sector], agg, aggFunc, resample);
  }

  /** Whatever the labels say, every row of an unaggregated download is keyed by the first of a month. */
  lemma MonthStartKeys<V>(published: map<string, Sheet<V>>, sector: string,
                          agg: Option<string>, aggFunc: Option<string>, resample: Resampler<V>)
    requires agg in IdentityAgg
    requires KeyedOutcome(Fam, SectorsFiles, published, sector, agg, aggFunc, resample).Ok?
    ensures var t := KeyedOutcome(Fam, SectorsFiles, published, sector, agg, aggFunc, resample).value;
            forall i :: 0 <= i < |t.rows| ==> t.rows[i].key.day == 1 && 1 <= t.rows[i].key.month <= 12
  {
    var url := SectorsFiles[sector];
    IdentityReturnsNormalized(Fam, published, url, agg, aggFunc, resample);
    var sheet := published[url];
    var t := Normalize(sheet, MonthYear).value;
    forall i | 0 <= i < |t.rows| ensures t.rows[i].key.day == 1 && 1 <= t.rows[i].key.month <= 12 {
      assert Some(t.rows[i].key) == RowKey(MonthYear, sheet.rows[i]);
    }
  }

  /** A year token resamples the monthly table to year end ("BY") with the given function, or "last". */
  lemma YearlyResamples<V>(published: map<string, Sheet<V>>, sector: string,
                           agg: Option<string>, aggFunc: Option<string>, resample: Resampler<V>)
    requires sector in SectorsFiles && Reaches(Fam, published, SectorsFiles[sector])
    requires agg in {Some("year"), Some("yearly")}
    ensures var t := resample(Normalize(published[SectorsFiles[sector]], MonthYear).value, "BY", FunctionName(aggFunc));
            KeyedOutcome(Fam, SectorsFiles, published, sector, agg, aggFunc, resample)
              == if t.None? then Err(AggregationFailed) else Ok(t.value)
  {
    AggregationTokens(agg);
  }

  /**
   * Any other token, "quarter" for instance, fails with a KeyError, but only
   * after the sheet is read and normalised, and after the default-function
   * warning when no function is given.
   */
  lemma UnknownTokenFailsAfterRead<V>(published: map<string, Sheet<V>>, sector: string,
                                      agg: Option<string>, aggFunc: Option<string>, resample: Resampler<V>)
    requires sector in SectorsFiles
    requires agg !in IdentityAgg && agg !in {Some("year"), Some("yearly")}
    ensures Reaches(Fam, published, SectorsFiles[sector]) <==>
              KeyedOutcome(Fam, SectorsFiles, published, sector, agg, aggFunc, resample) == Err(UnknownAggregation(agg))
    ensures Reaches(Fam, published, SectorsFiles[sector]) && aggFunc.None? ==>
              WarningOf(Fam, published, SectorsFiles[sector], agg, aggFunc) == [AggregationWarning]
  {
    BadTokenFailsAfterRead(Fam, published, SectorsFiles[sector], agg, aggFunc, resample);
  }
}
