/** The record classes of src/stock_valuation_app/models/stock_models.py: the
    "strict" variant, where the metric fields and the quote's `eps`, `pe` and
    `vol_avg` may not be null. */
module StrictStockModels {
  import opened Json
  import opened Validation
  import Lax = StockModels

  /** The profile class is the same in both variants. */
  const CompanyProfile: Schema := Lax.CompanyProfile

  const Quote: Schema := [
    Required("symbol", TStr),
    Required("price", TFloat),
    NullableAliased("change_percent", "changesPercentage", TFloat),
    Aliased("year_high", "yearHigh", TFloat),
    Aliased("year_low", "yearLow", TFloat),
    Aliased("market_cap", "marketCap", TFloat),
    Aliased("vol_avg", "avgVolume", TInt),
    Required("eps", TFloat),
    Required("pe", TFloat),
    Aliased("earning_date", "earningsAnnouncement", TStr),
    Aliased("shares_outstanding", "sharesOutstanding", TInt)
  ]

  /** The ratings class is the same in both variants. */
  const Ratings: Schema := Lax.Ratings

  const KeyMetricsTTM: Schema := [
    Aliased("rev_per_share_ttm", "revenuePerShareTTM", TFloat),
    Aliased("net_income_per_share_ttm", "netIncomePerShareTTM", TFloat),
    Aliased("fcf_per_share_ttm", "freeCashFlowPerShareTTM", TFloat),
    Aliased("pe_ratio_ttm", "peRatioTTM", TFloat),
    Aliased("ev_over_ebitda_ttm", "enterpriseValueOverEBITDATTM", TFloat),
    Aliased("ev_to_fcf_ttm", "evToFreeCashFlowTTM", TFloat),
    Aliased("fcf_yield_ttm", "freeCashFlowYieldTTM", TFloat),
    Aliased("pts_ratio_ttm", "priceToSalesRatioTTM", TFloat),
    Aliased("ptb_ratio_ttm", "ptbRatioTTM", TFloat),
    Aliased("pfcf_ratio_ttm", "pfcfRatioTTM", TFloat),
    Aliased("dvd_yield_pct_ttm", "dividendYieldPercentageTTM", TFloat),
    Aliased("dvd_per_share_ttm", "dividendPerShareTTM", TFloat),
    Aliased("payout_ratio_ttm", "payoutRatioTTM", TFloat)
  ]

  const KeyMetrics: Schema := [
    Required("symbol", TStr),
    Required("date", TStr),
    Aliased("rev_per_share", "revenuePerShare", TFloat),
    Aliased("fcf_per_share", "freeCashFlowPerShare", TFloat),
    Aliased("pe_ratio", "peRatio", TFloat),
    Aliased("ev_over_ebitda", "enterpriseValueOverEBITDA", TFloat),
    Aliased("ev_to_fcf", "evToFreeCashFlow", TFloat),
    Aliased("fcf_yield", "freeCashFlowYield", TFloat)
  ]

  const Growth: Schema := [
    Required("symbol", TStr),
    Required("date", TStr),
    Aliased("rev_growth", "revenueGrowth", TFloat),
    Aliased("eps_growth", "epsdilutedGrowth", TFloat),
    Aliased("dps_growth", "dividendsperShareGrowth", TFloat),
    Aliased("fcf_growth", "freeCashFlowGrowth", TFloat),
    Aliased("debt_growth", "debtGrowth", TFloat),
    Aliased("fiveY_rev_growth_per_share", "fiveYRevenueGrowthPerShare", TFloat),
    Aliased("fiveY_ni_growth_per_share", "fiveYNetIncomeGrowthPerShare", TFloat),
    Aliased("fiveY_dps_growth_per_share", "fiveYDividendperShareGrowthPerShare", TFloat),
    Aliased("fiveY_opcf_growth_per_share", "fiveYOperatingCFGrowthPerShare", TFloat)
  ]

  const CombinedModel: Schema := [
    Required("profile", TList(TModel(CompanyProfile))),
    Required("quote", TList(TModel(Quote))),
    Required("ratings", TList(TModel(Ratings))),
    Required("key_metrics_ttm", TList(TModel(KeyMetricsTTM))),
    Required("key_metrics", TList(TModel(KeyMetrics))),
    Required("growth", TList(TModel(Growth)))
  ]

  // ---------------------------------------------------------------------
  // What each strict class accepts

  /** A quote the strict class accepts: only `changesPercentage` may be null, `avgVolume` must be an integer. */
  predicate QuoteInput(m: map<string, Json>)
  {
    && Str(m, "symbol") && Number(m, "price") && NumberOrNull(m, "changesPercentage")
    && Number(m, "yearHigh") && Number(m, "yearLow") && Number(m, "marketCap")
    && Int(m, "avgVolume") && Number(m, "eps") && Number(m, "pe")
    && Str(m, "earningsAnnouncement") && Int(m, "sharesOutstanding")
  }

  /** The strict quote class accepts exactly the inputs described by `QuoteInput`. */
  lemma QuoteConforms(m: map<string, Json>)
    ensures RecordConforms(Quote, m) <==> QuoteInput(m)
  {
    if RecordConforms(Quote, m) { QuoteConformsOnly(Quote, m); }
    if QuoteInput(m) { QuoteInputConforms(Quote, m); }
  }

  lemma QuoteConformsOnly(s: Schema, m: map<string, Json>)
    requires s == Quote && RecordConforms(s, m)
    ensures QuoteInput(m)
  {
    assert FieldConforms(s[0], m);
    assert FieldConforms(s[1], m);
    assert FieldConforms(s[2], m);
    assert FieldConforms(s[3], m);
    assert FieldConforms(s[4], m);
    assert FieldConforms(s[5], m);
    assert FieldConforms(s[6], m);
    assert FieldConforms(s[7], m);
    assert FieldConforms(s[8], m);
    assert FieldConforms(s[9], m);
    assert FieldConforms(s[10], m);
  }

  lemma QuoteInputConforms(s: Schema, m: map<string, Json>)
    requires s == Quote && QuoteInput(m)
    ensures RecordConforms(s, m)
  {
    forall j | 0 <= j < |s| ensures FieldConforms(s[j], m) {
      if j < 5 {
        assert s[j] in s[..5];
      } else {
        assert s[j] in s[5..];
      }
    }
  }

  lemma QuoteAccepts(m: map<string, Json>)
    ensures ValidateRecord(Quote, m).Ok? <==> QuoteInput(m)
  {
    ValidateRecordCorrect(Quote, m);
    QuoteConforms(m);
  }

  /** TTM metrics the strict class accepts: all thirteen keys present, each a number. */
  predicate KeyMetricsTTMInput(m: map<string, Json>)
  {
    && Number(m, "revenuePerShareTTM") && Number(m, "netIncomePerShareTTM")
    && Number(m, "freeCashFlowPerShareTTM") && Number(m, "peRatioTTM")
    && Number(m, "enterpriseValueOverEBITDATTM") && Number(m, "evToFreeCashFlowTTM")
    && Number(m, "freeCashFlowYieldTTM") && Number(m, "priceToSalesRatioTTM")
    && Number(m, "ptbRatioTTM") && Number(m, "pfcfRatioTTM")
    && Number(m, "dividendYieldPercentageTTM") && Number(m, "dividendPerShareTTM")
    && Number(m, "payoutRatioTTM")
  }

  /** The strict TTM metrics class accepts exactly the inputs described by `KeyMetricsTTMInput`. */
  lemma KeyMetricsTTMConforms(m: map<string, Json>)
    ensures RecordConforms(KeyMetricsTTM, m) <==> KeyMetricsTTMInput(m)
  {
    if RecordConforms(KeyMetricsTTM, m) { KeyMetricsTTMConformsOnly(KeyMetricsTTM, m); }
    if KeyMetricsTTMInput(m) { KeyMetricsTTMInputConforms(KeyMetricsTTM, m); }
  }

  lemma KeyMetricsTTMConformsOnly(s: Schema, m: map<string, Json>)
    requires s == KeyMetricsTTM && RecordConforms(s, m)
    ensures KeyMetricsTTMInput(m)
  {
    assert FieldConforms(s[0], m);
    assert FieldConforms(s[1], m);
    assert FieldConforms(s[2], m);
    assert FieldConforms(s[3], m);
    assert FieldConforms(s[4], m);
    assert FieldConforms(s[5], m);
    assert FieldConforms(s[6], m);
    assert FieldConforms(s[7], m);
    assert FieldConforms(s[8], m);
    assert FieldConforms(s[9], m);
    assert FieldConforms(s[10], m);
    assert FieldConforms(s[11], m);
    assert FieldConforms(s[12], m);
  }

  lemma KeyMetricsTTMInputConforms(s: Schema, m: map<string, Json>)
    requires s == KeyMetricsTTM && KeyMetricsTTMInput(m)
    ensures RecordConforms(s, m)
  {
    forall j | 0 <= j < |s| ensures FieldConforms(s[j], m) {
      if j < 6 {
        assert s[j] in s[..6];
      } else {
        assert s[j] in s[6..];
      }
    }
  }

  lemma KeyMetricsTTMAccepts(m: map<string, Json>)
    ensures ValidateRecord(KeyMetricsTTM, m).Ok? <==> KeyMetricsTTMInput(m)
  {
    ValidateRecordCorrect(KeyMetricsTTM, m);
    KeyMetricsTTMConforms(m);
  }

  /** Annual metrics the strict class accepts: `symbol` and `date` strings, six numbers. */
  predicate KeyMetricsInput(m: map<string, Json>)
  {
    && Str(m, "symbol") && Str(m, "date")
    && Number(m, "revenuePerShare") && Number(m, "freeCashFlowPerShare")
    && Number(m, "peRatio") && Number(m, "enterpriseValueOverEBITDA")
    && Number(m, "evToFreeCashFlow") && Number(m, "freeCashFlowYield")
  }

  /** The strict annual metrics class accepts exactly the inputs described by `KeyMetricsInput`. */
  lemma KeyMetricsConforms(m: map<string, Json>)
    ensures RecordConforms(KeyMetrics, m) <==> KeyMetricsInput(m)
  {
    if RecordConforms(KeyMetrics, m) { KeyMetricsConformsOnly(KeyMetrics, m); }
    if KeyMetricsInput(m) { KeyMetricsInputConforms(KeyMetrics, m); }
  }

  lemma KeyMetricsConformsOnly(s: Schema, m: map<string, Json>)
    requires s == KeyMetrics && RecordConforms(s, m)
    ensures KeyMetricsInput(m)
  {
    assert FieldConforms(s[0], m);
    assert FieldConforms(s[1], m);
    assert FieldConforms(s[2], m);
    assert FieldConforms(s[3], m);
    assert FieldConforms(s[4], m);
    assert FieldConforms(s[5], m);
    assert FieldConforms(s[6], m);
    assert FieldConforms(s[7], m);
  }

  lemma KeyMetricsInputConforms(s: Schema, m: map<string, Json>)
    requires s == KeyMetrics && KeyMetricsInput(m)
    ensures RecordConforms(s, m)
  {
    forall j | 0 <= j < |s| ensures FieldConforms(s[j], m) {
      if j < 4 {
        assert s[j] in s[..4];
      } else {
        assert s[j] in s[4..];
      }
    }
  }

  lemma KeyMetricsAccepts(m: map<string, Json>)
    ensures ValidateRecord(KeyMetrics, m).Ok? <==> KeyMetricsInput(m)
  {
    ValidateRecordCorrect(KeyMetrics, m);
    KeyMetricsConforms(m);
  }

  /** Growth figures the strict class accepts: `symbol` and `date` strings, nine numbers. */
  predicate GrowthInput(m: map<string, Json>)
  {
    && Str(m, "symbol") && Str(m, "date")
    && Number(m, "revenueGrowth") && Number(m, "epsdilutedGrowth")
    && Number(m, "dividendsperShareGrowth") && Number(m, "freeCashFlowGrowth")
    && Number(m, "debtGrowth") && Number(m, "fiveYRevenueGrowthPerShare")
    && Number(m, "fiveYNetIncomeGrowthPerShare") && Number(m, "fiveYDividendperShareGrowthPerShare")
    && Number(m, "fiveYOperatingCFGrowthPerShare")
  }

  /** The strict growth class accepts exactly the inputs described by `GrowthInput`. */
  lemma GrowthConforms(m: map<string, Json>)
    ensures RecordConforms(Growth, m) <==> GrowthInput(m)
  {
    if RecordConforms(Growth, m) { GrowthConformsOnly(Growth, m); }
    if GrowthInput(m) { GrowthInputConforms(Growth, m); }
  }

  lemma GrowthConformsOnly(s: Schema, m: map<string, Json>)
    requires s == Growth && RecordConforms(s, m)
    ensures GrowthInput(m)
  {
    assert FieldConforms(s[0], m);
    assert FieldConforms(s[1], m);
    assert FieldConforms(s[2], m);
    assert FieldConforms(s[3], m);
    assert FieldConforms(s[4], m);
    assert FieldConforms(s[5], m);
    assert FieldConforms(s[6], m);
    assert FieldConforms(s[7], m);
    assert FieldConforms(s[8], m);
    assert FieldConforms(s[9], m);
    assert FieldConforms(s[10], m);
  }

  lemma GrowthInputConforms(s: Schema, m: map<string, Json>)
    requires s == Growth && GrowthInput(m)
    ensures RecordConforms(s, m)
  {
    forall j | 0 <= j < |s| ensures FieldConforms(s[j], m) {
      if j < 5 {
        assert s[j] in s[..5];
      } else {
        assert s[j] in s[5..];
      }
    }
  }

  lemma GrowthAccepts(m: map<string, Json>)
    ensures ValidateRecord(Growth, m).Ok? <==> GrowthInput(m)
  {
    ValidateRecordCorrect(Growth, m);
    GrowthConforms(m);
  }

  // ---------------------------------------------------------------------
  // The strict variant refines the lax one

  /** Field by field, the strict quote asks for at least as much as the lax one: same names and keys, fewer nulls, `int` where the lax class takes `int | float`. */
  lemma QuoteRefines()
    ensures SchemaRefines(Quote, Lax.Quote)
  {
    forall j | 0 <= j < |Quote| ensures FieldRefines(Quote[j], Lax.Quote[j]) {
      assert Quote[j] in Quote;
    }
  }

  /** The strict TTM metrics only drop the lax class's nulls. */
  lemma KeyMetricsTTMRefines()
    ensures SchemaRefines(KeyMetricsTTM, Lax.KeyMetricsTTM)
  {
    forall j | 0 <= j < |KeyMetricsTTM| ensures FieldRefines(KeyMetricsTTM[j], Lax.KeyMetricsTTM[j]) {
      assert KeyMetricsTTM[j] in KeyMetricsTTM;
    }
  }

  /** The strict annual metrics only drop the lax class's nulls. */
  lemma KeyMetricsRefines()
    ensures SchemaRefines(KeyMetrics, Lax.KeyMetrics)
  {
    forall j | 0 <= j < |KeyMetrics| ensures FieldRefines(KeyMetrics[j], Lax.KeyMetrics[j]) {
      assert KeyMetrics[j] in KeyMetrics;
    }
  }

  /** The strict growth figures only drop the lax class's nulls. */
  lemma GrowthRefines()
    ensures SchemaRefines(Growth, Lax.Growth)
  {
    forall j | 0 <= j < |Growth| ensures FieldRefines(Growth[j], Lax.Growth[j]) {
      assert Growth[j] in Growth;
    }
  }

  lemma CombinedModelRefines()
    ensures SchemaRefines(CombinedModel, Lax.CombinedModel)
  {
    SchemaRefinesReflexive(CompanyProfile);
    ModelListRefines("profile", CompanyProfile, Lax.CompanyProfile);
    QuoteRefines();
    ModelListRefines("quote", Quote, Lax.Quote);
    SchemaRefinesReflexive(Ratings);
    ModelListRefines("ratings", Ratings, Lax.Ratings);
    KeyMetricsTTMRefines();
    ModelListRefines("key_metrics_ttm", KeyMetricsTTM, Lax.KeyMetricsTTM);
    KeyMetricsRefines();
    ModelListRefines("key_metrics", KeyMetrics, Lax.KeyMetrics);
    GrowthRefines();
    ModelListRefines("growth", Growth, Lax.Growth);
  }

  // ---------------------------------------------------------------------
  // What each strict class dumps

  /** The strict class dumps an accepted quote exactly as the lax one does. */
  lemma QuoteDump(m: map<string, Json>)
    requires ValidateRecord(Quote, m).Ok?
    ensures QuoteInput(m)
    ensures ValidateRecord(Quote, m) == ValidateRecord(Lax.Quote, m)
    ensures ValidateRecord(Quote, m).value == [
      ("symbol", m["symbol"]), ("price", AsFloat(m["price"])),
      ("change_percent", AsFloat(m["changesPercentage"])),
      ("year_high", AsFloat(m["yearHigh"])), ("year_low", AsFloat(m["yearLow"])),
      ("market_cap", AsFloat(m["marketCap"])), ("vol_avg", m["avgVolume"]),
      ("eps", AsFloat(m["eps"])), ("pe", AsFloat(m["pe"])),
      ("earning_date", m["earningsAnnouncement"]), ("shares_outstanding", m["sharesOutstanding"])]
  {
    QuoteAccepts(m);
    QuoteRefines();
    ValidateRefines(Quote, Lax.Quote, m);
    Lax.QuoteDump(m);
  }

  /** The strict class dumps accepted TTM metrics exactly as the lax one does. */
  lemma KeyMetricsTTMDump(m: map<string, Json>)
    requires ValidateRecord(KeyMetricsTTM, m).Ok?
    ensures KeyMetricsTTMInput(m)
    ensures ValidateRecord(KeyMetricsTTM, m) == ValidateRecord(Lax.KeyMetricsTTM, m)
    ensures ValidateRecord(KeyMetricsTTM, m).value == [
      ("rev_per_share_ttm", AsFloat(m["revenuePerShareTTM"])),
      ("net_income_per_share_ttm", AsFloat(m["netIncomePerShareTTM"])),
      ("fcf_per_share_ttm", AsFloat(m["freeCashFlowPerShareTTM"])),
      ("pe_ratio_ttm", AsFloat(m["peRatioTTM"])),
      ("ev_over_ebitda_ttm", AsFloat(m["enterpriseValueOverEBITDATTM"])),
      ("ev_to_fcf_ttm", AsFloat(m["evToFreeCashFlowTTM"])),
      ("fcf_yield_ttm", AsFloat(m["freeCashFlowYieldTTM"])),
      ("pts_ratio_ttm", AsFloat(m["priceToSalesRatioTTM"])),
      ("ptb_ratio_ttm", AsFloat(m["ptbRatioTTM"])),
      ("pfcf_ratio_ttm", AsFloat(m["pfcfRatioTTM"])),
      ("dvd_yield_pct_ttm", AsFloat(m["dividendYieldPercentageTTM"])),
      ("dvd_per_share_ttm", AsFloat(m["dividendPerShareTTM"])),
      ("payout_ratio_ttm", AsFloat(m["payoutRatioTTM"]))]
  {
    KeyMetricsTTMAccepts(m);
    KeyMetricsTTMRefines();
    ValidateRefines(KeyMetricsTTM, Lax.KeyMetricsTTM, m);
    Lax.KeyMetricsTTMDump(m);
  }

  /** The strict class dumps accepted annual metrics exactly as the lax one does. */
  lemma KeyMetricsDump(m: map<string, Json>)
    requires ValidateRecord(KeyMetrics, m).Ok?
    ensures KeyMetricsInput(m)
    ensures ValidateRecord(KeyMetrics, m) == ValidateRecord(Lax.KeyMetrics, m)
    ensures ValidateRecord(KeyMetrics, m).value == [
      ("symbol", m["symbol"]), ("date", m["date"]),
      ("rev_per_share", AsFloat(m["revenuePerShare"])),
      ("fcf_per_share", AsFloat(m["freeCashFlowPerShare"])),
      ("pe_ratio", AsFloat(m["peRatio"])),
      ("ev_over_ebitda", AsFloat(m["enterpriseValueOverEBITDA"])),
      ("ev_to_fcf", AsFloat(m["evToFreeCashFlow"])),
      ("fcf_yield", AsFloat(m["freeCashFlowYield"]))]
  {
    KeyMetricsAccepts(m);
    KeyMetricsRefines();
    ValidateRefines(KeyMetrics, Lax.KeyMetrics, m);
    Lax.KeyMetricsDump(m);
  }

  /** The strict class dumps accepted growth figures exactly as the lax one does. */
  lemma GrowthDump(m: map<string, Json>)
    requires ValidateRecord(Growth, m).Ok?
    ensures GrowthInput(m)
    ensures ValidateRecord(Growth, m) == ValidateRecord(Lax.Growth, m)
    ensures ValidateRecord(Growth, m).value == [
      ("symbol", m["symbol"]), ("date", m["date"]),
      ("rev_growth", AsFloat(m["revenueGrowth"])),
      ("eps_growth", AsFloat(m["epsdilutedGrowth"])),
      ("dps_growth", AsFloat(m["dividendsperShareGrowth"])),
      ("fcf_growth", AsFloat(m["freeCashFlowGrowth"])),
      ("debt_growth", AsFloat(m["debtGrowth"])),
      ("fiveY_rev_growth_per_share", AsFloat(m["fiveYRevenueGrowthPerShare"])),
      ("fiveY_ni_growth_per_share", AsFloat(m["fiveYNetIncomeGrowthPerShare"])),
      ("fiveY_dps_growth_per_share", AsFloat(m["fiveYDividendperShareGrowthPerShare"])),
      ("fiveY_opcf_growth_per_share", AsFloat(m["fiveYOperatingCFGrowthPerShare"]))]
  {
    GrowthAccepts(m);
    GrowthRefines();
    ValidateRefines(Growth, Lax.Growth, m);
    Lax.GrowthDump(m);
  }

  /** Whatever the strict application accepts, the lax one accepts too, and
      both produce the same dump. */
  lemma StrictAcceptedByLax(m: map<string, Json>)
    requires ValidateRecord(CombinedModel, m).Ok?
    ensures ValidateRecord(Lax.CombinedModel, m) == ValidateRecord(CombinedModel, m)
  {
    CombinedModelRefines();
    ValidateRefines(CombinedModel, Lax.CombinedModel, m);
  }

  /** A quote whose `eps` is null, as the provider sends for loss-making
      companies, passes the lax class and fails the strict one. */
  lemma NullEpsSplitsVariants(m: map<string, Json>)
    requires Lax.QuoteInput(m) && m["eps"] == JNull
    ensures ValidateRecord(Lax.Quote, m).Ok?
    ensures ValidateRecord(Quote, m).Err?
  {
    Lax.QuoteAccepts(m);
    QuoteAccepts(m);
  }

  /** A float `avgVolume` with a fractional part passes the lax class's
      `int | float` and fails the strict `int`. */
  lemma FloatVolumeSplitsVariants(m: map<string, Json>)
    requires Lax.QuoteInput(m) && m["avgVolume"].JFloat?
    requires m["avgVolume"].f != m["avgVolume"].f.Floor as real
    ensures ValidateRecord(Lax.Quote, m).Ok?
    ensures ValidateRecord(Quote, m).Err?
  {
    Lax.QuoteAccepts(m);
    QuoteAccepts(m);
  }
}
