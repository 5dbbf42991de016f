/** The record classes of src/stock_models.py as field tables: the "lax"
    variant, where most numeric provider fields may be null. */
module StockModels {
  import opened Json
  import opened Validation

  const CompanyProfile: Schema := [
    Required("symbol", TStr),
    Required("beta", TFloat),
    Required("range", TStr),
    Aliased("company_name", "companyName", TStr),
    Defaulted("sector", TStr),
    Defaulted("industry", TStr),
    Defaulted("description", TStr),
    Defaulted("image", TStr)
  ]

  const Quote: Schema := [
    Required("symbol", TStr),
    Required("price", TFloat),
    NullableAliased("change_percent", "changesPercentage", TFloat),
    Aliased("year_high", "yearHigh", TFloat),
    Aliased("year_low", "yearLow", TFloat),
    Aliased("market_cap", "marketCap", TFloat),
    NullableAliased("vol_avg", "avgVolume", TNumber),
    Nullable("eps", TFloat),
    Nullable("pe", TFloat),
    Aliased("earning_date", "earningsAnnouncement", TStr),
    Aliased("shares_outstanding", "sharesOutstanding", TInt)
  ]

  const Ratings: Schema := [
    Required("symbol", TStr),
    Required("date", TStr),
    Required("rating", TStr),
    Aliased("score", "ratingScore", TInt),
    Aliased("recommendation", "ratingRecommendation", TStr),
    Aliased("dcf_score", "ratingDetailsDCFScore", TInt),
    Aliased("dcf_rec", "ratingDetailsDCFRecommendation", TStr),
    Aliased("roe_score", "ratingDetailsROEScore", TInt),
    Aliased("roe_rec", "ratingDetailsROERecommendation", TStr),
    Aliased("roa_score", "ratingDetailsROAScore", TInt),
    Aliased("roa_rec", "ratingDetailsROARecommendation", TStr),
    Aliased("de_score", "ratingDetailsDEScore", TInt),
    Aliased("de_rec", "ratingDetailsDERecommendation", TStr),
    Aliased("pe_score", "ratingDetailsPEScore", TInt),
    Aliased("pe_rec", "ratingDetailsPERecommendation", TStr),
    Aliased("pb_score", "ratingDetailsPBScore", TInt),
    Aliased("pb_rec", "ratingDetailsPBRecommendation", TStr)
  ]

  const KeyMetricsTTM: Schema := [
    NullableAliased("rev_per_share_ttm", "revenuePerShareTTM", TFloat),
    NullableAliased("net_income_per_share_ttm", "netIncomePerShareTTM", TFloat),
    NullableAliased("fcf_per_share_ttm", "freeCashFlowPerShareTTM", TFloat),
    NullableAliased("pe_ratio_ttm", "peRatioTTM", TFloat),
    NullableAliased("ev_over_ebitda_ttm", "enterpriseValueOverEBITDATTM", TFloat),
    NullableAliased("ev_to_fcf_ttm", "evToFreeCashFlowTTM", TFloat),
    NullableAliased("fcf_yield_ttm", "freeCashFlowYieldTTM", TFloat),
    NullableAliased("pts_ratio_ttm", "priceToSalesRatioTTM", TFloat),
    NullableAliased("ptb_ratio_ttm", "ptbRatioTTM", TFloat),
    NullableAliased("pfcf_ratio_ttm", "pfcfRatioTTM", TFloat),
    NullableAliased("dvd_yield_pct_ttm", "dividendYieldPercentageTTM", TFloat),
    NullableAliased("dvd_per_share_ttm", "dividendPerShareTTM", TFloat),
    NullableAliased("payout_ratio_ttm", "payoutRatioTTM", TFloat)
  ]

  const KeyMetrics: Schema := [
    Required("symbol", TStr),
    Required("date", TStr),
    NullableAliased("rev_per_share", "revenuePerShare", TFloat),
    NullableAliased("fcf_per_share", "freeCashFlowPerShare", TFloat),
    NullableAliased("pe_ratio", "peRatio", TFloat),
    NullableAliased("ev_over_ebitda", "enterpriseValueOverEBITDA", TFloat),
    NullableAliased("ev_to_fcf", "evToFreeCashFlow", TFloat),
    NullableAliased("fcf_yield", "freeCashFlowYield", TFloat)
  ]

  const Growth: Schema := [
    Required("symbol", TStr),
    Required("date", TStr),
    NullableAliased("rev_growth", "revenueGrowth", TFloat),
    NullableAliased("eps_growth", "epsdilutedGrowth", TFloat),
    NullableAliased("dps_growth", "dividendsperShareGrowth", TFloat),
    NullableAliased("fcf_growth", "freeCashFlowGrowth", TFloat),
    NullableAliased("debt_growth", "debtGrowth", TFloat),
    NullableAliased("fiveY_rev_growth_per_share", "fiveYRevenueGrowthPerShare", TFloat),
    NullableAliased("fiveY_ni_growth_per_share", "fiveYNetIncomeGrowthPerShare", TFloat),
    NullableAliased("fiveY_dps_growth_per_share", "fiveYDividendperShareGrowthPerShare", TFloat),
    NullableAliased("fiveY_opcf_growth_per_share", "fiveYOperatingCFGrowthPerShare", TFloat)
  ]

  /** One list of records per provider resource. */
  const CombinedModel: Schema := [
    Required("profile", TList(TModel(CompanyProfile))),
    Required("quote", TList(TModel(Quote))),
    Required("ratings", TList(TModel(Ratings))),
    Required("key_metrics_ttm", TList(TModel(KeyMetricsTTM))),
    Required("key_metrics", TList(TModel(KeyMetrics))),
    Required("growth", TList(TModel(Growth)))
  ]

  // ---------------------------------------------------------------------
  // What each class accepts, and what it dumps

  /** A provider profile the class accepts: `symbol`, `beta`, `range` and `companyName` present and not null, the other four keys missing, null or strings. */
  predicate ProfileInput(m: map<string, Json>)
  {
    && Str(m, "symbol") && Number(m, "beta") && Str(m, "range") && Str(m, "companyName")
    && OptionalStr(m, "sector") && OptionalStr(m, "industry")
    && OptionalStr(m, "description") && OptionalStr(m, "image")
  }

  /** The profile class accepts exactly the inputs described by `ProfileInput`. */
  lemma CompanyProfileConforms(m: map<string, Json>)
    ensures RecordConforms(CompanyProfile, m) <==> ProfileInput(m)
  {
    if RecordConforms(CompanyProfile, m) { CompanyProfileConformsOnly(CompanyProfile, m); }
    if ProfileInput(m) { CompanyProfileInputConforms(CompanyProfile, m); }
  }

  lemma CompanyProfileConformsOnly(s: Schema, m: map<string, Json>)
    requires s == CompanyProfile && RecordConforms(s, m)
    ensures ProfileInput(m)
  {
    assert FieldConforms(s[0], m);
    assert FieldConforms(s[1], m);
    assert FieldConforms(s[2], m);
    assert FieldConforms(s[3], m);
    assert FieldConforms(s[4], m);
    assert FieldConforms(s[5], m);
    assert FieldConforms(s[6], m);
    assert FieldConforms(s[7], m);
  }

  lemma CompanyProfileInputConforms(s: Schema, m: map<string, Json>)
    requires s == CompanyProfile && ProfileInput(m)
    ensures RecordConforms(s, m)
  {
    forall j | 0 <= j < |s| ensures FieldConforms(s[j], m) {
      if j < 4 {
        assert s[j] in s[..4];
      } else {
        assert s[j] in s[4..];
      }
    }
  }

  lemma CompanyProfileAccepts(m: map<string, Json>)
    ensures ValidateRecord(CompanyProfile, m).Ok? <==> ProfileInput(m)
  {
    ValidateRecordCorrect(CompanyProfile, m);
    CompanyProfileConforms(m);
  }

  /** What an accepted `CompanyProfile` input dumps to, field by field. */
  lemma CompanyProfileValue(m: map<string, Json>)
    requires ProfileInput(m)
    ensures RecordValue(CompanyProfile, m) == [
      ("symbol", m["symbol"]), ("beta", AsFloat(m["beta"])), ("range", m["range"]),
      ("company_name", m["companyName"]),
      ("sector", Lookup(m, "sector")), ("industry", Lookup(m, "industry")),
      ("description", Lookup(m, "description")), ("image", Lookup(m, "image"))]
  {
  }

  /** `companyName` comes out as `company_name`, an integer `beta` as a float, and a missing optional key as `None`. */
  lemma CompanyProfileDump(m: map<string, Json>)
    requires ValidateRecord(CompanyProfile, m).Ok?
    ensures ProfileInput(m)
    ensures ValidateRecord(CompanyProfile, m).value == [
      ("symbol", m["symbol"]), ("beta", AsFloat(m["beta"])), ("range", m["range"]),
      ("company_name", m["companyName"]),
      ("sector", Lookup(m, "sector")), ("industry", Lookup(m, "industry")),
      ("description", Lookup(m, "description")), ("image", Lookup(m, "image"))]
  {
    CompanyProfileAccepts(m);
    ValidateRecordCorrect(CompanyProfile, m);
    CompanyProfileValue(m);
  }

  /** A provider quote the class accepts: `changesPercentage`, `avgVolume`, `eps` and `pe` present but possibly null, every other key present and not null. */
  predicate QuoteInput(m: map<string, Json>)
  {
    && Str(m, "symbol") && Number(m, "price") && NumberOrNull(m, "changesPercentage")
    && Number(m, "yearHigh") && Number(m, "yearLow") && Number(m, "marketCap")
    && NumberOrNull(m, "avgVolume") && NumberOrNull(m, "eps") && NumberOrNull(m, "pe")
    && Str(m, "earningsAnnouncement") && Int(m, "sharesOutstanding")
  }

  /** The quote class accepts exactly the inputs described by `QuoteInput`. */
  lemma QuoteConforms(m: map<string, Json>)
    ensures RecordConforms(Quote, m) <==> QuoteInput(m)
  {
    if RecordConforms(Quote, m) { QuoteConformsOnly(Quote, m); }
    if QuoteInput(m) { QuoteInputConforms(Quote, m); }
  }

  lemma QuoteConformsOnly(s: Schema, m: map<string, Json>)
    requires s == Quote && RecordConforms(s, m)
    ensures QuoteInput(m)
  {
    assert FieldConforms(s[0], m);
    assert FieldConforms(s[1], m);
    assert FieldConforms(s[2], m);
    assert FieldConforms(s[3], m);
    assert FieldConforms(s[4], m);
    assert FieldConforms(s[5], m);
    assert FieldConforms(s[6], m);
    assert FieldConforms(s[7], m);
    assert FieldConforms(s[8], m);
    assert FieldConforms(s[9], m);
    assert FieldConforms(s[10], m);
  }

  lemma QuoteInputConforms(s: Schema, m: map<string, Json>)
    requires s == Quote && QuoteInput(m)
    ensures RecordConforms(s, m)
  {
    forall j | 0 <= j < |s| ensures FieldConforms(s[j], m) {
      if j < 5 {
        assert s[j] in s[..5];
      } else {
        assert s[j] in s[5..];
      }
    }
  }

  lemma QuoteAccepts(m: map<string, Json>)
    ensures ValidateRecord(Quote, m).Ok? <==> QuoteInput(m)
  {
    ValidateRecordCorrect(Quote, m);
    QuoteConforms(m);
  }

  /** What an accepted `Quote` input dumps to, field by field. */
  lemma QuoteValue(m: map<string, Json>)
    requires QuoteInput(m)
    ensures RecordValue(Quote, m) == [
      ("symbol", m["symbol"]), ("price", AsFloat(m["price"])),
      ("change_percent", AsFloat(m["changesPercentage"])),
      ("year_high", AsFloat(m["yearHigh"])), ("year_low", AsFloat(m["yearLow"])),
      ("market_cap", AsFloat(m["marketCap"])), ("vol_avg", m["avgVolume"]),
      ("eps", AsFloat(m["eps"])), ("pe", AsFloat(m["pe"])),
      ("earning_date", m["earningsAnnouncement"]), ("shares_outstanding", m["sharesOutstanding"])]
  {
  }

  /** Every aliased key comes out under its field name; `float` fields turn integers into floats while `vol_avg` (`int | float`) keeps them; a null stays `None`. */
  lemma QuoteDump(m: map<string, Json>)
    requires ValidateRecord(Quote, m).Ok?
    ensures QuoteInput(m)
    ensures ValidateRecord(Quote, m).value == [
      ("symbol", m["symbol"]), ("price", AsFloat(m["price"])),
      ("change_percent", AsFloat(m["changesPercentage"])),
      ("year_high", AsFloat(m["yearHigh"])), ("year_low", AsFloat(m["yearLow"])),
      ("market_cap", AsFloat(m["marketCap"])), ("vol_avg", m["avgVolume"]),
      ("eps", AsFloat(m["eps"])), ("pe", AsFloat(m["pe"])),
      ("earning_date", m["earningsAnnouncement"]), ("shares_outstanding", m["sharesOutstanding"])]
  {
    QuoteAccepts(m);
    ValidateRecordCorrect(Quote, m);
    QuoteValue(m);
  }

  /** The two kinds of "optional": a profile without `sector` is accepted and
      dumps `sector` as `None`, while a quote without `changesPercentage` is
      rejected. */
  lemma OptionalKindsDiffer(profile: map<string, Json>, quote: map<string, Json>)
    requires Str(profile, "symbol") && Number(profile, "beta") && Str(profile, "range") && Str(profile, "companyName")
    requires "sector" !in profile && "industry" !in profile && "description" !in profile && "image" !in profile
    requires "changesPercentage" !in quote
    ensures ValidateRecord(CompanyProfile, profile).Ok?
    ensures ValidateRecord(CompanyProfile, profile).value[4] == ("sector", JNull)
    ensures ValidateRecord(Quote, quote).Err?
  {
    CompanyProfileAccepts(profile);
    CompanyProfileDump(profile);
    QuoteAccepts(quote);
  }

  /** A provider rating the class accepts: all seventeen keys present and not null, the scores integers and everything else strings. */
  predicate RatingsInput(m: map<string, Json>)
  {
    && Str(m, "symbol") && Str(m, "date") && Str(m, "rating")
    && Int(m, "ratingScore") && Str(m, "ratingRecommendation")
    && Int(m, "ratingDetailsDCFScore") && Str(m, "ratingDetailsDCFRecommendation")
    && Int(m, "ratingDetailsROEScore") && Str(m, "ratingDetailsROERecommendation")
    && Int(m, "ratingDetailsROAScore") && Str(m, "ratingDetailsROARecommendation")
    && Int(m, "ratingDetailsDEScore") && Str(m, "ratingDetailsDERecommendation")
    && Int(m, "ratingDetailsPEScore") && Str(m, "ratingDetailsPERecommendation")
    && Int(m, "ratingDetailsPBScore") && Str(m, "ratingDetailsPBRecommendation")
  }

  /** The ratings class accepts exactly the inputs described by `RatingsInput`. */
  lemma RatingsConforms(m: map<string, Json>)
    ensures RecordConforms(Ratings, m) <==> RatingsInput(m)
  {
    if RecordConforms(Ratings, m) { RatingsConformsOnly(Ratings, m); }
    if RatingsInput(m) { RatingsInputConforms(Ratings, m); }
  }

  lemma RatingsConformsOnly(s: Schema, m: map<string, Json>)
    requires s == Ratings && RecordConforms(s, m)
    ensures RatingsInput(m)
  {
    assert FieldConforms(s[0], m);
    assert FieldConforms(s[1], m);
    assert FieldConforms(s[2], m);
    assert FieldConforms(s[3], m);
    assert FieldConforms(s[4], m);
    assert FieldConforms(s[5], m);
    assert FieldConforms(s[6], m);
    assert FieldConforms(s[7], m);
    assert FieldConforms(s[8], m);
    assert FieldConforms(s[9], m);
    assert FieldConforms(s[10], m);
    assert FieldConforms(s[11], m);
    assert FieldConforms(s[12], m);
    assert FieldConforms(s[13], m);
    assert FieldConforms(s[14], m);
    assert FieldConforms(s[15], m);
    assert FieldConforms(s[16], m);
  }

  lemma RatingsInputConforms(s: Schema, m: map<string, Json>)
    requires s == Ratings && RatingsInput(m)
    ensures RecordConforms(s, m)
  {
    forall j | 0 <= j < |s| ensures FieldConforms(s[j], m) {
      if j < 9 {
        assert s[j] in s[..9];
      } else {
        assert s[j] in s[9..];
      }
    }
  }

  lemma RatingsAccepts(m: map<string, Json>)
    ensures ValidateRecord(Ratings, m).Ok? <==> RatingsInput(m)
  {
    ValidateRecordCorrect(Ratings, m);
    RatingsConforms(m);
  }

  /** What an accepted `Ratings` input dumps to, field by field. */
  lemma RatingsValue(m: map<string, Json>)
    requires RatingsInput(m)
    ensures RecordValue(Ratings, m) == [
      ("symbol", m["symbol"]), ("date", m["date"]), ("rating", m["rating"]),
      ("score", m["ratingScore"]), ("recommendation", m["ratingRecommendation"]),
      ("dcf_score", m["ratingDetailsDCFScore"]), ("dcf_rec", m["ratingDetailsDCFRecommendation"]),
      ("roe_score", m["ratingDetailsROEScore"]), ("roe_rec", m["ratingDetailsROERecommendation"]),
      ("roa_score", m["ratingDetailsROAScore"]), ("roa_rec", m["ratingDetailsROARecommendation"]),
      ("de_score", m["ratingDetailsDEScore"]), ("de_rec", m["ratingDetailsDERecommendation"]),
      ("pe_score", m["ratingDetailsPEScore"]), ("pe_rec", m["ratingDetailsPERecommendation"]),
      ("pb_score", m["ratingDetailsPBScore"]), ("pb_rec", m["ratingDetailsPBRecommendation"])]
  {
  }

  /** The provider's `rating...` keys come out under the short field names, values unchanged. */
  lemma RatingsDump(m: map<string, Json>)
    requires ValidateRecord(Ratings, m).Ok?
    ensures RatingsInput(m)
    ensures ValidateRecord(Ratings, m).value == [
      ("symbol", m["symbol"]), ("date", m["date"]), ("rating", m["rating"]),
      ("score", m["ratingScore"]), ("recommendation", m["ratingRecommendation"]),
      ("dcf_score", m["ratingDetailsDCFScore"]), ("dcf_rec", m["ratingDetailsDCFRecommendation"]),
      ("roe_score", m["ratingDetailsROEScore"]), ("roe_rec", m["ratingDetailsROERecommendation"]),
      ("roa_score", m["ratingDetailsROAScore"]), ("roa_rec", m["ratingDetailsROARecommendation"]),
      ("de_score", m["ratingDetailsDEScore"]), ("de_rec", m["ratingDetailsDERecommendation"]),
      ("pe_score", m["ratingDetailsPEScore"]), ("pe_rec", m["ratingDetailsPERecommendation"]),
      ("pb_score", m["ratingDetailsPBScore"]), ("pb_rec", m["ratingDetailsPBRecommendation"])]
  {
    RatingsAccepts(m);
    ValidateRecordCorrect(Ratings, m);
    RatingsValue(m);
  }

  /** Trailing-twelve-month metrics the class accepts: thirteen keys, each present and each a number or null. */
  predicate KeyMetricsTTMInput(m: map<string, Json>)
  {
    && NumberOrNull(m, "revenuePerShareTTM") && NumberOrNull(m, "netIncomePerShareTTM")
    && NumberOrNull(m, "freeCashFlowPerShareTTM") && NumberOrNull(m, "peRatioTTM")
    && NumberOrNull(m, "enterpriseValueOverEBITDATTM") && NumberOrNull(m, "evToFreeCashFlowTTM")
    && NumberOrNull(m, "freeCashFlowYieldTTM") && NumberOrNull(m, "priceToSalesRatioTTM")
    && NumberOrNull(m, "ptbRatioTTM") && NumberOrNull(m, "pfcfRatioTTM")
    && NumberOrNull(m, "dividendYieldPercentageTTM") && NumberOrNull(m, "dividendPerShareTTM")
    && NumberOrNull(m, "payoutRatioTTM")
  }

  /** The TTM metrics class accepts exactly the inputs described by `KeyMetricsTTMInput`; it has no `symbol` and no `date` field. */
  lemma KeyMetricsTTMConforms(m: map<string, Json>)
    ensures RecordConforms(KeyMetricsTTM, m) <==> KeyMetricsTTMInput(m)
  {
    if RecordConforms(KeyMetricsTTM, m) { KeyMetricsTTMConformsOnly(KeyMetricsTTM, m); }
    if KeyMetricsTTMInput(m) { KeyMetricsTTMInputConforms(KeyMetricsTTM, m); }
  }

  lemma KeyMetricsTTMConformsOnly(s: Schema, m: map<string, Json>)
    requires s == KeyMetricsTTM && RecordConforms(s, m)
    ensures KeyMetricsTTMInput(m)
  {
    assert FieldConforms(s[0], m);
    assert FieldConforms(s[1], m);
    assert FieldConforms(s[2], m);
    assert FieldConforms(s[3], m);
    assert FieldConforms(s[4], m);
    assert FieldConforms(s[5], m);
    assert FieldConforms(s[6], m);
    assert FieldConforms(s[7], m);
    assert FieldConforms(s[8], m);
    assert FieldConforms(s[9], m);
    assert FieldConforms(s[10], m);
    assert FieldConforms(s[11], m);
    assert FieldConforms(s[12], m);
  }

  lemma KeyMetricsTTMInputConforms(s: Schema, m: map<string, Json>)
    requires s == KeyMetricsTTM && KeyMetricsTTMInput(m)
    ensures RecordConforms(s, m)
  {
    forall j | 0 <= j < |s| ensures FieldConforms(s[j], m) {
      if j < 6 {
        assert s[j] in s[..6];
      } else {
        assert s[j] in s[6..];
      }
    }
  }

  /** Unlike the other metric classes, the trailing-twelve-month one carries
      neither the ticker nor a date. */
  lemma KeyMetricsTTMHasNoSymbolOrDate()
    ensures "symbol" !in Names(KeyMetricsTTM) && "date" !in Names(KeyMetricsTTM)
  {
    forall j | 0 <= j < |KeyMetricsTTM| ensures KeyMetricsTTM[j].name != "symbol" && KeyMetricsTTM[j].name != "date" {
      assert KeyMetricsTTM[j] in KeyMetricsTTM;
    }
  }

  lemma KeyMetricsTTMAccepts(m: map<string, Json>)
    ensures ValidateRecord(KeyMetricsTTM, m).Ok? <==> KeyMetricsTTMInput(m)
  {
    ValidateRecordCorrect(KeyMetricsTTM, m);
    KeyMetricsTTMConforms(m);
  }

  /** The reference dump of accepted TTM metrics. */
  lemma KeyMetricsTTMValue(m: map<string, Json>)
    requires KeyMetricsTTMInput(m)
    ensures RecordValue(KeyMetricsTTM, m) == [
      ("rev_per_share_ttm", AsFloat(m["revenuePerShareTTM"])),
      ("net_income_per_share_ttm", AsFloat(m["netIncomePerShareTTM"])),
      ("fcf_per_share_ttm", AsFloat(m["freeCashFlowPerShareTTM"])),
      ("pe_ratio_ttm", AsFloat(m["peRatioTTM"])),
      ("ev_over_ebitda_ttm", AsFloat(m["enterpriseValueOverEBITDATTM"])),
      ("ev_to_fcf_ttm", AsFloat(m["evToFreeCashFlowTTM"])),
      ("fcf_yield_ttm", AsFloat(m["freeCashFlowYieldTTM"])),
      ("pts_ratio_ttm", AsFloat(m["priceToSalesRatioTTM"])),
      ("ptb_ratio_ttm", AsFloat(m["ptbRatioTTM"])),
      ("pfcf_ratio_ttm", AsFloat(m["pfcfRatioTTM"])),
      ("dvd_yield_pct_ttm", AsFloat(m["dividendYieldPercentageTTM"])),
      ("dvd_per_share_ttm", AsFloat(m["dividendPerShareTTM"])),
      ("payout_ratio_ttm", AsFloat(m["payoutRatioTTM"]))]
  {
    KeyMetricsTTMValueOf(KeyMetricsTTM, m);
  }

  lemma KeyMetricsTTMValueOf(s: Schema, m: map<string, Json>)
    requires s == KeyMetricsTTM && KeyMetricsTTMInput(m)
    ensures RecordValue(s, m) == [
      ("rev_per_share_ttm", AsFloat(m["revenuePerShareTTM"])),
      ("net_income_per_share_ttm", AsFloat(m["netIncomePerShareTTM"])),
      ("fcf_per_share_ttm", AsFloat(m["freeCashFlowPerShareTTM"])),
      ("pe_ratio_ttm", AsFloat(m["peRatioTTM"])),
      ("ev_over_ebitda_ttm", AsFloat(m["enterpriseValueOverEBITDATTM"])),
      ("ev_to_fcf_ttm", AsFloat(m["evToFreeCashFlowTTM"])),
      ("fcf_yield_ttm", AsFloat(m["freeCashFlowYieldTTM"])),
      ("pts_ratio_ttm", AsFloat(m["priceToSalesRatioTTM"])),
      ("ptb_ratio_ttm", AsFloat(m["ptbRatioTTM"])),
      ("pfcf_ratio_ttm", AsFloat(m["pfcfRatioTTM"])),
      ("dvd_yield_pct_ttm", AsFloat(m["dividendYieldPercentageTTM"])),
      ("dvd_per_share_ttm", AsFloat(m["dividendPerShareTTM"])),
      ("payout_ratio_ttm", AsFloat(m["payoutRatioTTM"]))]
  {
    forall j | 0 <= j < |s| ensures s[j].ty == TFloat && s[j].rawKey in m {
      if j < 7 {
        assert s[j] in s[..7];
      } else {
        assert s[j] in s[7..];
      }
    }
    FloatRecordValue(s, m);
  }

  /** The dump of accepted TTM metrics: every figure under its field name, an integer as a float, a null as `None`. */
  lemma KeyMetricsTTMDump(m: map<string, Json>)
    requires ValidateRecord(KeyMetricsTTM, m).Ok?
    ensures KeyMetricsTTMInput(m)
    ensures ValidateRecord(KeyMetricsTTM, m).value == [
      ("rev_per_share_ttm", AsFloat(m["revenuePerShareTTM"])),
      ("net_income_per_share_ttm", AsFloat(m["netIncomePerShareTTM"])),
      ("fcf_per_share_ttm", AsFloat(m["freeCashFlowPerShareTTM"])),
      ("pe_ratio_ttm", AsFloat(m["peRatioTTM"])),
      ("ev_over_ebitda_ttm", AsFloat(m["enterpriseValueOverEBITDATTM"])),
      ("ev_to_fcf_ttm", AsFloat(m["evToFreeCashFlowTTM"])),
      ("fcf_yield_ttm", AsFloat(m["freeCashFlowYieldTTM"])),
      ("pts_ratio_ttm", AsFloat(m["priceToSalesRatioTTM"])),
      ("ptb_ratio_ttm", AsFloat(m["ptbRatioTTM"])),
      ("pfcf_ratio_ttm", AsFloat(m["pfcfRatioTTM"])),
      ("dvd_yield_pct_ttm", AsFloat(m["dividendYieldPercentageTTM"])),
      ("dvd_per_share_ttm", AsFloat(m["dividendPerShareTTM"])),
      ("payout_ratio_ttm", AsFloat(m["payoutRatioTTM"]))]
  {
    KeyMetricsTTMAccepts(m);
    ValidateRecordCorrect(KeyMetricsTTM, m);
    KeyMetricsTTMValue(m);
  }

  /** Annual metrics the class accepts: `symbol` and `date` strings, six more keys each present and each a number or null. */
  predicate KeyMetricsInput(m: map<string, Json>)
  {
    && Str(m, "symbol") && Str(m, "date")
    && NumberOrNull(m, "revenuePerShare") && NumberOrNull(m, "freeCashFlowPerShare")
    && NumberOrNull(m, "peRatio") && NumberOrNull(m, "enterpriseValueOverEBITDA")
    && NumberOrNull(m, "evToFreeCashFlow") && NumberOrNull(m, "freeCashFlowYield")
  }

  /** The annual metrics class accepts exactly the inputs described by `KeyMetricsInput`. */
  lemma KeyMetricsConforms(m: map<string, Json>)
    ensures RecordConforms(KeyMetrics, m) <==> KeyMetricsInput(m)
  {
    if RecordConforms(KeyMetrics, m) { KeyMetricsConformsOnly(KeyMetrics, m); }
    if KeyMetricsInput(m) { KeyMetricsInputConforms(KeyMetrics, m); }
  }

  lemma KeyMetricsConformsOnly(s: Schema, m: map<string, Json>)
    requires s == KeyMetrics && RecordConforms(s, m)
    ensures KeyMetricsInput(m)
  {
    assert FieldConforms(s[0], m);
    assert FieldConforms(s[1], m);
    assert FieldConforms(s[2], m);
    assert FieldConforms(s[3], m);
    assert FieldConforms(s[4], m);
    assert FieldConforms(s[5], m);
    assert FieldConforms(s[6], m);
    assert FieldConforms(s[7], m);
  }

  lemma KeyMetricsInputConforms(s: Schema, m: map<string, Json>)
    requires s == KeyMetrics && KeyMetricsInput(m)
    ensures RecordConforms(s, m)
  {
    forall j | 0 <= j < |s| ensures FieldConforms(s[j], m) {
      if j < 4 {
        assert s[j] in s[..4];
      } else {
        assert s[j] in s[4..];
      }
    }
  }

  lemma KeyMetricsAccepts(m: map<string, Json>)
    ensures ValidateRecord(KeyMetrics, m).Ok? <==> KeyMetricsInput(m)
  {
    ValidateRecordCorrect(KeyMetrics, m);
    KeyMetricsConforms(m);
  }

  /** The reference dump of accepted annual metrics. */
  lemma KeyMetricsValue(m: map<string, Json>)
    requires KeyMetricsInput(m)
    ensures RecordValue(KeyMetrics, m) == [
      ("symbol", m["symbol"]), ("date", m["date"]),
      ("rev_per_share", AsFloat(m["revenuePerShare"])),
      ("fcf_per_share", AsFloat(m["freeCashFlowPerShare"])),
      ("pe_ratio", AsFloat(m["peRatio"])),
      ("ev_over_ebitda", AsFloat(m["enterpriseValueOverEBITDA"])),
      ("ev_to_fcf", AsFloat(m["evToFreeCashFlow"])),
      ("fcf_yield", AsFloat(m["freeCashFlowYield"]))]
  {
    KeyMetricsValueOf(KeyMetrics, m);
  }

  lemma KeyMetricsValueOf(s: Schema, m: map<string, Json>)
    requires s == KeyMetrics && KeyMetricsInput(m)
    ensures RecordValue(s, m) == [
      ("symbol", m["symbol"]), ("date", m["date"]),
      ("rev_per_share", AsFloat(m["revenuePerShare"])),
      ("fcf_per_share", AsFloat(m["freeCashFlowPerShare"])),
      ("pe_ratio", AsFloat(m["peRatio"])),
      ("ev_over_ebitda", AsFloat(m["enterpriseValueOverEBITDA"])),
      ("ev_to_fcf", AsFloat(m["evToFreeCashFlow"])),
      ("fcf_yield", AsFloat(m["freeCashFlowYield"]))]
  {
    assert FieldValue(s[0], m) == ("symbol", m["symbol"]);
    assert FieldValue(s[1], m) == ("date", m["date"]);
    FloatFieldValue(s[2], m);
    FloatFieldValue(s[3], m);
    FloatFieldValue(s[4], m);
    FloatFieldValue(s[5], m);
    FloatFieldValue(s[6], m);
    FloatFieldValue(s[7], m);
  }

  /** The dump of accepted annual metrics: `symbol` and `date` as given, every figure under its field name as a float or `None`. */
  lemma KeyMetricsDump(m: map<string, Json>)
    requires ValidateRecord(KeyMetrics, m).Ok?
    ensures KeyMetricsInput(m)
    ensures ValidateRecord(KeyMetrics, m).value == [
      ("symbol", m["symbol"]), ("date", m["date"]),
      ("rev_per_share", AsFloat(m["revenuePerShare"])),
      ("fcf_per_share", AsFloat(m["freeCashFlowPerShare"])),
      ("pe_ratio", AsFloat(m["peRatio"])),
      ("ev_over_ebitda", AsFloat(m["enterpriseValueOverEBITDA"])),
      ("ev_to_fcf", AsFloat(m["evToFreeCashFlow"])),
      ("fcf_yield", AsFloat(m["freeCashFlowYield"]))]
  {
    KeyMetricsAccepts(m);
    ValidateRecordCorrect(KeyMetrics, m);
    KeyMetricsValue(m);
  }

  /** Growth figures the class accepts: `symbol` and `date` strings, nine more keys each present and each a number or null. */
  predicate GrowthInput(m: map<string, Json>)
  {
    && Str(m, "symbol") && Str(m, "date")
    && NumberOrNull(m, "revenueGrowth") && NumberOrNull(m, "epsdilutedGrowth")
    && NumberOrNull(m, "dividendsperShareGrowth") && NumberOrNull(m, "freeCashFlowGrowth")
    && NumberOrNull(m, "debtGrowth") && NumberOrNull(m, "fiveYRevenueGrowthPerShare")
    && NumberOrNull(m, "fiveYNetIncomeGrowthPerShare") && NumberOrNull(m, "fiveYDividendperShareGrowthPerShare")
    && NumberOrNull(m, "fiveYOperatingCFGrowthPerShare")
  }

  /** The growth class accepts exactly the inputs described by `GrowthInput`. */
  lemma GrowthConforms(m: map<string, Json>)
    ensures RecordConforms(Growth, m) <==> GrowthInput(m)
  {
    if RecordConforms(Growth, m) { GrowthConformsOnly(Growth, m); }
    if GrowthInput(m) { GrowthInputConforms(Growth, m); }
  }

  lemma GrowthConformsOnly(s: Schema, m: map<string, Json>)
    requires s == Growth && RecordConforms(s, m)
    ensures GrowthInput(m)
  {
    assert FieldConforms(s[0], m);
    assert FieldConforms(s[1], m);
    assert FieldConforms(s[2], m);
    assert FieldConforms(s[3], m);
    assert FieldConforms(s[4], m);
    assert FieldConforms(s[5], m);
    assert FieldConforms(s[6], m);
    assert FieldConforms(s[7], m);
    assert FieldConforms(s[8], m);
    assert FieldConforms(s[9], m);
    assert FieldConforms(s[10], m);
  }

  lemma GrowthInputConforms(s: Schema, m: map<string, Json>)
    requires s == Growth && GrowthInput(m)
    ensures RecordConforms(s, m)
  {
    forall j | 0 <= j < |s| ensures FieldConforms(s[j], m) {
      if j < 5 {
        assert s[j] in s[..5];
      } else {
        assert s[j] in s[5..];
      }
    }
  }

  lemma GrowthAccepts(m: map<string, Json>)
    ensures ValidateRecord(Growth, m).Ok? <==> GrowthInput(m)
  {
    ValidateRecordCorrect(Growth, m);
    GrowthConforms(m);
  }

  /** The reference dump of accepted growth figures. */
  lemma GrowthValue(m: map<string, Json>)
    requires GrowthInput(m)
    ensures RecordValue(Growth, m) == [
      ("symbol", m["symbol"]), ("date", m["date"]),
      ("rev_growth", AsFloat(m["revenueGrowth"])),
      ("eps_growth", AsFloat(m["epsdilutedGrowth"])),
      ("dps_growth", AsFloat(m["dividendsperShareGrowth"])),
      ("fcf_growth", AsFloat(m["freeCashFlowGrowth"])),
      ("debt_growth", AsFloat(m["debtGrowth"])),
      ("fiveY_rev_growth_per_share", AsFloat(m["fiveYRevenueGrowthPerShare"])),
      ("fiveY_ni_growth_per_share", AsFloat(m["fiveYNetIncomeGrowthPerShare"])),
      ("fiveY_dps_growth_per_share", AsFloat(m["fiveYDividendperShareGrowthPerShare"])),
      ("fiveY_opcf_growth_per_share", AsFloat(m["fiveYOperatingCFGrowthPerShare"]))]
  {
    GrowthValueOf(Growth, m);
  }

  lemma GrowthValueOf(s: Schema, m: map<string, Json>)
    requires s == Growth && GrowthInput(m)
    ensures RecordValue(s, m) == [
      ("symbol", m["symbol"]), ("date", m["date"]),
      ("rev_growth", AsFloat(m["revenueGrowth"])),
      ("eps_growth", AsFloat(m["epsdilutedGrowth"])),
      ("dps_growth", AsFloat(m["dividendsperShareGrowth"])),
      ("fcf_growth", AsFloat(m["freeCashFlowGrowth"])),
      ("debt_growth", AsFloat(m["debtGrowth"])),
      ("fiveY_rev_growth_per_share", AsFloat(m["fiveYRevenueGrowthPerShare"])),
      ("fiveY_ni_growth_per_share", AsFloat(m["fiveYNetIncomeGrowthPerShare"])),
      ("fiveY_dps_growth_per_share", AsFloat(m["fiveYDividendperShareGrowthPerShare"])),
      ("fiveY_opcf_growth_per_share", AsFloat(m["fiveYOperatingCFGrowthPerShare"]))]
  {
    assert FieldValue(s[0], m) == ("symbol", m["symbol"]);
    assert FieldValue(s[1], m) == ("date", m["date"]);
    FloatFieldValue(s[2], m);
    FloatFieldValue(s[3], m);
    FloatFieldValue(s[4], m);
    FloatFieldValue(s[5], m);
    FloatFieldValue(s[6], m);
    FloatFieldValue(s[7], m);
    FloatFieldValue(s[8], m);
    FloatFieldValue(s[9], m);
    FloatFieldValue(s[10], m);
  }

  /** The dump of accepted growth figures: `symbol` and `date` as given, every figure under its field name as a float or `None`. */
  lemma GrowthDump(m: map<string, Json>)
    requires ValidateRecord(Growth, m).Ok?
    ensures GrowthInput(m)
    ensures ValidateRecord(Growth, m).value == [
      ("symbol", m["symbol"]), ("date", m["date"]),
      ("rev_growth", AsFloat(m["revenueGrowth"])),
      ("eps_growth", AsFloat(m["epsdilutedGrowth"])),
      ("dps_growth", AsFloat(m["dividendsperShareGrowth"])),
      ("fcf_growth", AsFloat(m["freeCashFlowGrowth"])),
      ("debt_growth", AsFloat(m["debtGrowth"])),
      ("fiveY_rev_growth_per_share", AsFloat(m["fiveYRevenueGrowthPerShare"])),
      ("fiveY_ni_growth_per_share", AsFloat(m["fiveYNetIncomeGrowthPerShare"])),
      ("fiveY_dps_growth_per_share", AsFloat(m["fiveYDividendperShareGrowthPerShare"])),
      ("fiveY_opcf_growth_per_share", AsFloat(m["fiveYOperatingCFGrowthPerShare"]))]
  {
    GrowthAccepts(m);
    ValidateRecordCorrect(Growth, m);
    GrowthValue(m);
  }

  /** The combined input the top-level class accepts: six lists under the six
      field names, every record of every list valid for its own class. */
  predicate CombinedInput(m: map<string, Json>)
  {
    && "profile" in m && RecordsValid(CompanyProfile, m["profile"])
    && "quote" in m && RecordsValid(Quote, m["quote"])
    && "ratings" in m && RecordsValid(Ratings, m["ratings"])
    && "key_metrics_ttm" in m && RecordsValid(KeyMetricsTTM, m["key_metrics_ttm"])
    && "key_metrics" in m && RecordsValid(KeyMetrics, m["key_metrics"])
    && "growth" in m && RecordsValid(Growth, m["growth"])
  }

  /** The field names of the combined model, in declaration order. */
  lemma CombinedModelNames()
    ensures Names(CombinedModel) == ["profile", "quote", "ratings", "key_metrics_ttm", "key_metrics", "growth"]
  {
  }

  /** A single bad record in any list rejects the whole combined set. */
  lemma CombinedModelConforms(m: map<string, Json>)
    ensures RecordConforms(CombinedModel, m) <==> CombinedInput(m)
  {
    ModelListField("profile", CompanyProfile, m);
    ModelListField("quote", Quote, m);
    ModelListField("ratings", Ratings, m);
    ModelListField("key_metrics_ttm", KeyMetricsTTM, m);
    ModelListField("key_metrics", KeyMetrics, m);
    ModelListField("growth", Growth, m);
    if RecordConforms(CombinedModel, m) {
      assert FieldConforms(CombinedModel[0], m);
      assert FieldConforms(CombinedModel[1], m);
      assert FieldConforms(CombinedModel[2], m);
      assert FieldConforms(CombinedModel[3], m);
      assert FieldConforms(CombinedModel[4], m);
      assert FieldConforms(CombinedModel[5], m);
    }
    if CombinedInput(m) {
      forall j | 0 <= j < |CombinedModel| ensures FieldConforms(CombinedModel[j], m) {
        assert CombinedModel[j] in CombinedModel;
      }
    }
  }

  lemma CombinedModelAccepts(m: map<string, Json>)
    ensures ValidateRecord(CombinedModel, m).Ok? <==> CombinedInput(m)
  {
    ValidateRecordCorrect(CombinedModel, m);
    CombinedModelConforms(m);
  }

  /** The dump holds, under the six field names, the dumps of every record of
      every list, in list order. */
  lemma CombinedModelDump(m: map<string, Json>)
    requires ValidateRecord(CombinedModel, m).Ok?
    ensures CombinedInput(m)
    ensures ValidateRecord(CombinedModel, m).value == [
      ("profile", DumpAll(CompanyProfile, m["profile"])),
      ("quote", DumpAll(Quote, m["quote"])),
      ("ratings", DumpAll(Ratings, m["ratings"])),
      ("key_metrics_ttm", DumpAll(KeyMetricsTTM, m["key_metrics_ttm"])),
      ("key_metrics", DumpAll(KeyMetrics, m["key_metrics"])),
      ("growth", DumpAll(Growth, m["growth"]))]
  {
    CombinedModelAccepts(m);
    ValidateRecordCorrect(CombinedModel, m);
    ListOfModelsCorrect(CompanyProfile, m["profile"]);
    ListOfModelsCorrect(Quote, m["quote"]);
    ListOfModelsCorrect(Ratings, m["ratings"]);
    ListOfModelsCorrect(KeyMetricsTTM, m["key_metrics_ttm"]);
    ListOfModelsCorrect(KeyMetrics, m["key_metrics"]);
    ListOfModelsCorrect(Growth, m["growth"]);
  }
}
