/** The application-facing classes of src/stock_valuation_app/models/stock.py. */
module StockSchema {
  import opened Json
  import opened Validation

  const FinancialData: Schema := [
    Required("revenue", TFloat),
    Required("net_income", TFloat),
    Required("free_cash_flow", TFloat),
    Required("dividends_paid", TFloat),
    Required("date", TStr)
  ]

  /** Four `dict[str, float]` series, keyed by period. */
  const GrowthRates: Schema := [
    Required("revenue", TDict(TFloat)),
    Required("net_income", TDict(TFloat)),
    Required("free_cash_flow", TDict(TFloat)),
    Required("dividends_paid", TDict(TFloat))
  ]

  const StockValuation: Schema := [
    Required("symbol", TStr),
    Required("current_price", TFloat),
    Required("pe_ratio", TFloat),
    Defaulted("dividend_yield", TFloat),
    Required("growth_rates", TModel(GrowthRates)),
    Required("is_quality_dividend_growth_stock", TBool),
    Required("is_undervalued", TBool)
  ]

  const Stock: Schema := [
    Required("symbol", TStr),
    Required("company_name", TStr),
    Defaulted("sector", TStr),
    Defaulted("industry", TStr),
    Required("financial_data", TList(TModel(FinancialData))),
    Defaulted("valuation", TModel(StockValuation))
  ]

  /** A dictionary of numbers under key `k`: every value the decoded dict
      keeps is a number. */
  predicate NumberDict(m: map<string, Json>, k: string)
  {
    k in m && m[k].JObj? && forall i :: 0 <= i < |DictItems(m[k].fields)| ==> IsNumber(DictItems(m[k].fields)[i].1)
  }

  /** One period of financial statements: four numbers and a date. */
  predicate FinancialDataInput(m: map<string, Json>)
  {
    && Number(m, "revenue") && Number(m, "net_income")
    && Number(m, "free_cash_flow") && Number(m, "dividends_paid")
    && Str(m, "date")
  }

  /** The class accepts exactly the inputs described by `FinancialDataInput`. */
  lemma FinancialDataConforms(m: map<string, Json>)
    ensures RecordConforms(FinancialData, m) <==> FinancialDataInput(m)
  {
    if RecordConforms(FinancialData, m) { FinancialDataConformsOnly(FinancialData, m); }
    if FinancialDataInput(m) { FinancialDataInputConforms(FinancialData, m); }
  }

  lemma FinancialDataConformsOnly(s: Schema, m: map<string, Json>)
    requires s == FinancialData && RecordConforms(s, m)
    ensures FinancialDataInput(m)
  {
    assert FieldConforms(s[0], m);
    assert FieldConforms(s[1], m);
    assert FieldConforms(s[2], m);
    assert FieldConforms(s[3], m);
    assert FieldConforms(s[4], m);
  }

  lemma FinancialDataInputConforms(s: Schema, m: map<string, Json>)
    requires s == FinancialData && FinancialDataInput(m)
    ensures RecordConforms(s, m)
  {
    forall j | 0 <= j < |s| ensures FieldConforms(s[j], m) {
      assert s[j] in FinancialData;
    }
  }

  lemma FinancialDataAccepts(m: map<string, Json>)
    ensures ValidateRecord(FinancialData, m).Ok? <==> FinancialDataInput(m)
  {
    ValidateRecordCorrect(FinancialData, m);
    FinancialDataConforms(m);
  }

  /** What an accepted `FinancialData` input dumps to, field by field. */
  lemma FinancialDataValue(m: map<string, Json>)
    requires FinancialDataInput(m)
    ensures RecordValue(FinancialData, m) == [
      ("revenue", AsFloat(m["revenue"])), ("net_income", AsFloat(m["net_income"])),
      ("free_cash_flow", AsFloat(m["free_cash_flow"])), ("dividends_paid", AsFloat(m["dividends_paid"])),
      ("date", m["date"])]
  {
  }

  /** Integer amounts, as in the class's own example, come out as floats. */
  lemma FinancialDataDump(m: map<string, Json>)
    requires ValidateRecord(FinancialData, m).Ok?
    ensures FinancialDataInput(m)
    ensures ValidateRecord(FinancialData, m).value == [
      ("revenue", AsFloat(m["revenue"])), ("net_income", AsFloat(m["net_income"])),
      ("free_cash_flow", AsFloat(m["free_cash_flow"])), ("dividends_paid", AsFloat(m["dividends_paid"])),
      ("date", m["date"])]
  {
    FinancialDataAccepts(m);
    ValidateRecordCorrect(FinancialData, m);
    FinancialDataValue(m);
  }

  /** Four dictionaries of numbers. */
  predicate GrowthRatesInput(m: map<string, Json>)
  {
    && NumberDict(m, "revenue") && NumberDict(m, "net_income")
    && NumberDict(m, "free_cash_flow") && NumberDict(m, "dividends_paid")
  }

  /** The class accepts exactly the inputs described by `GrowthRatesInput`. */
  lemma GrowthRatesConforms(m: map<string, Json>)
    ensures RecordConforms(GrowthRates, m) <==> GrowthRatesInput(m)
  {
    if RecordConforms(GrowthRates, m) { GrowthRatesConformsOnly(GrowthRates, m); }
    if GrowthRatesInput(m) { GrowthRatesInputConforms(GrowthRates, m); }
  }

  lemma GrowthRatesConformsOnly(s: Schema, m: map<string, Json>)
    requires s == GrowthRates && RecordConforms(s, m)
    ensures GrowthRatesInput(m)
  {
    assert FieldConforms(s[0], m);
    assert FieldConforms(s[1], m);
    assert FieldConforms(s[2], m);
    assert FieldConforms(s[3], m);
  }

  lemma GrowthRatesInputConforms(s: Schema, m: map<string, Json>)
    requires s == GrowthRates && GrowthRatesInput(m)
    ensures RecordConforms(s, m)
  {
    forall j | 0 <= j < |s| ensures FieldConforms(s[j], m) {
      assert s[j] in GrowthRates;
    }
  }

  lemma GrowthRatesAccepts(m: map<string, Json>)
    ensures ValidateRecord(GrowthRates, m).Ok? <==> GrowthRatesInput(m)
  {
    ValidateRecordCorrect(GrowthRates, m);
    GrowthRatesConforms(m);
  }

  /** The reference dump of accepted growth rates. */
  lemma GrowthRatesValue(m: map<string, Json>)
    requires GrowthRatesInput(m)
    ensures RecordValue(GrowthRates, m) == [
      ("revenue", Convert(TDict(TFloat), m["revenue"])),
      ("net_income", Convert(TDict(TFloat), m["net_income"])),
      ("free_cash_flow", Convert(TDict(TFloat), m["free_cash_flow"])),
      ("dividends_paid", Convert(TDict(TFloat), m["dividends_paid"]))]
  {
  }

  /** The dump of accepted growth rates: each of the four series converted as
      a `dict[str, float]`, which `DictConvertByMap` describes key by key. */
  lemma GrowthRatesDump(m: map<string, Json>)
    requires ValidateRecord(GrowthRates, m).Ok?
    ensures GrowthRatesInput(m)
    ensures ValidateRecord(GrowthRates, m).value == [
      ("revenue", Convert(TDict(TFloat), m["revenue"])),
      ("net_income", Convert(TDict(TFloat), m["net_income"])),
      ("free_cash_flow", Convert(TDict(TFloat), m["free_cash_flow"])),
      ("dividends_paid", Convert(TDict(TFloat), m["dividends_paid"]))]
  {
    GrowthRatesAccepts(m);
    ValidateRecordCorrect(GrowthRates, m);
    GrowthRatesValue(m);
  }

  /** A valuation: `dividend_yield` may be missing or null, `growth_rates` must be a valid nested object, the two flags booleans. */
  predicate StockValuationInput(m: map<string, Json>)
  {
    && Str(m, "symbol") && Number(m, "current_price") && Number(m, "pe_ratio")
    && OptionalNumber(m, "dividend_yield")
    && "growth_rates" in m && m["growth_rates"].JObj? && GrowthRatesInput(ToMap(m["growth_rates"].fields))
    && Bool(m, "is_quality_dividend_growth_stock") && Bool(m, "is_undervalued")
  }

  /** The class accepts exactly the inputs described by `StockValuationInput`. */
  lemma StockValuationConforms(m: map<string, Json>)
    ensures RecordConforms(StockValuation, m) <==> StockValuationInput(m)
  {
    if RecordConforms(StockValuation, m) { StockValuationConformsOnly(StockValuation, m); }
    if StockValuationInput(m) { StockValuationInputConforms(StockValuation, m); }
  }

  lemma StockValuationConformsOnly(s: Schema, m: map<string, Json>)
    requires s == StockValuation && RecordConforms(s, m)
    ensures StockValuationInput(m)
  {
    assert FieldConforms(s[0], m);
    assert FieldConforms(s[1], m);
    assert FieldConforms(s[2], m);
    assert FieldConforms(s[3], m);
    assert FieldConforms(s[4], m);
    assert FieldConforms(s[5], m);
    assert FieldConforms(s[6], m);
    GrowthRatesConforms(ToMap(m["growth_rates"].fields));
  }

  lemma StockValuationInputConforms(s: Schema, m: map<string, Json>)
    requires s == StockValuation && StockValuationInput(m)
    ensures RecordConforms(s, m)
  {
    GrowthRatesConforms(ToMap(m["growth_rates"].fields));
    forall j | 0 <= j < |s| ensures FieldConforms(s[j], m) {
      if j < 4 {
        assert s[j] in s[..4];
      } else {
        assert s[j] in s[4..];
      }
    }
  }


  lemma StockValuationAccepts(m: map<string, Json>)
    ensures ValidateRecord(StockValuation, m).Ok? <==> StockValuationInput(m)
  {
    ValidateRecordCorrect(StockValuation, m);
    StockValuationConforms(m);
  }

  /** The reference dump of an accepted valuation. */
  lemma StockValuationValue(m: map<string, Json>)
    requires StockValuationInput(m)
    ensures RecordValue(StockValuation, m) == [
      ("symbol", m["symbol"]), ("current_price", AsFloat(m["current_price"])),
      ("pe_ratio", AsFloat(m["pe_ratio"])), ("dividend_yield", AsFloat(Lookup(m, "dividend_yield"))),
      ("growth_rates", Convert(TModel(GrowthRates), m["growth_rates"])),
      ("is_quality_dividend_growth_stock", m["is_quality_dividend_growth_stock"]),
      ("is_undervalued", m["is_undervalued"])]
  {
  }

  /** The dump of an accepted valuation: the two amounts and a given dividend
      yield as floats, a missing yield as `None`, the nested growth rates as
      their own dump. */
  lemma StockValuationDump(m: map<string, Json>)
    requires ValidateRecord(StockValuation, m).Ok?
    ensures StockValuationInput(m)
    ensures ValidateRecord(GrowthRates, ToMap(m["growth_rates"].fields)).Ok?
    ensures ValidateRecord(StockValuation, m).value == [
      ("symbol", m["symbol"]), ("current_price", AsFloat(m["current_price"])),
      ("pe_ratio", AsFloat(m["pe_ratio"])), ("dividend_yield", AsFloat(Lookup(m, "dividend_yield"))),
      ("growth_rates", JObj(ValidateRecord(GrowthRates, ToMap(m["growth_rates"].fields)).value)),
      ("is_quality_dividend_growth_stock", m["is_quality_dividend_growth_stock"]),
      ("is_undervalued", m["is_undervalued"])]
  {
    StockValuationAccepts(m);
    ValidateRecordCorrect(StockValuation, m);
    ModelConforms(GrowthRates, m["growth_rates"]);
    GrowthRatesAccepts(ToMap(m["growth_rates"].fields));
    StockValuationValue(m);
  }

  /** A stock: `sector`, `industry` and `valuation` may be missing or null; `financial_data` must be a list of valid periods. */
  predicate StockInput(m: map<string, Json>)
  {
    && Str(m, "symbol") && Str(m, "company_name")
    && OptionalStr(m, "sector") && OptionalStr(m, "industry")
    && "financial_data" in m && RecordsValid(FinancialData, m["financial_data"])
    && ("valuation" !in m || m["valuation"].JNull? || (m["valuation"].JObj? && StockValuationInput(ToMap(m["valuation"].fields))))
  }

  /** The class accepts exactly the inputs described by `StockInput`. */
  lemma StockConforms(m: map<string, Json>)
    ensures RecordConforms(Stock, m) <==> StockInput(m)
  {
    ModelListField("financial_data", FinancialData, m);
    if "valuation" in m && m["valuation"].JObj? {
      StockValuationConforms(ToMap(m["valuation"].fields));
      assert Conforms(TModel(StockValuation), m["valuation"]) <==> StockValuationInput(ToMap(m["valuation"].fields));
    }
    if RecordConforms(Stock, m) {
      assert FieldConforms(Stock[0], m);
      assert FieldConforms(Stock[1], m);
      assert FieldConforms(Stock[2], m);
      assert FieldConforms(Stock[3], m);
      assert FieldConforms(Stock[4], m);
      assert FieldConforms(Stock[5], m);
      if "valuation" in m && !m["valuation"].JNull? {
        assert Stock[5].ty == TModel(StockValuation);
        assert Conforms(TModel(StockValuation), m["valuation"]);
      }
    }
    if StockInput(m) {
      forall j | 0 <= j < |Stock| ensures FieldConforms(Stock[j], m) {
        assert Stock[j] in Stock;
      }
    }
  }

  lemma StockAccepts(m: map<string, Json>)
    ensures ValidateRecord(Stock, m).Ok? <==> StockInput(m)
  {
    ValidateRecordCorrect(Stock, m);
    StockConforms(m);
  }

  /** What an accepted stock dumps to, its nested fields in their
      converted form. */
  lemma StockValue(m: map<string, Json>)
    requires StockInput(m)
    ensures RecordValue(Stock, m) == [
      ("symbol", m["symbol"]), ("company_name", m["company_name"]),
      ("sector", Lookup(m, "sector")), ("industry", Lookup(m, "industry")),
      ("financial_data", Convert(TList(TModel(FinancialData)), m["financial_data"])),
      ("valuation",
        if "valuation" !in m || m["valuation"].JNull? then JNull
        else Convert(TModel(StockValuation), m["valuation"]))]
  {
  }

  /** The dump of a stock: the periods dumped one by one, and `valuation` as
      `None` unless a valuation was given. */
  lemma StockDump(m: map<string, Json>)
    requires ValidateRecord(Stock, m).Ok?
    ensures StockInput(m)
    ensures "valuation" in m && m["valuation"].JObj? ==> ValidateRecord(StockValuation, ToMap(m["valuation"].fields)).Ok?
    ensures ValidateRecord(Stock, m).value == [
      ("symbol", m["symbol"]), ("company_name", m["company_name"]),
      ("sector", Lookup(m, "sector")), ("industry", Lookup(m, "industry")),
      ("financial_data", DumpAll(FinancialData, m["financial_data"])),
      ("valuation",
        if "valuation" !in m || m["valuation"].JNull? then JNull
        else JObj(ValidateRecord(StockValuation, ToMap(m["valuation"].fields)).value))]
  {
    StockAccepts(m);
    ValidateRecordCorrect(Stock, m);
    ListOfModelsCorrect(FinancialData, m["financial_data"]);
    if "valuation" in m && m["valuation"].JObj? {
      ModelConforms(StockValuation, m["valuation"]);
      StockValuationAccepts(ToMap(m["valuation"].fields));
    }
    StockValue(m);
  }

  /** The one reporting period of the example. */
  const ExamplePeriodFields: seq<(string, Json)> := [
    ("revenue", JInt(365817000000)),
    ("net_income", JInt(94680000000)),
    ("free_cash_flow", JInt(90215000000)),
    ("dividends_paid", JInt(14467000000)),
    ("date", JStr("2022-09-30"))]

  /** The example attached to the `Stock` class: integer amounts, no
      valuation. */
  const Example: Json := JObj([
    ("symbol", JStr("AAPL")),
    ("company_name", JStr("Apple Inc.")),
    ("sector", JStr("Technology")),
    ("industry", JStr("Consumer Electronics")),
    ("financial_data", JArr([JObj(ExamplePeriodFields)]))
  ])

  /** The period of the example is valid, its amounts being integers. */
  lemma ExamplePeriodValid(pm: map<string, Json>)
    requires pm == ToMap(ExamplePeriodFields)
    ensures ValidateRecord(FinancialData, pm).Ok?
  {
    ToMapAt(ExamplePeriodFields, 0);
    ToMapAt(ExamplePeriodFields, 1);
    ToMapAt(ExamplePeriodFields, 2);
    ToMapAt(ExamplePeriodFields, 3);
    ToMapAt(ExamplePeriodFields, 4);
    FinancialDataAccepts(pm);
  }

  lemma ExamplePeriod(m: map<string, Json>)
    requires m == ToMap(Example.fields)
    ensures "financial_data" in m && RecordsValid(FinancialData, m["financial_data"])
  {
    ToMapAt(Example.fields, 4);
    ExamplePeriodValid(ToMap(ExamplePeriodFields));
  }

  /** The example carries every key a stock needs, and no valuation. */
  lemma ExampleInput(m: map<string, Json>)
    requires m == ToMap(Example.fields)
    ensures StockInput(m) && "valuation" !in m
  {
    ExamplePeriod(m);
    ToMapAt(Example.fields, 0);
    ToMapAt(Example.fields, 1);
    ToMapAt(Example.fields, 2);
    ToMapAt(Example.fields, 3);
  }

  /** The example is a valid stock, with no valuation. */
  lemma ExampleValidates(m: map<string, Json>)
    requires m == ToMap(Example.fields)
    ensures ValidateRecord(Stock, m).Ok?
    ensures |ValidateRecord(Stock, m).value| == 6 && ValidateRecord(Stock, m).value[5] == ("valuation", JNull)
  {
    ExampleInput(m);
    StockAccepts(m);
    ValidateRecordCorrect(Stock, m);
  }
}
