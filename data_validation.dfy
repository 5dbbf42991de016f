/** The validated fetch of src/data_validation.py: fetch through the client of
    src/utils.py, assemble the record set, validate it against the lax
    combined model, and either return the whole dump or fail with one
    aggregated message. */
module DataValidation {
  import opened Json
  import opened Validation
  import opened Utils
  import opened Records
  import StockModels

  /** What `extract_stock_data` ends in. When the client reports no data,
      `zip` is handed `None` and raises before any validation; an exception
      escaping the client is passed on. */
  datatype Extracted = RecordSet(records: map<string, Json>) | NoStockData | FetchCrashed

  function Extract(o: FetchOutcome): Extracted
  {
    match o
    case NoData => NoStockData
    case Crashed => FetchCrashed
    case Fetched(results) => RecordSet(Assemble(RenameAll(DefaultMetricTypes), OrNulls(results)))
  }

  /** `extract_stock_data`, with a default client built from the settings'
      base URL and key. */
  method ExtractStockData(baseUrl: string, apiKey: string, ticker: string, fetch: string -> Option<Json>) returns (e: Extracted)
    ensures e == Extract(GuardAsWritten(Responses(DefaultClient(baseUrl, apiKey), ticker, fetch)))
  {
    var stockData := FetchData(DefaultClient(baseUrl, apiKey), ticker, fetch);
    e := Extract(stockData);
  }

  /** What `get_validated_stock_data` ends in: the dump, no data at all, an
      exception from the fetch, or a `DataValidationError` with its message. */
  datatype Validated = Valid(data: Record) | NoTickerData | FetchRaised | DataValidationError(message: string)

  const ErrorHeader: string := "Data validation failed with following errors: \n"

  /** The one entry of the error list a failed validation appends. */
  function FailureEntry(issues: seq<Issue>): string
  {
    "Failed validation: " + Render("CombinedModel", issues)
  }

  /** The outcome for an extracted record set. */
  function ValidateExtracted(e: Extracted): Validated
  {
    match e
    case NoStockData => NoTickerData
    case FetchCrashed => FetchRaised
    case RecordSet(data) =>
      match ValidateRecord(StockModels.CombinedModel, data)
      case Ok(dump) => Valid(dump)
      case Err(issues) => DataValidationError(ErrorHeader + Join("\n", [FailureEntry(issues)]))
  }

  /** The outcome of `get_validated_stock_data` as written. */
  function ValidatedStockData(baseUrl: string, apiKey: string, ticker: string, fetch: string -> Option<Json>): Validated
  {
    ValidateExtracted(Extract(GuardAsWritten(Responses(DefaultClient(baseUrl, apiKey), ticker, fetch))))
  }

  /** The same pipeline on the corrected guard, where an empty profile object
      means "no data". */
  function CorrectedStockData(baseUrl: string, apiKey: string, ticker: string, fetch: string -> Option<Json>): Validated
  {
    ValidateExtracted(Extract(Guard(Responses(DefaultClient(baseUrl, apiKey), ticker, fetch))))
  }

  /** `get_validated_stock_data`: errors are collected in a list, and a
      non-empty list is joined into the message. */
  method GetValidatedStockData(baseUrl: string, apiKey: string, ticker: string, fetch: string -> Option<Json>) returns (v: Validated)
    ensures v == ValidatedStockData(baseUrl, apiKey, ticker, fetch)
  {
    var errors: seq<string> := [];
    var e := ExtractStockData(baseUrl, apiKey, ticker, fetch);
    match e {
      case NoStockData => return NoTickerData;
      case FetchCrashed => return FetchRaised;
      case RecordSet(data) =>
        var validatedData: Record := [];
        match ValidateRecord(StockModels.CombinedModel, data) {
          case Ok(dump) => validatedData := dump;
          case Err(issues) => errors := errors + [FailureEntry(issues)];
        }
        if |errors| > 0 {
          var errorMessage := Join("\n", errors);
          return DataValidationError(ErrorHeader + errorMessage);
        }
        v := Valid(validatedData);
    }
  }

  // ---------------------------------------------------------------------
  // Properties

  /** All or nothing: a record set either validates and comes back as the
      whole dump, or fails and comes back as a message naming every issue. */
  lemma AllOrNothing(data: map<string, Json>)
    ensures ValidateExtracted(RecordSet(data)).Valid? || ValidateExtracted(RecordSet(data)).DataValidationError?
    ensures ValidateExtracted(RecordSet(data)).Valid? <==> ValidateRecord(StockModels.CombinedModel, data).Ok?
    ensures ValidateExtracted(RecordSet(data)).Valid? ==>
      ValidateExtracted(RecordSet(data)).data == ValidateRecord(StockModels.CombinedModel, data).value
    ensures ValidateExtracted(RecordSet(data)).DataValidationError? ==>
      && |ValidateRecord(StockModels.CombinedModel, data).issues| > 0
      && ValidateExtracted(RecordSet(data)).message
         == ErrorHeader + FailureEntry(ValidateRecord(StockModels.CombinedModel, data).issues)
  {
    var r := ValidateRecord(StockModels.CombinedModel, data);
    if r.Err? {
      assert Join("\n", [FailureEntry(r.issues)]) == FailureEntry(r.issues);
    }
  }

  /** A successful result is keyed by the six field names of the combined
      model, `profile`, `quote`, `ratings` and `key_metrics_ttm` among them. */
  lemma SuccessHasCanonicalKeys(baseUrl: string, apiKey: string, ticker: string, fetch: string -> Option<Json>)
    requires ValidatedStockData(baseUrl, apiKey, ticker, fetch).Valid?
    ensures DumpKeys(ValidatedStockData(baseUrl, apiKey, ticker, fetch).data)
         == ["profile", "quote", "ratings", "key_metrics_ttm", "key_metrics", "growth"]
  {
    var e := Extract(GuardAsWritten(Responses(DefaultClient(baseUrl, apiKey), ticker, fetch)));
    DumpHasCanonicalNames(StockModels.CombinedModel, e.records);
    StockModels.CombinedModelNames();
  }

  /** An unknown ticker gives "no data", never a validation error. */
  lemma UnknownTickerGivesNoData(baseUrl: string, apiKey: string, ticker: string, fetch: string -> Option<Json>)
    requires ErrorBody(fetch(Endpoint(baseUrl, "profile", ticker, apiKey)))
    ensures ValidatedStockData(baseUrl, apiKey, ticker, fetch) == NoTickerData
  {
    UnknownTickerNoData(baseUrl, apiKey, ticker, fetch);
  }

  /** As written, an exception escapes exactly when the profile request is
      answered with an empty object. */
  lemma RaisesOnEmptyProfile(baseUrl: string, apiKey: string, ticker: string, fetch: string -> Option<Json>)
    ensures ValidatedStockData(baseUrl, apiKey, ticker, fetch).FetchRaised?
      <==> fetch(Endpoint(baseUrl, "profile", ticker, apiKey)) == Some(JObj([]))
  {
    DefaultCrashesOnEmptyProfile(baseUrl, apiKey, ticker, fetch);
  }

  /** The corrected pipeline never raises; on an empty profile object it
      reports "no data", and on every other input it agrees with the pipeline
      as written. */
  lemma CorrectedNeverRaises(baseUrl: string, apiKey: string, ticker: string, fetch: string -> Option<Json>)
    ensures !CorrectedStockData(baseUrl, apiKey, ticker, fetch).FetchRaised?
    ensures fetch(Endpoint(baseUrl, "profile", ticker, apiKey)) == Some(JObj([])) ==>
      CorrectedStockData(baseUrl, apiKey, ticker, fetch) == NoTickerData
    ensures fetch(Endpoint(baseUrl, "profile", ticker, apiKey)) != Some(JObj([])) ==>
      CorrectedStockData(baseUrl, apiKey, ticker, fetch) == ValidatedStockData(baseUrl, apiKey, ticker, fetch)
  {
    DefaultCrashesOnEmptyProfile(baseUrl, apiKey, ticker, fetch);
    var rs := Responses(DefaultClient(baseUrl, apiKey), ticker, fetch);
    if !GuardAsWritten(rs).Crashed? {
      GuardAgreesWithWritten(rs);
    }
  }

  /** The whole pipeline on the six responses: valid data comes back exactly
      when the profile response is not the provider's "no data" answer and
      every response (a failed request counting as null) is a list of valid
      records of its kind's class. */
  lemma PipelineValid(baseUrl: string, apiKey: string, ticker: string, fetch: string -> Option<Json>)
    ensures |Responses(DefaultClient(baseUrl, apiKey), ticker, fetch)| == 6
    ensures var rs := Responses(DefaultClient(baseUrl, apiKey), ticker, fetch);
      ValidatedStockData(baseUrl, apiKey, ticker, fetch).Valid? <==>
        rs[0] != Some(JArr([])) && ResponsesValid(OrNulls(rs))
  {
    var rs := Responses(DefaultClient(baseUrl, apiKey), ticker, fetch);
    AssembledValidation(OrNulls(rs));
  }
}
