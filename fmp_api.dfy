/** The client of src/api/fmp_client.py: the same endpoints as src/utils.py,
    but no failure handling in `get_data` and no no-data guard; the
    responses go straight through renaming, zipping and validation. */
module ApiClient {
  import opened Json
  import opened Validation
  import opened Utils
  import opened Records
  import StockModels
  import StrictStockModels

  /** Every request answered, in request order; the first failure makes the
      whole gather fail. */
  function AllResponses(urls: seq<string>, fetch: string -> Option<Json>): (r: Option<seq<Json>>)
    ensures r.Some? <==> forall i :: 0 <= i < |urls| ==> fetch(urls[i]).Some?
    ensures r.Some? ==> |r.value| == |urls| && forall i :: 0 <= i < |urls| ==> r.value[i] == fetch(urls[i]).value
  {
    if |urls| == 0 then Some([])
    else
      var init := AllResponses(urls[..|urls| - 1], fetch);
      var last := fetch(urls[|urls| - 1]);
      if init.Some? && last.Some? then Some(init.value + [last.value]) else None
  }

  /** The gather of `fetch_data`, one awaited response per URL. */
  method GatherAll(urls: seq<string>, fetch: string -> Option<Json>) returns (r: Option<seq<Json>>)
    ensures r == AllResponses(urls, fetch)
  {
    var bodies: seq<Json> := [];
    var i := 0;
    while i < |urls|
      invariant 0 <= i <= |urls|
      invariant AllResponses(urls[..i], fetch) == Some(bodies)
    {
      var response := fetch(urls[i]);
      if response.None? {
        assert urls[..i + 1][..i] == urls[..i];
        assert AllResponses(urls[..i + 1], fetch).None?;
        NoneStaysNone(urls, fetch, i + 1);
        return None;
      }
      assert urls[..i + 1][..i] == urls[..i];
      bodies := bodies + [response.value];
      i := i + 1;
    }
    assert urls[..i] == urls;
    r := Some(bodies);
  }

  /** A failed prefix stays failed. */
  lemma {:induction false} NoneStaysNone(urls: seq<string>, fetch: string -> Option<Json>, k: nat)
    requires k <= |urls| && AllResponses(urls[..k], fetch).None?
    ensures AllResponses(urls, fetch).None?
    decreases |urls| - k
  {
    if k < |urls| {
      assert urls[..k + 1][..k] == urls[..k];
      NoneStaysNone(urls, fetch, k + 1);
    } else {
      assert urls[..k] == urls;
    }
  }

  /** What `fetch_data` ends in: a request that raised, a `ValidationError`,
      or the dump of the combined model. */
  datatype ApiOutcome = RequestFailed | Invalid(issues: seq<Issue>) | Valid(dump: Record)

  /** The whole of `fetch_data`, for the combined schema `schema`. */
  function ApiFetch(schema: Schema, c: FmpClient, ticker: string, fetch: string -> Option<Json>): ApiOutcome
  {
    match AllResponses(Urls(c, ticker), fetch)
    case None => RequestFailed
    case Some(bodies) =>
      match ValidateRecord(schema, Assemble(RenameAll(c.metricTypes), bodies))
      case Ok(dump) => Valid(dump)
      case Err(issues) => Invalid(issues)
  }

  method FetchData(schema: Schema, c: FmpClient, ticker: string, fetch: string -> Option<Json>) returns (o: ApiOutcome)
    ensures o == ApiFetch(schema, c, ticker, fetch)
  {
    var urls := BuildEndpoints(c, ticker);
    assert urls == Urls(c, ticker);
    var results := GatherAll(urls, fetch);
    if results.None? {
      return RequestFailed;
    }
    var labels := RenameAll(c.metricTypes);
    var records := Assemble(labels, results.value);
    match ValidateRecord(schema, records)
    case Ok(dump) => o := Valid(dump);
    case Err(issues) => o := Invalid(issues);
  }

  /** One failing request, wherever it is, aborts the whole fetch. */
  lemma FailedRequestAborts(schema: Schema, c: FmpClient, ticker: string, fetch: string -> Option<Json>, i: nat)
    requires i < |c.metricTypes| && fetch(Endpoint(c.baseUrl, c.metricTypes[i], ticker, c.apiKey)).None?
    ensures ApiFetch(schema, c, ticker, fetch) == RequestFailed
  {
    assert Urls(c, ticker)[i] == Endpoint(c.baseUrl, c.metricTypes[i], ticker, c.apiKey);
  }

  /** With the default kinds and the lax schema: when every request is
      answered, the result is valid exactly when each response is a list of
      valid records of its kind's class, the dump holds them under the field
      names, and an invalid set raises with at least one issue. */
  lemma DefaultFetch(baseUrl: string, apiKey: string, ticker: string, fetch: string -> Option<Json>)
    requires AllResponses(Urls(DefaultClient(baseUrl, apiKey), ticker), fetch).Some?
    ensures |AllResponses(Urls(DefaultClient(baseUrl, apiKey), ticker), fetch).value| == 6
    ensures var bodies := AllResponses(Urls(DefaultClient(baseUrl, apiKey), ticker), fetch).value;
      var o := ApiFetch(StockModels.CombinedModel, DefaultClient(baseUrl, apiKey), ticker, fetch);
      && (o.Valid? <==> ResponsesValid(bodies))
      && (o.Valid? ==> o.dump == [
           ("profile", DumpAll(StockModels.CompanyProfile, bodies[0])),
           ("quote", DumpAll(StockModels.Quote, bodies[2])),
           ("ratings", DumpAll(StockModels.Ratings, bodies[1])),
           ("key_metrics_ttm", DumpAll(StockModels.KeyMetricsTTM, bodies[3])),
           ("key_metrics", DumpAll(StockModels.KeyMetrics, bodies[4])),
           ("growth", DumpAll(StockModels.Growth, bodies[5]))])
      && (o.Invalid? ==> |o.issues| > 0)
  {
    var c := DefaultClient(baseUrl, apiKey);
    var bodies := AllResponses(Urls(c, ticker), fetch).value;
    AssembledValidation(bodies);
  }

  /** Whichever of the two schemas the client is given, a dump the strict
      one produces is also what the lax one produces. */
  lemma StrictFetchIsLaxFetch(c: FmpClient, ticker: string, fetch: string -> Option<Json>)
    requires ApiFetch(StrictStockModels.CombinedModel, c, ticker, fetch).Valid?
    ensures ApiFetch(StockModels.CombinedModel, c, ticker, fetch) == ApiFetch(StrictStockModels.CombinedModel, c, ticker, fetch)
  {
    var bodies := AllResponses(Urls(c, ticker), fetch).value;
    StrictStockModels.StrictAcceptedByLax(Assemble(RenameAll(c.metricTypes), bodies));
  }
}
