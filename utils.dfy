/** The provider client of src/utils.py: one URL per metric kind, one response
    per URL, and a guard on the first (profile) response that tells "no data"
    apart from data. */
module Utils {
  import opened Json

  /** The client's configuration; the source takes the base URL and the API
      key from the settings, here they are plain parameters. */
  datatype FmpClient = FmpClient(baseUrl: string, apiKey: string, metricTypes: seq<string>)

  /** The default metric kinds, in request order. */
  const DefaultMetricTypes: seq<string> :=
    ["profile", "rating", "quote", "key-metrics-ttm", "key-metrics", "financial-growth"]

  /** The kinds whose endpoint takes no `period` parameter. */
  const PlainKinds: seq<string> := ["profile", "quote", "rating", "key-metrics-ttm"]

  function DefaultClient(baseUrl: string, apiKey: string): FmpClient
  {
    FmpClient(baseUrl, apiKey, DefaultMetricTypes)
  }

  /** The query string of a kind's endpoint. */
  function Query(kind: string, apiKey: string): string
  {
    if kind in PlainKinds then "?apikey=" + apiKey else "?period=annual&apikey=" + apiKey
  }

  /** The endpoint of one metric kind for one ticker. */
  function Endpoint(baseUrl: string, kind: string, ticker: string, apiKey: string): string
  {
    baseUrl + "/" + kind + "/" + ticker + Query(kind, apiKey)
  }

  /** The endpoints of all of a client's kinds, in order. */
  function Urls(c: FmpClient, ticker: string): seq<string>
  {
    seq(|c.metricTypes|, i requires 0 <= i < |c.metricTypes| => Endpoint(c.baseUrl, c.metricTypes[i], ticker, c.apiKey))
  }

  /** The URL loop of `fetch_data`. */
  method BuildEndpoints(c: FmpClient, ticker: string) returns (urls: seq<string>)
    ensures |urls| == |c.metricTypes|
    ensures forall i :: 0 <= i < |urls| ==> urls[i] == Endpoint(c.baseUrl, c.metricTypes[i], ticker, c.apiKey)
  {
    urls := [];
    var i := 0;
    while i < |c.metricTypes|
      invariant 0 <= i <= |c.metricTypes|
      invariant |urls| == i
      invariant forall j :: 0 <= j < i ==> urls[j] == Endpoint(c.baseUrl, c.metricTypes[j], ticker, c.apiKey)
    {
      var metric := c.metricTypes[i];
      var endpoint: string;
      if metric in PlainKinds {
        endpoint := c.baseUrl + "/" + metric + "/" + ticker + "?apikey=" + c.apiKey;
      } else {
        endpoint := c.baseUrl + "/" + metric + "/" + ticker + "?period=annual&apikey=" + c.apiKey;
      }
      urls := urls + [endpoint];
      i := i + 1;
    }
  }

  /** One request per URL, answered by `fetch`; `None` stands for a request
      or a decoding that failed, which `get_data` logs and turns into `None`. */
  method GatherResults(urls: seq<string>, fetch: string -> Option<Json>) returns (results: seq<Option<Json>>)
    ensures |results| == |urls|
    ensures forall i :: 0 <= i < |urls| ==> results[i] == fetch(urls[i])
  {
    results := [];
    for i := 0 to |urls|
      invariant |results| == i
      invariant forall j :: 0 <= j < i ==> results[j] == fetch(urls[j])
    {
      results := results + [fetch(urls[i])];
    }
  }

  /** What `fetch_data` ends in. `Crashed` is an exception escaping it. */
  datatype FetchOutcome = NoData | Fetched(results: seq<Option<Json>>) | Crashed

  /** The provider's way of saying "no such ticker": an empty list, or an
      object whose first key is `Error Message`. */
  predicate ErrorBody(r: Option<Json>)
  {
    && r.Some?
    && ((r.value.JArr? && |r.value.items| == 0)
        || (r.value.JObj? && |r.value.fields| > 0 && r.value.fields[0].0 == "Error Message"))
  }

  /** The guard as written: an empty object as first response makes
      `list(results[0].keys())[0]` raise, and so does an empty response list. */
  function GuardAsWritten(results: seq<Option<Json>>): (o: FetchOutcome)
    ensures o.Crashed? <==> |results| == 0 || results[0] == Some(JObj([]))
    ensures o.NoData? <==> |results| > 0 && ErrorBody(results[0])
    ensures o.Fetched? ==> o.results == results
  {
    if |results| == 0 then Crashed
    else
      var first := results[0];
      if first.Some? && first.value.JArr? && |first.value.items| == 0 then NoData
      else if first.Some? && first.value.JObj? then
        if |first.value.fields| == 0 then Crashed
        else if first.value.fields[0].0 == "Error Message" then NoData
        else Fetched(results)
      else Fetched(results)
  }

  /** An empty object as profile response, as written, ends in an exception
      instead of "no data". */
  lemma EmptyObjectCrashesGuard(results: seq<Option<Json>>)
    requires |results| > 0 && results[0] == Some(JObj([]))
    ensures GuardAsWritten(results) == Crashed
  {
  }

  /** The guard with an empty object counted as an empty answer. */
  function Guard(results: seq<Option<Json>>): (o: FetchOutcome)
    ensures o.Crashed? <==> |results| == 0
    ensures o.NoData? <==> |results| > 0 && (ErrorBody(results[0]) || results[0] == Some(JObj([])))
    ensures o.Fetched? ==> o.results == results
  {
    if |results| == 0 then Crashed
    else
      var first := results[0];
      if first.Some? && first.value.JArr? && |first.value.items| == 0 then NoData
      else if first.Some? && first.value.JObj? then
        if |first.value.fields| == 0 || first.value.fields[0].0 == "Error Message" then NoData
        else Fetched(results)
      else Fetched(results)
  }

  /** The corrected guard agrees with the written one wherever the written one
      does not crash on a non-empty list. */
  lemma GuardAgreesWithWritten(results: seq<Option<Json>>)
    requires !GuardAsWritten(results).Crashed? || |results| == 0
    ensures Guard(results) == GuardAsWritten(results)
  {
  }

  /** Only the first response is looked at: positions after it, `None`s
      included, never change the verdict, and data comes back unchanged. */
  lemma GuardOnlyInspectsProfile(r1: seq<Option<Json>>, r2: seq<Option<Json>>)
    requires |r1| > 0 && |r2| > 0 && r1[0] == r2[0]
    ensures Guard(r1).NoData? <==> Guard(r2).NoData?
    ensures Guard(r1).Fetched? ==> Guard(r1).results == r1 && Guard(r2).results == r2
  {
  }

  /** The response sequence `fetch_data` hands to its guard. */
  function Responses(c: FmpClient, ticker: string, fetch: string -> Option<Json>): seq<Option<Json>>
  {
    seq(|c.metricTypes|, i requires 0 <= i < |c.metricTypes| => fetch(Urls(c, ticker)[i]))
  }

  /** `fetch_data`: build the URLs, gather the responses, apply the guard as
      written. */
  method FetchData(c: FmpClient, ticker: string, fetch: string -> Option<Json>) returns (o: FetchOutcome)
    ensures o == GuardAsWritten(Responses(c, ticker, fetch))
  {
    var urls := BuildEndpoints(c, ticker);
    assert urls == Urls(c, ticker);
    var results := GatherResults(urls, fetch);
    o := GuardAsWritten(results);
  }

  // ---------------------------------------------------------------------
  // Properties of the endpoints

  /** The first four default kinds are plain, the last two annual. */
  lemma DefaultEndpoints(baseUrl: string, apiKey: string, ticker: string)
    ensures |Urls(DefaultClient(baseUrl, apiKey), ticker)| == 6
    ensures forall i :: 0 <= i < 6 ==>
      Urls(DefaultClient(baseUrl, apiKey), ticker)[i] ==
        baseUrl + "/" + DefaultMetricTypes[i] + "/" + ticker
        + (if i < 4 then "?apikey=" else "?period=annual&apikey=") + apiKey
  {
    forall i | 0 <= i < 6
      ensures DefaultMetricTypes[i] in PlainKinds <==> i < 4
    {
      if i >= 4 {
        assert DefaultMetricTypes[i] != PlainKinds[0] && DefaultMetricTypes[i] != PlainKinds[1];
        assert DefaultMetricTypes[i] != PlainKinds[2] && DefaultMetricTypes[i] != PlainKinds[3];
      }
    }
  }

  /** The character at offset `j` of the kind part of an endpoint. */
  lemma EndpointAt(baseUrl: string, kind: string, ticker: string, apiKey: string, j: nat)
    requires j <= |kind|
    ensures |baseUrl| + 1 + j < |Endpoint(baseUrl, kind, ticker, apiKey)|
    ensures Endpoint(baseUrl, kind, ticker, apiKey)[|baseUrl| + 1 + j] == if j < |kind| then kind[j] else '/'
  {
    var u := Endpoint(baseUrl, kind, ticker, apiKey);
    var rest := ticker + Query(kind, apiKey);
    assert u == (baseUrl + "/") + (kind + "/" + rest);
    assert (kind + "/" + rest)[j] == if j < |kind| then kind[j] else '/';
  }

  /** Two kinds without a `/` have different endpoints, so every response can
      be traced back to its kind. */
  lemma EndpointsDistinct(baseUrl: string, k1: string, k2: string, ticker: string, apiKey: string)
    requires k1 != k2 && '/' !in k1 && '/' !in k2
    ensures Endpoint(baseUrl, k1, ticker, apiKey) != Endpoint(baseUrl, k2, ticker, apiKey)
  {
    var p := |baseUrl| + 1;
    if |k1| < |k2| {
      EndpointAt(baseUrl, k1, ticker, apiKey, |k1|);
      EndpointAt(baseUrl, k2, ticker, apiKey, |k1|);
      assert k2[|k1|] in k2;
    } else if |k2| < |k1| {
      EndpointAt(baseUrl, k1, ticker, apiKey, |k2|);
      EndpointAt(baseUrl, k2, ticker, apiKey, |k2|);
      assert k1[|k2|] in k1;
    } else {
      var j :| 0 <= j < |k1| && k1[j] != k2[j];
      EndpointAt(baseUrl, k1, ticker, apiKey, j);
      EndpointAt(baseUrl, k2, ticker, apiKey, j);
    }
  }

  /** The six default endpoints of a ticker are pairwise different. */
  lemma DefaultUrlsDistinct(baseUrl: string, apiKey: string, ticker: string)
    ensures forall i, j :: 0 <= i < j < 6 ==>
      Urls(DefaultClient(baseUrl, apiKey), ticker)[i] != Urls(DefaultClient(baseUrl, apiKey), ticker)[j]
  {
    var c := DefaultClient(baseUrl, apiKey);
    forall i, j | 0 <= i < j < 6 ensures Urls(c, ticker)[i] != Urls(c, ticker)[j] {
      var k1, k2 := DefaultMetricTypes[i], DefaultMetricTypes[j];
      assert '/' !in k1 && '/' !in k2;
      EndpointsDistinct(baseUrl, k1, k2, ticker, apiKey);
    }
  }

  // ---------------------------------------------------------------------
  // Properties of the whole fetch

  /** Response `i` is the answer to the request for kind `i`. */
  lemma ResponsesInOrder(c: FmpClient, ticker: string, fetch: string -> Option<Json>, i: nat)
    requires i < |c.metricTypes|
    ensures |Responses(c, ticker, fetch)| == |c.metricTypes|
    ensures Responses(c, ticker, fetch)[i] == fetch(Endpoint(c.baseUrl, c.metricTypes[i], ticker, c.apiKey))
  {
    assert Urls(c, ticker)[i] == Endpoint(c.baseUrl, c.metricTypes[i], ticker, c.apiKey);
  }

  /** An unknown ticker, for which the provider answers the profile request
      with an empty list or an error object, gives "no data" whatever the
      other answers are, with either guard. */
  lemma UnknownTickerNoData(baseUrl: string, apiKey: string, ticker: string, fetch: string -> Option<Json>)
    requires ErrorBody(fetch(Endpoint(baseUrl, "profile", ticker, apiKey)))
    ensures GuardAsWritten(Responses(DefaultClient(baseUrl, apiKey), ticker, fetch)) == NoData
    ensures Guard(Responses(DefaultClient(baseUrl, apiKey), ticker, fetch)) == NoData
  {
    var c := DefaultClient(baseUrl, apiKey);
    assert Responses(c, ticker, fetch)[0] == fetch(Urls(c, ticker)[0]);
  }

  /** With the default kinds the fetch as written raises exactly when the
      profile request is answered with an empty object; the corrected guard
      never raises. */
  lemma DefaultCrashesOnEmptyProfile(baseUrl: string, apiKey: string, ticker: string, fetch: string -> Option<Json>)
    ensures GuardAsWritten(Responses(DefaultClient(baseUrl, apiKey), ticker, fetch)).Crashed?
      <==> fetch(Endpoint(baseUrl, "profile", ticker, apiKey)) == Some(JObj([]))
    ensures !Guard(Responses(DefaultClient(baseUrl, apiKey), ticker, fetch)).Crashed?
  {
    var c := DefaultClient(baseUrl, apiKey);
    assert Responses(c, ticker, fetch)[0] == fetch(Urls(c, ticker)[0]);
  }
}
