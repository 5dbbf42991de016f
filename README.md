# StockDataView data pipeline, in Dafny

This project models the data pipeline behind the StockDataView dashboard, without its HTTP and UI layers. The pipeline has three parts.

- **Endpoint builder and no-data guard.** This is the Financial Modeling Prep client of `src/utils.py` and `src/api/fmp_client.py`.
  - It builds one URL per metric kind, in a fixed order. Four kinds get `?apikey=` and the others get `?period=annual&apikey=`.
  - It fetches every URL. In `src/utils.py` it then looks at the first (profile) response only, to tell "no such ticker" apart from data.
- **Record assembler.**
  - The provider's metric labels are renamed through a fixed four-entry table.
  - The renamed labels are paired, position by position, with the responses (`dict(zip(...))`).
  - `get_validated_stock_data` either returns the whole validated dump or raises one `DataValidationError` that aggregates the issues.
- **Schema validator.** The pydantic record classes are modelled as field tables. Each field carries a canonical name, a raw key (its alias), a type, whether its key is required, and whether its value may be null.
  - One generic validator (`Validation.ValidateRecord`) reads every field by its raw key, checks its type and collects every issue.
  - It outputs the record under the canonical names, in declaration order.
  - It is proved equal to a reference definition: what each type accepts (`Conforms`) and what it converts to (`Convert`).
  - The lax classes of `src/stock_models.py`, the strict classes of `src/stock_valuation_app/models/stock_models.py` and the nested classes of `src/stock_valuation_app/models/stock.py` are three sets of tables for that validator.
  - For each class, a predicate states in JSON terms exactly which provider object it accepts, and a `…Dump` lemma states, field by field, what the class dumps. Each strict class dumps exactly what the lax class of the same name dumps.

Modules, in dependency order:

| module | file | models |
|---|---|---|
| `Json` | `json.dfy` | JSON values; a Python dict built from key/value pairs, where a later key wins |
| `Validation` | `validation.dfy` | fields, types and the validator; the reference definitions; refinement between schemas |
| `Utils` | `utils.dfy` | the client of `src/utils.py`: URLs, the gather, the no-data guard, `fetch_data` |
| `StockModels` | `stock_models.dfy` | the lax classes |
| `StrictStockModels` | `strict_models.dfy` | the strict classes, and their refinement of the lax ones |
| `StockSchema` | `stock_schema.dfy` | `FinancialData`, `GrowthRates`, `StockValuation`, `Stock` and the class's example |
| `Records` | `records.dfy` | the rename table, `zip`, `dict(zip(...))` on the default kinds |
| `ApiClient` | `fmp_api.dfy` | the client of `src/api/fmp_client.py`: no failure handling, validates its own result |
| `DataValidation` | `data_validation.dfy` | `extract_stock_data` and `get_validated_stock_data` |

Requests are an oracle `fetch: string -> Option<Json>`, applied to the URLs in order. `None` stands for a request, or a decoding of the body, that raised. Python `None` is `JNull`. A JSON float is a `real`.

A few points of pydantic (version 2) behaviour are modelled explicitly:
- an aliased field is read only from its alias;
- a key not in the class is ignored;
- a `float` field accepts an integer and dumps it as a float;
- an `int | float` field keeps an integer as it is;
- `Optional[str] = None` lets the key be missing;
- `float | None = Field(..., alias=...)` needs the key but lets its value be null;
- every issue is reported, not only the first;
- a provider object with a repeated key is read as the Python dict `response.json()` builds: the later value wins, at the key's first position (`Json.ToMap` for records, `Json.DictItems` for `dict[str, T]` fields).

## Model

| member | source | states |
|---|---|---|
| Json.ToMap | src/api/fmp_client.py:64 | the dict built from a list of pairs has exactly the pairs' keys |
| Json.ToMapAt | src/data_validation.py:28 | in the dict built from pairs, a key not repeated later holds its own pair's value |
| Json.DictItemsDict | src/stock_valuation_app/models/stock.py:13-17 | the items of a decoded object have each key once, the object's keys, and make the same dict as its pairs |
| Json.DictItemsLookup | src/stock_valuation_app/models/stock.py:13-17 | every key of the decoded dict is one item's key, and every item holds the last value given for its key |
| Json.DictItemsOfDistinct | src/stock_valuation_app/models/stock.py:13-17 | an object without repeated keys is decoded unchanged, in order |
| Utils.BuildEndpoints | src/utils.py:58-64 | one URL per metric kind, in kind order; the four plain kinds get `?apikey=`, the others `?period=annual&apikey=` |
| Utils.GatherResults | src/utils.py:44-70 | one response per URL, in URL order; a failed request is `None` at its own position only |
| Utils.Guard | src/utils.py:72-81 | "no data" exactly when the profile response is an empty list, an object whose first key is `Error Message`, or an empty object; otherwise the responses come back unchanged; an exception only when there are no kinds at all |
| Utils.GuardAsWritten | src/utils.py:72-81 | as written: an exception exactly when there are no kinds or the profile response is an empty object; "no data" exactly when it is an empty list or an object whose first key is `Error Message`; otherwise the responses unchanged |
| Utils.EmptyObjectCrashesGuard | src/utils.py:75-79 | as written, an empty object as profile response makes the guard raise |
| Utils.GuardAgreesWithWritten | src/utils.py:72-81 | where the written guard does not raise, the corrected guard gives the same verdict |
| Utils.GuardOnlyInspectsProfile | src/utils.py:73-81 | two response lists with the same profile response get the same verdict, whatever the later positions hold, `None` included |
| Utils.FetchData | src/utils.py:56-81 | `fetch_data` is the guard as written applied to the responses to the kinds' URLs, in order |
| Utils.DefaultEndpoints | src/utils.py:33-63 | the six default kinds give six URLs; the first four are plain, the last two annual |
| Utils.EndpointsDistinct | src/utils.py:58-64 | two different kinds without `/` have different URLs |
| Utils.DefaultUrlsDistinct | src/utils.py:33-64 | the six default URLs of a ticker are pairwise different |
| Utils.ResponsesInOrder | src/utils.py:66-70 | response `i` is the answer to the request for kind `i` |
| Utils.UnknownTickerNoData | src/utils.py:72-79 | an empty list or an error object as profile answer gives "no data", whatever the other answers are, with either guard |
| Utils.DefaultCrashesOnEmptyProfile | src/utils.py:73-79 | with the six default kinds the guard as written raises exactly when the profile answer is an empty object; the corrected guard never raises |
| Records.RenameAll | src/api/fmp_client.py:59-61 | renaming keeps the length and order of the labels and renames each label on its own |
| Records.RenameChangesOnlyListed | src/api/fmp_client.py:53-61 | exactly `rating`, `key-metrics`, `key-metrics-ttm` and `financial-growth` are renamed; every other label passes through |
| Records.RenameDefaultKinds | src/data_validation.py:19-25 | the table maps `rating`→`ratings`, `key-metrics`→`key_metrics`, `key-metrics-ttm`→`key_metrics_ttm`, `financial-growth`→`growth`, and leaves `profile` and `quote` alone |
| Records.RenameIdempotent | src/data_validation.py:19-25 | renaming a renamed label changes nothing |
| Records.RenamedDefaults | src/api/fmp_client.py:53-61 | the renamed default kinds are `profile, ratings, quote, key_metrics_ttm, key_metrics, growth` |
| Records.CanonicalLabelsDistinct | src/api/fmp_client.py:53-61 | the renamed default kinds are pairwise different |
| Records.CanonicalLabelsAreFields | src/stock_models.py:100-106 | the renamed default kinds are exactly the six field names of `CombinedModel` |
| Records.Zip | src/api/fmp_client.py:64 | `zip` pairs up to the shorter list, element `i` with element `i` |
| Records.OrNulls | src/data_validation.py:28 | a `None` response becomes a JSON null at the same position |
| Records.AssembleAt | src/api/fmp_client.py:64 | with distinct labels, label `i` holds value `i` |
| Records.AssembleKeys | src/api/fmp_client.py:64 | given values enough, the keys are exactly the labels |
| Records.CanonicalKeys | src/data_validation.py:28 | pairing the canonical labels with six values gives exactly the six labels as keys |
| Records.CanonicalLookups | src/data_validation.py:28 | in that pairing each canonical label holds the value at its own position |
| Records.DefaultRecords | src/data_validation.py:25-28 | from six default responses, `records` has exactly the six field names, each holding the response to its own request |
| Records.AssembledValidation | src/api/fmp_client.py:52-67 | the assembled set validates exactly when every response is a list of valid records of its kind's class; the dump holds each list's record dumps under the field name |
| ApiClient.AllResponses | src/api/fmp_client.py:45-50 | every request answered, in order, exactly when none failed |
| ApiClient.GatherAll | src/api/fmp_client.py:45-50 | the gathered responses, or a failure as soon as one request fails |
| ApiClient.NoneStaysNone | src/api/fmp_client.py:29-33 | a failed prefix of the requests fails the whole gather |
| ApiClient.FetchData | src/api/fmp_client.py:35-67 | `fetch_data` is either a request failure, the validation issues, or the dump of the renamed and zipped responses |
| ApiClient.FailedRequestAborts | src/api/fmp_client.py:29-33 | one failing request, wherever it is, aborts the whole fetch |
| ApiClient.DefaultFetch | src/api/fmp_client.py:63-67 | with every request answered, the result is valid exactly when each response is a list of valid records; the dump has the field names; an invalid set comes with at least one issue |
| ApiClient.StrictFetchIsLaxFetch | src/api/fmp_client.py:66-67 | a result the strict classes accept is exactly the result of the lax ones |
| DataValidation.ExtractStockData | src/data_validation.py:10-29 | the renamed and zipped responses of the fetch as written; "no data" and an exception escaping the fetch are separate outcomes |
| DataValidation.GetValidatedStockData | src/data_validation.py:36-55 | the collected-errors method computes the whole outcome of `get_validated_stock_data` on the fetch as written |
| DataValidation.AllOrNothing | src/data_validation.py:46-55 | a record set gives the whole dump exactly when it validates; otherwise it gives an error whose message is the header followed by `Failed validation: ` and the non-empty issues |
| DataValidation.SuccessHasCanonicalKeys | tests/test_data_validation.py:9-13 | a successful result has the keys `profile, quote, ratings, key_metrics_ttm, key_metrics, growth`, in that order |
| DataValidation.UnknownTickerGivesNoData | src/data_validation.py:13-28 | an unknown ticker ends in "no data", never in a validation error |
| DataValidation.RaisesOnEmptyProfile | src/data_validation.py:13 | an exception escapes the fetch exactly when the profile answer is an empty object |
| DataValidation.CorrectedNeverRaises | src/utils.py:72-79 | with the corrected guard nothing escapes: an empty profile object gives "no data", and every other input the outcome as written |
| DataValidation.PipelineValid | src/data_validation.py:36-55 | valid data comes back exactly when the profile answer is not the empty list and every response, with a failed request counting as null, is a list of valid records of its class |
| Validation.CheckValueCorrect | src/stock_valuation_app/models/stock.py:13-36 | a value passes its type check exactly when it conforms to the type, and then comes out converted |
| Validation.CheckListValueCorrect | src/stock_models.py:100-106 | the same, for a list type |
| Validation.CheckDictValueCorrect | src/stock_valuation_app/models/stock.py:13-17 | the same, for a `dict[str, T]` type |
| Validation.CheckModelValueCorrect | src/stock_valuation_app/models/stock.py:25 | the same, for a nested class |
| Validation.CheckListCorrect | src/stock_models.py:100-106 | a list passes exactly when every element does; its dump is the elements' dumps, in order |
| Validation.CheckEntriesCorrect | src/stock_valuation_app/models/stock.py:13-17 | a dict passes exactly when every value does; the keys are kept, in order |
| Validation.CheckFieldCorrect | src/stock_models.py:10-20 | one field passes exactly when its key is missing and it has a default, or its value is null and nullable, or its value conforms |
| Validation.ValidateFieldsCorrect | src/stock_models.py:17-28 | the fields pass exactly when each does; the dump has one converted entry per field |
| Validation.ValidateRecordCorrect | src/data_validation.py:47 | `Model(**m).model_dump()` succeeds exactly when every field conforms, and is then the reference dump |
| Validation.DumpHasCanonicalNames | src/stock_models.py:20-28 | the dump has one entry per declared field, under its canonical name, in declaration order |
| Validation.AcceptedHasRequiredKeys | src/stock_models.py:51-64 | an accepted record has every required key, and no null where the field is not nullable |
| Validation.NullConformsToNothing | src/stock_valuation_app/models/stock_models.py:52-64 | a null passes only through a field's nullability |
| Validation.ValidateFieldsReadsRawKeys | src/stock_models.py:17-28 | validation depends only on the values under the raw keys |
| Validation.ExtraKeyIgnored | src/stock_models.py:6-14 | adding a key the class does not read changes nothing |
| Validation.TypeRefinesReflexive | src/stock_valuation_app/models/stock_models.py:31-48 | every type refines itself |
| Validation.SchemaRefinesReflexive | src/stock_valuation_app/models/stock_models.py:5-13 | every class refines itself |
| Validation.ConformsRefines | src/stock_valuation_app/models/stock_models.py:51-64 | a value of a stricter type conforms to the laxer one, with the same conversion |
| Validation.FieldConformsRefines | src/stock_valuation_app/models/stock_models.py:16-27 | the same, for a field |
| Validation.RecordRefines | src/stock_valuation_app/models/stock_models.py:16-89 | the same, for a class |
| Validation.ValidateRefines | src/stock_valuation_app/models/stock_models.py:16-89 | whatever a stricter class accepts, the laxer one accepts too, with the same dump |
| Validation.ListOfModelsCorrect | src/stock_models.py:100-106 | a list of records passes exactly when every element is an object that its class accepts; its dump is the records' dumps |
| Validation.ModelListField | src/stock_models.py:100-106 | a required `list[Model]` field passes exactly when its key holds a list of valid records |
| Validation.ModelListRefines | src/stock_valuation_app/models/stock_models.py:93-99 | a list field of a stricter class refines the list field of the laxer one |
| Validation.DictConformsByMap | src/stock_valuation_app/models/stock.py:13-17 | a `dict[str, T]` value passes exactly when every value of the decoded dict conforms, a value overridden by a later repeated key not counted |
| Validation.DictConvertByMap | src/stock_valuation_app/models/stock.py:13-17 | the dump of a `dict[str, T]` value has each of the object's keys once, holding the converted last value given for it |
| Validation.DuplicateKeyLaterWins | src/stock_valuation_app/models/stock.py:13-17 | `{"a": "x", "a": 1}` is a valid `dict[str, float]`, dumped as `{"a": 1.0}` |
| Validation.ModelConforms | src/stock_valuation_app/models/stock.py:25 | a nested class field passes exactly when its value is an object the class accepts |
| StockModels.CompanyProfileConforms | src/stock_models.py:6-14 | the profile class accepts exactly: `symbol`, `beta`, `range` and `companyName` present and not null; the other four keys missing, null or strings |
| StockModels.CompanyProfileAccepts | src/stock_models.py:6-14 | validation succeeds on exactly those inputs |
| StockModels.CompanyProfileValue | src/stock_models.py:6-14 | the reference dump of such an input, field by field |
| StockModels.CompanyProfileDump | src/stock_models.py:6-14 | `companyName` comes out as `company_name`, an integer `beta` as a float, a missing optional key as `None` |
| StockModels.QuoteConforms | src/stock_models.py:17-28 | the quote class accepts exactly: `changesPercentage`, `avgVolume`, `eps`, `pe` present but possibly null; every other key present and not null |
| StockModels.QuoteAccepts | src/stock_models.py:17-28 | validation succeeds on exactly those inputs |
| StockModels.QuoteValue | src/stock_models.py:17-28 | the reference dump of such an input, field by field |
| StockModels.QuoteDump | tests/test_stock_models.py:12-51 | aliased keys come out under their field names; `float` fields turn integers into floats, `vol_avg` keeps them; a null stays `None` |
| StockModels.OptionalKindsDiffer | src/stock_models.py:11-20 | a profile without `sector` is accepted and dumps `sector` as `None`; a quote without `changesPercentage` is rejected |
| StockModels.RatingsConforms | src/stock_models.py:31-48 | the ratings class accepts exactly the objects with all seventeen keys present and not null, scores integers and the rest strings |
| StockModels.RatingsAccepts | src/stock_models.py:31-48 | validation succeeds on exactly those inputs |
| StockModels.RatingsValue | src/stock_models.py:31-48 | the reference dump of such an input, field by field |
| StockModels.RatingsDump | tests/test_stock_models.py:55-81 | `ratingScore` comes out as `score`, `ratingDetailsDCFScore` as `dcf_score`, and so on for all seventeen |
| StockModels.KeyMetricsTTMConforms | src/stock_models.py:51-64 | the TTM class accepts exactly the objects with all thirteen keys present, each null or a number |
| StockModels.KeyMetricsTTMAccepts | src/stock_models.py:51-64 | validation succeeds on exactly those inputs |
| StockModels.KeyMetricsTTMValue | src/stock_models.py:51-64 | the reference dump of such an input, field by field |
| StockModels.KeyMetricsTTMDump | src/stock_models.py:51-64 | each of the thirteen figures under its field name, an integer as a float, a null as `None` |
| StockModels.KeyMetricsTTMHasNoSymbolOrDate | src/stock_models.py:51-64 | the TTM class has neither a `symbol` nor a `date` field |
| StockModels.KeyMetricsConforms | src/stock_models.py:67-75 | the annual metrics class accepts exactly: `symbol` and `date` strings, six keys present and null or numbers |
| StockModels.KeyMetricsAccepts | src/stock_models.py:67-75 | validation succeeds on exactly those inputs |
| StockModels.KeyMetricsValue | src/stock_models.py:67-75 | the reference dump of such an input, field by field |
| StockModels.KeyMetricsDump | src/stock_models.py:67-75 | `symbol` and `date` as given, the six figures under their field names as floats or `None` |
| StockModels.GrowthConforms | src/stock_models.py:78-97 | the growth class accepts exactly: `symbol` and `date` strings, nine keys present and null or numbers |
| StockModels.GrowthAccepts | src/stock_models.py:78-97 | validation succeeds on exactly those inputs |
| StockModels.GrowthValue | src/stock_models.py:78-97 | the reference dump of such an input, field by field |
| StockModels.GrowthDump | src/stock_models.py:78-97 | `symbol` and `date` as given, the nine figures under their field names as floats or `None` |
| StockModels.CombinedModelNames | src/stock_models.py:100-106 | the combined model's fields, in declaration order |
| StockModels.CombinedModelConforms | src/stock_models.py:100-106 | the combined model accepts exactly the sets whose six keys hold lists of valid records of their classes |
| StockModels.CombinedModelAccepts | src/stock_models.py:100-106 | validation succeeds on exactly those sets |
| StockModels.CombinedModelDump | src/stock_models.py:100-106 | the dump holds, under the six field names, the dump of every record of every list, in list order |
| StrictStockModels.QuoteConforms | src/stock_valuation_app/models/stock_models.py:16-27 | the strict quote class accepts exactly: `avgVolume` a present integer, `eps`, `pe` present numbers, only `changesPercentage` nullable |
| StrictStockModels.QuoteAccepts | src/stock_valuation_app/models/stock_models.py:16-27 | validation succeeds on exactly those inputs |
| StrictStockModels.KeyMetricsTTMConforms | src/stock_valuation_app/models/stock_models.py:51-64 | the strict TTM class accepts exactly the objects with all thirteen keys holding numbers |
| StrictStockModels.KeyMetricsTTMAccepts | src/stock_valuation_app/models/stock_models.py:51-64 | validation succeeds on exactly those inputs |
| StrictStockModels.KeyMetricsConforms | src/stock_valuation_app/models/stock_models.py:67-75 | `symbol` and `date` strings plus six numbers |
| StrictStockModels.KeyMetricsAccepts | src/stock_valuation_app/models/stock_models.py:67-75 | validation succeeds on exactly those inputs |
| StrictStockModels.GrowthConforms | src/stock_valuation_app/models/stock_models.py:78-89 | `symbol` and `date` strings plus nine numbers |
| StrictStockModels.GrowthAccepts | src/stock_valuation_app/models/stock_models.py:78-89 | validation succeeds on exactly those inputs |
| StrictStockModels.QuoteDump | src/stock_valuation_app/models/stock_models.py:16-27 | an accepted strict quote dumps as the lax one: `vol_avg` as given, `eps` and `pe` as floats, aliased keys under their field names |
| StrictStockModels.KeyMetricsTTMDump | src/stock_valuation_app/models/stock_models.py:51-64 | accepted strict TTM metrics dump as the lax ones, every figure a float |
| StrictStockModels.KeyMetricsDump | src/stock_valuation_app/models/stock_models.py:67-75 | accepted strict annual metrics dump as the lax ones |
| StrictStockModels.GrowthDump | src/stock_valuation_app/models/stock_models.py:78-89 | accepted strict growth figures dump as the lax ones |
| StrictStockModels.QuoteRefines | src/stock_valuation_app/models/stock_models.py:16-27 | the strict quote has the lax quote's names and aliases, and only narrows it |
| StrictStockModels.KeyMetricsTTMRefines | src/stock_valuation_app/models/stock_models.py:51-64 | the strict TTM metrics only drop the lax class's nulls |
| StrictStockModels.KeyMetricsRefines | src/stock_valuation_app/models/stock_models.py:67-75 | the strict annual metrics only drop the lax class's nulls |
| StrictStockModels.GrowthRefines | src/stock_valuation_app/models/stock_models.py:78-89 | the strict growth figures only drop the lax class's nulls |
| StrictStockModels.CombinedModelRefines | src/stock_valuation_app/models/stock_models.py:93-99 | the strict combined model refines the lax one, field by field |
| StrictStockModels.StrictAcceptedByLax | src/stock_valuation_app/models/stock_models.py:16-99 | whatever the strict combined model accepts, the lax one accepts too, with the same dump |
| StrictStockModels.NullEpsSplitsVariants | src/stock_valuation_app/models/stock_models.py:24-25 | a quote with a null `eps` passes the lax class and fails the strict one |
| StrictStockModels.FloatVolumeSplitsVariants | src/stock_valuation_app/models/stock_models.py:23 | a quote with a non-integral float `avgVolume` passes the lax `int \| float` and fails the strict `int` |
| StockSchema.FinancialDataConforms | src/stock_valuation_app/models/stock.py:5-10 | a period is accepted exactly when its four amounts are numbers and `date` a string |
| StockSchema.FinancialDataAccepts | src/stock_valuation_app/models/stock.py:5-10 | validation succeeds on exactly those inputs |
| StockSchema.FinancialDataValue | src/stock_valuation_app/models/stock.py:5-10 | the reference dump of such a period |
| StockSchema.FinancialDataDump | src/stock_valuation_app/models/stock.py:5-10 | the amounts come out as floats |
| StockSchema.GrowthRatesConforms | src/stock_valuation_app/models/stock.py:13-17 | accepted exactly when each of the four keys holds an object of numbers |
| StockSchema.GrowthRatesAccepts | src/stock_valuation_app/models/stock.py:13-17 | validation succeeds on exactly those inputs |
| StockSchema.GrowthRatesValue | src/stock_valuation_app/models/stock.py:13-17 | the reference dump of such an input |
| StockSchema.GrowthRatesDump | src/stock_valuation_app/models/stock.py:13-17 | each of the four series converted as a `dict[str, float]` under its own name |
| StockSchema.StockValuationConforms | src/stock_valuation_app/models/stock.py:20-27 | accepted exactly with `dividend_yield` missing, null or a number, a valid nested `growth_rates`, and the other keys present with their types |
| StockSchema.StockValuationAccepts | src/stock_valuation_app/models/stock.py:20-27 | validation succeeds on exactly those inputs |
| StockSchema.StockValuationValue | src/stock_valuation_app/models/stock.py:20-27 | the reference dump of such an input |
| StockSchema.StockValuationDump | src/stock_valuation_app/models/stock.py:20-27 | the price and P/E as floats, a missing or null dividend yield as `None`, the nested growth rates as their own dump, the flags as given |
| StockSchema.StockConforms | src/stock_valuation_app/models/stock.py:30-36 | accepted exactly with `sector`, `industry` and `valuation` optional, and every element of `financial_data` a valid period |
| StockSchema.StockAccepts | src/stock_valuation_app/models/stock.py:30-36 | validation succeeds on exactly those inputs |
| StockSchema.StockValue | src/stock_valuation_app/models/stock.py:30-36 | the reference dump of such a stock |
| StockSchema.StockDump | src/stock_valuation_app/models/stock.py:30-36 | the periods are dumped one by one; `valuation` is `None` unless one was given, and then its dump |
| StockSchema.ExamplePeriodValid | src/stock_valuation_app/models/stock.py:46-52 | the example's period, with integer amounts, is a valid `FinancialData` |
| StockSchema.ExamplePeriod | src/stock_valuation_app/models/stock.py:45-53 | the example's `financial_data` is a list of valid periods |
| StockSchema.ExampleInput | src/stock_valuation_app/models/stock.py:38-55 | the example has every key a stock needs, and no `valuation` |
| StockSchema.ExampleValidates | src/stock_valuation_app/models/stock.py:38-55 | the example validates as a `Stock`, with six dumped fields and `valuation` as `None` |

## Left out

- HTTP and concurrency: `httpx` requests, `asyncio.create_task` and `asyncio.gather` are a fetch oracle applied to the URLs in order. Scheduling, cancellation and timeouts are not modelled.
- Logging in `get_data` (src/utils.py:53) is left out, because it does not change the result.
- Configuration: the base URL and API key are plain parameters instead of settings. In src/api/fmp_client.py:16-17, `field(default_factory=settings.base_url)` would call a string; configuration loading is not part of this model.
- The import `from models.stock_models import CombinedModel` in src/api/fmp_client.py:9 does not say which of the two classes it means. ApiClient.FetchData therefore takes the combined schema as a parameter; its lemmas cover the lax schema, and StrictFetchIsLaxFetch covers the strict one.
- ApiClient.FetchData: a failing request is one outcome, `RequestFailed`; the exception's type and the partial state of the other requests are not modelled.
- DataValidation.ExtractStockData, DataValidation.GetValidatedStockData: when the client reports no data, the source's `zip` over `None` raises a `TypeError`. The model gives "no data" as its own outcome (`NoStockData`, then `NoTickerData`), not as an exception.
- Pydantic's exact error text is not modelled. `Validation.Render` lays out the issue count, the class name, and one location line and one message line per issue, as pydantic does, but the wording of each message is the model's own. DataValidation.AllOrNothing states the header and the `Failed validation: ` prefix, which come from src/data_validation.py itself.
- Lax coercions other than integer to float (numeric strings, a float with zero fraction for an `int`) are not modelled.
- StrictStockModels.FloatVolumeSplitsVariants: pydantic's lax `int` accepts a float with a zero fractional part, so the lemma is stated only for an `avgVolume` float with a fractional part. StrictStockModels.QuoteConforms and QuoteAccepts reject a whole-float `avgVolume`, such as `55000000.0`, which the source accepts and dumps as an integer.
- Re-validating a dump is not claimed to be idempotent: aliased fields read only the alias key, and the dump uses canonical names.
- The UI (src/app.py and the other dashboards), the analysis services, the FastAPI routes and the other data client are not part of this model.

## Findings

| source | as written | input that shows it | evidently intended | confidence | as-written member | corrected member |
|---|---|---|---|---|---|---|
| src/utils.py:75-79 | `list(results[0].keys())[0] == "Error Message"` indexes the first key of the profile response | a profile response `{}` (an empty object) raises `IndexError` instead of returning `None` | an empty object, like an empty list, means "no data" | not executed | Utils.EmptyObjectCrashesGuard | Utils.Guard |

The pipeline members (`Utils.FetchData`, `DataValidation.ExtractStockData`, `DataValidation.GetValidatedStockData`) use the guard as written, and `DataValidation.RaisesOnEmptyProfile` states when it raises. `DataValidation.CorrectedStockData` is the same pipeline on the corrected guard; `DataValidation.CorrectedNeverRaises` proves that it never raises and agrees with the pipeline as written everywhere else.
