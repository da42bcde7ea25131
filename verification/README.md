# DefaultDataService, modelled in Dafny

This project models the request-planning layer of `DefaultDataService<T>`. That is
the generic per-entity REST data service of the entity-data library
(`lib/src/default-data.service.ts`). A service is a value fixed by its
constructor. It holds:

- its name, `"<entity> DefaultDataService"`;
- the two resource URLs;
- the delay stage for GET, the delay stage for saves, and a timeout stage.

Each CRUD operation (`add`, `delete`, `getAll`, `getById`, `getWithQuery`, `update`)
feeds `execute`. The model gives back a `Plan`, which is one of:

- `Rejected`: an already-failed observable. This is either a validation error
  wrapped as a `DataServiceError`, or the plain `Error` for an unknown method.
  No HTTP call is made.
- `ThrowsTypeError`: a `PUT` whose data is null or undefined. The destructuring
  `const {id, changes} = data` throws synchronously.
- `Call`: one HTTP request (method, URL, body, options), the response mapping
  (as is, or the `PUT` merge) and the delay and timeout stages it goes through.

`Settle` plays a transport result through a plan. On a response it applies the
`PUT` merge. On a failure it wraps the failure with `handleError` into a
`DataServiceError` carrying `{method, url, options}`.

JavaScript values are modelled as a `Value` datatype in the module `JsValues`.
It has JavaScript truthiness, the loose `== null` test, property reads and object
spread. Spreading a string or an array yields index keys `"0"`, `"1"`, …, and
`entityUrl + key` renders a numeric key, taken to be a safe integer, in decimal. Both of these rely on the
decimal rendering in the module `Decimal`. That rendering is proved injective
through its parsing inverse.

Modules: `Wrappers` (Option), `Decimal`, `JsValues`, `DefaultDataService` (the
service and its operations) and `DataServiceProperties` (lemmas that span
several operations).

Three behaviours of the code that are easy to miss:

- An unrecognised method fails with a plain `Error('Unimplemented HTTP method, ' + method)`.
  It is not wrapped in a `DataServiceError` (lines 134-137).
- `delete`, `getById` and `update` build their URL before validating. So a
  null or undefined key still yields a URL, `entityUrl + "null"` or
  `entityUrl + "undefined"`. That URL is what the error's `requestData`
  records (lines 62-65, 74-77, 87-91).
- `add` rejects every falsy entity (`entity || new Error(...)`), not only a
  missing one. So `0`, `""` and `false` are rejected too (line 56).

## Model

| member | source | states |
|---|---|---|
| `DefaultDataService.Construct` | lib/src/default-data.service.ts:37-53 | the name is the entity name followed by " DefaultDataService"; both URLs come from the URL generator with the defaulted root; each stage is the configured delay or timeout, and no config means every stage is disabled |
| `DefaultDataService.Root` | lib/src/default-data.service.ts:45-47 | the root is never empty; it is the configured `api` when that is non-empty, and 'api' otherwise |
| `DefaultDataService.DelayFor` | lib/src/default-data.service.ts:50-51 | a delay stage is disabled exactly when its configured value is absent or 0; otherwise it delays by that value |
| `DefaultDataService.TimeoutFor` | lib/src/default-data.service.ts:52 | the timeout stage is disabled exactly when the configured timeout is absent or 0 |
| `DataServiceProperties.MissingConfigIsDefault` | lib/src/default-data.service.ts:45-52 | no config, an empty config and a config of explicit '' and 0 all build the same service: root 'api', no delays, no timeout |
| `DataServiceProperties.ApiUsedVerbatim` | lib/src/default-data.service.ts:46-49 | a non-empty `api` is passed unchanged to the URL generator as the root |
| `DefaultDataService.Add` | lib/src/default-data.service.ts:55-58 | the plan is rejected exactly when the entity is falsy, with a validation error recording POST and the entity URL; otherwise it is a POST of the entity to the entity URL through the save delay |
| `DefaultDataService.Delete` | lib/src/default-data.service.ts:60-66 | rejected exactly when the key is null or undefined, with requestData DELETE on `entityUrl + key`; otherwise a DELETE without body on `entityUrl + key` through the save delay |
| `DefaultDataService.GetAll` | lib/src/default-data.service.ts:68-70 | always a GET without body on the collection URL through the GET delay |
| `DefaultDataService.GetById` | lib/src/default-data.service.ts:72-78 | rejected exactly when the key is null or undefined, with requestData GET on `entityUrl + key`; otherwise a GET on `entityUrl + key` through the GET delay |
| `DefaultDataService.GetWithQuery` | lib/src/default-data.service.ts:80-84 | always a GET on the collection URL whose response passes through unchanged, through the GET delay; a string query initialises the parameters with `fromString`, anything else with `fromObject` |
| `DefaultDataService.Update` | lib/src/default-data.service.ts:86-92 | rejected exactly when the update is null or undefined or its id is (the helper `UpdateId` gives `update && update.id`), with requestData PUT on `entityUrl + id`; otherwise a PUT of the changes alone to `entityUrl + id`, with the merge of the response pending, through the save delay |
| `DefaultDataService.Execute` | lib/src/default-data.service.ts:94-139 | a pre-built Error wins over everything, including an unknown method; the four known methods plan a call with the given method, URL and options; only POST and PUT send a body, and PUT sends only `changes`; the delay is the GET delay for GET and the save delay otherwise; null or undefined PUT data throws; any other method fails with 'Unimplemented HTTP method, ' + method (the helper `DelayOf` picks the stage, and `JsValues.Member` reads `id` and `changes` out of the PUT data) |
| `DefaultDataService.Settle` | lib/src/default-data.service.ts:102-133 | a plan that makes no call ignores the transport; a transport failure becomes a DataServiceError carrying the planned method, URL and options; a response passes through unchanged, or, for PUT, is merged into the update as `MergeUpdated` states |
| `DefaultDataService.MergeUpdated` | lib/src/default-data.service.ts:126-131 | the result has exactly the fields `id` and `changes`; `id` is unchanged; the merged changes hold the union of the keys, the server's value wins on every key it returned, and every other original key keeps its value |
| `DataServiceProperties.DelaySelection` | lib/src/default-data.service.ts:50-52 | a planned GET goes through the configured GET delay and every other method through the save delay; each stage is a pass-through exactly when configured absent or 0, and so is the timeout |
| `DataServiceProperties.FailuresCarryTheRequest` | lib/src/default-data.service.ts:100-109 | for a known method, every failure, from validation or from the transport, is a DataServiceError whose requestData is exactly the method, URL and options of the request |
| `DataServiceProperties.TransportFailureIsWrapped` | lib/src/default-data.service.ts:141-145 | a transport failure of a planned call becomes, through the helper `HandleError`, a DataServiceError holding that failure and the planned request |
| `DataServiceProperties.LocalFailureIgnoresTransport` | lib/src/default-data.service.ts:102-104 | a plan that fails locally gives the same outcome whatever the transport would have done |
| `DataServiceProperties.UnknownMethodRejected` | lib/src/default-data.service.ts:134-137 | for a payload that is not a pre-built Error, a method outside DELETE, GET, POST and PUT fails with the plain 'Unimplemented HTTP method, ' error whatever the transport does |
| `DataServiceProperties.UpdateMergesServerFields` | lib/src/default-data.service.ts:125-131 | a successful update emits the original id, the server's value for every key it returned, and the original value for every other original key, over the union of both key sets |
| `DataServiceProperties.UpdateWithEmptyResponse` | lib/src/default-data.service.ts:130 | a null response emits the update exactly as it was sent |
| `DataServiceProperties.DistinctNumericKeysDistinctUrls` | lib/src/default-data.service.ts:65 | different numeric keys give different URLs for getById, delete and update |
| `DefaultDataService.NumericKeysRenderDistinctly` | lib/src/default-data.service.ts:62-65 | through the helper `KeyString` (the JavaScript string of a key), different numeric keys give different URL suffixes, and no numeric key gives the "null" or "undefined" suffix of a missing key |
| `Decimal.NatToString` | lib/src/default-data.service.ts:65 | the decimal numeral of a number: non-empty, digits only, no leading zero unless the number is 0, a single digit exactly below 10 |
| `Decimal.IntToString` | lib/src/default-data.service.ts:65 | a negative number is a minus sign followed by the numeral of its absolute value; a non-negative one is its numeral |
| `Decimal.ParseNatToString` | lib/src/default-data.service.ts:65 | reading a numeral back gives the number it was rendered from |
| `Decimal.IntToStringInjective` | lib/src/default-data.service.ts:65 | different integers render differently |
| `JsValues.Spread` | lib/src/default-data.service.ts:130 | spreading an object copies its fields; a string or array gives one index key per element, holding that element, and no other key; null, undefined, booleans and numbers give nothing |
| `JsValues.IndexMap` | lib/src/default-data.service.ts:130 | every index has its element under its decimal key, and there are no other keys |

## Left out

- The `HttpClient` calls and the timing of the rxjs `delay` and `timeout` operators. These are I/O and wall-clock time. The model records which stage a request goes through; what the transport delivered, a timeout error included, is an input to `Settle`.
- `HttpUrlGenerator.entityResource` and `collectionResource` (http-url-generator is not part of this model). They are parameters of `Construct`, and the two URLs are opaque strings.
- The `HttpParams` construction in `getWithQuery`. It belongs to a foreign library; the model records only the `fromString`/`fromObject` choice.
- `DefaultDataServiceFactory`. It is dependency-injection wiring: its constructor only reassigns a parameter, and `create` forwards to the constructor.
- The save-entities effect and its test harness (`lib/src/effects/entity-cache-effects.spec.ts`). The effect's source is not part of this model, and what the test checks is an asynchronous race between completion and cancellation.
- `DataServiceError`'s own constructor (interfaces is not part of this model). It is modelled as a record of the underlying error and the request data.
- JavaScript numbers are modelled as integers: floating point, `NaN` and `-0` are not represented.
- Decimal.IntToString: numeric keys are taken to be safe integers (|n| <= 2^53 - 1). JavaScript renders larger numbers differently: above 2^53 with the shortest round-trip digits padded with zeros, and from 1e21 on in exponent form ("1e+21"); the model renders every integer exactly.
- JsValues.Spread: JavaScript spreads a string by UTF-16 code unit, while a Dafny `char` is a Unicode scalar value; a string holding characters outside the Basic Multilingual Plane (such as an emoji) gets one key per character in the model but two per such character in JavaScript.
- JsValues.Member: properties reached through prototypes (such as a string's `length`), getters and symbol keys are not modelled; reading a property of a non-object gives undefined.
- The message of the TypeError thrown by destructuring null or undefined `PUT` data is engine-specific and is not modelled.
- Configuration fields are typed (`api` a string, delays and timeout integers); a value of another type in the configuration is not modelled.
