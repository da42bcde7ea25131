/**
 * DefaultDataService: the generic per-entity REST data service.
 *
 * The service is a value fixed by its constructor. Each CRUD operation yields a
 * `Plan`: either an already-failed result (local validation, unknown method), a
 * synchronous TypeError, or one HTTP call together with the pipeline stages that
 * follow it. `Settle` plays a transport result through a plan's pipeline. The
 * HTTP client, the URL generator and the timing of the delay and timeout stages
 * are outside the model: the two resource URLs and the transport result are
 * inputs.
 */
module DefaultDataService {
  import opened Wrappers
  import opened Decimal
  import opened JsValues

  /** EntityDataServiceConfig; a field that is undefined or null is None. */
  datatype Config = Config(api: Option<string>, getDelay: Option<int>, saveDelay: Option<int>, timeout: Option<int>)

  /** The `delay(ms)` stage, or the pass-through `noDelay`. */
  datatype DelayStage = NoDelay | DelayBy(ms: int)

  /** The `timeout(ms)` stage, or the pass-through `noDelay`. */
  datatype TimeoutStage = NoTimeout | TimeoutAfter(ms: int)

  datatype Service = Service(
    name: string,
    entityName: string,
    entityUrl: string,
    entitiesUrl: string,
    getDelay: DelayStage,
    saveDelay: DelayStage,
    timeout: TimeoutStage)

  /** A key as callers pass it: `number | string`, or null/undefined at run time. */
  datatype Key = UndefinedKey | NullKey | NumKey(n: int) | StrKey(s: string)

  /** The argument of `update`: an `Update<T>` record, or null/undefined at run time. */
  datatype UpdateArg = UndefinedUpdate | NullUpdate | UpdateOf(id: Key, changes: map<string, Value>)

  /** The `HttpParams` initialiser that `getWithQuery` chooses. */
  datatype ParamsInit = FromString(query: string) | FromObject(params: Value)

  /** The `options` argument of `execute`. */
  datatype Options = NoOptions | WithParams(params: ParamsInit)

  /** The `data` argument of `execute`: a payload, or a pre-built validation Error. */
  datatype Payload = Data(value: Value) | Fault(message: string)

  /** RequestData: what was attempted. */
  datatype RequestData = RequestData(httpMethod: string, url: string, options: Options)

  /** The underlying failure a DataServiceError carries. */
  datatype Cause = ValidationError(message: string) | TransportError(detail: Value)

  /** What an operation's observable fails with. */
  datatype ServiceError =
    | DataServiceError(error: Cause, requestData: RequestData)
    | PlainError(message: string)

  datatype HttpRequest = HttpRequest(httpMethod: string, url: string, body: Option<Value>, options: Options)

  /** What happens to a successful response before the delay stage. */
  datatype ResponseMap = AsIs | MergeUpdate(id: Value, changes: Value)

  datatype Plan =
    | Rejected(error: ServiceError)
    | ThrowsTypeError
    | Call(request: HttpRequest, respond: ResponseMap, delay: DelayStage, timeout: TimeoutStage)

  /** What the transport (HTTP call, delay and timeout stages) delivered. */
  datatype TransportResult = Responded(body: Value) | TransportFailed(detail: Value)

  datatype Outcome = Emitted(value: Value) | Failed(error: ServiceError) | Thrown

  const KnownMethods: set<string> := {"DELETE", "GET", "POST", "PUT"}

  // ---------------------------------------------------------------- constructor

  /** The URL root: a non-empty `api`, otherwise 'api'. */
  function Root(config: Option<Config>): (root: string)
    ensures root != ""
    ensures root == "api" || (config.Some? && config.value.api == Some(root))
    ensures config.Some? && config.value.api.Some? && config.value.api.value != "" ==> root == config.value.api.value
  {
    if config.Some? && config.value.api.Some? && config.value.api.value != "" then config.value.api.value else "api"
  }

  /** A configured delay: 0 or absent disables the stage. */
  function DelayFor(ms: Option<int>): (stage: DelayStage)
    ensures stage == NoDelay <==> ms == None || ms == Some(0)
    ensures stage.DelayBy? ==> ms == Some(stage.ms) && stage.ms != 0
  {
    if ms.Some? && ms.value != 0 then DelayBy(ms.value) else NoDelay
  }

  /** A configured timeout: 0 or absent disables the stage. */
  function TimeoutFor(ms: Option<int>): (stage: TimeoutStage)
    ensures stage == NoTimeout <==> ms == None || ms == Some(0)
    ensures stage.TimeoutAfter? ==> ms == Some(stage.ms) && stage.ms != 0
  {
    if ms.Some? && ms.value != 0 then TimeoutAfter(ms.value) else NoTimeout
  }

  /**
   * The constructor. `entityResource` and `collectionResource` stand for the
   * URL generator's two methods, each given the entity name and the root.
   */
  function Construct(
    entityName: string,
    config: Option<Config>,
    entityResource: (string, string) -> string,
    collectionResource: (string, string) -> string): (s: Service)
    ensures s.name == entityName + " DefaultDataService"
    ensures s.entityName == entityName
    ensures s.entityUrl == entityResource(entityName, Root(config))
    ensures s.entitiesUrl == collectionResource(entityName, Root(config))
    ensures config.None? ==> s.getDelay == NoDelay && s.saveDelay == NoDelay && s.timeout == NoTimeout
    ensures config.Some? ==> s.getDelay == DelayFor(config.value.getDelay)
    ensures config.Some? ==> s.saveDelay == DelayFor(config.value.saveDelay)
    ensures config.Some? ==> s.timeout == TimeoutFor(config.value.timeout)
  {
    var c := if config.Some? then config.value else Config(None, None, None, None);
    var root := Root(Some(c));
    Service(
      entityName + " DefaultDataService",
      entityName,
      entityResource(entityName, root),
      collectionResource(entityName, root),
      DelayFor(c.getDelay),
      DelayFor(c.saveDelay),
      TimeoutFor(c.timeout))
  }

  // ---------------------------------------------------------------- execute

  /** `{ id, changes: { ...changes, ...updated } }`: the update with the server's fields merged in. */
  function MergeUpdated(id: Value, changes: Value, updated: Value): (r: Value)
    ensures r.Obj? && r.fields.Keys == {"id", "changes"}
    ensures r.fields["id"] == id
    ensures r.fields["changes"].Obj?
    ensures r.fields["changes"].fields.Keys == Spread(changes).Keys + Spread(updated).Keys
    ensures forall k :: k in Spread(updated) ==> r.fields["changes"].fields[k] == Spread(updated)[k]
    ensures forall k :: k in Spread(changes) && k !in Spread(updated) ==> r.fields["changes"].fields[k] == Spread(changes)[k]
  {
    Obj(map["id" := id, "changes" := Obj(Spread(changes) + Spread(updated))])
  }

  /** The delay stage a request of this HTTP method goes through. */
  function DelayOf(s: Service, httpMethod: string): DelayStage
  {
    if httpMethod == "GET" then s.getDelay else s.saveDelay
  }

  /**
   * `execute(method, url, data, options)`: a pre-built Error short-circuits to a
   * wrapped failure before anything else; otherwise the HTTP method picks the call.
   */
  function Execute(s: Service, httpMethod: string, url: string, data: Payload, options: Options): (p: Plan)
    ensures data.Fault? ==> p == Rejected(DataServiceError(ValidationError(data.message), RequestData(httpMethod, url, options)))
    ensures data.Data? && httpMethod !in KnownMethods ==> p == Rejected(PlainError("Unimplemented HTTP method, " + httpMethod))
    ensures p.ThrowsTypeError? <==> data.Data? && httpMethod == "PUT" && Nullish(data.value)
    ensures p.Call? <==> data.Data? && httpMethod in KnownMethods && !(httpMethod == "PUT" && Nullish(data.value))
    ensures p.Call? ==> p.request.httpMethod == httpMethod && p.request.url == url && p.request.options == options
    ensures p.Call? ==> p.delay == (if httpMethod == "GET" then s.getDelay else s.saveDelay) && p.timeout == s.timeout
    ensures p.Call? && httpMethod in {"DELETE", "GET"} ==> p.request.body == None && p.respond == AsIs
    ensures p.Call? && httpMethod == "POST" ==> p.request.body == Some(data.value) && p.respond == AsIs
    ensures p.Call? && httpMethod == "PUT" ==>
      p.request.body == Some(Member(data.value, "changes")) &&
      p.respond == MergeUpdate(Member(data.value, "id"), Member(data.value, "changes"))
  {
    var req := RequestData(httpMethod, url, options);
    match data
    case Fault(message) => Rejected(DataServiceError(ValidationError(message), req))
    case Data(v) =>
      var delay := DelayOf(s, httpMethod);
      if httpMethod == "DELETE" then Call(HttpRequest(httpMethod, url, None, options), AsIs, delay, s.timeout)
      else if httpMethod == "GET" then Call(HttpRequest(httpMethod, url, None, options), AsIs, delay, s.timeout)
      else if httpMethod == "POST" then Call(HttpRequest(httpMethod, url, Some(v), options), AsIs, delay, s.timeout)
      else if httpMethod == "PUT" then
        if Nullish(v) then ThrowsTypeError
        else
          var id, changes := Member(v, "id"), Member(v, "changes");
          Call(HttpRequest(httpMethod, url, Some(changes), options), MergeUpdate(id, changes), delay, s.timeout)
      else Rejected(PlainError("Unimplemented HTTP method, " + httpMethod))
  }

  /** `handleError(reqData)(err)`: wrap a failure with the request that produced it. */
  function HandleError(req: RequestData, err: Cause): ServiceError
  {
    DataServiceError(err, req)
  }

  /**
   * Runs a plan's pipeline on what the transport delivered: the PUT merge on
   * success, then `catchError(handleError(req))` on failure. A plan that makes
   * no call ignores the transport.
   */
  function Settle(p: Plan, t: TransportResult): (o: Outcome)
    ensures p.Rejected? ==> o == Failed(p.error)
    ensures p.ThrowsTypeError? ==> o == Thrown
    ensures p.Call? && t.TransportFailed? ==>
      o == Failed(DataServiceError(TransportError(t.detail), RequestData(p.request.httpMethod, p.request.url, p.request.options)))
    ensures p.Call? && t.Responded? && p.respond.AsIs? ==> o == Emitted(t.body)
    ensures p.Call? && t.Responded? && p.respond.MergeUpdate? ==> o == Emitted(MergeUpdated(p.respond.id, p.respond.changes, t.body))
  {
    match p
    case Rejected(e) => Failed(e)
    case ThrowsTypeError => Thrown
    case Call(request, respond, _, _) =>
      match t
      case TransportFailed(detail) =>
        Failed(HandleError(RequestData(request.httpMethod, request.url, request.options), TransportError(detail)))
      case Responded(body) =>
        match respond
        case AsIs => Emitted(body)
        case MergeUpdate(id, changes) => Emitted(MergeUpdated(id, changes, body))
  }

  // ---------------------------------------------------------------- operations

  /** `entityUrl + key`: JavaScript string concatenation with the key. */
  function KeyString(key: Key): string
  {
    match key
    case UndefinedKey => "undefined"
    case NullKey => "null"
    case NumKey(n) => IntToString(n)
    case StrKey(s) => s
  }

  predicate NullishKey(key: Key) {
    key.UndefinedKey? || key.NullKey?
  }

  /**
   * A numeric key names one resource: different numbers give different URL
   * suffixes, and none of them reads as a null or undefined key.
   */
  lemma NumericKeysRenderDistinctly(a: int, b: int)
    ensures a != b ==> KeyString(NumKey(a)) != KeyString(NumKey(b))
    ensures KeyString(NumKey(a)) != KeyString(NullKey)
    ensures KeyString(NumKey(a)) != KeyString(UndefinedKey)
  {
    if a != b {
      IntToStringInjective(a, b);
    }
    var r := KeyString(NumKey(a));
    assert r[0] == '-' || IsDigit(r[0]);
  }

  function KeyValue(key: Key): (v: Value)
    ensures Nullish(v) <==> NullishKey(key)
  {
    match key
    case UndefinedKey => Undefined
    case NullKey => Null
    case NumKey(n) => Num(n)
    case StrKey(s) => Str(s)
  }

  function NoEntity(s: Service, what: string): string {
    "No \"" + s.entityName + "\" " + what
  }

  /** `add(entity)`: POST the entity to the entity URL; a falsy entity fails locally. */
  function Add(s: Service, entity: Value): (p: Plan)
    ensures p.Rejected? <==> !Truthy(entity)
    ensures !Truthy(entity) ==>
      p.error == DataServiceError(ValidationError(NoEntity(s, "entity to add")), RequestData("POST", s.entityUrl, NoOptions))
    ensures Truthy(entity) ==>
      p == Call(HttpRequest("POST", s.entityUrl, Some(entity), NoOptions), AsIs, s.saveDelay, s.timeout)
  {
    var entityOrError := if Truthy(entity) then Data(entity) else Fault(NoEntity(s, "entity to add"));
    Execute(s, "POST", s.entityUrl, entityOrError, NoOptions)
  }

  /** `delete(key)`: DELETE `entityUrl + key`; a null or undefined key fails locally. */
  function Delete(s: Service, key: Key): (p: Plan)
    ensures p.Rejected? <==> NullishKey(key)
    ensures NullishKey(key) ==>
      p.error == DataServiceError(ValidationError(NoEntity(s, "key to delete")),
                                  RequestData("DELETE", s.entityUrl + KeyString(key), NoOptions))
    ensures !NullishKey(key) ==>
      p == Call(HttpRequest("DELETE", s.entityUrl + KeyString(key), None, NoOptions), AsIs, s.saveDelay, s.timeout)
  {
    var err := if NullishKey(key) then Fault(NoEntity(s, "key to delete")) else Data(Undefined);
    Execute(s, "DELETE", s.entityUrl + KeyString(key), err, NoOptions)
  }

  /** `getAll()`: GET the collection URL. */
  function GetAll(s: Service): (p: Plan)
    ensures p == Call(HttpRequest("GET", s.entitiesUrl, None, NoOptions), AsIs, s.getDelay, s.timeout)
  {
    Execute(s, "GET", s.entitiesUrl, Data(Undefined), NoOptions)
  }

  /** `getById(key)`: GET `entityUrl + key`; a null or undefined key fails locally. */
  function GetById(s: Service, key: Key): (p: Plan)
    ensures p.Rejected? <==> NullishKey(key)
    ensures NullishKey(key) ==>
      p.error == DataServiceError(ValidationError(NoEntity(s, "key to get")),
                                  RequestData("GET", s.entityUrl + KeyString(key), NoOptions))
    ensures !NullishKey(key) ==>
      p == Call(HttpRequest("GET", s.entityUrl + KeyString(key), None, NoOptions), AsIs, s.getDelay, s.timeout)
  {
    var err := if NullishKey(key) then Fault(NoEntity(s, "key to get")) else Data(Undefined);
    Execute(s, "GET", s.entityUrl + KeyString(key), err, NoOptions)
  }

  /** `getWithQuery(queryParams)`: GET the collection URL with query parameters. */
  function GetWithQuery(s: Service, queryParams: Value): (p: Plan)
    ensures p.Call? && p.request.httpMethod == "GET" && p.request.url == s.entitiesUrl && p.request.body == None
    ensures p.delay == s.getDelay && p.timeout == s.timeout
    ensures p.respond == AsIs
    ensures queryParams.Str? ==> p.request.options == WithParams(FromString(queryParams.s))
    ensures !queryParams.Str? ==> p.request.options == WithParams(FromObject(queryParams))
  {
    var init := if queryParams.Str? then FromString(queryParams.s) else FromObject(queryParams);
    Execute(s, "GET", s.entitiesUrl, Data(Undefined), WithParams(init))
  }

  /** `update && update.id`. */
  function UpdateId(update: UpdateArg): (id: Key)
    ensures NullishKey(id) <==> !update.UpdateOf? || NullishKey(update.id)
    ensures !NullishKey(id) ==> update.UpdateOf? && id == update.id
  {
    match update
    case UndefinedUpdate => UndefinedKey
    case NullUpdate => NullKey
    case UpdateOf(id, _) => id
  }

  /** The update record as the value `execute` receives. */
  function UpdateValue(update: UpdateArg): (v: Value)
    requires update.UpdateOf?
    ensures Member(v, "id") == KeyValue(update.id)
    ensures Member(v, "changes") == Obj(update.changes)
  {
    Obj(map["id" := KeyValue(update.id), "changes" := Obj(update.changes)])
  }

  /**
   * `update(update)`: PUT only the changes to `entityUrl + id`; a missing update
   * or a null or undefined id fails locally.
   */
  function Update(s: Service, update: UpdateArg): (p: Plan)
    ensures p.Rejected? <==> !update.UpdateOf? || NullishKey(update.id)
    ensures NullishKey(UpdateId(update)) ==>
      p.error == DataServiceError(ValidationError(NoEntity(s, "update data or id")),
                                  RequestData("PUT", s.entityUrl + KeyString(UpdateId(update)), NoOptions))
    ensures !NullishKey(UpdateId(update)) ==>
      update.UpdateOf? &&
      p == Call(HttpRequest("PUT", s.entityUrl + KeyString(update.id), Some(Obj(update.changes)), NoOptions),
                MergeUpdate(KeyValue(update.id), Obj(update.changes)), s.saveDelay, s.timeout)
  {
    var id := UpdateId(update);
    var updateOrError := if NullishKey(id) then Fault(NoEntity(s, "update data or id")) else Data(UpdateValue(update));
    Execute(s, "PUT", s.entityUrl + KeyString(id), updateOrError, NoOptions)
  }
}
