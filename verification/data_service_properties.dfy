/**
 * What the data service promises across its operations: configuration
 * defaulting, validation before transport, delay selection, error wrapping,
 * the PUT merge and the addressing of entities by key.
 */
module DataServiceProperties {
  import opened Wrappers
  import opened Decimal
  import opened JsValues
  import opened DefaultDataService

  /** An absent configuration, an empty one and one of explicit zeros all mean: root 'api', no delays, no timeout. */
  lemma MissingConfigIsDefault(
    entityName: string,
    entityResource: (string, string) -> string,
    collectionResource: (string, string) -> string)
    ensures var none := Construct(entityName, None, entityResource, collectionResource);
      && none == Construct(entityName, Some(Config(None, None, None, None)), entityResource, collectionResource)
      && none == Construct(entityName, Some(Config(Some(""), Some(0), Some(0), Some(0))), entityResource, collectionResource)
      && none.entityUrl == entityResource(entityName, "api")
      && none.entitiesUrl == collectionResource(entityName, "api")
      && none.getDelay == NoDelay && none.saveDelay == NoDelay && none.timeout == NoTimeout
  {
  }

  /** A non-empty `api` is the root, as given. */
  lemma ApiUsedVerbatim(
    entityName: string,
    config: Config,
    entityResource: (string, string) -> string,
    collectionResource: (string, string) -> string)
    requires config.api.Some? && config.api.value != ""
    ensures Construct(entityName, Some(config), entityResource, collectionResource).entityUrl
         == entityResource(entityName, config.api.value)
    ensures Construct(entityName, Some(config), entityResource, collectionResource).entitiesUrl
         == collectionResource(entityName, config.api.value)
  {
  }

  /**
   * A planned call goes through the GET delay when it is a GET and through the
   * save delay otherwise; each is a pass-through when configured as 0 or absent.
   */
  lemma DelaySelection(
    entityName: string,
    config: Config,
    entityResource: (string, string) -> string,
    collectionResource: (string, string) -> string,
    httpMethod: string, url: string, data: Payload, options: Options)
    requires Execute(Construct(entityName, Some(config), entityResource, collectionResource), httpMethod, url, data, options).Call?
    ensures var p := Execute(Construct(entityName, Some(config), entityResource, collectionResource), httpMethod, url, data, options);
      && (httpMethod == "GET" ==> p.delay == DelayFor(config.getDelay))
      && (httpMethod != "GET" ==> p.delay == DelayFor(config.saveDelay))
      && (p.delay == NoDelay <==>
            (if httpMethod == "GET" then config.getDelay else config.saveDelay) in {None, Some(0)})
      && (p.timeout == NoTimeout <==> config.timeout in {None, Some(0)})
  {
  }

  /**
   * Whatever the transport does, an execution for one of the four known methods
   * either emits, throws the destructuring TypeError, or fails with a
   * DataServiceError that records exactly the method, URL and options asked for.
   */
  lemma FailuresCarryTheRequest(s: Service, httpMethod: string, url: string, data: Payload, options: Options, t: TransportResult)
    requires httpMethod in KnownMethods
    ensures var o := Settle(Execute(s, httpMethod, url, data, options), t);
      o.Failed? ==> o.error.DataServiceError? && o.error.requestData == RequestData(httpMethod, url, options)
  {
  }

  /** A transport failure of a planned call is wrapped, with its own cause, as a DataServiceError. */
  lemma TransportFailureIsWrapped(s: Service, httpMethod: string, url: string, data: Payload, options: Options, detail: Value)
    requires Execute(s, httpMethod, url, data, options).Call?
    ensures Settle(Execute(s, httpMethod, url, data, options), TransportFailed(detail))
         == Failed(DataServiceError(TransportError(detail), RequestData(httpMethod, url, options)))
  {
  }

  /** A plan that fails locally never looks at the transport: no HTTP call is made. */
  lemma LocalFailureIgnoresTransport(p: Plan, t1: TransportResult, t2: TransportResult)
    requires !p.Call?
    ensures Settle(p, t1) == Settle(p, t2)
  {
  }

  /** A method other than DELETE, GET, POST and PUT fails with a plain Error and no call. */
  lemma UnknownMethodRejected(s: Service, httpMethod: string, url: string, v: Value, options: Options, t: TransportResult)
    requires httpMethod !in KnownMethods
    ensures Settle(Execute(s, httpMethod, url, Data(v), options), t)
         == Failed(PlainError("Unimplemented HTTP method, " + httpMethod))
  {
  }

  /**
   * The result of a successful update is the original update with the server's
   * fields merged in: the id is unchanged, every field the server returned takes
   * the server's value, and every original field the server did not return
   * keeps its original value.
   */
  lemma UpdateMergesServerFields(s: Service, update: UpdateArg, updated: Value)
    requires update.UpdateOf? && !NullishKey(update.id)
    ensures var o := Settle(Update(s, update), Responded(updated));
      && o.Emitted?
      && Member(o.value, "id") == KeyValue(update.id)
      && Member(o.value, "changes").Obj?
      && var merged := Member(o.value, "changes").fields;
      && merged.Keys == update.changes.Keys + Spread(updated).Keys
      && (forall k :: k in Spread(updated) ==> merged[k] == Spread(updated)[k])
      && (forall k :: k in update.changes && k !in Spread(updated) ==> merged[k] == update.changes[k])
  {
  }

  /** An empty (null) server response leaves the update as it was sent. */
  lemma UpdateWithEmptyResponse(s: Service, update: UpdateArg)
    requires update.UpdateOf? && !NullishKey(update.id)
    ensures Settle(Update(s, update), Responded(Null))
         == Emitted(Obj(map["id" := KeyValue(update.id), "changes" := Obj(update.changes)]))
  {
    assert Spread(Obj(update.changes)) + Spread(Null) == update.changes;
  }

  /** Different numeric keys address different resources, for reads, deletes and updates alike. */
  lemma DistinctNumericKeysDistinctUrls(s: Service, a: int, b: int, changes: map<string, Value>)
    requires a != b
    ensures GetById(s, NumKey(a)).request.url != GetById(s, NumKey(b)).request.url
    ensures Delete(s, NumKey(a)).request.url != Delete(s, NumKey(b)).request.url
    ensures Update(s, UpdateOf(NumKey(a), changes)).request.url != Update(s, UpdateOf(NumKey(b), changes)).request.url
  {
    IntToStringInjective(a, b);
    var u, ka, kb := s.entityUrl, KeyString(NumKey(a)), KeyString(NumKey(b));
    assert (u + ka)[|u|..] == ka;
    assert (u + kb)[|u|..] == kb;
  }
}
