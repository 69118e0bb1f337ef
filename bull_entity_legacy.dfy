/**
 * The legacy single-entity layer, src/lib-legacy-2/fetch-bull-entity.ts: the
 * same return conversion as the current copy, and the `getGroup` endpoint
 * helper built on it.
 *
 * The `fetchBull` this file imports comes from the legacy library index, which
 * is not part of this model; the legacy copy (src/lib-legacy-2/fetch-bull.ts)
 * is used.
 */
module BullEntityLegacy {
  import opened Js
  import opened FetchApi
  import FetchRpc
  import FetchBull
  import FetchBullLegacy
  import Current = BullEntity

  /** `convertBullEntityToBullProps(props)` of the legacy copy: the identity. */
  function ConvertBullEntityToBullProps(props: Fields): (r: Fields)
    ensures r == props
  {
    props
  }

  /** `convertBullToBullEntityReturn` of the legacy copy; it agrees with the current copy on every envelope. */
  function ConvertBullToBullEntityReturn(bullReturn: Fields): (r: Result<Fields, Value>)
    ensures r == Current.ConvertBullToBullEntityReturn(bullReturn)
  {
    match Get(bullReturn, "data")
    case None => Err(TypeError("Cannot destructure property 'entity' of 'undefined' as it is undefined."))
    case Some(Null) => Err(TypeError("Cannot destructure property 'entity' of 'null' as it is null."))
    case Some(data) =>
      var entity := Prop(data, "entity");
      var additionalData := Prop(data, "additionalData");
      Ok(Put(map["data" := Obj(Put(map[], "entity", entity) + Spread(additionalData)), "entity" := Or(entity, Obj(map[]))],
             "status", Get(bullReturn, "status"))
         + (bullReturn - {"status", "data"}))
  }

  /** `fetchBullEntity(props)` of the legacy copy. */
  function FetchBullEntity(props: Fields, freshId: Value, host: Host): (r: Run)
    requires FetchBull.BullPropsTyped(props)
    ensures r == Current.FetchBullEntity(props, freshId, host)
  {
    AndThen(FetchBullLegacy.FetchBull(ConvertBullEntityToBullProps(props), freshId, host), ConvertBullToBullEntityReturn)
  }

  /**
   * The props `getGroup(params, props = {})` calls fetchBullEntity with:
   * `{service: 'permissions', method: 'getGroup', ...props, params: {...props.params, ...params}}`.
   */
  function GetGroupProps(params: Option<Value>, props: Fields): (r: Fields)
    // the endpoint is a default the caller's props may override
    ensures Get(r, "service") == Some(if "service" in props then props["service"] else Str("permissions"))
    ensures Get(r, "method") == Some(if "method" in props then props["method"] else Str("getGroup"))
    // the explicit params win over the ones in props
    ensures Get(r, "params").Some? && r["params"].Obj?
    ensures forall k :: k in Spread(params) ==> Get(r["params"].fields, k) == Some(Spread(params)[k])
    ensures forall k :: k !in Spread(params) ==> Get(r["params"].fields, k) == Get(Spread(Get(props, "params")), k)
    ensures forall k :: k !in {"service", "method", "params"} ==> Get(r, k) == Get(props, k)
    ensures FetchBull.BullPropsTyped(props) ==> FetchBull.BullPropsTyped(r)
  {
    (map["service" := Str("permissions"), "method" := Str("getGroup")] + props)
      ["params" := Obj(Spread(Get(props, "params")) + Spread(params))]
  }

  /** `getGroup(params, props)` */
  function GetGroup(params: Option<Value>, props: Fields, freshId: Value, host: Host): (r: Run)
    requires FetchBull.BullPropsTyped(props)
    // what is sent and notified is the Bull call's on the merged props, and its rejection passes through
    ensures var bull := FetchBull.FetchBull(GetGroupProps(params, props), freshId, host);
      && r.sent == bull.sent && r.notified == bull.notified
      && (bull.completion.Rejected? ==> r.completion == bull.completion)
  {
    FetchBullEntity(GetGroupProps(params, props), freshId, host)
  }

  // ---------- properties ----------

  /**
   * With no props, no url and no environment setting, `getGroup` calls the
   * RPC method `getGroup` at https://api.bullbitcoin.com/api-permissions.
   */
  lemma GetGroupCallsPermissions(params: Option<Value>, host: Host)
    requires host.envApiUrl.None? || host.envApiUrl.value == ""
    requires host.parseUrl(FetchBull.DefaultApiUrl) == Some(Url("https://api.bullbitcoin.com", "/", None, None, false))
    ensures FetchBull.ConvertBullToRpcProps(GetGroupProps(params, map[]), host).Ok?
    ensures var rpcProps := FetchBull.ConvertBullToRpcProps(GetGroupProps(params, map[]), host).value;
      && Get(rpcProps, "url") == Some(Str("https://api.bullbitcoin.com/api-permissions"))
      && Get(rpcProps, "method") == Some(Str("getGroup"))
  {
    var props := GetGroupProps(params, map[]);
    assert Get(props, "url") == None by { assert "url" !in {"service", "method", "params"}; }
    FetchBull.PermissionsCall(props, host, "getGroup");
  }

  /**
   * On the wire, with no props, no url and no environment setting,
   * `getGroup(params)` is POSTed with cookies to
   * https://api.bullbitcoin.com/api-permissions, and its body is the JSON of a
   * JSON-RPC request object for the method `getGroup` with the fresh id and
   * the given params.
   */
  lemma GetGroupReachesFetch(params: Option<Value>, freshId: Value, host: Host, sent: Request)
    requires host.envApiUrl.None? || host.envApiUrl.value == ""
    requires host.parseUrl(FetchBull.DefaultApiUrl) == Some(Url("https://api.bullbitcoin.com", "/", None, None, false))
    requires GetGroup(params, map[], freshId, host).sent == Some(sent)
    ensures Some(sent.url) == host.parseUrl("https://api.bullbitcoin.com/api-permissions")
    ensures Get(sent.init, "method") == Some(Str("post"))
    ensures Get(sent.init, "credentials") == Some(Str("include"))
    ensures var call := FetchRpc.RequestObject(None, freshId, Some(Str("getGroup")), Some(Obj(Spread(params))));
      && Get(sent.init, "body") == Some(Str(host.stringify(Obj(call))))
      && Get(call, "jsonrpc") == Some(Str("2.0")) && Get(call, "id") == Some(freshId) && Get(call, "method") == Some(Str("getGroup"))
  {
    var props := GetGroupProps(params, map[]);
    GetGroupPropsEmpty(params);
    GetGroupSent(params, map[], freshId, host);
    FetchBull.PermissionsCallReachesFetch(props, freshId, host, "getGroup", sent);
  }

  /** The props of `getGroup(params)` with no props: the endpoint and the params, nothing else. */
  lemma GetGroupPropsEmpty(params: Option<Value>)
    ensures var props := GetGroupProps(params, map[]);
      && FetchBull.BullPropsTyped(props)
      && Get(props, "service") == Some(Str("permissions")) && Get(props, "method") == Some(Str("getGroup"))
      && Get(props, "params") == Some(Obj(Spread(params)))
      && Get(props, "url") == None && Get(props, "queryParams") == None && Get(props, "requestMethod") == None
      && Get(props, "credentials") == None && Get(props, "data") == None && "id" !in props
  {
    assert Spread(None) + Spread(params) == Spread(params);
  }

  /** What `getGroup` hands to `fetch` is what the Bull call on its props hands. */
  lemma GetGroupSent(params: Option<Value>, props: Fields, freshId: Value, host: Host)
    requires FetchBull.BullPropsTyped(props)
    ensures GetGroup(params, props, freshId, host).sent == FetchBull.FetchBull(GetGroupProps(params, props), freshId, host).sent
  {
  }
}
