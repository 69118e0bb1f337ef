/**
 * The legacy list layer, src/lib-legacy-2/fetch-bull-list-entities.ts: a Bull
 * call whose result is `{entities, totalEntities, additionalData}` returns
 * with `entities` (an empty list when missing) and `totalEntities` on top, and
 * `data` rebuilt as `{entities, totalEntities, ...additionalData}`; and the
 * `listGroups` endpoint helper built on it.
 *
 * The `fetchBull` this file imports comes from the legacy library index, which
 * is not part of this model; the legacy copy (src/lib-legacy-2/fetch-bull.ts)
 * is used.
 */
module BullListEntitiesLegacy {
  import opened Js
  import opened FetchApi
  import FetchRpc
  import FetchBull
  import FetchBullLegacy

  /** `convertBullListEntitiesToBullProps(props)`: the identity (only the types change). */
  function ConvertBullListEntitiesToBullProps(props: Fields): (r: Fields)
    ensures r == props
  {
    props
  }

  const ListKeys: set<string> := {"entities", "totalEntities"}
  const ReadKeys: set<string> := {"status", "data"}

  /** `{entities, totalEntities, ...additionalData}`: the additional fields win over the list and the total. */
  function ListData(entities: Option<Value>, totalEntities: Option<Value>, additionalData: Option<Value>): (d: Fields)
    ensures forall k :: k in Spread(additionalData) ==> Get(d, k) == Some(Spread(additionalData)[k])
    ensures "entities" !in Spread(additionalData) ==> Get(d, "entities") == entities
    ensures "totalEntities" !in Spread(additionalData) ==> Get(d, "totalEntities") == totalEntities
    ensures forall k :: k !in ListKeys && k !in Spread(additionalData) ==> k !in d
  {
    Put(Put(map[], "entities", entities), "totalEntities", totalEntities) + Spread(additionalData)
  }

  /** The fields the conversion writes before spreading the rest of the envelope. */
  function ListHead(bullReturn: Fields, data: Value): (h: Fields)
    ensures Get(h, "status") == Get(bullReturn, "status")
    ensures Get(h, "data") == Some(Obj(ListData(Prop(data, "entities"), Prop(data, "totalEntities"), Prop(data, "additionalData"))))
    ensures Get(h, "entities") == Some(Or(Prop(data, "entities"), Arr([])))
    ensures Get(h, "totalEntities") == Prop(data, "totalEntities")
    ensures forall k :: k !in ReadKeys && k !in ListKeys ==> k !in h
  {
    var entities := Prop(data, "entities");
    var totalEntities := Prop(data, "totalEntities");
    Put(Put(map["data" := Obj(ListData(entities, totalEntities, Prop(data, "additionalData"))), "entities" := Or(entities, Arr([]))],
            "status", Get(bullReturn, "status")),
        "totalEntities", totalEntities)
  }

  /** `{status, data: {entities, totalEntities, ...additionalData}, entities: entities || [], totalEntities, ...apiReturn}` */
  function ListEntitiesReturn(bullReturn: Fields, data: Value): (r: Fields)
    ensures Get(r, "status") == Get(bullReturn, "status")
    // only `entities`, `totalEntities` and `additionalData` are read from `data`; its other fields are dropped
    ensures Get(r, "data") == Some(Obj(ListData(Prop(data, "entities"), Prop(data, "totalEntities"), Prop(data, "additionalData"))))
    // the list defaults to `[]`; the total has no default; the envelope's own fields win
    ensures Get(r, "entities") == if "entities" in bullReturn then Some(bullReturn["entities"]) else Some(Or(Prop(data, "entities"), Arr([])))
    ensures Get(r, "totalEntities") == if "totalEntities" in bullReturn then Some(bullReturn["totalEntities"]) else Prop(data, "totalEntities")
    ensures forall k :: k !in ReadKeys && k !in ListKeys ==> Get(r, k) == Get(bullReturn, k)
  {
    WithRest(ListHead(bullReturn, data), bullReturn, ReadKeys)
  }

  /** `convertBullToBullListEntitiesReturn({status, data: {entities, totalEntities, additionalData}, ...apiReturn})` */
  function ConvertBullToBullListEntitiesReturn(bullReturn: Fields): (r: Result<Fields, Value>)
    // destructuring a null or missing `data` throws
    ensures r.Err? <==> Nullish(Get(bullReturn, "data"))
    ensures r.Ok? ==> r.value == ListEntitiesReturn(bullReturn, bullReturn["data"])
  {
    match Get(bullReturn, "data")
    case None => Err(TypeError("Cannot destructure property 'entities' of 'undefined' as it is undefined."))
    case Some(Null) => Err(TypeError("Cannot destructure property 'entities' of 'null' as it is null."))
    case Some(data) => Ok(ListEntitiesReturn(bullReturn, data))
  }

  /** `fetchBullListEntities(props)`: the Bull call, then the return conversion. */
  function FetchBullListEntities(props: Fields, freshId: Value, host: Host): (r: Run)
    requires FetchBull.BullPropsTyped(props)
    ensures var bull := FetchBullLegacy.FetchBull(props, freshId, host);
      && r.sent == bull.sent && r.notified == bull.notified
      && (bull.completion.Rejected? ==> r.completion == bull.completion)
  {
    AndThen(FetchBullLegacy.FetchBull(ConvertBullListEntitiesToBullProps(props), freshId, host), ConvertBullToBullListEntitiesReturn)
  }

  /**
   * The props `listGroups(params, props = {})` calls fetchBullListEntities with:
   * `{service: 'permissions', method: 'listGroups', ...props, params: {...props.params, ...params}}`.
   */
  function ListGroupsProps(params: Option<Value>, props: Fields): (r: Fields)
    // the endpoint is a default the caller's props may override
    ensures Get(r, "service") == Some(if "service" in props then props["service"] else Str("permissions"))
    ensures Get(r, "method") == Some(if "method" in props then props["method"] else Str("listGroups"))
    // the explicit params win over the ones in props
    ensures Get(r, "params").Some? && r["params"].Obj?
    ensures forall k :: k in Spread(params) ==> Get(r["params"].fields, k) == Some(Spread(params)[k])
    ensures forall k :: k !in Spread(params) ==> Get(r["params"].fields, k) == Get(Spread(Get(props, "params")), k)
    ensures forall k :: k !in {"service", "method", "params"} ==> Get(r, k) == Get(props, k)
    ensures FetchBull.BullPropsTyped(props) ==> FetchBull.BullPropsTyped(r)
  {
    (map["service" := Str("permissions"), "method" := Str("listGroups")] + props)
      ["params" := Obj(Spread(Get(props, "params")) + Spread(params))]
  }

  /** `listGroups(params, props)` */
  function ListGroups(params: Option<Value>, props: Fields, freshId: Value, host: Host): (r: Run)
    requires FetchBull.BullPropsTyped(props)
    // what is sent and notified is the Bull call's on the merged props, and its rejection passes through
    ensures var bull := FetchBullLegacy.FetchBull(ListGroupsProps(params, props), freshId, host);
      && r.sent == bull.sent && r.notified == bull.notified
      && (bull.completion.Rejected? ==> r.completion == bull.completion)
  {
    FetchBullListEntities(ListGroupsProps(params, props), freshId, host)
  }

  // ---------- properties ----------

  /** Without `entities` and `totalEntities` in the result, `entities` is `[]` on top and absent in `data`; there is no total. */
  lemma MissingListIsEmpty(bullReturn: Fields)
    requires Get(bullReturn, "data").Some? && bullReturn["data"].Obj?
    requires "entities" !in bullReturn && "totalEntities" !in bullReturn
    requires "entities" !in bullReturn["data"].fields && "totalEntities" !in bullReturn["data"].fields
    requires !Truthy(Get(bullReturn["data"].fields, "additionalData"))
    ensures ConvertBullToBullListEntitiesReturn(bullReturn).Ok?
    ensures var ret := ConvertBullToBullListEntitiesReturn(bullReturn).value;
      && Get(ret, "entities") == Some(Arr([]))
      && "totalEntities" !in ret
      && Get(ret, "data") == Some(Obj(map[]))
  {
    var data := bullReturn["data"];
    assert Prop(data, "entities") == None && Prop(data, "totalEntities") == None;
    EmptyListData(Prop(data, "additionalData"));
  }

  /** With no list, no total and no additional data, `data` comes back empty. */
  lemma EmptyListData(additionalData: Option<Value>)
    requires !Truthy(additionalData)
    ensures ListData(None, None, additionalData) == map[]
  {
    FalsySpreadsToNothing(additionalData);
  }

  /** A field of `data` other than the three it reads is dropped unless `additionalData` supplies it again. */
  lemma OtherDataFieldsDropped(bullReturn: Fields, k: string)
    requires Get(bullReturn, "data").Some? && bullReturn["data"].Obj?
    requires k in bullReturn["data"].fields && k !in ListKeys
    requires k !in Spread(Get(bullReturn["data"].fields, "additionalData"))
    ensures ConvertBullToBullListEntitiesReturn(bullReturn).Ok?
    ensures var ret := ConvertBullToBullListEntitiesReturn(bullReturn).value;
      ret["data"].Obj? && k !in ret["data"].fields
  {
    var data := bullReturn["data"];
    var additionalData := Prop(data, "additionalData");
    assert additionalData == Get(data.fields, "additionalData");
    var d := ListData(Prop(data, "entities"), Prop(data, "totalEntities"), additionalData);
    assert k !in d;
    assert ConvertBullToBullListEntitiesReturn(bullReturn).value["data"] == Obj(d);
  }

  /**
   * A Bull call settles the list call: it resolves exactly when the Bull call
   * resolved with a `data`, and then keeps its status. `bullRun` is the Bull
   * call that FetchBullListEntities wraps.
   */
  lemma ResolvesWithData(bullRun: Run)
    ensures var r := AndThen(bullRun, ConvertBullToBullListEntitiesReturn);
      && (r.completion.Resolved? <==> bullRun.completion.Resolved? && !Nullish(Get(bullRun.completion.value, "data")))
      && (r.completion.Resolved? ==> Get(r.completion.value, "status") == Get(bullRun.completion.value, "status"))
  {
  }

  /** A JSON-RPC error response (no `result`) leaves the Bull return without `data`, so the list call rejects. */
  lemma RpcErrorResponseRejects(env: Fields)
    requires Get(env, "data").Some? && env["data"].Obj? && "result" !in env["data"].fields
    ensures FetchRpc.ConvertApiToRpcReturn(env).Ok?
    ensures ConvertBullToBullListEntitiesReturn(FetchRpc.ConvertApiToRpcReturn(env).value).Err?
  {
    FetchRpc.MissingResultLeavesNoData(env);
  }

  /**
   * With no props, no url and no environment setting, `listGroups` calls the
   * RPC method `listGroups` at https://api.bullbitcoin.com/api-permissions.
   */
  lemma ListGroupsCallsPermissions(params: Option<Value>, host: Host)
    requires host.envApiUrl.None? || host.envApiUrl.value == ""
    requires host.parseUrl(FetchBull.DefaultApiUrl) == Some(Url("https://api.bullbitcoin.com", "/", None, None, false))
    ensures FetchBull.ConvertBullToRpcProps(ListGroupsProps(params, map[]), host).Ok?
    ensures var rpcProps := FetchBull.ConvertBullToRpcProps(ListGroupsProps(params, map[]), host).value;
      && Get(rpcProps, "url") == Some(Str("https://api.bullbitcoin.com/api-permissions"))
      && Get(rpcProps, "method") == Some(Str("listGroups"))
  {
    var props := ListGroupsProps(params, map[]);
    assert Get(props, "url") == None by { assert "url" !in {"service", "method", "params"}; }
    FetchBull.PermissionsCall(props, host, "listGroups");
  }

  /**
   * On the wire, with no props, no url and no environment setting,
   * `listGroups(params)` is POSTed with cookies to
   * https://api.bullbitcoin.com/api-permissions, and its body is the JSON of a
   * JSON-RPC request object for the method `listGroups` with the fresh id and
   * the given params.
   */
  lemma ListGroupsReachesFetch(params: Option<Value>, freshId: Value, host: Host, sent: Request)
    requires host.envApiUrl.None? || host.envApiUrl.value == ""
    requires host.parseUrl(FetchBull.DefaultApiUrl) == Some(Url("https://api.bullbitcoin.com", "/", None, None, false))
    requires ListGroups(params, map[], freshId, host).sent == Some(sent)
    ensures Some(sent.url) == host.parseUrl("https://api.bullbitcoin.com/api-permissions")
    ensures Get(sent.init, "method") == Some(Str("post"))
    ensures Get(sent.init, "credentials") == Some(Str("include"))
    ensures var call := FetchRpc.RequestObject(None, freshId, Some(Str("listGroups")), Some(Obj(Spread(params))));
      && Get(sent.init, "body") == Some(Str(host.stringify(Obj(call))))
      && Get(call, "jsonrpc") == Some(Str("2.0")) && Get(call, "id") == Some(freshId) && Get(call, "method") == Some(Str("listGroups"))
  {
    var props := ListGroupsProps(params, map[]);
    ListGroupsPropsEmpty(params);
    ListGroupsSent(params, map[], freshId, host);
    FetchBull.PermissionsCallReachesFetch(props, freshId, host, "listGroups", sent);
  }

  /** The props of `listGroups(params)` with no props: the endpoint and the params, nothing else. */
  lemma ListGroupsPropsEmpty(params: Option<Value>)
    ensures var props := ListGroupsProps(params, map[]);
      && FetchBull.BullPropsTyped(props)
      && Get(props, "service") == Some(Str("permissions")) && Get(props, "method") == Some(Str("listGroups"))
      && Get(props, "params") == Some(Obj(Spread(params)))
      && Get(props, "url") == None && Get(props, "queryParams") == None && Get(props, "requestMethod") == None
      && Get(props, "credentials") == None && Get(props, "data") == None && "id" !in props
  {
    assert Spread(None) + Spread(params) == Spread(params);
  }

  /** What `listGroups` hands to `fetch` is what the Bull call on its props hands. */
  lemma ListGroupsSent(params: Option<Value>, props: Fields, freshId: Value, host: Host)
    requires FetchBull.BullPropsTyped(props)
    ensures ListGroups(params, props, freshId, host).sent == FetchBull.FetchBull(ListGroupsProps(params, props), freshId, host).sent
  {
  }
}
