/**
 * The single-entity layer of src/lib/fetch-bull-entity.ts: a Bull call whose
 * result is `{entity, additionalData}` returns with `entity` copied to the top
 * of the return and `data` rebuilt as `{entity, ...additionalData}`.
 *
 * The `fetchBull` this file imports comes from a library index that is not
 * part of this model; the current copy (src/lib/fetchBull.ts) is used.
 */
module BullEntity {
  import opened Js
  import opened FetchApi
  import FetchRpc
  import FetchBull

  /** `convertBullEntityToBullProps(props)`: the props pass through untouched (only their type changes). */
  function ConvertBullEntityToBullProps(props: Fields): (r: Fields)
    ensures r == props
  {
    props
  }

  /** `{entity, ...additionalData}`: the entity, with the additional fields spread over it. */
  function EntityData(entity: Option<Value>, additionalData: Option<Value>): (d: Fields)
    ensures forall k :: k in Spread(additionalData) ==> Get(d, k) == Some(Spread(additionalData)[k])
    ensures "entity" !in Spread(additionalData) ==> Get(d, "entity") == entity
    ensures forall k :: k != "entity" && k !in Spread(additionalData) ==> k !in d
  {
    Put(map[], "entity", entity) + Spread(additionalData)
  }

  /** The envelope fields the conversion reads; the rest is `...apiReturn`. */
  const ReadKeys: set<string> := {"status", "data"}

  /** `{status, data: {entity, ...additionalData}, entity: entity || {}, ...apiReturn}` for a `data` that is not nullish. */
  function EntityReturn(bullReturn: Fields, data: Value): (r: Fields)
    ensures Get(r, "status") == Get(bullReturn, "status")
    // only `entity` and `additionalData` are read from `data`; its other fields are dropped
    ensures Get(r, "data") == Some(Obj(EntityData(Prop(data, "entity"), Prop(data, "additionalData"))))
    // the top-level entity is `data.entity`, or `{}` when that is falsy, unless the envelope has its own
    ensures Get(r, "entity") == if "entity" in bullReturn then Some(bullReturn["entity"]) else Some(Or(Prop(data, "entity"), Obj(map[])))
    ensures forall k :: k !in ReadKeys && k != "entity" ==> Get(r, k) == Get(bullReturn, k)
  {
    var entity := Prop(data, "entity");
    Put(map["data" := Obj(EntityData(entity, Prop(data, "additionalData"))), "entity" := Or(entity, Obj(map[]))],
        "status", Get(bullReturn, "status"))
      + (bullReturn - ReadKeys)
  }

  /** `convertBullToBullEntityReturn({status, data: {entity, additionalData}, ...apiReturn})` */
  function ConvertBullToBullEntityReturn(bullReturn: Fields): (r: Result<Fields, Value>)
    // destructuring a null or missing `data` throws
    ensures r.Err? <==> Nullish(Get(bullReturn, "data"))
    ensures r.Ok? ==> r.value == EntityReturn(bullReturn, bullReturn["data"])
  {
    match Get(bullReturn, "data")
    case None => Err(TypeError("Cannot destructure property 'entity' of 'undefined' as it is undefined."))
    case Some(Null) => Err(TypeError("Cannot destructure property 'entity' of 'null' as it is null."))
    case Some(data) => Ok(EntityReturn(bullReturn, data))
  }

  /** `fetchBullEntity(props)`: the Bull call, then the return conversion. */
  function FetchBullEntity(props: Fields, freshId: Value, host: Host): (r: Run)
    requires FetchBull.BullPropsTyped(props)
    ensures var bull := FetchBull.FetchBull(props, freshId, host);
      && r.sent == bull.sent && r.notified == bull.notified
      && (bull.completion.Rejected? ==> r.completion == bull.completion)
  {
    AndThen(FetchBull.FetchBull(ConvertBullEntityToBullProps(props), freshId, host), ConvertBullToBullEntityReturn)
  }

  // ---------- properties ----------

  /** `res.entity` duplicates `res.data.entity` when the entity is there and nothing else shadows it. */
  lemma EntityIsDuplicated(bullReturn: Fields)
    requires Get(bullReturn, "data").Some? && bullReturn["data"].Obj? && "entity" !in bullReturn
    requires Truthy(Get(bullReturn["data"].fields, "entity"))
    requires "entity" !in Spread(Get(bullReturn["data"].fields, "additionalData"))
    ensures ConvertBullToBullEntityReturn(bullReturn).Ok?
    ensures var ret := ConvertBullToBullEntityReturn(bullReturn).value;
      && Get(ret, "entity") == Get(bullReturn["data"].fields, "entity")
      && ret["data"].Obj? && Get(ret["data"].fields, "entity") == Get(bullReturn["data"].fields, "entity")
  {
  }

  /** Without an entity the top-level `entity` is `{}`, while `data` gets no `entity` field. */
  lemma MissingEntityIsEmpty(bullReturn: Fields)
    requires Get(bullReturn, "data").Some? && bullReturn["data"].Obj? && "entity" !in bullReturn
    requires "entity" !in bullReturn["data"].fields
    requires "entity" !in Spread(Get(bullReturn["data"].fields, "additionalData"))
    ensures ConvertBullToBullEntityReturn(bullReturn).Ok?
    ensures var ret := ConvertBullToBullEntityReturn(bullReturn).value;
      && Get(ret, "entity") == Some(Obj(map[]))
      && ret["data"].Obj? && "entity" !in ret["data"].fields
  {
  }

  /** A field of `data` other than `entity` and `additionalData` is dropped unless `additionalData` supplies it again. */
  lemma OtherDataFieldsDropped(bullReturn: Fields, k: string)
    requires Get(bullReturn, "data").Some? && bullReturn["data"].Obj?
    requires k in bullReturn["data"].fields && k != "entity"
    requires k !in Spread(Get(bullReturn["data"].fields, "additionalData"))
    ensures ConvertBullToBullEntityReturn(bullReturn).Ok?
    ensures var ret := ConvertBullToBullEntityReturn(bullReturn).value;
      ret["data"].Obj? && k !in ret["data"].fields
  {
  }

  /**
   * A Bull call settles the entity call: it resolves exactly when the Bull call
   * resolved with a `data`, and then keeps its status. `bullRun` is the Bull
   * call that FetchBullEntity wraps.
   */
  lemma ResolvesWithData(bullRun: Run)
    ensures var r := AndThen(bullRun, ConvertBullToBullEntityReturn);
      && (r.completion.Resolved? <==> bullRun.completion.Resolved? && !Nullish(Get(bullRun.completion.value, "data")))
      && (r.completion.Resolved? ==> Get(r.completion.value, "status") == Get(bullRun.completion.value, "status"))
  {
  }

  /** A JSON-RPC error response (no `result`) leaves the Bull return without `data`, so the entity call rejects. */
  lemma RpcErrorResponseRejects(env: Fields)
    requires Get(env, "data").Some? && env["data"].Obj? && "result" !in env["data"].fields
    ensures FetchRpc.ConvertApiToRpcReturn(env).Ok?
    ensures ConvertBullToBullEntityReturn(FetchRpc.ConvertApiToRpcReturn(env).value).Err?
  {
    FetchRpc.MissingResultLeavesNoData(env);
  }
}
