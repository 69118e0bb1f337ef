/**
 * The entity-list layer of src/lib/fetchBullEntityList.ts: a Bull call whose
 * result is `{entities, totalEntities, ...}` returns with `entities` (an empty
 * list when missing) and `totalEntities` copied to the top of the return,
 * while `data` keeps every field it had.
 *
 * The `fetchBull` this file imports comes from a library index that is not
 * part of this model; the current copy (src/lib/fetchBull.ts) is used.
 */
module BullEntityList {
  import opened Js
  import opened FetchApi
  import FetchRpc
  import FetchBull

  /** `convertBullEntityListToBullProps(props)`: the identity (only the types change). */
  function ConvertBullEntityListToBullProps(props: Fields): (r: Fields)
    ensures r == props
  {
    props
  }

  /** The fields the conversion names in its patterns. */
  const ListKeys: set<string> := {"entities", "totalEntities"}
  const ReadKeys: set<string> := {"status", "data"}

  /** Reading a named property of a value that is not nullish reads what spreading it copies. */
  lemma NamedPropIsSpread(data: Value, k: string)
    requires data != Null && k in ListKeys
    ensures Prop(data, k) == Get(Spread(Some(data)), k)
  {
  }

  /** Taking two fields out of an object and spreading the rest back after them gives the object again. */
  lemma RestReassembles(m: Fields, a: string, b: string)
    ensures Put(Put(map[], a, Get(m, a)), b, Get(m, b)) + (m - {a, b}) == m
  {
    var d := Put(Put(map[], a, Get(m, a)), b, Get(m, b)) + (m - {a, b});
    forall k ensures Get(d, k) == Get(m, k) {
      if k != a && k != b {
        assert k !in Put(Put(map[], a, Get(m, a)), b, Get(m, b));
      }
    }
    assert d.Keys == m.Keys;
  }

  /**
   * `{entities, totalEntities, ...additionalData}` rebuilt from
   * `{entities, totalEntities, ...additionalData} = data`: every field of the
   * Bull result comes back, and nothing else.
   */
  function ListData(data: Value): (d: Fields)
    requires data != Null
    ensures d == Spread(Some(data))
  {
    var entities := Prop(data, "entities");
    var totalEntities := Prop(data, "totalEntities");
    var additionalData := Spread(Some(data)) - ListKeys;
    NamedPropIsSpread(data, "entities");
    NamedPropIsSpread(data, "totalEntities");
    RestReassembles(Spread(Some(data)), "entities", "totalEntities");
    Put(Put(map[], "entities", entities), "totalEntities", totalEntities) + additionalData
  }

  /** `{status, data: {entities, totalEntities, ...additionalData}, entities: entities || [], totalEntities, ...apiReturn}` */
  function EntityListReturn(bullReturn: Fields, data: Value): (r: Fields)
    requires data != Null
    ensures Get(r, "status") == Get(bullReturn, "status")
    ensures Get(r, "data") == Some(Obj(Spread(Some(data))))
    // the list defaults to `[]`; the total has no default; the envelope's own fields win
    ensures Get(r, "entities") == if "entities" in bullReturn then Some(bullReturn["entities"]) else Some(Or(Prop(data, "entities"), Arr([])))
    ensures Get(r, "totalEntities") == if "totalEntities" in bullReturn then Some(bullReturn["totalEntities"]) else Prop(data, "totalEntities")
    ensures forall k :: k !in ReadKeys && k !in ListKeys ==> Get(r, k) == Get(bullReturn, k)
  {
    WithRest(ListHead(bullReturn, data), bullReturn, ReadKeys)
  }

  /** The fields the conversion writes before spreading the rest of the envelope. */
  function ListHead(bullReturn: Fields, data: Value): (h: Fields)
    requires data != Null
    ensures Get(h, "status") == Get(bullReturn, "status")
    ensures Get(h, "data") == Some(Obj(Spread(Some(data))))
    ensures Get(h, "entities") == Some(Or(Prop(data, "entities"), Arr([])))
    ensures Get(h, "totalEntities") == Prop(data, "totalEntities")
    ensures forall k :: k !in ReadKeys && k !in ListKeys ==> k !in h
  {
    var entities := Prop(data, "entities");
    Put(Put(map["data" := Obj(ListData(data)), "entities" := Or(entities, Arr([]))], "status", Get(bullReturn, "status")),
        "totalEntities", Prop(data, "totalEntities"))
  }

  /** `convertBullToBullEntityListReturn({status, data: {entities, totalEntities, ...additionalData}, ...apiReturn})` */
  function ConvertBullToBullEntityListReturn(bullReturn: Fields): (r: Result<Fields, Value>)
    // destructuring a null or missing `data` throws
    ensures r.Err? <==> Nullish(Get(bullReturn, "data"))
    ensures r.Ok? ==> r.value == EntityListReturn(bullReturn, bullReturn["data"])
  {
    match Get(bullReturn, "data")
    case None => Err(TypeError("Cannot destructure property 'entities' of 'undefined' as it is undefined."))
    case Some(Null) => Err(TypeError("Cannot destructure property 'entities' of 'null' as it is null."))
    case Some(data) => Ok(EntityListReturn(bullReturn, data))
  }

  /** `fetchBullEntityList(props)`: the Bull call, then the return conversion. */
  function FetchBullEntityList(props: Fields, freshId: Value, host: Host): (r: Run)
    requires FetchBull.BullPropsTyped(props)
    ensures var bull := FetchBull.FetchBull(props, freshId, host);
      && r.sent == bull.sent && r.notified == bull.notified
      && (bull.completion.Rejected? ==> r.completion == bull.completion)
  {
    AndThen(FetchBull.FetchBull(ConvertBullEntityListToBullProps(props), freshId, host), ConvertBullToBullEntityListReturn)
  }

  // ---------- properties ----------

  /** An object result comes back unchanged as `data`, with its list and total also on top. */
  lemma ObjectResultIsKept(bullReturn: Fields)
    requires Get(bullReturn, "data").Some? && bullReturn["data"].Obj?
    requires "entities" !in bullReturn && "totalEntities" !in bullReturn
    ensures ConvertBullToBullEntityListReturn(bullReturn).Ok?
    ensures var ret := ConvertBullToBullEntityListReturn(bullReturn).value;
      var data := bullReturn["data"].fields;
      && Get(ret, "data") == Some(Obj(data))
      && Get(ret, "entities") == Some(Or(Get(data, "entities"), Arr([])))
      && Get(ret, "totalEntities") == Get(data, "totalEntities")
  {
  }

  /** A result without a list gets `entities: []` and no `totalEntities` at all. */
  lemma MissingListIsEmpty(bullReturn: Fields)
    requires Get(bullReturn, "data").Some? && bullReturn["data"].Obj?
    requires "entities" !in bullReturn && "totalEntities" !in bullReturn
    requires "entities" !in bullReturn["data"].fields && "totalEntities" !in bullReturn["data"].fields
    ensures ConvertBullToBullEntityListReturn(bullReturn).Ok?
    ensures var ret := ConvertBullToBullEntityListReturn(bullReturn).value;
      && Get(ret, "entities") == Some(Arr([]))
      && "totalEntities" !in ret
  {
  }

  /**
   * A Bull call settles the list call: it resolves exactly when the Bull call
   * resolved with a `data`, and then keeps its status. `bullRun` is the Bull
   * call that FetchBullEntityList wraps.
   */
  lemma ResolvesWithData(bullRun: Run)
    ensures var r := AndThen(bullRun, ConvertBullToBullEntityListReturn);
      && (r.completion.Resolved? <==> bullRun.completion.Resolved? && !Nullish(Get(bullRun.completion.value, "data")))
      && (r.completion.Resolved? ==> Get(r.completion.value, "status") == Get(bullRun.completion.value, "status"))
  {
  }

  /** A JSON-RPC error response (no `result`) leaves the Bull return without `data`, so the list call rejects. */
  lemma RpcErrorResponseRejects(env: Fields)
    requires Get(env, "data").Some? && env["data"].Obj? && "result" !in env["data"].fields
    ensures FetchRpc.ConvertApiToRpcReturn(env).Ok?
    ensures ConvertBullToBullEntityListReturn(FetchRpc.ConvertApiToRpcReturn(env).value).Err?
  {
    FetchRpc.MissingResultLeavesNoData(env);
  }
}
