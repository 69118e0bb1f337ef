/**
 * The list layer of src/lib/fetch-bull-list-entities.ts: a Bull call whose
 * result is `{elements, totalElements}` returns with `entities` (an empty list
 * when missing) and `totalEntities` in their place, and without `data`.
 *
 * The `fetchBull` this file imports comes from the package root, which is not
 * part of this model; the current copy (src/lib/fetchBull.ts) is used.
 */
module BullListEntities {
  import opened Js
  import opened FetchApi
  import FetchRpc
  import FetchBull

  /** `convertBullListEntitiesToBullProps(props)`: the identity (only the types change). */
  function ConvertBullListEntitiesToBullProps(props: Fields): (r: Fields)
    ensures r == props
  {
    props
  }

  const ListKeys: set<string> := {"entities", "totalEntities"}
  const ReadKeys: set<string> := {"status", "data"}

  /** `{status, entities: data.elements || [], totalEntities: data.totalElements, ...apiReturn}` for a `data` that is not nullish. */
  function ListEntitiesReturn(bullReturn: Fields, data: Value): (r: Fields)
    ensures Get(r, "status") == Get(bullReturn, "status")
    // the Bull result itself is not returned
    ensures "data" !in r
    // the list defaults to `[]`; the total has no default; the envelope's own fields win
    ensures Get(r, "entities") == if "entities" in bullReturn then Some(bullReturn["entities"]) else Some(Or(Prop(data, "elements"), Arr([])))
    ensures Get(r, "totalEntities") == if "totalEntities" in bullReturn then Some(bullReturn["totalEntities"]) else Prop(data, "totalElements")
    ensures forall k :: k !in ReadKeys && k !in ListKeys ==> Get(r, k) == Get(bullReturn, k)
  {
    WithRest(ListHead(Get(bullReturn, "status"), Prop(data, "elements"), Prop(data, "totalElements")), bullReturn, ReadKeys)
  }

  /** `{status, entities: elements || [], totalEntities: totalElements}`, before the rest of the envelope is spread. */
  function ListHead(status: Option<Value>, elements: Option<Value>, totalElements: Option<Value>): (h: Fields)
    ensures Get(h, "status") == status && "data" !in h
    ensures Get(h, "entities") == Some(Or(elements, Arr([])))
    ensures Get(h, "totalEntities") == totalElements
    ensures forall k :: k !in ReadKeys && k !in ListKeys ==> k !in h
  {
    Put(Put(map["entities" := Or(elements, Arr([]))], "status", status), "totalEntities", totalElements)
  }

  /** `convertBullToBullListEntitiesReturn({status, data, ...apiReturn})` */
  function ConvertBullToBullListEntitiesReturn(bullReturn: Fields): (r: Result<Fields, Value>)
    // reading `elements` of a null or missing `data` throws
    ensures r.Err? <==> Nullish(Get(bullReturn, "data"))
    ensures r.Ok? ==> r.value == ListEntitiesReturn(bullReturn, bullReturn["data"])
  {
    match Get(bullReturn, "data")
    case None => Err(TypeError("Cannot read properties of undefined (reading 'elements')"))
    case Some(Null) => Err(TypeError("Cannot read properties of null (reading 'elements')"))
    case Some(data) => Ok(ListEntitiesReturn(bullReturn, data))
  }

  /** `fetchBullListEntities(props)`: the Bull call, then the return conversion. */
  function FetchBullListEntities(props: Fields, freshId: Value, host: Host): (r: Run)
    requires FetchBull.BullPropsTyped(props)
    ensures var bull := FetchBull.FetchBull(props, freshId, host);
      && r.sent == bull.sent && r.notified == bull.notified
      && (bull.completion.Rejected? ==> r.completion == bull.completion)
  {
    AndThen(FetchBull.FetchBull(ConvertBullListEntitiesToBullProps(props), freshId, host), ConvertBullToBullListEntitiesReturn)
  }

  // ---------- properties ----------

  /** The result's `elements` and `totalElements` come back renamed as `entities` and `totalEntities`. */
  lemma ElementsBecomeEntities(bullReturn: Fields)
    requires Get(bullReturn, "data").Some? && bullReturn["data"].Obj?
    requires "entities" !in bullReturn && "totalEntities" !in bullReturn
    ensures ConvertBullToBullListEntitiesReturn(bullReturn).Ok?
    ensures var ret := ConvertBullToBullListEntitiesReturn(bullReturn).value;
      var data := bullReturn["data"].fields;
      && Get(ret, "entities") == Some(Or(Get(data, "elements"), Arr([])))
      && Get(ret, "totalEntities") == Get(data, "totalElements")
      && (!Truthy(Get(data, "elements")) ==> Get(ret, "entities") == Some(Arr([])))
      && ("totalElements" !in data ==> "totalEntities" !in ret)
  {
  }

  /** Unlike the other list layer, an `entities` field of the result is not read: only `elements` is. */
  lemma EntitiesFieldIsIgnored(bullReturn: Fields, other: Fields)
    requires Get(bullReturn, "data").Some? && bullReturn["data"].Obj?
    requires other == bullReturn["data" := Obj(bullReturn["data"].fields["entities" := Arr([])])]
    ensures ConvertBullToBullListEntitiesReturn(bullReturn) == ConvertBullToBullListEntitiesReturn(other)
  {
    var d1 := bullReturn["data"];
    var d2 := other["data"];
    assert Prop(d2, "elements") == Prop(d1, "elements");
    assert Prop(d2, "totalElements") == Prop(d1, "totalElements");
    assert Get(other, "status") == Get(bullReturn, "status");
    assert bullReturn - ReadKeys == other - ReadKeys;
    assert ListEntitiesReturn(bullReturn, d1) == ListEntitiesReturn(other, d2);
  }

  /**
   * A Bull call settles the list call: it resolves exactly when the Bull call
   * resolved with a `data`, and then keeps its status. `bullRun` is the Bull
   * call that FetchBullListEntities wraps.
   */
  lemma ResolvesWithData(bullRun: Run)
    ensures var r := AndThen(bullRun, ConvertBullToBullListEntitiesReturn);
      && (r.completion.Resolved? <==> bullRun.completion.Resolved? && !Nullish(Get(bullRun.completion.value, "data")))
      && (r.completion.Resolved? ==> Get(r.completion.value, "status") == Get(bullRun.completion.value, "status"))
  {
  }

  /** A JSON-RPC error response (no `result`) leaves the Bull return without `data`, so the list call rejects. */
  lemma RpcErrorResponseRejects(env: Fields)
    requires Get(env, "data").Some? && env["data"].Obj? && "result" !in env["data"].fields
    ensures FetchRpc.ConvertApiToRpcReturn(env).Ok?
    ensures ConvertBullToBullListEntitiesReturn(FetchRpc.ConvertApiToRpcReturn(env).value).Err?
  {
    FetchRpc.MissingResultLeavesNoData(env);
  }
}
