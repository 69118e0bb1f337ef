/**
 * The JSON-RPC envelope of src/lib/fetch-rpc.ts: the same conversions as
 * src/lib/fetchRpc.ts, except that a call without an `id` gets the id 1
 * instead of a fresh uuid.
 *
 * This copy imports its fetchApi from src/lib/fetch-api.ts, which is not part
 * of this model; the composition below uses the fetchApi of
 * src/lib-legacy-2/fetch-api.ts in its place.
 */
module FetchRpcFixedId {
  import opened Js
  import opened FetchApi
  import Uuid = FetchRpc

  /** The `id` a call without one gets. */
  const DefaultId: Value := Num(1)

  /** `convertRpcToApiProps(props)` of this copy. */
  function ConvertRpcToApiProps(props: Fields): (r: Fields)
    ensures Get(r, "requestMethod") == Some(if "requestMethod" in props then props["requestMethod"] else Str("post"))
    ensures Get(r, "data").Some? && r["data"].Obj?
    ensures Get(r["data"].fields, "id") == Some(if "id" in props then props["id"] else DefaultId)
    ensures Get(r["data"].fields, "method") == Get(props, "method")
    ensures Uuid.HasParams(Get(props, "params")) ==> Get(r["data"].fields, "params") == Get(props, "params")
    ensures forall k :: k !in Uuid.RpcKeys && k != "requestMethod" && k != "data" ==> Get(r, k) == Get(props, k)
    ensures forall k :: k in Uuid.RpcKeys ==> k !in r
    ensures UrlIsString(props) ==> UrlIsString(r)
  {
    var id := if "id" in props then props["id"] else DefaultId;
    var rest := props - Uuid.RpcKeys;
    var r := map["requestMethod" := Str("post")] + rest
      + map["data" := Obj(Uuid.RequestObject(Get(rest, "data"), id, Get(props, "method"), Get(props, "params")))];
    // the uuid copy's conversion, with the id 1 for its fresh id
    assert r == Uuid.ConvertRpcToApiProps(props, DefaultId);
    r
  }

  /** `convertApiToRpcReturn(apiReturn)` of this copy. */
  function ConvertApiToRpcReturn(apiReturn: Fields): (r: Result<Fields, Value>)
    ensures r.Err? <==> Get(apiReturn, "data") == None || Get(apiReturn, "data") == Some(Null)
    ensures r.Ok? ==> Get(r.value, "data") == Prop(apiReturn["data"], "result")
    ensures r.Ok? ==> forall k :: k != "data" ==> Get(r.value, k) == Get(apiReturn, k)
  {
    if Get(apiReturn, "data") == None || Get(apiReturn, "data") == Some(Null) then
      Err(TypeError("Cannot read properties of " + (if "data" in apiReturn then "null" else "undefined") + " (reading 'result')"))
    else Ok(Put(apiReturn, "data", Prop(apiReturn["data"], "result")))
  }

  /** `fetchRpc(props)` of this copy. */
  function FetchRpc(props: Fields, host: Host): (r: Run)
    requires UrlIsString(props)
    ensures r.sent == FetchApiRun(ConvertRpcToApiProps(props), host).sent
  {
    AndThen(FetchApiRun(ConvertRpcToApiProps(props), host), ConvertApiToRpcReturn)
  }

  /** This copy is the uuid copy with the id 1 in place of a fresh uuid. */
  lemma SameAsUuidCopyWithIdOne(props: Fields)
    ensures ConvertRpcToApiProps(props) == Uuid.ConvertRpcToApiProps(props, DefaultId)
  {
  }

  /** Both copies unwrap `result` the same way, including where they throw. */
  lemma SameReturnConversion(apiReturn: Fields)
    ensures ConvertApiToRpcReturn(apiReturn).Ok? == Uuid.ConvertApiToRpcReturn(apiReturn).Ok?
    ensures ConvertApiToRpcReturn(apiReturn).Ok? ==>
      ConvertApiToRpcReturn(apiReturn).value == Uuid.ConvertApiToRpcReturn(apiReturn).value
  {
  }

  /** Two calls without an `id` carry the same id, whatever fresh id the other copy would have drawn. */
  lemma IdIsFixed(props: Fields, other: Fields)
    requires "id" !in props && "id" !in other
    ensures Get(ConvertRpcToApiProps(props)["data"].fields, "id") == Get(ConvertRpcToApiProps(other)["data"].fields, "id") == Some(Num(1))
  {
  }
}
