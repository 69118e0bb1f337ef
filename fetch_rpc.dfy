/**
 * The JSON-RPC envelope of src/lib/fetchRpc.ts: RPC props become fetchApi
 * props whose `data` is a JSON-RPC 2.0 request object (section 4 of the
 * JSON-RPC 2.0 Specification), and the `result` member of the response
 * object (section 5) becomes the `data` of the return.
 *
 * `uuid()` is the parameter `freshId`: the value a fresh call would produce.
 */
module FetchRpc {
  import opened Js
  import opened FetchApi
  import FetchApiFacts

  /** The RPC-level fields, which never reach fetchApi's top level. */
  const RpcKeys: set<string> := {"id", "method", "params"}

  /** `params && Object.keys(params).length > 0` */
  predicate HasParams(params: Option<Value>) {
    Truthy(params) && |ObjectKeys(params.value)| > 0
  }

  /** The `id` after the parameter default `id = freshId` (which applies only to `undefined`). */
  function RpcId(props: Fields, freshId: Value): Value {
    if "id" in props then props["id"] else freshId
  }

  /** `{jsonrpc: "2.0", ...(data || {}), id, method, ...(HasParams(params) ? {params} : {})}` */
  function RequestObject(data: Option<Value>, id: Value, rpcMethod: Option<Value>, params: Option<Value>): (r: Fields)
    ensures Get(r, "jsonrpc") == if "jsonrpc" in Spread(data) then Some(Spread(data)["jsonrpc"]) else Some(Str("2.0"))
    ensures Get(r, "id") == Some(id) && Get(r, "method") == rpcMethod
    ensures HasParams(params) ==> Get(r, "params") == params
    ensures !HasParams(params) ==> Get(r, "params") == Get(Spread(data), "params")
    ensures forall k :: k !in {"jsonrpc", "id", "method", "params"} ==> Get(r, k) == Get(Spread(data), k)
  {
    SpreadOrEmpty(data);
    var base := map["jsonrpc" := Str("2.0")] + Spread(Some(Or(data, Obj(map[]))));
    var withCall := Put(base["id" := id], "method", rpcMethod);
    if HasParams(params) then withCall["params" := params.value] else withCall
  }

  /** `convertRpcToApiProps(props)` */
  function ConvertRpcToApiProps(props: Fields, freshId: Value): (r: Fields)
    // requests are POSTed unless the caller names another method
    ensures Get(r, "requestMethod") == Some(if "requestMethod" in props then props["requestMethod"] else Str("post"))
    // the body is the request object built from the caller's data and the RPC fields
    ensures Get(r, "data") == Some(Obj(RequestObject(Get(props, "data"), RpcId(props, freshId), Get(props, "method"), Get(props, "params"))))
    // every other field is forwarded, and the RPC fields are not
    ensures forall k :: k !in RpcKeys && k != "requestMethod" && k != "data" ==> Get(r, k) == Get(props, k)
    ensures forall k :: k in RpcKeys ==> k !in r
    ensures UrlIsString(props) ==> UrlIsString(r)
  {
    var rest := props - RpcKeys;
    map["requestMethod" := Str("post")] + rest
      + map["data" := Obj(RequestObject(Get(rest, "data"), RpcId(props, freshId), Get(props, "method"), Get(props, "params")))]
  }

  /** `convertApiToRpcReturn(apiReturn)`: `data` becomes `data.result`, which throws for a null or missing `data`. */
  function ConvertApiToRpcReturn(apiReturn: Fields): (r: Result<Fields, Value>)
    ensures r.Err? <==> Get(apiReturn, "data") == None || Get(apiReturn, "data") == Some(Null)
    ensures r.Ok? ==> Get(r.value, "data") == Prop(apiReturn["data"], "result")
    ensures r.Ok? ==> forall k :: k != "data" ==> Get(r.value, k) == Get(apiReturn, k)
  {
    match Get(apiReturn, "data")
    case None => Err(TypeError("Cannot read properties of undefined (reading 'result')"))
    case Some(Null) => Err(TypeError("Cannot read properties of null (reading 'result')"))
    case Some(data) => Ok(Put(apiReturn, "data", Prop(data, "result")))
  }

  /** `fetchRpc(props)`: `convertApiToRpcReturn(await fetchApi(convertRpcToApiProps(props)))` */
  function FetchRpc(props: Fields, freshId: Value, host: Host): (r: Run)
    requires UrlIsString(props)
    ensures r.sent == FetchApiRun(ConvertRpcToApiProps(props, freshId), host).sent
  {
    AndThen(FetchApiRun(ConvertRpcToApiProps(props, freshId), host), ConvertApiToRpcReturn)
  }

  // ---------- properties ----------

  /** The request object carries exactly the call: its `id`, its `method`, and its `params` only when there are any. */
  lemma RequestObjectCarriesCall(props: Fields, freshId: Value)
    ensures var data := ConvertRpcToApiProps(props, freshId)["data"].fields;
      && Get(data, "id") == Some(RpcId(props, freshId))
      && Get(data, "method") == Get(props, "method")
      && (HasParams(Get(props, "params")) ==> Get(data, "params") == Get(props, "params"))
  {
  }

  /** An absent or empty `params` adds no `params` member (unless the caller's data has its own). */
  lemma NoEmptyParams(props: Fields, freshId: Value)
    requires !HasParams(Get(props, "params"))
    requires Get(props, "data").None? || (props["data"].Obj? && "params" !in props["data"].fields)
    ensures "params" !in ConvertRpcToApiProps(props, freshId)["data"].fields
  {
    var data := ConvertRpcToApiProps(props, freshId)["data"].fields;
    assert Get(data, "params") == None;
  }

  /** Caller data is carried into the request object, but cannot replace its `id` or `method`. */
  lemma CallerDataCannotReplaceCall(props: Fields, freshId: Value, k: string)
    requires Get(props, "data").Some? && props["data"].Obj? && k in props["data"].fields
    ensures var data := ConvertRpcToApiProps(props, freshId)["data"].fields;
      && (k !in {"id", "method", "params"} ==> Get(data, k) == Some(props["data"].fields[k]))
      && (k == "id" ==> Get(data, k) == Some(RpcId(props, freshId)))
      && (k == "method" ==> Get(data, k) == Get(props, "method"))
  {
  }

  /** The caller may choose the HTTP method; otherwise it is POST. */
  lemma PostUnlessOverridden(props: Fields, freshId: Value)
    ensures "requestMethod" !in props ==> ConvertRpcToApiProps(props, freshId)["requestMethod"] == Str("post")
    ensures "requestMethod" in props ==> ConvertRpcToApiProps(props, freshId)["requestMethod"] == props["requestMethod"]
  {
  }

  /**
   * On the wire: an RPC call that gets as far as `fetch` is sent with the
   * HTTP method chosen above and the request object as its JSON body.
   */
  lemma RpcIsSentAsJson(props: Fields, freshId: Value, host: Host, sent: Request)
    requires UrlIsString(props)
    requires FetchRpc(props, freshId, host).sent == Some(sent)
    ensures var apiProps := ConvertRpcToApiProps(props, freshId);
      && Get(sent.init, "method") == Get(apiProps, "requestMethod")
      && Get(sent.init, "body") == Some(Str(host.stringify(apiProps["data"])))
      && "headers" in sent.init
  {
    var apiProps := ConvertRpcToApiProps(props, freshId);
    FetchApiFacts.SentRequestIsBuilt(apiProps, host, sent);
    assert Truthy(Get(apiProps, "data"));
    assert !IsFileUpload(Get(apiProps, "data"));
  }

  /** The fetch options among the RPC props survive both conversions into the request init. */
  lemma ConvertedOptionsAreForwarded(props: Fields, freshId: Value, host: Host)
    ensures var init := BuildRequest(ConvertRpcToApiProps(props, freshId), host);
      forall k :: k !in FetchOwnKeys ==> Get(init, k) == Get(props, k)
  {
    var apiProps := ConvertRpcToApiProps(props, freshId);
    var init := BuildRequest(apiProps, host);
    forall k | k !in FetchOwnKeys ensures Get(init, k) == Get(props, k) {
      assert Get(init, k) == Get(apiProps, k);
    }
  }

  /** Every fetch option the caller passes (such as `credentials`) reaches `fetch` unchanged, and so does the URL. */
  lemma RpcForwardsFetchOptions(props: Fields, freshId: Value, host: Host, sent: Request)
    requires UrlIsString(props)
    requires FetchRpc(props, freshId, host).sent == Some(sent)
    ensures "url" in props && Some(sent.url) == Target(props["url"].s, Get(props, "queryParams"), host)
    ensures forall k :: k !in FetchOwnKeys ==> Get(sent.init, k) == Get(props, k)
  {
    var apiProps := ConvertRpcToApiProps(props, freshId);
    FetchApiFacts.SentRequestIsBuilt(apiProps, host, sent);
    UrlFieldsForwarded(props, freshId);
    ConvertedOptionsAreForwarded(props, freshId, host);
  }

  /** `url` and `queryParams` reach fetchApi unchanged. */
  lemma UrlFieldsForwarded(props: Fields, freshId: Value)
    ensures Get(ConvertRpcToApiProps(props, freshId), "url") == Get(props, "url")
    ensures Get(ConvertRpcToApiProps(props, freshId), "queryParams") == Get(props, "queryParams")
  {
  }

  /** The props fetchRpc and fetchApi interpret themselves rather than forward to `fetch`. */
  const FetchOwnKeys: set<string> :=
    {"url", "queryParams", "data", "requestMethod", "headers", "method", "body", "id", "params"}

  /**
   * The result member of a response whose fetchApi envelope resolved becomes
   * the return's `data`; nothing else changes. `apiRun` is the fetchApi call
   * that FetchRpc wraps.
   */
  lemma ResultIsPromoted(apiRun: Run, env: Fields)
    requires apiRun.completion == Resolved(env)
    requires Get(env, "data").Some? && env["data"].Obj?
    ensures AndThen(apiRun, ConvertApiToRpcReturn).completion.Resolved?
    ensures var ret := AndThen(apiRun, ConvertApiToRpcReturn).completion.value;
      && Get(ret, "data") == Get(env["data"].fields, "result")
      && forall k :: k != "data" ==> Get(ret, k) == Get(env, k)
  {
  }

  /** A fetchApi envelope whose `data` has no `result` (a JSON-RPC error response, a text body) leaves `data` absent. */
  lemma MissingResultLeavesNoData(apiReturn: Fields)
    requires Get(apiReturn, "data").Some? && apiReturn["data"].Obj? && "result" !in apiReturn["data"].fields
    ensures ConvertApiToRpcReturn(apiReturn).Ok? && "data" !in ConvertApiToRpcReturn(apiReturn).value
  {
    assert Get(ConvertApiToRpcReturn(apiReturn).value, "data") == None;
  }
}
