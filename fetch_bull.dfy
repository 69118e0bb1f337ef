/**
 * The Bull Bitcoin service layer of src/lib/fetchBull.ts: Bull props name a
 * `service`; the call goes to `api-<service>` resolved against a base URL,
 * with cookies included by default, through fetchRpc.
 *
 * The environment setting NEXT_PUBLIC_BB_API_URL is `host.envApiUrl`. Which
 * of the two fetchRpc copies this file's `fetchRpc` is depends on the library
 * index, which is not part of this model; the composition uses the uuid copy
 * (src/lib/fetchRpc.ts), whose fresh id is the parameter `freshId`.
 */
module FetchBull {
  import opened Js
  import opened FetchApi
  import opened UrlResolution
  import FetchRpc
  import FetchApiFacts

  const DefaultApiUrl := "https://api.bullbitcoin.com/"

  /** The source's types: `url` and `service` are strings. */
  predicate BullPropsTyped(props: Fields) {
    UrlIsString(props) && ("service" in props ==> props["service"].Str?)
  }

  /** `url || process.env.NEXT_PUBLIC_BB_API_URL || 'https://api.bullbitcoin.com/'` */
  function BaseUrl(url: Option<Value>, env: Option<string>): (base: string)
    requires url.Some? ==> url.value.Str?
    ensures Truthy(url) ==> base == url.value.s
    ensures !Truthy(url) && env.Some? && env.value != "" ==> base == env.value
    ensures !Truthy(url) && (env.None? || env.value == "") ==> base == DefaultApiUrl
    ensures base != ""
  {
    if Truthy(url) then url.value.s
    else if env.Some? && env.value != "" then env.value
    else DefaultApiUrl
  }

  /** `service ? `api-${service}` : ''` */
  function ServiceRef(service: Option<Value>): (ref: string)
    requires service.Some? ==> service.value.Str?
    ensures Truthy(service) ==> ref == "api-" + service.value.s
    ensures !Truthy(service) ==> ref == ""
  {
    if Truthy(service) then "api-" + service.value.s else ""
  }

  /** The fields Bull props keep out of the RPC props. */
  const BullKeys: set<string> := {"url", "service"}

  /** `convertBullToRpcProps(props)`; it throws when `new URL` rejects the base. */
  function ConvertBullToRpcProps(props: Fields, host: Host): (r: Result<Fields, Value>)
    requires BullPropsTyped(props)
    ensures var target := ResolveUrl(ServiceRef(Get(props, "service")), BaseUrl(Get(props, "url"), host.envApiUrl), host);
      && (r.Err? <==> target.None?)
      && (r.Ok? ==> Get(r.value, "url") == Some(Str(target.value)))
    // cookies are sent unless the caller says otherwise
    ensures r.Ok? ==> Get(r.value, "credentials") == Some(if "credentials" in props then props["credentials"] else Str("include"))
    // `service` does not reach the RPC layer; `params` and every other field do, unchanged
    ensures r.Ok? ==> "service" !in r.value
    ensures r.Ok? ==> forall k :: k !in BullKeys && k != "credentials" ==> Get(r.value, k) == Get(props, k)
    ensures r.Ok? ==> UrlIsString(r.value)
  {
    var base := BaseUrl(Get(props, "url"), host.envApiUrl);
    var rest := props - BullKeys;
    match ResolveUrl(ServiceRef(Get(props, "service")), base, host)
    case None => Err(TypeError("Invalid URL"))
    case Some(href) =>
      Ok(Put(map["credentials" := Str("include"), "url" := Str(href)] + rest, "params", Get(rest, "params")))
  }

  /** `convertRpcToBullReturn`: the identity. */
  function ConvertRpcToBullReturn(rpcReturn: Fields): (r: Result<Fields, Value>)
    ensures r == Ok(rpcReturn)
  {
    Ok(rpcReturn)
  }

  /** `fetchBull(props)`: a throwing conversion rejects before anything is sent. */
  function FetchBull(props: Fields, freshId: Value, host: Host): (r: Run)
    requires BullPropsTyped(props)
    ensures ConvertBullToRpcProps(props, host).Err? ==> r == Run(Rejected(ConvertBullToRpcProps(props, host).error), None, [])
  {
    match ConvertBullToRpcProps(props, host)
    case Err(e) => Run(Rejected(e), None, [])
    case Ok(rpcProps) => AndThen(FetchRpc.FetchRpc(rpcProps, freshId, host), ConvertRpcToBullReturn)
  }

  // ---------- properties ----------

  /** Once the props convert, a Bull call is exactly the RPC call on the converted props. */
  lemma FetchBullIsFetchRpc(props: Fields, freshId: Value, host: Host)
    requires BullPropsTyped(props) && ConvertBullToRpcProps(props, host).Ok?
    ensures FetchBull(props, freshId, host) == FetchRpc.FetchRpc(ConvertBullToRpcProps(props, host).value, freshId, host)
  {
  }

  /**
   * A service resolves to `api-<service>` in the base URL's directory; the
   * base's last segment, query and fragment are dropped, except that a file
   * URL's lone drive letter is kept.
   */
  lemma ServiceSitsInBaseDirectory(props: Fields, host: Host, u: Url)
    requires BullPropsTyped(props) && Truthy(Get(props, "service")) && PlainSegment("api-" + props["service"].s)
    requires host.parseUrl(BaseUrl(Get(props, "url"), host.envApiUrl)) == Some(u) && !u.opaquePath && u.path != ""
    ensures ConvertBullToRpcProps(props, host).Ok?
    ensures !DriveLetterBase(u) ==>
      Get(ConvertBullToRpcProps(props, host).value, "url") == Some(Str(u.origin + DirectoryOf(u.path) + "api-" + props["service"].s))
    ensures DriveLetterBase(u) ==>
      Get(ConvertBullToRpcProps(props, host).value, "url") == Some(Str(u.origin + u.path + "/api-" + props["service"].s))
  {
    var s := props["service"].s;
    SegmentReplacesLastSegment(BaseUrl(Get(props, "url"), host.envApiUrl), host, "api-" + s, u);
    assert u.origin + DirectoryOf(u.path) + ("api-" + s) == u.origin + DirectoryOf(u.path) + "api-" + s;
    assert u.origin + u.path + "/" + ("api-" + s) == u.origin + u.path + "/api-" + s;
  }

  /** With neither a url nor an environment setting, a service call goes to `https://api.bullbitcoin.com/api-<service>`. */
  lemma DefaultServiceUrl(props: Fields, host: Host)
    requires BullPropsTyped(props) && !Truthy(Get(props, "url")) && (host.envApiUrl.None? || host.envApiUrl.value == "")
    requires Truthy(Get(props, "service")) && PlainSegment("api-" + props["service"].s)
    requires host.parseUrl(DefaultApiUrl) == Some(Url("https://api.bullbitcoin.com", "/", None, None, false))
    ensures ConvertBullToRpcProps(props, host).Ok?
    ensures Get(ConvertBullToRpcProps(props, host).value, "url") == Some(Str("https://api.bullbitcoin.com/api-" + props["service"].s))
  {
    ServiceSitsInBaseDirectory(props, host, Url("https://api.bullbitcoin.com", "/", None, None, false));
    assert !DriveLetterBase(Url("https://api.bullbitcoin.com", "/", None, None, false));
    DirectoryOfDirectory("/");
    assert "https://api.bullbitcoin.com" + "/" + "api-" == "https://api.bullbitcoin.com/api-";
  }

  /**
   * An explicit url with a service is only the base: the call goes to the
   * service segment beside it, not to the url itself (below it, for a file
   * URL that is a lone drive letter).
   */
  lemma ExplicitUrlIsOnlyBase(props: Fields, host: Host, u: Url)
    requires BullPropsTyped(props) && Truthy(Get(props, "url"))
    requires Truthy(Get(props, "service")) && PlainSegment("api-" + props["service"].s)
    requires host.parseUrl(props["url"].s) == Some(u) && !u.opaquePath && u.path != ""
    ensures ConvertBullToRpcProps(props, host).Ok?
    ensures !DriveLetterBase(u) ==>
      Get(ConvertBullToRpcProps(props, host).value, "url") == Some(Str(u.origin + DirectoryOf(u.path) + "api-" + props["service"].s))
    ensures DriveLetterBase(u) ==>
      Get(ConvertBullToRpcProps(props, host).value, "url") == Some(Str(u.origin + u.path + "/api-" + props["service"].s))
  {
    ServiceSitsInBaseDirectory(props, host, u);
  }

  /** Without a service the call goes to the base URL itself, less its fragment. */
  lemma NoServiceUsesBase(props: Fields, host: Host, u: Url)
    requires BullPropsTyped(props) && !Truthy(Get(props, "service"))
    requires host.parseUrl(BaseUrl(Get(props, "url"), host.envApiUrl)) == Some(u) && !u.opaquePath
    ensures ConvertBullToRpcProps(props, host).Ok?
    ensures Get(ConvertBullToRpcProps(props, host).value, "url") == Some(Str(Href(u.(fragment := None))))
  {
  }

  /**
   * A base with an opaque path (`mailto:x`) parses, but `new URL` cannot
   * resolve the service segment, or the empty reference, against it: the call
   * rejects with "Invalid URL" before anything is sent.
   */
  lemma OpaqueBaseRejects(props: Fields, freshId: Value, host: Host, u: Url)
    requires BullPropsTyped(props)
    requires host.parseUrl(BaseUrl(Get(props, "url"), host.envApiUrl)) == Some(u) && u.opaquePath
    requires Truthy(Get(props, "service")) ==> PlainSegment("api-" + props["service"].s)
    ensures ConvertBullToRpcProps(props, host) == Err(TypeError("Invalid URL"))
    ensures FetchBull(props, freshId, host) == Run(Rejected(TypeError("Invalid URL")), None, [])
  {
  }

  /** The base URL falls back from the caller's url to the environment setting to the public API. */
  lemma BaseFallsBack(props: Fields, host: Host)
    requires BullPropsTyped(props)
    ensures Truthy(Get(props, "url")) ==> BaseUrl(Get(props, "url"), host.envApiUrl) == props["url"].s
    ensures !Truthy(Get(props, "url")) && host.envApiUrl.Some? && host.envApiUrl.value != "" ==>
      BaseUrl(Get(props, "url"), host.envApiUrl) == host.envApiUrl.value
    ensures !Truthy(Get(props, "url")) && (host.envApiUrl.None? || host.envApiUrl.value == "") ==>
      BaseUrl(Get(props, "url"), host.envApiUrl) == DefaultApiUrl
  {
  }

  /** An RPC call made on the Bull layer's props sends their URL, credentials mode and HTTP method. */
  lemma RpcCallReachesFetch(rpcProps: Fields, freshId: Value, host: Host, sent: Request)
    requires UrlIsString(rpcProps) && FetchRpc.FetchRpc(rpcProps, freshId, host).sent == Some(sent)
    ensures "url" in rpcProps
    ensures Some(sent.url) == Target(rpcProps["url"].s, Get(rpcProps, "queryParams"), host)
    ensures Get(sent.init, "credentials") == Get(rpcProps, "credentials")
    ensures Get(sent.init, "method") == Some(if "requestMethod" in rpcProps then rpcProps["requestMethod"] else Str("post"))
  {
    FetchRpc.RpcIsSentAsJson(rpcProps, freshId, host, sent);
    FetchRpc.RpcForwardsFetchOptions(rpcProps, freshId, host, sent);
    CredentialsIsAFetchOption();
  }

  /** `credentials` is not one of the props fetchRpc and fetchApi interpret themselves. */
  lemma CredentialsIsAFetchOption()
    ensures "credentials" !in FetchRpc.FetchOwnKeys
  {
  }

  /** On the wire: the credentials mode and the resolved URL reach `fetch`, and the request is POSTed unless the caller chose another method. */
  lemma BullCallReachesFetch(props: Fields, freshId: Value, host: Host, rpcProps: Fields, sent: Request)
    requires BullPropsTyped(props) && ConvertBullToRpcProps(props, host) == Ok(rpcProps)
    requires FetchRpc.FetchRpc(rpcProps, freshId, host).sent == Some(sent)  // which is FetchBull's, by FetchBullIsFetchRpc
    requires !Truthy(Get(props, "queryParams"))
    ensures Get(rpcProps, "url").Some? && rpcProps["url"].Str?
    ensures Some(sent.url) == host.parseUrl(rpcProps["url"].s)
    ensures Get(sent.init, "credentials") == Get(rpcProps, "credentials")
    ensures Get(sent.init, "method") == Some(if "requestMethod" in props then props["requestMethod"] else Str("post"))
  {
    RpcCallReachesFetch(rpcProps, freshId, host, sent);
    RequestFieldsForwarded(props, host, rpcProps);
  }

  /** The Bull layer hands `queryParams`, `requestMethod` and the RPC `method` to the RPC layer unchanged. */
  lemma RequestFieldsForwarded(props: Fields, host: Host, rpcProps: Fields)
    requires BullPropsTyped(props) && ConvertBullToRpcProps(props, host) == Ok(rpcProps)
    ensures Get(rpcProps, "queryParams") == Get(props, "queryParams")
    ensures Get(rpcProps, "requestMethod") == Get(props, "requestMethod")
    ensures Get(rpcProps, "method") == Get(props, "method")
  {
  }

  /**
   * With no url and no environment setting, a call to the `permissions`
   * service goes to https://api.bullbitcoin.com/api-permissions, naming its
   * RPC method.
   */
  lemma PermissionsCall(props: Fields, host: Host, rpcMethod: string)
    requires BullPropsTyped(props) && Get(props, "url") == None
    requires Get(props, "service") == Some(Str("permissions")) && Get(props, "method") == Some(Str(rpcMethod))
    requires host.envApiUrl.None? || host.envApiUrl.value == ""
    requires host.parseUrl(DefaultApiUrl) == Some(Url("https://api.bullbitcoin.com", "/", None, None, false))
    ensures ConvertBullToRpcProps(props, host).Ok?
    ensures var rpcProps := ConvertBullToRpcProps(props, host).value;
      && Get(rpcProps, "url") == Some(Str("https://api.bullbitcoin.com/api-permissions"))
      && Get(rpcProps, "method") == Some(Str(rpcMethod))
  {
    PermissionsIsPlain();
    DefaultServiceUrl(props, host);
    var rpcProps := ConvertBullToRpcProps(props, host).value;
    RequestFieldsForwarded(props, host, rpcProps);
    PermissionsUrl();
  }

  /** The default Bull API URL of the permissions service. */
  lemma PermissionsUrl()
    ensures "https://api.bullbitcoin.com/api-" + "permissions" == "https://api.bullbitcoin.com/api-permissions"
  {
  }

  /** The permissions service of the Bull API is reached through the plain path segment `api-permissions`. */
  lemma PermissionsIsPlain()
    ensures PlainSegment("api-" + "permissions")
  {
    var ref := "api-" + "permissions";
    assert ref == "api-permissions";
    forall i | 0 <= i < |ref| ensures Unreserved(ref[i]) {
    }
  }

  /**
   * On the wire, a `permissions` call with no url, no environment setting and
   * none of the request options set is POSTed with cookies to
   * https://api.bullbitcoin.com/api-permissions, and its body is the JSON of
   * the request object naming the RPC method.
   */
  lemma PermissionsCallReachesFetch(props: Fields, freshId: Value, host: Host, rpcMethod: string, sent: Request)
    requires BullPropsTyped(props) && Get(props, "url") == None
    requires Get(props, "service") == Some(Str("permissions")) && Get(props, "method") == Some(Str(rpcMethod))
    requires Get(props, "queryParams") == None && Get(props, "requestMethod") == None && Get(props, "credentials") == None
    requires host.envApiUrl.None? || host.envApiUrl.value == ""
    requires host.parseUrl(DefaultApiUrl) == Some(Url("https://api.bullbitcoin.com", "/", None, None, false))
    requires FetchBull(props, freshId, host).sent == Some(sent)
    ensures Some(sent.url) == host.parseUrl("https://api.bullbitcoin.com/api-permissions")
    ensures Get(sent.init, "method") == Some(Str("post"))
    ensures Get(sent.init, "credentials") == Some(Str("include"))
    ensures Get(sent.init, "body") == Some(Str(host.stringify(Obj(
      FetchRpc.RequestObject(Get(props, "data"), FetchRpc.RpcId(props, freshId), Some(Str(rpcMethod)), Get(props, "params"))))))
  {
    PermissionsCall(props, host, rpcMethod);
    var rpcProps := ConvertBullToRpcProps(props, host).value;
    PermissionsRpcProps(props, host, rpcMethod, rpcProps);
    FetchBullIsFetchRpc(props, freshId, host);
    RpcWire(rpcProps, freshId, host, sent, "https://api.bullbitcoin.com/api-permissions");
  }

  /** The RPC props of such a `permissions` call. */
  lemma PermissionsRpcProps(props: Fields, host: Host, rpcMethod: string, rpcProps: Fields)
    requires BullPropsTyped(props) && Get(props, "url") == None
    requires Get(props, "service") == Some(Str("permissions")) && Get(props, "method") == Some(Str(rpcMethod))
    requires Get(props, "queryParams") == None && Get(props, "requestMethod") == None && Get(props, "credentials") == None
    requires host.envApiUrl.None? || host.envApiUrl.value == ""
    requires host.parseUrl(DefaultApiUrl) == Some(Url("https://api.bullbitcoin.com", "/", None, None, false))
    requires ConvertBullToRpcProps(props, host) == Ok(rpcProps)
    ensures UrlIsString(rpcProps) && Get(rpcProps, "url") == Some(Str("https://api.bullbitcoin.com/api-permissions"))
    ensures Get(rpcProps, "queryParams") == None && Get(rpcProps, "requestMethod") == None
    ensures Get(rpcProps, "credentials") == Some(Str("include"))
    ensures Get(rpcProps, "method") == Some(Str(rpcMethod))
    ensures Get(rpcProps, "data") == Get(props, "data") && Get(rpcProps, "params") == Get(props, "params")
    ensures ("id" in rpcProps <==> "id" in props) && Get(rpcProps, "id") == Get(props, "id")
  {
    PermissionsCall(props, host, rpcMethod);
    RequestFieldsForwarded(props, host, rpcProps);
    assert "data" !in BullKeys && "params" !in BullKeys && "id" !in BullKeys;
    assert Get(rpcProps, "id") == Get(props, "id");
  }

  /** An RPC call without queryParams or requestMethod that reaches `fetch`: its URL, method, credentials and JSON body. */
  lemma RpcWire(rpcProps: Fields, freshId: Value, host: Host, sent: Request, url: string)
    requires UrlIsString(rpcProps) && Get(rpcProps, "url") == Some(Str(url))
    requires Get(rpcProps, "queryParams") == None && Get(rpcProps, "requestMethod") == None
    requires FetchRpc.FetchRpc(rpcProps, freshId, host).sent == Some(sent)
    ensures Some(sent.url) == host.parseUrl(url)
    ensures Get(sent.init, "method") == Some(Str("post"))
    ensures Get(sent.init, "credentials") == Get(rpcProps, "credentials")
    ensures Get(sent.init, "body") == Some(Str(host.stringify(Obj(
      FetchRpc.RequestObject(Get(rpcProps, "data"), FetchRpc.RpcId(rpcProps, freshId), Get(rpcProps, "method"), Get(rpcProps, "params"))))))
  {
    RpcCallReachesFetch(rpcProps, freshId, host, sent);
    FetchRpc.RpcIsSentAsJson(rpcProps, freshId, host, sent);
  }
}
