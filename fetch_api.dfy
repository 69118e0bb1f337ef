/**
 * `fetchApi` of src/lib-legacy-2/fetch-api.ts: turns a props object into one
 * call of `fetch`, and folds whatever happens (no URL, a URL that does not
 * parse, a thrown send, an HTTP failure, a body that cannot be read, a
 * throwing `onFetch`) into one response envelope.
 *
 * The network, URL parsing, query-string serialisation, `JSON.stringify` and
 * the caller's callbacks are the `Host`'s oracles. `FetchApi` is the
 * imperative model and `FetchApiRun` the specification it is proved to meet;
 * the lemmas below state the source's promises about `FetchApiRun`.
 */
module FetchApi {
  import opened Js

  // ---------- the outside world ----------

  /**
   * A parsed URL: everything before the path, the path, the query (without
   * '?') and the fragment. `opaquePath` is set when the path is opaque, as for
   * `mailto:x` or `data:...` (a non-special scheme whose path does not start
   * with '/'); `new URL(s)` reports it.
   */
  datatype Url = Url(origin: string, path: string, query: Option<string>, fragment: Option<string>, opaquePath: bool)

  /** `url.toString()` */
  function Href(u: Url): string {
    u.origin + u.path
    + (match u.query case Some(q) => "?" + q case None => "")
    + (match u.fragment case Some(f) => "#" + f case None => "")
  }

  /**
   * The `search` setter of the WHATWG URL standard: the empty string removes
   * the query, anything else (less one leading '?') replaces it.
   */
  function WithSearch(u: Url, search: string): (r: Url)
    ensures r.origin == u.origin && r.path == u.path && r.fragment == u.fragment
    ensures search == "" ==> r.query == None
    ensures search != "" && search[0] != '?' ==> r.query == Some(search)
  {
    u.(query := if search == "" then None else Some(if search[0] == '?' then search[1..] else search))
  }

  /** What `fetch(url, init)` is called with. */
  datatype Request = Request(url: Url, init: Fields)

  /** `await response.json()` / `await response.text()`: the value, or what it threw. */
  datatype BodyRead = Read(value: Value) | Unreadable(thrown: Value)

  datatype Response = Response(status: int, statusText: string, isJson: bool, body: BodyRead)

  /** `await fetch(...)`: a response, or what it threw. */
  datatype Exchange = Threw(thrown: Value) | Answered(response: Response)

  datatype Host = Host(
    parseUrl: string -> Option<Url>,           // `new URL(s)`; None when it throws
    searchParams: Value -> Option<string>,     // `new URLSearchParams(q).toString()`; None when it throws
    stringify: Value -> string,                // `JSON.stringify`
    fetch: Request -> Exchange,                // the network
    callback: (nat, Fields) -> Option<Value>,  // calling the caller's function `id`; Some(e) when it throws e
    resolveUrl: (string, string) -> Option<string>,  // `new URL(ref, base).toString()` for references not modelled here
    envApiUrl: Option<string>)                 // the NEXT_PUBLIC_BB_API_URL environment setting

  /** How a call of an async layer settles. */
  datatype Completion = Resolved(value: Fields) | Rejected(reason: Value)

  /** One call: how it settles, what it handed to `fetch` (if it got that far) and what `onFetch` was called with. */
  datatype Run = Run(completion: Completion, sent: Option<Request>, notified: seq<Fields>)

  /** `const res = await lower(...); return convert(res);` */
  function AndThen(run: Run, convert: Fields -> Result<Fields, Value>): (r: Run)
    ensures r.sent == run.sent && r.notified == run.notified
    ensures run.completion.Rejected? ==> r.completion == run.completion
    ensures run.completion.Resolved? ==>
      match convert(run.completion.value)
      case Ok(v) => r.completion == Resolved(v)
      case Err(e) => r.completion == Rejected(e)
  {
    match run.completion
    case Rejected(e) => run
    case Resolved(v) =>
      match convert(v)
      case Ok(w) => run.(completion := Resolved(w))
      case Err(e) => run.(completion := Rejected(e))
  }

  // ---------- props ----------

  /** The source's type says `url: string`. */
  predicate UrlIsString(props: Fields) {
    "url" in props ==> props["url"].Str?
  }

  /** `typeof props.avoidNonPlainObject === 'boolean' ? props.avoidNonPlainObject : false` */
  function AvoidNonPlainObject(props: Fields): (avoid: bool)
    ensures avoid <==> Get(props, "avoidNonPlainObject") == Some(Bool(true))
  {
    match Get(props, "avoidNonPlainObject")
    case Some(Bool(b)) => b
    case _ => false
  }

  // ---------- errors ----------

  const NoCode := "ERR_NO_CODE"

  /** The defaults of a custom error, before the caller's fields are spread over them. */
  const ErrorDefaults: Fields := map["name" := Str("Error"), "message" := Str("No Information on error"), "code" := Str(NoCode)]

  /** `createFetchApiError(e, avoidNonPlainObject)` */
  function CreateFetchApiError(e: Value, avoid: bool): (r: Fields)
    // an Error is wrapped whatever the flag says, and keeps the Error itself
    ensures e.ErrorObject? ==>
      r.Keys == {"name", "message", "code", "e"} && r["name"] == e.name && r["message"] == e.message
      && r["code"] == Str(NoCode) && r["e"] == e
    // anything else: the defaults, with the caller's fields winning
    ensures !e.ErrorObject? ==>
      && r.Keys == ErrorDefaults.Keys + Spread(Some(e)).Keys + (if avoid then {} else {"e"})
      && (forall k :: k in ErrorDefaults && k !in Spread(Some(e)) ==> r[k] == ErrorDefaults[k])
      && (forall k :: k in Spread(Some(e)) && (avoid || k != "e") ==> r[k] == Spread(Some(e))[k])
      && (!avoid ==> r["e"] == ErrorObject(r["name"], r["message"]))
  {
    if e.ErrorObject? then
      map["name" := e.name, "message" := e.message, "code" := Str(NoCode), "e" := e]
    else
      var apiError := ErrorDefaults + Spread(Some(e));
      if !avoid then apiError["e" := ErrorObject(apiError["name"], apiError["message"])] else apiError
  }

  /** `catchError(res, e, status, avoidNonPlainObject)`; reading `e.status` of a thrown `null` throws. */
  function CatchError(res: Fields, e: Value, status: int, avoid: bool): (r: Result<Fields, Value>)
    ensures r.Err? <==> e.Null?
    ensures r.Ok? ==> forall k :: k != "status" && k != "error" ==> Get(r.value, k) == Get(res, k)
    ensures e.ErrorObject? ==>
      Get(r.value, "status") == Some(Num(status)) && Get(r.value, "error") == Some(Obj(CreateFetchApiError(e, avoid)))
    ensures r.Ok? && !e.ErrorObject? ==>
      Get(r.value, "status") == Prop(e, "status") && Get(r.value, "error") == Prop(e, "error")
  {
    if e.ErrorObject? then
      Ok(res["status" := Num(status)]["error" := Obj(CreateFetchApiError(e, avoid))])
    else if e.Null? then
      Err(TypeError("Cannot read properties of null (reading 'status')"))
    else
      Ok(Put(Put(res, "status", Prop(e, "status")), "error", Prop(e, "error")))
  }

  const NoUrlError: Fields := map["name" := Str("URL"), "message" := Str("Undefined URL"), "code" := Str("ERR_NO_URL")]
  const InvalidUrlError: Fields := map["name" := Str("URL"), "message" := Str("Invalid URL"), "code" := Str("ERR_INVALID_URL")]

  /** The error of an HTTP response that is not ok. */
  function NetworkError(response: Response): Fields {
    map["name" := Str("Network Error"), "message" := Str(response.statusText),
        "code" := Str("ERR_NETWORK"), "status" := Num(response.status)]
  }

  // ---------- request ----------

  /** `!!(data?.get?.('file') instanceof File)` */
  predicate IsFileUpload(data: Option<Value>) {
    data.Some? && data.value.Native? && data.value.kind.FormData? && data.value.kind.hasFile
  }

  const JsonContentType: Fields := map["Content-Type" := Str("application/json")]

  /** The `RequestInit` handed to `fetch`. */
  function BuildRequest(props: Fields, host: Host): (r: Fields)
    ensures Get(r, "method") == Some(if "requestMethod" in props then props["requestMethod"] else Str("get"))
    ensures Truthy(Get(props, "data")) ==>
      Get(r, "body") == Some(if IsFileUpload(Get(props, "data")) then props["data"] else Str(host.stringify(props["data"])))
    ensures !Truthy(Get(props, "data")) ==> Get(r, "body") == Get(props, "body")
    ensures "headers" in r <==> Truthy(Get(props, "data")) || Truthy(Get(props, "headers"))
    ensures "headers" in r ==>
      var headers := r["headers"];
      var own := Spread(Get(props, "headers"));
      var json := Truthy(Get(props, "data")) && !IsFileUpload(Get(props, "data"));
      && headers.Obj?
      && headers.fields.Keys == own.Keys + (if json then {"Content-Type"} else {})
      && (forall k :: k in own ==> headers.fields[k] == own[k])
      && (json && "Content-Type" !in own ==> headers.fields["Content-Type"] == Str("application/json"))
    ensures forall k :: k !in {"url", "queryParams", "data", "requestMethod", "headers", "method", "body"} ==>
      Get(r, k) == Get(props, k)
  {
    var data := Get(props, "data");
    var headers := Get(props, "headers");
    var rest := props - {"url", "queryParams", "data", "requestMethod", "headers"};
    var file := IsFileUpload(data);
    var withMethod := rest["method" := if "requestMethod" in props then props["requestMethod"] else Str("get")];
    var withBody := if Truthy(data) then withMethod["body" := if file then data.value else Str(host.stringify(data.value))] else withMethod;
    if Truthy(data) || Truthy(headers) then withBody["headers" := Obj(RequestHeaders(data, headers))]
    else withBody
  }

  /** `{...(isFile ? {} : data ? {'Content-Type': 'application/json'} : {}), ...(headers || {})}` */
  function RequestHeaders(data: Option<Value>, headers: Option<Value>): (h: Fields)
    ensures var own := Spread(headers);
      var json := Truthy(data) && !IsFileUpload(data);
      && h.Keys == own.Keys + (if json then {"Content-Type"} else {})
      && (forall k :: k in own ==> h[k] == own[k])
      && (json && "Content-Type" !in own ==> h["Content-Type"] == Str("application/json"))
  {
    SpreadOrEmpty(headers);
    (if IsFileUpload(data) then map[] else if Truthy(data) then JsonContentType else map[])
      + Spread(Some(Or(headers, Obj(map[]))))
  }

  /** `new URL(url)`, then `url.search = new URLSearchParams(queryParams).toString()` when queryParams is truthy. */
  function Target(href: string, queryParams: Option<Value>, host: Host): (r: Option<Url>)
    ensures host.parseUrl(href).None? ==> r.None?
    ensures host.parseUrl(href).Some? && !Truthy(queryParams) ==> r == host.parseUrl(href)
    ensures host.parseUrl(href).Some? && Truthy(queryParams) ==>
      r == match host.searchParams(queryParams.value)
           case None => None
           case Some(s) => Some(WithSearch(host.parseUrl(href).value, s))
  {
    match host.parseUrl(href)
    case None => None
    case Some(u) =>
      if !Truthy(queryParams) then Some(u)
      else match host.searchParams(queryParams.value)
        case None => None
        case Some(s) => Some(WithSearch(u, s))
  }

  // ---------- the specification ----------

  /** The envelope before anything happened; its key order in the source is the documented field order. */
  function Initial(props: Fields): Fields {
    map["status" := Null, "data" := Obj(map[]), "req" := Null, "res" := Null, "raw" := Obj(map["req" := Obj(props)])]
  }

  /** The keys a fetchApi envelope may carry. */
  const EnvelopeKeys: set<string> := {"status", "data", "req", "res", "raw", "error"}

  /** The 404 envelope of a URL failure. */
  function UrlFailure(props: Fields, error: Fields): Fields {
    Initial(props)["status" := Num(404)]["error" := Obj(CreateFetchApiError(Obj(error), AvoidNonPlainObject(props)))]
  }

  /** Which way a call goes. */
  datatype Path =
    | MissingUrl
    | InvalidUrl
    | SendThrew(sent: Request, thrown: Value)
    | ReadThrew(sent: Request, thrown: Value)
    | Received(sent: Request, response: Response, body: Value)
  {
    /** What reached `fetch`. */
    function Sent(): Option<Request> {
      if MissingUrl? || InvalidUrl? then None else Some(sent)
    }
  }

  function PathOf(props: Fields, host: Host): (p: Path)
    requires UrlIsString(props)
    ensures !p.MissingUrl? ==> "url" in props && props["url"] != Str("")
  {
    var url := Get(props, "url");
    if !Truthy(url) then MissingUrl
    else match Target(url.value.s, Get(props, "queryParams"), host)
      case None => InvalidUrl
      case Some(u) =>
        var sent := Request(u, BuildRequest(props, host));
        match host.fetch(sent)
        case Threw(e) => SendThrew(sent, e)
        case Answered(response) =>
          match response.body
          case Unreadable(e) => ReadThrew(sent, e)
          case Read(body) => Received(sent, response, body)
  }

  /** `Response.ok` */
  predicate IsOk(status: int) {
    200 <= status <= 299
  }

  /** The envelope once `req` holds the props (with `url` as the string it already is). */
  function Requested(props: Fields): Fields {
    Initial(props)["req" := Obj(props)]
  }

  /** `{status, statusText, body, isJson}` */
  function Summary(response: Response, body: Value): Fields {
    map["status" := Num(response.status), "statusText" := Str(response.statusText),
        "body" := body, "isJson" := Bool(response.isJson)]
  }

  /** The envelope built from a response whose body was read. */
  function Folded(props: Fields, sent: Request, response: Response, body: Value): Fields
    requires "url" in props
  {
    var avoid := AvoidNonPlainObject(props);
    var raw := map["req" := Obj(sent.init), "url" := props["url"]];
    var withError :=
      if IsOk(response.status) then Requested(props)
      else Requested(props)["error" := Obj(CreateFetchApiError(Obj(NetworkError(response)), avoid))];
    withError["res" := Obj(Summary(response, body))]
             ["raw" := Obj(if avoid then raw else raw["res" := Native(ResponseObject)])]
             ["data" := body]
             ["status" := Or(Prop(body, "status"), Num(response.status))]
  }

  /** What calling `props.onFetch?.(env)` did: whom it was called with, and what it threw. */
  datatype Notice = Notice(calls: seq<Fields>, thrown: Option<Value>)

  function Notify(props: Fields, host: Host, env: Fields): (n: Notice)
    ensures n.calls == [] || n.calls == [env]
    ensures n.calls == [env] <==> IsCallable(Get(props, "onFetch"))
    ensures Get(props, "onFetch") == None || Get(props, "onFetch") == Some(Null) ==> n == Notice([], None)
  {
    match Get(props, "onFetch")
    case None => Notice([], None)
    case Some(Null) => Notice([], None)
    case Some(Native(Function(id))) => Notice([env], host.callback(id, env))
    case Some(_) => Notice([], Some(TypeError("props.onFetch is not a function")))
  }

  predicate IsCallable(f: Option<Value>) {
    f.Some? && f.value.Native? && f.value.kind.Function?
  }

  /** `return propagateAndReturn(env)` where nothing catches: it resolves to `env` unless `onFetch` throws. */
  function Deliver(props: Fields, host: Host, sent: Option<Request>, env: Fields): (r: Run)
    ensures r.sent == sent && r.notified == Notify(props, host, env).calls
    ensures r.completion == if Notify(props, host, env).thrown.None? then Resolved(env) else Rejected(Notify(props, host, env).thrown.value)
  {
    var n := Notify(props, host, env);
    Run(if n.thrown.None? then Resolved(env) else Rejected(n.thrown.value), sent, n.calls)
  }

  /** `return propagateAndReturn(catchError(env, e, status, avoid))` in a catch block. */
  function Recover(props: Fields, host: Host, sent: Option<Request>, env: Fields, e: Value, status: int): (r: Run)
    ensures r.sent == sent
  {
    match CatchError(env, e, status, AvoidNonPlainObject(props))
    case Err(x) => Run(Rejected(x), sent, [])
    case Ok(caught) => Deliver(props, host, sent, caught)
  }

  /** How a call that takes `path` settles. */
  function Follow(props: Fields, host: Host, path: Path): (r: Run)
    requires path.Received? ==> "url" in props
    ensures r.sent == path.Sent()
  {
    match path
    case MissingUrl => Deliver(props, host, None, UrlFailure(props, NoUrlError))
    case InvalidUrl => Deliver(props, host, None, UrlFailure(props, InvalidUrlError))
    case SendThrew(sent, e) => Recover(props, host, Some(sent), Requested(props), e, 500)
    case ReadThrew(sent, e) => Recover(props, host, Some(sent), Requested(props), e, 200)
    case Received(sent, response, body) => Settled(props, host, sent, Folded(props, sent, response, body))
  }

  /** The end of the second try block: `env` is handed to `onFetch`, and what that throws is caught with status 200. */
  function Settled(props: Fields, host: Host, sent: Request, env: Fields): (r: Run)
    ensures r.sent == Some(sent)
  {
    var first := Deliver(props, host, Some(sent), env);
    if first.completion.Resolved? then first
    else
      // the final propagateAndReturn sits inside the try block whose catch uses status 200
      var second := Recover(props, host, Some(sent), env, first.completion.reason, 200);
      second.(notified := first.notified + second.notified)
  }

  /** The meaning of `fetchApi(props)`. */
  function FetchApiRun(props: Fields, host: Host): (r: Run)
    requires UrlIsString(props)
    ensures r.sent == PathOf(props, host).Sent()
  {
    Follow(props, host, PathOf(props, host))
  }

  // ---------- the program ----------

  /** The second try block of `fetchApi`: the read response is written into the envelope field by field. */
  method FoldResponse(props: Fields, sent: Request, response: Response, body: Value, requested: Fields) returns (res: Fields)
    requires "url" in props && requested == Requested(props)
    ensures res == Folded(props, sent, response, body)
  {
    var avoid := AvoidNonPlainObject(props);
    res := requested;
    if !IsOk(response.status) {
      res := res["error" := Obj(CreateFetchApiError(Obj(NetworkError(response)), avoid))];
    }
    res := res["res" := Obj(Summary(response, body))];
    var raw := map["req" := Obj(sent.init), "url" := props["url"]];
    if !avoid {
      raw := raw["res" := Native(ResponseObject)];
    }
    res := res["raw" := Obj(raw)];
    res := res["data" := body];
    res := res["status" := Or(Prop(res["data"], "status"), Num(response.status))];
  }

  /** The two ways the URL checks end a call before anything is sent. */
  lemma UrlChecked(props: Fields, host: Host)
    requires UrlIsString(props)
    ensures !Truthy(Get(props, "url")) ==> PathOf(props, host) == MissingUrl
    ensures Truthy(Get(props, "url")) && Target(props["url"].s, Get(props, "queryParams"), host).None? ==>
      PathOf(props, host) == InvalidUrl
  {
  }

  /** Once the URL is known, the call's path is decided by what `fetch` and the body read do. */
  lemma SentPath(props: Fields, host: Host, target: Url)
    requires UrlIsString(props) && Truthy(Get(props, "url"))
    requires Target(props["url"].s, Get(props, "queryParams"), host) == Some(target)
    ensures var sent := Request(target, BuildRequest(props, host));
      PathOf(props, host) ==
        match host.fetch(sent)
        case Threw(e) => SendThrew(sent, e)
        case Answered(response) =>
          match response.body
          case Unreadable(e) => ReadThrew(sent, e)
          case Read(body) => Received(sent, response, body)
  {
  }

  /** `fetchApi(props)`: the local envelope `res` is updated stage by stage, with an early return per failure. */
  method FetchApi(props: Fields, host: Host) returns (run: Run)
    requires UrlIsString(props)
    ensures run == FetchApiRun(props, host)
  {
    var url := Get(props, "url");
    var queryParams := Get(props, "queryParams");
    var res := Initial(props);
    var avoid := AvoidNonPlainObject(props);

    if !Truthy(url) {
      res := res["status" := Num(404)];
      res := res["error" := Obj(CreateFetchApiError(Obj(NoUrlError), avoid))];
      UrlChecked(props, host);
      assert res == UrlFailure(props, NoUrlError);
      run := Deliver(props, host, None, res);
      return;
    }

    var parsed := host.parseUrl(url.value.s);
    var search: Option<string> := None;
    if parsed.Some? && Truthy(queryParams) {
      search := host.searchParams(queryParams.value);
    }
    if parsed.None? || (Truthy(queryParams) && search.None?) {
      res := res["status" := Num(404)];
      res := res["error" := Obj(CreateFetchApiError(Obj(InvalidUrlError), avoid))];
      assert Target(url.value.s, queryParams, host).None?;
      UrlChecked(props, host);
      assert res == UrlFailure(props, InvalidUrlError);
      run := Deliver(props, host, None, res);
      return;
    }
    var target := parsed.value;
    if Truthy(queryParams) {
      target := WithSearch(target, search.value);
    }
    assert Target(url.value.s, queryParams, host) == Some(target);
    run := Send(props, host, target, res);
  }

  /** The first try block of `fetchApi`, once the URL is known: the request is sent and its body read. */
  method Send(props: Fields, host: Host, target: Url, initial: Fields) returns (run: Run)
    requires UrlIsString(props) && Truthy(Get(props, "url")) && initial == Initial(props)
    requires Target(props["url"].s, Get(props, "queryParams"), host) == Some(target)
    ensures run == FetchApiRun(props, host)
  {
    var request := BuildRequest(props, host);
    var res := initial["req" := Obj(props)];
    var sent := Request(target, request);
    SentPath(props, host, target);
    var exchange := host.fetch(sent);
    if exchange.Threw? {
      assert PathOf(props, host) == SendThrew(sent, exchange.thrown) && res == Requested(props);
      run := Recover(props, host, Some(sent), res, exchange.thrown, 500);
      return;
    }

    var response := exchange.response;
    if response.body.Unreadable? {
      assert PathOf(props, host) == ReadThrew(sent, response.body.thrown) && res == Requested(props);
      run := Recover(props, host, Some(sent), res, response.body.thrown, 200);
      return;
    }
    var body := response.body.value;
    assert PathOf(props, host) == Received(sent, response, body);
    run := Settle(props, host, sent, response, body, res);
  }

  /** The second try block of `fetchApi`: the envelope is completed and handed to `onFetch`. */
  method Settle(props: Fields, host: Host, sent: Request, response: Response, body: Value, requested: Fields) returns (run: Run)
    requires "url" in props && requested == Requested(props)
    ensures run == Settled(props, host, sent, Folded(props, sent, response, body))
  {
    var res := FoldResponse(props, sent, response, body, requested);
    var first := Deliver(props, host, Some(sent), res);
    if first.completion.Resolved? {
      run := first;
    } else {
      // the final propagateAndReturn is inside the try block
      var second := Recover(props, host, Some(sent), res, first.completion.reason, 200);
      run := second.(notified := first.notified + second.notified);
    }
  }
}
