/**
 * What `fetchApi` promises its callers, stated about its specification
 * `FetchApi.FetchApiRun` (which the method `FetchApi.FetchApi` is proved to
 * meet).
 */
module FetchApiFacts {
  import opened Js
  import opened FetchApi

  /** The 404 envelope of a URL failure, as a caller observes it. */
  predicate IsUrlFailure(env: Fields, props: Fields, message: string, code: string) {
    && env.Keys == EnvelopeKeys
    && env["status"] == Num(404) && env["data"] == Obj(map[])
    && env["req"] == Null && env["res"] == Null
    && env["raw"] == Obj(map["req" := Obj(props)])
    && env["error"].Obj?
    && Get(env["error"].fields, "name") == Some(Str("URL"))
    && Get(env["error"].fields, "message") == Some(Str(message))
    && Get(env["error"].fields, "code") == Some(Str(code))
    && ("e" in env["error"].fields <==> !AvoidNonPlainObject(props))
  }

  /** A complete error description (as every fixed error of fetchApi is) is kept as it is, plus `e` unless plain objects are asked for. */
  lemma DescribedErrorKept(m: Fields, avoid: bool)
    requires ErrorDefaults.Keys <= m.Keys
    ensures CreateFetchApiError(Obj(m), avoid) ==
      if avoid then m else m["e" := ErrorObject(m["name"], m["message"])]
  {
    assert ErrorDefaults + m == m;
  }

  /** The error object of a URL failure: the fixed description, plus `e` unless plain objects are asked for. */
  lemma UrlFailureError(error: Fields, avoid: bool, message: string, code: string)
    requires error == map["name" := Str("URL"), "message" := Str(message), "code" := Str(code)]
    ensures var err := CreateFetchApiError(Obj(error), avoid);
      && Get(err, "name") == Some(Str("URL"))
      && Get(err, "message") == Some(Str(message))
      && Get(err, "code") == Some(Str(code))
      && ("e" in err <==> !avoid)
  {
    DescribedErrorKept(error, avoid);
  }

  lemma UrlFailureShape(props: Fields, error: Fields, message: string, code: string)
    requires error == map["name" := Str("URL"), "message" := Str(message), "code" := Str(code)]
    ensures IsUrlFailure(UrlFailure(props, error), props, message, code)
  {
    var err := CreateFetchApiError(Obj(error), AvoidNonPlainObject(props));
    UrlFailureError(error, AvoidNonPlainObject(props), message, code);
    UrlFailureEnvelope(props, err);
    assert UrlFailure(props, error) == Initial(props)["status" := Num(404)]["error" := Obj(err)];
  }

  /** The initial envelope with a 404 status and an error has every envelope key. */
  lemma UrlFailureEnvelope(props: Fields, err: Fields)
    ensures var env := Initial(props)["status" := Num(404)]["error" := Obj(err)];
      && env.Keys == EnvelopeKeys
      && env["status"] == Num(404) && env["data"] == Obj(map[])
      && env["req"] == Null && env["res"] == Null
      && env["raw"] == Obj(map["req" := Obj(props)]) && env["error"] == Obj(err)
  {
  }

  /** A falsy `url`: nothing is sent, and the envelope is the 404 ERR_NO_URL one. */
  lemma NoUrlIs404(props: Fields, host: Host)
    requires UrlIsString(props) && !Truthy(Get(props, "url"))
    ensures FetchApiRun(props, host) == Deliver(props, host, None, UrlFailure(props, NoUrlError))
    ensures IsUrlFailure(UrlFailure(props, NoUrlError), props, "Undefined URL", "ERR_NO_URL")
  {
    UrlFailureShape(props, NoUrlError, "Undefined URL", "ERR_NO_URL");
  }

  /** A URL the parser rejects, or query parameters that cannot be serialised: nothing is sent, 404 ERR_INVALID_URL. */
  lemma InvalidUrlIs404(props: Fields, host: Host)
    requires UrlIsString(props) && Truthy(Get(props, "url"))
    requires host.parseUrl(props["url"].s).None?
          || (Truthy(Get(props, "queryParams")) && host.searchParams(props["queryParams"]).None?)
    ensures FetchApiRun(props, host) == Deliver(props, host, None, UrlFailure(props, InvalidUrlError))
    ensures IsUrlFailure(UrlFailure(props, InvalidUrlError), props, "Invalid URL", "ERR_INVALID_URL")
  {
    assert PathOf(props, host) == InvalidUrl;
    UrlFailureShape(props, InvalidUrlError, "Invalid URL", "ERR_INVALID_URL");
  }

  /** Truthy `queryParams` replace the query of the URL (they are not merged with it); the rest of the URL is kept. */
  lemma QueryParamsReplaceQuery(props: Fields, host: Host, u: Url, search: string)
    requires UrlIsString(props) && Truthy(Get(props, "url"))
    requires host.parseUrl(props["url"].s) == Some(u)
    requires Truthy(Get(props, "queryParams")) && host.searchParams(props["queryParams"]) == Some(search)
    ensures FetchApiRun(props, host).sent.Some?
    ensures var sent := FetchApiRun(props, host).sent.value.url;
      && sent.origin == u.origin && sent.path == u.path && sent.fragment == u.fragment
      && sent.query == (if search == "" then None else Some(if search[0] == '?' then search[1..] else search))
  {
    assert Target(props["url"].s, Get(props, "queryParams"), host) == Some(WithSearch(u, search));
    TargetIsSent(props, host);
  }

  /** Without `queryParams` the parsed URL is sent as it is. */
  lemma NoQueryParamsKeepUrl(props: Fields, host: Host, u: Url)
    requires UrlIsString(props) && Truthy(Get(props, "url"))
    requires host.parseUrl(props["url"].s) == Some(u)
    requires !Truthy(Get(props, "queryParams"))
    ensures FetchApiRun(props, host).sent == Some(Request(u, BuildRequest(props, host)))
  {
    TargetIsSent(props, host);
  }

  /** A URL that parses is what reaches `fetch`, with the built request init. */
  lemma TargetIsSent(props: Fields, host: Host)
    requires UrlIsString(props) && Truthy(Get(props, "url"))
    requires Target(props["url"].s, Get(props, "queryParams"), host).Some?
    ensures FetchApiRun(props, host).sent ==
      Some(Request(Target(props["url"].s, Get(props, "queryParams"), host).value, BuildRequest(props, host)))
  {
    assert PathOf(props, host).Sent() ==
      Some(Request(Target(props["url"].s, Get(props, "queryParams"), host).value, BuildRequest(props, host)));
  }

  /** A thrown Error is wrapped the same way whether or not plain objects are asked for: it keeps the Error in `e`. */
  lemma ErrorKeepsThrownErrorEvenWhenAvoiding(e: Value)
    requires e.ErrorObject?
    ensures CreateFetchApiError(e, true) == CreateFetchApiError(e, false)
    ensures Get(CreateFetchApiError(e, true), "e") == Some(e)
  {
  }

  /** For a plain error description, the Error of `e` is attached exactly when plain objects are not asked for (and the caller did not give its own `e`). */
  lemma PlainErrorAttachedUnlessAvoided(e: Value, avoid: bool)
    requires !e.ErrorObject? && "e" !in Spread(Some(e))
    ensures "e" in CreateFetchApiError(e, avoid) <==> !avoid
  {
  }

  /** The envelope `catchError` gives when the thrown value is an Error, keyed by the stage that threw. */
  predicate IsCaughtError(env: Fields, props: Fields, status: int, thrown: Value) {
    && {"status", "error", "data", "req", "res", "raw"} <= env.Keys
    && env["status"] == Num(status)
    && env["error"] == Obj(CreateFetchApiError(thrown, AvoidNonPlainObject(props)))
    && env["data"] == Obj(map[]) && env["req"] == Obj(props) && env["res"] == Null
    && env["raw"] == Obj(map["req" := Obj(props)])
  }

  /** An Error thrown while sending gives status 500; one thrown while reading the body gives status 200. */
  lemma ThrownErrorStatus(props: Fields, host: Host)
    requires UrlIsString(props)
    requires PathOf(props, host).SendThrew? || PathOf(props, host).ReadThrew?
    requires PathOf(props, host).thrown.ErrorObject?
    ensures var path := PathOf(props, host);
      var status := if path.SendThrew? then 500 else 200;
      && CatchError(Requested(props), path.thrown, status, AvoidNonPlainObject(props)).Ok?
      && var env := CatchError(Requested(props), path.thrown, status, AvoidNonPlainObject(props)).value;
      && IsCaughtError(env, props, status, path.thrown)
      && FetchApiRun(props, host) == Deliver(props, host, path.Sent(), env)
  {
  }

  /** A thrown value that is not an Error supplies the envelope's `status` and `error` itself. */
  lemma ThrownValueSuppliesStatus(props: Fields, host: Host)
    requires UrlIsString(props)
    requires PathOf(props, host).SendThrew? || PathOf(props, host).ReadThrew?
    requires !PathOf(props, host).thrown.ErrorObject? && !PathOf(props, host).thrown.Null?
    ensures var path := PathOf(props, host);
      var env := Put(Put(Requested(props), "status", Prop(path.thrown, "status")), "error", Prop(path.thrown, "error"));
      && Get(env, "status") == Prop(path.thrown, "status")
      && Get(env, "error") == Prop(path.thrown, "error")
      && env["req"] == Obj(props)
      && FetchApiRun(props, host) == Deliver(props, host, path.Sent(), env)
  {
  }

  /** A thrown `null` makes `catchError` itself throw: the call rejects and `onFetch` is never called. */
  lemma ThrownNullRejects(props: Fields, host: Host)
    requires UrlIsString(props)
    requires PathOf(props, host).SendThrew? || PathOf(props, host).ReadThrew?
    requires PathOf(props, host).thrown.Null?
    ensures FetchApiRun(props, host).completion.Rejected?
    ensures FetchApiRun(props, host).notified == []
  {
  }

  /** The request is the one `BuildRequest` describes, sent to the parsed (and re-queried) URL. */
  lemma SentRequestIsBuilt(props: Fields, host: Host, sent: Request)
    requires UrlIsString(props)
    requires FetchApiRun(props, host).sent == Some(sent)
    ensures sent.init == BuildRequest(props, host)
    ensures "url" in props && Some(sent.url) == Target(props["url"].s, Get(props, "queryParams"), host)
  {
  }

  /** An uploaded file is sent as it is, with no JSON Content-Type added. */
  lemma FileUploadIsNotJson(props: Fields, host: Host)
    requires IsFileUpload(Get(props, "data"))
    ensures Get(BuildRequest(props, host), "body") == Some(props["data"])
    ensures BuildRequest(props, host)["headers"].fields.Keys == Spread(Get(props, "headers")).Keys
  {
  }

  /** Caller headers win over the JSON Content-Type. */
  lemma CallerContentTypeWins(props: Fields, host: Host)
    requires Get(props, "headers").Some? && props["headers"].Obj? && "Content-Type" in props["headers"].fields
    ensures BuildRequest(props, host)["headers"].fields["Content-Type"] == props["headers"].fields["Content-Type"]
  {
  }

  /** A read response gives every envelope key, `error` only for a failure status. */
  lemma FoldedKeys(props: Fields, sent: Request, response: Response, body: Value)
    requires "url" in props
    ensures Folded(props, sent, response, body).Keys == if IsOk(response.status) then EnvelopeKeys - {"error"} else EnvelopeKeys
  {
  }

  /** The body is kept as `data` whatever the status, and a truthy `data.status` overrides the HTTP status. */
  lemma FoldedKeepsBody(props: Fields, sent: Request, response: Response, body: Value)
    requires "url" in props
    ensures var env := Folded(props, sent, response, body);
      && "data" in env && env["data"] == body
      && "req" in env && env["req"] == Obj(props)
      && "res" in env && env["res"] == Obj(Summary(response, body))
      && "status" in env
      && (Truthy(Prop(body, "status")) ==> Some(env["status"]) == Prop(body, "status"))
      && (!Truthy(Prop(body, "status")) ==> env["status"] == Num(response.status))
  {
  }

  /** A failure status adds the ERR_NETWORK error, carrying the HTTP status and status text. */
  lemma FoldedNetworkError(props: Fields, sent: Request, response: Response, body: Value)
    requires "url" in props && !IsOk(response.status)
    ensures var env := Folded(props, sent, response, body);
      && "error" in env && env["error"].Obj?
      && var err := env["error"].fields;
      && Get(err, "name") == Some(Str("Network Error")) && Get(err, "message") == Some(Str(response.statusText))
      && Get(err, "code") == Some(Str("ERR_NETWORK")) && Get(err, "status") == Some(Num(response.status))
  {
    FoldedError(props, sent, response, body);
    NetworkErrorFields(response, AvoidNonPlainObject(props));
  }

  /** The `error` of a failure status is the fetchApi error made from the ERR_NETWORK description. */
  lemma FoldedError(props: Fields, sent: Request, response: Response, body: Value)
    requires "url" in props && !IsOk(response.status)
    ensures var env := Folded(props, sent, response, body);
      "error" in env && env["error"] == Obj(CreateFetchApiError(Obj(NetworkError(response)), AvoidNonPlainObject(props)))
  {
  }

  /** The ERR_NETWORK description survives `createFetchApiError`. */
  lemma NetworkErrorFields(response: Response, avoid: bool)
    ensures var err := CreateFetchApiError(Obj(NetworkError(response)), avoid);
      && Get(err, "name") == Some(Str("Network Error")) && Get(err, "message") == Some(Str(response.statusText))
      && Get(err, "code") == Some(Str("ERR_NETWORK")) && Get(err, "status") == Some(Num(response.status))
  {
    DescribedErrorKept(NetworkError(response), avoid);
  }

  /** `raw` holds the request init and the URL, and the native Response unless plain objects are asked for. */
  lemma FoldedRaw(props: Fields, sent: Request, response: Response, body: Value)
    requires "url" in props
    ensures var env := Folded(props, sent, response, body);
      && "raw" in env && env["raw"].Obj?
      && env["raw"].fields.Keys == (if AvoidNonPlainObject(props) then {"req", "url"} else {"req", "url", "res"})
      && env["raw"].fields["req"] == Obj(sent.init)
      && env["raw"].fields["url"] == props["url"]
  {
  }

  /** A read response is folded into the envelope handed to `onFetch` and returned. */
  lemma ReceivedIsFolded(props: Fields, host: Host)
    requires UrlIsString(props) && PathOf(props, host).Received?
    ensures var path := PathOf(props, host);
      var first := Deliver(props, host, path.Sent(), Folded(props, path.sent, path.response, path.body));
      first.completion.Resolved? ==> FetchApiRun(props, host) == first
  {
  }

  // ---------- the envelope ----------

  /** The envelopes every stage produces stay within the documented keys and keep the raw request. */
  predicate Envelope(env: Fields) {
    && env.Keys <= EnvelopeKeys
    && {"data", "req", "res", "raw"} <= env.Keys
    && env["raw"].Obj? && "req" in env["raw"].fields
  }

  predicate PlainWhenAsked(env: Fields, props: Fields) {
    "raw" in env && env["raw"].Obj? && ("res" in env["raw"].fields ==> !AvoidNonPlainObject(props))
  }

  /** `catchError` only ever writes `status` and `error`, so it keeps an envelope an envelope. */
  lemma CatchErrorKeepsEnvelope(props: Fields, env: Fields, e: Value, status: int)
    requires Envelope(env) && PlainWhenAsked(env, props)
    requires CatchError(env, e, status, AvoidNonPlainObject(props)).Ok?
    ensures Envelope(CatchError(env, e, status, AvoidNonPlainObject(props)).value)
    ensures PlainWhenAsked(CatchError(env, e, status, AvoidNonPlainObject(props)).value, props)
  {
    var r := CatchError(env, e, status, AvoidNonPlainObject(props)).value;
    forall k | k in r ensures k in EnvelopeKeys {
      assert Get(r, k).Some?;
    }
    forall k | k in {"data", "req", "res", "raw"} ensures k in r && r[k] == env[k] {
      assert Get(r, k) == Get(env, k);
    }
  }

  /** What a catch block resolves to is an envelope when what it caught was one. */
  lemma RecoverKeepsEnvelope(props: Fields, host: Host, sent: Option<Request>, env: Fields, e: Value, status: int)
    requires Envelope(env) && PlainWhenAsked(env, props)
    ensures var r := Recover(props, host, sent, env, e, status);
      r.completion.Resolved? ==> Envelope(r.completion.value) && PlainWhenAsked(r.completion.value, props)
  {
    if CatchError(env, e, status, AvoidNonPlainObject(props)).Ok? {
      CatchErrorKeepsEnvelope(props, env, e, status);
    }
  }

  /** What a catch block resolves to has the `raw` of the envelope it caught. */
  lemma RecoverKeepsRaw(props: Fields, host: Host, sent: Option<Request>, env: Fields, e: Value, status: int)
    ensures var r := Recover(props, host, sent, env, e, status);
      r.completion.Resolved? ==> Get(r.completion.value, "raw") == Get(env, "raw")
  {
  }

  lemma StartIsEnvelope(props: Fields)
    ensures Envelope(Requested(props)) && PlainWhenAsked(Requested(props), props)
    ensures Envelope(UrlFailure(props, NoUrlError)) && PlainWhenAsked(UrlFailure(props, NoUrlError), props)
    ensures Envelope(UrlFailure(props, InvalidUrlError)) && PlainWhenAsked(UrlFailure(props, InvalidUrlError), props)
  {
  }

  /** The envelope of a read response, and what its catch block resolves to, keep the envelope shape. */
  lemma ReceivedIsEnvelope(props: Fields, host: Host, sent: Request, response: Response, body: Value)
    requires "url" in props
    ensures var env := Folded(props, sent, response, body);
      var first := Deliver(props, host, Some(sent), env);
      && Envelope(env) && PlainWhenAsked(env, props)
      && (first.completion.Rejected? ==>
            var second := Recover(props, host, Some(sent), env, first.completion.reason, 200);
            second.completion.Resolved? ==> Envelope(second.completion.value) && PlainWhenAsked(second.completion.value, props))
  {
    var env := Folded(props, sent, response, body);
    FoldedKeys(props, sent, response, body);
    FoldedRaw(props, sent, response, body);
    assert Envelope(env) && PlainWhenAsked(env, props);
    var first := Deliver(props, host, Some(sent), env);
    if first.completion.Rejected? {
      RecoverKeepsEnvelope(props, host, Some(sent), env, first.completion.reason, 200);
    }
  }

  /**
   * Whatever path a call takes, what it resolves to is an envelope, and under
   * `avoidNonPlainObject` its `raw` never holds the native Response.
   */
  lemma {:induction false} ResolvedIsEnvelope(props: Fields, host: Host)
    requires UrlIsString(props)
    requires FetchApiRun(props, host).completion.Resolved?
    ensures Envelope(FetchApiRun(props, host).completion.value)
    ensures PlainWhenAsked(FetchApiRun(props, host).completion.value, props)
  {
    FollowIsEnvelope(props, host, PathOf(props, host));
  }

  lemma {:induction false} FollowIsEnvelope(props: Fields, host: Host, path: Path)
    requires path.Received? ==> "url" in props
    requires Follow(props, host, path).completion.Resolved?
    ensures Envelope(Follow(props, host, path).completion.value)
    ensures PlainWhenAsked(Follow(props, host, path).completion.value, props)
  {
    match path
    case MissingUrl => UrlFailureFollowed(props, host, NoUrlError);
    case InvalidUrl => UrlFailureFollowed(props, host, InvalidUrlError);
    case SendThrew(_, _) => ThrowFollowed(props, host, path);
    case ReadThrew(_, _) => ThrowFollowed(props, host, path);
    case Received(sent, response, body) => ReceivedFollowed(props, host, sent, response, body);
  }

  lemma UrlFailureFollowed(props: Fields, host: Host, error: Fields)
    requires error == NoUrlError || error == InvalidUrlError
    ensures var r := Deliver(props, host, None, UrlFailure(props, error));
      r.completion.Resolved? ==> Envelope(r.completion.value) && PlainWhenAsked(r.completion.value, props)
  {
    StartIsEnvelope(props);
  }

  lemma ThrowFollowed(props: Fields, host: Host, path: Path)
    requires path.SendThrew? || path.ReadThrew?
    requires Follow(props, host, path).completion.Resolved?
    ensures Envelope(Follow(props, host, path).completion.value)
    ensures PlainWhenAsked(Follow(props, host, path).completion.value, props)
  {
    StartIsEnvelope(props);
    var status := if path.SendThrew? then 500 else 200;
    RecoverKeepsEnvelope(props, host, Some(path.sent), Requested(props), path.thrown, status);
    assert Follow(props, host, path) == Recover(props, host, Some(path.sent), Requested(props), path.thrown, status);
  }

  lemma ReceivedFollowed(props: Fields, host: Host, sent: Request, response: Response, body: Value)
    requires "url" in props
    requires Follow(props, host, Received(sent, response, body)).completion.Resolved?
    ensures Envelope(Follow(props, host, Received(sent, response, body)).completion.value)
    ensures PlainWhenAsked(Follow(props, host, Received(sent, response, body)).completion.value, props)
  {
    ReceivedIsEnvelope(props, host, sent, response, body);
    var r := Follow(props, host, Received(sent, response, body));
    var env := Folded(props, sent, response, body);
    var first := Deliver(props, host, Some(sent), env);
    if first.completion.Resolved? {
      assert r.completion.value == env;
    } else {
      var second := Recover(props, host, Some(sent), env, first.completion.reason, 200);
      assert r.completion == second.completion;
    }
  }

  /** `avoidNonPlainObject` is the caller's boolean, and `false` for anything else. */
  lemma AvoidIsCallersBoolean(props: Fields)
    ensures AvoidNonPlainObject(props) == (Get(props, "avoidNonPlainObject") == Some(Bool(true)))
    ensures Get(props, "avoidNonPlainObject") == Some(Bool(false)) ==> !AvoidNonPlainObject(props)
  {
  }

  /** A successful read of a response keeps the native Response in `raw.res` exactly when plain objects are not asked for. */
  lemma RawResponseUnlessAvoided(props: Fields, host: Host)
    requires UrlIsString(props) && PathOf(props, host).Received?
    requires FetchApiRun(props, host).completion.Resolved?
    ensures var env := FetchApiRun(props, host).completion.value;
      "raw" in env && env["raw"].Obj? && ("res" in env["raw"].fields <==> !AvoidNonPlainObject(props))
  {
    var path := PathOf(props, host);
    var env := Folded(props, path.sent, path.response, path.body);
    FoldedRaw(props, path.sent, path.response, path.body);
    assert FetchApiRun(props, host) == Settled(props, host, path.sent, env);
    SettledKeepsRaw(props, host, path.sent, env);
  }

  /** The end of the second try block returns an envelope with the `raw` it was given. */
  lemma SettledKeepsRaw(props: Fields, host: Host, sent: Request, env: Fields)
    ensures var r := Settled(props, host, sent, env);
      r.completion.Resolved? ==> Get(r.completion.value, "raw") == Get(env, "raw")
  {
    var first := Deliver(props, host, Some(sent), env);
    if first.completion.Rejected? {
      RecoverKeepsRaw(props, host, Some(sent), env, first.completion.reason, 200);
    }
  }

  // ---------- onFetch ----------

  /** `onFetch` never throws for this call. */
  ghost predicate QuietOnFetch(props: Fields, host: Host) {
    forall env :: Notify(props, host, env).thrown.None?
  }

  /**
   * When `onFetch` does not throw, it is called exactly once, with the very
   * envelope returned (when it is a function at all); the call can only
   * reject when a thrown `null` reached `catchError`.
   */
  lemma OnFetchSeesResult(props: Fields, host: Host)
    requires UrlIsString(props) && QuietOnFetch(props, host)
    ensures var r := FetchApiRun(props, host);
      && (r.completion.Resolved? ==>
           r.notified == if IsCallable(Get(props, "onFetch")) then [r.completion.value] else [])
      && (r.completion.Rejected? ==>
           r.notified == [] && (PathOf(props, host).SendThrew? || PathOf(props, host).ReadThrew?)
           && PathOf(props, host).thrown.Null?)
  {
    var path := PathOf(props, host);
    match path
    case MissingUrl =>
      assert Notify(props, host, UrlFailure(props, NoUrlError)).thrown.None?;
    case InvalidUrl =>
      assert Notify(props, host, UrlFailure(props, InvalidUrlError)).thrown.None?;
    case SendThrew(_, e) =>
      var c := CatchError(Requested(props), e, 500, AvoidNonPlainObject(props));
      if c.Ok? { assert Notify(props, host, c.value).thrown.None?; }
    case ReadThrew(_, e) =>
      var c := CatchError(Requested(props), e, 200, AvoidNonPlainObject(props));
      if c.Ok? { assert Notify(props, host, c.value).thrown.None?; }
    case Received(sent, response, body) =>
      assert Notify(props, host, Folded(props, sent, response, body)).thrown.None?;
  }

  /**
   * When `onFetch` throws an Error on a successful read, the catch block of
   * the second try calls it again with the caught 200 envelope.
   */
  lemma OnFetchThrowingIsCalledTwice(props: Fields, host: Host, id: nat, thrown: Value)
    requires UrlIsString(props) && PathOf(props, host).Received?
    requires Get(props, "onFetch") == Some(Native(Function(id)))
    requires thrown.ErrorObject?
    requires var path := PathOf(props, host);
      host.callback(id, Folded(props, path.sent, path.response, path.body)) == Some(thrown)
    ensures var path := PathOf(props, host);
      var env := Folded(props, path.sent, path.response, path.body);
      var caught := CatchError(env, thrown, 200, AvoidNonPlainObject(props)).value;
      && caught["status"] == Num(200)
      && caught["data"] == env["data"]
      && FetchApiRun(props, host).notified == [env, caught]
      && FetchApiRun(props, host).completion ==
           if host.callback(id, caught).None? then Resolved(caught) else Rejected(host.callback(id, caught).value)
  {
    var path := PathOf(props, host);
    var env := Folded(props, path.sent, path.response, path.body);
    FoldedKeepsBody(props, path.sent, path.response, path.body);
    CatchAfterThrow(props, host, id, thrown, Some(path.sent), env);
    assert FetchApiRun(props, host) == Settled(props, host, path.sent, env);
  }

  /** `onFetch` throwing an Error on `env`: the caught 200 envelope is handed to it once more. */
  lemma CatchAfterThrow(props: Fields, host: Host, id: nat, thrown: Value, sent: Option<Request>, env: Fields)
    requires Get(props, "onFetch") == Some(Native(Function(id)))
    requires thrown.ErrorObject? && host.callback(id, env) == Some(thrown) && "data" in env
    ensures var first := Deliver(props, host, sent, env);
      first.completion == Rejected(thrown) && first.notified == [env]
    ensures var caught := CatchError(env, thrown, 200, AvoidNonPlainObject(props)).value;
      && caught["status"] == Num(200)
      && caught["data"] == env["data"]
      && Recover(props, host, sent, env, thrown, 200) == Deliver(props, host, sent, caught)
      && Deliver(props, host, sent, caught).notified == [caught]
  {
    var caught := CatchError(env, thrown, 200, AvoidNonPlainObject(props)).value;
    assert Get(caught, "data") == Get(env, "data");
  }
}
