# A Dafny model of the TS-SDK request/response pipeline

The SatoshiPortal TS-SDK talks to the Bull Bitcoin backend through a chain of
small layers. Each layer converts the props it is given, calls the layer below,
and converts what comes back:

- **fetchApi** (`src/lib-legacy-2/fetch-api.ts`) checks the URL and builds the
  `RequestInit`. It calls `fetch` and folds every outcome into one envelope
  `{status, data, req, res, raw, error?}`: no URL, a URL that does not parse, a
  thrown send, an HTTP failure, an unreadable body, a throwing `onFetch`.
- **fetchRpc** comes in two copies. `src/lib/fetchRpc.ts` gives a call without
  an id a uuid; `src/lib/fetch-rpc.ts` gives it the id 1. It wraps the call in a
  JSON-RPC 2.0 request object (section 4 of the JSON-RPC 2.0 Specification). It
  then promotes the response's `result` member (section 5) to `data`.
- **fetchBull** comes in two copies, `src/lib/fetchBull.ts` and
  `src/lib-legacy-2/fetch-bull.ts`. It picks a base URL: the caller's, else the
  environment setting, else the public API. It resolves `api-<service>` against
  that base, following section 5.2 of RFC 3986. It defaults `credentials` to
  `include`.
- **The entity layers** come in five variants. Each republishes fields of the
  Bull result at the top of the return, with a default. The single-entity
  variants read `entity`/`additionalData`. The entity-list and legacy
  list-entities variants read `entities`/`totalEntities`. The current
  list-entities variant reads `elements`/`totalElements`. Two of these files
  also hold endpoint helpers (`getGroup`, `listGroups`) that merge params.
- **cookiesToString** (`src/lib/utils.ts`) writes cookies as a `Cookie` header
  value.

## How the model is built

- `Js` holds the slice of JavaScript value semantics the pipeline relies on:
  - JSON-like values;
  - truthiness and `||`;
  - property reads;
  - object spread (right-biased map union; arrays and strings spread their index
    keys, a string one per code point).
- `undefined` is an absent key. Writing `undefined` removes the key, which is
  what every later read and `JSON.stringify` observe.
- Destructuring or reading through a `null` or missing value throws. This is
  modelled as `Err(TypeError(...))`, and an async layer that throws *rejects*.
- The outside world is the `FetchApi.Host` value. It holds oracles for:
  - `new URL(s)`;
  - `new URLSearchParams(q).toString()`;
  - `JSON.stringify`;
  - `fetch` (an `Exchange`: what it threw, or a `Response` with status, status
    text, JSON flag and body read);
  - the caller's `onFetch` (`callback`);
  - general URL resolution;
  - the `NEXT_PUBLIC_BB_API_URL` environment setting.
- `uuid()` is the explicit parameter `freshId`.
- `fetchApi` is imperative in the source: a local `_res` is updated field by
  field across staged try/catch blocks with early returns. The model follows
  that shape. `FetchApi.FetchApi`, with its helpers `FetchApi.Send`,
  `FetchApi.Settle` and `FetchApi.FoldResponse`, is a method that updates a
  local envelope step by step. It is proved to meet the specification function
  `FetchApi.FetchApiRun`, and the lemmas in `FetchApiFacts` state the source's
  promises about that function.
- `FetchApiRun` first decides the call's `Path`: no URL, invalid URL, send
  threw, read threw, or received. It then `Follow`s that path through
  `catchError` and `onFetch`.
- A call's outcome is a `Run`. It records:
  - how the call settled (resolved with an envelope, or rejected with a value);
  - what was handed to `fetch`;
  - every envelope `onFetch` was called with.
- The upper layers are pure compositions over `Run` (`FetchApi.AndThen`).
- `new URL(ref, base)` is modelled for the two kinds of reference the Bull
  layer produces:
  - the empty reference gives the base without its fragment;
  - a single segment of RFC 3986 unreserved characters replaces the base path's
    last segment (section 5.2.3). The exception is the WHATWG "shorten a path"
    rule for `file:` URLs, which keeps a path that is one Windows drive letter
    (`file:///C:` gives `file:///C:/api-<service>`).
  Any other reference goes to the host's resolution oracle.
- Each legacy copy is written out from its own file. Where it behaves like the
  current copy, it is proved equal to it on every input, so the lemmas about
  the current copy cover it too.

### Notes on the code as written

A few behaviours of the code are easy to misread. The model follows the code:

- The entity layers read `entity`, `entities`/`totalEntities` or
  `elements`/`totalElements`. The comments at src/lib/fetch-bull-entity.ts:15
  and :159 still speak of an `element` field, which the code does not read.
- The current list-entities variant (`src/lib/fetch-bull-list-entities.ts`)
  does not keep `data` in its return, as its type at lines 102-105 says.
- An explicit `url` given to fetchBull is not used as it is. It is only the
  base that `api-<service>` is resolved against (src/lib/fetchBull.ts:113), and
  a base with an opaque path (`mailto:x`) makes the call reject.
- `createFetchApiError` keeps the thrown `Error` in `e` even when
  `avoidNonPlainObject` is set. Only the `e` it would attach to a plain error
  description is left out, although the comment at
  src/lib-legacy-2/fetch-api.ts:245-247 gives the flag as the way to avoid
  non-plain objects.
- On the success path the final `propagateAndReturn` runs inside the second
  `try`. An `onFetch` that throws an Error there is therefore called a second
  time, with the caught 200 envelope (`FetchApiFacts.OnFetchThrowingIsCalledTwice`).

## Model

| member | source | states |
|---|---|---|
| FetchApi.WithSearch | src/lib-legacy-2/fetch-api.ts:285-288 | setting `search` keeps the origin, path and fragment; the empty string removes the query, anything else replaces it |
| FetchApi.AvoidNonPlainObject | src/lib-legacy-2/fetch-api.ts:248-250 | the flag is true exactly when the caller passed the boolean `true` |
| FetchApi.CreateFetchApiError | src/lib-legacy-2/fetch-api.ts:170-198 | an Error becomes `{name, message, code: 'ERR_NO_CODE', e}` whatever the flag; anything else gets the three defaults with the caller's fields winning, plus an Error built from the final name and message unless plain objects are asked for |
| FetchApi.CatchError | src/lib-legacy-2/fetch-api.ts:202-217 | every field except `status` and `error` is kept; an Error gives the stage's status and its wrapped error; any other value supplies `status` and `error` itself; a thrown `null` makes it throw |
| FetchApi.BuildRequest | src/lib-legacy-2/fetch-api.ts:314-340 | `method` is `requestMethod` or "get"; `body` is the file, the JSON string of truthy `data`, or the caller's; `headers` exists iff `data` or `headers` is truthy; every other prop is forwarded |
| FetchApi.RequestHeaders | src/lib-legacy-2/fetch-api.ts:330-337 | the headers are the caller's plus a JSON Content-Type for non-file data, which the caller's own Content-Type overrides |
| FetchApi.Target | src/lib-legacy-2/fetch-api.ts:282-288 | the URL to fetch is absent when parsing or query serialisation throws, the parsed URL without truthy queryParams, and the parsed URL with its query replaced otherwise |
| FetchApi.PathOf | src/lib-legacy-2/fetch-api.ts:266-380 | every path other than the missing URL has a non-empty string `url` |
| FetchApi.Notify | src/lib-legacy-2/fetch-api.ts:254-256 | `onFetch` is called once with the envelope iff it is a function; a missing or null one is neither called nor throws |
| FetchApi.Deliver | src/lib-legacy-2/fetch-api.ts:254-257 | `propagateAndReturn` resolves to the envelope unless `onFetch` throws, and then rejects with what it threw |
| FetchApi.Recover | src/lib-legacy-2/fetch-api.ts:353-355 | a catch block keeps what was sent |
| FetchApi.Follow | src/lib-legacy-2/fetch-api.ts:223-462 | a call's record of what reached `fetch` is the path's |
| FetchApi.Settled | src/lib-legacy-2/fetch-api.ts:455-461 | the end of the second try block keeps the request that was sent |
| FetchApi.FetchApiRun | src/lib-legacy-2/fetch-api.ts:223-462 | what reaches `fetch` is what the path says |
| FetchApi.UrlChecked | src/lib-legacy-2/fetch-api.ts:267-296 | a falsy url takes the missing-URL path and a URL that cannot be built takes the invalid-URL path |
| FetchApi.SentPath | src/lib-legacy-2/fetch-api.ts:312-380 | once the URL is built, the path is decided by what `fetch` and the body read do |
| FetchApi.FoldResponse | src/lib-legacy-2/fetch-api.ts:382-435 | the field-by-field updates of `_res` give the folded envelope |
| FetchApi.FetchApi | src/lib-legacy-2/fetch-api.ts:223-462 | the imperative fetchApi returns exactly `FetchApiRun` |
| FetchApi.Send | src/lib-legacy-2/fetch-api.ts:312-380 | the first try block, once the URL is known, continues exactly as `FetchApiRun` |
| FetchApi.Settle | src/lib-legacy-2/fetch-api.ts:382-461 | the second try block hands on the folded envelope exactly as the specification does |
| FetchApi.AndThen | src/lib/fetchRpc.ts:182-185 | composing a layer keeps what was sent and notified; a rejection passes through; a resolved value is converted, and a throwing conversion rejects |
| FetchApiFacts.DescribedErrorKept | src/lib-legacy-2/fetch-api.ts:183-197 | a complete error description is kept as it is, plus `e` unless plain objects are asked for |
| FetchApiFacts.UrlFailureError | src/lib-legacy-2/fetch-api.ts:267-273 | a URL failure's error keeps its name, message and code, and has `e` iff plain objects are not asked for |
| FetchApiFacts.UrlFailureShape | src/lib-legacy-2/fetch-api.ts:231-237 | a URL failure envelope is the initial envelope with status 404 and the error: `data = {}`, `req`/`res` null, `raw.req` the props |
| FetchApiFacts.UrlFailureEnvelope | src/lib-legacy-2/fetch-api.ts:231-237 | the initial envelope with a status and an error has exactly the envelope keys |
| FetchApiFacts.NoUrlIs404 | src/lib-legacy-2/fetch-api.ts:267-273 | a falsy url sends nothing and returns the 404 ERR_NO_URL envelope "Undefined URL" |
| FetchApiFacts.InvalidUrlIs404 | src/lib-legacy-2/fetch-api.ts:276-296 | a URL that does not parse, or queryParams that cannot be serialised, send nothing and return the 404 ERR_INVALID_URL envelope |
| FetchApiFacts.QueryParamsReplaceQuery | src/lib-legacy-2/fetch-api.ts:285-288 | truthy queryParams replace the URL's query (not merged) and keep its origin, path and fragment |
| FetchApiFacts.NoQueryParamsKeepUrl | src/lib-legacy-2/fetch-api.ts:282-288 | without queryParams the parsed URL is sent as it is, with the built init |
| FetchApiFacts.TargetIsSent | src/lib-legacy-2/fetch-api.ts:351 | a URL that builds is what reaches `fetch`, with the built init |
| FetchApiFacts.ErrorKeepsThrownErrorEvenWhenAvoiding | src/lib-legacy-2/fetch-api.ts:173-179 | a thrown Error is wrapped the same way under both flag values and always keeps `e` |
| FetchApiFacts.PlainErrorAttachedUnlessAvoided | src/lib-legacy-2/fetch-api.ts:190-195 | a plain description gets `e` iff plain objects are not asked for |
| FetchApiFacts.ThrownErrorStatus | src/lib-legacy-2/fetch-api.ts:312-461 | an Error thrown while sending gives status 500, one thrown while reading gives 200, with the wrapped error and the request envelope |
| FetchApiFacts.ThrownValueSuppliesStatus | src/lib-legacy-2/fetch-api.ts:212-216 | a thrown non-Error supplies `status` and `error` itself; `req` stays the props |
| FetchApiFacts.ThrownNullRejects | src/lib-legacy-2/fetch-api.ts:212-216 | a thrown `null` makes the call reject without calling `onFetch` |
| FetchApiFacts.SentRequestIsBuilt | src/lib-legacy-2/fetch-api.ts:314-351 | whatever reaches `fetch` is the built init sent to the built URL |
| FetchApiFacts.FileUploadIsNotJson | src/lib-legacy-2/fetch-api.ts:317-332 | a file is sent as it is, and no JSON Content-Type is added |
| FetchApiFacts.CallerContentTypeWins | src/lib-legacy-2/fetch-api.ts:330-336 | a caller Content-Type overrides the JSON one |
| FetchApiFacts.FoldedKeys | src/lib-legacy-2/fetch-api.ts:382-435 | a read response gives every envelope key, and `error` only for a failure status |
| FetchApiFacts.FoldedKeepsBody | src/lib-legacy-2/fetch-api.ts:385-435 | the body is `data` whatever the status; `res` summarises the response; a truthy `data.status` overrides the HTTP status |
| FetchApiFacts.FoldedNetworkError | src/lib-legacy-2/fetch-api.ts:382-384 | a failure status adds the ERR_NETWORK error "Network Error" with the status text and the HTTP status |
| FetchApiFacts.FoldedError | src/lib-legacy-2/fetch-api.ts:382-384 | the error of a failure status is `createFetchApiError` of the network description |
| FetchApiFacts.NetworkErrorFields | src/lib-legacy-2/fetch-api.ts:383 | the network description keeps its name, message, code and status through `createFetchApiError` |
| FetchApiFacts.FoldedRaw | src/lib-legacy-2/fetch-api.ts:396-403 | `raw` is the init and the URL, plus the native Response unless plain objects are asked for |
| FetchApiFacts.ReceivedIsFolded | src/lib-legacy-2/fetch-api.ts:455 | when `onFetch` does not throw, a read response returns the folded envelope |
| FetchApiFacts.CatchErrorKeepsEnvelope | src/lib-legacy-2/fetch-api.ts:202-217 | `catchError` keeps an envelope within the envelope keys and keeps `raw` |
| FetchApiFacts.RecoverKeepsEnvelope | src/lib-legacy-2/fetch-api.ts:457-461 | what a catch block resolves to is an envelope when what it caught was one |
| FetchApiFacts.RecoverKeepsRaw | src/lib-legacy-2/fetch-api.ts:457-461 | a catch block's result has the `raw` of the envelope it caught |
| FetchApiFacts.StartIsEnvelope | src/lib-legacy-2/fetch-api.ts:231-237 | the request envelope and both URL failure envelopes are envelopes with no native Response |
| FetchApiFacts.ReceivedIsEnvelope | src/lib-legacy-2/fetch-api.ts:382-461 | the folded envelope and its caught version are envelopes, with no native Response under the flag |
| FetchApiFacts.ResolvedIsEnvelope | src/lib-legacy-2/fetch-api.ts:223-462 | on every path a resolved call returns an envelope, and under `avoidNonPlainObject` its `raw` never holds the Response |
| FetchApiFacts.FollowIsEnvelope | src/lib-legacy-2/fetch-api.ts:223-462 | the same, for every path |
| FetchApiFacts.UrlFailureFollowed | src/lib-legacy-2/fetch-api.ts:267-296 | the same, for the two URL failures |
| FetchApiFacts.ThrowFollowed | src/lib-legacy-2/fetch-api.ts:353-355 | the same, for a thrown send or body read |
| FetchApiFacts.ReceivedFollowed | src/lib-legacy-2/fetch-api.ts:455-461 | the same, for a read response |
| FetchApiFacts.AvoidIsCallersBoolean | src/lib-legacy-2/fetch-api.ts:248-250 | the flag is the caller's boolean, and false for anything else |
| FetchApiFacts.RawResponseUnlessAvoided | src/lib-legacy-2/fetch-api.ts:400-403 | a read response keeps the native Response in `raw.res` iff plain objects are not asked for |
| FetchApiFacts.SettledKeepsRaw | src/lib-legacy-2/fetch-api.ts:455-461 | the second try block resolves with the `raw` of the envelope it was given, whether or not `onFetch` throws |
| FetchApiFacts.OnFetchSeesResult | src/lib-legacy-2/fetch-api.ts:254-257 | when `onFetch` does not throw, it is called exactly once (if it is a function) with the very envelope returned; the call rejects only for a thrown `null` |
| FetchApiFacts.OnFetchThrowingIsCalledTwice | src/lib-legacy-2/fetch-api.ts:455-461 | an Error thrown by `onFetch` on a read response is caught with status 200, and `onFetch` is called again with that envelope, which is returned |
| FetchApiFacts.CatchAfterThrow | src/lib-legacy-2/fetch-api.ts:457-461 | the caught envelope keeps `data`, has status 200 and is handed to `onFetch` once more |
| FetchRpc.RequestObject | src/lib/fetchRpc.ts:143-150 | `jsonrpc` is "2.0" unless the caller's data has its own; `id` and `method` are the call's; `params` only when non-empty; other data fields are carried |
| FetchRpc.ConvertRpcToApiProps | src/lib/fetchRpc.ts:131-152 | POST unless `requestMethod` is given; `data` is the request object; every other prop is forwarded; `id`, `method` and `params` do not reach the top level |
| FetchRpc.ConvertApiToRpcReturn | src/lib/fetchRpc.ts:155-164 | `data` becomes `data.result` and nothing else changes; a null or missing `data` throws |
| FetchRpc.FetchRpc | src/lib/fetchRpc.ts:177-186 | what reaches `fetch` is fetchApi's on the converted props |
| FetchRpc.RequestObjectCarriesCall | src/lib/fetchRpc.ts:146-149 | the request object carries the call's id (the fresh id by default), method and non-empty params |
| FetchRpc.NoEmptyParams | src/lib/fetchRpc.ts:149 | absent or empty params add no `params` member |
| FetchRpc.CallerDataCannotReplaceCall | src/lib/fetchRpc.ts:145-147 | caller data is carried into the request object but cannot replace its `id` or `method` |
| FetchRpc.PostUnlessOverridden | src/lib/fetchRpc.ts:137-140 | the HTTP method is POST unless the caller chooses one |
| FetchRpc.RpcIsSentAsJson | src/lib/fetchRpc.ts:177-186 | an RPC call that reaches `fetch` sends the chosen method, the JSON of the request object, and headers |
| FetchRpc.ConvertedOptionsAreForwarded | src/lib/fetchRpc.ts:132-140 | every prop that neither layer interprets reaches the request init unchanged |
| FetchRpc.RpcForwardsFetchOptions | src/lib/fetchRpc.ts:132-140 | fetch options such as `credentials` and the URL reach `fetch` unchanged |
| FetchRpc.UrlFieldsForwarded | src/lib/fetchRpc.ts:132-140 | `url` and `queryParams` reach fetchApi unchanged |
| FetchRpc.ResultIsPromoted | src/lib/fetchRpc.ts:155-164 | a resolved fetchApi call resolves with `data.result` as `data` and every other field kept |
| FetchRpc.MissingResultLeavesNoData | src/lib/fetchRpc.ts:163 | a body without `result` leaves `data` absent |
| FetchRpcFixedId.ConvertRpcToApiProps | src/lib/fetch-rpc.ts:105-126 | as the uuid copy, with the id 1 for a call without one |
| FetchRpcFixedId.ConvertApiToRpcReturn | src/lib/fetch-rpc.ts:129-138 | `data` becomes `data.result` and nothing else changes; a null or missing `data` throws |
| FetchRpcFixedId.FetchRpc | src/lib/fetch-rpc.ts:153-162 | what reaches `fetch` is fetchApi's on the converted props |
| FetchRpcFixedId.SameAsUuidCopyWithIdOne | src/lib/fetch-rpc.ts:105-126 | this copy's conversion is the uuid copy's with fresh id 1 |
| FetchRpcFixedId.SameReturnConversion | src/lib/fetch-rpc.ts:129-138 | both copies unwrap `result` the same way, including where they throw |
| FetchRpcFixedId.IdIsFixed | src/lib/fetch-rpc.ts:106 | two calls without an id carry the same id, 1 |
| UrlResolution.DirectoryOf | src/lib/fetchBull.ts:113 | the directory is the longest prefix of the path that ends in '/', and no '/' follows it |
| UrlResolution.MergePath | src/lib/fetchBull.ts:113 | the merge of section 5.2.3 of RFC 3986: "/" + segment for an empty base path, else the base directory + segment |
| UrlResolution.ResolveUrl | src/lib/fetchBull.ts:113 | `new URL(ref, base)` throws when the base does not parse, and when the base has an opaque path and the reference is empty or a segment; otherwise the empty reference gives the base without its fragment, and a plain segment replaces the last path segment, except that a `file:` base whose path is a lone drive letter keeps it and gets the segment after it |
| UrlResolution.SegmentReplacesLastSegment | src/lib/fetchBull.ts:113 | against a base with a non-opaque path, resolving a segment keeps the base directory and drops the last segment, query and fragment; a `file:` base whose path is a lone drive letter keeps it, and the segment follows it |
| UrlResolution.DriveLetterIsKept | src/lib/fetchBull.ts:113 | `api-permissions` resolved against `file:///C:` is `file:///C:/api-permissions` |
| UrlResolution.DirectoryOfDirectory | src/lib/fetchBull.ts:113 | a path ending in '/' is its own directory |
| UrlResolution.DirectoryOfAppend | src/lib/fetchBull.ts:113 | appending a slash-free segment to a directory leaves the directory the same |
| UrlResolution.ResolvingTwiceReplaces | src/lib/fetchBull.ts:113 | resolving a second segment against a resolved URL replaces the first |
| FetchBull.BaseUrl | src/lib/fetchBull.ts:109 | the base is the truthy url, else a non-empty environment setting, else https://api.bullbitcoin.com/, and never empty |
| FetchBull.ServiceRef | src/lib/fetchBull.ts:113 | the reference is `api-<service>` for a truthy service and empty otherwise |
| FetchBull.ConvertBullToRpcProps | src/lib/fetchBull.ts:94-125 | it throws iff the URL cannot be built; `url` is the resolved URL; `credentials` is "include" unless given; `service` is dropped; every other field passes unchanged |
| FetchBull.ConvertRpcToBullReturn | src/lib/fetchBull.ts:129-131 | the identity |
| FetchBull.FetchBull | src/lib/fetchBull.ts:150-159 | a throwing conversion rejects before anything is sent |
| FetchBull.FetchBullIsFetchRpc | src/lib/fetchBull.ts:150-159 | once the props convert, a Bull call is exactly the RPC call on the converted props |
| FetchBull.ServiceSitsInBaseDirectory | src/lib/fetchBull.ts:113 | a service resolves to `api-<service>` in the base's directory, or after the path for a `file:` base that is a lone drive letter |
| FetchBull.DefaultServiceUrl | src/lib/fetchBull.ts:109-113 | with no url and no environment setting, a service call goes to https://api.bullbitcoin.com/api-<service> |
| FetchBull.ExplicitUrlIsOnlyBase | src/lib/fetchBull.ts:109-113 | an explicit url with a service is only the base: the call goes to the segment beside it (after it, for a `file:` drive-letter base) |
| FetchBull.NoServiceUsesBase | src/lib/fetchBull.ts:113 | without a service the call goes to the base less its fragment |
| FetchBull.OpaqueBaseRejects | src/lib/fetchBull.ts:109-113 | a base with an opaque path makes `new URL` throw "Invalid URL", so the call rejects with nothing sent |
| FetchBull.BaseFallsBack | src/lib/fetchBull.ts:109 | the base falls back from the caller's url to the environment setting to the public API |
| FetchBull.RpcCallReachesFetch | src/lib/fetchBull.ts:111-124 | the RPC call on converted props sends their URL, credentials and HTTP method (POST by default) |
| FetchBull.BullCallReachesFetch | src/lib/fetchBull.ts:111-124 | on the wire, the credentials mode and the resolved URL reach `fetch`, and the request is POSTed unless the caller chose another method |
| FetchBull.RequestFieldsForwarded | src/lib/fetchBull.ts:114 | `queryParams`, `requestMethod` and the RPC `method` pass to the RPC layer unchanged |
| FetchBull.PermissionsCall | src/lib/fetchBull.ts:109-113 | a `permissions` call with no url and no environment setting goes to https://api.bullbitcoin.com/api-permissions with its method |
| FetchBull.PermissionsCallReachesFetch | src/lib/fetchBull.ts:109-124 | on the wire, such a call is POSTed with credentials "include" to https://api.bullbitcoin.com/api-permissions, with the JSON of the request object naming its method as body |
| FetchBull.PermissionsRpcProps | src/lib/fetchBull.ts:109-124 | the RPC props of such a call: the api-permissions URL, credentials "include", and the method, data, params and id of the props |
| FetchBull.RpcWire | src/lib/fetchRpc.ts:131-152 | an RPC call without queryParams or requestMethod reaches `fetch` at its parsed URL, POSTed, with its credentials and the JSON of its request object |
| FetchBullLegacy.ConvertBullToRpcProps | src/lib-legacy-2/fetch-bull.ts:104-135 | the legacy conversion equals the current one on every input |
| FetchBullLegacy.ConvertRpcToBullReturn | src/lib-legacy-2/fetch-bull.ts:139-141 | the identity |
| FetchBullLegacy.FetchBull | src/lib-legacy-2/fetch-bull.ts:157-166 | the legacy composition equals the current one on every input |
| BullEntity.ConvertBullEntityToBullProps | src/lib/fetch-bull-entity.ts:152-156 | the identity |
| BullEntity.EntityData | src/lib/fetch-bull-entity.ts:180 | `{entity, ...additionalData}`: the additional fields win, the entity is kept unless shadowed, nothing else is there |
| BullEntity.EntityReturn | src/lib/fetch-bull-entity.ts:160-185 | `status` is kept; `data` is rebuilt from `entity` and `additionalData` only; `entity` is `data.entity` or `{}`, unless the envelope has its own; other fields are kept |
| BullEntity.ConvertBullToBullEntityReturn | src/lib/fetch-bull-entity.ts:160-185 | it throws iff `data` is null or missing, and otherwise gives that return |
| BullEntity.FetchBullEntity | src/lib/fetch-bull-entity.ts:200-209 | what was sent and notified is the Bull call's, and its rejection passes through |
| BullEntity.EntityIsDuplicated | src/lib/fetch-bull-entity.ts:180-181 | a truthy entity appears both on top and in `data` |
| BullEntity.MissingEntityIsEmpty | src/lib/fetch-bull-entity.ts:180-181 | without an entity the top-level `entity` is `{}` and `data` has none |
| BullEntity.OtherDataFieldsDropped | src/lib/fetch-bull-entity.ts:161-180 | other `data` fields are dropped unless `additionalData` supplies them |
| BullEntity.ResolvesWithData | src/lib/fetch-bull-entity.ts:200-209 | the call resolves iff the Bull call resolved with a `data`, and then keeps its status |
| BullEntity.RpcErrorResponseRejects | src/lib/fetch-bull-entity.ts:161 | a JSON-RPC error response leaves no `data`, so the entity call rejects |
| BullEntityLegacy.ConvertBullEntityToBullProps | src/lib-legacy-2/fetch-bull-entity.ts:141-145 | the identity |
| BullEntityLegacy.ConvertBullToBullEntityReturn | src/lib-legacy-2/fetch-bull-entity.ts:149-174 | the legacy conversion equals the current one on every envelope |
| BullEntityLegacy.FetchBullEntity | src/lib-legacy-2/fetch-bull-entity.ts:189-198 | the legacy composition equals the current one |
| BullEntityLegacy.GetGroupProps | src/lib-legacy-2/fetch-bull-entity.ts:252-259 | service 'permissions' and method 'getGroup' are defaults the props override; explicit params win over `props.params`; other props are kept |
| BullEntityLegacy.GetGroup | src/lib-legacy-2/fetch-bull-entity.ts:252-259 | `getGroup` sends and notifies what the Bull call on the merged props does, and a rejection of that call passes through; the request it puts on the wire is stated by `GetGroupReachesFetch` |
| BullEntityLegacy.GetGroupCallsPermissions | src/lib-legacy-2/fetch-bull-entity.ts:252-259 | with no props, `getGroup` calls the RPC method getGroup at https://api.bullbitcoin.com/api-permissions |
| BullEntityLegacy.GetGroupReachesFetch | src/lib-legacy-2/fetch-bull-entity.ts:252-259 | on the wire, `getGroup(params)` is POSTed with credentials "include" to https://api.bullbitcoin.com/api-permissions, with the JSON of a JSON-RPC 2.0 request for getGroup with the fresh id and the params as body |
| BullEntityLegacy.GetGroupPropsEmpty | src/lib-legacy-2/fetch-bull-entity.ts:252-259 | with no props, the props hold the permissions service, the getGroup method and the params, and no url, options, data or id |
| BullEntityLegacy.GetGroupSent | src/lib-legacy-2/fetch-bull-entity.ts:252-259 | what `getGroup` hands to `fetch` is what the Bull call on its props hands |
| BullEntityList.ConvertBullEntityListToBullProps | src/lib/fetchBullEntityList.ts:153-157 | the identity |
| BullEntityList.ListData | src/lib/fetchBullEntityList.ts:162-182 | taking `entities` and `totalEntities` out and spreading the rest back gives exactly the fields of `data` |
| BullEntityList.NamedPropIsSpread | src/lib/fetchBullEntityList.ts:162 | destructuring `entities` or `totalEntities` out of a non-null `data` reads what spreading `data` copies |
| BullEntityList.RestReassembles | src/lib/fetchBullEntityList.ts:162-182 | taking two fields out with a rest pattern and putting them back before the rest gives the object again |
| BullEntityList.EntityListReturn | src/lib/fetchBullEntityList.ts:161-189 | `status` is kept; `data` keeps every field; `entities` is `data.entities` or `[]` and `totalEntities` is `data.totalEntities`, unless the envelope has its own; other fields are kept |
| BullEntityList.ListHead | src/lib/fetchBullEntityList.ts:181-184 | the fields written before `...apiReturn` |
| BullEntityList.ConvertBullToBullEntityListReturn | src/lib/fetchBullEntityList.ts:161-189 | it throws iff `data` is null or missing, and otherwise gives that return |
| BullEntityList.FetchBullEntityList | src/lib/fetchBullEntityList.ts:206-215 | what was sent and notified is the Bull call's, and its rejection passes through |
| BullEntityList.ObjectResultIsKept | src/lib/fetchBullEntityList.ts:161-189 | an object result comes back unchanged as `data`, with its list and total also on top |
| BullEntityList.MissingListIsEmpty | src/lib/fetchBullEntityList.ts:183-184 | without a list, `entities` is `[]` and there is no `totalEntities` |
| BullEntityList.ResolvesWithData | src/lib/fetchBullEntityList.ts:206-215 | the call resolves iff the Bull call resolved with a `data`, and then keeps its status |
| BullEntityList.RpcErrorResponseRejects | src/lib/fetchBullEntityList.ts:162 | a JSON-RPC error response leaves no `data`, so the call rejects |
| BullListEntitiesLegacy.ConvertBullListEntitiesToBullProps | src/lib-legacy-2/fetch-bull-list-entities.ts:154-158 | the identity |
| BullListEntitiesLegacy.ListData | src/lib-legacy-2/fetch-bull-list-entities.ts:183 | `{entities, totalEntities, ...additionalData}`: the additional fields win; nothing else is there |
| BullListEntitiesLegacy.ListHead | src/lib-legacy-2/fetch-bull-list-entities.ts:182-185 | the fields written before `...apiReturn` |
| BullListEntitiesLegacy.ListEntitiesReturn | src/lib-legacy-2/fetch-bull-list-entities.ts:162-190 | `status` is kept; `data` is rebuilt from the three fields read; `entities` defaults to `[]`, `totalEntities` has no default, the envelope's own fields win; other fields are kept |
| BullListEntitiesLegacy.ConvertBullToBullListEntitiesReturn | src/lib-legacy-2/fetch-bull-list-entities.ts:162-190 | it throws iff `data` is null or missing, and otherwise gives that return |
| BullListEntitiesLegacy.FetchBullListEntities | src/lib-legacy-2/fetch-bull-list-entities.ts:208-217 | what was sent and notified is the Bull call's, and its rejection passes through |
| BullListEntitiesLegacy.ListGroupsProps | src/lib-legacy-2/fetch-bull-list-entities.ts:316-328 | service 'permissions' and method 'listGroups' are defaults the props override; explicit params win over `props.params`; other props are kept |
| BullListEntitiesLegacy.ListGroups | src/lib-legacy-2/fetch-bull-list-entities.ts:316-328 | `listGroups` sends and notifies what the Bull call on the merged props does, and a rejection of that call passes through; the request it puts on the wire is stated by `ListGroupsReachesFetch` |
| BullListEntitiesLegacy.MissingListIsEmpty | src/lib-legacy-2/fetch-bull-list-entities.ts:183-185 | without list, total or additional data: `entities` is `[]`, no total, and `data` is `{}` |
| BullListEntitiesLegacy.EmptyListData | src/lib-legacy-2/fetch-bull-list-entities.ts:183 | with nothing to put in it, `data` is `{}` |
| BullListEntitiesLegacy.OtherDataFieldsDropped | src/lib-legacy-2/fetch-bull-list-entities.ts:163-183 | other `data` fields are dropped unless `additionalData` supplies them |
| BullListEntitiesLegacy.ResolvesWithData | src/lib-legacy-2/fetch-bull-list-entities.ts:208-217 | the call resolves iff the Bull call resolved with a `data`, and then keeps its status |
| BullListEntitiesLegacy.RpcErrorResponseRejects | src/lib-legacy-2/fetch-bull-list-entities.ts:163 | a JSON-RPC error response leaves no `data`, so the call rejects |
| BullListEntitiesLegacy.ListGroupsCallsPermissions | src/lib-legacy-2/fetch-bull-list-entities.ts:316-328 | with no props, `listGroups` calls the RPC method listGroups at https://api.bullbitcoin.com/api-permissions |
| BullListEntitiesLegacy.ListGroupsReachesFetch | src/lib-legacy-2/fetch-bull-list-entities.ts:316-328 | on the wire, `listGroups(params)` is POSTed with credentials "include" to https://api.bullbitcoin.com/api-permissions, with the JSON of a JSON-RPC 2.0 request for listGroups with the fresh id and the params as body |
| BullListEntitiesLegacy.ListGroupsPropsEmpty | src/lib-legacy-2/fetch-bull-list-entities.ts:316-328 | with no props, the props hold the permissions service, the listGroups method and the params, and no url, options, data or id |
| BullListEntitiesLegacy.ListGroupsSent | src/lib-legacy-2/fetch-bull-list-entities.ts:316-328 | what `listGroups` hands to `fetch` is what the Bull call on its props hands |
| BullListEntities.ConvertBullListEntitiesToBullProps | src/lib/fetch-bull-list-entities.ts:124-130 | the identity |
| BullListEntities.ListEntitiesReturn | src/lib/fetch-bull-list-entities.ts:134-145 | `status` is kept; there is no `data`; `entities` is `data.elements` or `[]` and `totalEntities` is `data.totalElements`, unless the envelope has its own; other fields are kept |
| BullListEntities.ListHead | src/lib/fetch-bull-list-entities.ts:139-141 | the fields written before `...apiReturn` |
| BullListEntities.ConvertBullToBullListEntitiesReturn | src/lib/fetch-bull-list-entities.ts:134-145 | reading `elements` throws iff `data` is null or missing; otherwise it gives that return |
| BullListEntities.FetchBullListEntities | src/lib/fetch-bull-list-entities.ts:163-172 | what was sent and notified is the Bull call's, and its rejection passes through |
| BullListEntities.ElementsBecomeEntities | src/lib/fetch-bull-list-entities.ts:140-141 | `elements` and `totalElements` come back as `entities` (default `[]`) and `totalEntities` (absent when missing) |
| BullListEntities.EntitiesFieldIsIgnored | src/lib/fetch-bull-list-entities.ts:134-145 | an `entities` field of the result does not change the return |
| BullListEntities.ResolvesWithData | src/lib/fetch-bull-list-entities.ts:163-172 | the call resolves iff the Bull call resolved with a `data`, and then keeps its status |
| BullListEntities.RpcErrorResponseRejects | src/lib/fetch-bull-list-entities.ts:135 | a JSON-RPC error response leaves no `data`, so the call rejects |
| Cookies.Render | src/lib/utils.ts:6 | a cookie is written `name=value`, verbatim |
| Cookies.CookiesToString | src/lib/utils.ts:5-7 | the empty list gives the empty string, and only it does; one cookie gives exactly its pair |
| Cookies.ParseCookiesToString | src/lib/utils.ts:5-7 | reading the string back gives the same cookies in the same order, when no name holds '=' or ';' and no value holds ';' |
| Cookies.ConcatenatedCookies | src/lib/utils.ts:5-7 | two lists write out as their strings joined by "; " |
| Cookies.CookieStringLength | src/lib/utils.ts:5-7 | the length is the sum of the pair lengths plus 2·(n−1) |

## Left out

- JavaScript numbers are integers here, so floating point and NaN are not modelled. A thrown `undefined` is not modelled either, and neither are properties inherited through prototypes.
- FetchApi.Deliver: `onFetch` is taken not to modify the envelope it is given. In the source `propagateAndReturn` passes `_res` itself to `onFetch` and returns that same object, and the 200 catch spreads it again. So an `onFetch` that writes into its argument changes the envelope the call resolves with and what `catchError` copies after a throw. The callback oracle returns only what was thrown, so the model always resolves with, and recovers from, the envelope as it was before the call.
- FetchApiFacts.OnFetchSeesResult: holds for an `onFetch` that leaves its argument unchanged; one that modifies it makes the source return the modified object.
- FetchApiFacts.OnFetchThrowingIsCalledTwice: likewise, the caught envelope is built from `_res` as `onFetch` left it, which the model takes to be unchanged.
- Js.Characters, Js.Spread, Js.Prop: a Dafny string is a sequence of Unicode code points, while a JavaScript string is a sequence of UTF-16 code units. So spreading a string (`...(props.data || {})`, `...additionalData`, `{...props.params, ...params}`) gives one index key per code point, and `length` counts code points: spreading the one-character string U+1F600 gives one key here and two (the surrogate halves) in JavaScript. A lone surrogate cannot be represented.
- `console.log`, and the ordering of the awaits, are not modelled. Each call is sequential.
- `fetch`, the body read and the `content-type` lookup are not modelled. They are the `Exchange` and `Response` the host's `fetch` oracle returns.
- `new URL(s)`, `URLSearchParams`, `JSON.stringify` and URL resolution beyond the empty reference and a plain segment are not modelled. They are host oracles.
- `new URL(s)` is an oracle, so which URLs have an opaque path is what it reports in `opaquePath`.
- `JSON.stringify` always returns a string here. For a truthy `data` it cannot represent, such as a function, the source's `JSON.stringify` gives `undefined` and no body is sent. The model sends the oracle's string instead.
- `data?.get?.('file') instanceof File` is not evaluated. It is the `hasFile` flag of a FormData value, and the model does not evaluate what a non-function `get` would do.
- `createFetchApiError` builds a record and then sets its `e` in place. The model builds the finished record as a value, because nothing else holds the record while it is built.
- `uuid()` and `process.env.NEXT_PUBLIC_BB_API_URL` are not modelled. They are the parameters `freshId` and `host.envApiUrl`.
- src/lib/fetch-api.ts is not part of this model. src/lib/fetch-rpc.ts imports its fetchApi from there, and the composition `FetchRpcFixedId.FetchRpc` uses the fetchApi of src/lib-legacy-2/fetch-api.ts instead.
- The library index files (`src/lib/index.ts`, `src/lib-legacy-2/index.ts`, the package root) are not part of this model, so which copy each import resolves to is a choice. The fetchBull copies use the uuid fetchRpc. The current entity and list layers use src/lib/fetchBull.ts, and the legacy ones use src/lib-legacy-2/fetch-bull.ts (the two are proved equal).
- A key whose value is `undefined` is treated as absent. So is `params: props.params` when `props.params` is undefined.
- The `props = {}` default of `getGroup` and `listGroups` applies only to missing props. Their lemmas take the empty props.
- The commented-out alternatives, the old implementation block in src/lib/fetch-rpc.ts, the commented JSON-RPC error handling in fetchApi, and the demo function `fn` are not modelled. None of them runs.
- All members require `url` and `service` to be strings when present (`FetchApi.UrlIsString`, `FetchBull.BullPropsTyped`), as the source's types declare.
- The TypeScript type-level machinery is not modelled because it has no runtime behaviour.
