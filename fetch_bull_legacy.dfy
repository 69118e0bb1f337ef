/**
 * The legacy copy of the Bull layer, src/lib-legacy-2/fetch-bull.ts. Its
 * conversions are written out again here from that file; they agree with the
 * current copy (src/lib/fetchBull.ts) on every input, so every property proved
 * about FetchBull holds for this copy too.
 *
 * Like the current copy, it takes `fetchRpc` from a library index that is not
 * part of this model; the uuid copy (src/lib/fetchRpc.ts) is used.
 */
module FetchBullLegacy {
  import opened Js
  import opened FetchApi
  import opened UrlResolution
  import FetchRpc
  import Current = FetchBull

  /** `convertBullToRpcProps(props)` of the legacy copy. */
  function ConvertBullToRpcProps(props: Fields, host: Host): (r: Result<Fields, Value>)
    requires Current.BullPropsTyped(props)
    ensures r == Current.ConvertBullToRpcProps(props, host)
  {
    var url := Get(props, "url");
    var service := Get(props, "service");
    var base := if Truthy(url) then url.value.s
      else if host.envApiUrl.Some? && host.envApiUrl.value != "" then host.envApiUrl.value
      else "https://api.bullbitcoin.com/";
    var ref := if Truthy(service) then "api-" + service.value.s else "";
    var rest := props - {"url", "service"};
    match ResolveUrl(ref, base, host)
    case None => Err(TypeError("Invalid URL"))
    case Some(href) =>
      Ok(Put(map["credentials" := Str("include"), "url" := Str(href)] + rest, "params", Get(rest, "params")))
  }

  /** `convertRpcToBullReturn` of the legacy copy: the identity. */
  function ConvertRpcToBullReturn(rpcReturn: Fields): (r: Result<Fields, Value>)
    ensures r == Ok(rpcReturn)
  {
    Ok(rpcReturn)
  }

  /** `fetchBull(bullProps)` of the legacy copy. */
  function FetchBull(props: Fields, freshId: Value, host: Host): (r: Run)
    requires Current.BullPropsTyped(props)
    ensures r == Current.FetchBull(props, freshId, host)
  {
    match ConvertBullToRpcProps(props, host)
    case Err(e) => Run(Rejected(e), None, [])
    case Ok(rpcProps) => AndThen(FetchRpc.FetchRpc(rpcProps, freshId, host), ConvertRpcToBullReturn)
  }
}
