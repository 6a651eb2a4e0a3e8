/**
 * The generic API controller: the path and query it sends for a GET or POST to an
 * arbitrary Bitbucket endpoint. The jq filtering of the response and the controller
 * error handler are not part of this model.
 */
module ApiController {
  import opened Wrappers
  import opened Strings
  import opened Json
  import opened Errors
  import Query
  import Transport

  /** The path with `/` and then `/2.0` prefixed, each only when it is missing. */
  function NormalizeApiPath(p: string): (r: string)
    ensures StartsWith(r, "/2.0")
    ensures StartsWith(p, "/2.0") ==> r == p
    ensures r == Transport.NormalizePath(p) || r == "/2.0" + Transport.NormalizePath(p)
  {
    var slashed := if StartsWith(p, "/") then p else "/" + p;
    if StartsWith(slashed, "/2.0") then slashed else "/2.0" + slashed
  }

  /** Normalising twice is normalising once. */
  lemma NormalizeApiPathIdempotent(p: string)
    ensures NormalizeApiPath(NormalizeApiPath(p)) == NormalizeApiPath(p)
  {
  }

  /** A relative path such as `repositories/ws` becomes `/2.0/repositories/ws`. */
  lemma NormalizeApiPathOfRelative(p: string)
    requires !StartsWith(p, "/") && !StartsWith("/" + p, "/2.0")
    ensures NormalizeApiPath(p) == "/2.0/" + p
  {
    assert "/2.0" + ("/" + p) == "/2.0/" + p;
  }

  /** The query string joined with `&` if the path already has a `?`, else with `?`; nothing for no parameters. */
  function AppendQuery(path: string, queryParams: Option<Query.Pairs>): (r: string)
    ensures queryParams.None? || queryParams.value == [] ==> r == path
    ensures queryParams.Some? && queryParams.value != [] ==>
      r == path + (if '?' in path then "&" else "?") + Query.Serialize(queryParams.value)
    ensures StartsWith(r, path)
  {
    if queryParams.Some? && |queryParams.value| > 0 then
      path + (if '?' in path then "&" else "?") + Query.Serialize(queryParams.value)
    else path
  }

  /** `handleGet` up to the transport call. */
  function HandleGet(config: Transport.Config, path: string, queryParams: Option<Query.Pairs>): (r: Result<Transport.Call, Error>)
    ensures Transport.GetAtlassianCredentials(config).None? <==> r == Failure(AuthMissing(None))
    ensures r.Success? ==> StartsWith(r.value.path, "/2.0") && StartsWith(r.value.path, NormalizeApiPath(path))
    ensures r.Success? ==> r.value.path == AppendQuery(NormalizeApiPath(path), queryParams)
    ensures r.Success? ==> r.value.credentials == Transport.GetAtlassianCredentials(config).value
    ensures r.Success? ==> r.value.options == Transport.RequestOptions(Some(Transport.GET), None, None)
  {
    match Transport.GetAtlassianCredentials(config)
    case None => Failure(AuthMissing(None))
    case Some(creds) =>
      Success(Transport.Call(creds, AppendQuery(NormalizeApiPath(path), queryParams), Transport.RequestOptions(Some(Transport.GET), None, None)))
  }

  /** `handlePost` up to the transport call: the same path rules, method POST and the caller's body. */
  function HandlePost(config: Transport.Config, path: string, queryParams: Option<Query.Pairs>, body: Option<Json>): (r: Result<Transport.Call, Error>)
    ensures Transport.GetAtlassianCredentials(config).None? <==> r == Failure(AuthMissing(None))
    ensures r.Success? ==> StartsWith(r.value.path, "/2.0") && StartsWith(r.value.path, NormalizeApiPath(path))
    ensures r.Success? ==> r.value.path == AppendQuery(NormalizeApiPath(path), queryParams)
    ensures r.Success? ==> r.value.credentials == Transport.GetAtlassianCredentials(config).value
    ensures r.Success? ==> r.value.options == Transport.RequestOptions(Some(Transport.POST), None, body)
  {
    match Transport.GetAtlassianCredentials(config)
    case None => Failure(AuthMissing(None))
    case Some(creds) =>
      Success(Transport.Call(creds, AppendQuery(NormalizeApiPath(path), queryParams), Transport.RequestOptions(Some(Transport.POST), None, body)))
  }

  /** GET and POST address the same endpoint for the same path and query. */
  lemma HandlersAgreeOnPath(config: Transport.Config, path: string, queryParams: Option<Query.Pairs>, body: Option<Json>)
    ensures HandleGet(config, path, queryParams).Success? <==> HandlePost(config, path, queryParams, body).Success?
    ensures HandleGet(config, path, queryParams).Success? ==>
      HandleGet(config, path, queryParams).value.path == HandlePost(config, path, queryParams, body).value.path
  {
  }

  /** The transport sends the handler's path unchanged after the base URL, since it already starts with `/`. */
  lemma HandleGetUrl(config: Transport.Config, path: string, queryParams: Option<Query.Pairs>)
    requires HandleGet(config, path, queryParams).Success?
    ensures var call := HandleGet(config, path, queryParams).value;
      var req := Transport.PrepareRequest(call.credentials, call.path, call.options);
      req.Success? && call.credentials.useBitbucketAuth == Some(true) ==> req.value.url == "https://api.bitbucket.org" + call.path
  {
    var call := HandleGet(config, path, queryParams).value;
    assert StartsWith(call.path, "/") by {
      assert call.path[..1] == call.path[..4][..1];
    }
  }
}
