/**
 * The decisions of the HTTP transport: which credentials the configuration yields, how a
 * request is addressed and authorised, and how a response (given as data) becomes a result
 * or a typed error.
 */
module Transport {
  import opened Wrappers
  import opened Strings
  import opened Json
  import opened Errors
  import Encoding

  // ---------------------------------------------------------------- credentials

  /** The five configuration values the transport reads; `None` when unset. */
  datatype Config = Config(
    siteName: Option<string>,
    userEmail: Option<string>,
    apiToken: Option<string>,
    bitbucketUsername: Option<string>,
    bitbucketAppPassword: Option<string>)

  /** The credentials record; every field is optional, as in the source. */
  datatype Credentials = Credentials(
    siteName: Option<string>,
    userEmail: Option<string>,
    apiToken: Option<string>,
    bitbucketUsername: Option<string>,
    bitbucketAppPassword: Option<string>,
    useBitbucketAuth: Option<bool>)

  predicate StandardComplete(site: Option<string>, email: Option<string>, token: Option<string>)
  {
    Given(site) && Given(email) && Given(token)
  }

  predicate BitbucketComplete(user: Option<string>, password: Option<string>)
  {
    Given(user) && Given(password)
  }

  /** `getAtlassianCredentials`: the standard triple first, then the Bitbucket pair, else nothing. */
  function GetAtlassianCredentials(c: Config): (r: Option<Credentials>)
    ensures StandardComplete(c.siteName, c.userEmail, c.apiToken) ==>
      r == Some(Credentials(c.siteName, c.userEmail, c.apiToken, None, None, Some(false)))
    ensures !StandardComplete(c.siteName, c.userEmail, c.apiToken) && BitbucketComplete(c.bitbucketUsername, c.bitbucketAppPassword) ==>
      r == Some(Credentials(None, None, None, c.bitbucketUsername, c.bitbucketAppPassword, Some(true)))
    ensures r.None? <==> !StandardComplete(c.siteName, c.userEmail, c.apiToken) && !BitbucketComplete(c.bitbucketUsername, c.bitbucketAppPassword)
  {
    if StandardComplete(c.siteName, c.userEmail, c.apiToken) then
      Some(Credentials(c.siteName, c.userEmail, c.apiToken, None, None, Some(false)))
    else if BitbucketComplete(c.bitbucketUsername, c.bitbucketAppPassword) then
      Some(Credentials(None, None, None, c.bitbucketUsername, c.bitbucketAppPassword, Some(true)))
    else None
  }

  // ---------------------------------------------------------------- requests

  datatype Method = GET | POST | PUT | DELETE

  type Headers = seq<(string, string)>

  datatype RequestOptions = RequestOptions(verb: Option<Method>, headers: Option<Headers>, body: Option<Json>)

  const NoOptions := RequestOptions(None, None, None)

  /** The arguments of a `fetchAtlassian(credentials, path, options)` call. */
  datatype Call = Call(credentials: Credentials, path: string, options: RequestOptions)

  /** What is handed to `fetch`; `body` is the value that `JSON.stringify` serializes. */
  datatype Request = Request(url: string, verb: Method, headers: Headers, body: Option<Json>)

  /** The `Authorization` value of section 2 of RFC 7617: `Basic ` and base64 of `user:secret` in UTF-8. */
  function BasicAuth(user: string, secret: string): string
  {
    "Basic " + Encoding.Base64Encode(Encoding.Utf8(user + ":" + secret))
  }

  /** The credentials behind a Basic value can be recovered: the token decodes to `user`, a colon, `secret`. */
  lemma BasicAuthDecodes(user: string, secret: string)
    ensures StartsWith(BasicAuth(user, secret), "Basic ")
    ensures Encoding.Base64Decode(BasicAuth(user, secret)[6..]) ==
      Some(Encoding.Utf8(user) + [0x3A] + Encoding.Utf8(secret))
  {
    var b := Encoding.Utf8(user + ":" + secret);
    var t := Encoding.Base64Encode(b);
    assert BasicAuth(user, secret) == "Basic " + t;
    assert ("Basic " + t)[6..] == t;
    Encoding.Base64RoundTrip(b);
    Utf8WithColon(user, secret);
  }

  lemma Utf8WithColon(user: string, secret: string)
    ensures Encoding.Utf8(user + ":" + secret) == Encoding.Utf8(user) + [0x3A] + Encoding.Utf8(secret)
  {
    Encoding.Utf8Concat(user + ":", secret);
    Encoding.Utf8Concat(user, ":");
    assert Encoding.Utf8(":") == [0x3A] by {
      assert ":"[1..] == "";
    }
  }

  /** The base URL and `Authorization` value of the active variant, or the AuthInvalid error. */
  function Endpoint(creds: Credentials): Result<(string, string), Error>
  {
    if creds.useBitbucketAuth == Some(true) then
      if !BitbucketComplete(creds.bitbucketUsername, creds.bitbucketAppPassword) then
        Failure(AuthInvalid("Missing Bitbucket username or app password"))
      else
        Success(("https://api.bitbucket.org", BasicAuth(creds.bitbucketUsername.value, creds.bitbucketAppPassword.value)))
    else if !StandardComplete(creds.siteName, creds.userEmail, creds.apiToken) then
      Failure(AuthInvalid("Missing Atlassian credentials"))
    else
      Success(("https://" + creds.siteName.value + ".atlassian.net", BasicAuth(creds.userEmail.value, creds.apiToken.value)))
  }

  /** A path with a leading `/` added when it lacks one. */
  function NormalizePath(path: string): (r: string)
    ensures StartsWith(r, "/")
    ensures StartsWith(path, "/") ==> r == path
    ensures !StartsWith(path, "/") ==> r == "/" + path
  {
    if StartsWith(path, "/") then path else "/" + path
  }

  lemma NormalizePathIdempotent(path: string)
    ensures NormalizePath(NormalizePath(path)) == NormalizePath(path)
  {
  }

  predicate HasHeader(hs: Headers, k: string)
  {
    exists i :: 0 <= i < |hs| && hs[i].0 == k
  }

  /** The value a header object holds for `k`: the last assignment wins. */
  function Lookup(hs: Headers, k: string): (r: Option<string>)
    ensures r.Some? <==> HasHeader(hs, k)
  {
    if |hs| == 0 then None
    else if hs[|hs| - 1].0 == k then Some(hs[|hs| - 1].1)
    else Lookup(hs[..|hs| - 1], k)
  }

  /** Assigning `obj[k] = v`: an existing key keeps its position, a new key goes last. */
  function Upsert(hs: Headers, k: string, v: string): (r: Headers)
    ensures |r| == |hs| || (!HasHeader(hs, k) && r == hs + [(k, v)])
    ensures forall i :: 0 <= i < |hs| ==> r[i].0 == hs[i].0
  {
    if HasHeader(hs, k) then Overwrite(hs, k, v) else hs + [(k, v)]
  }

  function Overwrite(hs: Headers, k: string, v: string): (r: Headers)
    ensures |r| == |hs|
    ensures forall i :: 0 <= i < |hs| ==> r[i] == if hs[i].0 == k then (k, v) else hs[i]
  {
    if |hs| == 0 then [] else Overwrite(hs[..|hs| - 1], k, v) + [if hs[|hs| - 1].0 == k then (k, v) else hs[|hs| - 1]]
  }

  lemma {:induction false} LookupOverwrite(hs: Headers, k: string, v: string, other: string)
    ensures other != k ==> Lookup(Overwrite(hs, k, v), other) == Lookup(hs, other)
    ensures HasHeader(hs, k) ==> Lookup(Overwrite(hs, k, v), k) == Some(v)
  {
    if |hs| > 0 {
      var r := Overwrite(hs, k, v);
      var n := |hs|;
      assert r[..n - 1] == Overwrite(hs[..n - 1], k, v);
      LookupOverwrite(hs[..n - 1], k, v, other);
      if hs[n - 1].0 != k && HasHeader(hs, k) {
        var i :| 0 <= i < n && hs[i].0 == k;
        assert hs[..n - 1][i].0 == k;
      }
    }
  }

  lemma LookupUpsert(hs: Headers, k: string, v: string, other: string)
    ensures Lookup(Upsert(hs, k, v), other) == if other == k then Some(v) else Lookup(hs, other)
  {
    if HasHeader(hs, k) {
      LookupOverwrite(hs, k, v, other);
    } else {
      assert (hs + [(k, v)])[..|hs|] == hs;
    }
  }

  /** `{...base, ...extra}`. */
  function Spread(base: Headers, extra: Headers): (r: Headers)
    ensures |r| >= |base|
    ensures forall i :: 0 <= i < |base| ==> r[i].0 == base[i].0
  {
    if |extra| == 0 then base
    else Upsert(Spread(base, extra[..|extra| - 1]), extra[|extra| - 1].0, extra[|extra| - 1].1)
  }

  /** A key is among a list's names iff it is the last one's or among the others'. */
  lemma HasHeaderLast(hs: Headers, k: string)
    requires |hs| > 0
    ensures HasHeader(hs, k) <==> hs[|hs| - 1].0 == k || HasHeader(hs[..|hs| - 1], k)
  {
    var init := hs[..|hs| - 1];
    if HasHeader(hs, k) && hs[|hs| - 1].0 != k {
      var i :| 0 <= i < |hs| && hs[i].0 == k;
      assert init[i].0 == k;
    }
    if HasHeader(init, k) {
      var i :| 0 <= i < |init| && init[i].0 == k;
      assert hs[i].0 == k;
    }
  }

  /** A key the caller supplies overrides the default; every other key keeps its default value. */
  lemma {:induction false} LookupSpread(base: Headers, extra: Headers, k: string)
    ensures Lookup(Spread(base, extra), k) == if HasHeader(extra, k) then Lookup(extra, k) else Lookup(base, k)
  {
    if |extra| > 0 {
      var n := |extra|;
      var init := extra[..n - 1];
      var (k1, v1) := extra[n - 1];
      var mid := Spread(base, init);
      assert Spread(base, extra) == Upsert(mid, k1, v1);
      assert Lookup(mid, k) == if HasHeader(init, k) then Lookup(init, k) else Lookup(base, k) by {
        LookupSpread(base, init, k);
      }
      LookupUpsert(mid, k1, v1, k);
      HasHeaderLast(extra, k);
    }
  }

  function DefaultHeaders(auth: string): Headers
  {
    [("Authorization", auth), ("Content-Type", "application/json"), ("Accept", "application/json")]
  }

  /** The request `fetchAtlassian` sends, or the credentials error it throws before sending. */
  function PrepareRequest(creds: Credentials, path: string, options: RequestOptions): Result<Request, Error>
  {
    match Endpoint(creds)
    case Failure(e) => Failure(e)
    case Success((baseUrl, auth)) =>
      Success(Request(
        baseUrl + NormalizePath(path),
        if options.verb.Some? then options.verb.value else GET,
        Spread(DefaultHeaders(auth), if options.headers.Some? then options.headers.value else []),
        if options.body.Some? && Truthy(options.body.value) then options.body else None))
  }

  /** The base URL of the variant the credentials select. */
  function BaseUrl(creds: Credentials): string
    requires creds.useBitbucketAuth != Some(true) ==> creds.siteName.Some?
  {
    if creds.useBitbucketAuth == Some(true) then "https://api.bitbucket.org"
    else "https://" + creds.siteName.value + ".atlassian.net"
  }

  /** The request fails exactly when the active variant misses a field, and then with AuthInvalid. */
  lemma PrepareRequestFailure(creds: Credentials, path: string, options: RequestOptions)
    ensures PrepareRequest(creds, path, options).Failure? <==>
      if creds.useBitbucketAuth == Some(true) then !BitbucketComplete(creds.bitbucketUsername, creds.bitbucketAppPassword)
      else !StandardComplete(creds.siteName, creds.userEmail, creds.apiToken)
    ensures PrepareRequest(creds, path, options).Failure? ==> PrepareRequest(creds, path, options).error.AuthInvalid?
  {
  }

  /** The URL is the variant's base followed by the path with its leading `/` ensured. */
  lemma PrepareRequestUrl(creds: Credentials, path: string, options: RequestOptions)
    requires PrepareRequest(creds, path, options).Success?
    ensures creds.useBitbucketAuth != Some(true) ==> creds.siteName.Some?
    ensures PrepareRequest(creds, path, options).value.url == BaseUrl(creds) + NormalizePath(path)
    ensures StartsWith(path, "/") ==> PrepareRequest(creds, path, options).value.url == BaseUrl(creds) + path
  {
  }

  /** The method defaults to GET, and a body is sent only when the caller's body is truthy. */
  lemma PrepareRequestVerbAndBody(creds: Credentials, path: string, options: RequestOptions)
    requires PrepareRequest(creds, path, options).Success?
    ensures var req := PrepareRequest(creds, path, options).value;
      && (options.verb.None? ==> req.verb == GET)
      && (options.verb.Some? ==> req.verb == options.verb.value)
      && (req.body.Some? <==> options.body.Some? && Truthy(options.body.value))
      && (req.body.Some? ==> req.body == options.body)
  {
  }

  /** Caller headers override the three defaults key by key, `Authorization` included. */
  lemma PrepareRequestHeaders(creds: Credentials, path: string, options: RequestOptions, k: string)
    requires PrepareRequest(creds, path, options).Success?
    ensures var req := PrepareRequest(creds, path, options).value;
      var extra := if options.headers.Some? then options.headers.value else [];
      && (HasHeader(extra, k) ==> Lookup(req.headers, k) == Lookup(extra, k))
      && (!HasHeader(extra, k) && k == "Accept" ==> Lookup(req.headers, k) == Some("application/json"))
      && (!HasHeader(extra, k) && k == "Content-Type" ==> Lookup(req.headers, k) == Some("application/json"))
      && (!HasHeader(extra, k) && k == "Authorization" ==> Lookup(req.headers, k) == Some(Endpoint(creds).value.1))
  {
    var auth := Endpoint(creds).value.1;
    var extra := if options.headers.Some? then options.headers.value else [];
    LookupSpread(DefaultHeaders(auth), extra, k);
    LookupDefaults(auth);
  }

  lemma LookupDefaults(auth: string)
    ensures Lookup(DefaultHeaders(auth), "Authorization") == Some(auth)
    ensures Lookup(DefaultHeaders(auth), "Content-Type") == Some("application/json")
    ensures Lookup(DefaultHeaders(auth), "Accept") == Some("application/json")
  {
    var d := DefaultHeaders(auth);
    assert d[..2] == [("Authorization", auth), ("Content-Type", "application/json")];
    assert d[..2][..1] == [("Authorization", auth)];
    assert |"Accept"| != |"Authorization"| && |"Content-Type"| != |"Authorization"|;
    assert Lookup(d, "Authorization") == Lookup(d[..2], "Authorization") == Lookup(d[..2][..1], "Authorization");
  }

  /** Credentials produced by `getAtlassianCredentials` always pass the request's own guard. */
  lemma ConfiguredCredentialsPrepare(c: Config, path: string, options: RequestOptions)
    requires GetAtlassianCredentials(c).Some?
    ensures PrepareRequest(GetAtlassianCredentials(c).value, path, options).Success?
  {
  }

  // ---------------------------------------------------------------- responses

  /** A response as data: status line, `content-type` header (if any) and body text. */
  datatype Response = Response(status: int, statusText: string, contentType: Option<string>, body: string)

  /** A value thrown by `fetch` itself or by reading the response. */
  datatype Thrown = JsTypeError(message: string) | JsSyntaxError(message: string) | JsOtherError(message: string)

  datatype Outcome = Responded(response: Response) | Rejected(thrown: Thrown)

  /** The resolved value: raw text for a `text/plain` response, otherwise the parsed JSON. */
  datatype Payload = Text(text: string) | Data(value: Json)

  predicate Ok(status: int)
  {
    200 <= status <= 299
  }

  /** The `errors[0].title`, `message`, `error.message` priority over a parsed error body. */
  function ParsedErrorMessage(j: Json, fallback: string): string
  {
    var errors := Member(j, "errors");
    if errors.Throws? then fallback
    else if Present(errors) && errors.v.JArr? && |errors.v.items| > 0 then
      var title := Member(errors.v.items[0], "title");
      if Present(title) then ToJsString(title.v) else fallback
    else
      var message := Member(j, "message");
      if Present(message) then ToJsString(message.v)
      else
        var error := Member(j, "error");
        if Present(error) && Present(Member(error.v, "message")) then ToJsString(Member(error.v, "message").v)
        else fallback
  }

  /** The message of a failed response: from its body when that parses, else `status statusText`. */
  function ErrorMessage(r: Response, parse: string -> ParseResult): string
  {
    var fallback := IntToString(r.status) + " " + r.statusText;
    if r.body != "" && (StartsWith(r.body, "{") || StartsWith(r.body, "[")) then
      match parse(r.body)
      case SyntaxError(_) => fallback
      case Parsed(j) => ParsedErrorMessage(j, fallback)
    else fallback
  }

  /** The body is consulted only when it looks like JSON and parses; otherwise the status line is the message. */
  lemma ErrorMessageFallback(r: Response, parse: string -> ParseResult)
    ensures !(StartsWith(r.body, "{") || StartsWith(r.body, "[")) ==> ErrorMessage(r, parse) == IntToString(r.status) + " " + r.statusText
    ensures parse(r.body).SyntaxError? ==> ErrorMessage(r, parse) == IntToString(r.status) + " " + r.statusText
  {
  }

  /** The three message sources, in priority order, and the fallback when none supplies a message. */
  lemma ErrorMessagePriority(r: Response, parse: string -> ParseResult, fs: seq<(string, Json)>)
    requires StartsWith(r.body, "{") && parse(r.body) == Parsed(JObj(fs))
    ensures var j := JObj(fs); var m := ErrorMessage(r, parse);
      var errors := Member(j, "errors");
      var firstError := Present(errors) && errors.v.JArr? && |errors.v.items| > 0;
      && (firstError && Present(Member(errors.v.items[0], "title")) ==> m == ToJsString(Member(errors.v.items[0], "title").v))
      && (firstError && !Present(Member(errors.v.items[0], "title")) ==> m == IntToString(r.status) + " " + r.statusText)
      && (!firstError && Present(Member(j, "message")) ==> m == ToJsString(Member(j, "message").v))
      && (!firstError && !Present(Member(j, "message")) && Present(Member(j, "error")) && Present(Member(Member(j, "error").v, "message"))
          ==> m == ToJsString(Member(Member(j, "error").v, "message").v))
      && (!firstError && !Present(Member(j, "message")) && !(Present(Member(j, "error")) && Present(Member(Member(j, "error").v, "message")))
          ==> m == IntToString(r.status) + " " + r.statusText)
  {
  }

  /** The typed error for a non-2xx response. */
  function Classify(r: Response, parse: string -> ParseResult): (e: Error)
    ensures (r.status == 401 || r.status == 403) <==> e == AuthInvalid("Invalid Atlassian credentials")
    ensures r.status == 404 ==> e == ApiError("Resource not found", 404, Some(r.body))
    ensures r.status != 401 && r.status != 403 ==> e.ApiError? && e.status == r.status && e.body == Some(r.body)
    ensures r.status != 401 && r.status != 403 && r.status != 404 ==> e == ApiError(ErrorMessage(r, parse), r.status, Some(r.body))
    ensures IsMcpError(e)
  {
    if r.status == 401 || r.status == 403 then AuthInvalid("Invalid Atlassian credentials")
    else if r.status == 404 then ApiError("Resource not found", 404, Some(r.body))
    else ApiError(ErrorMessage(r, parse), r.status, Some(r.body))
  }

  /** The catch block for a thrown value that is not already an `McpError`. */
  function CatchThrown(t: Thrown): (e: Error)
    ensures IsMcpError(e)
    ensures !t.JsOtherError? <==> e.ApiError? && e.status == 500
  {
    match t
    case JsTypeError(m) => ApiError("Network or parsing error: " + m, 500, None)
    case JsSyntaxError(m) => ApiError("Network or parsing error: " + m, 500, None)
    case JsOtherError(m) => Unexpected("Unexpected error while calling Atlassian API: " + m)
  }

  function ContentType(r: Response): string
  {
    if r.contentType.Some? then r.contentType.value else ""
  }

  /**
   * The response handling as written: the final `return response.json()` hands back the
   * pending parse without waiting for it inside the `try`, so a body that fails to parse
   * rejects with the raw `SyntaxError` and bypasses the catch block.
   */
  function CompleteAsWritten(outcome: Outcome, parse: string -> ParseResult): Result<Payload, Error>
  {
    match outcome
    case Rejected(t) => Failure(CatchThrown(t))
    case Responded(r) =>
      if !Ok(r.status) then Failure(Classify(r, parse))
      else if Contains(ContentType(r), "text/plain") then Success(Text(r.body))
      else match parse(r.body)
        case Parsed(v) => Success(Data(v))
        case SyntaxError(m) => Failure(RawSyntaxError(m))
  }

  /** The response handling with the parse awaited inside the `try`, so its failure is classified too. */
  function Complete(outcome: Outcome, parse: string -> ParseResult): Result<Payload, Error>
  {
    match outcome
    case Rejected(t) => Failure(CatchThrown(t))
    case Responded(r) =>
      if !Ok(r.status) then Failure(Classify(r, parse))
      else if Contains(ContentType(r), "text/plain") then Success(Text(r.body))
      else match parse(r.body)
        case Parsed(v) => Success(Data(v))
        case SyntaxError(m) => Failure(CatchThrown(JsSyntaxError(m)))
  }

  /** A 2xx `text/plain` response yields its body unchanged, and a failed status is never a success. */
  lemma CompleteDispatch(outcome: Outcome, parse: string -> ParseResult)
    ensures outcome.Responded? && Ok(outcome.response.status) && Contains(ContentType(outcome.response), "text/plain") ==>
      Complete(outcome, parse) == Success(Text(outcome.response.body))
    ensures outcome.Responded? && !Ok(outcome.response.status) ==>
      Complete(outcome, parse) == Failure(Classify(outcome.response, parse))
    ensures Complete(outcome, parse).Success? ==> outcome.Responded? && Ok(outcome.response.status)
  {
  }

  /** The corrected handling only ever fails with an `McpError`. */
  lemma CompleteFailsWithMcpError(outcome: Outcome, parse: string -> ParseResult)
    ensures Complete(outcome, parse).Failure? ==> IsMcpError(Complete(outcome, parse).error)
  {
  }

  /** Both versions agree on every outcome except a 2xx JSON body that does not parse. */
  lemma CompleteAgreesExceptParseFailure(outcome: Outcome, parse: string -> ParseResult)
    ensures CompleteAsWritten(outcome, parse) != Complete(outcome, parse) <==>
      outcome.Responded? && Ok(outcome.response.status) &&
      !Contains(ContentType(outcome.response), "text/plain") && parse(outcome.response.body).SyntaxError?
  {
  }

  /** An empty `204 No Content` reply (a deleted issue) makes the as-written version throw an unclassified error. */
  lemma EmptyNoContentEscapes(parse: string -> ParseResult)
    requires parse("") == SyntaxError("Unexpected end of JSON input")
    ensures var outcome := Responded(Response(204, "No Content", None, ""));
      && CompleteAsWritten(outcome, parse) == Failure(RawSyntaxError("Unexpected end of JSON input"))
      && !IsMcpError(CompleteAsWritten(outcome, parse).error)
      && Complete(outcome, parse) == Failure(ApiError("Network or parsing error: " + "Unexpected end of JSON input", 500, None))
  {
    var r := Response(204, "No Content", None, "");
    assert ContentType(r) == "";
    assert !Contains("", "text/plain");
  }

  /**
   * `fetchAtlassian` as written: prepare the request, then turn the outcome of sending it
   * into a result. Besides the typed errors it can reject with the raw `SyntaxError` of a
   * 2xx JSON body that does not parse, and with nothing else.
   */
  function Fetch(creds: Credentials, path: string, options: RequestOptions, outcome: Outcome, parse: string -> ParseResult): (r: Result<Payload, Error>)
    ensures r.Failure? ==> IsMcpError(r.error) || r.error.RawSyntaxError?
    ensures (r.Failure? && r.error.RawSyntaxError?) <==>
      PrepareRequest(creds, path, options).Success? && outcome.Responded? && Ok(outcome.response.status) &&
      !Contains(ContentType(outcome.response), "text/plain") && parse(outcome.response.body).SyntaxError?
    ensures PrepareRequest(creds, path, options).Failure? ==> r == Failure(PrepareRequest(creds, path, options).error)
  {
    match PrepareRequest(creds, path, options)
    case Failure(e) => Failure(e)
    case Success(_) => CompleteAsWritten(outcome, parse)
  }

  /** `fetchAtlassian` with the parse awaited inside the `try`: it fails only with typed errors, and differs from the as-written version only where that one escapes. */
  function FetchCorrected(creds: Credentials, path: string, options: RequestOptions, outcome: Outcome, parse: string -> ParseResult): (r: Result<Payload, Error>)
    ensures r.Failure? ==> IsMcpError(r.error)
    ensures PrepareRequest(creds, path, options).Failure? ==> r == Failure(PrepareRequest(creds, path, options).error)
    ensures r != Fetch(creds, path, options, outcome, parse) <==>
      Fetch(creds, path, options, outcome, parse).Failure? && Fetch(creds, path, options, outcome, parse).error.RawSyntaxError?
    ensures Fetch(creds, path, options, outcome, parse).Failure? && Fetch(creds, path, options, outcome, parse).error.RawSyntaxError? ==>
      r == Failure(ApiError("Network or parsing error: " + Fetch(creds, path, options, outcome, parse).error.message, 500, None))
  {
    match PrepareRequest(creds, path, options)
    case Failure(e) => Failure(e)
    case Success(_) =>
      CompleteFailsWithMcpError(outcome, parse);
      CompleteAgreesExceptParseFailure(outcome, parse);
      Complete(outcome, parse)
  }
}
