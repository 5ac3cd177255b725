/**
 * The authenticated request dispatcher of `GoogleReaderApi` (src/index.ts) as
 * pure functions over the session's two tokens and a scripted list of server
 * replies: `Dispatch` is `makeApiRequest`, with `Exchange` its part from the
 * `fetch` on, and `ClientLogin` / `GetPostToken` the two token fetches. Each
 * returns its outcome, the tokens afterwards, the replies not yet consumed and
 * the requests it sent, in order.
 *
 * Termination does not come from the depth counter alone: the auth refresh calls
 * `clientLogin()` with depth 0. It comes from the finite script, lexicographically
 * before the depth: every token fetch made before the request adds 2 to the
 * depth, and every recursion after a reply has consumed that reply.
 */
module Dispatcher {
  import opened Wrappers
  import opened Text
  import opened Fetch
  import opened Replies

  const LoginPath := "/accounts/ClientLogin"
  const TokenPath := "/token"
  const FormType := "application/x-www-form-urlencoded"
  /** The constructor's arguments: fixed for the object's lifetime. */
  datatype Account = Account(email: string, password: string, baseUrl: string)

  function ApiBase(a: Account): string {
    a.baseUrl + "/reader/api/0"
  }

  /** The session's `authToken` and `postToken`; `None` until first assigned. */
  datatype Tokens = Tokens(auth: Option<string>, post: Option<string>)

  /** The outcome of one call, the tokens after it, the replies it left and the requests it sent. */
  datatype Run<T> = Run(res: Result<T, Error>, tokens: Tokens, rest: seq<Reply>, sent: seq<Request>)

  /** The depth budget: calls entered with depth above 3 stop at once. */
  function Fuel(depth: nat): nat {
    if depth > 3 then 0 else 4 - depth
  }

  function MethodOf(cfg: AjaxConfig): string {
    cfg.httpMethod.GetOr("GET")
  }

  /** The configuration `clientLogin` dispatches. */
  function LoginConfig(a: Account): AjaxConfig {
    AjaxConfig(LoginPath, [], Form([("Email", a.email), ("Passwd", a.password)]), Some("POST"),
               map["Content-Type" := FormType], Some(a.baseUrl))
  }

  /** The configuration `getPostToken` dispatches. */
  function TokenConfig(): AjaxConfig {
    AjaxConfig(TokenPath, [], EmptyObject, Some("GET"), map[], None)
  }

  /**
   * The dispatcher's URL: `baseURL + url` (the API root when no base is given),
   * whose own query is replaced wholesale by the explicit `query`.
   */
  function DispatchUrl(a: Account, cfg: AjaxConfig): Url {
    var base := if cfg.baseURL.Some? then cfg.baseURL.value else ApiBase(a);
    Url(AddressOf(Locate(Some(base), cfg.url)), cfg.query)
  }

  /**
   * The request sent for `cfg`, given the auth token written into its
   * `Authorization` header (`None` for the login request, which gets none).
   */
  function Shape(a: Account, cfg: AjaxConfig, auth: Option<string>): Request {
    var verb := MethodOf(cfg);
    var given := if auth.Some? then cfg.headers["Authorization" := "GoogleLogin auth=" + auth.value] else cfg.headers;
    var headers := map["Content-Type" := FormType] + given;
    var body :=
      if verb == "GET" || verb == "HEAD" then NoBody
      else if headers["Content-Type"] == JsonType then JsonText(cfg.data)
      else Raw(cfg.data);
    Request(verb, DispatchUrl(a, cfg), headers, body)
  }

  /** The chained content-type tests of `makeApiRequest`'s response reader. */
  function DispatchDecoder(contentType: Option<string>): (d: Decoder)
    ensures d != AsBlob
    ensures contentType.None? ==> d == AsText
  {
    if contentType.Some? && StartsWith(contentType.value, "application/json") then AsJson
    else if contentType.Some? && (StartsWith(contentType.value, "text/") || StartsWith(contentType.value, "application/xml")) then AsText
    else if contentType.Some? && StartsWith(contentType.value, "multipart/form-data") then AsFormData
    else if contentType.Some? && StartsWith(contentType.value, "application/octet-stream") then AsArrayBuffer
    else AsText
  }

  /** The dispatcher's decoding order, as a table; anything unmatched is read as text. */
  const DispatchTable: seq<(string, Decoder)> := [
    ("application/json", AsJson),
    ("text/", AsText),
    ("application/xml", AsText),
    ("multipart/form-data", AsFormData),
    ("application/octet-stream", AsArrayBuffer)]

  lemma DispatchDecoderIsTable(contentType: Option<string>)
    ensures DispatchDecoder(contentType) == FirstMatch(DispatchTable, contentType, AsText)
  {
    var t1, t2, t3, t4 := DispatchTable[1..], DispatchTable[2..], DispatchTable[3..], DispatchTable[4..];
    assert t1 == [("text/", AsText), ("application/xml", AsText), ("multipart/form-data", AsFormData), ("application/octet-stream", AsArrayBuffer)];
    assert t2 == t1[1..] == [("application/xml", AsText), ("multipart/form-data", AsFormData), ("application/octet-stream", AsArrayBuffer)];
    assert t3 == t2[1..] == [("multipart/form-data", AsFormData), ("application/octet-stream", AsArrayBuffer)];
    assert t4 == t3[1..] == [("application/octet-stream", AsArrayBuffer)];
    assert t4[1..] == [];
    var m := (p: string) => contentType.Some? && StartsWith(contentType.value, p);
    assert FirstMatch(t4, contentType, AsText) == if m("application/octet-stream") then AsArrayBuffer else AsText;
    assert FirstMatch(t3, contentType, AsText) == if m("multipart/form-data") then AsFormData else FirstMatch(t4, contentType, AsText);
    assert FirstMatch(t2, contentType, AsText) == if m("application/xml") then AsText else FirstMatch(t3, contentType, AsText);
    assert FirstMatch(t1, contentType, AsText) == if m("text/") then AsText else FirstMatch(t2, contentType, AsText);
  }

  /** `makeApiRequest(cfg, depth)`: the depth guard, the token pre-fetch, then the exchange. */
  function Dispatch(a: Account, tk: Tokens, cfg: AjaxConfig, depth: nat, script: seq<Reply>): (run: Run<Decoded>)
    ensures |run.rest| <= |script|
    decreases |script|, Fuel(depth), 1
  {
    if depth > 3 then Run(Err(DepthExceeded), tk, script, [])
    else
      var pre := Acquire(a, tk, cfg, depth, script);
      match pre.res
      case Err(e) => Run(Err(e), pre.tokens, pre.rest, pre.sent)
      case Ok(auth) =>
        var x := Exchange(a, pre.tokens, cfg, depth, auth, pre.rest);
        Run(x.res, x.tokens, x.rest, pre.sent + x.sent)
  }

  /**
   * The tokens a request needs before it is sent. The login request needs none and
   * is sent without `Authorization` (`None`). Any other request logs in when the
   * auth token is missing or empty, and then is sent with that token. A POST also
   * fetches the post token when it is missing or empty.
   */
  function Acquire(a: Account, tk: Tokens, cfg: AjaxConfig, depth: nat, script: seq<Reply>): (run: Run<Option<string>>)
    requires depth <= 3
    ensures |run.rest| <= |script|
    decreases |script|, Fuel(depth), 0
  {
    if cfg.url == LoginPath then Run(Ok(None), tk, script, [])
    else
      var login := if Truthy(tk.auth) then Run(Ok(tk.auth.value), tk, script, []) else ClientLogin(a, tk, depth + 1, script);
      match login.res
      case Err(e) => Run(Err(e), login.tokens, login.rest, login.sent)
      case Ok(auth) =>
        var tk1 := login.tokens.(auth := Some(auth));
        if MethodOf(cfg) == "POST" && !Truthy(tk1.post) then
          var post := GetPostToken(a, tk1, depth + 1, login.rest);
          match post.res
          case Err(e) => Run(Err(e), post.tokens, post.rest, login.sent + post.sent)
          case Ok(p) => Run(Ok(Some(auth)), post.tokens.(post := Some(p)), post.rest, login.sent + post.sent)
        else Run(Ok(Some(auth)), tk1, login.rest, login.sent)
  }

  /** The rest of `makeApiRequest`, from the `fetch` of the shaped request on. */
  function Exchange(a: Account, tk: Tokens, cfg: AjaxConfig, depth: nat, auth: Option<string>, script: seq<Reply>): (run: Run<Decoded>)
    ensures |run.rest| <= |script|
    decreases |script|, 0, 0
  {
    var req := Shape(a, cfg, auth);
    var reply := NextReply(script);
    var rest := Remaining(script);
    if reply.NoAnswer? then Run(Err(Timeout), tk, rest, [req])
    else if IsOk(reply.status) then Run(Ok(Decoded(DispatchDecoder(reply.contentType), reply.body)), tk, rest, [req])
    else if reply.status != 401 then Run(Err(HttpError(reply.status, reply.statusText)), tk, rest, [req])
    else
      var x := Recover(a, tk, cfg, depth, reply.badToken == Some("true"), rest);
      Run(x.res, x.tokens, x.rest, [req] + x.sent)
  }

  /**
   * After a 401: renew the post token when the server flagged it as bad, the auth
   * token otherwise (through a login at depth 0), and re-issue the same
   * configuration one level deeper; an empty renewed token is an error.
   */
  function Recover(a: Account, tk: Tokens, cfg: AjaxConfig, depth: nat, badToken: bool, script: seq<Reply>): (run: Run<Decoded>)
    ensures |run.rest| <= |script|
    decreases |script|, 5, 0
  {
    var renew := if badToken then GetPostToken(a, tk, depth + 1, script) else ClientLogin(a, tk, 0, script);
    match renew.res
    case Err(e) => Run(Err(e), renew.tokens, renew.rest, renew.sent)
    case Ok(t) =>
      var tk1 := if badToken then renew.tokens.(post := Some(t)) else renew.tokens.(auth := Some(t));
      if t == "" then Run(Err(if badToken then RenewPostFailed else RenewAuthFailed), tk1, renew.rest, renew.sent)
      else
        var again := Dispatch(a, tk1, cfg, depth + 1, renew.rest);
        Run(again.res, again.tokens, again.rest, renew.sent + again.sent)
  }

  /** `clientLogin(depth)`: the login request at `depth + 1`, then the `Auth=` line of its reply. */
  function ClientLogin(a: Account, tk: Tokens, depth: nat, script: seq<Reply>): (run: Run<string>)
    ensures |run.rest| <= |script|
    decreases |script|, Fuel(depth + 1), 2
  {
    var x := Dispatch(a, tk, LoginConfig(a), depth + 1, script);
    match x.res
    case Err(e) => Run(Err(e), x.tokens, x.rest, x.sent)
    case Ok(d) =>
      match AuthTokenOf(d.raw)
      case None => Run(Err(AuthTokenNotFound), x.tokens, x.rest, x.sent)
      case Some(t) => Run(Ok(t), x.tokens, x.rest, x.sent)
  }

  /** `getPostToken(depth)`: the token request at `depth + 1`; the value its reply resolves to is the token. */
  function GetPostToken(a: Account, tk: Tokens, depth: nat, script: seq<Reply>): (run: Run<string>)
    ensures |run.rest| <= |script|
    decreases |script|, Fuel(depth + 1), 2
  {
    var x := Dispatch(a, tk, TokenConfig(), depth + 1, script);
    match x.res
    case Err(e) => Run(Err(e), x.tokens, x.rest, x.sent)
    case Ok(d) => Run(Ok(PostTokenOf(d)), x.tokens, x.rest, x.sent)
  }
}
