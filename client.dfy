/**
 * `GoogleReaderApi` itself: the session object whose `authToken` and `postToken`
 * fields the dispatcher updates in place, against a scripted `Network`. Every
 * method is proved to reach exactly the outcome the pure model in `Dispatcher`
 * predicts: the same result, the same tokens afterwards, the same replies left
 * and the same requests sent.
 */
module Client {
  import opened Wrappers
  import opened Text
  import opened Fetch
  import opened Replies
  import opened Forms
  import opened Dispatcher

  /** A call ended as `run` predicts: its result, the session after it, the replies left and the requests it logged. */
  predicate Reached<T(==)>(run: Run<T>, r: Result<T, Error>, tk: Tokens, rest: seq<Reply>, log: seq<Request>, log0: seq<Request>) {
    r == run.res && tk == run.tokens && rest == run.rest && log == log0 + run.sent
  }

  /**
   * An endpoint method: its configuration is built from the session's post token
   * as it stands when the method is called, then dispatched at depth 0.
   */
  function CallRun(a: Account, tk: Tokens, ep: Endpoint, script: seq<Reply>): Run<Decoded> {
    Dispatch(a, tk, EndpointConfig(ep, tk.post), 0, script)
  }

  /** A log extended by `first`, then by `second`, is extended by both at once. */
  lemma AppendTwice<T>(log0: seq<T>, first: seq<T>, second: seq<T>, log: seq<T>)
    requires log == (log0 + first) + second
    ensures log == log0 + (first + second)
  {
    assert |log| == |log0 + (first + second)|;
    forall i | 0 <= i < |log|
      ensures log[i] == (log0 + (first + second))[i]
    {
      if i >= |log0| + |first| {
        assert log[i] == second[i - |log0| - |first|];
      }
    }
  }

  class GoogleReaderApi {
    const email: string
    const password: string
    const baseUrl: string
    const apiBaseUrl: string
    var authToken: Option<string>
    var postToken: Option<string>

    function Credentials(): Account {
      Account(email, password, baseUrl)
    }

    function Session(): Tokens
      reads this
    {
      Tokens(authToken, postToken)
    }

    /** `apiBaseUrl` is derived from `baseUrl` once, in the constructor. */
    predicate Valid() {
      apiBaseUrl == ApiBase(Credentials())
    }

    constructor(baseUrl: string, email: string, password: string)
      ensures Valid()
      ensures this.baseUrl == baseUrl && this.email == email && this.password == password
      ensures authToken == None && postToken == None
    {
      this.baseUrl := baseUrl;
      this.apiBaseUrl := baseUrl + "/reader/api/0";
      this.email := email;
      this.password := password;
      authToken := None;
      postToken := None;
    }

    /**
     * `makeApiRequest(config, depth)`: acquire the missing tokens (except for the
     * login request), shape and send the request, then decode the reply, or
     * refresh one token and re-issue the same configuration after a 401.
     */
    method MakeApiRequest(net: Network, cfg: AjaxConfig, depth: nat) returns (r: Result<Decoded, Error>)
      requires Valid()
      modifies this, net
      ensures Reached(Dispatch(Credentials(), old(Session()), cfg, depth, old(net.replies)), r, Session(), net.replies, net.log, old(net.log))
      decreases |net.replies|, Fuel(depth), 1
    {
      if depth > 3 {
        return Err(DepthExceeded);
      }
      var auth := Acquire(net, cfg, depth);
      if auth.Err? {
        return Err(auth.error);
      }
      ghost var pre := Dispatcher.Acquire(Credentials(), old(Session()), cfg, depth, old(net.replies));
      ghost var tk1 := Session();
      r := Send(net, cfg, depth, auth.value);
      AppendTwice(old(net.log), pre.sent, Exchange(Credentials(), tk1, cfg, depth, auth.value, pre.rest).sent, net.log);
    }

    /** The token pre-fetch of `makeApiRequest`: the auth token to send with, or `None` for the login request. */
    method Acquire(net: Network, cfg: AjaxConfig, depth: nat) returns (r: Result<Option<string>, Error>)
      requires Valid() && depth <= 3
      modifies this, net
      ensures Reached(Dispatcher.Acquire(Credentials(), old(Session()), cfg, depth, old(net.replies)), r, Session(), net.replies, net.log, old(net.log))
      decreases |net.replies|, Fuel(depth), 0
    {
      if cfg.url == LoginPath {
        return Ok(None);
      }
      ghost var a, tk0, script := Credentials(), Session(), net.replies;
      ghost var login := Run(Ok(authToken.GetOr("")), tk0, script, []);
      if !Truthy(authToken) {
        var t := ClientLogin(net, depth + 1);
        login := Dispatcher.ClientLogin(a, tk0, depth + 1, script);
        if t.Err? {
          return Err(t.error);
        }
        authToken := Some(t.value);
      }
      ghost var tk1, log1 := Session(), net.log;
      assert login.res == Ok(authToken.value) && tk1 == login.tokens.(auth := authToken);
      assert net.replies == login.rest && log1 == old(net.log) + login.sent;
      var auth := authToken;
      if MethodOf(cfg) == "POST" && !Truthy(postToken) {
        var p := GetPostToken(net, depth + 1);
        ghost var post := Dispatcher.GetPostToken(a, tk1, depth + 1, login.rest);
        AppendTwice(old(net.log), login.sent, post.sent, net.log);
        if p.Err? {
          return Err(p.error);
        }
        postToken := Some(p.value);
      }
      r := Ok(auth);
    }

    /**
     * The rest of `makeApiRequest` once the tokens are settled: the headers and
     * body, the `fetch`, and what follows from its reply.
     */
    method Send(net: Network, cfg: AjaxConfig, depth: nat, auth: Option<string>) returns (r: Result<Decoded, Error>)
      requires Valid()
      modifies this, net
      ensures Reached(Exchange(Credentials(), old(Session()), cfg, depth, auth, old(net.replies)), r, Session(), net.replies, net.log, old(net.log))
      decreases |net.replies|, 0, 0
    {
      ghost var a, tk0, script, log0 := Credentials(), Session(), net.replies, net.log;
      var verb := cfg.httpMethod.GetOr("GET");
      var url := Url(AddressOf(Locate(Some(cfg.baseURL.GetOr(apiBaseUrl)), cfg.url)), cfg.query);
      var headers := cfg.headers;
      if auth.Some? {
        headers := headers["Authorization" := "GoogleLogin auth=" + auth.value];
      }
      headers := map["Content-Type" := FormType] + headers;
      var body := Raw(cfg.data);
      if verb == "GET" || verb == "HEAD" {
        body := NoBody;
      } else if headers["Content-Type"] == JsonType {
        body := JsonText(cfg.data);
      }
      var request := Request(verb, url, headers, body);
      assert request == Shape(a, cfg, auth);
      var reply := net.Fetch(request);
      ghost var rest := net.replies;
      if reply.NoAnswer? {
        return Err(Timeout);
      }
      assert |rest| < |script|;
      if IsOk(reply.status) {
        r := Ok(Decoded(DispatchDecoder(reply.contentType), reply.body));
      } else if reply.status != 401 {
        r := Err(HttpError(reply.status, reply.statusText));
      } else {
        r := Recover(net, cfg, depth, reply.badToken == Some("true"));
        AppendTwice(log0, [request], Dispatcher.Recover(a, tk0, cfg, depth, reply.badToken == Some("true"), rest).sent, net.log);
      }
    }

    /** The 401 branch of `makeApiRequest`: renew the flagged token, then re-issue the configuration. */
    method Recover(net: Network, cfg: AjaxConfig, depth: nat, badToken: bool) returns (r: Result<Decoded, Error>)
      requires Valid()
      modifies this, net
      ensures Reached(Dispatcher.Recover(Credentials(), old(Session()), cfg, depth, badToken, old(net.replies)), r, Session(), net.replies, net.log, old(net.log))
      decreases |net.replies|, 5, 0
    {
      ghost var a, tk0, script := Credentials(), Session(), net.replies;
      ghost var renew := if badToken then Dispatcher.GetPostToken(a, tk0, depth + 1, script) else Dispatcher.ClientLogin(a, tk0, 0, script);
      if badToken {
        var p := GetPostToken(net, depth + 1);
        if p.Err? {
          return Err(p.error);
        }
        postToken := Some(p.value);
        if p.value == "" {
          return Err(RenewPostFailed);
        }
      } else {
        var t := ClientLogin(net, 0);
        if t.Err? {
          return Err(t.error);
        }
        authToken := Some(t.value);
        if t.value == "" {
          return Err(RenewAuthFailed);
        }
      }
      ghost var tk1, log1 := Session(), net.log;
      assert net.replies == renew.rest && log1 == old(net.log) + renew.sent;
      r := MakeApiRequest(net, cfg, depth + 1);
      AppendTwice(old(net.log), renew.sent, Dispatch(a, tk1, cfg, depth + 1, renew.rest).sent, net.log);
    }

    /** `clientLogin(depth)`: post the credentials, then take the token from the reply's `Auth=` line. */
    method ClientLogin(net: Network, depth: nat) returns (r: Result<string, Error>)
      requires Valid()
      modifies this, net
      ensures Reached(Dispatcher.ClientLogin(Credentials(), old(Session()), depth, old(net.replies)), r, Session(), net.replies, net.log, old(net.log))
      decreases |net.replies|, Fuel(depth + 1), 2
    {
      var response := MakeApiRequest(net, LoginConfig(Credentials()), depth + 1);
      if response.Err? {
        return Err(response.error);
      }
      var token := AuthTokenOf(response.value.raw);
      if token.None? {
        return Err(AuthTokenNotFound);
      }
      r := Ok(token.value);
    }

    /** `getPostToken(depth)`: the value the `/token` reply resolves to. */
    method GetPostToken(net: Network, depth: nat) returns (r: Result<string, Error>)
      requires Valid()
      modifies this, net
      ensures Reached(Dispatcher.GetPostToken(Credentials(), old(Session()), depth, old(net.replies)), r, Session(), net.replies, net.log, old(net.log))
      decreases |net.replies|, Fuel(depth + 1), 2
    {
      var response := MakeApiRequest(net, TokenConfig(), depth + 1);
      if response.Err? {
        return Err(response.error);
      }
      r := Ok(PostTokenOf(response.value));
    }

    /**
     * Any endpoint method, up to the value `makeApiRequest` resolves to: the
     * configuration built from the current post token, dispatched at depth 0.
     * The `JSON.parse` of getUserInfo and getStreamItemIds and the field picked by
     * getSubscriptionList and getTagList come after this and are not modelled.
     */
    method Call(net: Network, ep: Endpoint) returns (r: Result<Decoded, Error>)
      requires Valid()
      modifies this, net
      ensures Reached(CallRun(Credentials(), old(Session()), ep, old(net.replies)), r, Session(), net.replies, net.log, old(net.log))
    {
      r := MakeApiRequest(net, EndpointConfig(ep, postToken), 0);
    }

    /** `checkSubscription(streamId)`: whether the reply is the text `true`. */
    method CheckSubscription(net: Network, streamId: string) returns (r: Result<bool, Error>)
      requires Valid()
      modifies this, net
      ensures var run := CallRun(Credentials(), old(Session()), Endpoint.CheckSubscription(streamId), old(net.replies));
        && Session() == run.tokens && net.replies == run.rest && net.log == old(net.log) + run.sent
        && r == if run.res.Ok? then Ok(IsSubscribed(run.res.value)) else Err(run.res.error)
    {
      var response := MakeApiRequest(net, EndpointConfig(Endpoint.CheckSubscription(streamId), postToken), 0);
      if response.Err? {
        return Err(response.error);
      }
      r := Ok(IsSubscribed(response.value));
    }

    /** `getStreamItemCount(data)`: the reply split into a count and an optional date, when it is a string. */
    method GetStreamItemCount(net: Network, data: StreamItemCountData) returns (r: Result<ItemCount, Error>)
      requires Valid()
      modifies this, net
      ensures var run := CallRun(Credentials(), old(Session()), Endpoint.GetStreamItemCount(data), old(net.replies));
        && Session() == run.tokens && net.replies == run.rest && net.log == old(net.log) + run.sent
        && r == if run.res.Ok? then ItemCountOf(run.res.value) else Err(run.res.error)
    {
      var response := MakeApiRequest(net, EndpointConfig(Endpoint.GetStreamItemCount(data), postToken), 0);
      if response.Err? {
        return Err(response.error);
      }
      r := ItemCountOf(response.value);
    }
  }
}
