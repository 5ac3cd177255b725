/**
 * The token session of `GoogleReaderApi` as a state machine: which requests
 * the dispatcher sends for a script of replies, and how `authToken` and
 * `postToken` move. Each lemma is about the pure model in `Dispatcher`; the
 * class methods in `Client` are proved to follow it.
 */
module SessionFacts {
  import opened Wrappers
  import opened Text
  import opened Fetch
  import opened Replies
  import opened Forms
  import opened Dispatcher
  import opened Client

  /** A 401, flagged as a bad post token (`x-reader-google-bad-token: true`) or not. */
  predicate Denied(r: Reply, flagged: bool) {
    r.Answer? && r.status == 401 && (r.badToken == Some("true")) == flagged
  }

  predicate Served(r: Reply) {
    r.Answer? && IsOk(r.status)
  }

  function Decode(r: Reply): Decoded
    requires r.Answer?
  {
    Decoded(DispatchDecoder(r.contentType), r.body)
  }

  /** Nothing needs fetching before `cfg` is sent: it is not the login request and its tokens are there. */
  predicate Ready(tk: Tokens, cfg: AjaxConfig) {
    cfg.url != LoginPath && Truthy(tk.auth) && (MethodOf(cfg) == "POST" ==> Truthy(tk.post))
  }

  // ------------------------------------------------------------ single steps

  /** The depth guard: past depth 3 nothing is sent and neither token moves. */
  lemma DepthGuard(a: Account, tk: Tokens, cfg: AjaxConfig, depth: nat, script: seq<Reply>)
    requires depth > 3
    ensures Dispatch(a, tk, cfg, depth, script) == Run(Err(DepthExceeded), tk, script, [])
  {
  }

  /**
   * The login request fetches no token: it is sent first, as shaped without
   * `Authorization`, and a successful reply leaves both tokens as they were.
   */
  lemma LoginNeedsNoToken(a: Account, tk: Tokens, cfg: AjaxConfig, depth: nat, script: seq<Reply>)
    requires cfg.url == LoginPath && depth <= 3
    ensures var run := Dispatch(a, tk, cfg, depth, script);
      && |run.sent| >= 1 && run.sent[0] == Shape(a, cfg, None)
      && ("Authorization" in run.sent[0].headers <==> "Authorization" in cfg.headers)
      && (Served(NextReply(script)) ==> run == Run(Ok(Decode(script[0])), tk, script[1..], [Shape(a, cfg, None)]))
  {
  }

  /**
   * A request with its tokens in place is sent first, with
   * `Authorization: GoogleLogin auth=<token>`. A reply other than a 401 ends the
   * call: decoded when ok, an HTTP error otherwise, with no retry and no token change.
   */
  lemma ReadyGoesFirst(a: Account, tk: Tokens, cfg: AjaxConfig, depth: nat, script: seq<Reply>)
    requires Ready(tk, cfg) && depth <= 3
    ensures var run := Dispatch(a, tk, cfg, depth, script);
      && |run.sent| >= 1 && run.sent[0] == Shape(a, cfg, tk.auth)
      && run.sent[0].headers["Authorization"] == "GoogleLogin auth=" + tk.auth.value
      && (NextReply(script).Answer? && NextReply(script).status != 401 ==>
            run == Run(if IsOk(script[0].status) then Ok(Decode(script[0])) else Err(HttpError(script[0].status, script[0].statusText)),
                       tk, script[1..], [Shape(a, cfg, tk.auth)]))
  {
    assert tk.(auth := Some(tk.auth.value)) == tk;
  }

  /** Without an auth token, a request at depth 0 or 1 logs in first. */
  lemma MissingAuthLogsInFirst(a: Account, tk: Tokens, cfg: AjaxConfig, depth: nat, script: seq<Reply>)
    requires cfg.url != LoginPath && !Truthy(tk.auth) && depth <= 1
    ensures var run := Dispatch(a, tk, cfg, depth, script);
      |run.sent| >= 1 && run.sent[0] == Shape(a, LoginConfig(a), None)
  {
    LoginNeedsNoToken(a, tk, LoginConfig(a), depth + 1 + 1, script);
    var x := Dispatch(a, tk, LoginConfig(a), depth + 1 + 1, script);
    var login := Dispatcher.ClientLogin(a, tk, depth + 1, script);
    assert login.sent == x.sent;
    var pre := Acquire(a, tk, cfg, depth, script);
    assert |pre.sent| >= 1 && pre.sent[0] == login.sent[0];
  }

  /** Deeper down there is no room for the login: without an auth token, nothing is sent. */
  lemma NoRoomToLogIn(a: Account, tk: Tokens, cfg: AjaxConfig, depth: nat, script: seq<Reply>)
    requires cfg.url != LoginPath && !Truthy(tk.auth) && 2 <= depth <= 3
    ensures Dispatch(a, tk, cfg, depth, script) == Run(Err(DepthExceeded), tk, script, [])
  {
    assert Dispatcher.ClientLogin(a, tk, depth + 1, script) == Run(Err(DepthExceeded), tk, script, []);
  }

  /** A POST without a post token, its auth token in place, fetches the post token first. */
  lemma MissingPostTokenFetchedFirst(a: Account, tk: Tokens, cfg: AjaxConfig, depth: nat, script: seq<Reply>)
    requires cfg.url != LoginPath && Truthy(tk.auth) && MethodOf(cfg) == "POST" && !Truthy(tk.post) && depth <= 1
    ensures var run := Dispatch(a, tk, cfg, depth, script);
      |run.sent| >= 1 && run.sent[0] == Shape(a, TokenConfig(), tk.auth)
  {
    ReadyGoesFirst(a, tk, TokenConfig(), depth + 1 + 1, script);
    assert tk.(auth := Some(tk.auth.value)) == tk;
    var x := Dispatch(a, tk, TokenConfig(), depth + 1 + 1, script);
    var post := Dispatcher.GetPostToken(a, tk, depth + 1, script);
    assert post.sent == x.sent;
    var pre := Acquire(a, tk, cfg, depth, script);
    assert |pre.sent| >= 1 && pre.sent[0] == post.sent[0];
  }

  /** Deeper down there is no room for the token fetch: a POST without a post token sends nothing. */
  lemma NoRoomForPostToken(a: Account, tk: Tokens, cfg: AjaxConfig, depth: nat, script: seq<Reply>)
    requires cfg.url != LoginPath && Truthy(tk.auth) && MethodOf(cfg) == "POST" && !Truthy(tk.post) && 2 <= depth <= 3
    ensures Dispatch(a, tk, cfg, depth, script) == Run(Err(DepthExceeded), tk, script, [])
  {
    assert tk.(auth := Some(tk.auth.value)) == tk;
    assert Dispatcher.GetPostToken(a, tk, depth + 1, script) == Run(Err(DepthExceeded), tk, script, []);
  }

  // ------------------------------------------- a 401 renews one token only

  predicate NoFlaggedDenial(script: seq<Reply>) {
    forall i :: 0 <= i < |script| ==> !Denied(script[i], true)
  }

  /** The dispatcher will not fetch a post token for `cfg` itself. */
  predicate NeedsNoPostToken(tk: Tokens, cfg: AjaxConfig) {
    cfg.url == LoginPath || MethodOf(cfg) != "POST" || Truthy(tk.post)
  }

  /**
   * Unless the server flags a bad post token, the post token is left exactly as
   * it was by any call that needs none of its own; in particular a GET never
   * touches it, whatever logins and retries it goes through.
   */
  lemma {:induction false} PostTokenKept(a: Account, tk: Tokens, cfg: AjaxConfig, depth: nat, script: seq<Reply>)
    requires NeedsNoPostToken(tk, cfg) && NoFlaggedDenial(script)
    ensures var run := Dispatch(a, tk, cfg, depth, script);
      run.tokens.post == tk.post && NoFlaggedDenial(run.rest)
    decreases |script|, Fuel(depth), 1
  {
    if depth <= 3 {
      PostTokenKeptAcquire(a, tk, cfg, depth, script);
      var pre := Acquire(a, tk, cfg, depth, script);
      if pre.res.Ok? {
        PostTokenKeptExchange(a, pre.tokens, cfg, depth, pre.res.value, pre.rest);
      }
    }
  }

  lemma {:induction false} PostTokenKeptAcquire(a: Account, tk: Tokens, cfg: AjaxConfig, depth: nat, script: seq<Reply>)
    requires depth <= 3 && NeedsNoPostToken(tk, cfg) && NoFlaggedDenial(script)
    ensures var run := Acquire(a, tk, cfg, depth, script);
      run.tokens.post == tk.post && NoFlaggedDenial(run.rest)
    decreases |script|, Fuel(depth), 0
  {
    if cfg.url != LoginPath && !Truthy(tk.auth) {
      PostTokenKeptLogin(a, tk, depth + 1, script);
    }
  }

  lemma {:induction false} PostTokenKeptExchange(a: Account, tk: Tokens, cfg: AjaxConfig, depth: nat, auth: Option<string>, script: seq<Reply>)
    requires NeedsNoPostToken(tk, cfg) && NoFlaggedDenial(script)
    ensures var run := Exchange(a, tk, cfg, depth, auth, script);
      run.tokens.post == tk.post && NoFlaggedDenial(run.rest)
    decreases |script|, 0, 0
  {
    if script != [] {
      assert !Denied(script[0], true);
      var rest := script[1..];
      assert NoFlaggedDenial(rest) by {
        forall i | 0 <= i < |rest| ensures !Denied(rest[i], true) {
          assert rest[i] == script[i + 1];
        }
      }
      if script[0].Answer? && !IsOk(script[0].status) && script[0].status == 401 {
        PostTokenKeptRecover(a, tk, cfg, depth, rest);
      }
    }
  }

  lemma {:induction false} PostTokenKeptRecover(a: Account, tk: Tokens, cfg: AjaxConfig, depth: nat, script: seq<Reply>)
    requires NeedsNoPostToken(tk, cfg) && NoFlaggedDenial(script)
    ensures var run := Recover(a, tk, cfg, depth, false, script);
      run.tokens.post == tk.post && NoFlaggedDenial(run.rest)
    decreases |script|, 5, 0
  {
    PostTokenKeptLogin(a, tk, 0, script);
    var renew := Dispatcher.ClientLogin(a, tk, 0, script);
    if renew.res.Ok? && renew.res.value != "" {
      PostTokenKept(a, renew.tokens.(auth := Some(renew.res.value)), cfg, depth + 1, renew.rest);
    }
  }

  lemma {:induction false} PostTokenKeptLogin(a: Account, tk: Tokens, depth: nat, script: seq<Reply>)
    requires NoFlaggedDenial(script)
    ensures var run := Dispatcher.ClientLogin(a, tk, depth, script);
      run.tokens.post == tk.post && NoFlaggedDenial(run.rest)
    decreases |script|, Fuel(depth + 1), 2
  {
    PostTokenKept(a, tk, LoginConfig(a), depth + 1, script);
  }

  predicate NoPlainDenial(script: seq<Reply>) {
    forall i :: 0 <= i < |script| ==> !Denied(script[i], false)
  }

  /**
   * Once there is an auth token, it is replaced only after a 401 that is not
   * flagged as a bad post token: post-token renewals, and everything else,
   * leave it exactly as it was.
   */
  lemma {:induction false} AuthTokenKept(a: Account, tk: Tokens, cfg: AjaxConfig, depth: nat, script: seq<Reply>)
    requires Truthy(tk.auth) && NoPlainDenial(script)
    ensures var run := Dispatch(a, tk, cfg, depth, script);
      run.tokens.auth == tk.auth && NoPlainDenial(run.rest)
    decreases |script|, Fuel(depth), 1
  {
    if depth <= 3 {
      AuthTokenKeptAcquire(a, tk, cfg, depth, script);
      var pre := Acquire(a, tk, cfg, depth, script);
      if pre.res.Ok? {
        AuthTokenKeptExchange(a, pre.tokens, cfg, depth, pre.res.value, pre.rest);
      }
    }
  }

  lemma {:induction false} AuthTokenKeptAcquire(a: Account, tk: Tokens, cfg: AjaxConfig, depth: nat, script: seq<Reply>)
    requires depth <= 3 && Truthy(tk.auth) && NoPlainDenial(script)
    ensures var run := Acquire(a, tk, cfg, depth, script);
      run.tokens.auth == tk.auth && NoPlainDenial(run.rest)
    decreases |script|, Fuel(depth), 0
  {
    if cfg.url != LoginPath {
      var tk1 := tk.(auth := Some(tk.auth.value));
      assert tk1 == tk;
      if MethodOf(cfg) == "POST" && !Truthy(tk.post) {
        AuthTokenKeptPostToken(a, tk, depth + 1, script);
      }
    }
  }

  lemma {:induction false} AuthTokenKeptExchange(a: Account, tk: Tokens, cfg: AjaxConfig, depth: nat, auth: Option<string>, script: seq<Reply>)
    requires Truthy(tk.auth) && NoPlainDenial(script)
    ensures var run := Exchange(a, tk, cfg, depth, auth, script);
      run.tokens.auth == tk.auth && NoPlainDenial(run.rest)
    decreases |script|, 0, 0
  {
    if script != [] {
      assert !Denied(script[0], false);
      var rest := script[1..];
      assert NoPlainDenial(rest) by {
        forall i | 0 <= i < |rest| ensures !Denied(rest[i], false) {
          assert rest[i] == script[i + 1];
        }
      }
      if script[0].Answer? && !IsOk(script[0].status) && script[0].status == 401 {
        AuthTokenKeptRecover(a, tk, cfg, depth, rest);
      }
    }
  }

  lemma {:induction false} AuthTokenKeptRecover(a: Account, tk: Tokens, cfg: AjaxConfig, depth: nat, script: seq<Reply>)
    requires Truthy(tk.auth) && NoPlainDenial(script)
    ensures var run := Recover(a, tk, cfg, depth, true, script);
      run.tokens.auth == tk.auth && NoPlainDenial(run.rest)
    decreases |script|, 5, 0
  {
    AuthTokenKeptPostToken(a, tk, depth + 1, script);
    var renew := Dispatcher.GetPostToken(a, tk, depth + 1, script);
    if renew.res.Ok? && renew.res.value != "" {
      AuthTokenKept(a, renew.tokens.(post := Some(renew.res.value)), cfg, depth + 1, renew.rest);
    }
  }

  lemma {:induction false} AuthTokenKeptPostToken(a: Account, tk: Tokens, depth: nat, script: seq<Reply>)
    requires Truthy(tk.auth) && NoPlainDenial(script)
    ensures var run := Dispatcher.GetPostToken(a, tk, depth, script);
      run.tokens.auth == tk.auth && NoPlainDenial(run.rest)
    decreases |script|, Fuel(depth + 1), 2
  {
    AuthTokenKept(a, tk, TokenConfig(), depth + 1, script);
  }

  // --------------------------------------------------------------- scenarios

  /** Nothing to fetch: the pre-fetch passes the auth token through and sends nothing. */
  lemma ReadyAcquire(a: Account, tk: Tokens, cfg: AjaxConfig, depth: nat, script: seq<Reply>)
    requires Ready(tk, cfg) && depth <= 3
    ensures Acquire(a, tk, cfg, depth, script) == Run(Ok(tk.auth), tk, script, [])
  {
    assert tk.(auth := Some(tk.auth.value)) == tk;
  }

  lemma ReadyServed(a: Account, tk: Tokens, cfg: AjaxConfig, depth: nat, r: Reply, rest: seq<Reply>)
    requires Ready(tk, cfg) && depth <= 3 && Served(r)
    ensures Dispatch(a, tk, cfg, depth, [r] + rest) == Run(Ok(Decode(r)), tk, rest, [Shape(a, cfg, tk.auth)])
  {
    ReadyGoesFirst(a, tk, cfg, depth, [r] + rest);
    assert ([r] + rest)[1..] == rest;
  }

  lemma LoginServed(a: Account, tk: Tokens, depth: nat, r: Reply, rest: seq<Reply>)
    requires depth <= 3 && Served(r)
    ensures Dispatch(a, tk, LoginConfig(a), depth, [r] + rest) == Run(Ok(Decode(r)), tk, rest, [Shape(a, LoginConfig(a), None)])
  {
    LoginNeedsNoToken(a, tk, LoginConfig(a), depth, [r] + rest);
    assert ([r] + rest)[1..] == rest;
  }

  /** A login whose reply carries an `Auth=` line yields that token and leaves the session as it was. */
  lemma LoginGranted(a: Account, tk: Tokens, depth: nat, grant: Reply, rest: seq<Reply>, t: string)
    requires depth <= 2 && Served(grant) && AuthTokenOf(grant.body) == Some(t)
    ensures Dispatcher.ClientLogin(a, tk, depth, [grant] + rest) == Run(Ok(t), tk, rest, [Shape(a, LoginConfig(a), None)])
  {
    LoginServed(a, tk, depth + 1, grant, rest);
  }

  /** With its tokens in place, a call is just its exchange. */
  lemma ReadyDispatch(a: Account, tk: Tokens, cfg: AjaxConfig, depth: nat, script: seq<Reply>)
    requires Ready(tk, cfg) && depth <= 3
    ensures Dispatch(a, tk, cfg, depth, script) == Exchange(a, tk, cfg, depth, tk.auth, script)
  {
    ReadyAcquire(a, tk, cfg, depth, script);
    var x := Exchange(a, tk, cfg, depth, tk.auth, script);
    assert [] + x.sent == x.sent;
  }

  /** A 401 hands the call over to the recovery, after the one request that drew it. */
  lemma DeniedExchange(a: Account, tk: Tokens, cfg: AjaxConfig, depth: nat, auth: Option<string>, deny: Reply, rest: seq<Reply>, flagged: bool)
    requires Denied(deny, flagged)
    ensures var x := Recover(a, tk, cfg, depth, flagged, rest);
      Exchange(a, tk, cfg, depth, auth, [deny] + rest) == Run(x.res, x.tokens, x.rest, [Shape(a, cfg, auth)] + x.sent)
  {
    assert ([deny] + rest)[1..] == rest;
  }

  /** A successful auth renewal re-issues the call one level deeper with the new token. */
  lemma AuthRenewed(a: Account, tk: Tokens, cfg: AjaxConfig, depth: nat, grant: Reply, rest: seq<Reply>, t: string)
    requires Served(grant) && AuthTokenOf(grant.body) == Some(t) && t != ""
    ensures var again := Dispatch(a, tk.(auth := Some(t)), cfg, depth + 1, rest);
      Recover(a, tk, cfg, depth, false, [grant] + rest) == Run(again.res, again.tokens, again.rest, [Shape(a, LoginConfig(a), None)] + again.sent)
  {
    LoginGranted(a, tk, 0, grant, rest, t);
  }

  /** A successful post-token renewal re-issues the call one level deeper. */
  lemma PostRenewed(a: Account, tk: Tokens, cfg: AjaxConfig, depth: nat, renewal: Reply, rest: seq<Reply>)
    requires Truthy(tk.auth) && depth <= 1 && Served(renewal) && PostTokenOf(Decode(renewal)) != ""
    ensures var again := Dispatch(a, tk.(post := Some(PostTokenOf(Decode(renewal)))), cfg, depth + 1, rest);
      Recover(a, tk, cfg, depth, true, [renewal] + rest) == Run(again.res, again.tokens, again.rest, [Shape(a, TokenConfig(), tk.auth)] + again.sent)
  {
    ReadyServed(a, tk, TokenConfig(), depth + 1 + 1, renewal, rest);
  }

  /**
   * One round of auth recovery: a 401 not flagged as a bad post token, a login
   * that yields a token, then the same configuration one level deeper with it.
   */
  lemma AuthRefreshStep(a: Account, tk: Tokens, cfg: AjaxConfig, depth: nat, deny: Reply, grant: Reply, rest: seq<Reply>, t: string)
    requires Ready(tk, cfg) && depth <= 3
    requires Denied(deny, false) && Served(grant) && AuthTokenOf(grant.body) == Some(t) && t != ""
    ensures var again := Dispatch(a, tk.(auth := Some(t)), cfg, depth + 1, rest);
      Dispatch(a, tk, cfg, depth, [deny] + ([grant] + rest)) ==
        Run(again.res, again.tokens, again.rest, [Shape(a, cfg, tk.auth)] + ([Shape(a, LoginConfig(a), None)] + again.sent))
  {
    ReadyDispatch(a, tk, cfg, depth, [deny] + ([grant] + rest));
    DeniedExchange(a, tk, cfg, depth, tk.auth, deny, [grant] + rest, false);
    AuthRenewed(a, tk, cfg, depth, grant, rest, t);
  }

  /**
   * One round of post-token recovery: a 401 flagged as a bad post token, a token
   * fetch that yields a token, then the same configuration one level deeper.
   */
  lemma PostRefreshStep(a: Account, tk: Tokens, cfg: AjaxConfig, depth: nat, deny: Reply, renewal: Reply, rest: seq<Reply>)
    requires Ready(tk, cfg) && depth <= 1
    requires Denied(deny, true) && Served(renewal) && PostTokenOf(Decode(renewal)) != ""
    ensures var again := Dispatch(a, tk.(post := Some(PostTokenOf(Decode(renewal)))), cfg, depth + 1, rest);
      Dispatch(a, tk, cfg, depth, [deny] + ([renewal] + rest)) ==
        Run(again.res, again.tokens, again.rest, [Shape(a, cfg, tk.auth)] + ([Shape(a, TokenConfig(), tk.auth)] + again.sent))
  {
    ReadyDispatch(a, tk, cfg, depth, [deny] + ([renewal] + rest));
    DeniedExchange(a, tk, cfg, depth, tk.auth, deny, [renewal] + rest, true);
    PostRenewed(a, tk, cfg, depth, renewal, rest);
  }

  /**
   * A 401 flagged as a bad post token: the post token is fetched again and the
   * identical request is re-issued. Its body still carries the old `T`, since the
   * configuration was built before the renewal.
   */
  lemma StalePostTokenRetry(a: Account, tk: Tokens, cfg: AjaxConfig, depth: nat, deny: Reply, renewal: Reply, done: Reply, tail: seq<Reply>)
    requires Ready(tk, cfg) && depth <= 1
    requires Denied(deny, true) && Served(renewal) && PostTokenOf(Decode(renewal)) != "" && Served(done)
    ensures var req := Shape(a, cfg, tk.auth);
      Dispatch(a, tk, cfg, depth, [deny] + ([renewal] + ([done] + tail))) ==
        Run(Ok(Decode(done)), tk.(post := Some(PostTokenOf(Decode(renewal)))), tail, [req] + ([Shape(a, TokenConfig(), tk.auth)] + [req]))
  {
    PostRefreshStep(a, tk, cfg, depth, deny, renewal, [done] + tail);
    ReadyServed(a, tk.(post := Some(PostTokenOf(Decode(renewal)))), cfg, depth + 1, done, tail);
  }

  /**
   * A 401 not so flagged: the session logs in again (at depth 0) and the request
   * is re-issued with the new auth token; the post token is not touched.
   */
  lemma AuthRefreshRetry(a: Account, tk: Tokens, cfg: AjaxConfig, depth: nat, deny: Reply, grant: Reply, done: Reply, tail: seq<Reply>, t: string)
    requires Ready(tk, cfg) && depth <= 2
    requires Denied(deny, false) && Served(grant) && AuthTokenOf(grant.body) == Some(t) && t != "" && Served(done)
    ensures Dispatch(a, tk, cfg, depth, [deny] + ([grant] + ([done] + tail))) ==
      Run(Ok(Decode(done)), tk.(auth := Some(t)), tail,
          [Shape(a, cfg, tk.auth)] + ([Shape(a, LoginConfig(a), None)] + [Shape(a, cfg, Some(t))]))
  {
    AuthRefreshStep(a, tk, cfg, depth, deny, grant, [done] + tail, t);
    ReadyServed(a, tk.(auth := Some(t)), cfg, depth + 1, done, tail);
  }

  /**
   * A renewal that yields an empty post token fails, but the empty token has
   * been stored already: the session holds `Some("")`, which counts as missing,
   * so the next POST fetches the token again.
   */
  lemma EmptyPostRenewal(a: Account, tk: Tokens, cfg: AjaxConfig, depth: nat, deny: Reply, blank: Reply, tail: seq<Reply>)
    requires Ready(tk, cfg) && depth <= 1
    requires Denied(deny, true) && Served(blank) && PostTokenOf(Decode(blank)) == ""
    ensures var run := Dispatch(a, tk, cfg, depth, [deny] + ([blank] + tail));
      && run == Run(Err(RenewPostFailed), tk.(post := Some("")), tail, [Shape(a, cfg, tk.auth)] + [Shape(a, TokenConfig(), tk.auth)])
      && !Truthy(run.tokens.post)
  {
    var req, reqT := Shape(a, cfg, tk.auth), Shape(a, TokenConfig(), tk.auth);
    ReadyDispatch(a, tk, cfg, depth, [deny] + ([blank] + tail));
    DeniedExchange(a, tk, cfg, depth, tk.auth, deny, [blank] + tail, true);
    ReadyServed(a, tk, TokenConfig(), depth + 1 + 1, blank, tail);
    assert Recover(a, tk, cfg, depth, true, [blank] + tail) == Run(Err(RenewPostFailed), tk.(post := Some("")), tail, [reqT]);
  }

  /** Deeper down a post-token renewal has no room: its `/token` fetch hits the depth guard. */
  lemma PostRenewalTooDeep(a: Account, tk: Tokens, cfg: AjaxConfig, depth: nat, script: seq<Reply>)
    requires 2 <= depth <= 3
    ensures Recover(a, tk, cfg, depth, true, script) == Run(Err(DepthExceeded), tk, script, [])
  {
    DepthGuard(a, tk, TokenConfig(), depth + 1 + 1, script);
  }

  /**
   * At depth 2 or 3 a 401 flagged as a bad post token ends the call after the one
   * request that drew it: nothing is renewed and nothing is re-sent.
   */
  lemma FlaggedDenialTooDeep(a: Account, tk: Tokens, cfg: AjaxConfig, depth: nat, deny: Reply, rest: seq<Reply>)
    requires Ready(tk, cfg) && 2 <= depth <= 3 && Denied(deny, true)
    ensures Dispatch(a, tk, cfg, depth, [deny] + rest) == Run(Err(DepthExceeded), tk, rest, [Shape(a, cfg, tk.auth)])
  {
    ReadyDispatch(a, tk, cfg, depth, [deny] + rest);
    DeniedExchange(a, tk, cfg, depth, tk.auth, deny, rest, true);
    PostRenewalTooDeep(a, tk, cfg, depth, rest);
  }

  /**
   * A login after a plain 401 whose `Auth=` value is empty fails the call, but
   * the empty token has been stored already and counts as missing afterwards.
   */
  lemma EmptyAuthRenewal(a: Account, tk: Tokens, cfg: AjaxConfig, depth: nat, deny: Reply, blank: Reply, tail: seq<Reply>)
    requires Ready(tk, cfg) && depth <= 3
    requires Denied(deny, false) && Served(blank) && AuthTokenOf(blank.body) == Some("")
    ensures var run := Dispatch(a, tk, cfg, depth, [deny] + ([blank] + tail));
      && run == Run(Err(RenewAuthFailed), tk.(auth := Some("")), tail, [Shape(a, cfg, tk.auth)] + [Shape(a, LoginConfig(a), None)])
      && !Truthy(run.tokens.auth)
  {
    ReadyDispatch(a, tk, cfg, depth, [deny] + ([blank] + tail));
    DeniedExchange(a, tk, cfg, depth, tk.auth, deny, [blank] + tail, false);
    LoginGranted(a, tk, 0, blank, tail, "");
  }

  /** A form POST carries no headers of its own, so its fields go out url-encoded, as given. */
  lemma FormPostBody(a: Account, path: string, form: seq<Field>, auth: Option<string>)
    ensures Shape(a, PostConfig(path, form), auth).httpMethod == "POST"
    ensures Shape(a, PostConfig(path, form), auth).headers["Content-Type"] == FormType
    ensures Shape(a, PostConfig(path, form), auth).body == Raw(Form(form))
  {
  }

  /**
   * A fresh session's first POST logs in, then fetches the post token with the
   * new auth token, and only then is sent.
   */
  lemma FreshSessionAcquires(a: Account, cfg: AjaxConfig, grant: Reply, renewal: Reply, rest: seq<Reply>, t: string)
    requires cfg.url != LoginPath && MethodOf(cfg) == "POST"
    requires Served(grant) && AuthTokenOf(grant.body) == Some(t) && t != "" && Served(renewal)
    ensures Acquire(a, Tokens(None, None), cfg, 0, [grant] + ([renewal] + rest)) ==
      Run(Ok(Some(t)), Tokens(Some(t), Some(PostTokenOf(Decode(renewal)))), rest, [Shape(a, LoginConfig(a), None)] + [Shape(a, TokenConfig(), Some(t))])
  {
    LoginGranted(a, Tokens(None, None), 0 + 1, grant, [renewal] + rest, t);
    ReadyServed(a, Tokens(Some(t), None), TokenConfig(), 0 + 1 + 1, renewal, rest);
  }

  /**
   * The first POST of a fresh session: its form was built while the post token
   * was still missing, so it is sent with `T=undefined` after the login and the
   * token fetch, although the session now holds the token.
   */
  lemma FreshSessionFirstPost(a: Account, feedUrl: string, grant: Reply, renewal: Reply, done: Reply, tail: seq<Reply>, t: string)
    requires Served(grant) && AuthTokenOf(grant.body) == Some(t) && t != "" && Served(renewal) && Served(done)
    ensures var post := Shape(a, EndpointConfig(QuickAddSubscription(feedUrl), None), Some(t));
      CallRun(a, Tokens(None, None), QuickAddSubscription(feedUrl), [grant] + ([renewal] + ([done] + tail))) ==
        Run(Ok(Decode(done)), Tokens(Some(t), Some(PostTokenOf(Decode(renewal)))), tail,
            [Shape(a, LoginConfig(a), None)] + [Shape(a, TokenConfig(), Some(t))] + [post])
    ensures Shape(a, EndpointConfig(QuickAddSubscription(feedUrl), None), Some(t)).body == Raw(Form(QuickAddForm(None, feedUrl)))
    ensures GetAll(QuickAddForm(None, feedUrl), "T") == ["undefined"]
  {
    var tk2 := Tokens(Some(t), Some(PostTokenOf(Decode(renewal))));
    var form := QuickAddForm(None, feedUrl);
    var cfg := PostConfig("/subscription/quickadd", form);
    assert EndpointConfig(QuickAddSubscription(feedUrl), None) == cfg;
    FreshSessionAcquires(a, cfg, grant, renewal, [done] + tail, t);
    assert Exchange(a, tk2, cfg, 0, Some(t), [done] + tail) == Run(Ok(Decode(done)), tk2, tail, [Shape(a, cfg, Some(t))]) by {
      assert ([done] + tail)[1..] == tail;
    }
    FormPostBody(a, "/subscription/quickadd", form, Some(t));
    GetAllCons(("quickadd", feedUrl), [("T", TokenText(None))], "T");
  }

  /** One level of the loop below: a 401, a login that hands back the same token, and the deeper call's outcome. */
  lemma UnauthorizedRound(a: Account, tk: Tokens, cfg: AjaxConfig, depth: nat, deny: Reply, grant: Reply, more: seq<Reply>, tail: seq<Reply>, sent: seq<Request>)
    requires Ready(tk, cfg) && depth <= 3
    requires Denied(deny, false) && Served(grant) && AuthTokenOf(grant.body) == tk.auth
    requires Dispatch(a, tk, cfg, depth + 1, more) == Run(Err(DepthExceeded), tk, tail, sent)
    ensures Dispatch(a, tk, cfg, depth, [deny] + ([grant] + more)) ==
      Run(Err(DepthExceeded), tk, tail, [Shape(a, cfg, tk.auth)] + ([Shape(a, LoginConfig(a), None)] + sent))
  {
    assert tk.(auth := Some(tk.auth.value)) == tk;
    AuthRefreshStep(a, tk, cfg, depth, deny, grant, more, tk.auth.value);
  }

  /** The first level of the loop below, where the login hands back a token `t` the session may not hold yet. */
  lemma UnauthorizedFirstRound(a: Account, tk: Tokens, renewed: Tokens, cfg: AjaxConfig, depth: nat, next: nat, deny: Reply, grant: Reply, more: seq<Reply>, tail: seq<Reply>, sent: seq<Request>, t: string)
    requires Ready(tk, cfg) && depth <= 3 && next == depth + 1
    requires Denied(deny, false) && Served(grant) && AuthTokenOf(grant.body) == Some(t) && t != ""
    requires renewed == tk.(auth := Some(t))
    requires Dispatch(a, renewed, cfg, next, more) == Run(Err(DepthExceeded), renewed, tail, sent)
    ensures Dispatch(a, tk, cfg, depth, [deny] + ([grant] + more)) ==
      Run(Err(DepthExceeded), renewed, tail, [Shape(a, cfg, tk.auth)] + ([Shape(a, LoginConfig(a), None)] + sent))
  {
    AuthRefreshStep(a, tk, cfg, depth, deny, grant, more, t);
  }

  /** Two levels of the loop below. */
  lemma UnauthorizedTwoRounds(a: Account, tk: Tokens, cfg: AjaxConfig, depth: nat, deeper: nat, deny: Reply, grant: Reply, more: seq<Reply>, tail: seq<Reply>, sent: seq<Request>)
    requires Ready(tk, cfg) && depth <= 2 && deeper == depth + 2
    requires Denied(deny, false) && Served(grant) && AuthTokenOf(grant.body) == tk.auth
    requires Dispatch(a, tk, cfg, deeper, more) == Run(Err(DepthExceeded), tk, tail, sent)
    ensures var req, reqL := Shape(a, cfg, tk.auth), Shape(a, LoginConfig(a), None);
      Dispatch(a, tk, cfg, depth, [deny] + ([grant] + ([deny] + ([grant] + more)))) ==
        Run(Err(DepthExceeded), tk, tail, [req] + ([reqL] + ([req] + ([reqL] + sent))))
  {
    var req, reqL := Shape(a, cfg, tk.auth), Shape(a, LoginConfig(a), None);
    UnauthorizedRound(a, tk, cfg, depth + 1, deny, grant, more, tail, sent);
    UnauthorizedRound(a, tk, cfg, depth, deny, grant, [deny] + ([grant] + more), tail, [req] + ([reqL] + sent));
  }

  /**
   * If every login succeeds while the target keeps answering 401, the retries
   * climb one depth each and the call ends at the depth guard: four requests,
   * each followed by a login, then `DepthExceeded`. The first request carries the
   * session's token and the later ones the token the logins hand back.
   */
  lemma UnauthorizedLoop(a: Account, tk: Tokens, cfg: AjaxConfig, deny: Reply, grant: Reply, tail: seq<Reply>, t: string)
    requires Ready(tk, cfg)
    requires Denied(deny, false) && Served(grant) && AuthTokenOf(grant.body) == Some(t) && t != ""
    ensures var req0, req, reqL := Shape(a, cfg, tk.auth), Shape(a, cfg, Some(t)), Shape(a, LoginConfig(a), None);
      Dispatch(a, tk, cfg, 0, [deny] + ([grant] + ([deny] + ([grant] + ([deny] + ([grant] + ([deny] + ([grant] + tail)))))))) ==
        Run(Err(DepthExceeded), tk.(auth := Some(t)), tail,
            [req0] + ([reqL] + ([req] + ([reqL] + ([req] + ([reqL] + ([req] + ([reqL] + []))))))))
  {
    var tk1 := tk.(auth := Some(t));
    var req, reqL := Shape(a, cfg, tk1.auth), Shape(a, LoginConfig(a), None);
    var s3 := [deny] + ([grant] + tail);
    DepthGuard(a, tk1, cfg, 3 + 1, tail);
    UnauthorizedRound(a, tk1, cfg, 3, deny, grant, tail, tail, []);
    UnauthorizedTwoRounds(a, tk1, cfg, 0 + 1, 3, deny, grant, s3, tail, [req] + ([reqL] + []));
    UnauthorizedFirstRound(a, tk, tk1, cfg, 0, 0 + 1, deny, grant, [deny] + ([grant] + ([deny] + ([grant] + s3))), tail,
      [req] + ([reqL] + ([req] + ([reqL] + ([req] + ([reqL] + []))))), t);
  }

  function Repeat<T>(x: T, n: nat): (s: seq<T>)
    ensures |s| == n
  {
    if n == 0 then [] else [x] + Repeat(x, n - 1)
  }

  /**
   * The auth refresh logs in at depth 0, so a login endpoint that keeps answering
   * 401 is re-tried at the same depth for as long as it answers: the depth guard
   * never stops it. Here it stops only when the server falls silent, after one
   * login request per reply plus the last one, however many that is.
   */
  lemma {:induction false} LoginLoop(a: Account, tk: Tokens, deny: Reply, n: nat)
    requires Denied(deny, false)
    ensures Dispatcher.ClientLogin(a, tk, 0, Repeat(deny, n)) ==
      Run(Err(Timeout), tk, [], Repeat(Shape(a, LoginConfig(a), None), n + 1))
    decreases n
  {
    var req := Shape(a, LoginConfig(a), None);
    var script := Repeat(deny, n);
    assert Acquire(a, tk, LoginConfig(a), 1, script) == Run(Ok(None), tk, script, []);
    if n == 0 {
      assert Exchange(a, tk, LoginConfig(a), 1, None, script) == Run(Err(Timeout), tk, [], [req]);
    } else {
      LoginLoop(a, tk, deny, n - 1);
      assert script == [deny] + Repeat(deny, n - 1);
      assert Recover(a, tk, LoginConfig(a), 1, false, Repeat(deny, n - 1)) == Run(Err(Timeout), tk, [], Repeat(req, n));
      assert Exchange(a, tk, LoginConfig(a), 1, None, script) == Run(Err(Timeout), tk, [], [req] + Repeat(req, n));
    }
  }
}
