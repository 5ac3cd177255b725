/**
 * What the dispatcher puts on the wire for one configuration, and where its
 * rules part from those of the standalone `ajax` helper.
 */
module ShapingFacts {
  import opened Wrappers
  import opened Text
  import opened Fetch
  import opened AjaxHelper
  import opened Dispatcher

  /** The `Content-Type` the dispatcher sends: the caller's, or the form type by default. */
  function EffectiveType(cfg: AjaxConfig): string {
    if "Content-Type" in cfg.headers then cfg.headers["Content-Type"] else FormType
  }

  /**
   * URL rule: the request goes to `baseURL + url` (the API root when no base is
   * given) with everything from the first `?` cut off, and it carries exactly the
   * explicit query: a query written into the path is dropped, not merged.
   */
  lemma DispatchUrlRule(a: Account, cfg: AjaxConfig, auth: Option<string>)
    ensures var full := Locate(Some(cfg.baseURL.GetOr(ApiBase(a))), cfg.url);
      var u := Shape(a, cfg, auth).url;
      && '?' !in u.address
      && full == (if '?' in full then u.address + "?" + SearchOf(full) else u.address)
      && forall key :: GetAll(u.search, key) == GetAll(cfg.query, key)
  {
    UrlParts(Locate(Some(cfg.baseURL.GetOr(ApiBase(a))), cfg.url));
  }

  /**
   * Given the same base, both send to the same address. Under every key the
   * helper sends the explicit values and then the path's own, while the
   * dispatcher sends only the explicit ones.
   */
  lemma QueryRulesDiffer(a: Account, cfg: AjaxConfig, auth: Option<string>, key: string)
    requires cfg.baseURL.Some?
    ensures AjaxRequest(cfg).url.address == Shape(a, cfg, auth).url.address
    ensures GetAll(AjaxRequest(cfg).url.search, key) ==
      GetAll(Shape(a, cfg, auth).url.search, key) + GetAll(ParseSearch(SearchOf(Locate(cfg.baseURL, cfg.url))), key)
  {
    AjaxQueryKeepsBoth(cfg, key);
  }

  /**
   * Headers: `Content-Type` is the form type unless the caller sets one. The
   * session's token, when there is one, goes in as `Authorization`, in place of
   * any the caller gave. Every other caller header is sent as given.
   */
  lemma DispatchHeaders(a: Account, cfg: AjaxConfig, auth: Option<string>)
    ensures var h := Shape(a, cfg, auth).headers;
      && h.Keys == cfg.headers.Keys + {"Content-Type"} + (if auth.Some? then {"Authorization"} else {})
      && h["Content-Type"] == EffectiveType(cfg)
      && (auth.Some? ==> h["Authorization"] == "GoogleLogin auth=" + auth.value)
      && forall k :: k in cfg.headers && (k != "Authorization" || auth.None?) ==> h[k] == cfg.headers[k]
  {
  }

  /**
   * Body policy: the method defaults to GET; GET and HEAD send no body. Otherwise
   * the data is JSON-encoded exactly when the effective `Content-Type` is
   * `application/json`, and passes through unchanged when it is anything else.
   */
  lemma DispatchBodyPolicy(a: Account, cfg: AjaxConfig, auth: Option<string>)
    ensures Shape(a, cfg, auth).httpMethod == cfg.httpMethod.GetOr("GET")
    ensures Shape(a, cfg, auth).body ==
      if MethodOf(cfg) in {"GET", "HEAD"} then NoBody
      else if EffectiveType(cfg) == JsonType then JsonText(cfg.data)
      else Raw(cfg.data)
  {
  }

  /**
   * The dispatcher compares the method as given, so a lower-case `get` is not
   * GET to it and the request it hands to `fetch` carries the data as a body;
   * the helper upper-cases the method first and hands over no body.
   */
  lemma LowerCaseGetDiffers(a: Account, cfg: AjaxConfig, auth: Option<string>)
    requires cfg.httpMethod == Some("get")
    ensures Shape(a, cfg, auth).httpMethod == "get" && Shape(a, cfg, auth).body != NoBody
    ensures AjaxRequest(cfg).httpMethod == "GET" && AjaxRequest(cfg).body == NoBody
  {
    LowerCaseGetHasNoBody(cfg);
  }

  /** Without a caller `Content-Type`, a POST sends its data as it is from the dispatcher, JSON-encoded from the helper. */
  lemma MissingTypeDiffers(a: Account, cfg: AjaxConfig, auth: Option<string>)
    requires cfg.httpMethod == Some("POST") && "Content-Type" !in cfg.headers
    ensures Shape(a, cfg, auth).body == Raw(cfg.data)
    ensures AjaxRequest(cfg).body == JsonText(cfg.data)
  {
    assert ToUpper("POST") == "POST";
  }

  /**
   * The two response readers agree exactly on JSON, `text/` and
   * `multipart/form-data` replies. XML, octet streams and anything unrecognised
   * or untyped are read differently.
   */
  lemma DecodersAgree(contentType: Option<string>)
    ensures DispatchDecoder(contentType) == AjaxDecoder(contentType) <==>
      contentType.Some? &&
      (StartsWith(contentType.value, "application/json") || StartsWith(contentType.value, "text/") ||
       StartsWith(contentType.value, "multipart/form-data"))
  {
    if contentType.Some? {
      var s := contentType.value;
      if StartsWith(s, "text/") { PrefixHead(s, "text/"); }
      if StartsWith(s, "multipart/form-data") { PrefixHead(s, "multipart/form-data"); }
      if StartsWith(s, "application/xml") { PrefixHead(s, "application/xml"); }
      if StartsWith(s, "application/octet-stream") { PrefixHead(s, "application/octet-stream"); }
    }
  }

  /** A string that starts with `prefix` starts with its first character. */
  lemma PrefixHead(s: string, prefix: string)
    requires StartsWith(s, prefix) && prefix != ""
    ensures s[0] == prefix[0]
  {
    assert s[..|prefix|][0] == s[0];
  }
}
