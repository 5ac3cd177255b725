/**
 * The standalone `ajax` helper of src/utils/ajax.ts: one `fetch` of a request
 * built from an `AjaxConfig`, raced against a timer (here: a scripted reply or
 * no answer), with no token handling and no retry.
 */
module AjaxHelper {
  import opened Wrappers
  import opened Text
  import opened Fetch

  /** The query the helper sends: the explicit pairs, then every pair of the URL's own query. */
  function AjaxUrl(cfg: AjaxConfig): Url {
    var full := Locate(cfg.baseURL, cfg.url);
    Url(AddressOf(full), cfg.query + ParseSearch(SearchOf(full)))
  }

  /** The caller's `Content-Type` is `application/json`, empty or missing. */
  predicate WantsJson(headers: map<string, string>) {
    "Content-Type" !in headers || headers["Content-Type"] == JsonType || headers["Content-Type"] == ""
  }

  /** The request `ajax` hands to `fetch`. */
  function AjaxRequest(cfg: AjaxConfig): Request {
    var verb := ToUpper(cfg.httpMethod.GetOr("GET"));
    var body :=
      if verb == "GET" || verb == "HEAD" then NoBody
      else if WantsJson(cfg.headers) then JsonText(cfg.data)
      else Raw(cfg.data);
    Request(verb, AjaxUrl(cfg), map["Content-Type" := JsonType] + cfg.headers, body)
  }

  /** The chained content-type tests of the helper's response reader. */
  function AjaxDecoder(contentType: Option<string>): Decoder {
    if contentType.Some? && StartsWith(contentType.value, "application/json") then AsJson
    else if contentType.Some? && StartsWith(contentType.value, "text/") then AsText
    else if contentType.Some? && StartsWith(contentType.value, "multipart/form-data") then AsFormData
    else if contentType.Some? && StartsWith(contentType.value, "application/octet-stream") then AsBlob
    else AsArrayBuffer
  }

  /** The helper's decoding order, as a table; anything unmatched is read as an `ArrayBuffer`. */
  const AjaxTable: seq<(string, Decoder)> := [
    ("application/json", AsJson),
    ("text/", AsText),
    ("multipart/form-data", AsFormData),
    ("application/octet-stream", AsBlob)]

  lemma AjaxDecoderIsTable(contentType: Option<string>)
    ensures AjaxDecoder(contentType) == FirstMatch(AjaxTable, contentType, AsArrayBuffer)
  {
    var t1, t2, t3 := AjaxTable[1..], AjaxTable[2..], AjaxTable[3..];
    assert t1 == [("text/", AsText), ("multipart/form-data", AsFormData), ("application/octet-stream", AsBlob)];
    assert t2 == t1[1..] == [("multipart/form-data", AsFormData), ("application/octet-stream", AsBlob)];
    assert t3 == t2[1..] == [("application/octet-stream", AsBlob)];
    assert t3[1..] == [];
    var m := (p: string) => contentType.Some? && StartsWith(contentType.value, p);
    assert FirstMatch(t3, contentType, AsArrayBuffer) == if m("application/octet-stream") then AsBlob else AsArrayBuffer;
    assert FirstMatch(t2, contentType, AsArrayBuffer) == if m("multipart/form-data") then AsFormData else FirstMatch(t3, contentType, AsArrayBuffer);
    assert FirstMatch(t1, contentType, AsArrayBuffer) == if m("text/") then AsText else FirstMatch(t2, contentType, AsArrayBuffer);
  }

  /** What `ajax` resolves to, or throws, for one reply. */
  function AjaxResult(reply: Reply): Result<Decoded, Error> {
    if reply.NoAnswer? then Err(Timeout)
    else if !IsOk(reply.status) then Err(HttpError(reply.status, reply.statusText))
    else Ok(Decoded(AjaxDecoder(reply.contentType), reply.body))
  }

  /** The `forEach` over the URL's own pairs, appending each to the explicit query. */
  method MergeQuery(query: seq<Field>, own: seq<Field>) returns (merged: seq<Field>)
    ensures merged == query + own
  {
    merged := query;
    var i := 0;
    while i < |own|
      invariant 0 <= i <= |own|
      invariant merged == query + own[..i]
    {
      merged := merged + [own[i]];
      i := i + 1;
    }
    assert own[..|own|] == own;
  }

  /** `ajax(config)` against the scripted network. */
  method Ajax(net: Network, cfg: AjaxConfig) returns (r: Result<Decoded, Error>)
    modifies net
    ensures net.log == old(net.log) + [AjaxRequest(cfg)]
    ensures net.replies == Remaining(old(net.replies))
    ensures r == AjaxResult(NextReply(old(net.replies)))
  {
    var full := Locate(cfg.baseURL, cfg.url);
    var query := MergeQuery(cfg.query, ParseSearch(SearchOf(full)));
    var verb := ToUpper(cfg.httpMethod.GetOr("GET"));
    var body := Raw(cfg.data);
    if verb == "GET" || verb == "HEAD" {
      body := NoBody;
    } else if WantsJson(cfg.headers) {
      body := JsonText(cfg.data);
    }
    var reply := net.Fetch(Request(verb, Url(AddressOf(full), query), map["Content-Type" := JsonType] + cfg.headers, body));
    if reply.NoAnswer? {
      r := Err(Timeout);
    } else if !IsOk(reply.status) {
      r := Err(HttpError(reply.status, reply.statusText));
    } else {
      r := Ok(Decoded(AjaxDecoder(reply.contentType), reply.body));
    }
  }

  /**
   * Query merge: nothing is overridden or dropped. Under every key the explicit
   * values come first, then the URL's own, so `get` sees an explicit value when
   * there is one and the URL's otherwise.
   */
  lemma AjaxQueryKeepsBoth(cfg: AjaxConfig, key: string)
    ensures var full := Locate(cfg.baseURL, cfg.url);
      && '?' !in AjaxRequest(cfg).url.address
      && GetAll(AjaxRequest(cfg).url.search, key) == GetAll(cfg.query, key) + GetAll(ParseSearch(SearchOf(full)), key)
      && Get(AjaxRequest(cfg).url.search, key) ==
           if GetAll(cfg.query, key) != [] then Get(cfg.query, key) else Get(ParseSearch(SearchOf(full)), key)
  {
    var full := Locate(cfg.baseURL, cfg.url);
    UrlParts(full);
    GetAllAppend(cfg.query, ParseSearch(SearchOf(full)), key);
  }

  /**
   * Method and body: the method is upper-cased before the GET/HEAD test and before
   * it is sent; GET and HEAD send no body; otherwise the data is JSON-encoded when
   * the caller's `Content-Type` is `application/json` or missing, and sent as it is otherwise.
   */
  lemma AjaxBodyPolicy(cfg: AjaxConfig)
    ensures var verb := ToUpper(cfg.httpMethod.GetOr("GET"));
      AjaxRequest(cfg).httpMethod == verb
    ensures var verb, body := ToUpper(cfg.httpMethod.GetOr("GET")), AjaxRequest(cfg).body;
      body.NoBody? <==> verb == "GET" || verb == "HEAD"
    ensures var verb, body := ToUpper(cfg.httpMethod.GetOr("GET")), AjaxRequest(cfg).body;
      body.JsonText? <==>
        verb != "GET" && verb != "HEAD" &&
        ("Content-Type" !in cfg.headers || cfg.headers["Content-Type"] == JsonType || cfg.headers["Content-Type"] == "")
    ensures var verb, body := ToUpper(cfg.httpMethod.GetOr("GET")), AjaxRequest(cfg).body;
      body.Raw? <==>
        verb != "GET" && verb != "HEAD" &&
        "Content-Type" in cfg.headers && cfg.headers["Content-Type"] != JsonType && cfg.headers["Content-Type"] != ""
    ensures !AjaxRequest(cfg).body.NoBody? ==> AjaxRequest(cfg).body.data == cfg.data
  {
  }

  /** Headers: `Content-Type: application/json` unless the caller sets one; every caller header is sent as given. */
  lemma AjaxHeaders(cfg: AjaxConfig)
    ensures AjaxRequest(cfg).headers.Keys == cfg.headers.Keys + {"Content-Type"}
    ensures forall h :: h in cfg.headers ==> AjaxRequest(cfg).headers[h] == cfg.headers[h]
    ensures "Content-Type" !in cfg.headers ==> AjaxRequest(cfg).headers["Content-Type"] == JsonType
  {
  }

  /** A lower-case method is upper-cased, so `get` sends no body either. */
  lemma LowerCaseGetHasNoBody(cfg: AjaxConfig)
    requires cfg.httpMethod == Some("get")
    ensures AjaxRequest(cfg).httpMethod == "GET" && AjaxRequest(cfg).body == NoBody
  {
    assert ToUpper("get") == "GET";
  }
}
