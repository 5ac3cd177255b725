/**
 * What the client hands to `fetch` and what comes back, shared by the request
 * dispatcher and the standalone `ajax` helper: request configurations, URLs
 * with their query pairs, bodies, scripted server replies and the error kinds.
 * The network itself is a scripted `Network` object.
 */
module Fetch {
  import opened Wrappers
  import opened Text

  /** One key/value pair of a query string or a URL-encoded form. */
  type Field = (string, string)

  /** A request's `data`: the default empty object `{}`, a form (`URLSearchParams`) or plain text. */
  datatype Payload = EmptyObject | Form(fields: seq<Field>) | PlainText(text: string)

  /**
   * `AjaxConfig` (src/utils/ajax.ts): an absent `query`, `headers` or `data` is written
   * as `[]`, `map[]` and `EmptyObject`, the values the destructuring defaults give them;
   * `method` (here `httpMethod`) and `baseURL` keep their absence because the two callers default them differently.
   */
  datatype AjaxConfig = AjaxConfig(
    url: string,
    query: seq<Field>,
    data: Payload,
    httpMethod: Option<string>,
    headers: map<string, string>,
    baseURL: Option<string>)

  /** A URL as `fetch` receives it: everything before the query, and the query's pairs. */
  datatype Url = Url(address: string, search: seq<Field>)

  /** The body handed to `fetch`: `null`, the data as it is, or `JSON.stringify(data)`. */
  datatype Body = NoBody | Raw(data: Payload) | JsonText(data: Payload)

  datatype Request = Request(httpMethod: string, url: Url, headers: map<string, string>, body: Body)

  /**
   * One scripted server reply, or a call that the timer wins (`NoAnswer`).
   * `badToken` is the `x-reader-google-bad-token` response header.
   */
  datatype Reply =
    | Answer(status: int, statusText: string, contentType: Option<string>, badToken: Option<string>, body: string)
    | NoAnswer

  /** The `Response` reader chosen for a successful reply. */
  datatype Decoder = AsJson | AsText | AsFormData | AsArrayBuffer | AsBlob

  /** A decoded reply: the reader used and the body it read. */
  datatype Decoded = Decoded(decoder: Decoder, raw: string)

  /** The errors the two request paths throw. */
  datatype Error =
    | DepthExceeded                            // 'Recursive depth greater than 3, forced exit'
    | AuthTokenNotFound                        // 'AuthToken not found in response'
    | RenewPostFailed                          // 'Failed to renew POST token'
    | RenewAuthFailed                          // 'Failed to renew Auth token'
    | HttpError(status: int, statusText: string) // 'HTTP error! status: …, statusText: …'
    | Timeout                                  // 'Ajax timeout!'
    | NotAString                               // TypeError: a reply read as anything but a string has no `split`

  const JsonType := "application/json"

  /** `response.ok`. */
  predicate IsOk(status: int) { 200 <= status <= 299 }

  /** The reply the next `fetch` gets; a server with nothing left to say never answers. */
  function NextReply(script: seq<Reply>): Reply {
    if script == [] then NoAnswer else script[0]
  }

  function Remaining(script: seq<Reply>): (rest: seq<Reply>)
    ensures |rest| == if script == [] then 0 else |script| - 1
  {
    if script == [] then [] else script[1..]
  }

  /** `baseURL ? baseURL + url : url`: an absent or empty base leaves the URL as given. */
  function Locate(baseURL: Option<string>, url: string): string {
    if baseURL.Some? && baseURL.value != "" then baseURL.value + url else url
  }

  /** The part of a URL before its query. */
  function AddressOf(full: string): string {
    Cut(full, '?').0
  }

  /** A URL's own query string, after the first `?`. */
  function SearchOf(full: string): string {
    Cut(full, '?').1.GetOr("")
  }

  lemma UrlParts(full: string)
    ensures '?' !in AddressOf(full)
    ensures full == if '?' in full then AddressOf(full) + "?" + SearchOf(full) else AddressOf(full)
  {
  }

  /** One `key=value` piece of a query string; the value runs to the end of the piece. */
  function PairOf(piece: string): Field {
    var c := Cut(piece, '=');
    (c.0, c.1.GetOr(""))
  }

  function ParsePieces(pieces: seq<string>): (fields: seq<Field>)
    ensures (forall i :: 0 <= i < |pieces| ==> '&' !in pieces[i]) ==> Plain(fields)
  {
    if pieces == [] then []
    else (if pieces[0] == "" then [] else [PairOf(pieces[0])]) + ParsePieces(pieces[1..])
  }

  /** `new URLSearchParams(q)` on a query string: `&`-separated pieces, empty ones skipped. */
  function ParseSearch(q: string): (fields: seq<Field>)
    ensures Plain(fields)
  {
    ParsePieces(Split(q, '&'))
  }

  function PieceOf(f: Field): string {
    f.0 + "=" + f.1
  }

  /** `URLSearchParams.toString()`: `key=value` pieces joined by `&`. */
  function FormatSearch(fields: seq<Field>): string {
    if fields == [] then "" else Join(seq(|fields|, i requires 0 <= i < |fields| => PieceOf(fields[i])), '&')
  }

  /** Pairs whose text needs no escaping. */
  predicate Plain(fields: seq<Field>) {
    forall i :: 0 <= i < |fields| ==> '&' !in fields[i].0 && '=' !in fields[i].0 && '&' !in fields[i].1
  }

  lemma {:induction false} CutAt(a: string, c: char, b: string)
    requires c !in a
    ensures Cut(a + [c] + b, c) == (a, Some(b))
    decreases |a|
  {
    if a == [] {
      assert a + [c] + b == [c] + b;
      assert ([c] + b)[1..] == b;
    } else {
      CutAt(a[1..], c, b);
      assert (a + [c] + b)[1..] == a[1..] + [c] + b;
      assert [a[0]] + a[1..] == a;
    }
  }

  lemma {:induction false} ParsePlainPieces(fields: seq<Field>)
    requires Plain(fields)
    ensures ParsePieces(seq(|fields|, i requires 0 <= i < |fields| => PieceOf(fields[i]))) == fields
    decreases |fields|
  {
    var pieces := seq(|fields|, i requires 0 <= i < |fields| => PieceOf(fields[i]));
    if fields != [] {
      var tail := seq(|fields| - 1, i requires 0 <= i < |fields| - 1 => PieceOf(fields[1..][i]));
      assert pieces[1..] == tail;
      assert Plain(fields[1..]);
      ParsePlainPieces(fields[1..]);
      CutAt(fields[0].0, '=', fields[0].1);
      assert pieces[0] == fields[0].0 + ['='] + fields[0].1;
      assert pieces[0] != "";
    }
  }

  /** A query written with plain keys and values reads back as the same pairs, in order. */
  lemma ParseFormatSearch(fields: seq<Field>)
    requires Plain(fields)
    ensures ParseSearch(FormatSearch(fields)) == fields
  {
    if fields != [] {
      var pieces := seq(|fields|, i requires 0 <= i < |fields| => PieceOf(fields[i]));
      forall i | 0 <= i < |pieces| ensures '&' !in pieces[i] {
        assert pieces[i] == fields[i].0 + "=" + fields[i].1;
      }
      SplitJoin(pieces, '&');
      ParsePlainPieces(fields);
    }
  }

  /**
   * An ordered table of content-type prefixes: the decoder of the first entry whose
   * prefix starts the reply's content type, or the fallback when none does.
   */
  function FirstMatch(table: seq<(string, Decoder)>, contentType: Option<string>, fallback: Decoder): Decoder {
    if table == [] then fallback
    else if contentType.Some? && StartsWith(contentType.value, table[0].0) then table[0].1
    else FirstMatch(table[1..], contentType, fallback)
  }

  lemma {:induction false} FirstMatchAt(table: seq<(string, Decoder)>, contentType: string, fallback: Decoder, i: nat)
    requires i < |table| && StartsWith(contentType, table[i].0)
    requires forall j :: 0 <= j < i ==> !StartsWith(contentType, table[j].0)
    ensures FirstMatch(table, Some(contentType), fallback) == table[i].1
    decreases i
  {
    if i > 0 {
      assert !StartsWith(contentType, table[0].0);
      FirstMatchAt(table[1..], contentType, fallback, i - 1);
    }
  }

  lemma {:induction false} FirstMatchNone(table: seq<(string, Decoder)>, contentType: Option<string>, fallback: Decoder)
    requires contentType.Some? ==> forall j :: 0 <= j < |table| ==> !StartsWith(contentType.value, table[j].0)
    ensures FirstMatch(table, contentType, fallback) == fallback
    decreases |table|
  {
    if table != [] {
      FirstMatchNone(table[1..], contentType, fallback);
    }
  }

  /** `URLSearchParams.getAll(key)`: every value under `key`, in order. */
  function GetAll(fields: seq<Field>, key: string): seq<string> {
    if |fields| == 0 then []
    else (if fields[0].0 == key then [fields[0].1] else []) + GetAll(fields[1..], key)
  }

  /** `URLSearchParams.get(key)`: the first value under `key`. */
  function Get(fields: seq<Field>, key: string): Option<string> {
    var all := GetAll(fields, key);
    if all == [] then None else Some(all[0])
  }

  lemma {:induction false} GetAllAppend(a: seq<Field>, b: seq<Field>, key: string)
    ensures GetAll(a + b, key) == GetAll(a, key) + GetAll(b, key)
    decreases |a|
  {
    if a != [] {
      GetAllAppend(a[1..], b, key);
      assert (a + b)[1..] == a[1..] + b;
    } else {
      assert a + b == b;
    }
  }

  /**
   * The network as a script: each `Fetch` logs the request it was given and gets
   * the next scripted reply, or no answer once the script is used up.
   */
  class Network {
    var replies: seq<Reply>
    var log: seq<Request>

    constructor (script: seq<Reply>)
      ensures replies == script && log == []
    {
      replies := script;
      log := [];
    }

    method Fetch(request: Request) returns (reply: Reply)
      modifies this
      ensures reply == NextReply(old(replies))
      ensures replies == Remaining(old(replies))
      ensures log == old(log) + [request]
    {
      reply := NextReply(replies);
      replies := Remaining(replies);
      log := log + [request];
    }
  }
}
