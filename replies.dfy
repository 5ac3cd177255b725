/**
 * How `GoogleReaderApi` reads the text of three replies: the login reply's
 * `Auth=` line (clientLogin), the `count#timestamp` body of getStreamItemCount
 * and the `true`/`false` body of checkSubscription.
 */
module Replies {
  import opened Wrappers
  import opened Text
  import opened Fetch

  const AuthPrefix := "Auth="

  function Lines(text: string): seq<string> {
    Split(text, '\n')
  }

  /** `lines.find(line => line.startsWith('Auth='))`. */
  function AuthLine(lines: seq<string>): (r: Option<string>)
    ensures r.Some? ==> StartsWith(r.value, AuthPrefix)
  {
    if lines == [] then None
    else if StartsWith(lines[0], AuthPrefix) then Some(lines[0])
    else AuthLine(lines[1..])
  }

  /** `s.split(c)[0]` is the text before the first `c`; a second piece exists exactly when `c` occurs. */
  lemma SplitHead(s: string, c: char)
    ensures Split(s, c)[0] == Cut(s, c).0
    ensures |Split(s, c)| > 1 <==> Cut(s, c).1.Some?
    ensures Cut(s, c).1.Some? ==> Split(s, c)[1..] == Split(Cut(s, c).1.value, c)
  {
    var cut := Cut(s, c);
    if cut.1.None? {
      SplitWhole(s, c);
    } else {
      SplitAfterPiece(cut.0, c, cut.1.value);
    }
  }

  lemma SplitAuthLine(line: string)
    requires StartsWith(line, AuthPrefix)
    ensures |Split(line, '=')| >= 2
    ensures Split(line, '=')[1] == Cut(line[5..], '=').0
  {
    assert line == "Auth" + ['='] + line[5..];
    SplitAfterPiece("Auth", '=', line[5..]);
    SplitHead(line[5..], '=');
  }

  /**
   * clientLogin's token: on the first line that starts with `Auth=`, the text
   * between its first and its second `=` (or the line's end). `None` when no line
   * qualifies: the source then throws 'AuthToken not found in response'.
   */
  function AuthTokenOf(text: string): (r: Option<string>)
    ensures r.Some? ==> '=' !in r.value
  {
    match AuthLine(Lines(text))
    case None => None
    case Some(line) => SplitAuthLine(line); Some(Split(line, '=')[1])
  }

  lemma {:induction false} AuthLineAt(lines: seq<string>, i: nat)
    requires i < |lines| && StartsWith(lines[i], AuthPrefix)
    requires forall j :: 0 <= j < i ==> !StartsWith(lines[j], AuthPrefix)
    ensures AuthLine(lines) == Some(lines[i])
    decreases i
  {
    if i > 0 {
      assert !StartsWith(lines[0], AuthPrefix);
      AuthLineAt(lines[1..], i - 1);
    }
  }

  lemma {:induction false} AuthLineNone(lines: seq<string>)
    ensures AuthLine(lines).None? <==> forall j :: 0 <= j < |lines| ==> !StartsWith(lines[j], AuthPrefix)
    decreases |lines|
  {
    if lines != [] {
      AuthLineNone(lines[1..]);
      if !StartsWith(lines[0], AuthPrefix) {
        forall j | 0 < j < |lines| ensures lines[j] == lines[1..][j - 1] { }
      }
    }
  }

  /** The token is what follows `Auth=` on the first such line, up to the next `=` or the line's end. */
  lemma AuthTokenFound(text: string, i: nat, token: string, tail: string)
    requires i < |Lines(text)|
    requires forall j :: 0 <= j < i ==> !StartsWith(Lines(text)[j], AuthPrefix)
    requires Lines(text)[i] == AuthPrefix + token + tail
    requires '=' !in token && (tail == "" || tail[0] == '=')
    ensures AuthTokenOf(text) == Some(token)
  {
    var line := Lines(text)[i];
    assert StartsWith(line, AuthPrefix);
    AuthLineAt(Lines(text), i);
    SplitAuthLine(line);
    assert line[5..] == token + tail;
    if tail == "" {
      assert token + tail == token;
      SplitWhole(token, '=');
      SplitHead(token, '=');
    } else {
      assert token + tail == token + ['='] + tail[1..];
      CutAt(token, '=', tail[1..]);
    }
  }

  /** No token exactly when no line starts with `Auth=`. */
  lemma AuthTokenMissing(text: string)
    ensures AuthTokenOf(text).None? <==> forall j :: 0 <= j < |Lines(text)| ==> !StartsWith(Lines(text)[j], AuthPrefix)
  {
    AuthLineNone(Lines(text));
  }

  /** A login reply that is the single line `Auth=<token>` yields `<token>`. */
  lemma AuthTokenOfLine(token: string)
    requires '=' !in token && '\n' !in token
    ensures AuthTokenOf(AuthPrefix + token) == Some(token)
  {
    var text := AuthPrefix + token;
    assert '\n' !in text by {
      forall k | 0 <= k < |text| ensures text[k] != '\n' {
        if k >= 5 { assert text[k] == token[k - 5]; }
      }
    }
    SplitWhole(text, '\n');
    assert token + "" == token;
    AuthTokenFound(text, 0, token, "");
  }

  // ----------------------------------------------------------- item count

  /** getStreamItemCount's result: `parseInt` of the count (`None` for `NaN`) and the date text, or `null`. */
  datatype ItemCount = ItemCount(count: Option<int>, date: Option<string>)

  /** `const [count, date] = response.split('#')`; the date is kept only when truthy. */
  function ParseItemCount(text: string): (r: ItemCount)
    ensures r.date.Some? ==> r.date.value != "" && '#' !in r.date.value
  {
    var parts := Split(text, '#');
    ItemCount(ParseInt(parts[0]), if |parts| > 1 && parts[1] != "" then Some(parts[1]) else None)
  }

  /**
   * The count is read from the text before the first `#`; the date is the text
   * between the first and the second `#`, and is absent exactly when there is no
   * `#` or that text is empty.
   */
  lemma ItemCountParts(text: string)
    ensures ParseItemCount(text).count == ParseInt(Cut(text, '#').0)
    ensures ParseItemCount(text).date ==
      match Cut(text, '#').1
      case None => None
      case Some(after) => if Cut(after, '#').0 == "" then None else Some(Cut(after, '#').0)
  {
    SplitHead(text, '#');
    var cut := Cut(text, '#');
    if cut.1.Some? {
      SplitHead(cut.1.value, '#');
    }
  }

  /** A count written as `<n>#<date>` reads back as `n` and the date (absent when empty). */
  lemma ItemCountRoundTrip(n: nat, date: string)
    requires '#' !in date
    ensures ParseItemCount(ShowNat(n) + "#" + date) == ItemCount(Some(n), if date == "" then None else Some(date))
  {
    var digits := ShowNat(n);
    assert '#' !in digits by {
      forall k | 0 <= k < |digits| ensures digits[k] != '#' { assert IsDigit(digits[k]); }
    }
    SplitAfterPiece(digits, '#', date);
    SplitWhole(date, '#');
    ParseShowNat(n, "");
    assert digits + "" == digits;
  }

  /** A bare count such as `"0"` has no date: `{count: 0, date: null}`. */
  lemma ItemCountWithoutDate(n: nat)
    ensures ParseItemCount(ShowNat(n)) == ItemCount(Some(n), None)
  {
    var digits := ShowNat(n);
    assert '#' !in digits by {
      forall k | 0 <= k < |digits| ensures digits[k] != '#' { assert IsDigit(digits[k]); }
    }
    SplitWhole(digits, '#');
    ParseShowNat(n, "");
    assert digits + "" == digits;
  }

  // ------------------------------------------------------- string replies

  /** The white space `JSON.parse` skips around a value. */
  predicate IsJsonSpace(c: char) {
    c == ' ' || c == '\t' || c == '\n' || c == '\r'
  }

  function TrimJsonStart(s: string): (r: string)
    ensures |r| <= |s|
  {
    if s != [] && IsJsonSpace(s[0]) then TrimJsonStart(s[1..]) else s
  }

  function TrimJsonEnd(s: string): (r: string)
    ensures |r| <= |s|
  {
    if s != [] && IsJsonSpace(s[|s| - 1]) then TrimJsonEnd(s[..|s| - 1]) else s
  }

  /**
   * `JSON.parse(text)` when it yields a string: the contents of a string literal
   * written without escapes. `None` for the other JSON values (numbers, `true`,
   * `null`, arrays, objects), none of which is a string.
   */
  function JsonStringOf(text: string): (r: Option<string>)
    ensures r.Some? ==> '"' !in r.value && '\\' !in r.value && |r.value| + 2 <= |text|
  {
    var t := TrimJsonEnd(TrimJsonStart(text));
    if |t| >= 2 && t[0] == '"' && t[|t| - 1] == '"' && '"' !in t[1..|t| - 1] && '\\' !in t[1..|t| - 1]
    then Some(t[1..|t| - 1])
    else None
  }

  /**
   * The value `makeApiRequest` resolves to, when it is a string: the body read by
   * the text reader, or a JSON string. Form data and binary readers give objects.
   */
  function StringValue(d: Decoded): Option<string> {
    match d.decoder
    case AsText => Some(d.raw)
    case AsJson => JsonStringOf(d.raw)
    case _ => None
  }

  lemma {:induction false} TrimJsonStartAt(pre: string, s: string)
    requires forall i :: 0 <= i < |pre| ==> IsJsonSpace(pre[i])
    requires s == [] || !IsJsonSpace(s[0])
    ensures TrimJsonStart(pre + s) == s
    decreases |pre|
  {
    if pre == [] {
      assert pre + s == s;
    } else {
      assert (pre + s)[1..] == pre[1..] + s;
      TrimJsonStartAt(pre[1..], s);
    }
  }

  lemma {:induction false} TrimJsonEndAt(s: string, post: string)
    requires forall i :: 0 <= i < |post| ==> IsJsonSpace(post[i])
    requires s == [] || !IsJsonSpace(s[|s| - 1])
    ensures TrimJsonEnd(s + post) == s
    decreases |post|
  {
    if post == [] {
      assert s + post == s;
    } else {
      var p := post[..|post| - 1];
      assert (s + post)[..|s + post| - 1] == s + p;
      TrimJsonEndAt(s, p);
    }
  }

  /** A JSON string literal without escapes, with white space around it, parses to its contents. */
  lemma JsonStringRoundTrip(pre: string, contents: string, post: string)
    requires forall i :: 0 <= i < |pre| ==> IsJsonSpace(pre[i])
    requires forall i :: 0 <= i < |post| ==> IsJsonSpace(post[i])
    requires '"' !in contents && '\\' !in contents
    ensures JsonStringOf(pre + "\"" + contents + "\"" + post) == Some(contents)
  {
    var lit := "\"" + contents + "\"";
    assert pre + "\"" + contents + "\"" + post == pre + (lit + post);
    TrimJsonStartAt(pre, lit + post);
    TrimJsonEndAt(lit, post);
    assert lit[1..|lit| - 1] == contents;
  }

  /** A number's JSON text, such as `42`, is not a string. */
  lemma JsonNumberIsNoString(n: nat)
    ensures JsonStringOf(ShowNat(n)) == None
  {
    var digits := ShowNat(n);
    assert IsDigit(digits[0]) && IsDigit(digits[|digits| - 1]);
    TrimJsonStartAt([], digits);
    assert [] + digits == digits;
    TrimJsonEndAt(digits, []);
    assert digits + [] == digits;
  }

  // ------------------------------------------------------------ item count reply

  /** getStreamItemCount's `response.split('#')`, which throws when the reply is not a string. */
  function ItemCountOf(d: Decoded): Result<ItemCount, Error> {
    match StringValue(d)
    case None => Err(NotAString)
    case Some(text) => Ok(ParseItemCount(text))
  }

  /**
   * A text reply is split as it is; a JSON reply only when it holds a string, so a
   * bare JSON number fails; form data and binary replies always fail.
   */
  lemma ItemCountReplies(body: string, n: nat, pre: string, text: string, post: string)
    requires forall i :: 0 <= i < |pre| ==> IsJsonSpace(pre[i])
    requires forall i :: 0 <= i < |post| ==> IsJsonSpace(post[i])
    requires '"' !in text && '\\' !in text
    ensures ItemCountOf(Decoded(AsText, body)) == Ok(ParseItemCount(body))
    ensures ItemCountOf(Decoded(AsJson, pre + "\"" + text + "\"" + post)) == Ok(ParseItemCount(text))
    ensures ItemCountOf(Decoded(AsJson, ShowNat(n))) == Err(NotAString)
    ensures ItemCountOf(Decoded(AsFormData, body)) == Err(NotAString) && ItemCountOf(Decoded(AsArrayBuffer, body)) == Err(NotAString)
  {
    JsonStringRoundTrip(pre, text, post);
    JsonNumberIsNoString(n);
  }

  // ------------------------------------------------------------ subscribed

  /** checkSubscription's `response === 'true'`: the reply is the string `true`. */
  function IsSubscribed(d: Decoded): bool {
    StringValue(d) == Some("true")
  }

  /**
   * Subscribed exactly for a text reply reading `true` or a JSON reply holding the
   * string "true". The JSON boolean `true` is not that string, and form data or
   * binary replies never are.
   */
  lemma SubscribedReplies(body: string, pre: string, post: string)
    requires forall i :: 0 <= i < |pre| ==> IsJsonSpace(pre[i])
    requires forall i :: 0 <= i < |post| ==> IsJsonSpace(post[i])
    ensures IsSubscribed(Decoded(AsText, body)) <==> body == "true"
    ensures IsSubscribed(Decoded(AsJson, pre + "\"true\"" + post))
    ensures !IsSubscribed(Decoded(AsJson, "true"))
    ensures !IsSubscribed(Decoded(AsFormData, body)) && !IsSubscribed(Decoded(AsArrayBuffer, body))
  {
    JsonStringRoundTrip(pre, "true", post);
    assert pre + "\"true\"" + post == pre + "\"" + "true" + "\"" + post;
    TrimJsonStartAt([], "true");
    assert [] + "true" == "true";
    TrimJsonEndAt("true", []);
    assert "true" + [] == "true";
  }

  // ------------------------------------------------------------ post token

  /**
   * The post token `getPostToken` resolves to, as the text a form later writes
   * for it with `append('T', …)`: a string as it is; an `ArrayBuffer`, `FormData`
   * or `Blob` as its `[object …]` tag. A JSON value other than a string keeps its
   * JSON text.
   */
  function PostTokenOf(d: Decoded): string {
    match StringValue(d)
    case Some(s) => s
    case None =>
      match d.decoder
      case AsArrayBuffer => "[object ArrayBuffer]"
      case AsFormData => "[object FormData]"
      case AsBlob => "[object Blob]"
      case _ => d.raw
  }

  /**
   * A text reply is the token as it is and a JSON string its contents, so the
   * JSON text `""` is an empty token; a binary or form-data reply is a non-empty
   * token whatever its body, an empty one included.
   */
  lemma PostTokenReplies(body: string, pre: string, text: string, post: string)
    requires forall i :: 0 <= i < |pre| ==> IsJsonSpace(pre[i])
    requires forall i :: 0 <= i < |post| ==> IsJsonSpace(post[i])
    requires '"' !in text && '\\' !in text
    ensures PostTokenOf(Decoded(AsText, body)) == body
    ensures PostTokenOf(Decoded(AsJson, pre + "\"" + text + "\"" + post)) == text
    ensures PostTokenOf(Decoded(AsJson, "\"\"")) == ""
    ensures PostTokenOf(Decoded(AsArrayBuffer, body)) != "" && PostTokenOf(Decoded(AsFormData, body)) != ""
  {
    JsonStringRoundTrip(pre, text, post);
    JsonStringRoundTrip([], "", []);
    assert [] + "\"" + "" + "\"" + [] == "\"\"";
  }
}
