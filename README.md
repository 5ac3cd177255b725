# Google Reader API client: the token session and its request builders

This project models the core of `google-reader-api`, a TypeScript client for the
FeedHQ / FreshRSS "Google Reader" HTTP API, and proves properties of the model.

- **The request dispatcher** (`GoogleReaderApi.makeApiRequest`, `clientLogin`,
  `getPostToken`) works over a session of two tokens, `authToken` and `postToken`.
  - `Dispatcher` gives it as pure, mutually recursive functions over a scripted
    list of server replies. `Dispatch` is the call, `Acquire` the lazy token
    pre-fetch, `Exchange` the `fetch` and what follows it, and `Recover` the
    401 branch.
  - `Client.GoogleReaderApi` is the class itself. Its `authToken` and
    `postToken` fields are updated in place. It talks to a `Network` object
    that logs every request and hands out the next scripted reply.
  - Every method of the class is proved to reach the outcome the pure model
    predicts: the same result, tokens, remaining replies and sent requests.
- **Termination.** The auth refresh calls `clientLogin()` with depth 0, so the
  depth counter alone does not bound the recursion. The model terminates on
  the lexicographic measure: remaining replies, then `4 - depth`, then a rank
  between the mutually recursive functions.
- **The endpoint methods** appear as the request configuration each one builds
  (`Forms`). That configuration holds the ordered query or form fields, with
  optional fields appended only when truthy. The body copies the session's
  post token as it stands when the method is called.
- **Reply parsing:**
  - the `Auth=` line of the login reply;
  - the `count#date` reply of `getStreamItemCount`;
  - the `true` test of `checkSubscription`;
  - the post token `getPostToken` returns.

  The last three work on the value `makeApiRequest` resolves to. That value is a
  string when the reply was read as text, or as JSON holding a string. Any other
  value has no `split` and is never `=== 'true'`. As a post token it is written
  as its `[object …]` tag.
- **The standalone `ajax` helper** of `src/utils/ajax.ts` is modelled beside the
  dispatcher, and `ShapingFacts` proves where their rules differ.

Files:
- `wrappers.dfy`: Option and Result.
- `text.dfy`: the JavaScript string operations used.
- `fetch.dfy`: the shared request and reply types and the scripted network.
- `ajax.dfy`: the helper.
- `forms.dfy`: the endpoint builders.
- `replies.dfy`: reply parsing.
- `dispatcher.dfy`: the pure dispatcher.
- `client.dfy`: the class.
- `shaping_facts.dfy`: request shaping.
- `session_facts.dfy`: the token state machine and retry scenarios.

Two behaviours of the code are easy to misread:
- **Depth guard.** The depth counter does not bound every retry chain. The auth
  refresh logs in at depth 0 (src/index.ts:102), so a login endpoint that keeps
  answering 401 is retried at the same depth for as long as it answers
  (`SessionFacts.LoginLoop`).
- **Empty tokens.** Only the two refreshes after a 401 reject an empty token
  (src/index.ts:96, 103). The first acquisition stores whatever comes back
  (src/index.ts:48, 53), and an empty token stored there counts as missing on
  the next call.

## Model

| member | source | states |
|---|---|---|
| Text.Split | src/index.ts:149 | `split` with a one-character separator yields at least one piece, and no piece holds the separator |
| Text.SplitJoin | src/index.ts:153 | splitting the join of separator-free pieces gives back the same pieces |
| Text.JoinSplit | src/index.ts:498 | joining the pieces of a split gives back the original text |
| Text.LeadingDigits | src/index.ts:500 | the digits `parseInt` reads are a prefix of the text, all digits, and followed by no further digit |
| Text.ParseShowNat | src/index.ts:500 | `parseInt` reads back a number's decimal text, whatever non-digit text follows it |
| Text.ParseInt | src/index.ts:500 | `parseInt` in base ten: leading white space skipped, an optional sign, then the longest run of digits; no digit is `NaN` (read back by `Text.ParseShowNat`) |
| Text.ToUpper | src/utils/ajax.ts:39 | same length; no ASCII lower-case letter is left, each having become its upper-case partner; every other character is kept |
| Text.ToUpperIdempotent | src/utils/ajax.ts:39 | upper-casing an upper-cased method changes nothing |
| Fetch.Network.Fetch | src/index.ts:72-81 | each fetch logs its request and consumes one scripted reply; once the script is used up, the timer wins |
| Fetch.UrlParts | src/index.ts:42-44 | a URL is its address (no `?`) followed, when it has a query, by `?` and that query |
| Fetch.ParseSearch | src/utils/ajax.ts:33-35 | the pairs read from a URL's query are plain: no `&` in a key or a value and no `=` in a key |
| Fetch.ParseFormatSearch | src/utils/ajax.ts:34-38 | reading back the text of a query of plain pairs gives the same pairs in the same order |
| Fetch.FirstMatchAt | src/index.ts:111-124 | in a prefix table, the first entry whose prefix starts the content type decides the decoder |
| Fetch.FirstMatchNone | src/index.ts:124 | when no prefix matches, or the type is missing, the fallback decoder is used |
| AjaxHelper.AjaxRequest | src/utils/ajax.ts:32-53 | the request `ajax` hands to `fetch`; its URL, method, body and headers are stated by `AjaxQueryKeepsBoth`, `AjaxBodyPolicy` and `AjaxHeaders` |
| AjaxHelper.AjaxDecoder | src/utils/ajax.ts:59-72 | the helper's chained content-type tests; stated as a table by `AjaxDecoderIsTable` |
| AjaxHelper.AjaxResult | src/utils/ajax.ts:54-77 | a reply the timer wins is a timeout, a reply that is not ok an HTTP error with its status and text, any other the body under the chosen reader; `Ajax` is proved to return it |
| AjaxHelper.MergeQuery | src/utils/ajax.ts:34-37 | the `forEach` loop appends every pair of the URL's own query after the explicit pairs |
| AjaxHelper.Ajax | src/utils/ajax.ts:30-82 | one fetch of the shaped request: timeout when no answer, HTTP error with status and text when not ok, otherwise the decoded body |
| AjaxHelper.AjaxDecoderIsTable | src/utils/ajax.ts:59-72 | the helper's reader is the first match in json, `text/`, multipart, octet-stream (blob), falling back to an array buffer |
| AjaxHelper.AjaxQueryKeepsBoth | src/utils/ajax.ts:33-38 | under every key the explicit values come first and the path's own follow; nothing is dropped or overridden |
| AjaxHelper.AjaxBodyPolicy | src/utils/ajax.ts:39-45 | the method is upper-cased; there is no body exactly when it is GET or HEAD; the data is JSON-encoded exactly when it is neither and the `Content-Type` is JSON, empty or missing; it goes out raw exactly when it is neither and any other type is set; a body always carries the caller's data |
| AjaxHelper.AjaxHeaders | src/utils/ajax.ts:46-53 | `Content-Type: application/json` unless the caller sets one; every caller header is sent as given |
| AjaxHelper.LowerCaseGetHasNoBody | src/utils/ajax.ts:39-42 | a `get` is sent as `GET` without a body |
| Forms.GetAllTagged | src/index.ts:517-519 | a `forEach` of appends under one key reads back as exactly the list, in order, and adds nothing under other keys |
| Forms.GetAllOptText | src/index.ts:405-419 | an optional text field is sent once when truthy and not at all otherwise |
| Forms.GetAllOptNumber | src/index.ts:408-425 | an optional number is sent as its decimal text unless absent or 0 |
| Forms.DisableTagForm | src/index.ts:216-223 | the disable-tag form; read back by `DisableTagFormReads` |
| Forms.RenameTagForm | src/index.ts:240-248 | the rename-tag form; read back by `RenameTagFormReads` |
| Forms.EditSubscriptionForm | src/index.ts:284-310 | the edit-subscription form; read back by `EditSubscriptionFormRead`, `EditSubscriptionFormHead` and `EditSubscriptionFormReads` |
| Forms.QuickAddForm | src/index.ts:328-331 | the quick-add form; read back by `QuickAddFormReads` |
| Forms.PagingQuery | src/index.ts:408-425 | the paging keys shared by the stream queries; read back by `PagingQueryReads` |
| Forms.StreamContentsQuery | src/index.ts:403-425 | the stream-contents query; read back by `StreamContentsQueryReads` |
| Forms.StreamItemIdsQuery | src/index.ts:444-467 | the item-ids query; read back by `StreamItemIdsQueryReads` |
| Forms.StreamItemCountQuery | src/index.ts:486-492 | the item-count query; read back by `StreamItemCountQueryReads` |
| Forms.StreamItemContentsForm | src/index.ts:514-519 | the item-contents form; built by `BuildStreamItemContentsForm`, read back by `StreamItemContentsFormReads` |
| Forms.EditTagForm | src/index.ts:565-569 | the edit-tag form; built by `BuildEditTagForm`, read back by `EditTagFormReads` |
| Forms.MarkAllAsReadForm | src/index.ts:588-592 | the mark-all-as-read form; read back by `MarkAllAsReadFormReads` |
| Forms.EndpointConfig | src/index.ts:179-598 | the configuration each endpoint method dispatches; its method, body and token are stated by `EndpointShape`, `EndpointToken` and `EndpointNoToken` |
| Forms.DisableTagFormReads | src/index.ts:216-223 | the token is sent once, and the category once: as `s` when numeric, as `t` when a label |
| Forms.RenameTagFormReads | src/index.ts:240-248 | as for disableTag, plus the new label sent once as `dest` |
| Forms.EditSubscriptionExtrasRead | src/index.ts:290-310 | title and category fields per action: `t` when truthy on subscribe and edit; `a` on subscribe; on edit `a` unless `addCategory` is false, then `r`; nothing on unsubscribe |
| Forms.EditSubscriptionFormRead | src/index.ts:284-310 | what the edit-subscription form yields under any key is the `ac`, `s`, `T` head followed by the action's extras |
| Forms.EditSubscriptionFormHead | src/index.ts:285-288 | the form opens with `ac`, `s`, `T` in that order, each sent once |
| Forms.EditSubscriptionFormReads | src/index.ts:290-310 | the values the form yields under `t`, `a` and `r`, per action and `addCategory` |
| Forms.QuickAddFormReads | src/index.ts:328-331 | the feed URL and the token are each sent once |
| Forms.PagingQueryReads | src/index.ts:408-425 | each paging key carries its option when truthy (numbers unless 0), and no other key appears |
| Forms.StreamContentsQueryReads | src/index.ts:403-425 | `output=json` first, `r` only when truthy, then the paging keys |
| Forms.StreamItemIdsQueryReads | src/index.ts:444-467 | `output=json` and `s` first, `includeAllDirectStreamIds=true` only when set, then the paging keys |
| Forms.StreamItemCountQueryReads | src/index.ts:486-492 | the stream is sent once; `a=true` only when the latest date is asked for |
| Forms.BuildStreamItemContentsForm | src/index.ts:514-519 | the append loop builds the token, `output=json`, then one `i` per item id in order |
| Forms.StreamItemContentsFormReads | src/index.ts:514-519 | the server reads back every item id in order, the token once and `output=json` once |
| Forms.BuildEditTagForm | src/index.ts:566-569 | the three `forEach` loops append the `i`, then `a`, then `r` fields |
| Forms.EditTagFormReads | src/index.ts:565-569 | the server reads back exactly the item ids, the tags to add and the tags to remove; no token is sent |
| Forms.MarkAllAsReadFormReads | src/index.ts:588-592 | the stream once, the timestamp only when present and not 0, no token |
| Forms.EndpointShape | src/index.ts:179-598 | the form-posting endpoints are exactly the POSTs; all others are GETs (given or by default) with an empty body; none sets headers or a base URL |
| Forms.EndpointToken | src/index.ts:216-526 | the five token-carrying forms hold the session's post token as it was when the form was built (`undefined` when absent), once |
| Forms.EndpointNoToken | src/index.ts:564-598 | editTag and markAllAsRead post forms without a token |
| Replies.AuthLine | src/index.ts:149 | a line that is found starts with `Auth=` |
| Replies.AuthLineAt | src/index.ts:149 | `find` returns the first line that starts with `Auth=` |
| Replies.AuthLineNone | src/index.ts:149-152 | no line is found exactly when no line starts with `Auth=` |
| Replies.AuthTokenOf | src/index.ts:149-154 | a token that is found holds no `=`: it ends at the next one |
| Replies.AuthTokenFound | src/index.ts:149-154 | the token is the text after `Auth=` on the first such line, up to the next `=` or the line's end |
| Replies.AuthTokenMissing | src/index.ts:149-152 | there is no token (the "AuthToken not found" error) exactly when no line starts with `Auth=` |
| Replies.AuthTokenOfLine | src/index.ts:149-154 | the single line `Auth=<token>` yields `<token>` |
| Replies.ParseItemCount | src/index.ts:498-502 | a date that is kept is non-empty and holds no `#` |
| Replies.ItemCountParts | src/index.ts:498-502 | the count is read from the text before the first `#`; the date is the text between the first and second `#`, absent when missing or empty |
| Replies.ItemCountRoundTrip | src/index.ts:498-502 | `<n>#<date>` reads back as `n` and the date (absent when empty) |
| Replies.ItemCountWithoutDate | src/index.ts:498-502 | a bare count such as `0` yields that count and no date |
| Replies.JsonStringOf | src/index.ts:112-113 | a string read from a JSON reply holds no quote and no backslash, and is shorter than the reply by at least its two quotes |
| Replies.StringValue | src/index.ts:111-124 | the value a reply resolves to, when it is a string: a text reply as it is, a JSON reply when it holds a string |
| Replies.JsonStringRoundTrip | src/index.ts:112-113 | a JSON string literal without escapes, with white space around it, reads as its contents |
| Replies.JsonNumberIsNoString | src/index.ts:112-113 | a number's JSON text, such as `42`, is not a string |
| Replies.ItemCountOf | src/index.ts:498-502 | the split of the resolved string, or the error of a value that has none |
| Replies.ItemCountReplies | src/index.ts:498-502 | a text reply is split as it is and a JSON string by its contents; a JSON number, form data and binary replies fail |
| Replies.IsSubscribed | src/index.ts:390 | the resolved value is the string `true` |
| Replies.SubscribedReplies | src/index.ts:390 | subscribed exactly for the text `true`, and for the JSON string `"true"`; not for the JSON boolean `true`, form data or binary replies |
| Replies.PostTokenOf | src/index.ts:165-169 | the post token `getPostToken` resolves to, as the text a form writes for it under `T` |
| Replies.PostTokenReplies | src/index.ts:165-169 | a text reply is the token as it is and a JSON string its contents, so the JSON `""` is an empty token; a binary or form-data reply is a non-empty token even when its body is empty |
| Dispatcher.LoginConfig | src/index.ts:135-148 | the login configuration: a form POST of `Email` and `Passwd` to `/accounts/ClientLogin` on the server root |
| Dispatcher.TokenConfig | src/index.ts:165-168 | the token configuration: a GET of `/token` |
| Dispatcher.Shape | src/index.ts:41-70 | the request sent for a configuration and the auth token written into it; stated by `ShapingFacts.DispatchUrlRule`, `DispatchHeaders` and `DispatchBodyPolicy` |
| Dispatcher.DispatchDecoder | src/index.ts:111-124 | no reply is read as a blob, and a reply without a content type is read as text |
| Dispatcher.DispatchDecoderIsTable | src/index.ts:111-124 | the dispatcher's reader is the first match in json, `text/`, `application/xml`, multipart, octet-stream, falling back to text |
| Dispatcher.Dispatch | src/index.ts:36-125 | a call never consumes more replies than the script holds (its termination argument) |
| Dispatcher.Acquire | src/index.ts:45-55 | the token pre-fetch never consumes more replies than the script holds |
| Dispatcher.Exchange | src/index.ts:72-124 | the fetch and its aftermath never consume more replies than the script holds |
| Dispatcher.Recover | src/index.ts:91-107 | the 401 recovery never consumes more replies than the script holds |
| Dispatcher.ClientLogin | src/index.ts:134-155 | the login never consumes more replies than the script holds |
| Dispatcher.GetPostToken | src/index.ts:164-170 | the token fetch never consumes more replies than the script holds; its token is `Replies.PostTokenOf` of the resolved reply |
| Client.GoogleReaderApi.constructor | src/index.ts:29-34 | keeps the credentials, derives the API root `<baseUrl>/reader/api/0`, and starts with no tokens |
| Client.GoogleReaderApi.MakeApiRequest | src/index.ts:36-125 | the result, both token fields afterwards, the replies left and the requests sent are those of `Dispatch` |
| Client.GoogleReaderApi.Acquire | src/index.ts:45-55 | the in-place token pre-fetch follows `Dispatcher.Acquire` |
| Client.GoogleReaderApi.Send | src/index.ts:57-124 | shaping, fetching and decoding, or the 401 branch, follow `Dispatcher.Exchange` |
| Client.GoogleReaderApi.Recover | src/index.ts:91-107 | the in-place refresh of the flagged token, then the deeper retry, follow `Dispatcher.Recover` |
| Client.GoogleReaderApi.ClientLogin | src/index.ts:134-155 | follows `Dispatcher.ClientLogin` |
| Client.GoogleReaderApi.GetPostToken | src/index.ts:164-170 | follows `Dispatcher.GetPostToken` |
| Client.GoogleReaderApi.Call | src/index.ts:179-598 | an endpoint method builds its configuration from the current post token and dispatches it at depth 0 |
| Client.GoogleReaderApi.CheckSubscription | src/index.ts:383-391 | true exactly when the dispatched reply resolves to the string `true` (`Replies.IsSubscribed`); errors pass through |
| Client.GoogleReaderApi.GetStreamItemCount | src/index.ts:485-503 | a reply that resolves to a string is split into count and date; any other value fails as it has no `split`; errors pass through |
| ShapingFacts.DispatchUrlRule | src/index.ts:41-44 | the request goes to `baseURL + url` (the API root by default) cut at the first `?`, and carries exactly the explicit query |
| ShapingFacts.QueryRulesDiffer | src/utils/ajax.ts:33-38 | same address; the helper sends the explicit values then the path's own, the dispatcher only the explicit ones |
| ShapingFacts.DispatchHeaders | src/index.ts:50-63 | `Content-Type` defaults to the form type; the token replaces any caller `Authorization`; every other caller header is kept |
| ShapingFacts.DispatchBodyPolicy | src/index.ts:65-70 | the method defaults to GET; GET and HEAD send no body; JSON-encoded exactly when the effective type is `application/json`, otherwise raw |
| ShapingFacts.LowerCaseGetDiffers | src/index.ts:66-70 | the dispatcher hands a `get` to `fetch` as given, with a body; the helper hands it `GET` without one |
| ShapingFacts.MissingTypeDiffers | src/utils/ajax.ts:43-45 | without a `Content-Type`, a POST's data goes out raw from the dispatcher and JSON-encoded from the helper |
| ShapingFacts.DecodersAgree | src/index.ts:111-124 | the two readers agree exactly on json, `text/` and multipart replies |
| SessionFacts.DepthGuard | src/index.ts:38-40 | past depth 3 a call sends nothing, consumes nothing and leaves both tokens |
| SessionFacts.LoginNeedsNoToken | src/index.ts:45 | the login request fetches no token, is sent first without an added `Authorization`, and on success leaves the session as it was |
| SessionFacts.ReadyGoesFirst | src/index.ts:47-108 | with its tokens present the request is sent first with `GoogleLogin auth=<token>`; a non-401 reply ends the call with no retry and no token change |
| SessionFacts.MissingAuthLogsInFirst | src/index.ts:47-49 | without an auth token (at depth 0 or 1) the first request sent is the login |
| SessionFacts.NoRoomToLogIn | src/index.ts:38-48 | at depth 2 or 3, without an auth token, the nested login hits the guard and nothing is sent |
| SessionFacts.MissingPostTokenFetchedFirst | src/index.ts:52-54 | a POST without a post token sends the `/token` request first, with the auth token |
| SessionFacts.NoRoomForPostToken | src/index.ts:38-54 | at depth 2 or 3, a POST without a post token hits the guard in the nested token fetch and nothing is sent |
| SessionFacts.PostTokenKept | src/index.ts:45-106 | unless a 401 flags a bad post token, a call that needs none (a GET in particular) leaves the post token exactly as it was |
| SessionFacts.PostTokenKeptAcquire | src/index.ts:45-55 | the same for the pre-fetch |
| SessionFacts.PostTokenKeptExchange | src/index.ts:72-108 | the same for the exchange |
| SessionFacts.PostTokenKeptRecover | src/index.ts:101-106 | the same for an auth refresh |
| SessionFacts.PostTokenKeptLogin | src/index.ts:134-155 | the same for a login |
| SessionFacts.AuthTokenKept | src/index.ts:45-106 | an auth token once present is replaced only after a 401 that is not flagged as a bad post token |
| SessionFacts.AuthTokenKeptAcquire | src/index.ts:45-55 | the same for the pre-fetch |
| SessionFacts.AuthTokenKeptExchange | src/index.ts:72-108 | the same for the exchange |
| SessionFacts.AuthTokenKeptRecover | src/index.ts:92-99 | the same for a post-token refresh |
| SessionFacts.AuthTokenKeptPostToken | src/index.ts:164-170 | the same for a token fetch |
| SessionFacts.ReadyAcquire | src/index.ts:45-55 | with its tokens present, the pre-fetch sends nothing and passes the auth token through |
| SessionFacts.ReadyServed | src/index.ts:83-124 | with its tokens present and an ok reply, one request is sent and the reply decoded |
| SessionFacts.LoginServed | src/index.ts:142-148 | an ok reply to the login request is decoded after that one request |
| SessionFacts.LoginGranted | src/index.ts:134-155 | a login whose reply has an `Auth=` line returns that token and leaves the session unchanged |
| SessionFacts.ReadyDispatch | src/index.ts:45-55 | with its tokens present a call is just its exchange |
| SessionFacts.DeniedExchange | src/index.ts:91 | a 401 hands over to the recovery after the one request that drew it |
| SessionFacts.AuthRenewed | src/index.ts:101-106 | an auth refresh logs in and re-issues the call one level deeper with the new token |
| SessionFacts.PostRenewed | src/index.ts:93-99 | a post-token refresh fetches `/token` and re-issues the call one level deeper |
| SessionFacts.AuthRefreshStep | src/index.ts:101-106 | a plain 401 is followed by the login and then the same configuration one level deeper with the new auth token |
| SessionFacts.PostRefreshStep | src/index.ts:92-99 | a flagged 401 is followed by the token fetch and then the same configuration one level deeper |
| SessionFacts.StalePostTokenRetry | src/index.ts:92-99 | after a flagged 401 only the post token changes, and the identical request, with its old form, is sent again |
| SessionFacts.AuthRefreshRetry | src/index.ts:101-106 | after a plain 401 only the auth token changes, and the request is re-sent with it |
| SessionFacts.EmptyPostRenewal | src/index.ts:95-98 | an empty renewed post token fails the call but is stored, and counts as missing afterwards |
| SessionFacts.PostRenewalTooDeep | src/index.ts:93-95 | at depth 2 or 3 the post-token refresh hits the guard: nothing is sent and the tokens are kept |
| SessionFacts.FlaggedDenialTooDeep | src/index.ts:91-99 | at depth 2 or 3 a flagged 401 ends the call after the one request that drew it |
| SessionFacts.EmptyAuthRenewal | src/index.ts:101-105 | a login that hands back an empty token fails the call, after the request and the login, with the empty token stored and counting as missing |
| SessionFacts.FormPostBody | src/index.ts:57-70 | a form POST goes out as POST with the form type and its fields unchanged |
| SessionFacts.FreshSessionAcquires | src/index.ts:47-54 | a fresh session's first POST logs in, then fetches the post token with the new auth token |
| SessionFacts.FreshSessionFirstPost | src/index.ts:327-337 | a fresh session's first quick-add is sent after the login and token fetch, still with `T=undefined` |
| SessionFacts.UnauthorizedRound | src/index.ts:101-106 | one level of a 401 followed by a successful login that hands back the held token |
| SessionFacts.UnauthorizedTwoRounds | src/index.ts:101-106 | two levels of a 401 followed by a successful login that hands back the held token |
| SessionFacts.UnauthorizedFirstRound | src/index.ts:101-106 | the first level of that loop: the session's own token is sent, a non-empty token from the login is stored and carried one level deeper |
| SessionFacts.UnauthorizedLoop | src/index.ts:36-39 | when logins hand back any non-empty token but the target keeps answering 401, the call ends at the depth guard after four attempts, with that token stored; the first attempt carries the session's token, the later ones the new one |
| SessionFacts.LoginLoop | src/index.ts:102 | a login endpoint that keeps answering 401 is re-tried at depth 0 until the server falls silent: one request per reply plus the last |

## Left out

- The real `fetch` and the `Promise.race` against `setTimeout`. The network is a script of replies, and a call that the timer wins is a `NoAnswer` reply. The timeout's length (10000 ms by default) is not modelled.
- Concurrency: two calls racing to acquire a missing token. The model is sequential.
- WHATWG `URL` / `URLSearchParams`: no percent-encoding or decoding, and no URL normalisation. A URL is its address text and a list of pairs. `new URL` throwing on a relative URL, as it does when `baseURL` is empty, is not modelled.
- Payload decoding: `response.json()`, `text()`, `formData()`, `arrayBuffer()`, `blob()`, `JSON.parse`, `JSON.stringify` and `new Date(...)`. A decoded reply records which reader was chosen and the raw body text, and the item count's date is kept as text.
- Dispatcher.GetPostToken: a `/token` reply read as JSON that holds something other than a string keeps its JSON text as the token. The source keeps the value itself. So `0`, `false` and `null` are falsy there but non-empty tokens here, and an object is written as `[object Object]` there rather than as its JSON text.
- `Dispatcher.ClientLogin`: it reads the login reply's body through the reader chosen by its content type. The model reads the `Auth=` line from the raw body whatever the reader.
- `console.error` and `console.warn` logging, including the `await response.text()` on error.
- `importSubscriptions`: a plain wrapper that posts OPML text with a `text/xml` header.
- What four endpoint methods do with the value `makeApiRequest` resolves to:
  - `getUserInfo` (src/index.ts:187) and `getStreamItemIds` (src/index.ts:473) call `JSON.parse` on it. That throws when the reply was already read as JSON into an object.
  - `getSubscriptionList` (src/index.ts:265) and `getTagList` (src/index.ts:536) pick the `subscriptions` or `tags` field out of it.
  - These endpoints appear through `Client.GoogleReaderApi.Call`, which returns the decoded reply before that last step.
- The caller's `headers` object is mutated in place when `Authorization` is written into it. The model writes the header into the request it builds and leaves the configuration as it was. Because every endpoint passes a fresh configuration, nothing else observes the difference.
- Header names are compared case-sensitively, as the map keys of the source objects are.
- `parseInt` handles base ten and ASCII white space only, and `toUpperCase` handles ASCII letters only.
- Dispatcher.Dispatch: its own contract states only that replies are consumed, never created. What a call sends and how the tokens move is stated by the lemmas in `SessionFacts` and by the class methods.
- JavaScript numbers are modelled as integers. Fractions such as 1.5, `NaN` and numbers of 1e21 and more, which JavaScript writes in exponent form, are not modelled. This concerns `itemsPerPage`, `olderThan`, `newerThan`, `timestampUsec` and numeric category ids. `NaN` is falsy, so it would be skipped as an optional field but sent as `NaN` as a category.
- Replies.JsonStringOf: a JSON string literal with an escape sequence is read as no string at all. It should be read as its unescaped text.
- SessionFacts.UnauthorizedLoop: it is stated from depth 0, the depth every endpoint method starts at.
- SessionFacts.MissingAuthLogsInFirst: it is stated for depths 0 and 1. At depths 2 and 3 nothing is sent (`SessionFacts.NoRoomToLogIn`).
- SessionFacts.MissingPostTokenFetchedFirst: it is stated for depths 0 and 1. At depths 2 and 3 nothing is sent (`SessionFacts.NoRoomForPostToken`).
- SessionFacts.PostRenewed: it is stated for depths 0 and 1. At depths 2 and 3 the refresh sends nothing and the call fails at the guard (`SessionFacts.PostRenewalTooDeep`).
- SessionFacts.PostRefreshStep: it is stated for depths 0 and 1. At depths 2 and 3 a flagged 401 ends the call (`SessionFacts.FlaggedDenialTooDeep`).
- SessionFacts.StalePostTokenRetry: it is stated for depths 0 and 1. At depths 2 and 3 there is no retry (`SessionFacts.FlaggedDenialTooDeep`).
- SessionFacts.EmptyPostRenewal: it is stated for depths 0 and 1. At depths 2 and 3 the renewal is never fetched (`SessionFacts.FlaggedDenialTooDeep`).
- SessionFacts.AuthRefreshRetry: it is stated for depths 0 to 2. At depth 3 the retry hits the guard (`SessionFacts.AuthRefreshStep` with `SessionFacts.DepthGuard`).
