/**
 * The endpoint methods of `GoogleReaderApi` (src/index.ts) as mappings from
 * their arguments to a request configuration: the ordered query and form
 * fields each one appends, and the path, method and data it dispatches with.
 * Optional fields are appended only when truthy, so `0` and `""` are left out.
 */
module Forms {
  import opened Wrappers
  import opened Text
  import opened Fetch

  /** `append('T', this.postToken)`: an absent token is written as the text `undefined`. */
  function TokenText(post: Option<string>): string {
    if post.Some? then post.value else "undefined"
  }

  /** The values an optional string field contributes: one when truthy, none otherwise. */
  function TextValues(v: Option<string>): seq<string> {
    if Truthy(v) then [v.value] else []
  }

  /** The values an optional number field contributes: its decimal text unless absent or 0. */
  function NumberValues(v: Option<int>): seq<string> {
    if v.Some? && v.value != 0 then [ShowInt(v.value)] else []
  }

  function OptText(key: string, v: Option<string>): seq<Field> {
    if Truthy(v) then [(key, v.value)] else []
  }

  function OptNumber(key: string, v: Option<int>): seq<Field> {
    if v.Some? && v.value != 0 then [(key, ShowInt(v.value))] else []
  }

  function OptFlag(key: string, v: Option<bool>): seq<Field> {
    if v == Some(true) then [(key, "true")] else []
  }

  /** One `append(key, x)` per element, in order (the `forEach` loops). */
  function Tagged(key: string, values: seq<string>): seq<Field> {
    seq(|values|, i requires 0 <= i < |values| => (key, values[i]))
  }

  lemma {:induction false} GetAllTagged(key: string, values: seq<string>, other: string)
    ensures GetAll(Tagged(key, values), key) == values
    ensures other != key ==> GetAll(Tagged(key, values), other) == []
    decreases |values|
  {
    if values != [] {
      assert Tagged(key, values)[1..] == Tagged(key, values[1..]);
      GetAllTagged(key, values[1..], other);
    }
  }

  lemma GetAllCons(f: Field, rest: seq<Field>, key: string)
    ensures GetAll([f] + rest, key) == (if f.0 == key then [f.1] else []) + GetAll(rest, key)
  {
    assert ([f] + rest)[1..] == rest;
  }

  lemma GetAllOptText(key: string, v: Option<string>, other: string)
    ensures GetAll(OptText(key, v), key) == TextValues(v)
    ensures other != key ==> GetAll(OptText(key, v), other) == []
  {
  }

  lemma GetAllOptNumber(key: string, v: Option<int>, other: string)
    ensures GetAll(OptNumber(key, v), key) == NumberValues(v)
    ensures other != key ==> GetAll(OptNumber(key, v), other) == []
  {
  }

  // ---------------------------------------------------------------- tags

  /** `disableTag` / `renameTag` take a category by numeric id or by label. */
  datatype Category = CategoryId(id: int) | CategoryLabel(name: string)

  function CategoryField(c: Category): Field {
    match c
    case CategoryId(n) => ("s", ShowInt(n))
    case CategoryLabel(t) => ("t", t)
  }

  function DisableTagForm(post: Option<string>, c: Category): seq<Field> {
    [("T", TokenText(post))] + [CategoryField(c)]
  }

  function RenameTagForm(post: Option<string>, c: Category, newLabelName: string): seq<Field> {
    [("T", TokenText(post))] + ([("dest", newLabelName)] + [CategoryField(c)])
  }

  /** A number names the category by `s`, a label by `t`; exactly one of them is sent. */
  lemma DisableTagFormReads(post: Option<string>, c: Category)
    ensures var f := DisableTagForm(post, c);
      && GetAll(f, "T") == [TokenText(post)]
      && GetAll(f, "s") == (if c.CategoryId? then [ShowInt(c.id)] else [])
      && GetAll(f, "t") == (if c.CategoryLabel? then [c.name] else [])
  {
    var t, cat := ("T", TokenText(post)), CategoryField(c);
    GetAllCons(t, [cat], "T");
    GetAllCons(t, [cat], "s");
    GetAllCons(t, [cat], "t");
  }

  /** As for `disableTag`, with the new label sent once as `dest`. */
  lemma RenameTagFormReads(post: Option<string>, c: Category, newLabelName: string)
    ensures var f := RenameTagForm(post, c, newLabelName);
      && GetAll(f, "T") == [TokenText(post)]
      && GetAll(f, "dest") == [newLabelName]
      && GetAll(f, "s") == (if c.CategoryId? then [ShowInt(c.id)] else [])
      && GetAll(f, "t") == (if c.CategoryLabel? then [c.name] else [])
  {
    var t, dest, cat := ("T", TokenText(post)), ("dest", newLabelName), CategoryField(c);
    GetAllCons(t, [dest] + [cat], "T");
    GetAllCons(t, [dest] + [cat], "dest");
    GetAllCons(t, [dest] + [cat], "s");
    GetAllCons(t, [dest] + [cat], "t");
    GetAllCons(dest, [cat], "T");
    GetAllCons(dest, [cat], "dest");
    GetAllCons(dest, [cat], "s");
    GetAllCons(dest, [cat], "t");
  }

  // ---------------------------------------------------------- subscriptions

  /** `EditSubscriptionData`, one constructor per `action`. */
  datatype EditSubscriptionData =
    | Subscribe(streamId: string, title: Option<string>, categoryId: Option<string>)
    | Edit(streamId: string, title: Option<string>, categoryId: Option<string>, addCategory: Option<bool>)
    | Unsubscribe(streamId: string)

  function ActionName(d: EditSubscriptionData): string {
    match d
    case Subscribe(_, _, _) => "subscribe"
    case Edit(_, _, _, _) => "edit"
    case Unsubscribe(_) => "unsubscribe"
  }

  /** The fields after `ac`, `s` and `T`: they depend on the action. */
  function EditSubscriptionExtras(d: EditSubscriptionData): seq<Field> {
    match d
    case Subscribe(_, title, categoryId) => OptText("t", title) + OptText("a", categoryId)
    case Edit(_, title, categoryId, addCategory) =>
      OptText("t", title) + OptText(if addCategory.GetOr(true) then "a" else "r", categoryId)
    case Unsubscribe(_) => []
  }

  function EditSubscriptionForm(post: Option<string>, d: EditSubscriptionData): seq<Field> {
    [("ac", ActionName(d))] + ([("s", d.streamId)] + ([("T", TokenText(post))] + EditSubscriptionExtras(d)))
  }

  lemma EditSubscriptionExtrasRead(d: EditSubscriptionData, key: string)
    ensures GetAll(EditSubscriptionExtras(d), key) ==
      if key == "t" then (if d.Unsubscribe? then [] else TextValues(d.title))
      else if key == "a" then
        (if d.Subscribe? || (d.Edit? && d.addCategory != Some(false)) then TextValues(d.categoryId) else [])
      else if key == "r" then (if d.Edit? && d.addCategory == Some(false) then TextValues(d.categoryId) else [])
      else []
  {
    match d
    case Subscribe(_, title, categoryId) =>
      GetAllAppend(OptText("t", title), OptText("a", categoryId), key);
      GetAllOptText("t", title, key);
      GetAllOptText("a", categoryId, key);
    case Edit(_, title, categoryId, addCategory) =>
      var k := if addCategory.GetOr(true) then "a" else "r";
      GetAllAppend(OptText("t", title), OptText(k, categoryId), key);
      GetAllOptText("t", title, key);
      GetAllOptText(k, categoryId, key);
    case Unsubscribe(_) =>
  }

  lemma EditSubscriptionFormRead(post: Option<string>, d: EditSubscriptionData, key: string)
    ensures GetAll(EditSubscriptionForm(post, d), key) ==
      (if key == "ac" then [ActionName(d)] else []) + (if key == "s" then [d.streamId] else []) +
      (if key == "T" then [TokenText(post)] else []) + GetAll(EditSubscriptionExtras(d), key)
  {
    var ac, st, t := ("ac", ActionName(d)), ("s", d.streamId), ("T", TokenText(post));
    var extras := EditSubscriptionExtras(d);
    var r2 := [t] + extras;
    var r1 := [st] + r2;
    GetAllCons(ac, r1, key);
    GetAllCons(st, r2, key);
    GetAllCons(t, extras, key);
  }

  /** An edit-subscription form opens with the action, the stream and the token, each sent once. */
  lemma EditSubscriptionFormHead(post: Option<string>, d: EditSubscriptionData)
    ensures var f := EditSubscriptionForm(post, d);
      && f[..3] == [("ac", ActionName(d)), ("s", d.streamId), ("T", TokenText(post))]
      && GetAll(f, "ac") == [ActionName(d)]
      && GetAll(f, "s") == [d.streamId]
      && GetAll(f, "T") == [TokenText(post)]
  {
    EditSubscriptionFormRead(post, d, "ac");
    EditSubscriptionExtrasRead(d, "ac");
    EditSubscriptionFormRead(post, d, "s");
    EditSubscriptionExtrasRead(d, "s");
    EditSubscriptionFormRead(post, d, "T");
    EditSubscriptionExtrasRead(d, "T");
  }

  /**
   * What the server reads from the rest of an edit-subscription form: a title only
   * for subscribe/edit when truthy; a truthy category is added (`a`) on subscribe,
   * and on edit added unless `addCategory` is false, in which case it is removed (`r`).
   */
  lemma EditSubscriptionFormReads(post: Option<string>, d: EditSubscriptionData)
    ensures var f := EditSubscriptionForm(post, d);
      && GetAll(f, "t") == (if d.Unsubscribe? then [] else TextValues(d.title))
      && GetAll(f, "a") ==
           (if d.Subscribe? || (d.Edit? && d.addCategory != Some(false)) then TextValues(d.categoryId) else [])
      && GetAll(f, "r") == (if d.Edit? && d.addCategory == Some(false) then TextValues(d.categoryId) else [])
  {
    EditSubscriptionFormRead(post, d, "t");
    EditSubscriptionExtrasRead(d, "t");
    EditSubscriptionFormRead(post, d, "a");
    EditSubscriptionExtrasRead(d, "a");
    EditSubscriptionFormRead(post, d, "r");
    EditSubscriptionExtrasRead(d, "r");
  }

  function QuickAddForm(post: Option<string>, feedUrl: string): seq<Field> {
    [("quickadd", feedUrl)] + [("T", TokenText(post))]
  }

  /** The feed URL and the token, each sent once. */
  lemma QuickAddFormReads(post: Option<string>, feedUrl: string)
    ensures var f := QuickAddForm(post, feedUrl);
      && GetAll(f, "quickadd") == [feedUrl]
      && GetAll(f, "T") == [TokenText(post)]
  {
    var t := ("T", TokenText(post));
    GetAllCons(("quickadd", feedUrl), [t], "quickadd");
    GetAllCons(("quickadd", feedUrl), [t], "T");
    GetAllCons(t, [], "quickadd");
    GetAllCons(t, [], "T");
  }

  // ---------------------------------------------------------------- streams

  /** The paging and filtering options shared by stream contents and stream item ids. */
  datatype Paging = Paging(
    itemsPerPage: Option<int>,
    continuation: Option<string>,
    excludeStreamId: Option<string>,
    includeStreamId: Option<string>,
    olderThan: Option<int>,
    newerThan: Option<int>)

  function PagingQuery(p: Paging): seq<Field> {
    OptNumber("n", p.itemsPerPage) + OptText("c", p.continuation) +
    OptText("xt", p.excludeStreamId) + OptText("it", p.includeStreamId) +
    OptNumber("ot", p.olderThan) + OptNumber("nt", p.newerThan)
  }

  /** What the server reads from the paging part of a stream query, key by key. */
  lemma PagingQueryReads(p: Paging, key: string)
    ensures GetAll(PagingQuery(p), key) ==
      if key == "n" then NumberValues(p.itemsPerPage)
      else if key == "c" then TextValues(p.continuation)
      else if key == "xt" then TextValues(p.excludeStreamId)
      else if key == "it" then TextValues(p.includeStreamId)
      else if key == "ot" then NumberValues(p.olderThan)
      else if key == "nt" then NumberValues(p.newerThan)
      else []
  {
    var a := OptNumber("n", p.itemsPerPage);
    var b := OptText("c", p.continuation);
    var c := OptText("xt", p.excludeStreamId);
    var d := OptText("it", p.includeStreamId);
    var e := OptNumber("ot", p.olderThan);
    var f := OptNumber("nt", p.newerThan);
    GetAllAppend(a, b, key);
    GetAllAppend(a + b, c, key);
    GetAllAppend(a + b + c, d, key);
    GetAllAppend(a + b + c + d, e, key);
    GetAllAppend(a + b + c + d + e, f, key);
    GetAllOptNumber("n", p.itemsPerPage, key);
    GetAllOptText("c", p.continuation, key);
    GetAllOptText("xt", p.excludeStreamId, key);
    GetAllOptText("it", p.includeStreamId, key);
    GetAllOptNumber("ot", p.olderThan, key);
    GetAllOptNumber("nt", p.newerThan, key);
  }

  datatype StreamContentsData = StreamContentsData(streamId: string, sortCriteria: Option<string>, paging: Paging)

  function StreamContentsQuery(d: StreamContentsData): seq<Field> {
    [("output", "json")] + OptText("r", d.sortCriteria) + PagingQuery(d.paging)
  }

  /** `output=json` comes first; `r` only when truthy; the paging keys as above; nothing else. */
  lemma StreamContentsQueryReads(d: StreamContentsData, key: string)
    ensures StreamContentsQuery(d)[0] == ("output", "json")
    ensures GetAll(StreamContentsQuery(d), key) ==
      if key == "output" then ["json"]
      else if key == "r" then TextValues(d.sortCriteria)
      else GetAll(PagingQuery(d.paging), key)
  {
    var head := [("output", "json")] + OptText("r", d.sortCriteria);
    GetAllAppend(head, PagingQuery(d.paging), key);
    GetAllAppend([("output", "json")], OptText("r", d.sortCriteria), key);
    PagingQueryReads(d.paging, key);
  }

  /** `StreamItemIdsData`: the stream contents options without `sortCriteria`, plus one flag. */
  datatype StreamItemIdsData = StreamItemIdsData(streamId: string, includeAllDirectStreamIds: Option<bool>, paging: Paging)

  function StreamItemIdsQuery(d: StreamItemIdsData): seq<Field> {
    [("output", "json"), ("s", d.streamId)] + OptFlag("includeAllDirectStreamIds", d.includeAllDirectStreamIds) +
    PagingQuery(d.paging)
  }

  lemma StreamItemIdsQueryReads(d: StreamItemIdsData, key: string)
    ensures StreamItemIdsQuery(d)[..2] == [("output", "json"), ("s", d.streamId)]
    ensures GetAll(StreamItemIdsQuery(d), key) ==
      if key == "output" then ["json"]
      else if key == "s" then [d.streamId]
      else if key == "includeAllDirectStreamIds" then (if d.includeAllDirectStreamIds == Some(true) then ["true"] else [])
      else GetAll(PagingQuery(d.paging), key)
  {
    var head := [("output", "json"), ("s", d.streamId)];
    var flag := OptFlag("includeAllDirectStreamIds", d.includeAllDirectStreamIds);
    GetAllAppend(head + flag, PagingQuery(d.paging), key);
    GetAllAppend(head, flag, key);
    PagingQueryReads(d.paging, key);
  }

  datatype StreamItemCountData = StreamItemCountData(streamId: string, includeLatestDate: Option<bool>)

  function StreamItemCountQuery(d: StreamItemCountData): seq<Field> {
    [("s", d.streamId)] + OptFlag("a", d.includeLatestDate)
  }

  /** The stream is sent once; `a=true` only when the latest date is asked for. */
  lemma StreamItemCountQueryReads(d: StreamItemCountData)
    ensures var q := StreamItemCountQuery(d);
      && GetAll(q, "s") == [d.streamId]
      && GetAll(q, "a") == (if d.includeLatestDate == Some(true) then ["true"] else [])
  {
    var flag := OptFlag("a", d.includeLatestDate);
    GetAllCons(("s", d.streamId), flag, "s");
    GetAllCons(("s", d.streamId), flag, "a");
  }

  function StreamItemContentsForm(post: Option<string>, itemIds: seq<string>): seq<Field> {
    [("T", TokenText(post)), ("output", "json")] + Tagged("i", itemIds)
  }

  /** The body of `getStreamItemContents`, built by appending one `i` per item id. */
  method BuildStreamItemContentsForm(post: Option<string>, itemIds: seq<string>) returns (form: seq<Field>)
    ensures form == StreamItemContentsForm(post, itemIds)
  {
    form := [("T", TokenText(post)), ("output", "json")];
    for n := 0 to |itemIds|
      invariant form == [("T", TokenText(post)), ("output", "json")] + Tagged("i", itemIds[..n])
    {
      assert Tagged("i", itemIds[..n + 1]) == Tagged("i", itemIds[..n]) + [("i", itemIds[n])];
      form := form + [("i", itemIds[n])];
    }
    assert itemIds[..|itemIds|] == itemIds;
  }

  /** The server reads back every requested item id, in order, with the token and `output=json`. */
  lemma StreamItemContentsFormReads(post: Option<string>, itemIds: seq<string>)
    ensures var f := StreamItemContentsForm(post, itemIds);
      && GetAll(f, "i") == itemIds
      && GetAll(f, "T") == [TokenText(post)]
      && GetAll(f, "output") == ["json"]
  {
    var head := [("T", TokenText(post)), ("output", "json")];
    GetAllAppend(head, Tagged("i", itemIds), "i");
    GetAllAppend(head, Tagged("i", itemIds), "T");
    GetAllAppend(head, Tagged("i", itemIds), "output");
    GetAllTagged("i", itemIds, "T");
    GetAllTagged("i", itemIds, "output");
  }

  // ------------------------------------------------------------ item tags

  /** `EditTagData`; an absent list is written as the empty one (`?.forEach` does nothing). */
  datatype EditTagData = EditTagData(editIds: seq<string>, addIds: seq<string>, removeIds: seq<string>)

  function EditTagForm(d: EditTagData): seq<Field> {
    Tagged("i", d.editIds) + Tagged("a", d.addIds) + Tagged("r", d.removeIds)
  }

  /** The body of `editTag`: three `forEach` loops appending `i`, then `a`, then `r`. */
  method BuildEditTagForm(d: EditTagData) returns (form: seq<Field>)
    ensures form == EditTagForm(d)
  {
    form := [];
    for n := 0 to |d.editIds|
      invariant form == Tagged("i", d.editIds[..n])
    {
      assert Tagged("i", d.editIds[..n + 1]) == Tagged("i", d.editIds[..n]) + [("i", d.editIds[n])];
      form := form + [("i", d.editIds[n])];
    }
    assert d.editIds[..|d.editIds|] == d.editIds;
    ghost var edits := form;
    for n := 0 to |d.addIds|
      invariant form == edits + Tagged("a", d.addIds[..n])
    {
      assert Tagged("a", d.addIds[..n + 1]) == Tagged("a", d.addIds[..n]) + [("a", d.addIds[n])];
      form := form + [("a", d.addIds[n])];
    }
    assert d.addIds[..|d.addIds|] == d.addIds;
    ghost var adds := form;
    for n := 0 to |d.removeIds|
      invariant form == adds + Tagged("r", d.removeIds[..n])
    {
      assert Tagged("r", d.removeIds[..n + 1]) == Tagged("r", d.removeIds[..n]) + [("r", d.removeIds[n])];
      form := form + [("r", d.removeIds[n])];
    }
    assert d.removeIds[..|d.removeIds|] == d.removeIds;
  }

  /** The server reads back exactly the items, the tags to add and the tags to remove; no token is sent. */
  lemma EditTagFormReads(d: EditTagData)
    ensures var f := EditTagForm(d);
      && GetAll(f, "i") == d.editIds
      && GetAll(f, "a") == d.addIds
      && GetAll(f, "r") == d.removeIds
      && GetAll(f, "T") == []
  {
    var i, a, r := Tagged("i", d.editIds), Tagged("a", d.addIds), Tagged("r", d.removeIds);
    forall k | k in {"i", "a", "r", "T"} ensures GetAll(i + a + r, k) == GetAll(i, k) + GetAll(a, k) + GetAll(r, k) {
      GetAllAppend(i + a, r, k);
      GetAllAppend(i, a, k);
    }
    forall k | k in {"a", "r", "T"} ensures GetAll(i, k) == [] { GetAllTagged("i", d.editIds, k); }
    forall k | k in {"i", "r", "T"} ensures GetAll(a, k) == [] { GetAllTagged("a", d.addIds, k); }
    forall k | k in {"i", "a", "T"} ensures GetAll(r, k) == [] { GetAllTagged("r", d.removeIds, k); }
    GetAllTagged("i", d.editIds, "T");
    GetAllTagged("a", d.addIds, "T");
    GetAllTagged("r", d.removeIds, "T");
  }

  datatype MarkAllAsReadData = MarkAllAsReadData(streamId: string, timestampUsec: Option<int>)

  function MarkAllAsReadForm(d: MarkAllAsReadData): seq<Field> {
    [("s", d.streamId)] + OptNumber("ts", d.timestampUsec)
  }

  /** The stream is sent once; the timestamp only when present and not 0; no token is sent. */
  lemma MarkAllAsReadFormReads(d: MarkAllAsReadData)
    ensures var f := MarkAllAsReadForm(d);
      && GetAll(f, "s") == [d.streamId]
      && GetAll(f, "ts") == NumberValues(d.timestampUsec)
      && GetAll(f, "T") == []
  {
    var ts := OptNumber("ts", d.timestampUsec);
    GetAllCons(("s", d.streamId), ts, "s");
    GetAllCons(("s", d.streamId), ts, "ts");
    GetAllCons(("s", d.streamId), ts, "T");
    GetAllOptNumber("ts", d.timestampUsec, "s");
    GetAllOptNumber("ts", d.timestampUsec, "ts");
    GetAllOptNumber("ts", d.timestampUsec, "T");
  }

  // ------------------------------------------------------------- endpoints

  /** The public operations of `GoogleReaderApi` that go through the dispatcher, with their arguments. */
  datatype Endpoint =
    | GetUserInfo
    | GetUnreadCounts
    | DisableTag(category: Category)
    | RenameTag(category: Category, newLabelName: string)
    | GetSubscriptionList
    | EditSubscription(data: EditSubscriptionData)
    | QuickAddSubscription(feedUrl: string)
    | ExportSubscriptions
    | CheckSubscription(streamId: string)
    | GetStreamContents(contents: StreamContentsData)
    | GetStreamItemIds(ids: StreamItemIdsData)
    | GetStreamItemCount(count: StreamItemCountData)
    | GetStreamItemContents(itemIds: seq<string>)
    | GetTagList
    | EditTag(tags: EditTagData)
    | MarkAllAsRead(mark: MarkAllAsReadData)

  function GetConfig(url: string, query: seq<Field>): AjaxConfig {
    AjaxConfig(url, query, EmptyObject, Some("GET"), map[], None)
  }

  function PostConfig(url: string, form: seq<Field>): AjaxConfig {
    AjaxConfig(url, [], Form(form), Some("POST"), map[], None)
  }

  /** The configuration each endpoint method hands to the dispatcher, given the session's post token at that moment. */
  function EndpointConfig(ep: Endpoint, post: Option<string>): AjaxConfig {
    match ep
    case GetUserInfo => GetConfig("/user-info", [("output", "json")])
    case GetUnreadCounts => GetConfig("/unread-count", [("output", "json")])
    case DisableTag(c) => PostConfig("/disable-tag", DisableTagForm(post, c))
    case RenameTag(c, name) => PostConfig("/rename-tag", RenameTagForm(post, c, name))
    case GetSubscriptionList => GetConfig("/subscription/list", [("output", "json")])
    case EditSubscription(d) => PostConfig("/subscription/edit", EditSubscriptionForm(post, d))
    case QuickAddSubscription(feedUrl) => PostConfig("/subscription/quickadd", QuickAddForm(post, feedUrl))
    case ExportSubscriptions => AjaxConfig("/subscription/export", [], EmptyObject, None, map[], None)
    case CheckSubscription(s) => AjaxConfig("/subscribed", [("s", s)], EmptyObject, None, map[], None)
    case GetStreamContents(d) => GetConfig("/stream/contents/" + d.streamId, StreamContentsQuery(d))
    case GetStreamItemIds(d) => GetConfig("/stream/items/ids", StreamItemIdsQuery(d))
    case GetStreamItemCount(d) => GetConfig("/stream/items/count", StreamItemCountQuery(d))
    case GetStreamItemContents(ids) => PostConfig("/stream/items/contents", StreamItemContentsForm(post, ids))
    case GetTagList => GetConfig("/tag/list", [("output", "json")])
    case EditTag(d) => PostConfig("/edit-tag", EditTagForm(d))
    case MarkAllAsRead(d) => PostConfig("/mark-all-as-read", MarkAllAsReadForm(d))
  }

  /** The endpoints whose form carries the post token as `T`. */
  predicate CarriesToken(ep: Endpoint) {
    ep.DisableTag? || ep.RenameTag? || ep.EditSubscription? || ep.QuickAddSubscription? || ep.GetStreamItemContents?
  }

  /**
   * The seven form posts are exactly the POSTs; every other endpoint is a GET (given
   * or by default) with an empty body. None sets headers or a base URL of its own.
   */
  lemma EndpointShape(ep: Endpoint, post: Option<string>)
    ensures var cfg := EndpointConfig(ep, post);
      && (cfg.data.Form? <==> cfg.httpMethod == Some("POST"))
      && (!cfg.data.Form? ==> cfg.data == EmptyObject && cfg.httpMethod.GetOr("GET") == "GET")
      && cfg.baseURL == None && cfg.headers == map[]
  {
  }

  /**
   * The five forms that carry `T` copy the session's post token as it is when the
   * form is built (the text `undefined` before any was fetched), once.
   */
  lemma EndpointToken(ep: Endpoint, post: Option<string>)
    requires CarriesToken(ep)
    ensures GetAll(EndpointConfig(ep, post).data.fields, "T") == [TokenText(post)]
  {
    match ep
    case DisableTag(c) => DisableTagFormReads(post, c);
    case RenameTag(c, name) => RenameTagFormReads(post, c, name);
    case EditSubscription(d) => EditSubscriptionFormHead(post, d);
    case GetStreamItemContents(ids) => StreamItemContentsFormReads(post, ids);
    case QuickAddSubscription(feedUrl) => GetAllCons(("quickadd", feedUrl), [("T", TokenText(post))], "T");
  }

  /** `editTag` and `markAllAsRead` post forms without a token. */
  lemma EndpointNoToken(ep: Endpoint, post: Option<string>)
    requires ep.EditTag? || ep.MarkAllAsRead?
    ensures EndpointConfig(ep, post).data.Form?
    ensures GetAll(EndpointConfig(ep, post).data.fields, "T") == []
  {
    match ep
    case EditTag(d) => EditTagFormReads(d);
    case MarkAllAsRead(d) => GetAllCons(("s", d.streamId), OptNumber("ts", d.timestampUsec), "T");
  }
}
