/**
 * The plugin host (`figma-plugin/code.js`): a session of `apiKey`, `userData`
 * and `config` held in module variables, the two client-storage slots it
 * persists to, and one handler per UI message. Each handler checks a guard on
 * the session, makes at most one backend request whose outcome is an input,
 * and posts a typed reply.
 *
 * The pure functions below give each handler's effect on a `State`; the class
 * `Host` performs the same handlers by assigning its fields, and each of its
 * methods is proved to agree with the function.
 */
module PluginHost {
  import opened Wrappers
  import opened Js
  import opened Bridge
  import Uri
  import Text

  /** The session and the persisted storage (`debtrix_api_key`, `debtrix_config`). */
  datatype State = State(
    apiKey: Option<string>, userData: Value, config: Option<Config>,
    storedKey: Option<string>, storedConfig: Option<Config>, closed: bool)

  /** A handler's effect: the new state, the replies posted and the requests sent, in order. */
  datatype Step = Step(state: State, replies: seq<Reply>, requests: seq<Request>)

  /** A string slot that is truthy. */
  predicate Present(k: Option<string>) {
    k.Some? && k.value != ""
  }

  /** `apiKey && config` */
  predicate Connected(s: State) {
    Present(s.apiKey) && s.config.Some?
  }

  /** `apiKey && userData && config` */
  predicate SignedIn(s: State) {
    Connected(s) && Truthy(s.userData)
  }

  /** The state before storage has been read. */
  function Initial(storedKey: Option<string>, storedConfig: Option<Config>): State {
    State(None, Null, None, storedKey, storedConfig, false)
  }

  const NoUser := "Invalid API key - no user found"

  /** The error a settled fetch reports when it gave no body: the status line, or the rejection. */
  function FailureText(resp: Response, fallback: string): string
    requires !resp.Ok?
  {
    match resp
    case NotOk(status, text) => "HTTP " + DecimalText(status) + ": " + text
    case Rejected(m) => Reason(m, fallback)
  }

  /** The outcome of a read: the parsed body, or the failure text. */
  function Loaded(resp: Response, fallback: string): Result<Value> {
    if resp.Ok? then Success(resp.body) else Failure(FailureText(resp, fallback))
  }

  /** The outcome of a write that returns the row: its first element if the body is an array. */
  function Returned(resp: Response, fallback: string): Result<Value> {
    if resp.Ok? then Success(Unwrap(resp.body)) else Failure(FailureText(resp, fallback))
  }

  /** `nodeId.replace(/:/g, '-')` */
  function Dashed(id: string): (r: string)
    ensures |r| == |id| && ':' !in r
    ensures forall i :: 0 <= i < |id| && id[i] != ':' ==> r[i] == id[i]
  {
    if id == [] then ""
    else [if id[0] == ':' then '-' else id[0]] + Dashed(id[1..])
  }

  /** The link to the file, and to its first selected node when there is one. */
  function DeepLink(fileKey: Option<string>, fileName: string, selection: seq<Node>): string {
    FileUrlPrefix + KeyText(fileKey) + "/" + Uri.EncodeComponent(fileName)
    + (if |selection| > 0 then NodeQuery(selection[0].id) else "")
  }

  /** The query that points the link at a node and its viewport. */
  function NodeQuery(nodeId: string): (q: string)
    ensures q != [] && q[0] == '?'
  {
    "?node-id=" + Uri.EncodeComponent(Dashed(nodeId)) + "&viewport=" + Uri.EncodeComponent("0,0,1,1")
  }

  /** `getFigmaContextData()`: it never fails, falling back to placeholders when the document cannot be read. */
  function ContextOf(doc: Document): (c: Context)
    ensures c.selectedNodes == |c.selectedNodeNames|
    ensures doc.view.Readable? ==>
      && c.url == DeepLink(doc.fileKey, doc.view.fileName, doc.view.selection)
      && c.pageName == doc.view.pageName && c.fileName == doc.view.fileName
      && c.selectedNodes == |doc.view.selection|
      && forall i :: 0 <= i < c.selectedNodes ==> c.selectedNodeNames[i] == doc.view.selection[i].name
  {
    match doc.view
    case Readable(page, file, sel) =>
      Context(DeepLink(doc.fileKey, file, sel), page, file, |sel|, seq(|sel|, i requires 0 <= i < |sel| => sel[i].name))
    case Unreadable(_) =>
      Context(FileUrlPrefix + KeyText(doc.fileKey), "Unknown", "Unknown", 0, [])
  }

  /** The row `createUXDebt` posts. */
  function CreatePayload(projectId: Value, debtData: Value, user: Value, ctx: Context): map<string, Value> {
    map[
      "title" := Field(debtData, "title"),
      "type" := Field(debtData, "type"),
      "severity" := Field(debtData, "severity"),
      "description" := Field(debtData, "description"),
      "recommendation" := Field(debtData, "recommendation"),
      "project_id" := projectId,
      "logged_by" := Field(user, "full_name"),
      "figma_url" := Str(ctx.url),
      "screen" := Or(Field(debtData, "screen"), Str(ctx.pageName)),
      "status" := Str("Open")]
  }

  // ---- one function per handler ----

  /** `loadStoredData()` at start-up. */
  function Startup(s: State): Step {
    var s1 := if s.storedConfig.Some? then s.(config := s.storedConfig) else s;
    var both := Present(s.storedKey) && s.storedConfig.Some?;
    Step(
      if both then s1.(apiKey := s.storedKey) else s1,
      (if s.storedConfig.Some? then [ConfigLoaded(s.storedConfig)] else [])
      + (if both then [ApiKeyLoaded(s.storedKey.value)] else []),
      [])
  }

  function HandleLoadConfig(s: State): Step {
    Step(s, [ConfigLoaded(s.storedConfig)], [])
  }

  function HandleSaveConfig(s: State, config: Option<Config>): Step {
    Step(s.(config := config, storedConfig := config), [], [])
  }

  /** `verifyApiKey(key)` */
  function Verify(s: State, key: string, resp: Response): Step {
    if s.config.None? then
      Step(s, [ApiKeyVerified(Failure("Configuration not found"))], [])
    else
      var cfg := s.config.value;
      var req := Request(Get, cfg.apiBaseUrl + ProfilesPath, Headers(cfg.anonKey, key), None);
      if !resp.Ok? then
        Step(s, [ApiKeyVerified(Failure(FailureText(resp, "Failed to verify API key")))], [req])
      else if !Truthy(resp.body) || Length(resp.body) == Num(0) then
        Step(s, [ApiKeyVerified(Failure(NoUser))], [req])
      else
        var user := First(resp.body);
        Step(s.(apiKey := Some(key), userData := user, storedKey := Some(key)),
             [ApiKeyVerified(Success(user))], [req])
  }

  /** The `verify-api-key` case: the message's endpoint replaces the configuration first. */
  function VerifyMessage(s: State, key: string, apiBaseUrl: string, anonKey: string, resp: Response): Step {
    Verify(s.(config := Some(Config(apiBaseUrl, anonKey))), key, resp)
  }

  function HandleGetProjects(s: State, resp: Response): Step {
    if !SignedIn(s) then
      Step(s, [ProjectsLoaded(Failure("Not authenticated or configured"))], [])
    else
      var cfg := s.config.value;
      var req := Request(Get, ProjectsUrl(cfg.apiBaseUrl, Field(s.userData, "id")), Headers(cfg.anonKey, s.apiKey.value), None);
      Step(s, [ProjectsLoaded(Loaded(resp, "Failed to fetch projects"))], [req])
  }

  function HandleGetUxDebts(s: State, projectId: Value, resp: Response): Step {
    if !Connected(s) then
      Step(s, [UxDebtsLoaded(Failure("Not authenticated"), None)], [])
    else
      var cfg := s.config.value;
      var req := Request(Get, DebtsUrl(cfg.apiBaseUrl, projectId), Headers(cfg.anonKey, s.apiKey.value), None);
      var out := Loaded(resp, "Failed to fetch UX debts");
      Step(s, [UxDebtsLoaded(out, if out.Success? then Some(projectId) else None)], [req])
  }

  /**
   * `createUXDebt`. When `debtData` is null or undefined the callback that
   * reads it throws inside a promise nobody catches, so nothing is sent or posted.
   */
  function HandleCreateUxDebt(s: State, projectId: Value, debtData: Value, doc: Document, resp: Response): Step {
    if !SignedIn(s) then
      Step(s, [UxDebtCreated(Failure("Not authenticated"))], [])
    else if IsNullish(debtData) then
      Step(s, [], [])
    else
      var cfg := s.config.value;
      var payload := CreatePayload(projectId, debtData, s.userData, ContextOf(doc));
      var req := Request(Post, cfg.apiBaseUrl + DebtsPath, ReturningHeaders(cfg.anonKey, s.apiKey.value), Some(Obj(payload)));
      Step(s, [UxDebtCreated(Returned(resp, "Failed to create UX debt"))], [req])
  }

  function HandleUpdateUxDebt(s: State, debtId: Value, debtData: Value, resp: Response): Step {
    if !SignedIn(s) then
      Step(s, [UxDebtUpdated(Failure("Not authenticated"))], [])
    else
      var cfg := s.config.value;
      var req := Request(Patch, DebtUrl(cfg.apiBaseUrl, debtId), ReturningHeaders(cfg.anonKey, s.apiKey.value), Some(debtData));
      Step(s, [UxDebtUpdated(Returned(resp, "Failed to update UX debt"))], [req])
  }

  function HandleDeleteUxDebt(s: State, debtId: Value, resp: Response): Step {
    if !Connected(s) then
      Step(s, [UxDebtDeleted(Failure("Not authenticated"))], [])
    else
      var cfg := s.config.value;
      var req := Request(Delete, DebtUrl(cfg.apiBaseUrl, debtId), Headers(cfg.anonKey, s.apiKey.value), None);
      Step(s, [UxDebtDeleted(if resp.Ok? then Success(()) else Failure(FailureText(resp, "Failed to delete UX debt")))], [req])
  }

  function HandleGetFigmaContext(s: State, doc: Document): Step {
    Step(s, [FigmaContext(ContextOf(doc))], [])
  }

  /** `logout` forgets the key and the user; the configuration, live and stored, stays. */
  function HandleLogout(s: State): Step {
    Step(s.(apiKey := None, userData := Null, storedKey := None), [], [])
  }

  function HandleClosePlugin(s: State): Step {
    Step(s.(closed := true), [], [])
  }

  /** `figma.ui.onmessage`: `resp` is the outcome of the request the handler makes, if it makes one. */
  function Dispatch(s: State, msg: Message, resp: Response, doc: Document): Step {
    match msg
    case LoadConfig => HandleLoadConfig(s)
    case SaveConfig(c) => HandleSaveConfig(s, c)
    case VerifyApiKey(key, base, anon) => VerifyMessage(s, key, base, anon, resp)
    case GetProjects => HandleGetProjects(s, resp)
    case GetUxDebts(pid) => HandleGetUxDebts(s, pid, resp)
    case CreateUxDebt(pid, data) => HandleCreateUxDebt(s, pid, data, doc, resp)
    case UpdateUxDebt(_, did, data) => HandleUpdateUxDebt(s, did, data, resp)
    case DeleteUxDebt(_, did) => HandleDeleteUxDebt(s, did, resp)
    case GetFigmaContext => HandleGetFigmaContext(s, doc)
    case Logout => HandleLogout(s)
    case ClosePlugin => HandleClosePlugin(s)
    case Other(_) => Step(s, [], [])
  }

  /** The messages that reach the backend, and the guard each one needs. */
  predicate Guarded(msg: Message, s: State) {
    match msg
    case GetProjects => SignedIn(s)
    case CreateUxDebt(_, _) => SignedIn(s)
    case UpdateUxDebt(_, _, _) => SignedIn(s)
    case GetUxDebts(_) => Connected(s)
    case DeleteUxDebt(_, _) => Connected(s)
    case _ => true
  }

  predicate IsBackendCall(msg: Message) {
    msg.GetProjects? || msg.CreateUxDebt? || msg.UpdateUxDebt? || msg.GetUxDebts? || msg.DeleteUxDebt?
  }

  // ---- properties ----

  /** Without a configuration, verification answers at once: no request, no state change. */
  lemma VerifyWithoutConfig(s: State, key: string, resp: Response)
    requires s.config.None?
    ensures Verify(s, key, resp) == Step(s, [ApiKeyVerified(Failure("Configuration not found"))], [])
  {
  }

  /**
   * A `verify-api-key` message always installs the endpoint it carries and
   * always queries the profiles of that endpoint with the offered key, so its
   * reply is never the missing-configuration one unless a rejected fetch
   * happens to carry that text.
   */
  lemma VerifyMessageConfigures(s: State, key: string, base: string, anon: string, resp: Response, doc: Document)
    ensures var r := Dispatch(s, VerifyApiKey(key, base, anon), resp, doc);
      && r.state.config == Some(Config(base, anon))
      && r.requests == [Request(Get, base + ProfilesPath, Headers(anon, key), None)]
      && |r.replies| == 1 && r.replies[0].ApiKeyVerified?
      && (!resp.Rejected? ==> r.replies[0].user != Failure("Configuration not found"))
  {
    var r := Dispatch(s, VerifyApiKey(key, base, anon), resp, doc);
    if resp.NotOk? {
      assert r.replies[0].user.error[0] == 'H';
    }
  }

  /**
   * The three outcomes of a verification: a non-empty profile list signs the
   * user in with its first row and persists the key; an empty one, or a
   * failed request, leaves the state as it was.
   */
  lemma VerifyOutcomes(s: State, key: string, resp: Response)
    requires s.config.Some?
    ensures var r := Verify(s, key, resp);
      && |r.replies| == 1 && r.replies[0].ApiKeyVerified?
      && (r.replies[0].user.Success? <==> resp.Ok? && Truthy(resp.body) && Length(resp.body) != Num(0))
      && (r.replies[0].user.Success? ==>
            r.state == s.(apiKey := Some(key), userData := First(resp.body), storedKey := Some(key))
            && r.replies[0].user.value == First(resp.body))
      && (!r.replies[0].user.Success? ==> r.state == s)
      && (resp.Ok? && Length(resp.body) == Num(0) ==> r.replies[0].user == Failure(NoUser))
      && (resp.NotOk? ==> r.replies[0].user == Failure("HTTP " + DecimalText(resp.status) + ": " + resp.text))
  {
  }

  /**
   * A backend message whose guard fails posts one failure reply of its own
   * type, sends nothing and changes nothing.
   */
  lemma GuardFailure(s: State, msg: Message, resp: Response, doc: Document)
    requires IsBackendCall(msg) && !Guarded(msg, s)
    ensures var r := Dispatch(s, msg, resp, doc);
      && r.state == s && r.requests == [] && |r.replies| == 1
      && ErrorOf(r.replies[0]) == Some(if msg.GetProjects? then "Not authenticated or configured" else "Not authenticated")
  {
  }

  /** A backend message that passes its guard sends exactly one request (unless create has no data). */
  lemma GuardSuccess(s: State, msg: Message, resp: Response, doc: Document)
    requires IsBackendCall(msg) && Guarded(msg, s)
    requires msg.CreateUxDebt? ==> !IsNullish(msg.debtData)
    ensures var r := Dispatch(s, msg, resp, doc);
      && r.state == s && |r.requests| == 1 && |r.replies| == 1
      && Authorized(s, r.requests[0])
  {
    match msg
    case GetProjects => GetProjectsAuthorized(s, resp);
    case GetUxDebts(pid) => GetUxDebtsAuthorized(s, pid, resp);
    case CreateUxDebt(pid, data) => CreateAuthorized(s, pid, data, doc, resp);
    case UpdateUxDebt(_, did, data) => UpdateAuthorized(s, did, data, resp);
    case DeleteUxDebt(_, did) => DeleteAuthorized(s, did, resp);
  }

  /** One request of exactly one reply, state unchanged. */
  predicate SendsOne(s: State, r: Step)
    requires Connected(s)
  {
    r.state == s && |r.requests| == 1 && |r.replies| == 1 && Authorized(s, r.requests[0])
  }

  lemma GetProjectsAuthorized(s: State, resp: Response)
    requires SignedIn(s)
    ensures SendsOne(s, HandleGetProjects(s, resp))
  {
    AuthorizedUnder(s, ProjectsUrl("", Field(s.userData, "id")), Headers(s.config.value.anonKey, s.apiKey.value));
  }

  lemma GetUxDebtsAuthorized(s: State, projectId: Value, resp: Response)
    requires Connected(s)
    ensures SendsOne(s, HandleGetUxDebts(s, projectId, resp))
  {
    AuthorizedUnder(s, DebtsUrl("", projectId), Headers(s.config.value.anonKey, s.apiKey.value));
  }

  lemma CreateAuthorized(s: State, projectId: Value, debtData: Value, doc: Document, resp: Response)
    requires SignedIn(s) && !IsNullish(debtData)
    ensures SendsOne(s, HandleCreateUxDebt(s, projectId, debtData, doc, resp))
  {
    AuthorizedUnder(s, DebtsPath, ReturningHeaders(s.config.value.anonKey, s.apiKey.value));
  }

  /** Signed in but without `debtData`, a create sends nothing and the UI gets no answer. */
  lemma CreateWithoutDataSilent(s: State, projectId: Value, debtData: Value, doc: Document, resp: Response)
    requires SignedIn(s) && IsNullish(debtData)
    ensures HandleCreateUxDebt(s, projectId, debtData, doc, resp) == Step(s, [], [])
  {
  }

  lemma UpdateAuthorized(s: State, debtId: Value, debtData: Value, resp: Response)
    requires SignedIn(s)
    ensures SendsOne(s, HandleUpdateUxDebt(s, debtId, debtData, resp))
  {
    AuthorizedUnder(s, DebtUrl("", debtId), ReturningHeaders(s.config.value.anonKey, s.apiKey.value));
  }

  lemma DeleteAuthorized(s: State, debtId: Value, resp: Response)
    requires Connected(s)
    ensures SendsOne(s, HandleDeleteUxDebt(s, debtId, resp))
  {
    AuthorizedUnder(s, DebtUrl("", debtId), Headers(s.config.value.anonKey, s.apiKey.value));
  }

  /** A request carries the session's two keys and goes to the configured endpoint. */
  predicate Authorized(s: State, req: Request)
    requires Connected(s)
  {
    && "x-api-key" in req.headers && req.headers["x-api-key"] == s.apiKey.value
    && "apikey" in req.headers && req.headers["apikey"] == s.config.value.anonKey
    && Text.IsPrefix(s.config.value.apiBaseUrl, req.url)
  }

  /** The host's headers, on any request to a URL under the configured base. */
  lemma AuthorizedUnder(s: State, rest: string, headers: map<string, string>)
    requires Connected(s)
    requires headers == Headers(s.config.value.anonKey, s.apiKey.value)
      || headers == ReturningHeaders(s.config.value.anonKey, s.apiKey.value)
    ensures forall m, body :: Authorized(s, Request(m, s.config.value.apiBaseUrl + rest, headers, body))
  {
    var base := s.config.value.apiBaseUrl;
    assert (base + rest)[..|base|] == base;
  }

  /** Logging out keeps the configuration, so after it every backend message fails its guard. */
  lemma LogoutSignsOut(s: State, msg: Message, resp: Response, doc: Document)
    requires IsBackendCall(msg)
    ensures var t := HandleLogout(s).state;
      && t.config == s.config && t.storedConfig == s.storedConfig
      && t.storedKey.None? && !Guarded(msg, t)
      && Dispatch(t, msg, resp, doc).requests == []
  {
    GuardFailure(HandleLogout(s).state, msg, resp, doc);
  }

  /**
   * Start-up restores the configuration whenever one is stored, and the key
   * only together with a configuration; the user is never restored, so a
   * restored session may read and delete issues but cannot list projects.
   */
  lemma StartupRestores(k: Option<string>, c: Option<Config>)
    ensures var r := Startup(Initial(k, c));
      && r.state.config == c
      && (Connected(r.state) <==> Present(k) && c.Some?)
      && !SignedIn(r.state)
      && r.requests == []
      && (ConfigLoaded(c) in r.replies <==> c.Some?)
      && ((exists key :: ApiKeyLoaded(key) in r.replies) <==> Present(k) && c.Some?)
  {
    var r := Startup(Initial(k, c));
    if Present(k) && c.Some? {
      assert ApiKeyLoaded(k.value) in r.replies;
    }
  }

  /** A saved configuration is what the next `load-config` reports. */
  lemma SaveThenLoad(s: State, c: Option<Config>, resp: Response, doc: Document)
    ensures Dispatch(Dispatch(s, SaveConfig(c), resp, doc).state, LoadConfig, resp, doc).replies == [ConfigLoaded(c)]
  {
  }

  /** A session gains a key only through a successful verification. */
  lemma KeyOnlyFromVerification(s: State, msg: Message, resp: Response, doc: Document)
    requires !Present(s.apiKey)
    requires Present(Dispatch(s, msg, resp, doc).state.apiKey)
    ensures msg.VerifyApiKey? && resp.Ok?
    ensures Dispatch(s, msg, resp, doc).replies == [ApiKeyVerified(Success(First(resp.body)))]
  {
  }

  /** The create payload: status, screen fallback, author and design link. */
  lemma CreatePayloadFields(s: State, projectId: Value, debtData: Value, doc: Document, resp: Response)
    requires SignedIn(s) && !IsNullish(debtData)
    ensures var r := HandleCreateUxDebt(s, projectId, debtData, doc, resp);
      && |r.requests| == 1 && r.requests[0].verb == Post && r.requests[0].body.Some?
      && var p := r.requests[0].body.value;
      && p.Obj?
      && p.fields.Keys == {"title", "type", "severity", "description", "recommendation",
                           "project_id", "logged_by", "figma_url", "screen", "status"}
      && p.fields["status"] == Str("Open")
      && p.fields["project_id"] == projectId
      && p.fields["logged_by"] == Field(s.userData, "full_name")
      && p.fields["figma_url"] == Str(ContextOf(doc).url)
      && p.fields["screen"] == (if Truthy(Field(debtData, "screen")) then Field(debtData, "screen")
                                else Str(ContextOf(doc).pageName))
      && r.requests[0].headers["Prefer"] == "return=representation"
  {
    CreatePayloadShape(projectId, debtData, s.userData, ContextOf(doc));
  }

  /** The keys and fixed values of the row `createUXDebt` posts. */
  lemma CreatePayloadShape(projectId: Value, debtData: Value, user: Value, ctx: Context)
    ensures var m := CreatePayload(projectId, debtData, user, ctx);
      && m.Keys == {"title", "type", "severity", "description", "recommendation",
                    "project_id", "logged_by", "figma_url", "screen", "status"}
      && m["status"] == Str("Open") && m["project_id"] == projectId
      && m["logged_by"] == Field(user, "full_name") && m["figma_url"] == Str(ctx.url)
      && m["screen"] == (if Truthy(Field(debtData, "screen")) then Field(debtData, "screen") else Str(ctx.pageName))
  {
  }

  /** Create and update replies unwrap an array body to its first element. */
  lemma WritesUnwrapArrays(s: State, msg: Message, body: seq<Value>, doc: Document)
    requires msg.CreateUxDebt? || msg.UpdateUxDebt?
    requires SignedIn(s) && (msg.CreateUxDebt? ==> !IsNullish(msg.debtData))
    ensures var r := Dispatch(s, msg, Ok(Arr(body)), doc);
      |r.replies| == 1 &&
      r.replies[0] == (if msg.CreateUxDebt? then UxDebtCreated(Success(First(Arr(body))))
                       else UxDebtUpdated(Success(First(Arr(body)))))
  {
  }

  lemma NotInPrefix()
    ensures '?' !in FileUrlPrefix
  {
  }

  /**
   * The link addresses a node exactly when something is selected (given a
   * file key without `?`): the file name and node id are percent-encoded, so
   * the only `?` is the one that starts the node query.
   */
  lemma DeepLinkQuery(fileKey: Option<string>, fileName: string, selection: seq<Node>)
    requires '?' !in KeyText(fileKey)
    ensures var link := DeepLink(fileKey, fileName, selection);
      && Text.IsPrefix(FileUrlPrefix + KeyText(fileKey) + "/", link)
      && ('?' in link <==> |selection| > 0)
  {
    Uri.EncodedHasNoDelimiters(fileName);
    NotInPrefix();
    QueryLink(FileUrlPrefix + KeyText(fileKey) + "/", Uri.EncodeComponent(fileName),
      if |selection| > 0 then NodeQuery(selection[0].id) else "");
  }

  /** Where neither the head nor the encoded name holds a `?`, the link has one exactly when a query follows. */
  lemma QueryLink(head: string, name: string, query: string)
    requires '?' !in head && '?' !in name && (query == [] || query[0] == '?')
    ensures Text.IsPrefix(head, head + name + query)
    ensures '?' in head + name + query <==> query != []
  {
    var link := head + name + query;
    assert link[..|head|] == head;
    if query != [] {
      assert link[|head + name|] == '?';
    }
  }

  /** The node part of the link carries no `:` in its id: colons became dashes before encoding. */
  lemma DeepLinkNodeId(fileKey: Option<string>, fileName: string, selection: seq<Node>)
    requires |selection| > 0
    ensures var id := Dashed(selection[0].id);
      && ':' !in id && |id| == |selection[0].id|
      && DeepLink(fileKey, fileName, selection)
         == FileUrlPrefix + KeyText(fileKey) + "/" + Uri.EncodeComponent(fileName)
            + ("?node-id=" + Uri.EncodeComponent(id) + "&viewport=" + Uri.EncodeComponent("0,0,1,1"))
  {
  }

  /** The link a readable document's context carries addresses a node exactly when something is selected. */
  lemma ContextLinkQuery(doc: Document)
    requires doc.view.Readable? && '?' !in KeyText(doc.fileKey)
    ensures Text.IsPrefix(FileUrlPrefix + KeyText(doc.fileKey) + "/", ContextOf(doc).url)
    ensures '?' in ContextOf(doc).url <==> |doc.view.selection| > 0
  {
    DeepLinkQuery(doc.fileKey, doc.view.fileName, doc.view.selection);
  }

  /** An unreadable document gives the file-level link and placeholder names. */
  lemma ContextFallback(doc: Document)
    requires doc.view.Unreadable?
    ensures ContextOf(doc) == Context(FileUrlPrefix + KeyText(doc.fileKey), "Unknown", "Unknown", 0, [])
  {
  }

  /** The host: module variables, storage, and the replies and requests it has issued so far. */
  class Host {
    var apiKey: Option<string>
    var userData: Value
    var config: Option<Config>
    var storedKey: Option<string>
    var storedConfig: Option<Config>
    var closed: bool
    var outbox: seq<Reply>
    var requests: seq<Request>

    function Snapshot(): State
      reads this
    {
      State(apiKey, userData, config, storedKey, storedConfig, closed)
    }

    /** The host did exactly `step`: its state is the step's, and it appended the step's replies and requests. */
    twostate predicate Did(step: Step)
      reads this
    {
      Snapshot() == step.state && outbox == old(outbox) + step.replies && requests == old(requests) + step.requests
    }

    /** Plugin launch: the storage holds `k` and `c`; `loadStoredData()` runs. */
    constructor (k: Option<string>, c: Option<Config>)
      ensures Snapshot() == Startup(Initial(k, c)).state
      ensures outbox == Startup(Initial(k, c)).replies && requests == []
    {
      apiKey, userData, config, storedKey, storedConfig, closed := None, Null, None, k, c, false;
      outbox, requests := [], [];
      if c.Some? {
        config := c;
        outbox := outbox + [ConfigLoaded(c)];
      }
      if Present(k) && c.Some? {
        apiKey := k;
        outbox := outbox + [ApiKeyLoaded(k.value)];
      }
    }

    method PostMessage(r: Reply)
      modifies this
      ensures Snapshot() == old(Snapshot()) && outbox == old(outbox) + [r] && requests == old(requests)
    {
      outbox := outbox + [r];
    }

    method Send(req: Request)
      modifies this
      ensures Snapshot() == old(Snapshot()) && outbox == old(outbox) && requests == old(requests) + [req]
    {
      requests := requests + [req];
    }

    method OnLoadConfig()
      modifies this
      ensures Did(HandleLoadConfig(old(Snapshot())))
    {
      PostMessage(ConfigLoaded(storedConfig));
    }

    method OnSaveConfig(c: Option<Config>)
      modifies this
      ensures Did(HandleSaveConfig(old(Snapshot()), c))
    {
      config := c;
      storedConfig := c;
    }

    method VerifyKey(key: string, resp: Response)
      modifies this
      ensures Did(Verify(old(Snapshot()), key, resp))
    {
      if config.None? {
        PostMessage(ApiKeyVerified(Failure("Configuration not found")));
        return;
      }
      var cfg := config.value;
      Send(Request(Get, cfg.apiBaseUrl + ProfilesPath, Headers(cfg.anonKey, key), None));
      if !resp.Ok? {
        PostMessage(ApiKeyVerified(Failure(FailureText(resp, "Failed to verify API key"))));
      } else if !Truthy(resp.body) || Length(resp.body) == Num(0) {
        PostMessage(ApiKeyVerified(Failure(NoUser)));
      } else {
        apiKey := Some(key);
        userData := First(resp.body);
        storedKey := Some(key);
        PostMessage(ApiKeyVerified(Success(userData)));
      }
    }

    method OnVerifyApiKey(key: string, apiBaseUrl: string, anonKey: string, resp: Response)
      modifies this
      ensures Did(VerifyMessage(old(Snapshot()), key, apiBaseUrl, anonKey, resp))
    {
      config := Some(Config(apiBaseUrl, anonKey));
      VerifyKey(key, resp);
    }

    method OnGetProjects(resp: Response)
      modifies this
      ensures Did(HandleGetProjects(old(Snapshot()), resp))
    {
      if !SignedIn(Snapshot()) {
        PostMessage(ProjectsLoaded(Failure("Not authenticated or configured")));
        return;
      }
      var cfg := config.value;
      Send(Request(Get, ProjectsUrl(cfg.apiBaseUrl, Field(userData, "id")), Headers(cfg.anonKey, apiKey.value), None));
      PostMessage(ProjectsLoaded(Loaded(resp, "Failed to fetch projects")));
    }

    method OnGetUxDebts(projectId: Value, resp: Response)
      modifies this
      ensures Did(HandleGetUxDebts(old(Snapshot()), projectId, resp))
    {
      if !Connected(Snapshot()) {
        PostMessage(UxDebtsLoaded(Failure("Not authenticated"), None));
        return;
      }
      var cfg := config.value;
      Send(Request(Get, DebtsUrl(cfg.apiBaseUrl, projectId), Headers(cfg.anonKey, apiKey.value), None));
      var out := Loaded(resp, "Failed to fetch UX debts");
      if out.Success? {
        PostMessage(UxDebtsLoaded(out, Some(projectId)));
      } else {
        PostMessage(UxDebtsLoaded(out, None));
      }
    }

    method OnCreateUxDebt(projectId: Value, debtData: Value, doc: Document, resp: Response)
      modifies this
      ensures Did(HandleCreateUxDebt(old(Snapshot()), projectId, debtData, doc, resp))
    {
      if !SignedIn(Snapshot()) {
        PostMessage(UxDebtCreated(Failure("Not authenticated")));
        return;
      }
      if IsNullish(debtData) {
        return;
      }
      var cfg := config.value;
      var payload := CreatePayload(projectId, debtData, userData, ContextOf(doc));
      Send(Request(Post, cfg.apiBaseUrl + DebtsPath, ReturningHeaders(cfg.anonKey, apiKey.value), Some(Obj(payload))));
      PostMessage(UxDebtCreated(Returned(resp, "Failed to create UX debt")));
    }

    method OnUpdateUxDebt(debtId: Value, debtData: Value, resp: Response)
      modifies this
      ensures Did(HandleUpdateUxDebt(old(Snapshot()), debtId, debtData, resp))
    {
      if !SignedIn(Snapshot()) {
        PostMessage(UxDebtUpdated(Failure("Not authenticated")));
        return;
      }
      var cfg := config.value;
      Send(Request(Patch, DebtUrl(cfg.apiBaseUrl, debtId), ReturningHeaders(cfg.anonKey, apiKey.value), Some(debtData)));
      PostMessage(UxDebtUpdated(Returned(resp, "Failed to update UX debt")));
    }

    method OnDeleteUxDebt(debtId: Value, resp: Response)
      modifies this
      ensures Did(HandleDeleteUxDebt(old(Snapshot()), debtId, resp))
    {
      if !Connected(Snapshot()) {
        PostMessage(UxDebtDeleted(Failure("Not authenticated")));
        return;
      }
      var cfg := config.value;
      Send(Request(Delete, DebtUrl(cfg.apiBaseUrl, debtId), Headers(cfg.anonKey, apiKey.value), None));
      if resp.Ok? {
        PostMessage(UxDebtDeleted(Success(())));
      } else {
        PostMessage(UxDebtDeleted(Failure(FailureText(resp, "Failed to delete UX debt"))));
      }
    }

    method OnGetFigmaContext(doc: Document)
      modifies this
      ensures Did(HandleGetFigmaContext(old(Snapshot()), doc))
    {
      PostMessage(FigmaContext(ContextOf(doc)));
    }

    method OnLogout()
      modifies this
      ensures Did(HandleLogout(old(Snapshot())))
    {
      storedKey := None;
      apiKey := None;
      userData := Null;
    }

    method OnClosePlugin()
      modifies this
      ensures Did(HandleClosePlugin(old(Snapshot())))
    {
      closed := true;
    }

    /** `figma.ui.onmessage` */
    method OnMessage(msg: Message, resp: Response, doc: Document)
      modifies this
      ensures Did(Dispatch(old(Snapshot()), msg, resp, doc))
    {
      match msg {
        case LoadConfig => OnLoadConfig();
        case SaveConfig(c) => OnSaveConfig(c);
        case VerifyApiKey(key, base, anon) => OnVerifyApiKey(key, base, anon, resp);
        case GetProjects => OnGetProjects(resp);
        case GetUxDebts(pid) => OnGetUxDebts(pid, resp);
        case CreateUxDebt(pid, data) => OnCreateUxDebt(pid, data, doc, resp);
        case UpdateUxDebt(_, did, data) => OnUpdateUxDebt(did, data, resp);
        case DeleteUxDebt(_, did) => OnDeleteUxDebt(did, resp);
        case GetFigmaContext => OnGetFigmaContext(doc);
        case Logout => OnLogout();
        case ClosePlugin => OnClosePlugin();
        case Other(_) =>
      }
    }
  }
}
