/**
 * The older plugin host (`figma-plugin/code.ts`). Its session is `apiKey`,
 * `userData` and the endpoint pair `apiBaseUrl`/`anonKey` (empty until a
 * verification sets them); only the key is persisted. It handles a subset of
 * the messages, has no configuration check, and reports errors through the
 * thrown error's message with no fallback text.
 */
module LegacyPluginHost {
  import opened Wrappers
  import opened Js
  import opened Bridge
  import Uri
  import Text

  datatype State = State(
    apiKey: Option<string>, userData: Value, apiBaseUrl: string, anonKey: string,
    storedKey: Option<string>, closed: bool)

  /** A handler's effect: the new state, the replies posted and the requests sent, in order. */
  datatype Step = Step(state: State, replies: seq<Reply>, requests: seq<Request>)

  predicate Present(k: Option<string>) {
    k.Some? && k.value != ""
  }

  /** `apiKey && userData` */
  predicate SignedIn(s: State) {
    Present(s.apiKey) && Truthy(s.userData)
  }

  function Initial(storedKey: Option<string>): State {
    State(None, Null, "", "", storedKey, false)
  }

  const InvalidKey := "Invalid API key"

  /** The message of the `TypeError` thrown by reading `prop` of `null` or `undefined`. */
  function ReadError(v: Value, prop: string): string
    requires IsNullish(v)
  {
    "Cannot read properties of " + (if v.Null? then "null" else "undefined") + " (reading '" + prop + "')"
  }

  /**
   * `{...v}`: the own enumerable properties of an object; nullish values
   * contribute none. A string or array would contribute its indices, but the
   * UI sends `debtData` only as an object or not at all, so the model gives
   * every non-object nothing.
   */
  function Spread(v: Value): map<string, Value> {
    if v.Obj? then v.fields else map[]
  }

  /** The link to the file, with the raw id of the first selected node when there is one. */
  function DeepLink(fileKey: Option<string>, fileName: string, selection: seq<Node>): string {
    var file := FileUrlPrefix + KeyText(fileKey) + "/" + Uri.EncodeComponent(fileName);
    if |selection| > 0 then file + "?node-id=" + Uri.EncodeComponent(selection[0].id) else file
  }

  /** `getFigmaContextData()`: it has no fallback, so an unreadable document is an error. */
  function ContextOf(doc: Document): (r: Result<Context>)
    ensures r.Failure? <==> doc.view.Unreadable?
    ensures r.Success? ==>
      && r.value.url == DeepLink(doc.fileKey, doc.view.fileName, doc.view.selection)
      && r.value.pageName == doc.view.pageName && r.value.fileName == doc.view.fileName
      && r.value.selectedNodes == |doc.view.selection|
      && r.value.selectedNodes == |r.value.selectedNodeNames|
      && forall i :: 0 <= i < r.value.selectedNodes ==> r.value.selectedNodeNames[i] == doc.view.selection[i].name
  {
    match doc.view
    case Readable(page, file, sel) =>
      Success(Context(DeepLink(doc.fileKey, file, sel), page, file, |sel|,
                      seq(|sel|, i requires 0 <= i < |sel| => sel[i].name)))
    case Unreadable(m) => Failure(m)
  }

  /** `{...debtData, project_id, logged_by, figma_url, screen}` */
  function CreatePayload(projectId: Value, debtData: Value, user: Value, ctx: Context): map<string, Value> {
    Spread(debtData) + map[
      "project_id" := projectId,
      "logged_by" := Field(user, "full_name"),
      "figma_url" := Str(ctx.url),
      "screen" := Or(Field(debtData, "screen"), Str(ctx.pageName))]
  }

  /** The stored key alone restores the session's key. */
  function Startup(s: State): Step {
    if Present(s.storedKey) then Step(s.(apiKey := s.storedKey), [ApiKeyLoaded(s.storedKey.value)], [])
    else Step(s, [], [])
  }

  function Verify(s: State, key: string, resp: Response): Step {
    var req := Request(Get, s.apiBaseUrl + ProfilesPath, Headers(s.anonKey, key), None);
    match resp
    case NotOk(_, _) => Step(s, [ApiKeyVerified(Failure(InvalidKey))], [req])
    case Rejected(m) => Step(s, [ApiKeyVerified(Failure(m))], [req])
    case Ok(data) =>
      if IsNullish(data) then Step(s, [ApiKeyVerified(Failure(ReadError(data, "length")))], [req])
      else if Length(data) == Num(0) then Step(s, [ApiKeyVerified(Failure(InvalidKey))], [req])
      else
        Step(s.(apiKey := Some(key), userData := First(data), storedKey := Some(key)),
             [ApiKeyVerified(Success(First(data)))], [req])
  }

  function VerifyMessage(s: State, key: string, apiBaseUrl: string, anonKey: string, resp: Response): Step {
    Verify(s.(apiBaseUrl := apiBaseUrl, anonKey := anonKey), key, resp)
  }

  /** A read's outcome: the body, or a fixed text for a non-OK status, or the rejection's message. */
  function Loaded(resp: Response, notOk: string): Result<Value> {
    match resp
    case Ok(body) => Success(body)
    case NotOk(_, _) => Failure(notOk)
    case Rejected(m) => Failure(m)
  }

  function HandleGetProjects(s: State, resp: Response): Step {
    if !SignedIn(s) then Step(s, [ProjectsLoaded(Failure("Not authenticated"))], [])
    else
      var req := Request(Get, ProjectsUrl(s.apiBaseUrl, Field(s.userData, "id")), Headers(s.anonKey, s.apiKey.value), None);
      Step(s, [ProjectsLoaded(Loaded(resp, "Failed to fetch projects"))], [req])
  }

  function HandleGetUxDebts(s: State, projectId: Value, resp: Response): Step {
    if !Present(s.apiKey) then Step(s, [UxDebtsLoaded(Failure("Not authenticated"), None)], [])
    else
      var req := Request(Get, DebtsUrl(s.apiBaseUrl, projectId), Headers(s.anonKey, s.apiKey.value), None);
      Step(s, [UxDebtsLoaded(Loaded(resp, "Failed to fetch UX debts"), None)], [req])
  }

  /** `debt[0]` for a created row, which throws on a `null` body. */
  function CreatedRow(resp: Response): Result<Value> {
    match resp
    case Ok(debt) => if IsNullish(debt) then Failure(ReadError(debt, "0")) else Success(First(debt))
    case NotOk(_, text) => Failure("Failed to create UX debt: " + text)
    case Rejected(m) => Failure(m)
  }

  function HandleCreateUxDebt(s: State, projectId: Value, debtData: Value, doc: Document, resp: Response): Step {
    if !SignedIn(s) then Step(s, [UxDebtCreated(Failure("Not authenticated"))], [])
    else
      match ContextOf(doc)
      case Failure(m) => Step(s, [UxDebtCreated(Failure(m))], [])
      case Success(ctx) =>
        if IsNullish(debtData) then Step(s, [UxDebtCreated(Failure(ReadError(debtData, "screen")))], [])
        else
          var payload := CreatePayload(projectId, debtData, s.userData, ctx);
          var req := Request(Post, s.apiBaseUrl + DebtsPath, ReturningHeaders(s.anonKey, s.apiKey.value), Some(Obj(payload)));
          Step(s, [UxDebtCreated(CreatedRow(resp))], [req])
  }

  /** An unreadable document rejects the awaited promise, which nothing catches: nothing is posted. */
  function HandleGetFigmaContext(s: State, doc: Document): Step {
    match ContextOf(doc)
    case Success(ctx) => Step(s, [FigmaContext(ctx)], [])
    case Failure(_) => Step(s, [], [])
  }

  function HandleLogout(s: State): Step {
    Step(s.(apiKey := None, userData := Null, storedKey := None), [], [])
  }

  function HandleClosePlugin(s: State): Step {
    Step(s.(closed := true), [], [])
  }

  /** The messages this version has a case for. */
  predicate Handled(msg: Message) {
    msg.VerifyApiKey? || msg.GetProjects? || msg.GetUxDebts? || msg.CreateUxDebt?
    || msg.GetFigmaContext? || msg.Logout? || msg.ClosePlugin?
  }

  function Dispatch(s: State, msg: Message, resp: Response, doc: Document): Step {
    match msg
    case VerifyApiKey(key, base, anon) => VerifyMessage(s, key, base, anon, resp)
    case GetProjects => HandleGetProjects(s, resp)
    case GetUxDebts(pid) => HandleGetUxDebts(s, pid, resp)
    case CreateUxDebt(pid, data) => HandleCreateUxDebt(s, pid, data, doc, resp)
    case GetFigmaContext => HandleGetFigmaContext(s, doc)
    case Logout => HandleLogout(s)
    case ClosePlugin => HandleClosePlugin(s)
    case _ => Step(s, [], [])
  }

  // ---- properties ----

  /** Verification first installs the message's endpoint, then queries it with the offered key. */
  lemma VerifyMessageSetsEndpoint(s: State, key: string, base: string, anon: string, resp: Response, doc: Document)
    ensures var r := Dispatch(s, VerifyApiKey(key, base, anon), resp, doc);
      && r.state.apiBaseUrl == base && r.state.anonKey == anon
      && r.requests == [Request(Get, base + ProfilesPath, Headers(anon, key), None)]
  {
  }

  /**
   * A non-OK response and an empty profile list both report 'Invalid API key'
   * and keep the session; only a non-empty list signs in, with its first row.
   */
  lemma VerifyOutcomes(s: State, key: string, resp: Response)
    ensures var r := Verify(s, key, resp);
      && |r.replies| == 1 && r.replies[0].ApiKeyVerified?
      && (r.replies[0].user.Success? <==> resp.Ok? && !IsNullish(resp.body) && Length(resp.body) != Num(0))
      && (r.replies[0].user.Success? ==>
            r.state == s.(apiKey := Some(key), userData := First(resp.body), storedKey := Some(key))
            && r.replies[0].user.value == First(resp.body))
      && (!r.replies[0].user.Success? ==> r.state == s)
      && (resp.NotOk? || (resp.Ok? && Length(resp.body) == Num(0)) ==> r.replies[0].user == Failure(InvalidKey))
  {
  }

  /** A failed guard replies 'Not authenticated' with no request and no change. */
  lemma GuardFailure(s: State, msg: Message, resp: Response, doc: Document)
    requires ((msg.GetProjects? || msg.CreateUxDebt?) && !SignedIn(s)) || (msg.GetUxDebts? && !Present(s.apiKey))
    ensures var r := Dispatch(s, msg, resp, doc);
      && r.state == s && r.requests == [] && |r.replies| == 1
      && ErrorOf(r.replies[0]) == Some("Not authenticated")
  {
  }

  /** Logout forgets the key and the user; afterwards every backend message fails its guard. */
  lemma LogoutSignsOut(s: State, msg: Message, resp: Response, doc: Document)
    requires msg.GetProjects? || msg.CreateUxDebt? || msg.GetUxDebts?
    ensures var t := HandleLogout(s).state;
      && t.storedKey.None? && !Present(t.apiKey) && t.userData == Null
      && t.apiBaseUrl == s.apiBaseUrl && t.anonKey == s.anonKey
      && Dispatch(t, msg, resp, doc).requests == []
  {
    GuardFailure(HandleLogout(s).state, msg, resp, doc);
  }

  /**
   * A stored key alone restores the session's key, without an endpoint: an
   * issue listing then goes to the bare path with an empty anonymous key.
   */
  lemma RestoredSessionHasNoEndpoint(k: Option<string>, projectId: Value, resp: Response, doc: Document)
    requires Present(k)
    ensures var t := Startup(Initial(k)).state;
      && t.apiKey == k && !SignedIn(t)
      && var r := Dispatch(t, GetUxDebts(projectId), resp, doc);
      && |r.requests| == 1
      && Text.IsPrefix(DebtsPath, r.requests[0].url)
      && r.requests[0].headers["apikey"] == ""
  {
    var t := Startup(Initial(k)).state;
    var url := DebtsUrl("", projectId);
    assert url[..|DebtsPath|] == DebtsPath;
  }

  /** Messages this version has no case for are ignored. */
  lemma UnhandledIgnored(s: State, msg: Message, resp: Response, doc: Document)
    requires !Handled(msg)
    ensures Dispatch(s, msg, resp, doc) == Step(s, [], [])
  {
  }

  /**
   * The create payload keeps every property of `debtData` except the four it
   * sets, which it overrides.
   */
  lemma CreatePayloadOverrides(projectId: Value, debtData: Value, user: Value, ctx: Context)
    ensures var p := CreatePayload(projectId, debtData, user, ctx);
      && p.Keys == Spread(debtData).Keys + {"project_id", "logged_by", "figma_url", "screen"}
      && p["project_id"] == projectId && p["logged_by"] == Field(user, "full_name")
      && p["figma_url"] == Str(ctx.url)
      && p["screen"] == (if Truthy(Field(debtData, "screen")) then Field(debtData, "screen") else Str(ctx.pageName))
      && forall k :: k in Spread(debtData) && k !in {"project_id", "logged_by", "figma_url", "screen"}
           ==> p[k] == Spread(debtData)[k]
  {
  }

  lemma NotInPrefix()
    ensures '&' !in FileUrlPrefix && '?' !in FileUrlPrefix
  {
  }

  /**
   * The node id goes into the link as it is, encoded; there is no viewport
   * parameter, so the link holds no `&` (given a file key without one).
   */
  lemma DeepLinkRawId(fileKey: Option<string>, fileName: string, selection: seq<Node>)
    requires '&' !in KeyText(fileKey)
    ensures var link := DeepLink(fileKey, fileName, selection);
      && '&' !in link
      && (|selection| > 0 ==> link == FileUrlPrefix + KeyText(fileKey) + "/" + Uri.EncodeComponent(fileName)
                                      + "?node-id=" + Uri.EncodeComponent(selection[0].id))
  {
    Uri.EncodedHasNoDelimiters(fileName);
    NotInPrefix();
    if |selection| > 0 {
      Uri.EncodedHasNoDelimiters(selection[0].id);
    }
  }

  /** The link a readable document's context carries holds no `&`, and names the raw id of the first selected node. */
  lemma ContextLinkRawId(doc: Document)
    requires doc.view.Readable? && '&' !in KeyText(doc.fileKey)
    ensures ContextOf(doc).Success?
    ensures '&' !in ContextOf(doc).value.url
    ensures |doc.view.selection| > 0 ==>
      ContextOf(doc).value.url
      == FileUrlPrefix + KeyText(doc.fileKey) + "/" + Uri.EncodeComponent(doc.view.fileName)
         + "?node-id=" + Uri.EncodeComponent(doc.view.selection[0].id)
  {
    DeepLinkRawId(doc.fileKey, doc.view.fileName, doc.view.selection);
  }

  /** The older host: module variables, the stored key, and the replies and requests issued so far. */
  class LegacyHost {
    var apiKey: Option<string>
    var userData: Value
    var apiBaseUrl: string
    var anonKey: string
    var storedKey: Option<string>
    var closed: bool
    var outbox: seq<Reply>
    var requests: seq<Request>

    function Snapshot(): State
      reads this
    {
      State(apiKey, userData, apiBaseUrl, anonKey, storedKey, closed)
    }

    twostate predicate Did(step: Step)
      reads this
    {
      Snapshot() == step.state && outbox == old(outbox) + step.replies && requests == old(requests) + step.requests
    }

    /** Plugin launch with `k` in storage. */
    constructor (k: Option<string>)
      ensures Snapshot() == Startup(Initial(k)).state
      ensures outbox == Startup(Initial(k)).replies && requests == []
    {
      apiKey, userData, apiBaseUrl, anonKey, storedKey, closed := None, Null, "", "", k, false;
      outbox, requests := [], [];
      if Present(k) {
        apiKey := k;
        outbox := outbox + [ApiKeyLoaded(k.value)];
      }
    }

    method PostMessage(r: Reply)
      modifies this
      ensures Snapshot() == old(Snapshot()) && outbox == old(outbox) + [r] && requests == old(requests)
    {
      outbox := outbox + [r];
    }

    method Send(req: Request)
      modifies this
      ensures Snapshot() == old(Snapshot()) && outbox == old(outbox) && requests == old(requests) + [req]
    {
      requests := requests + [req];
    }

    method VerifyKey(key: string, resp: Response)
      modifies this
      ensures Did(Verify(old(Snapshot()), key, resp))
    {
      Send(Request(Get, apiBaseUrl + ProfilesPath, Headers(anonKey, key), None));
      match resp {
        case NotOk(_, _) => PostMessage(ApiKeyVerified(Failure(InvalidKey)));
        case Rejected(m) => PostMessage(ApiKeyVerified(Failure(m)));
        case Ok(data) =>
          if IsNullish(data) {
            PostMessage(ApiKeyVerified(Failure(ReadError(data, "length"))));
          } else if Length(data) == Num(0) {
            PostMessage(ApiKeyVerified(Failure(InvalidKey)));
          } else {
            apiKey := Some(key);
            userData := First(data);
            storedKey := Some(key);
            PostMessage(ApiKeyVerified(Success(userData)));
          }
      }
    }

    method OnVerifyApiKey(key: string, base: string, anon: string, resp: Response)
      modifies this
      ensures Did(VerifyMessage(old(Snapshot()), key, base, anon, resp))
    {
      apiBaseUrl := base;
      anonKey := anon;
      VerifyKey(key, resp);
    }

    method OnGetProjects(resp: Response)
      modifies this
      ensures Did(HandleGetProjects(old(Snapshot()), resp))
    {
      if !SignedIn(Snapshot()) {
        PostMessage(ProjectsLoaded(Failure("Not authenticated")));
        return;
      }
      Send(Request(Get, ProjectsUrl(apiBaseUrl, Field(userData, "id")), Headers(anonKey, apiKey.value), None));
      PostMessage(ProjectsLoaded(Loaded(resp, "Failed to fetch projects")));
    }

    method OnGetUxDebts(projectId: Value, resp: Response)
      modifies this
      ensures Did(HandleGetUxDebts(old(Snapshot()), projectId, resp))
    {
      if !Present(apiKey) {
        PostMessage(UxDebtsLoaded(Failure("Not authenticated"), None));
        return;
      }
      Send(Request(Get, DebtsUrl(apiBaseUrl, projectId), Headers(anonKey, apiKey.value), None));
      PostMessage(UxDebtsLoaded(Loaded(resp, "Failed to fetch UX debts"), None));
    }

    method OnCreateUxDebt(projectId: Value, debtData: Value, doc: Document, resp: Response)
      modifies this
      ensures Did(HandleCreateUxDebt(old(Snapshot()), projectId, debtData, doc, resp))
    {
      if !SignedIn(Snapshot()) {
        PostMessage(UxDebtCreated(Failure("Not authenticated")));
        return;
      }
      var ctx := ContextOf(doc);
      if ctx.Failure? {
        PostMessage(UxDebtCreated(Failure(ctx.error)));
        return;
      }
      if IsNullish(debtData) {
        PostMessage(UxDebtCreated(Failure(ReadError(debtData, "screen"))));
        return;
      }
      var payload := CreatePayload(projectId, debtData, userData, ctx.value);
      Send(Request(Post, apiBaseUrl + DebtsPath, ReturningHeaders(anonKey, apiKey.value), Some(Obj(payload))));
      PostMessage(UxDebtCreated(CreatedRow(resp)));
    }

    method OnGetFigmaContext(doc: Document)
      modifies this
      ensures Did(HandleGetFigmaContext(old(Snapshot()), doc))
    {
      var ctx := ContextOf(doc);
      if ctx.Success? {
        PostMessage(FigmaContext(ctx.value));
      }
    }

    method OnLogout()
      modifies this
      ensures Did(HandleLogout(old(Snapshot())))
    {
      storedKey := None;
      apiKey := None;
      userData := Null;
    }

    method OnClosePlugin()
      modifies this
      ensures Did(HandleClosePlugin(old(Snapshot())))
    {
      closed := true;
    }

    /** `figma.ui.onmessage` */
    method OnMessage(msg: Message, resp: Response, doc: Document)
      modifies this
      ensures Did(Dispatch(old(Snapshot()), msg, resp, doc))
    {
      match msg {
        case VerifyApiKey(key, base, anon) => OnVerifyApiKey(key, base, anon, resp);
        case GetProjects => OnGetProjects(resp);
        case GetUxDebts(pid) => OnGetUxDebts(pid, resp);
        case CreateUxDebt(pid, data) => OnCreateUxDebt(pid, data, doc, resp);
        case GetFigmaContext => OnGetFigmaContext(doc);
        case Logout => OnLogout();
        case ClosePlugin => OnClosePlugin();
        case _ =>
      }
    }
  }
}
