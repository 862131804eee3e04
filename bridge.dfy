/**
 * The message bridge between the design-tool plugin's UI iframe and its host
 * sandbox, and the backend's REST surface the host calls with `fetch`. Both
 * versions of the host (PluginHost and LegacyPluginHost) share these shapes.
 */
module Bridge {
  import opened Wrappers
  import opened Js

  /** The backend's REST endpoint and its anonymous key, as the UI supplies them. */
  datatype Config = Config(apiBaseUrl: string, anonKey: string)

  /** A layer of the design file. */
  datatype Node = Node(id: string, name: string)

  /** The current page and selection, or the error thrown while reading them. */
  datatype View =
    | Readable(pageName: string, fileName: string, selection: seq<Node>)
    | Unreadable(message: string)

  /** What the design tool exposes about the open document: `figma.fileKey` may be undefined. */
  datatype Document = Document(fileKey: Option<string>, view: View)

  /** The design context the host reports and links new issues to. */
  datatype Context = Context(
    url: string, pageName: string, fileName: string,
    selectedNodes: nat, selectedNodeNames: seq<string>)

  datatype HttpMethod = Get | Post | Patch | Delete

  /** One `fetch` call: method, full URL, headers and the value serialised as the JSON body. */
  datatype Request = Request(verb: HttpMethod, url: string, headers: map<string, string>, body: Option<Value>)

  /** How a `fetch` settles. */
  datatype Response =
    | Ok(body: Value)                   // 2xx, body parsed as JSON
    | NotOk(status: nat, text: string)  // any other status, with the body text
    | Rejected(message: string)         // network failure or a body that is not JSON

  /** A UI-to-host message, by its `type` tag. */
  datatype Message =
    | LoadConfig
    | SaveConfig(config: Option<Config>)
    | VerifyApiKey(apiKey: string, apiBaseUrl: string, anonKey: string)
    | GetProjects
    | GetUxDebts(projectId: Value)
    | CreateUxDebt(projectId: Value, debtData: Value)
    | UpdateUxDebt(projectId: Value, debtId: Value, debtData: Value)
    | DeleteUxDebt(projectId: Value, debtId: Value)
    | GetFigmaContext
    | Logout
    | ClosePlugin
    | Other(tag: string)

  /**
   * A host-to-UI reply. `Success(v)` is `{success: true, <field>: v}`,
   * `Failure(e)` is `{success: false, error: e}`.
   */
  datatype Reply =
    | ConfigLoaded(config: Option<Config>)
    | ApiKeyLoaded(apiKey: string)
    | ApiKeyVerified(user: Result<Value>)
    | ProjectsLoaded(projects: Result<Value>)
    | UxDebtsLoaded(debts: Result<Value>, projectId: Option<Value>)
    | UxDebtCreated(debt: Result<Value>)
    | UxDebtUpdated(debt: Result<Value>)
    | UxDebtDeleted(done: Result<()>)
    | FigmaContext(context: Context)

  /** The `type` tag a reply carries on the wire. */
  function Tag(r: Reply): string {
    match r
    case ConfigLoaded(_) => "config-loaded"
    case ApiKeyLoaded(_) => "api-key-loaded"
    case ApiKeyVerified(_) => "api-key-verified"
    case ProjectsLoaded(_) => "projects-loaded"
    case UxDebtsLoaded(_, _) => "ux-debts-loaded"
    case UxDebtCreated(_) => "ux-debt-created"
    case UxDebtUpdated(_) => "ux-debt-updated"
    case UxDebtDeleted(_) => "ux-debt-deleted"
    case FigmaContext(_) => "figma-context"
  }

  /** The `error` text of a failure reply, if it is one. */
  function ErrorOf(r: Reply): Option<string> {
    match r
    case ApiKeyVerified(Failure(e)) => Some(e)
    case ProjectsLoaded(Failure(e)) => Some(e)
    case UxDebtsLoaded(Failure(e), _) => Some(e)
    case UxDebtCreated(Failure(e)) => Some(e)
    case UxDebtUpdated(Failure(e)) => Some(e)
    case UxDebtDeleted(Failure(e)) => Some(e)
    case _ => None
  }

  /** The headers every REST call carries. */
  function Headers(anonKey: string, apiKey: string): map<string, string> {
    map["apikey" := anonKey, "x-api-key" := apiKey, "Content-Type" := "application/json"]
  }

  /** The headers of a write that asks for the written row back. */
  function ReturningHeaders(anonKey: string, apiKey: string): map<string, string> {
    Headers(anonKey, apiKey)["Prefer" := "return=representation"]
  }

  /** `error.message || fallback` */
  function Reason(message: string, fallback: string): string {
    if message != "" then message else fallback
  }

  // The REST resources the host calls, relative to the configured base URL.
  const ProfilesPath := "/rest/v1/profiles?select=id,email,full_name"
  const DebtsPath := "/rest/v1/ux_debts"

  function ProjectsUrl(base: string, ownerId: Value): string {
    base + ("/rest/v1/projects?owner_id=eq." + ToText(ownerId)
    + "&select=id,title,description,color,created_at,updated_at&order=updated_at.desc")
  }

  function DebtsUrl(base: string, projectId: Value): string {
    base + (DebtsPath + "?project_id=eq." + ToText(projectId) + "&select=*&order=created_at.desc")
  }

  function DebtUrl(base: string, debtId: Value): string {
    base + (DebtsPath + "?id=eq." + ToText(debtId))
  }

  const FileUrlPrefix := "https://www.figma.com/file/"

  /** `figma.fileKey` as it reads inside a string concatenation. */
  function KeyText(fileKey: Option<string>): string {
    fileKey.GetOr("undefined")
  }
}
