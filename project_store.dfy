/**
 * The project store (`src/contexts/ProjectContext.tsx`): the signed-in user's
 * projects, each with its issues, the project currently open, and a loading
 * flag. Every mutation sends one write to the backend; when the backend
 * reports no error the store reloads everything, otherwise it changes nothing.
 *
 * What the backend answers is an input (`Backend`, and the `error` of each
 * write); date parsing is the parameter `parse`; the current time is `now`.
 */
module ProjectStore {
  import opened Wrappers
  import opened Domain
  import opened Seqs
  import opened Js

  /** A query's outcome: the rows, or the backend's error message. */
  datatype Query<T> = Rows(rows: T) | Error(message: string)

  /**
   * What the backend answers during one reload: the connection probe's error
   * if it failed, the project query, and for each project id its issue query.
   */
  datatype Backend = Backend(
    probe: Option<string>,
    projects: Query<seq<ProjectRow>>,
    debts: string -> Query<seq<DebtRow>>)

  /** The store's React state. */
  datatype State = State(projects: seq<Project>, current: Option<Project>, loading: bool)

  /** One write sent to the backend, with the object passed to the client library. */
  datatype Write =
    | InsertProjectRow(values: map<string, Value>)
    | PatchProjectRow(id: string, values: map<string, Value>)
    | DeleteProjectRow(id: string)
    | InsertDebtRow(columns: DebtColumns)
    | PatchDebtRow(id: string, columns: DebtColumns)
    | DeleteDebtRow(id: string)

  /** The `ux_debts` columns the store writes. */
  datatype Column =
    | ProjectIdColumn | TitleColumn | ScreenColumn | TypeColumn | SeverityColumn | StatusColumn
    | AssigneeColumn | LoggedByColumn | DescriptionColumn | RecommendationColumn
    | FigmaUrlColumn | ScreenshotUrlColumn | UpdatedAtColumn

  /** The object written to `ux_debts`: a value for each column it sets, `None` for one it leaves out. */
  datatype DebtColumns = DebtColumns(
    projectId: Option<Value>, title: Option<Value>, screen: Option<Value>, debtType: Option<Value>,
    severity: Option<Value>, status: Option<Value>, assignee: Option<Value>, loggedBy: Option<Value>,
    description: Option<Value>, recommendation: Option<Value>, figmaUrl: Option<Value>,
    screenshotUrl: Option<Value>, updatedAt: Option<Value>)

  /** What the object holds under column `c`. */
  function Slot(w: DebtColumns, c: Column): Option<Value> {
    match c
    case ProjectIdColumn => w.projectId
    case TitleColumn => w.title
    case ScreenColumn => w.screen
    case TypeColumn => w.debtType
    case SeverityColumn => w.severity
    case StatusColumn => w.status
    case AssigneeColumn => w.assignee
    case LoggedByColumn => w.loggedBy
    case DescriptionColumn => w.description
    case RecommendationColumn => w.recommendation
    case FigmaUrlColumn => w.figmaUrl
    case ScreenshotUrlColumn => w.screenshotUrl
    case UpdatedAtColumn => w.updatedAt
  }

  /** The column's name on the wire. */
  function ColumnName(c: Column): string {
    match c
    case ProjectIdColumn => "project_id"
    case TitleColumn => "title"
    case ScreenColumn => "screen"
    case TypeColumn => "type"
    case SeverityColumn => "severity"
    case StatusColumn => "status"
    case AssigneeColumn => "assignee"
    case LoggedByColumn => "logged_by"
    case DescriptionColumn => "description"
    case RecommendationColumn => "recommendation"
    case FigmaUrlColumn => "figma_url"
    case ScreenshotUrlColumn => "screenshot_url"
    case UpdatedAtColumn => "updated_at"
  }

  /** The field of a `UXDebt` record the store copies into the column. */
  function FieldOf(c: Column): string {
    match c
    case ProjectIdColumn => "projectId"
    case LoggedByColumn => "loggedBy"
    case FigmaUrlColumn => "figmaUrl"
    case UpdatedAtColumn => "updatedAt"
    case _ => ColumnName(c)
  }

  /** The eleven columns both `addUXDebt` and `updateUXDebt` copy from the record. */
  predicate Copied(c: Column) {
    c != ProjectIdColumn && c != UpdatedAtColumn
  }

  /** The record fields those columns copy. */
  const Fields: set<string> := {
    "title", "screen", "type", "severity", "status", "assignee", "loggedBy",
    "description", "recommendation", "figmaUrl", "screenshot_url"}


  /** A string slot that is truthy (`user?.id`). */
  predicate Present(k: Option<string>) {
    k.Some? && k.value != ""
  }

  /** `{...debt, loggedBy: debt.logged_by, figmaUrl: debt.figma_url, createdAt, updatedAt}` */
  function ToDebt(r: DebtRow, parse: string -> Date): UXDebt {
    UXDebt(r, r.logged_by, r.figma_url, parse(r.created_at), parse(r.updated_at))
  }

  /** A project row with its issue rows; a failed issue query counts as no issues. */
  function ToProject(r: ProjectRow, debts: Query<seq<DebtRow>>, parse: string -> Date): Project {
    var rows := RowsOf(debts);
    Project(r, parse(r.created_at), parse(r.updated_at),
            seq(|rows|, i requires 0 <= i < |rows| => ToDebt(rows[i], parse)))
  }

  /** `data || []` */
  function RowsOf<T>(q: Query<seq<T>>): seq<T> {
    if q.Rows? then q.rows else []
  }

  function HasId(id: string): Project -> bool {
    (p: Project) => p.Id() == id
  }

  /**
   * `refreshProjects()`, run by a closure that saw `captured` as the current
   * project. The connection probe or the project query failing ends it (the
   * error is only reported); loading is off afterwards in every case.
   */
  function Refresh(s: State, captured: Option<Project>, userId: Option<string>, b: Backend, parse: string -> Date): State {
    if !Present(userId) || b.probe.Some? || b.projects.Error? then s.(loading := false)
    else
      var rows := b.projects.rows;
      var ps := seq(|rows|, i requires 0 <= i < |rows| => ToProject(rows[i], b.debts(rows[i].id), parse));
      State(ps, if captured.Some? then Find(ps, HasId(captured.value.Id())) else s.current, false)
  }

  /** After a write: nothing changes on error, otherwise a reload by the caller's closure. */
  function AfterWrite(s: State, error: Option<string>, userId: Option<string>, b: Backend, parse: string -> Date): State {
    if error.Some? then s else Refresh(s, s.current, userId, b, parse)
  }

  /** `deleteProject`: on success, the project's selection is cleared before the reload. */
  function AfterDeleteProject(s: State, id: string, error: Option<string>, userId: Option<string>, b: Backend, parse: string -> Date): State {
    if error.Some? then s
    else
      var cleared := if s.current.Some? && s.current.value.Id() == id then s.(current := None) else s;
      Refresh(cleared, s.current, userId, b, parse)
  }

  /** `user?.id` as a value. */
  function OwnerValue(userId: Option<string>): Value {
    if userId.Some? then Str(userId.value) else Undefined
  }

  /** `debtData.f`, undefined when absent. */
  function Get(data: map<string, Value>, f: string): Value {
    if f in data then data[f] else Undefined
  }

  /** `{ ...projectData, owner_id: user?.id }` */
  function ProjectInsert(data: map<string, Value>, userId: Option<string>): map<string, Value> {
    data["owner_id" := OwnerValue(userId)]
  }

  /** `{ ...projectData, updated_at: now }` */
  function ProjectPatch(data: map<string, Value>, now: string): map<string, Value> {
    data["updated_at" := Str(now)]
  }

  /** `data.f`, or `None` when it is undefined. */
  function Defined(data: map<string, Value>, f: string): Option<Value> {
    if Get(data, f).Undefined? then None else Some(Get(data, f))
  }

  /** `addUXDebt`'s `insertData`: the project id and every copied field, defined or not. */
  function DebtInsert(projectId: string, data: map<string, Value>): DebtColumns {
    DebtColumns(Some(Str(projectId)), Some(Get(data, "title")), Some(Get(data, "screen")), Some(Get(data, "type")),
      Some(Get(data, "severity")), Some(Get(data, "status")), Some(Get(data, "assignee")), Some(Get(data, "loggedBy")),
      Some(Get(data, "description")), Some(Get(data, "recommendation")), Some(Get(data, "figmaUrl")),
      Some(Get(data, "screenshot_url")), None)
  }

  /** The patch `updateUXDebt` sends: the time stamp and the defined fields. */
  function UpdatePatch(data: map<string, Value>, now: string): DebtColumns {
    DebtColumns(None, Defined(data, "title"), Defined(data, "screen"), Defined(data, "type"),
      Defined(data, "severity"), Defined(data, "status"), Defined(data, "assignee"), Defined(data, "loggedBy"),
      Defined(data, "description"), Defined(data, "recommendation"), Defined(data, "figmaUrl"),
      Defined(data, "screenshot_url"), Some(Str(now)))
  }

  /** `updateData`, built field by field as `updateUXDebt` builds it. */
  method BuildUpdateData(data: map<string, Value>, now: string) returns (patch: DebtColumns)
    ensures patch == UpdatePatch(data, now)
  {
    patch := DebtColumns(None, None, None, None, None, None, None, None, None, None, None, None, Some(Str(now)));
    if !Get(data, "title").Undefined? { patch := patch.(title := Some(Get(data, "title"))); }
    assert patch == DebtColumns(None, Defined(data, "title"), None, None, None, None, None, None, None, None, None, None, Some(Str(now)));
    if !Get(data, "screen").Undefined? { patch := patch.(screen := Some(Get(data, "screen"))); }
    assert patch == DebtColumns(None, Defined(data, "title"), Defined(data, "screen"), None, None, None, None, None, None, None, None, None, Some(Str(now)));
    if !Get(data, "type").Undefined? { patch := patch.(debtType := Some(Get(data, "type"))); }
    assert patch == DebtColumns(None, Defined(data, "title"), Defined(data, "screen"), Defined(data, "type"), None, None, None, None, None, None, None, None, Some(Str(now)));
    if !Get(data, "severity").Undefined? { patch := patch.(severity := Some(Get(data, "severity"))); }
    assert patch == DebtColumns(None, Defined(data, "title"), Defined(data, "screen"), Defined(data, "type"), Defined(data, "severity"), None, None, None, None, None, None, None, Some(Str(now)));
    if !Get(data, "status").Undefined? { patch := patch.(status := Some(Get(data, "status"))); }
    assert patch == DebtColumns(None, Defined(data, "title"), Defined(data, "screen"), Defined(data, "type"), Defined(data, "severity"), Defined(data, "status"), None, None, None, None, None, None, Some(Str(now)));
    if !Get(data, "assignee").Undefined? { patch := patch.(assignee := Some(Get(data, "assignee"))); }
    assert patch == DebtColumns(None, Defined(data, "title"), Defined(data, "screen"), Defined(data, "type"), Defined(data, "severity"), Defined(data, "status"), Defined(data, "assignee"), None, None, None, None, None, Some(Str(now)));
    if !Get(data, "loggedBy").Undefined? { patch := patch.(loggedBy := Some(Get(data, "loggedBy"))); }
    assert patch == DebtColumns(None, Defined(data, "title"), Defined(data, "screen"), Defined(data, "type"), Defined(data, "severity"), Defined(data, "status"), Defined(data, "assignee"), Defined(data, "loggedBy"), None, None, None, None, Some(Str(now)));
    if !Get(data, "description").Undefined? { patch := patch.(description := Some(Get(data, "description"))); }
    assert patch == DebtColumns(None, Defined(data, "title"), Defined(data, "screen"), Defined(data, "type"), Defined(data, "severity"), Defined(data, "status"), Defined(data, "assignee"), Defined(data, "loggedBy"), Defined(data, "description"), None, None, None, Some(Str(now)));
    if !Get(data, "recommendation").Undefined? { patch := patch.(recommendation := Some(Get(data, "recommendation"))); }
    assert patch == DebtColumns(None, Defined(data, "title"), Defined(data, "screen"), Defined(data, "type"), Defined(data, "severity"), Defined(data, "status"), Defined(data, "assignee"), Defined(data, "loggedBy"), Defined(data, "description"), Defined(data, "recommendation"), None, None, Some(Str(now)));
    if !Get(data, "figmaUrl").Undefined? { patch := patch.(figmaUrl := Some(Get(data, "figmaUrl"))); }
    assert patch == DebtColumns(None, Defined(data, "title"), Defined(data, "screen"), Defined(data, "type"), Defined(data, "severity"), Defined(data, "status"), Defined(data, "assignee"), Defined(data, "loggedBy"), Defined(data, "description"), Defined(data, "recommendation"), Defined(data, "figmaUrl"), None, Some(Str(now)));
    if !Get(data, "screenshot_url").Undefined? { patch := patch.(screenshotUrl := Some(Get(data, "screenshot_url"))); }
  }

  // ---- properties ----

  /**
   * The patch always carries the time stamp and never the project id; each
   * copied column is set exactly when its field is defined, to that value
   * (`Defined`).
   */
  lemma PatchShape(data: map<string, Value>, now: string)
    ensures var p := UpdatePatch(data, now);
      && Slot(p, UpdatedAtColumn) == Some(Str(now)) && Slot(p, ProjectIdColumn) == None
      && (forall c :: Copied(c) ==> Slot(p, c) == Defined(data, FieldOf(c)))
  {
  }

  /**
   * Two columns take their values from differently named fields: `logged_by`
   * from `loggedBy` and `figma_url` from `figmaUrl`; each other copied column
   * from the field of its own name.
   */
  lemma ColumnsRename()
    ensures ColumnName(LoggedByColumn) == "logged_by" && FieldOf(LoggedByColumn) == "loggedBy"
    ensures ColumnName(FigmaUrlColumn) == "figma_url" && FieldOf(FigmaUrlColumn) == "figmaUrl"
    ensures forall c :: Copied(c) && c != LoggedByColumn && c != FigmaUrlColumn ==> FieldOf(c) == ColumnName(c)
    ensures forall c :: Copied(c) ==> FieldOf(c) in Fields
  {
  }

  /** A key outside the eleven fields, such as `figma_url` itself, does not reach the patch. */
  lemma PatchIgnoresOtherKeys(data: map<string, Value>, k: string, v: Value, now: string)
    requires k !in Fields
    ensures UpdatePatch(data[k := v], now) == UpdatePatch(data, now)
  {
    ColumnsRename();
    forall c | Copied(c) ensures Get(data[k := v], FieldOf(c)) == Get(data, FieldOf(c)) {
      assert FieldOf(c) in Fields;
    }
  }

  /** `owner_id` is the user's id whatever the input carried; the other fields pass through. */
  lemma OwnerOverrides(data: map<string, Value>, userId: Option<string>)
    ensures var r := ProjectInsert(data, userId);
      && r["owner_id"] == OwnerValue(userId)
      && r.Keys == data.Keys + {"owner_id"}
      && forall k :: k in data && k != "owner_id" ==> r[k] == data[k]
  {
  }

  /** An update's time stamp overrides any `updated_at` the input held; every other field passes through. */
  lemma StampOverrides(data: map<string, Value>, now: string)
    ensures var r := ProjectPatch(data, now);
      && r["updated_at"] == Str(now)
      && r.Keys == data.Keys + {"updated_at"}
      && forall k :: k in data && k != "updated_at" ==> r[k] == data[k]
  {
  }

  /**
   * A new issue's row holds the project id and every copied column, and no
   * time stamp; where the record defines the field, the column agrees with
   * what an update would set.
   */
  lemma DebtInsertColumns(projectId: string, data: map<string, Value>, now: string)
    ensures var r := DebtInsert(projectId, data);
      && Slot(r, ProjectIdColumn) == Some(Str(projectId)) && Slot(r, UpdatedAtColumn) == None
      && (forall c :: Copied(c) ==> Slot(r, c) == Some(Get(data, FieldOf(c))))
      && (forall c :: Copied(c) && Slot(UpdatePatch(data, now), c).Some? ==> Slot(r, c) == Slot(UpdatePatch(data, now), c))
  {
  }

  /** Without a signed-in user a reload only clears the loading flag. */
  lemma RefreshWithoutUser(s: State, captured: Option<Project>, userId: Option<string>, b: Backend, parse: string -> Date)
    requires !Present(userId)
    ensures Refresh(s, captured, userId, b, parse) == s.(loading := false)
  {
  }

  /** A failed probe or project query leaves projects and selection as they were. */
  lemma RefreshFailureKeepsData(s: State, captured: Option<Project>, userId: Option<string>, b: Backend, parse: string -> Date)
    requires b.probe.Some? || b.projects.Error?
    ensures var t := Refresh(s, captured, userId, b, parse);
      t.projects == s.projects && t.current == s.current && !t.loading
  {
  }

  /**
   * A successful reload holds one project per row, in order, each with one
   * issue per row of its issue query; a project whose issue query failed has
   * no issues.
   */
  lemma RefreshMapsRows(s: State, captured: Option<Project>, userId: Option<string>, b: Backend, parse: string -> Date)
    requires Present(userId) && b.probe.None? && b.projects.Rows?
    ensures var t := Refresh(s, captured, userId, b, parse);
      && var rows := b.projects.rows;
      && |t.projects| == |rows| && !t.loading
      && (forall i :: 0 <= i < |rows| ==>
           && t.projects[i].row == rows[i]
           && t.projects[i].createdAt == parse(rows[i].created_at)
           && t.projects[i].updatedAt == parse(rows[i].updated_at)
           && (b.debts(rows[i].id).Error? ==> t.projects[i].uxDebts == [])
           && |t.projects[i].uxDebts| == |RowsOf(b.debts(rows[i].id))|
           && (forall j :: 0 <= j < |t.projects[i].uxDebts| ==>
                 t.projects[i].uxDebts[j] == ToDebt(RowsOf(b.debts(rows[i].id))[j], parse)))
  {
    var t := Refresh(s, captured, userId, b, parse);
    var rows := b.projects.rows;
    forall i | 0 <= i < |rows| ensures t.projects[i] == ToProject(rows[i], b.debts(rows[i].id), parse) {
    }
  }

  /**
   * After a successful reload the selection the closure saw is replaced by the
   * first reloaded project with its id, or cleared if there is none; with no
   * such selection the current project is untouched.
   */
  lemma RefreshResyncs(s: State, captured: Option<Project>, userId: Option<string>, b: Backend, parse: string -> Date)
    requires Present(userId) && b.probe.None? && b.projects.Rows?
    ensures var t := Refresh(s, captured, userId, b, parse);
      && (captured.None? ==> t.current == s.current)
      && (captured.Some? ==>
            && (t.current.None? <==> forall i :: 0 <= i < |t.projects| ==> t.projects[i].Id() != captured.value.Id())
            && (t.current.Some? ==> exists i :: FoundAt(t.projects, HasId(captured.value.Id()), i)
                                               && t.projects[i] == t.current.value))
      && (captured.Some? && t.current.Some? ==> t.current.value.Id() == captured.value.Id())
  {
    var t := Refresh(s, captured, userId, b, parse);
    if captured.Some? && t.current.Some? {
      var i :| FoundAt(t.projects, HasId(captured.value.Id()), i) && t.projects[i] == t.current.value;
      assert HasId(captured.value.Id())(t.projects[i]);
    }
  }

  /** A write the backend rejects changes nothing in the store. */
  lemma FailedWriteKeepsState(s: State, id: string, error: Option<string>, userId: Option<string>, b: Backend, parse: string -> Date)
    requires error.Some?
    ensures AfterWrite(s, error, userId, b, parse) == s
    ensures AfterDeleteProject(s, id, error, userId, b, parse) == s
  {
  }

  /**
   * Deleting the open project clears the selection when the backend accepted
   * the delete and the reload does not bring the project back; deleting
   * another project keeps the selection as any reload would.
   */
  lemma DeleteProjectSelection(s: State, id: string, userId: Option<string>, b: Backend, parse: string -> Date)
    requires b.projects.Rows? ==> forall i :: 0 <= i < |b.projects.rows| ==> b.projects.rows[i].id != id
    ensures s.current.Some? && s.current.value.Id() == id ==>
      AfterDeleteProject(s, id, None, userId, b, parse).current.None?
    ensures s.current.None? || s.current.value.Id() != id ==>
      AfterDeleteProject(s, id, None, userId, b, parse) == Refresh(s, s.current, userId, b, parse)
  {
    var t := AfterDeleteProject(s, id, None, userId, b, parse);
    if s.current.Some? && s.current.value.Id() == id && Present(userId) && b.probe.None? && b.projects.Rows? {
      RefreshResyncs(s.(current := None), s.current, userId, b, parse);
      RefreshMapsRows(s.(current := None), s.current, userId, b, parse);
    }
  }

  /** The store, with the writes it has sent so far. */
  class Store {
    var projects: seq<Project>
    var currentProject: Option<Project>
    var loadingProjects: bool
    var writes: seq<Write>

    function Snapshot(): State
      reads this
    {
      State(projects, currentProject, loadingProjects)
    }

    constructor ()
      ensures Snapshot() == State([], None, true) && writes == []
    {
      projects, currentProject, loadingProjects, writes := [], None, true, [];
    }

    /** `setCurrentProject` */
    method SetCurrentProject(p: Option<Project>)
      modifies this
      ensures Snapshot() == old(Snapshot()).(current := p) && writes == old(writes)
    {
      currentProject := p;
    }

    /** The reload body, run by a closure that saw `captured` as the current project. */
    method Reload(captured: Option<Project>, userId: Option<string>, b: Backend, parse: string -> Date)
      modifies this
      ensures Snapshot() == Refresh(old(Snapshot()), captured, userId, b, parse) && writes == old(writes)
    {
      if !Present(userId) {
        loadingProjects := false;
        return;
      }
      loadingProjects := true;
      if b.probe.Some? || b.projects.Error? {
        loadingProjects := false;
        return;
      }
      var rows := b.projects.rows;
      projects := seq(|rows|, i requires 0 <= i < |rows| => ToProject(rows[i], b.debts(rows[i].id), parse));
      if captured.Some? {
        currentProject := Find(projects, HasId(captured.value.Id()));
      }
      loadingProjects := false;
    }

    /** `refreshProjects()` called from the current render. */
    method RefreshProjects(userId: Option<string>, b: Backend, parse: string -> Date)
      modifies this
      ensures Snapshot() == Refresh(old(Snapshot()), old(currentProject), userId, b, parse) && writes == old(writes)
    {
      Reload(currentProject, userId, b, parse);
    }

    method AddProject(data: map<string, Value>, error: Option<string>, userId: Option<string>, b: Backend, parse: string -> Date)
      modifies this
      ensures writes == old(writes) + [InsertProjectRow(ProjectInsert(data, userId))]
      ensures Snapshot() == AfterWrite(old(Snapshot()), error, userId, b, parse)
    {
      writes := writes + [InsertProjectRow(ProjectInsert(data, userId))];
      if error.None? {
        Reload(currentProject, userId, b, parse);
      }
    }

    method UpdateProject(id: string, data: map<string, Value>, now: string, error: Option<string>, userId: Option<string>, b: Backend, parse: string -> Date)
      modifies this
      ensures writes == old(writes) + [PatchProjectRow(id, ProjectPatch(data, now))]
      ensures Snapshot() == AfterWrite(old(Snapshot()), error, userId, b, parse)
    {
      writes := writes + [PatchProjectRow(id, ProjectPatch(data, now))];
      if error.None? {
        Reload(currentProject, userId, b, parse);
      }
    }

    /** `deleteProject`: the reload's closure still sees the selection from before the delete. */
    method DeleteProject(id: string, error: Option<string>, userId: Option<string>, b: Backend, parse: string -> Date)
      modifies this
      ensures writes == old(writes) + [DeleteProjectRow(id)]
      ensures Snapshot() == AfterDeleteProject(old(Snapshot()), id, error, userId, b, parse)
    {
      writes := writes + [DeleteProjectRow(id)];
      if error.None? {
        var captured := currentProject;
        if currentProject.Some? && currentProject.value.Id() == id {
          currentProject := None;
        }
        Reload(captured, userId, b, parse);
      }
    }

    method AddUxDebt(projectId: string, data: map<string, Value>, error: Option<string>, userId: Option<string>, b: Backend, parse: string -> Date)
      modifies this
      ensures writes == old(writes) + [InsertDebtRow(DebtInsert(projectId, data))]
      ensures Snapshot() == AfterWrite(old(Snapshot()), error, userId, b, parse)
    {
      writes := writes + [InsertDebtRow(DebtInsert(projectId, data))];
      if error.None? {
        Reload(currentProject, userId, b, parse);
      }
    }

    /** `updateUXDebt`: the project id is accepted and not used. */
    method UpdateUxDebt(projectId: string, debtId: string, data: map<string, Value>, now: string, error: Option<string>, userId: Option<string>, b: Backend, parse: string -> Date)
      modifies this
      ensures writes == old(writes) + [PatchDebtRow(debtId, UpdatePatch(data, now))]
      ensures Snapshot() == AfterWrite(old(Snapshot()), error, userId, b, parse)
    {
      var patch := BuildUpdateData(data, now);
      writes := writes + [PatchDebtRow(debtId, patch)];
      if error.None? {
        Reload(currentProject, userId, b, parse);
      }
    }

    /** `deleteUXDebt`: the project id is accepted and not used. */
    method DeleteUxDebt(projectId: string, debtId: string, error: Option<string>, userId: Option<string>, b: Backend, parse: string -> Date)
      modifies this
      ensures writes == old(writes) + [DeleteDebtRow(debtId)]
      ensures Snapshot() == AfterWrite(old(Snapshot()), error, userId, b, parse)
    {
      writes := writes + [DeleteDebtRow(debtId)];
      if error.None? {
        Reload(currentProject, userId, b, parse);
      }
    }
  }
}
