/**
 * The application's entities: the three enumerations of an issue's `type`,
 * `severity` and `status` columns, the `projects` and `ux_debts` table rows,
 * and the records the store builds from them.
 */
module Domain {
  import opened Wrappers

  datatype DebtType = Heuristic | Accessibility | Performance | Visual | Usability
  datatype Severity = Low | Medium | High | Critical
  datatype Status = Open | InProgress | Resolved

  const AllTypes: seq<DebtType> := [Heuristic, Accessibility, Performance, Visual, Usability]
  const AllSeverities: seq<Severity> := [Low, Medium, High, Critical]
  const AllStatuses: seq<Status> := [Open, InProgress, Resolved]

  function TypeName(t: DebtType): string {
    match t
    case Heuristic => "Heuristic"
    case Accessibility => "Accessibility"
    case Performance => "Performance"
    case Visual => "Visual"
    case Usability => "Usability"
  }

  function SeverityName(s: Severity): string {
    match s
    case Low => "Low"
    case Medium => "Medium"
    case High => "High"
    case Critical => "Critical"
  }

  function StatusName(s: Status): string {
    match s
    case Open => "Open"
    case InProgress => "In Progress"
    case Resolved => "Resolved"
  }

  /** The column value as a type, if it is one of the five names. */
  function ParseType(s: string): (r: Option<DebtType>)
    ensures r.Some? ==> TypeName(r.value) == s
    ensures forall t :: TypeName(t) == s ==> r == Some(t)
  {
    if s == "Heuristic" then Some(Heuristic)
    else if s == "Accessibility" then Some(Accessibility)
    else if s == "Performance" then Some(Performance)
    else if s == "Visual" then Some(Visual)
    else if s == "Usability" then Some(Usability)
    else None
  }

  function ParseSeverity(s: string): (r: Option<Severity>)
    ensures r.Some? ==> SeverityName(r.value) == s
    ensures forall v :: SeverityName(v) == s ==> r == Some(v)
  {
    if s == "Low" then Some(Low)
    else if s == "Medium" then Some(Medium)
    else if s == "High" then Some(High)
    else if s == "Critical" then Some(Critical)
    else None
  }

  function ParseStatus(s: string): (r: Option<Status>)
    ensures r.Some? ==> StatusName(r.value) == s
    ensures forall v :: StatusName(v) == s ==> r == Some(v)
  {
    if s == "Open" then Some(Open)
    else if s == "In Progress" then Some(InProgress)
    else if s == "Resolved" then Some(Resolved)
    else None
  }

  /** Distinct values have distinct column names. */
  lemma NamesInjective()
    ensures forall t, u :: TypeName(t) == TypeName(u) ==> t == u
    ensures forall v, w :: SeverityName(v) == SeverityName(w) ==> v == w
    ensures forall v, w :: StatusName(v) == StatusName(w) ==> v == w
  {
    forall t, u | TypeName(t) == TypeName(u) ensures t == u {
      assert ParseType(TypeName(t)) == Some(u);
    }
    forall v, w | SeverityName(v) == SeverityName(w) ensures v == w {
      assert ParseSeverity(SeverityName(v)) == Some(w);
    }
    forall v, w | StatusName(v) == StatusName(w) ensures v == w {
      assert ParseStatus(StatusName(v)) == Some(w);
    }
  }

  /** A timestamp: milliseconds since the epoch, or the invalid date `new Date(garbage)` yields. */
  datatype Date = Moment(millis: int) | InvalidDate

  /** A `projects` row. */
  datatype ProjectRow = ProjectRow(
    id: string, title: string, description: string, color: string,
    owner_id: string, created_at: string, updated_at: string)

  /** A `ux_debts` row; the `type` column is `debtType`. */
  datatype DebtRow = DebtRow(
    id: string, project_id: string, title: string, screen: string,
    debtType: DebtType, severity: Severity, status: Status,
    description: string, recommendation: string, logged_by: string,
    assignee: Option<string>, figma_url: Option<string>, screenshot_url: Option<string>,
    created_at: string, updated_at: string)

  /** An issue as the app holds it: the row's columns plus camel-case copies and parsed dates. */
  datatype UXDebt = UXDebt(row: DebtRow, loggedBy: string, figmaUrl: Option<string>, createdAt: Date, updatedAt: Date)

  /** A project as the app holds it, with its issues. */
  datatype Project = Project(row: ProjectRow, createdAt: Date, updatedAt: Date, uxDebts: seq<UXDebt>) {
    function Id(): string { row.id }
  }
}
