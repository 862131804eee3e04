/**
 * The project page (`src/pages/ProjectPage.tsx`): it looks the route's
 * project up in the store, makes it the current project or sends the user
 * back to the dashboard, and shows its counts and its last update date.
 */
module ProjectPage {
  import opened Wrappers
  import opened Domain
  import opened Seqs
  import opened Stats
  import opened Js
  import ProjectStore

  /** `projects.find(p => p.id === id)`; a missing route id matches nothing. */
  function FindProject(ps: seq<Project>, id: Option<string>): (r: Option<Project>)
    ensures r.Some? ==> id.Some? && r.value in ps && r.value.Id() == id.value
    ensures r.Some? ==> exists i :: FoundAt(ps, ProjectStore.HasId(id.value), i) && ps[i] == r.value
    ensures r.None? <==> id.None? || forall i :: 0 <= i < |ps| ==> ps[i].Id() != id.value
  {
    if id.None? then None
    else
      var r := Find(ps, ProjectStore.HasId(id.value));
      if r.Some? then
        var i :| FoundAt(ps, ProjectStore.HasId(id.value), i) && ps[i] == r.value;
        assert ProjectStore.HasId(id.value)(ps[i]);
        r
      else r
  }

  /** What the page's effect does. */
  datatype Effect = SelectProject(project: Project) | GoToDashboard | NoEffect

  /** The effect: select the found project, otherwise leave for the dashboard when the route has an id. */
  function EffectOf(ps: seq<Project>, id: Option<string>): (e: Effect)
    ensures e.SelectProject? <==> FindProject(ps, id).Some?
    ensures e.SelectProject? ==> e.project == FindProject(ps, id).value
    ensures e.GoToDashboard? <==> FindProject(ps, id).None? && id.Some? && id.value != ""
  {
    var found := FindProject(ps, id);
    if found.Some? then SelectProject(found.value)
    else if id.Some? && id.value != "" then GoToDashboard
    else NoEffect
  }

  /** Running the effect against the store selects exactly the project the route names. */
  method RunEffect(store: ProjectStore.Store, ps: seq<Project>, id: Option<string>) returns (e: Effect)
    modifies store
    ensures e == EffectOf(ps, id)
    ensures e.SelectProject? ==> store.Snapshot() == old(store.Snapshot()).(current := Some(e.project))
    ensures !e.SelectProject? ==> store.Snapshot() == old(store.Snapshot())
    ensures store.writes == old(store.writes)
  {
    e := EffectOf(ps, id);
    if e.SelectProject? {
      store.SetCurrentProject(Some(e.project));
    }
  }

  /** A value handed to `formatDate`: a `Date` object or any other JavaScript value. */
  datatype DateArg = DateObject(date: Date) | Plain(value: Value)

  const Unknown := "Unknown"

  /** The date `formatDate` would format, if any. */
  function DateOf(x: DateArg, parse: string -> Date): Option<Date> {
    match x
    case DateObject(d) => Some(d)
    case Plain(v) => if Truthy(v) && v.Str? then Some(parse(v.s)) else None
  }

  /**
   * `formatDate`: 'Unknown' for a falsy value, a value that is neither a date
   * nor a string, or an invalid date; otherwise the locale's rendering.
   */
  function FormatDate(x: DateArg, parse: string -> Date, locale: int -> string): string {
    if x.Plain? && !Truthy(x.value) then Unknown
    else if x.Plain? && !x.value.Str? then Unknown
    else
      var d := if x.DateObject? then x.date else parse(x.value.s);
      if d.InvalidDate? then Unknown else locale(d.millis)
  }

  /**
   * For a locale that never writes 'Unknown', the result is 'Unknown' exactly
   * when there is no valid date to format, and otherwise that date's rendering.
   */
  lemma FormatDateUnknown(x: DateArg, parse: string -> Date, locale: int -> string)
    requires forall m :: locale(m) != Unknown
    ensures FormatDate(x, parse, locale) == Unknown <==> DateOf(x, parse).None? || DateOf(x, parse).value.InvalidDate?
    ensures DateOf(x, parse).Some? && DateOf(x, parse).value.Moment? ==>
      FormatDate(x, parse, locale) == locale(DateOf(x, parse).value.millis)
  {
  }

  /** `project.updated_at || project.updatedAt`: the row's text when it is non-empty, else the parsed date. */
  function UpdatedArg(p: Project): DateArg {
    if p.row.updated_at != "" then Plain(Str(p.row.updated_at)) else DateObject(p.updatedAt)
  }

  /** The header's date is the row's `updated_at` read by the same parser the store uses. */
  lemma UpdatedLabel(p: Project, parse: string -> Date, locale: int -> string)
    requires forall m :: locale(m) != Unknown
    requires p.updatedAt == parse(p.row.updated_at)
    ensures var shown := FormatDate(UpdatedArg(p), parse, locale);
      && (shown == Unknown <==> p.updatedAt.InvalidDate?)
      && (p.updatedAt.Moment? ==> shown == locale(p.updatedAt.millis))
  {
    FormatDateUnknown(UpdatedArg(p), parse, locale);
  }

  /** What the page shows: a spinner until the project is found, then its header and counts. */
  datatype Page = Spinner | Loaded(project: Project, severity: SeverityStats, status: StatusStats, total: nat, updated: string)

  function PageOf(ps: seq<Project>, id: Option<string>, parse: string -> Date, locale: int -> string): (pg: Page)
    ensures pg.Spinner? <==> FindProject(ps, id).None?
    ensures pg.Loaded? ==>
      && pg.project == FindProject(ps, id).value
      && pg.total == |pg.project.uxDebts|
      && pg.status.open + pg.status.inProgress + pg.status.resolved == pg.total
      && pg.severity.critical + pg.severity.high + pg.severity.medium + pg.severity.low == pg.total
  {
    var found := FindProject(ps, id);
    if found.None? then Spinner
    else
      var p := found.value;
      Loaded(p, SeverityStatsOf(p.uxDebts), StatusStatsOf(p.uxDebts), |p.uxDebts|,
             FormatDate(UpdatedArg(p), parse, locale))
  }
}
