/**
 * The two views of a project's issues (`src/components/DebtListView.tsx`
 * and `src/components/DebtKanbanView.tsx`): a table of the issues that match
 * the search, and a board with one column per status.
 */
module DebtViews {
  import opened Wrappers
  import opened Domain
  import opened Seqs
  import opened Stats
  import opened Search
  import opened Js
  import ProjectStore
  import opened ProjectPage

  // ---- date cells ----

  /** What rendering a view comes to: the markup, or a `TypeError` that aborts the render. */
  datatype Rendering<T> = Rendered(view: T) | Throws

  const InvalidDateText := "Invalid Date"

  /**
   * `x.toLocaleDateString()`: a `Date` renders as the locale's text, or as
   * 'Invalid Date'; any other value has no such method, so the call throws.
   */
  function LocaleDate(x: DateArg, locale: int -> string): (r: Rendering<string>)
    ensures r.Throws? <==> x.Plain?
    ensures x.DateObject? && x.date.Moment? ==> r == Rendered(locale(x.date.millis))
    ensures x.DateObject? && x.date.InvalidDate? ==> r == Rendered(InvalidDateText)
  {
    match x
    case DateObject(d) => Rendered(if d.Moment? then locale(d.millis) else InvalidDateText)
    case Plain(_) => Throws
  }

  /** The date cell as written, `debt.created_at`: the row's ISO text, a string. */
  function CreatedAsWritten(d: UXDebt): DateArg {
    Plain(Str(d.row.created_at))
  }

  /** The date cell as intended, `debt.createdAt`: the `Date` the store parsed. */
  function Created(d: UXDebt): DateArg {
    DateObject(d.createdAt)
  }

  /** The date cells of the issues, rendered in order; the render aborts when one throws. */
  function RenderCells(ds: seq<UXDebt>, cell: UXDebt -> DateArg, locale: int -> string): (r: Rendering<seq<string>>)
    ensures r.Throws? <==> exists i :: 0 <= i < |ds| && cell(ds[i]).Plain?
    ensures r.Rendered? ==>
      && |r.view| == |ds|
      && forall i :: 0 <= i < |ds| ==> Rendered(r.view[i]) == LocaleDate(cell(ds[i]), locale)
  {
    if ds == [] then Rendered([])
    else
      match LocaleDate(cell(ds[0]), locale)
      case Throws => Throws
      case Rendered(first) =>
        match RenderCells(ds[1..], cell, locale)
        case Throws =>
          assert forall i :: 0 <= i < |ds[1..]| ==> ds[1..][i] == ds[i + 1];
          Throws
        case Rendered(rest) =>
          assert forall i :: 1 <= i < |ds| ==> ds[i] == ds[1..][i - 1];
          Rendered([first] + rest)
  }

  /** With the parsed dates, every cell renders, the i-th as the i-th issue's creation date. */
  lemma CreatedCellsRender(ds: seq<UXDebt>, locale: int -> string)
    ensures RenderCells(ds, Created, locale).Rendered?
    ensures forall i :: 0 <= i < |ds| ==>
      RenderCells(ds, Created, locale).view[i]
      == (if ds[i].createdAt.Moment? then locale(ds[i].createdAt.millis) else InvalidDateText)
  {
    var r := RenderCells(ds, Created, locale);
    forall i | 0 <= i < |ds|
      ensures r.view[i] == (if ds[i].createdAt.Moment? then locale(ds[i].createdAt.millis) else InvalidDateText)
    {
      assert Rendered(r.view[i]) == LocaleDate(Created(ds[i]), locale);
    }
  }

  /** As written, a list of at least one issue does not render. */
  lemma CreatedAsWrittenThrows(ds: seq<UXDebt>, locale: int -> string)
    ensures RenderCells(ds, CreatedAsWritten, locale).Throws? <==> ds != []
  {
    if ds != [] {
      assert CreatedAsWritten(ds[0]).Plain?;
    }
  }

  // ---- list view ----

  /** What the list view renders below the search box. */
  datatype ListView = NoDebtsFound(hint: string) | Table(debts: seq<UXDebt>, dates: seq<string>)

  const TryAdjusting := "Try adjusting your search terms"
  const StartLogging := "Start by logging your first UX debt issue"

  /** The list view with the date cells read by `cell`. */
  function ListViewWith(current: Option<Project>, term: string, cell: UXDebt -> DateArg, locale: int -> string)
    : Rendering<Option<ListView>>
  {
    if current.None? then Rendered(None)
    else
      var shown := FilterDebts(current.value.uxDebts, term);
      if shown == [] then Rendered(Some(NoDebtsFound(if term != "" then TryAdjusting else StartLogging)))
      else
        match RenderCells(shown, cell, locale)
        case Throws => Throws
        case Rendered(dates) => Rendered(Some(Table(shown, dates)))
  }

  /** The list view as written: the date cells call `toLocaleDateString` on `debt.created_at`. */
  function ListViewAsWritten(current: Option<Project>, term: string, locale: int -> string): Rendering<Option<ListView>> {
    ListViewWith(current, term, CreatedAsWritten, locale)
  }

  /**
   * The list view with the date cells read from `debt.createdAt`: nothing
   * without a current project; the empty state, or the table of matching
   * issues with their creation dates.
   */
  function ListViewOf(current: Option<Project>, term: string, locale: int -> string): (r: Option<ListView>)
    ensures r.None? <==> current.None?
    ensures r.Some? ==> (r.value.NoDebtsFound? <==> FilterDebts(current.value.uxDebts, term) == [])
    ensures r.Some? && r.value.Table? ==>
      && r.value.debts == FilterDebts(current.value.uxDebts, term)
      && |r.value.dates| == |r.value.debts|
      && forall i :: 0 <= i < |r.value.debts| ==>
           r.value.dates[i] == (if r.value.debts[i].createdAt.Moment? then locale(r.value.debts[i].createdAt.millis) else InvalidDateText)
    ensures r.Some? && r.value.NoDebtsFound? ==> (r.value.hint == StartLogging <==> term == "")
  {
    if current.None? then None
    else
      CreatedCellsRender(FilterDebts(current.value.uxDebts, term), locale);
      ListViewWith(current, term, Created, locale).view
  }

  /**
   * As written, the list renders only when no issue is shown: the table's
   * first row already throws. Where it does render, it agrees with the
   * corrected view.
   */
  lemma ListThrowsIffRows(current: Option<Project>, term: string, locale: int -> string)
    ensures ListViewAsWritten(current, term, locale).Throws?
      <==> current.Some? && FilterDebts(current.value.uxDebts, term) != []
    ensures ListViewAsWritten(current, term, locale).Rendered? ==>
      ListViewAsWritten(current, term, locale).view == ListViewOf(current, term, locale)
  {
    if current.Some? {
      CreatedAsWrittenThrows(FilterDebts(current.value.uxDebts, term), locale);
    }
  }

  /** For instance, a project holding one issue, with an empty search, shows no table. */
  lemma ListThrowsExample(p: Project, locale: int -> string)
    requires |p.uxDebts| == 1
    ensures ListViewAsWritten(Some(p), "", locale).Throws?
    ensures ListViewOf(Some(p), "", locale).value.Table?
  {
    EmptyTermKeepsAll([], p.uxDebts);
    ListThrowsIffRows(Some(p), "", locale);
  }

  /**
   * The invitation to log a first issue appears exactly when the current
   * project has no issues at all.
   */
  lemma StartLoggingIffNoIssues(p: Project, term: string, locale: int -> string)
    ensures ListViewOf(Some(p), term, locale) == Some(NoDebtsFound(StartLogging)) <==> term == "" && p.uxDebts == []
  {
    EmptyTermKeepsAll([], p.uxDebts);
  }

  // ---- kanban view ----

  /** A board column: its status, its cards' issues and dates, and whether it offers a drop zone. */
  datatype Column = Column(status: Status, debts: seq<UXDebt>, dates: seq<string>, dropZone: bool)

  /** The column of status `s` with the date cells read by `cell`. */
  function ColumnWith(shown: seq<UXDebt>, s: Status, cell: UXDebt -> DateArg, locale: int -> string): Rendering<Column> {
    var ds := Filter(shown, HasStatus(s));
    match RenderCells(ds, cell, locale)
    case Throws => Throws
    case Rendered(dates) => Rendered(Column(s, ds, dates, ds == []))
  }

  /** A column, with its cards dated from `debt.createdAt`. */
  function ColumnOf(shown: seq<UXDebt>, s: Status, locale: int -> string): (c: Column)
    ensures c.status == s && c.debts == Filter(shown, HasStatus(s))
    ensures c.dropZone <==> c.debts == []
    ensures |c.dates| == |c.debts|
    ensures forall i :: 0 <= i < |c.debts| ==>
      c.dates[i] == (if c.debts[i].createdAt.Moment? then locale(c.debts[i].createdAt.millis) else InvalidDateText)
  {
    CreatedCellsRender(Filter(shown, HasStatus(s)), locale);
    ColumnWith(shown, s, Created, locale).view
  }

  /** `columns.map(...)` with the date cells read by `cell`: the render aborts at the first throwing column. */
  function BoardWith(current: Option<Project>, term: string, cell: UXDebt -> DateArg, locale: int -> string)
    : Rendering<Option<seq<Column>>>
  {
    if current.None? then Rendered(None)
    else
      var shown := FilterDebts(current.value.uxDebts, term);
      match (ColumnWith(shown, Open, cell, locale), ColumnWith(shown, InProgress, cell, locale),
             ColumnWith(shown, Resolved, cell, locale))
      case (Rendered(a), Rendered(b), Rendered(c)) => Rendered(Some([a, b, c]))
      case _ => Throws
  }

  /** The board as written: each card calls `toLocaleDateString` on `debt.created_at`. */
  function BoardAsWritten(current: Option<Project>, term: string, locale: int -> string): Rendering<Option<seq<Column>>> {
    BoardWith(current, term, CreatedAsWritten, locale)
  }

  /** The board, with its cards dated from `debt.createdAt`: Open, In Progress and Resolved, in that order. */
  function BoardOf(current: Option<Project>, term: string, locale: int -> string): (r: Option<seq<Column>>)
    ensures r.None? <==> current.None?
    ensures r.Some? ==>
      && |r.value| == 3
      && forall i :: 0 <= i < 3 ==> r.value[i] == ColumnOf(FilterDebts(current.value.uxDebts, term), AllStatuses[i], locale)
  {
    if current.None? then None
    else
      var shown := FilterDebts(current.value.uxDebts, term);
      Some([ColumnOf(shown, Open, locale), ColumnOf(shown, InProgress, locale), ColumnOf(shown, Resolved, locale)])
  }

  /**
   * Every matching issue sits in exactly the column of its status, and the
   * three counts on the column badges add up to the number of matches.
   */
  lemma BoardPartitions(p: Project, term: string, locale: int -> string)
    ensures var cols := BoardOf(Some(p), term, locale).value;
      var shown := FilterDebts(p.uxDebts, term);
      && |cols[0].debts| + |cols[1].debts| + |cols[2].debts| == |shown|
      && forall i, d :: 0 <= i < 3 ==> (d in cols[i].debts <==> d in shown && d.row.status == cols[i].status)
  {
    var shown := FilterDebts(p.uxDebts, term);
    StatusPartition(shown);
    forall s { FilterSpec(shown, HasStatus(s)); }
  }

  /**
   * As written, the board renders only when it would show no card; every
   * column then offers its drop zone, so no card is there to be dragged.
   * Where it does render, it agrees with the corrected board.
   */
  lemma BoardThrowsIffCards(current: Option<Project>, term: string, locale: int -> string)
    ensures BoardAsWritten(current, term, locale).Throws?
      <==> current.Some? && FilterDebts(current.value.uxDebts, term) != []
    ensures BoardAsWritten(current, term, locale).Rendered? ==>
      && BoardAsWritten(current, term, locale).view == BoardOf(current, term, locale)
      && (current.Some? ==> forall i :: 0 <= i < 3 ==> BoardOf(current, term, locale).value[i].dropZone)
  {
    if current.Some? {
      var p := current.value;
      var shown := FilterDebts(p.uxDebts, term);
      StatusPartition(shown);
      CreatedAsWrittenThrows(Filter(shown, HasStatus(Open)), locale);
      CreatedAsWrittenThrows(Filter(shown, HasStatus(InProgress)), locale);
      CreatedAsWrittenThrows(Filter(shown, HasStatus(Resolved)), locale);
    }
  }

  /**
   * A drop on a column's drop zone (`handleStatusChange`): the store's
   * `updateUXDebt` with only the column's status; a column with issues has no
   * drop zone.
   */
  function DropWrite(column: Column, debtId: string, now: string): (w: Option<ProjectStore.Write>)
    ensures w.Some? <==> column.dropZone
  {
    if column.dropZone
    then Some(ProjectStore.PatchDebtRow(debtId, ProjectStore.UpdatePatch(map["status" := Str(StatusName(column.status))], now)))
    else None
  }

  /** A drop changes the status column and the time stamp, and nothing else. */
  lemma DropSetsOnlyStatus(column: Column, debtId: string, now: string)
    requires column.dropZone
    ensures var w := DropWrite(column, debtId, now).value;
      && w.id == debtId
      && ProjectStore.Slot(w.columns, ProjectStore.StatusColumn) == Some(Str(StatusName(column.status)))
      && ProjectStore.Slot(w.columns, ProjectStore.UpdatedAtColumn) == Some(Str(now))
      && forall c :: c != ProjectStore.StatusColumn && c != ProjectStore.UpdatedAtColumn ==>
           ProjectStore.Slot(w.columns, c) == None
  {
    var data := map["status" := Str(StatusName(column.status))];
    ProjectStore.PatchShape(data, now);
    forall c | c != ProjectStore.StatusColumn && c != ProjectStore.UpdatedAtColumn
      ensures ProjectStore.Slot(ProjectStore.UpdatePatch(data, now), c) == None
    {
      if c != ProjectStore.ProjectIdColumn {
        assert ProjectStore.FieldOf(c) != "status";
      }
    }
  }
}
