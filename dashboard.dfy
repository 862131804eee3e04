/**
 * The dashboard (`src/pages/DashboardPage.tsx`): the grid of project cards
 * that match the search, each with its status counts, its total, and a row
 * of severity chips from the most to the least severe.
 */
module Dashboard {
  import opened Wrappers
  import opened Domain
  import opened Seqs
  import opened Stats
  import opened Search

  /** A severity chip: the level and how many issues have it. */
  datatype Chip = Chip(level: Severity, count: nat)

  /** `severityStats.level > 0 && (...)` */
  function ChipIf(level: Severity, count: nat): seq<Chip> {
    if count > 0 then [Chip(level, count)] else []
  }

  /** How severe a level is, 0 for `Low` up to 3 for `Critical`. */
  function Rank(v: Severity): nat {
    match v
    case Low => 0
    case Medium => 1
    case High => 2
    case Critical => 3
  }

  function ChipTotal(cs: seq<Chip>): nat {
    if cs == [] then 0 else cs[0].count + ChipTotal(cs[1..])
  }

  /** Levels strictly decrease along the row. */
  predicate Descending(cs: seq<Chip>) {
    forall i, j :: 0 <= i < j < |cs| ==> Rank(cs[i].level) > Rank(cs[j].level)
  }

  /** Every chip is below rank `r`. */
  predicate Below(cs: seq<Chip>, r: nat) {
    forall i :: 0 <= i < |cs| ==> Rank(cs[i].level) < r
  }

  /** `severityStats[level]` */
  function Stat(st: SeverityStats, v: Severity): nat {
    match v
    case Critical => st.critical
    case High => st.high
    case Medium => st.medium
    case Low => st.low
  }

  /** Every chip of the row shows a level with a positive count, with that count. */
  predicate Counted(cs: seq<Chip>, st: SeverityStats) {
    forall i :: 0 <= i < |cs| ==> cs[i].count > 0 && cs[i].count == Stat(st, cs[i].level)
  }

  /** Some chip of the row shows level `w`. */
  predicate Shows(cs: seq<Chip>, w: Severity) {
    exists i :: 0 <= i < |cs| && cs[i].level == w
  }

  /** The chip of `v`, if its count is positive, in front of chips of lower levels. */
  function Prepend(v: Severity, st: SeverityStats, rest: seq<Chip>): (r: seq<Chip>)
    requires Descending(rest) && Below(rest, Rank(v)) && Counted(rest, st)
    ensures Descending(r) && Below(r, Rank(v) + 1) && Counted(r, st)
    ensures ChipTotal(r) == Stat(st, v) + ChipTotal(rest)
    ensures forall w :: Shows(r, w) <==> (w == v && Stat(st, v) > 0) || Shows(rest, w)
  {
    PrependFacts(v, st, rest);
    ChipIf(v, Stat(st, v)) + rest
  }

  lemma PrependFacts(v: Severity, st: SeverityStats, rest: seq<Chip>)
    requires Descending(rest) && Below(rest, Rank(v)) && Counted(rest, st)
    ensures var r := ChipIf(v, Stat(st, v)) + rest;
      && Descending(r) && Below(r, Rank(v) + 1) && Counted(r, st)
      && ChipTotal(r) == Stat(st, v) + ChipTotal(rest)
      && forall w :: Shows(r, w) <==> (w == v && Stat(st, v) > 0) || Shows(rest, w)
  {
    var r := ChipIf(v, Stat(st, v)) + rest;
    if Stat(st, v) > 0 {
      assert r[1..] == rest;
      forall w | Shows(rest, w) ensures Shows(r, w) {
        var i :| 0 <= i < |rest| && rest[i].level == w;
        assert r[i + 1] == rest[i];
      }
      forall w | Shows(r, w) && w != v ensures Shows(rest, w) {
        var i :| 0 <= i < |r| && r[i].level == w;
        assert i > 0 && rest[i - 1] == r[i];
      }
      assert Shows(r, v) by {
        assert r[0].level == v;
      }
    } else {
      assert r == rest;
    }
  }

  /**
   * The severity row of a card: none when the project has no issues, else
   * the levels that occur, most severe first, each with its count.
   */
  function SeverityRow(ds: seq<UXDebt>): (r: Option<seq<Chip>>)
    ensures r.None? <==> ds == []
    ensures r.Some? ==> Descending(r.value)
    ensures r.Some? ==> forall i :: 0 <= i < |r.value| ==>
      r.value[i].count > 0 && r.value[i].count == SeverityCount(ds, r.value[i].level)
  {
    if |ds| > 0 then
      var st := SeverityStatsOf(ds);
      var cs := Chips(st);
      assert forall v :: Stat(st, v) == SeverityCount(ds, v);
      Some(cs)
    else None
  }

  /** `critical`, `high`, `medium` and `low`, each shown when positive. */
  function Chips(st: SeverityStats): (cs: seq<Chip>)
    ensures Descending(cs) && Counted(cs, st)
    ensures ChipTotal(cs) == st.critical + st.high + st.medium + st.low
    ensures forall w :: Shows(cs, w) <==> Stat(st, w) > 0
  {
    var low := Prepend(Low, st, []);
    var medium := Prepend(Medium, st, low);
    var high := Prepend(High, st, medium);
    Prepend(Critical, st, high)
  }

  /**
   * The chips of a card show every level that occurs and no other, and their
   * counts add up to the card's total.
   */
  lemma SeverityRowCovers(ds: seq<UXDebt>)
    requires ds != []
    ensures var cs := SeverityRow(ds).value;
      && ChipTotal(cs) == |ds|
      && forall v :: Shows(cs, v) <==> SeverityCount(ds, v) > 0
  {
    var st := SeverityStatsOf(ds);
    assert forall v :: Stat(st, v) == SeverityCount(ds, v);
  }

  /** A project card: `getStatusStats`, `totalDebts` and the severity row. */
  datatype Card = Card(project: Project, status: StatusStats, total: nat, severity: Option<seq<Chip>>)

  function CardOf(p: Project): (c: Card)
    ensures c.project == p && c.total == |p.uxDebts|
    ensures c.status.open + c.status.inProgress + c.status.resolved == c.total
    ensures c.severity.None? <==> c.total == 0
  {
    Card(p, StatusStatsOf(p.uxDebts), |p.uxDebts|, SeverityRow(p.uxDebts))
  }

  /** The projects area: the empty state, or one card per matching project. */
  datatype Grid = NoProjectsFound | Cards(cards: seq<Card>)

  function GridOf(ps: seq<Project>, term: string): (g: Grid)
    ensures g.NoProjectsFound? <==> FilterProjects(ps, term) == []
    ensures g.Cards? ==>
      && |g.cards| == |FilterProjects(ps, term)|
      && forall i :: 0 <= i < |g.cards| ==> g.cards[i] == CardOf(FilterProjects(ps, term)[i])
  {
    var shown := FilterProjects(ps, term);
    if shown == [] then NoProjectsFound
    else Cards(seq(|shown|, i requires 0 <= i < |shown| => CardOf(shown[i])))
  }

  /** With an empty search the grid is empty exactly when there are no projects. */
  lemma EmptyGridMeansNoProjects(ps: seq<Project>)
    ensures GridOf(ps, "").NoProjectsFound? <==> ps == []
  {
    EmptyTermKeepsAll(ps, []);
  }

  /** Every card shown belongs to a project that matches the search. */
  lemma CardsMatch(ps: seq<Project>, term: string)
    ensures var g := GridOf(ps, term);
      g.Cards? ==> forall i :: 0 <= i < |g.cards| ==>
        var p := g.cards[i].project;
        p in ps && (Matches(p.row.title, term) || Matches(p.row.description, term))
  {
    var g := GridOf(ps, term);
    if g.Cards? {
      forall i | 0 <= i < |g.cards| ensures g.cards[i].project in FilterProjects(ps, term) {
        assert g.cards[i].project == FilterProjects(ps, term)[i];
      }
    }
  }
}
