/**
 * The search boxes of the dashboard and of the project page: a project or an
 * issue is shown when one of its text fields contains the search term,
 * ignoring case.
 */
module Search {
  import opened Domain
  import opened Seqs
  import opened Text

  /** `field.toLowerCase().includes(term.toLowerCase())` */
  predicate Matches(field: string, term: string) {
    Contains(Lower(field), Lower(term))
  }

  function ProjectMatches(term: string): Project -> bool {
    (p: Project) => Matches(p.row.title, term) || Matches(p.row.description, term)
  }

  function DebtMatches(term: string): UXDebt -> bool {
    (d: UXDebt) => Matches(d.row.title, term) || Matches(d.row.screen, term) || Matches(d.row.description, term)
  }

  /** The dashboard's `filteredProjects`: the matching projects, in their order. */
  function FilterProjects(ps: seq<Project>, term: string): (r: seq<Project>)
    ensures Subsequence(r, ps)
    ensures forall p :: p in r <==> p in ps && (Matches(p.row.title, term) || Matches(p.row.description, term))
    ensures forall p ::
      multiset(r)[p] == if Matches(p.row.title, term) || Matches(p.row.description, term) then multiset(ps)[p] else 0
  {
    FilterSpec(ps, ProjectMatches(term));
    Filter(ps, ProjectMatches(term))
  }

  /** The project page's `filteredDebts`: the matching issues, in their order. */
  function FilterDebts(ds: seq<UXDebt>, term: string): (r: seq<UXDebt>)
    ensures Subsequence(r, ds)
    ensures forall d :: d in r <==>
      d in ds && (Matches(d.row.title, term) || Matches(d.row.screen, term) || Matches(d.row.description, term))
    ensures forall d ::
      multiset(r)[d]
      == if Matches(d.row.title, term) || Matches(d.row.screen, term) || Matches(d.row.description, term)
         then multiset(ds)[d] else 0
  {
    FilterSpec(ds, DebtMatches(term));
    Filter(ds, DebtMatches(term))
  }

  /** An empty search shows everything. */
  lemma EmptyTermKeepsAll(ps: seq<Project>, ds: seq<UXDebt>)
    ensures FilterProjects(ps, "") == ps
    ensures FilterDebts(ds, "") == ds
  {
    assert Lower("") == "";
    forall i | 0 <= i < |ps| ensures ProjectMatches("")(ps[i]) {
      ContainsEmpty(Lower(ps[i].row.title));
    }
    FilterAll(ps, ProjectMatches(""));
    forall i | 0 <= i < |ds| ensures DebtMatches("")(ds[i]) {
      ContainsEmpty(Lower(ds[i].row.title));
    }
    FilterAll(ds, DebtMatches(""));
  }

  /** A field that contains a term also contains every prefix of it. */
  lemma MatchesPrefix(field: string, term: string, longer: string)
    requires IsPrefix(term, longer)
    requires Matches(field, longer)
    ensures Matches(field, term)
  {
    var h := Lower(field);
    ContainsAt(h, Lower(longer));
    var i :| OccursAt(h, Lower(longer), i);
    assert h[i..i + |term|] == Lower(term) by {
      forall k | 0 <= k < |term| ensures h[i + k] == Lower(term)[k] {
        assert h[i + k] == Lower(longer)[k];
      }
    }
    assert OccursAt(h, Lower(term), i);
    ContainsAt(h, Lower(term));
  }

  /** Typing more characters into the search box never brings back an issue it had hidden. */
  lemma SearchNarrows(ds: seq<UXDebt>, term: string, longer: string)
    requires IsPrefix(term, longer)
    ensures forall d :: d in FilterDebts(ds, longer) ==> d in FilterDebts(ds, term)
  {
    forall d | d in FilterDebts(ds, longer) ensures d in FilterDebts(ds, term) {
      if Matches(d.row.title, longer) {
        MatchesPrefix(d.row.title, term, longer);
      } else if Matches(d.row.screen, longer) {
        MatchesPrefix(d.row.screen, term, longer);
      } else {
        MatchesPrefix(d.row.description, term, longer);
      }
    }
  }

  /** The search ignores the case of ASCII letters in the term. */
  lemma SearchIgnoresCase(field: string, term: string)
    ensures Matches(field, Upper(term)) == Matches(field, term)
  {
    assert Lower(Upper(term)) == Lower(term) by {
      forall k | 0 <= k < |term| ensures Lower(Upper(term))[k] == Lower(term)[k] {
        var c := term[k];
        assert Upper(term)[k] == UpperChar(c);
      }
    }
  }
}
