/**
 * The analytics page (`src/pages/AnalyticsPage.tsx`): totals over all
 * projects by status, severity and type, the resolution rate, and the
 * per-project breakdown table.
 */
module Analytics {
  import opened Domain
  import opened Seqs
  import opened Stats

  /** `projects.reduce((sum, p) => sum + p.uxDebts.length, 0)` */
  function TotalDebts(ps: seq<Project>): nat {
    if ps == [] then 0 else TotalDebts(ps[..|ps| - 1]) + |ps[|ps| - 1].uxDebts|
  }

  /** `projects.reduce((sum, p) => sum + p.uxDebts.filter(d => d.status === s).length, 0)` */
  function StatusTotal(ps: seq<Project>, s: Status): nat {
    if ps == [] then 0 else StatusTotal(ps[..|ps| - 1], s) + StatusCount(ps[|ps| - 1].uxDebts, s)
  }

  function SeverityTotal(ps: seq<Project>, v: Severity): nat {
    if ps == [] then 0 else SeverityTotal(ps[..|ps| - 1], v) + SeverityCount(ps[|ps| - 1].uxDebts, v)
  }

  /** Every issue of every project, project by project. */
  function AllDebts(ps: seq<Project>): seq<UXDebt> {
    if ps == [] then [] else AllDebts(ps[..|ps| - 1]) + ps[|ps| - 1].uxDebts
  }

  /** The totals are the counts over all issues taken together. */
  lemma {:induction false} TotalsAreFlatCounts(ps: seq<Project>)
    ensures TotalDebts(ps) == |AllDebts(ps)|
    ensures forall s :: StatusTotal(ps, s) == StatusCount(AllDebts(ps), s)
    ensures forall v :: SeverityTotal(ps, v) == SeverityCount(AllDebts(ps), v)
  {
    if ps != [] {
      var init := ps[..|ps| - 1];
      TotalsAreFlatCounts(init);
      CountsAppend(AllDebts(init), ps[|ps| - 1].uxDebts);
    }
  }

  /** `open + inProgress + resolved == totalDebts` */
  lemma StatusTotalsSum(ps: seq<Project>)
    ensures StatusTotal(ps, Open) + StatusTotal(ps, InProgress) + StatusTotal(ps, Resolved) == TotalDebts(ps)
  {
    TotalsAreFlatCounts(ps);
    StatusPartition(AllDebts(ps));
  }

  /** `critical + high + medium + low == totalDebts` */
  lemma SeverityTotalsSum(ps: seq<Project>)
    ensures SeverityTotal(ps, Critical) + SeverityTotal(ps, High)
          + SeverityTotal(ps, Medium) + SeverityTotal(ps, Low) == TotalDebts(ps)
  {
    TotalsAreFlatCounts(ps);
    SeverityPartition(AllDebts(ps));
  }

  /** No severity bar is wider than the whole. */
  lemma SeverityBound(ps: seq<Project>, v: Severity)
    ensures SeverityTotal(ps, v) <= TotalDebts(ps)
  {
    TotalsAreFlatCounts(ps);
  }

  /**
   * `acc` is the type tally of `ds`: its keys are type names, a type's name is
   * a key exactly when the type occurs, and its value is the occurrence count.
   */
  predicate IsTypeTally(acc: map<string, nat>, ds: seq<UXDebt>) {
    && (forall k :: k in acc ==> ParseType(k).Some?)
    && (forall t :: TypeName(t) in acc <==> TypeCount(ds, t) > 0)
    && (forall t :: TypeName(t) in acc ==> acc[TypeName(t)] == TypeCount(ds, t))
  }

  /** `acc[debt.type] = (acc[debt.type] || 0) + 1` keeps the tally. */
  lemma TallyStep(acc: map<string, nat>, seen: seq<UXDebt>, d: UXDebt)
    requires IsTypeTally(acc, seen)
    ensures var k := TypeName(d.row.debtType);
      IsTypeTally(acc[k := (if k in acc then acc[k] else 0) + 1], seen + [d])
  {
    NamesInjective();
    forall t ensures TypeCount(seen + [d], t) == TypeCount(seen, t) + (if d.row.debtType == t then 1 else 0) {
      FilterAppend(seen, [d], HasType(t));
      assert Filter([d], HasType(t)) == (if HasType(t)(d) then [d] else []) + Filter([d][1..], HasType(t));
    }
  }

  /** `typeStats`: the accumulator dictionary filled by `forEach` over every project's issues. */
  method TypeStats(ps: seq<Project>) returns (acc: map<string, nat>)
    ensures IsTypeTally(acc, AllDebts(ps))
  {
    acc := map[];
    var i := 0;
    while i < |ps|
      invariant 0 <= i <= |ps|
      invariant IsTypeTally(acc, AllDebts(ps[..i]))
    {
      var ds := ps[i].uxDebts;
      var j := 0;
      ghost var seen := AllDebts(ps[..i]);
      assert seen + ds[..j] == seen;
      while j < |ds|
        invariant 0 <= j <= |ds|
        invariant IsTypeTally(acc, seen + ds[..j])
      {
        var k := TypeName(ds[j].row.debtType);
        TallyStep(acc, seen + ds[..j], ds[j]);
        acc := acc[k := (if k in acc then acc[k] else 0) + 1];
        assert seen + ds[..j + 1] == (seen + ds[..j]) + [ds[j]];
        j := j + 1;
      }
      assert ps[..i + 1][..i] == ps[..i];
      assert ds[..j] == ds;
      i := i + 1;
    }
    assert ps[..i] == ps;
  }

  /** `acc[t] || 0` */
  function Lookup(acc: map<string, nat>, t: DebtType): nat {
    if TypeName(t) in acc then acc[TypeName(t)] else 0
  }

  /** The sum of a tally's values over the types `ts` (a tally's keys are all type names). */
  function TallyTotal(acc: map<string, nat>, ts: seq<DebtType>): nat {
    if ts == [] then 0 else Lookup(acc, ts[0]) + TallyTotal(acc, ts[1..])
  }

  /** The values of `typeStats` add up to `totalDebts`. */
  lemma TypeStatsSum(ps: seq<Project>, acc: map<string, nat>)
    requires IsTypeTally(acc, AllDebts(ps))
    ensures TallyTotal(acc, AllTypes) == TotalDebts(ps)
  {
    var ds := AllDebts(ps);
    TotalsAreFlatCounts(ps);
    TypePartition(ds);
    var ts := AllTypes;
    assert TallyTotal(acc, ts[4..]) == Lookup(acc, Usability) by {
      assert ts[4..][1..] == [];
    }
    assert TallyTotal(acc, ts[3..]) == Lookup(acc, Visual) + TallyTotal(acc, ts[4..]) by {
      assert ts[3..][1..] == ts[4..];
    }
    assert TallyTotal(acc, ts[2..]) == Lookup(acc, Performance) + TallyTotal(acc, ts[3..]) by {
      assert ts[2..][1..] == ts[3..];
    }
    assert TallyTotal(acc, ts[1..]) == Lookup(acc, Accessibility) + TallyTotal(acc, ts[2..]) by {
      assert ts[1..][1..] == ts[2..];
    }
    LookupIsCount(acc, ds, Heuristic);
    LookupIsCount(acc, ds, Accessibility);
    LookupIsCount(acc, ds, Performance);
    LookupIsCount(acc, ds, Visual);
    LookupIsCount(acc, ds, Usability);
  }

  /** A tally's entry for a type, or 0 when it has none, is that type's count. */
  lemma LookupIsCount(acc: map<string, nat>, ds: seq<UXDebt>, t: DebtType)
    requires IsTypeTally(acc, ds)
    ensures Lookup(acc, t) == TypeCount(ds, t)
  {
  }

  /** No type bar is wider than the whole. */
  lemma TypeStatsBound(ps: seq<Project>, acc: map<string, nat>)
    requires IsTypeTally(acc, AllDebts(ps))
    ensures forall k :: k in acc ==> acc[k] <= TotalDebts(ps)
  {
    TotalsAreFlatCounts(ps);
    forall k | k in acc ensures acc[k] <= TotalDebts(ps) {
      var t := ParseType(k).value;
      assert TypeName(t) == k;
      assert acc[k] == TypeCount(AllDebts(ps), t);
    }
  }

  /** `resolutionRate`: the string '0', or `((resolved / total) * 100).toFixed(1)` (not computed). */
  datatype Rate = ZeroRate | Percent(resolved: nat, total: nat)

  function ResolutionRate(resolved: nat, total: nat): (r: Rate)
    ensures r.ZeroRate? <==> total == 0
    ensures r.Percent? ==> r.resolved == resolved && r.total == total
  {
    if total > 0 then Percent(resolved, total) else ZeroRate
  }

  /** A row of the project breakdown table. */
  datatype Breakdown = Breakdown(open: nat, inProgress: nat, resolved: nat, total: nat, rate: Rate)

  function BreakdownOf(p: Project): (b: Breakdown)
    ensures b.open + b.inProgress + b.resolved == b.total
    ensures b.total == |p.uxDebts|
    ensures b.rate.ZeroRate? <==> p.uxDebts == []
  {
    var st := StatusStatsOf(p.uxDebts);
    Breakdown(st.open, st.inProgress, st.resolved, |p.uxDebts|, ResolutionRate(st.resolved, |p.uxDebts|))
  }

  /** The overall rate shows '0' exactly when no project has an issue. */
  lemma {:induction false} OverallRateZero(ps: seq<Project>)
    ensures ResolutionRate(StatusTotal(ps, Resolved), TotalDebts(ps)).ZeroRate?
        <==> forall i :: 0 <= i < |ps| ==> ps[i].uxDebts == []
  {
    if ps != [] {
      var init := ps[..|ps| - 1];
      OverallRateZero(init);
      if forall i :: 0 <= i < |ps| ==> ps[i].uxDebts == [] {
        assert forall i :: 0 <= i < |init| ==> init[i] == ps[i];
      }
    }
  }
}
