/**
 * Counting a project's issues by status, severity and type, as the dashboard,
 * project and analytics pages do with `uxDebts.filter(...).length`.
 */
module Stats {
  import opened Domain
  import opened Seqs

  function HasStatus(s: Status): UXDebt -> bool {
    (d: UXDebt) => d.row.status == s
  }

  function HasSeverity(v: Severity): UXDebt -> bool {
    (d: UXDebt) => d.row.severity == v
  }

  function HasType(t: DebtType): UXDebt -> bool {
    (d: UXDebt) => d.row.debtType == t
  }

  /** `ds.filter(d => d.status === s).length` */
  function StatusCount(ds: seq<UXDebt>, s: Status): nat {
    |Filter(ds, HasStatus(s))|
  }

  function SeverityCount(ds: seq<UXDebt>, v: Severity): nat {
    |Filter(ds, HasSeverity(v))|
  }

  function TypeCount(ds: seq<UXDebt>, t: DebtType): nat {
    |Filter(ds, HasType(t))|
  }

  /** Every issue has exactly one of the three statuses. */
  lemma {:induction false} StatusPartition(ds: seq<UXDebt>)
    ensures StatusCount(ds, Open) + StatusCount(ds, InProgress) + StatusCount(ds, Resolved) == |ds|
  {
    if ds != [] {
      StatusPartition(ds[1..]);
      CountCons(ds);
    }
  }

  /** Every issue has exactly one of the four severities. */
  lemma {:induction false} SeverityPartition(ds: seq<UXDebt>)
    ensures SeverityCount(ds, Critical) + SeverityCount(ds, High)
          + SeverityCount(ds, Medium) + SeverityCount(ds, Low) == |ds|
  {
    if ds != [] {
      SeverityPartition(ds[1..]);
      CountCons(ds);
    }
  }

  /** Every issue has exactly one of the five types. */
  lemma {:induction false} TypePartition(ds: seq<UXDebt>)
    ensures TypeCount(ds, Heuristic) + TypeCount(ds, Accessibility) + TypeCount(ds, Performance)
          + TypeCount(ds, Visual) + TypeCount(ds, Usability) == |ds|
  {
    if ds != [] {
      TypePartition(ds[1..]);
      CountCons(ds);
    }
  }

  /** Each count of a non-empty list is the count of its tail plus one if its head qualifies. */
  lemma CountCons(ds: seq<UXDebt>)
    requires ds != []
    ensures forall s :: StatusCount(ds, s) == StatusCount(ds[1..], s) + (if ds[0].row.status == s then 1 else 0)
    ensures forall v :: SeverityCount(ds, v) == SeverityCount(ds[1..], v) + (if ds[0].row.severity == v then 1 else 0)
    ensures forall t :: TypeCount(ds, t) == TypeCount(ds[1..], t) + (if ds[0].row.debtType == t then 1 else 0)
  {
    forall s ensures StatusCount(ds, s) == StatusCount(ds[1..], s) + (if ds[0].row.status == s then 1 else 0) {
      FilterCons(ds, HasStatus(s));
    }
    forall v ensures SeverityCount(ds, v) == SeverityCount(ds[1..], v) + (if ds[0].row.severity == v then 1 else 0) {
      FilterCons(ds, HasSeverity(v));
    }
    forall t ensures TypeCount(ds, t) == TypeCount(ds[1..], t) + (if ds[0].row.debtType == t then 1 else 0) {
      FilterCons(ds, HasType(t));
    }
  }

  /** Counts over a concatenation add up. */
  lemma CountsAppend(xs: seq<UXDebt>, ys: seq<UXDebt>)
    ensures forall s :: StatusCount(xs + ys, s) == StatusCount(xs, s) + StatusCount(ys, s)
    ensures forall v :: SeverityCount(xs + ys, v) == SeverityCount(xs, v) + SeverityCount(ys, v)
    ensures forall t :: TypeCount(xs + ys, t) == TypeCount(xs, t) + TypeCount(ys, t)
  {
    forall s ensures StatusCount(xs + ys, s) == StatusCount(xs, s) + StatusCount(ys, s) {
      FilterAppend(xs, ys, HasStatus(s));
    }
    forall v ensures SeverityCount(xs + ys, v) == SeverityCount(xs, v) + SeverityCount(ys, v) {
      FilterAppend(xs, ys, HasSeverity(v));
    }
    forall t ensures TypeCount(xs + ys, t) == TypeCount(xs, t) + TypeCount(ys, t) {
      FilterAppend(xs, ys, HasType(t));
    }
  }

  /** `{ open, inProgress, resolved }` */
  datatype StatusStats = StatusStats(open: nat, inProgress: nat, resolved: nat)

  /** `{ critical, high, medium, low }` */
  datatype SeverityStats = SeverityStats(critical: nat, high: nat, medium: nat, low: nat)

  /** `getStatusStats`: the three counts, which together cover every issue. */
  function StatusStatsOf(ds: seq<UXDebt>): (r: StatusStats)
    ensures r.open + r.inProgress + r.resolved == |ds|
    ensures r.open == StatusCount(ds, Open) && r.inProgress == StatusCount(ds, InProgress)
      && r.resolved == StatusCount(ds, Resolved)
  {
    StatusPartition(ds);
    StatusStats(StatusCount(ds, Open), StatusCount(ds, InProgress), StatusCount(ds, Resolved))
  }

  /** `getSeverityStats`: the four counts, which together cover every issue. */
  function SeverityStatsOf(ds: seq<UXDebt>): (r: SeverityStats)
    ensures r.critical + r.high + r.medium + r.low == |ds|
    ensures r.critical == SeverityCount(ds, Critical) && r.high == SeverityCount(ds, High)
      && r.medium == SeverityCount(ds, Medium) && r.low == SeverityCount(ds, Low)
  {
    SeverityPartition(ds);
    SeverityStats(SeverityCount(ds, Critical), SeverityCount(ds, High),
                  SeverityCount(ds, Medium), SeverityCount(ds, Low))
  }
}
