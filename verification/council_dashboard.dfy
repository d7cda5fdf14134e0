/**
 * The council dashboard: the live statistics recomputed from every
 * snapshot, the patch written when a council member changes a report's
 * status, the actions offered for the selected report, and the severity
 * badge colours.
 */
module CouncilDashboard {
  import opened Wrappers
  import opened ReportStore

  /** The four counters shown on the stat cards. */
  datatype Stats = Stats(submitted: nat, inReview: nat, resolved: nat, total: nat)

  /** The counters for one snapshot, each recomputed from scratch. */
  function ComputeStats(reports: seq<Report>): (s: Stats)
    ensures s.total == |reports|
    ensures s.submitted <= s.total && s.inReview <= s.total && s.resolved <= s.total
  {
    Stats(|WithStatus(reports, SUBMITTED)|,
          |WithStatus(reports, IN_REVIEW)|,
          |WithStatus(reports, RESOLVED)|,
          |reports|)
  }

  predicate Counted(status: string)
  {
    status == SUBMITTED || status == IN_REVIEW || status == RESOLVED
  }

  /** The reports that no stat card other than the total counts (e.g. `Archived`). */
  function Uncounted(reports: seq<Report>): (r: seq<Report>)
    ensures forall x :: x in r ==> x in reports && !Counted(x.status)
  {
    if reports == [] then []
    else (if Counted(reports[0].status) then [] else [reports[0]]) + Uncounted(reports[1..])
  }

  /** How many times `status` occurs among the statuses of `reports`. */
  function Occurrences(reports: seq<Report>, status: string): nat
  {
    multiset(Statuses(reports))[status]
  }

  /** The statuses of `reports`, in order. */
  function Statuses(reports: seq<Report>): (s: seq<string>)
    ensures |s| == |reports|
  {
    if reports == [] then [] else [reports[0].status] + Statuses(reports[1..])
  }

  /**
   * Every report is counted by exactly one of the three status cards or by
   * none of them, so the three counters plus the uncounted reports make the
   * total; in particular the three never exceed it.
   */
  lemma {:induction false} StatsPartition(reports: seq<Report>)
    ensures ComputeStats(reports).submitted + ComputeStats(reports).inReview
            + ComputeStats(reports).resolved + |Uncounted(reports)| == ComputeStats(reports).total
    ensures ComputeStats(reports).submitted + ComputeStats(reports).inReview
            + ComputeStats(reports).resolved <= ComputeStats(reports).total
  {
    if reports != [] {
      StatsPartition(reports[1..]);
    }
  }

  /** Each status counter is the number of reports holding exactly that status. */
  lemma {:induction false} CounterIsOccurrences(reports: seq<Report>, status: string)
    ensures |WithStatus(reports, status)| == Occurrences(reports, status)
  {
    if reports != [] {
      CounterIsOccurrences(reports[1..], status);
      assert multiset(Statuses(reports)) == multiset{reports[0].status} + multiset(Statuses(reports[1..]));
    }
  }

  /**
   * A report whose status no card counts (such as `Archived`) adds to the
   * total and to nothing else.
   */
  lemma UncountedReportOnlyAddsToTotal(reports: seq<Report>, r: Report)
    requires !Counted(r.status)
    ensures ComputeStats(reports + [r]) == ComputeStats(reports).(total := |reports| + 1)
  {
    WithStatusAppend(reports, [r], SUBMITTED);
    WithStatusAppend(reports, [r], IN_REVIEW);
    WithStatusAppend(reports, [r], RESOLVED);
  }

  /**
   * The patch `handleStatusUpdate` writes for `newStatus` at instant `now`:
   * the status and `updatedAt` always; a review stamp only for `In Review`
   * and a resolution stamp only for `Resolved`, `undefined` otherwise.
   */
  function StatusPatchFor(newStatus: string, now: Time): (p: StatusPatch)
    ensures p.status == newStatus && p.updatedAt == now
    ensures p.reviewedAt.Some? <==> newStatus == IN_REVIEW
    ensures p.resolvedAt.Some? <==> newStatus == RESOLVED
    ensures p.reviewedAt.Some? ==> p.reviewedAt.value == now
    ensures p.resolvedAt.Some? ==> p.resolvedAt.value == now
  {
    StatusPatch(newStatus, now,
      if newStatus == IN_REVIEW then Some(now) else None,
      if newStatus == RESOLVED then Some(now) else None)
  }

  /**
   * The buttons of the "Update Status" panel for a report in `status`, in
   * the order shown: none at all for a resolved report; "Mark In Review"
   * unless it is already in review; "Mark Resolved" and "Archive" otherwise,
   * archived reports included.
   */
  function OfferedActions(status: string): (actions: seq<string>)
    ensures actions == [] <==> status == RESOLVED
    ensures IN_REVIEW in actions <==> status != RESOLVED && status != IN_REVIEW
    ensures RESOLVED in actions <==> status != RESOLVED
    ensures ARCHIVED in actions <==> status != RESOLVED
    ensures forall a :: a in actions ==> a == IN_REVIEW || a == RESOLVED || a == ARCHIVED
  {
    if status == RESOLVED then []
    else (if status != IN_REVIEW then [IN_REVIEW] else []) + [RESOLVED, ARCHIVED]
  }

  const CARD_BLUE := "bg-blue-100 text-blue-800"

  /** The status pill of a card in the report list: green when Resolved, yellow when In Review, blue otherwise. */
  function CardStatusClass(status: string): (c: string)
    ensures c == CARD_BLUE <==> status !in {RESOLVED, IN_REVIEW}
  {
    if status == RESOLVED then "bg-green-100 text-green-800"
    else if status == IN_REVIEW then "bg-yellow-100 text-yellow-800"
    else CARD_BLUE
  }

  const GRAY_BADGE := "text-gray-600 bg-gray-50"

  /** The severity badge classes: one per level 1 to 4, gray for anything else. */
  function SeverityBadge(severity: Option<int>): (c: string)
    ensures c == GRAY_BADGE <==> !(severity.Some? && 1 <= severity.value <= 4)
  {
    match severity
    case Some(1) => "text-green-600 bg-green-50"
    case Some(2) => "text-yellow-600 bg-yellow-50"
    case Some(3) => "text-orange-600 bg-orange-50"
    case Some(4) => "text-red-600 bg-red-50"
    case _ => GRAY_BADGE
  }

  /** The four levels get four different badges. */
  lemma SeverityBadgesDistinct(a: int, b: int)
    requires 1 <= a <= 4 && 1 <= b <= 4 && a != b
    ensures SeverityBadge(Some(a)) != SeverityBadge(Some(b))
  {
  }

  /** The dashboard's component state. */
  class Dashboard {
    var reports: seq<Report>
    var stats: Stats
    var selected: Option<Report>
    var loading: bool
    var updating: bool

    /** The stat cards always describe the reports on display. */
    ghost predicate Valid()
      reads this
    {
      stats == ComputeStats(reports)
    }

    constructor ()
      ensures Valid()
      ensures reports == [] && selected == None && loading && !updating
    {
      reports := [];
      stats := Stats(0, 0, 0, 0);
      selected := None;
      loading := true;
      updating := false;
    }

    /** The `onSnapshot` callback: the list and all counters are replaced. */
    method OnSnapshot(snapshot: seq<Report>)
      modifies this`reports, this`stats, this`loading
      ensures Valid()
      ensures reports == snapshot && !loading
    {
      reports := snapshot;
      stats := ComputeStats(snapshot);
      loading := false;
    }

    /** Clicking a report in the list selects it. */
    method Select(report: Report)
      modifies this`selected
      ensures selected == Some(report)
    {
      selected := Some(report);
    }

    /**
     * `handleStatusUpdate(reportId, newStatus)`: writes the status patch
     * stamped `now`, whatever the report's current status and whoever the
     * caller is. `accepted` is the store's verdict on the write. On success
     * the selection is cleared; on failure it is kept; `updating` is false
     * afterwards either way.
     */
    method HandleStatusUpdate(store: Store, reportId: string, newStatus: string, now: Time, accepted: bool)
      returns (store': Store, ok: bool)
      requires Valid()
      modifies this
      ensures Valid()
      ensures ok <==> reportId in store.reports && accepted
      ensures ok ==> store' == store.(reports := store.reports[reportId :=
                        ApplyPatch(store.reports[reportId], StatusPatchFor(newStatus, now))])
      ensures !ok ==> store' == store
      ensures selected == (if ok then None else old(selected))
      ensures !updating
      ensures reports == old(reports) && stats == old(stats) && loading == old(loading)
    {
      updating := true;
      var patch := StatusPatchFor(newStatus, now);
      var result := Update(store, reportId, patch, accepted);
      if result.Done? {
        store', ok := result.store, true;
        selected := None;
      } else {
        store', ok := store, false;
      }
      updating := false;
    }
  }
}
