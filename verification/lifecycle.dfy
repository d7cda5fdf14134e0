/**
 * The life of a report under the council's status buttons: a report is
 * created Submitted by the form, and each button press applies the patch the
 * dashboard builds for that status. Runs are sequences of presses, each of a
 * button that the panel offers at that moment.
 */
module Lifecycle {
  import opened Wrappers
  import opened ReportStore
  import CouncilDashboard
  import ReportForm
  import MapView

  /**
   * A report whose stamps agree with its status: it carries a resolution
   * stamp exactly when Resolved, a review stamp whenever In Review, its
   * status is one of the four the app writes, and no stamp is later than
   * the last update.
   */
  predicate Consistent(r: Report)
  {
    && r.status in {SUBMITTED, IN_REVIEW, RESOLVED, ARCHIVED}
    && (r.resolvedAt.Some? <==> r.status == RESOLVED)
    && (r.status == IN_REVIEW ==> r.reviewedAt.Some?)
    && r.submittedAt <= r.updatedAt
    && (r.reviewedAt.Some? ==> r.reviewedAt.value <= r.updatedAt)
    && (r.resolvedAt.Some? ==> r.resolvedAt.value <= r.updatedAt)
  }

  /** A report the form creates is consistent. */
  lemma NewReportConsistent(id: string, uid: string, draft: ReportForm.Draft, now: Time)
    requires draft.location.Some?
    ensures Consistent(ReportForm.NewReport(id, uid, draft, now))
  {
  }

  /** One press of the button for `status` at time `at`. */
  datatype Press = Press(status: string, at: Time)

  /** The report after one press: the dashboard's patch applied to it. */
  function Pressed(r: Report, p: Press): (r': Report)
    ensures r'.status == p.status && r'.updatedAt == p.at
    ensures r'.id == r.id && r'.userId == r.userId && r'.createdAt == r.createdAt && r'.submittedAt == r.submittedAt
  {
    ApplyPatch(r, CouncilDashboard.StatusPatchFor(p.status, p.at))
  }

  /** A press of an offered button, at a time not before the last update, keeps a report consistent. */
  lemma PressKeepsConsistent(r: Report, p: Press)
    requires Consistent(r)
    requires p.status in CouncilDashboard.OfferedActions(r.status) && r.updatedAt <= p.at
    ensures Consistent(Pressed(r, p))
  {
  }

  /**
   * The report after a run of presses, or `None` when some press is of a
   * button the panel does not offer at that point.
   */
  function Run(r: Report, presses: seq<Press>): (out: Option<Report>)
    ensures presses == [] ==> out == Some(r)
    decreases |presses|
  {
    if presses == [] then Some(r)
    else if presses[0].status !in CouncilDashboard.OfferedActions(r.status) then None
    else Run(Pressed(r, presses[0]), presses[1..])
  }

  /** A single press applies exactly when the panel offers its button for the current status. */
  lemma RunOnePress(r: Report, p: Press)
    ensures p.status in CouncilDashboard.OfferedActions(r.status) ==> Run(r, [p]) == Some(Pressed(r, p))
    ensures p.status !in CouncilDashboard.OfferedActions(r.status) ==> Run(r, [p]) == None
  {
    assert [p][1..] == [];
  }

  /** A run of presses is the first part followed by the rest, from wherever the first part ends. */
  lemma {:induction false} RunComposes(r: Report, first: seq<Press>, rest: seq<Press>)
    ensures Run(r, first + rest) == if Run(r, first).Some? then Run(Run(r, first).value, rest) else None
    decreases |first|
  {
    if first != [] {
      assert (first + rest)[0] == first[0];
      assert (first + rest)[1..] == first[1..] + rest;
      if first[0].status in CouncilDashboard.OfferedActions(r.status) {
        RunComposes(Pressed(r, first[0]), first[1..], rest);
      }
    } else {
      assert first + rest == rest;
    }
  }

  /** Presses come in time order, none before `t`. */
  predicate InTimeOrder(t: Time, presses: seq<Press>)
  {
    && (forall i :: 0 <= i < |presses| ==> t <= presses[i].at)
    && (forall i, j :: 0 <= i < j < |presses| ==> presses[i].at <= presses[j].at)
  }

  /** A run of offered presses in time order keeps a report consistent. */
  lemma {:induction false} RunKeepsConsistent(r: Report, presses: seq<Press>)
    requires Consistent(r) && InTimeOrder(r.updatedAt, presses)
    requires Run(r, presses).Some?
    ensures Consistent(Run(r, presses).value)
    decreases |presses|
  {
    if presses != [] {
      PressKeepsConsistent(r, presses[0]);
      RunKeepsConsistent(Pressed(r, presses[0]), presses[1..]);
    }
  }

  /** A Resolved report is final: no press is offered, so only the empty run succeeds. */
  lemma ResolvedIsFinal(r: Report, presses: seq<Press>)
    requires r.status == RESOLVED
    ensures Run(r, presses).Some? <==> presses == []
  {
  }

  /** A run never clears a review or resolution stamp, and never changes who filed the report or when. */
  lemma {:induction false} RunKeepsStamps(r: Report, presses: seq<Press>)
    requires Run(r, presses).Some?
    ensures var r' := Run(r, presses).value;
            && (r.reviewedAt.Some? ==> r'.reviewedAt.Some?)
            && (r.resolvedAt.Some? ==> r'.resolvedAt.Some?)
            && r'.id == r.id && r'.userId == r.userId && r'.createdAt == r.createdAt
            && r'.submittedAt == r.submittedAt && r'.images == r.images && r'.coords == r.coords
    decreases |presses|
  {
    if presses != [] {
      RunKeepsStamps(Pressed(r, presses[0]), presses[1..]);
    }
  }

  /**
   * A submitted report can be resolved straight away: the review stamp is
   * not needed, and stays unset.
   */
  lemma ResolveWithoutReview(r: Report, at: Time)
    requires r.status == SUBMITTED && r.reviewedAt.None?
    ensures Run(r, [Press(RESOLVED, at)]) == Some(Pressed(r, Press(RESOLVED, at)))
    ensures var r' := Pressed(r, Press(RESOLVED, at));
            r'.status == RESOLVED && r'.resolvedAt == Some(at) && r'.reviewedAt.None?
  {
  }

  /**
   * An archived report is not final: the panel still offers In Review,
   * Resolved and Archive, so it can be reopened and later resolved.
   */
  lemma ArchivedCanBeReopened(r: Report, t1: Time, t2: Time, t3: Time)
    requires r.status == SUBMITTED
    ensures CouncilDashboard.OfferedActions(ARCHIVED) == [IN_REVIEW, RESOLVED, ARCHIVED]
    ensures var out := Run(r, [Press(ARCHIVED, t1), Press(IN_REVIEW, t2), Press(RESOLVED, t3)]);
            out.Some? && out.value.status == RESOLVED && out.value.reviewedAt == Some(t2)
            && out.value.resolvedAt == Some(t3)
  {
    var r1 := Pressed(r, Press(ARCHIVED, t1));
    var r2 := Pressed(r1, Press(IN_REVIEW, t2));
    assert Run(r2, [Press(RESOLVED, t3)]) == Some(Pressed(r2, Press(RESOLVED, t3)));
    assert Run(r1, [Press(IN_REVIEW, t2), Press(RESOLVED, t3)]) == Run(r2, [Press(RESOLVED, t3)]);
  }

  /**
   * The review stamp records the latest move to In Review, not the first:
   * a report reviewed at `t1`, archived at `t2` and reviewed again at `t3`
   * carries `t3`.
   */
  lemma ReviewIsRestamped(r: Report, t1: Time, t2: Time, t3: Time)
    requires r.status == SUBMITTED
    ensures var out := Run(r, [Press(IN_REVIEW, t1), Press(ARCHIVED, t2), Press(IN_REVIEW, t3)]);
            out.Some? && out.value.reviewedAt == Some(t3)
  {
    var r1 := Pressed(r, Press(IN_REVIEW, t1));
    var r2 := Pressed(r1, Press(ARCHIVED, t2));
    assert Run(r2, [Press(IN_REVIEW, t3)]) == Some(Pressed(r2, Press(IN_REVIEW, t3)));
    assert Run(r1, [Press(ARCHIVED, t2), Press(IN_REVIEW, t3)]) == Run(r2, [Press(IN_REVIEW, t3)]);
  }

  /**
   * The store view of a press: updating the stored document with the
   * dashboard's patch stores exactly the pressed report, and keeps the
   * store well formed.
   */
  lemma UpdateStoresPressed(store: Store, id: string, p: Press)
    requires WellFormed(store) && id in store.reports
    ensures var res := Update(store, id, CouncilDashboard.StatusPatchFor(p.status, p.at), true);
            && res.Done?
            && res.store.reports[id] == Pressed(store.reports[id], p)
            && WellFormed(res.store)
  {
  }

  /**
   * The panel offers buttons for the selected copy of a report, taken when
   * it was clicked and not refreshed by later snapshots, while the patch
   * lands on the stored document. If another session has resolved the
   * report since, the panel still offers Archive; pressing it archives a
   * resolved document whose resolution stamp stays set, which `Run` and
   * `ResolvedIsFinal` (checked against the stored status) rule out.
   */
  lemma StaleSelectionArchivesResolved(store: Store, selected: Report, at: Time)
    requires WellFormed(store) && selected.id in store.reports
    requires selected.status == SUBMITTED
    requires store.reports[selected.id].status == RESOLVED && Consistent(store.reports[selected.id])
    ensures ARCHIVED in CouncilDashboard.OfferedActions(selected.status)
    ensures ARCHIVED !in CouncilDashboard.OfferedActions(store.reports[selected.id].status)
    ensures var res := Update(store, selected.id, CouncilDashboard.StatusPatchFor(ARCHIVED, at), true);
            && res.Done?
            && res.store.reports[selected.id].status == ARCHIVED
            && res.store.reports[selected.id].resolvedAt.Some?
            && !Consistent(res.store.reports[selected.id])
  {
  }

  /**
   * The form files image details in a separate sub-collection and writes
   * the report's own `images` field empty, and no status change touches
   * it: the map popup of a report created by the form never shows the
   * attached-images note, however its status moves on.
   */
  lemma FormReportsShowNoImageNote(id: string, uid: string, draft: ReportForm.Draft, now: Time, presses: seq<Press>)
    requires draft.location.Some?
    requires Run(ReportForm.NewReport(id, uid, draft, now), presses).Some?
    ensures var r := Run(ReportForm.NewReport(id, uid, draft, now), presses).value;
            r.coords.Some? && MapView.MarkerFor(r).imageNote.None?
  {
    RunKeepsStamps(ReportForm.NewReport(id, uid, draft, now), presses);
  }
}
