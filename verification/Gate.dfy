/** What the gate lets in, said about the history instead of the replay: every verdict of
    the admission check, in both directions, and what a completion report counts for. */
module Gate {
  import opened Events
  import opened TaskView
  import opened Admission
  import opened History

  // ---------------------------------------------------------------------
  // The history of a task and revision
  // ---------------------------------------------------------------------

  predicate IsEnded(log: seq<Event>, task: string, revision: int) {
    exists i | 0 <= i < |log| :: TerminalKey(log[i]) == Some((task, revision))
  }

  /** The event opens the epoch: a bid round of it, or the replan to it. */
  predicate Opens(e: Event, task: string, revision: int, epoch: int) {
    || (IsRound(e, task, revision) && e.content.coordinationEpoch == Some(epoch))
    || (IsReplan(e, task, revision) && e.content.toEpoch == Some(epoch))
  }

  /** The latest epoch that was opened, 0 when there is none. */
  ghost predicate IsEpoch(log: seq<Event>, task: string, revision: int, epoch: int) {
    && (epoch == 0 || exists i | 0 <= i < |log| :: Opens(log[i], task, revision, epoch))
    && (forall i, x | 0 <= i < |log| && Opens(log[i], task, revision, x) :: 1 <= x <= epoch)
  }

  predicate IsRoundAt(e: Event, task: string, revision: int, epoch: int) {
    IsRound(e, task, revision) && e.content.coordinationEpoch == Some(epoch)
  }

  predicate HasRoundAt(log: seq<Event>, task: string, revision: int, epoch: int) {
    exists i | 0 <= i < |log| :: IsRoundAt(log[i], task, revision, epoch)
  }

  predicate RoundsBelow(log: seq<Event>, task: string, revision: int, epoch: int, number: int) {
    forall i | 0 <= i < |log| && IsRoundAt(log[i], task, revision, epoch) :: GetOr(log[i].content.bidRound, 1) < number
  }

  /** A plan of the epoch; a legacy assignment counts as one of epoch 0. */
  predicate IsPlanAt(e: Event, task: string, revision: int, epoch: int) {
    && e.kind.TaskAssigned? && TaskOf(e.content) == task && RevisionOf(e.content) == revision
    && (if IsV2(e.content) then e.content.coordinationEpoch == Some(epoch) else epoch == 0)
  }

  predicate HasPlanAt(log: seq<Event>, task: string, revision: int, epoch: int) {
    exists i | 0 <= i < |log| :: IsPlanAt(log[i], task, revision, epoch)
  }

  // ---------------------------------------------------------------------
  // One step of the replay
  // ---------------------------------------------------------------------

  predicate IsLegacyPlan(e: Event, task: string, revision: int) {
    e.kind.TaskAssigned? && TaskOf(e.content) == task && RevisionOf(e.content) == revision && !IsV2(e.content)
  }

  /** What an event that is no v2 transition leaves alone in a view that goes on. */
  ghost predicate IsQuiet(before: View, after: View, e: Event, task: string, revision: int) {
    && after.epoch == before.epoch && after.activeRound == before.activeRound
    && (if IsLegacyPlan(e, task, revision) && before.epoch == 0 then
          && after.plan == Some(e.content)
          && after.pending == Without(before.pending, SetOf(GetOr(e.content.inputEvidenceRefs, [])))
        else after.plan == before.plan && (!e.kind.Clue? ==> after.pending == before.pending))
  }

  lemma QuietApply(v: View, e: Event, task: string, revision: int)
    requires ViewConsistent(v) && EventError(e).None? && v.terminal.None? && Apply(v, e).terminal.None?
    requires TaskOf(e.content) == task && (!e.kind.Clue? ==> RevisionOf(e.content) == revision)
    requires !IsTransition(e, task, revision)
    ensures IsQuiet(v, Apply(v, e), e, task, revision)
  {
  }

  lemma StepIsQuiet(log: seq<Event>, n: nat, task: string, revision: int)
    requires AdmittedLog(log) && n < |log| && !IsTransition(log[n], task, revision)
    requires Fold(log[..n + 1], task, revision).terminal.None?
    ensures Fold(log[..n], task, revision).terminal.None?
    ensures IsQuiet(Fold(log[..n], task, revision), Fold(log[..n + 1], task, revision), log[n], task, revision)
  {
    hide Apply, EventError, ViewConsistent, IsQuiet, IsTransition;
    FoldStep(log, n, task, revision);
    AdmittedAt(log, n);
    FoldIsConsistent(log[..n], task, revision);
    TaskIsKept(log, n, n + 1, task, revision);
    var v := Fold(log[..n], task, revision);
    if BindsAt(log, n, task, revision) {
      QuietApply(v, log[n], task, revision);
    } else {
      UnboundIsQuiet(v, log[n], task, revision);
    }
  }

  lemma UnboundIsQuiet(v: View, e: Event, task: string, revision: int)
    requires !IsLegacyPlan(e, task, revision)
    ensures IsQuiet(v, v, e, task, revision)
  {
  }

  // ---------------------------------------------------------------------
  // What the view means
  // ---------------------------------------------------------------------

  /** A view is terminal exactly when its task and revision have a terminal event. */
  lemma EndedMeansTerminal(log: seq<Event>, task: string, revision: int)
    requires AdmittedLog(log) && task != ""
    ensures IsEnded(log, task, revision) <==> Fold(log, task, revision).terminal.Some?
  {
    if IsEnded(log, task, revision) {
      var i :| 0 <= i < |log| && TerminalKey(log[i]) == Some((task, revision));
      TerminalAgreement(log, i, task, revision);
    }
    if Fold(log, task, revision).terminal.Some? {
      var k := TerminalOrigin(log, task, revision);
    }
  }

  /** Rounds and replans name their epochs. */
  lemma TransitionNamesEpoch(e: Event, task: string, revision: int)
    requires EventError(e).None? && IsTransition(e, task, revision)
    ensures !e.kind.TaskReplan? ==> e.content.coordinationEpoch == Some(EpochOf(e))
    ensures e.kind.TaskReplan? ==> e.content.fromEpoch.Some? && e.content.toEpoch == Some(e.content.fromEpoch.value + 1)
    ensures e.kind.BidRoundOpened? ==> EpochOf(e) >= 1 && e.content.bidRound == Some(RoundOf(e))
  {
  }

  lemma OpeningMovesEpoch(log: seq<Event>, n: nat, task: string, revision: int)
    requires AdmittedLog(log) && n < |log| && Fold(log[..n + 1], task, revision).terminal.None?
    ensures var before, after := Fold(log[..n], task, revision), Fold(log[..n + 1], task, revision);
            && before.terminal.None? && 0 <= before.epoch <= after.epoch
            && (after.epoch == before.epoch || Opens(log[n], task, revision, after.epoch))
            && forall x | Opens(log[n], task, revision, x) :: x == after.epoch && x >= 1
  {
    hide Fold, AdmittedLog, IsFresh, GateError, EventError;
    TaskIsKept(log, n, n + 1, task, revision);
    AdmittedPrefix(log, n);
    EpochIsNatural(log[..n], task, revision);
    if IsTransition(log[n], task, revision) {
      AdmittedAt(log, n);
      AdmissionRefinesProjection(log, n, task, revision);
      TransitionNamesEpoch(log[n], task, revision);
      EpochGrows(log, n, n + 1, task, revision);
    } else {
      StepIsQuiet(log, n, task, revision);
    }
  }

  lemma EpochIsNatural(log: seq<Event>, task: string, revision: int)
    requires AdmittedLog(log)
    ensures Fold(log, task, revision).epoch >= 0
  {
    hide Fold, AdmittedLog;
    EpochGrows(log, 0, |log|, task, revision);
    FoldNothing(task, revision);
    assert log[..0] == [] && log[..|log|] == log;
  }

  lemma {:induction false} EpochIsOpened(log: seq<Event>, n: nat, task: string, revision: int)
    requires AdmittedLog(log) && n <= |log|
    requires Fold(log[..n], task, revision).terminal.None?
    ensures IsEpoch(log[..n], task, revision, Fold(log[..n], task, revision).epoch)
  {
    hide Fold, AdmittedLog, Opens;
    if n == 0 {
      FoldNothing(task, revision);
      assert log[..0] == [];
    } else {
      OpeningMovesEpoch(log, n - 1, task, revision);
      EpochIsOpened(log, n - 1, task, revision);
      EpochStep(log, n - 1, task, revision, Fold(log[..n - 1], task, revision).epoch,
                Fold(log[..n], task, revision).epoch);
    }
  }

  lemma EpochStep(log: seq<Event>, n: nat, task: string, revision: int, before: int, after: int)
    requires n < |log| && IsEpoch(log[..n], task, revision, before) && 0 <= before <= after
    requires after == before || Opens(log[n], task, revision, after)
    requires forall x | Opens(log[n], task, revision, x) :: x == after && x >= 1
    ensures IsEpoch(log[..n + 1], task, revision, after)
  {
    hide Opens;
    var longer := log[..n + 1];
    assert forall i | 0 <= i < n :: longer[i] == log[..n][i];
    if after == before && after != 0 {
      var i :| 0 <= i < n && Opens(log[..n][i], task, revision, after);
      assert Opens(longer[i], task, revision, after);
    } else if after != before {
      assert Opens(longer[n], task, revision, after);
    }
  }

  lemma EpochIsUnique(log: seq<Event>, task: string, revision: int, x: int, y: int)
    requires IsEpoch(log, task, revision, x) && IsEpoch(log, task, revision, y)
    ensures x == y
  {
    hide Opens;
  }

  /** What the plan and the active round of a view that goes on say of its epoch. */
  ghost predicate ShowsEpoch(log: seq<Event>, v: View, task: string, revision: int) {
    && (v.plan.Some? <==> HasPlanAt(log, task, revision, v.epoch))
    && (forall i | 0 <= i < |log| && IsPlanAt(log[i], task, revision, v.epoch) && IsV2(log[i].content) ::
          v.plan == Some(log[i].content))
    && (v.plan.None? ==> (v.activeRound.Some? <==> HasRoundAt(log, task, revision, v.epoch)))
    && (v.activeRound.Some? ==>
          && v.activeRound.value.coordinationEpoch == Some(v.epoch)
          && (forall i | 0 <= i < |log| && IsRoundAt(log[i], task, revision, v.epoch) ::
                GetOr(log[i].content.bidRound, 1) <= GetOr(v.activeRound.value.bidRound, 0))
          && exists i :: 0 <= i < |log| && IsRoundAt(log[i], task, revision, v.epoch)
                         && log[i].content == v.activeRound.value)
  }

  lemma EpochGainsEvent(log: seq<Event>, e: Event, task: string, revision: int, epoch: int)
    ensures HasPlanAt(log + [e], task, revision, epoch) <==>
            HasPlanAt(log, task, revision, epoch) || IsPlanAt(e, task, revision, epoch)
    ensures HasRoundAt(log + [e], task, revision, epoch) <==>
            HasRoundAt(log, task, revision, epoch) || IsRoundAt(e, task, revision, epoch)
  {
    hide IsPlanAt, IsRoundAt;
    var longer := log + [e];
    assert longer[|log|] == e;
    assert forall i | 0 <= i < |log| :: longer[i] == log[i];
  }

  /** The active round of the view, where it lies in the log. */
  lemma RoundStays(log: seq<Event>, e: Event, v: View, task: string, revision: int)
    requires ShowsEpoch(log, v, task, revision) && v.activeRound.Some?
    ensures exists i :: 0 <= i < |log + [e]| && IsRoundAt((log + [e])[i], task, revision, v.epoch)
                        && (log + [e])[i].content == v.activeRound.value
  {
    hide IsRoundAt, HasPlanAt, HasRoundAt;
    var i :| 0 <= i < |log| && IsRoundAt(log[i], task, revision, v.epoch) && log[i].content == v.activeRound.value;
    assert (log + [e])[i] == log[i];
  }

  /** Nothing of an epoch lies in the log before it is opened. */
  lemma EpochIsEmptyBefore(log: seq<Event>, task: string, revision: int, epoch: int, later: int)
    requires IsEpoch(log, task, revision, epoch) && later > epoch
    ensures !HasRoundAt(log, task, revision, later)
  {
    if HasRoundAt(log, task, revision, later) {
      var i :| 0 <= i < |log| && IsRoundAt(log[i], task, revision, later);
      assert Opens(log[i], task, revision, later);
    }
  }

  /** Every committed plan is of an epoch that was opened. */
  lemma PlanIsInEpoch(log: seq<Event>, i: nat, n: nat, task: string, revision: int)
    requires AdmittedLog(log) && i < n <= |log| && IsCommittedPlan(log[i], task, revision)
    ensures EpochOf(log[i]) <= Fold(log[..n], task, revision).epoch
  {
    hide Fold, AdmittedLog;
    PlanTakesEffect(log, i, task, revision);
    EpochGrows(log, i + 1, n, task, revision);
  }

  lemma PlansAreNotAhead(log: seq<Event>, n: nat, task: string, revision: int, epoch: int)
    requires AdmittedLog(log) && n <= |log| && epoch > Fold(log[..n], task, revision).epoch && epoch >= 1
    ensures !HasPlanAt(log[..n], task, revision, epoch)
  {
    hide Fold, AdmittedLog;
    if HasPlanAt(log[..n], task, revision, epoch) {
      var i :| 0 <= i < n && IsPlanAt(log[..n][i], task, revision, epoch);
      assert log[..n][i] == log[i];
      PlanIsInEpoch(log, i, n, task, revision);
    }
  }

  lemma {:induction false} EpochIsShown(log: seq<Event>, n: nat, task: string, revision: int)
    requires AdmittedLog(log) && n <= |log| && Fold(log[..n], task, revision).terminal.None?
    ensures ShowsEpoch(log[..n], Fold(log[..n], task, revision), task, revision)
  {
    hide Fold, AdmittedLog, ShowsEpoch;
    if n == 0 {
      FoldNothing(task, revision);
      NothingShown(task, revision);
      assert log[..0] == [];
    } else {
      TaskIsKept(log, n - 1, n, task, revision);
      EpochIsShown(log, n - 1, task, revision);
      if IsTransition(log[n - 1], task, revision) {
        TransitionShows(log, n - 1, task, revision);
      } else {
        StepIsQuiet(log, n - 1, task, revision);
        AdmittedPrefix(log, n - 1);
        FoldIsConsistent(log[..n - 1], task, revision);
        assert log[..n] == log[..n - 1] + [log[n - 1]];
        QuietShows(log[..n - 1], log[n - 1], Fold(log[..n - 1], task, revision), Fold(log[..n], task, revision), task,
                   revision);
      }
    }
  }

  lemma NothingShown(task: string, revision: int)
    ensures ShowsEpoch([], INITIAL, task, revision)
  {
  }

  lemma QuietShows(log: seq<Event>, e: Event, before: View, after: View, task: string, revision: int)
    requires ShowsEpoch(log, before, task, revision) && ViewConsistent(before)
    requires !IsTransition(e, task, revision) && IsQuiet(before, after, e, task, revision)
    ensures ShowsEpoch(log + [e], after, task, revision)
  {
    hide HasPlanAt, HasRoundAt;
    assert forall i | 0 <= i < |log| :: (log + [e])[i] == log[i];
    EpochGainsEvent(log, e, task, revision, before.epoch);
    if before.activeRound.Some? {
      RoundStays(log, e, before, task, revision);
    }
  }

  /** An admitted transition moves what the view shows as it moves the epoch's history. */
  lemma TransitionShows(log: seq<Event>, n: nat, task: string, revision: int)
    requires AdmittedLog(log) && n < |log| && IsTransition(log[n], task, revision)
    requires Fold(log[..n], task, revision).terminal.None? && Fold(log[..n + 1], task, revision).terminal.None?
    requires ShowsEpoch(log[..n], Fold(log[..n], task, revision), task, revision)
    ensures ShowsEpoch(log[..n + 1], Fold(log[..n + 1], task, revision), task, revision)
  {
    hide Fold, AdmittedLog, ShowsEpoch, HasPlanAt, HasRoundAt, IsFresh, GateError, EventError;
    var before, after := Fold(log[..n], task, revision), Fold(log[..n + 1], task, revision);
    AdmittedAt(log, n);
    AdmissionRefinesProjection(log, n, task, revision);
    TransitionNamesEpoch(log[n], task, revision);
    FoldIsConsistent(log[..n], task, revision);
    EpochIsOpened(log, n, task, revision);
    assert log[..n + 1] == log[..n] + [log[n]];
    if after.epoch > before.epoch {
      EpochIsEmptyBefore(log[..n], task, revision, before.epoch, after.epoch);
      EpochIsNatural(log[..n], task, revision);
      PlansAreNotAhead(log, n, task, revision, after.epoch);
    }
    match log[n].kind
    case BidRoundOpened => RoundShows(log[..n], log[n], before, after, task, revision);
    case TaskAssigned => PlanShows(log[..n], log[n], before, after, task, revision);
    case TaskReplan => ReplanShows(log[..n], log[n], after, task, revision);
    case ActionIntent => IntentShows(log[..n], log[n], before, after, task, revision);
    case _ =>
  }

  lemma RoundShows(log: seq<Event>, e: Event, before: View, after: View, task: string, revision: int)
    requires IsRound(e, task, revision) && e.content.coordinationEpoch == Some(after.epoch)
    requires e.content.bidRound.Some? && RoundError(e.content, before).None?
    requires after == before.(epoch := after.epoch, activeRound := Some(e.content), status := Bidding)
    requires ShowsEpoch(log, before, task, revision) && before.plan.None?
    requires after.epoch == before.epoch
             || (!HasRoundAt(log, task, revision, after.epoch) && !HasPlanAt(log, task, revision, after.epoch))
    ensures ShowsEpoch(log + [e], after, task, revision)
  {
    hide HasPlanAt;
    var longer := log + [e];
    assert forall i | 0 <= i < |log| :: longer[i] == log[i];
    EpochGainsEvent(log, e, task, revision, after.epoch);
    assert IsRoundAt(longer[|log|], task, revision, after.epoch);
    forall i | 0 <= i < |log| && IsRoundAt(log[i], task, revision, after.epoch)
      ensures after.epoch == before.epoch && GetOr(log[i].content.bidRound, 1) <= GetOr(e.content.bidRound, 0)
    {
    }
    NoPlanAmong(longer, task, revision, after.epoch);
  }

  lemma NoPlanAmong(log: seq<Event>, task: string, revision: int, epoch: int)
    ensures !HasPlanAt(log, task, revision, epoch) ==>
              forall i | 0 <= i < |log| :: !IsPlanAt(log[i], task, revision, epoch)
  {
  }

  lemma PlanShows(log: seq<Event>, e: Event, before: View, after: View, task: string, revision: int)
    requires IsCommittedPlan(e, task, revision) && e.content.coordinationEpoch == Some(after.epoch)
    requires after.epoch == before.epoch && after.plan == Some(e.content) && after.activeRound.None?
    requires ShowsEpoch(log, before, task, revision) && before.plan.None?
    ensures ShowsEpoch(log + [e], after, task, revision)
  {
    hide HasPlanAt, HasRoundAt;
    assert forall i | 0 <= i < |log| :: (log + [e])[i] == log[i];
    EpochGainsEvent(log, e, task, revision, after.epoch);
    NoPlanAmong(log, task, revision, after.epoch);
  }

  lemma ReplanShows(log: seq<Event>, e: Event, after: View, task: string, revision: int)
    requires IsReplan(e, task, revision) && after.plan.None? && after.activeRound.None?
    requires !HasRoundAt(log, task, revision, after.epoch) && !HasPlanAt(log, task, revision, after.epoch)
    ensures ShowsEpoch(log + [e], after, task, revision)
  {
    hide HasPlanAt, HasRoundAt;
    EpochGainsEvent(log, e, task, revision, after.epoch);
    NoPlanAmong(log + [e], task, revision, after.epoch);
  }

  lemma IntentShows(log: seq<Event>, e: Event, before: View, after: View, task: string, revision: int)
    requires e.kind.ActionIntent? && after == before.(status := Running)
    requires ShowsEpoch(log, before, task, revision)
    ensures ShowsEpoch(log + [e], after, task, revision)
  {
    hide HasPlanAt, HasRoundAt;
    assert forall i | 0 <= i < |log| :: (log + [e])[i] == log[i];
    EpochGainsEvent(log, e, task, revision, before.epoch);
    if before.activeRound.Some? {
      RoundStays(log, e, before, task, revision);
    }
  }

  // ---------------------------------------------------------------------
  // What a completion report counts for
  // ---------------------------------------------------------------------

  lemma PlanAssignsItsEpoch(plan: Event, a: Assignment)
    requires EventError(plan).None? && plan.kind.TaskAssigned? && IsV2(plan.content)
    requires a in GetOr(plan.content.assignments, [])
    ensures plan.content.coordinationEpoch == Some(a.assignmentEpoch)
  {
  }

  lemma ReportNamesItsEpoch(e: Event)
    requires EventError(e).None? && e.kind.AssignmentCompleted?
    ensures IsV2(e.content) && e.content.coordinationEpoch.Some?
    ensures e.content.assignmentEpoch == e.content.coordinationEpoch
  {
  }

  /** A report under the current plan is counted, and nothing else is. */
  lemma ReportIsCounted(v: View, e: Event, plan: Event, task: string, revision: int, id: string)
    requires ViewConsistent(v) && EventError(e).None? && EventError(plan).None?
    requires plan.kind.TaskAssigned? && IsV2(plan.content)
    requires v.plan == Some(plan.content) && v.terminal.None? && v.epoch >= 1
    requires TaskOf(e.content) == task && (!e.kind.Clue? ==> RevisionOf(e.content) == revision)
    requires Apply(v, e).plan == v.plan && Apply(v, e).terminal.None? && !(e.kind.TaskAssigned? && IsV2(e.content))
    ensures id in Apply(v, e).completed <==>
            id in v.completed || (id in PlanIds(v.plan) && IsCompletionOf(e, task, revision, plan.content, id))
  {
    hide EventError, ViewConsistent;
    if e.kind.AssignmentCompleted? {
      ReportNamesItsEpoch(e);
      var found := FindAssignment(AssignmentsOf(v.plan), GetOr(e.content.assignmentId, ""));
      if found.Some? {
        PlanAssignsItsEpoch(plan, found.value);
      }
    }
  }

  lemma CountStep(log: seq<Event>, a: nat, n: nat, task: string, revision: int, id: string)
    requires AdmittedLog(log) && a < n < |log| && IsCommittedPlan(log[a], task, revision)
    requires var v, after := Fold(log[..n], task, revision), Fold(log[..n + 1], task, revision);
             v.plan == after.plan == Some(log[a].content) && after.terminal.None? && v.epoch >= 1
    ensures id in Fold(log[..n + 1], task, revision).completed <==>
            || id in Fold(log[..n], task, revision).completed
            || (id in PlanIds(Some(log[a].content)) && IsCompletionOf(log[n], task, revision, log[a].content, id))
  {
    hide Fold, AdmittedLog, Apply, EventError, ViewConsistent, IsFresh;
    FoldStep(log, n, task, revision);
    TaskIsKept(log, n, n + 1, task, revision);
    AdmittedAt(log, n);
    AdmittedAt(log, a);
    FoldIsConsistent(log[..n], task, revision);
    if BindsAt(log, n, task, revision) {
      ReportIsCounted(Fold(log[..n], task, revision), log[n], log[a], task, revision, id);
    }
  }

  /** While the epoch of a plan lasts, the view shows the plan, and counts exactly the
      assignments of it that were reported complete under it. */
  lemma {:induction false} CompletedMeansReported(
      log: seq<Event>, a: nat, n: nat, task: string, revision: int, id: string)
    requires AdmittedLog(log) && a < n <= |log| && IsCommittedPlan(log[a], task, revision)
    requires var v := Fold(log[..n], task, revision); v.terminal.None? && v.epoch == EpochOf(log[a])
    ensures Fold(log[..n], task, revision).plan == Some(log[a].content)
    ensures id in Fold(log[..n], task, revision).completed <==>
            id in PlanIds(Some(log[a].content)) && CompletedBetween(log, a, n, task, revision, id)
    decreases n
  {
    hide Fold, AdmittedLog, PlanIds, IsCompletionOf, IsCommittedPlan;
    PlanStands(log, a, n, task, revision);
    if n == a + 1 {
      PlanStartsEmpty(log, a, task, revision);
    } else {
      TaskIsKept(log, n - 1, n, task, revision);
      PlanTakesEffect(log, a, task, revision);
      EpochGrows(log, a + 1, n - 1, task, revision);
      EpochGrows(log, n - 1, n, task, revision);
      PlanStands(log, a, n - 1, task, revision);
      CompletedMeansReported(log, a, n - 1, task, revision, id);
      CountStep(log, a, n - 1, task, revision, id);
    }
  }

  lemma PlanStartsEmpty(log: seq<Event>, a: nat, task: string, revision: int)
    requires AdmittedLog(log) && a < |log| && IsCommittedPlan(log[a], task, revision)
    ensures Fold(log[..a + 1], task, revision).completed == []
  {
    hide Fold, AdmittedLog;
    AdmissionRefinesProjection(log, a, task, revision);
  }

  // ---------------------------------------------------------------------
  // Which clues are pending
  // ---------------------------------------------------------------------

  /** The event uses the clue up: a plan that lists it as input, or a replan that names it.
      A legacy assignment counts before the first epoch. */
  ghost predicate Consumes(log: seq<Event>, k: nat, task: string, revision: int, id: EventId)
    requires k < |log|
  {
    var c := log[k].content;
    || (IsCommittedPlan(log[k], task, revision) && id in GetOr(c.inputEvidenceRefs, []))
    || (IsReplan(log[k], task, revision) && (c.causeId == Some(id) || id in GetOr(c.evidenceRefs, [])))
    || (IsLegacyPlan(log[k], task, revision) && id in GetOr(c.inputEvidenceRefs, [])
        && IsEpoch(log[..k], task, revision, 0))
  }

  /** A clue of the task and revision that nothing has used up since. */
  ghost predicate IsOpenClue(log: seq<Event>, n: nat, task: string, revision: int, id: EventId)
    requires n <= |log|
  {
    exists i :: 0 <= i < n && IsUnused(log, i, n, task, revision, id)
  }

  ghost predicate IsUnused(log: seq<Event>, i: nat, n: nat, task: string, revision: int, id: EventId)
    requires i < n <= |log|
  {
    && log[i].kind.Clue? && BindsAt(log, i, task, revision) && log[i].id == id
    && forall k | i < k < n :: !Consumes(log, k, task, revision, id)
  }

  lemma OpenClueStep(log: seq<Event>, n: nat, task: string, revision: int, id: EventId)
    requires n < |log|
    ensures IsOpenClue(log, n + 1, task, revision, id) <==>
            || (log[n].kind.Clue? && BindsAt(log, n, task, revision) && log[n].id == id)
            || (IsOpenClue(log, n, task, revision, id) && !Consumes(log, n, task, revision, id))
  {
    hide Consumes, BindsAt;
    if IsOpenClue(log, n, task, revision, id) && !Consumes(log, n, task, revision, id) {
      var i :| 0 <= i < n && IsUnused(log, i, n, task, revision, id);
      assert IsUnused(log, i, n + 1, task, revision, id);
    }
    if IsOpenClue(log, n + 1, task, revision, id) {
      var i :| 0 <= i < n + 1 && IsUnused(log, i, n + 1, task, revision, id);
      if i < n {
        assert IsUnused(log, i, n, task, revision, id);
      }
    }
    if log[n].kind.Clue? && BindsAt(log, n, task, revision) && log[n].id == id {
      assert IsUnused(log, n, n + 1, task, revision, id);
    }
  }

  /** How one event moves the pending clues of a view that goes on. */
  lemma PendingStep(log: seq<Event>, n: nat, task: string, revision: int, id: EventId)
    requires AdmittedLog(log) && n < |log| && Fold(log[..n + 1], task, revision).terminal.None?
    ensures id in Fold(log[..n + 1], task, revision).pending <==>
            || (log[n].kind.Clue? && BindsAt(log, n, task, revision) && log[n].id == id)
            || (id in Fold(log[..n], task, revision).pending && !Consumes(log, n, task, revision, id))
  {
    hide Fold, AdmittedLog, BindsAt, IsEpoch, Opens;
    if log[n].kind.Clue? {
      FoldStep(log, n, task, revision);
      TaskIsKept(log, n, n + 1, task, revision);
    } else if IsTransition(log[n], task, revision) {
      AdmissionRefinesProjection(log, n, task, revision);
    } else {
      StepIsQuiet(log, n, task, revision);
      EpochIsOpened(log, n, task, revision);
      if IsEpoch(log[..n], task, revision, 0) {
        EpochIsUnique(log[..n], task, revision, 0, Fold(log[..n], task, revision).epoch);
      }
    }
  }

  /** The pending clues of a view that goes on are the open ones. */
  lemma {:induction false} PendingMeansOpen(log: seq<Event>, n: nat, task: string, revision: int, id: EventId)
    requires AdmittedLog(log) && n <= |log| && Fold(log[..n], task, revision).terminal.None?
    ensures id in Fold(log[..n], task, revision).pending <==> IsOpenClue(log, n, task, revision, id)
  {
    hide Fold, AdmittedLog, BindsAt, Consumes, IsOpenClue;
    if n == 0 {
      FoldNothing(task, revision);
      assert log[..0] == [];
      assert !IsOpenClue(log, 0, task, revision, id) by { NoClueYet(log, task, revision, id); }
    } else {
      TaskIsKept(log, n - 1, n, task, revision);
      PendingMeansOpen(log, n - 1, task, revision, id);
      PendingStep(log, n - 1, task, revision, id);
      OpenClueStep(log, n - 1, task, revision, id);
    }
  }

  lemma NoClueYet(log: seq<Event>, task: string, revision: int, id: EventId)
    ensures !IsOpenClue(log, 0, task, revision, id)
  {
  }

  // ---------------------------------------------------------------------
  // The verdict
  // ---------------------------------------------------------------------

  /** The plan of the epoch that the event names. */
  predicate IsPlanNamed(plan: Event, e: Event, task: string, revision: int, epoch: int) {
    && IsCommittedPlan(plan, task, revision) && plan.content.coordinationEpoch == Some(epoch)
    && plan.content.planId == e.content.planId
  }

  /** What the history must hold for a transition in the current epoch. */
  ghost predicate IsLetIn(log: seq<Event>, e: Event, task: string, revision: int, epoch: int) {
    var c := e.content;
    match e.kind
    case BidRoundOpened =>
      && c.coordinationEpoch == Some(if epoch == 0 then 1 else epoch)
      && !HasPlanAt(log, task, revision, epoch)
      && RoundsBelow(log, task, revision, c.coordinationEpoch.value, GetOr(c.bidRound, 0))
    case TaskAssigned =>
      && c.coordinationEpoch == Some(epoch)
      && HasRoundAt(log, task, revision, epoch) && !HasPlanAt(log, task, revision, epoch)
    case ActionIntent =>
      && c.coordinationEpoch == Some(epoch)
      && exists a :: 0 <= a < |log| && IsPlanNamed(log[a], e, task, revision, epoch)
                     && exists m | m in GetOr(log[a].content.assignments, []) :: Some(m.assignmentId) == c.assignmentId
    case TaskReplan =>
      && c.fromEpoch == Some(epoch)
      && c.causeId.Some? && IsOpenClue(log, |log|, task, revision, c.causeId.value)
      && forall id | id in GetOr(c.evidenceRefs, []) :: IsOpenClue(log, |log|, task, revision, id)
    case TaskDone =>
      && c.coordinationEpoch == Some(epoch)
      && exists a :: 0 <= a < |log| && IsPlanNamed(log[a], e, task, revision, epoch)
                     && PlanIds(Some(log[a].content)) != {}
                     && SetOf(GetOr(c.completedIds, [])) == PlanIds(Some(log[a].content))
                     && forall id | id in PlanIds(Some(log[a].content)) ::
                          CompletedBetween(log, a, |log|, task, revision, id)
    case TaskFailed => c.coordinationEpoch == Some(epoch)
    case _ => false
  }

  /** The verdict on a round, and on a plan. */
  lemma RoundVerdict(log: seq<Event>, v: View, e: Event, task: string, revision: int)
    requires ShowsEpoch(log, v, task, revision) && v.epoch >= 0 && (v.epoch == 0 ==> v.activeRound.None?)
    requires EventError(e).None? && IsRound(e, task, revision) && IsEpoch(log, task, revision, v.epoch)
    ensures RoundError(e.content, v).None? <==> IsLetIn(log, e, task, revision, v.epoch)
  {
    hide EventError, HasPlanAt, IsEpoch;
    TransitionNamesEpoch(e, task, revision);
    if v.epoch == 0 {
      EpochIsEmptyBefore(log, task, revision, 0, 1);
      NoRoundAmong(log, task, revision, 1);
    } else {
      NoRoundAmong(log, task, revision, v.epoch);
    }
  }

  lemma NoRoundAmong(log: seq<Event>, task: string, revision: int, epoch: int)
    ensures !HasRoundAt(log, task, revision, epoch) ==>
              forall number :: RoundsBelow(log, task, revision, epoch, number)
  {
  }

  lemma PlanVerdict(log: seq<Event>, v: View, e: Event, task: string, revision: int)
    requires ShowsEpoch(log, v, task, revision)
    requires EventError(e).None? && IsCommittedPlan(e, task, revision)
    ensures AssignedError(e.content, v).None? <==> IsLetIn(log, e, task, revision, v.epoch)
  {
    hide EventError, HasPlanAt, HasRoundAt;
    TransitionNamesEpoch(e, task, revision);
  }

  /** The plan that the view shows in an epoch after the first. */
  lemma ShownPlan(log: seq<Event>, v: View, task: string, revision: int, a: nat)
    requires ShowsEpoch(log, v, task, revision) && v.epoch >= 1
    ensures v.plan.Some? ==>
              exists i :: 0 <= i < |log| && IsCommittedPlan(log[i], task, revision)
                          && log[i].content.coordinationEpoch == Some(v.epoch) && v.plan == Some(log[i].content)
    ensures a < |log| && IsPlanAt(log[a], task, revision, v.epoch) ==> v.plan == Some(log[a].content)
  {
    if v.plan.Some? {
      var i :| 0 <= i < |log| && IsPlanAt(log[i], task, revision, v.epoch);
      assert IsCommittedPlan(log[i], task, revision) && v.plan == Some(log[i].content);
    }
  }

  /** Every assignment of a committed plan carries the plan's epoch. */
  lemma ShownAssignmentsAreCurrent(log: seq<Event>, i: nat, task: string, revision: int, plan: Content)
    requires AdmittedLog(log) && i < |log| && IsCommittedPlan(log[i], task, revision) && plan == log[i].content
    ensures forall a | a in AssignmentsOf(Some(plan)) :: Some(a.assignmentEpoch) == plan.coordinationEpoch
  {
    hide EventError, AdmittedLog, IsFresh, GateError;
    AdmittedAt(log, i);
    forall a | a in AssignmentsOf(Some(plan)) {
      PlanAssignsItsEpoch(log[i], a);
    }
  }

  lemma IntentVerdict(log: seq<Event>, v: View, e: Event, task: string, revision: int)
    requires AdmittedLog(log) && ShowsEpoch(log, v, task, revision)
    requires EventError(e).None? && e.kind.ActionIntent? && IsTransition(e, task, revision)
    ensures PlanContextError(e.content, v).None? <==> IsLetIn(log, e, task, revision, v.epoch)
  {
    hide EventError, ShowsEpoch, AdmittedLog;
    IntentNamesItsEpoch(e);
    if e.content.coordinationEpoch == Some(v.epoch) {
      if v.plan.Some? {
        ShownPlan(log, v, task, revision, 0);
        var i :| 0 <= i < |log| && IsCommittedPlan(log[i], task, revision)
                 && log[i].content.coordinationEpoch == Some(v.epoch) && v.plan == Some(log[i].content);
        ShownAssignmentsAreCurrent(log, i, task, revision, v.plan.value);
      }
      if IsLetIn(log, e, task, revision, v.epoch) {
        var a :| 0 <= a < |log| && IsPlanNamed(log[a], e, task, revision, v.epoch)
                 && exists m | m in GetOr(log[a].content.assignments, []) ::
                      Some(m.assignmentId) == e.content.assignmentId;
        ShownPlan(log, v, task, revision, a);
      }
    }
  }

  lemma IntentNamesItsEpoch(e: Event)
    requires EventError(e).None? && e.kind.ActionIntent?
    ensures e.content.coordinationEpoch.Some? && e.content.coordinationEpoch.value >= 1
    ensures e.content.assignmentEpoch == e.content.coordinationEpoch && e.content.assignmentId.Some?
  {
  }

  lemma ReplanVerdict(log: seq<Event>, v: View, e: Event, task: string, revision: int)
    requires forall id :: id in v.pending <==> IsOpenClue(log, |log|, task, revision, id)
    requires EventError(e).None? && IsReplan(e, task, revision)
    ensures ReplanError(e.content, v).None? <==> IsLetIn(log, e, task, revision, v.epoch)
  {
    hide EventError, IsOpenClue;
    TransitionNamesEpoch(e, task, revision);
    var refs := GetOr(e.content.evidenceRefs, []);
    assert forall id :: id in SetOf(refs) <==> id in refs;
    assert forall id :: id in SetOf(v.pending) <==> id in v.pending;
  }

  lemma DoneVerdict(log: seq<Event>, v: View, e: Event, task: string, revision: int)
    requires AdmittedLog(log) && v == Fold(log, task, revision) && v.terminal.None?
    requires ShowsEpoch(log, v, task, revision) && ViewConsistent(v)
    requires EventError(e).None? && e.kind.TaskDone? && IsTransition(e, task, revision)
    ensures DoneError(e.content, v).None? <==> IsLetIn(log, e, task, revision, v.epoch)
  {
    hide EventError, ShowsEpoch, AdmittedLog, Fold, CompletedBetween;
    DoneNamesItsEpoch(e);
    assert log[..|log|] == log;
    forall a, id | 0 <= a < |log| && IsCommittedPlan(log[a], task, revision) && EpochOf(log[a]) == v.epoch
      ensures v.plan == Some(log[a].content)
      ensures id in v.completed <==>
              id in PlanIds(Some(log[a].content)) && CompletedBetween(log, a, |log|, task, revision, id)
    {
      CompletedMeansReported(log, a, |log|, task, revision, id);
    }
    if e.content.coordinationEpoch == Some(v.epoch) && v.plan.Some? {
      ShownPlan(log, v, task, revision, 0);
      var i :| 0 <= i < |log| && IsCommittedPlan(log[i], task, revision)
               && log[i].content.coordinationEpoch == Some(v.epoch) && v.plan == Some(log[i].content);
      CompletedAreOfPlan(log, v, i, task, revision);
    }
  }

  /** Completed ids are ids of the plan, so that all are completed exactly when both sets
      are the same. */
  lemma CompletedAreOfPlan(log: seq<Event>, v: View, a: nat, task: string, revision: int)
    requires a < |log|
    requires forall id :: id in v.completed <==>
               id in PlanIds(Some(log[a].content)) && CompletedBetween(log, a, |log|, task, revision, id)
    ensures SetOf(v.completed) <= PlanIds(Some(log[a].content))
    ensures PlanIds(Some(log[a].content)) <= SetOf(v.completed) <==>
            forall id | id in PlanIds(Some(log[a].content)) :: CompletedBetween(log, a, |log|, task, revision, id)
  {
    hide CompletedBetween, PlanIds;
  }

  lemma DoneNamesItsEpoch(e: Event)
    requires EventError(e).None? && e.kind.TaskDone? && IsV2(e.content)
    ensures e.content.coordinationEpoch.Some? && e.content.coordinationEpoch.value >= 1
  {
  }

  lemma EventNamesTask(e: Event)
    requires EventError(e).None? && IsV2(e.content) && IsGated(e.kind)
    ensures TaskOf(e.content) != ""
    ensures e.kind.TaskFailed? ==> e.content.coordinationEpoch.Some?
  {
  }

  /** Every verdict of the gate on a v2 event that meets the contract: a posting passes
      exactly when it is the first of its revision; any other transition exactly when its
      revision was posted, has not ended, and the history of the current epoch holds what
      the transition rests on. */
  lemma GateIsExact(log: seq<Event>, e: Event, epoch: int)
    requires AdmittedLog(log) && EventError(e).None? && IsV2(e.content) && IsGated(e.kind)
    requires IsEpoch(log, TaskOf(e.content), RevisionOf(e.content), epoch)
    ensures var task, revision := TaskOf(e.content), RevisionOf(e.content);
            GateError(log, e).None? <==>
            if e.kind.TaskPosted? then !HasPosting(log, task, revision)
            else
              && HasPosting(log, task, revision) && !IsEnded(log, task, revision)
              && IsLetIn(log, e, task, revision, epoch)
  {
    hide EventError, AdmittedLog, Fold, IsLetIn, IsEpoch, HasPosting, IsEnded, ShowsEpoch, RoundError, AssignedError,
      PlanContextError, ReplanError, DoneError, ViewConsistent, IsOpenClue;
    var task, revision := TaskOf(e.content), RevisionOf(e.content);
    var v := Fold(log, task, revision);
    assert log[..|log|] == log;
    EventNamesTask(e);
    EndedMeansTerminal(log, task, revision);
    TaskMeansPosted(log, task, revision);
    if v.terminal.None? && !e.kind.TaskPosted? {
      EpochIsOpened(log, |log|, task, revision);
      EpochIsUnique(log, task, revision, epoch, v.epoch);
      EpochIsNatural(log, task, revision);
      EpochIsShown(log, |log|, task, revision);
      FoldIsConsistent(log, task, revision);
      TransitionVerdict(log, v, e, task, revision);
    }
  }

  lemma TransitionVerdict(log: seq<Event>, v: View, e: Event, task: string, revision: int)
    requires AdmittedLog(log) && v == Fold(log, task, revision) && v.terminal.None? && v.epoch >= 0
    requires ShowsEpoch(log, v, task, revision) && ViewConsistent(v) && IsEpoch(log, task, revision, v.epoch)
    requires EventError(e).None? && IsTransition(e, task, revision)
    ensures v.task.Some? ==> (TransitionError(v, e).None? <==> IsLetIn(log, e, task, revision, v.epoch))
  {
    hide EventError, AdmittedLog, Fold, IsEpoch, ShowsEpoch, IsOpenClue, RoundError, AssignedError, PlanContextError,
      ReplanError, DoneError;
    assert log[..|log|] == log;
    match e.kind
    case BidRoundOpened => RoundVerdict(log, v, e, task, revision);
    case TaskAssigned => PlanVerdict(log, v, e, task, revision);
    case ActionIntent => IntentVerdict(log, v, e, task, revision);
    case TaskReplan =>
      forall id
        ensures id in v.pending <==> IsOpenClue(log, |log|, task, revision, id)
      {
        PendingMeansOpen(log, |log|, task, revision, id);
      }
      ReplanVerdict(log, v, e, task, revision);
    case TaskDone => DoneVerdict(log, v, e, task, revision);
    case _ => EventNamesTask(e);
  }

  // ---------------------------------------------------------------------
  // Legacy events
  // ---------------------------------------------------------------------

  /** A legacy event passes the gate unless it would assign, end or intercept a task that the
      log posts as a v2 task, in whatever revision. */
  lemma LegacyGateIsExact(log: seq<Event>, e: Event)
    requires !IsV2(e.content)
    ensures GateError(log, e).None? <==>
            || !(e.kind.TaskAssigned? || e.kind.SafetyIntercept? || e.kind.TaskDone?)
            || TaskOf(e.content) == ""
            || forall i | 0 <= i < |log| && log[i].kind.TaskPosted? && IsV2(log[i].content) ::
                 TaskOf(log[i].content) != TaskOf(e.content)
  {
    if i :| 0 <= i < |log| && IsV2Posting(log[i], TaskOf(e.content)) {
    }
  }

  /** So a task that was posted as a v2 task is planned, intercepted and ended by v2 events
      only. */
  lemma V2TasksStayV2(log: seq<Event>, i: nat, j: nat)
    requires AdmittedLog(log) && i < j < |log|
    requires log[i].kind.TaskPosted? && IsV2(log[i].content) && TaskOf(log[i].content) != ""
    requires TaskOf(log[j].content) == TaskOf(log[i].content)
    requires log[j].kind.TaskAssigned? || log[j].kind.SafetyIntercept? || IsTerminalKind(log[j].kind)
    ensures IsV2(log[j].content)
  {
    hide AdmittedLog;
    AdmittedAt(log, j);
    assert log[..j][i] == log[i];
    if !IsV2(log[j].content) {
      LegacyGateIsExact(log[..j], log[j]);
    }
  }

  // ---------------------------------------------------------------------
  // Order
  // ---------------------------------------------------------------------

  lemma WithoutStep(xs: seq<EventId>, gone: set<EventId>)
    ensures if xs == [] then Without(xs, gone) == []
            else Without(xs, gone) == (if xs[0] in gone then [] else [xs[0]]) + Without(xs[1..], gone)
  {
  }

  lemma PlaceBefore(xs: seq<EventId>, gone: set<EventId>, j: nat) returns (k: nat)
    requires j < |Without(xs, gone)|
    ensures k < |xs| && xs[k] == Without(xs, gone)[j]
  {
    var x := Without(xs, gone)[j];
    assert x in xs;
    k :| 0 <= k < |xs| && xs[k] == x;
  }

  lemma {:induction false} WithoutKeepsOrder(xs: seq<EventId>, gone: set<EventId>, i: nat, j: nat)
    returns (a: nat, b: nat)
    requires i < j < |Without(xs, gone)|
    ensures a < b < |xs| && xs[a] == Without(xs, gone)[i] && xs[b] == Without(xs, gone)[j]
  {
    hide Without;
    WithoutStep(xs, gone);
    if xs[0] in gone {
      a, b := WithoutKeepsOrder(xs[1..], gone, i, j);
      a, b := a + 1, b + 1;
    } else if i == 0 {
      var k := PlaceBefore(xs[1..], gone, j - 1);
      a, b := 0, k + 1;
    } else {
      a, b := WithoutKeepsOrder(xs[1..], gone, i - 1, j - 1);
      a, b := a + 1, b + 1;
    }
  }

  /** How one event changes the lists of a view: it adds at the end or takes out. */
  ghost predicate KeepsLists(v: View, after: View, e: Event) {
    && (|| (e.kind.Clue? && after.pending == v.pending + [e.id])
        || exists gone: set<EventId> :: after.pending == Without(v.pending, gone))
    && (|| after.completed == v.completed || after.completed == []
        || (e.kind.AssignmentCompleted? && e.content.assignmentId.Some?
            && after.completed == v.completed + [e.content.assignmentId.value]))
  }

  lemma {:induction false} NothingGone(xs: seq<EventId>)
    ensures Without(xs, {}) == xs
  {
    if xs != [] {
      NothingGone(xs[1..]);
      assert xs == [xs[0]] + xs[1..];
    }
  }

  lemma AllGone(xs: seq<EventId>)
    ensures Without(xs, SetOf(xs)) == []
  {
    var left := Without(xs, SetOf(xs));
    assert forall k | 0 <= k < |left| :: left[k] in left;
  }

  lemma ApplyKeepsLists(v: View, e: Event)
    ensures KeepsLists(v, Apply(v, e), e)
  {
    hide Without;
    NothingGone(v.pending);
    AllGone(v.pending);
  }

  /** Pending clues stand in the order in which they were bound. */
  lemma {:induction false} PendingIsInOrder(log: seq<Event>, task: string, revision: int, i: nat, j: nat)
    returns (a: nat, b: nat)
    requires i < j < |Fold(log, task, revision).pending|
    ensures a < b < |log| && log[a].kind.Clue? && log[b].kind.Clue?
    ensures log[a].id == Fold(log, task, revision).pending[i] && log[b].id == Fold(log, task, revision).pending[j]
    decreases |log|, 1
  {
    hide Apply, KeepsLists;
    var prefix, e := log[..|log| - 1], log[|log| - 1];
    var v, after := Fold(prefix, task, revision), Fold(log, task, revision);
    ApplyKeepsLists(v, e);
    if after == v {
      a, b := PendingIsInOrder(prefix, task, revision, i, j);
    } else {
      a, b := PendingStepIsInOrder(log, task, revision, i, j);
    }
  }

  /** Every pending clue was bound. */
  lemma {:induction false} PendingIsClue(log: seq<Event>, task: string, revision: int, i: nat) returns (a: nat)
    requires i < |Fold(log, task, revision).pending|
    ensures a < |log| && log[a].kind.Clue? && log[a].id == Fold(log, task, revision).pending[i]
  {
    hide Apply;
    var prefix, e := log[..|log| - 1], log[|log| - 1];
    var v, after := Fold(prefix, task, revision), Fold(log, task, revision);
    ApplyKeepsLists(v, e);
    if after.pending[i] in v.pending {
      var k :| 0 <= k < |v.pending| && v.pending[k] == after.pending[i];
      a := PendingIsClue(prefix, task, revision, k);
    } else {
      a := |log| - 1;
    }
  }

  lemma PendingStepIsInOrder(log: seq<Event>, task: string, revision: int, i: nat, j: nat) returns (a: nat, b: nat)
    requires log != [] && i < j < |Fold(log, task, revision).pending|
    requires var prefix := log[..|log| - 1];
             KeepsLists(Fold(prefix, task, revision), Fold(log, task, revision), log[|log| - 1])
    ensures a < b < |log| && log[a].kind.Clue? && log[b].kind.Clue?
    ensures log[a].id == Fold(log, task, revision).pending[i] && log[b].id == Fold(log, task, revision).pending[j]
    decreases |log|, 0
  {
    hide Apply, Without, Fold;
    var prefix, e := log[..|log| - 1], log[|log| - 1];
    var v, after := Fold(prefix, task, revision), Fold(log, task, revision);
    if e.kind.Clue? && after.pending == v.pending + [e.id] {
      if j < |v.pending| {
        a, b := PendingIsInOrder(prefix, task, revision, i, j);
      } else {
        a := PendingIsClue(prefix, task, revision, i);
        b := |log| - 1;
      }
    } else {
      var gone: set<EventId> :| after.pending == Without(v.pending, gone);
      var x, y := WithoutKeepsOrder(v.pending, gone, i, j);
      a, b := PendingIsInOrder(prefix, task, revision, x, y);
    }
  }

  /** Completed ids stand in the order in which they were first reported. */
  lemma {:induction false} CompletedIsInOrder(log: seq<Event>, task: string, revision: int, i: nat, j: nat)
    returns (a: nat, b: nat)
    requires i < j < |Fold(log, task, revision).completed|
    ensures a < b < |log| && log[a].kind.AssignmentCompleted? && log[b].kind.AssignmentCompleted?
    ensures log[a].content.assignmentId == Some(Fold(log, task, revision).completed[i])
    ensures log[b].content.assignmentId == Some(Fold(log, task, revision).completed[j])
  {
    hide Apply;
    var prefix, e := log[..|log| - 1], log[|log| - 1];
    var v, after := Fold(prefix, task, revision), Fold(log, task, revision);
    ApplyKeepsLists(v, e);
    if j < |v.completed| {
      a, b := CompletedIsInOrder(prefix, task, revision, i, j);
    } else {
      a := CompletedIsReported(prefix, task, revision, i);
      b := |log| - 1;
    }
  }

  lemma {:induction false} CompletedIsReported(log: seq<Event>, task: string, revision: int, i: nat) returns (a: nat)
    requires i < |Fold(log, task, revision).completed|
    ensures a < |log| && log[a].kind.AssignmentCompleted?
    ensures log[a].content.assignmentId == Some(Fold(log, task, revision).completed[i])
  {
    hide Apply;
    var prefix, e := log[..|log| - 1], log[|log| - 1];
    var v := Fold(prefix, task, revision);
    ApplyKeepsLists(v, e);
    if i < |v.completed| {
      a := CompletedIsReported(prefix, task, revision, i);
    } else {
      a := |log| - 1;
    }
  }
}
