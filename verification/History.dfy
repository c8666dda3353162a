/** What every log built by append satisfies: admission and replay agree, and the
    ownership of a task's state has one history. */
module History {
  import opened Events
  import opened TaskView
  import opened Admission

  /** The committed events that the gate let through for a task and revision. */
  predicate IsTransition(e: Event, task: string, revision: int) {
    IsV2(e.content) && IsGated(e.kind) && !e.kind.TaskPosted? && TaskOf(e.content) == task
    && RevisionOf(e.content) == revision
  }

  predicate IsCommittedPlan(e: Event, task: string, revision: int) {
    e.kind.TaskAssigned? && IsTransition(e, task, revision)
  }

  predicate IsRound(e: Event, task: string, revision: int) {
    e.kind.BidRoundOpened? && IsTransition(e, task, revision)
  }

  predicate IsReplan(e: Event, task: string, revision: int) {
    e.kind.TaskReplan? && IsTransition(e, task, revision)
  }

  function EpochOf(e: Event): int {
    GetOr(e.content.coordinationEpoch, 0)
  }

  function RoundOf(e: Event): int {
    GetOr(e.content.bidRound, 1)
  }

  // ---------------------------------------------------------------------
  // The invariant of the replay of an admitted log
  // ---------------------------------------------------------------------

  predicate RoundConsistent(v: View) {
    v.activeRound.Some? ==>
      && v.plan.None?
      && v.terminal.None?
      && v.activeRound.value.coordinationEpoch == Some(v.epoch)
      && v.epoch >= 1
      && v.activeRound.value.bidRound.Some?
      && v.activeRound.value.bidRound.value >= 1
  }

  /** A plan is a committed v2 plan of the current epoch, or a legacy plan of a
      task that has not entered an epoch yet. */
  predicate PlanConsistent(v: View) {
    && (v.plan.None? ==> v.completed == [])
    && (v.plan.Some? ==>
          if IsV2(v.plan.value) then
            && v.plan.value.coordinationEpoch == Some(v.epoch)
            && v.epoch >= 1
            && v.plan.value.planId.Some?
            && v.plan.value.assignments.Some?
          else
            && v.epoch == 0
            && v.plan.value.planId.None?
            && v.plan.value.assignments.None?
            && v.completed == [])
  }

  predicate ViewConsistent(v: View) {
    && v.epoch >= 0
    && RoundConsistent(v)
    && PlanConsistent(v)
    && SetOf(v.completed) <= PlanIds(v.plan)
    && (v.terminal.Some? ==> v.pending == [])
  }

  lemma ApplyKeepsConsistent(v: View, e: Event)
    requires ViewConsistent(v) && EventError(e).None?
    ensures ViewConsistent(Apply(v, e))
  {
    var c := e.content;
    if v.terminal.None? {
      match e.kind
      case AssignmentCompleted =>
        var id := GetOr(c.assignmentId, "");
        if v.plan.Some? && FindAssignment(AssignmentsOf(v.plan), id).Some? {
          assert id != "" ==> id in PlanIds(v.plan);
        }
      case _ =>
    }
  }

  lemma {:induction false} FoldIsConsistent(log: seq<Event>, task: string, revision: int)
    requires AdmittedLog(log)
    ensures ViewConsistent(Fold(log, task, revision))
  {
    if log != [] {
      var prefix := log[..|log| - 1];
      FoldIsConsistent(prefix, task, revision);
      if Binds(prefix, log[|log| - 1], task, revision) {
        ApplyKeepsConsistent(Fold(prefix, task, revision), log[|log| - 1]);
      }
    }
  }

  // ---------------------------------------------------------------------
  // Admission refines projection
  // ---------------------------------------------------------------------

  /** The effect that each v2 transition claims, as a relation between the view
      before and the view after. */
  ghost predicate TookEffect(before: View, after: View, e: Event) {
    var c := e.content;
    match e.kind
    case BidRoundOpened =>
      && after == before.(epoch := EpochOf(e), activeRound := Some(c), status := Bidding)
      && EpochOf(e) >= 1
    case TaskAssigned =>
      && before.activeRound.Some? && before.plan.None?
      && after.plan == Some(c) && after.activeRound.None? && after.completed == [] && after.epoch == before.epoch
      && after.status == Assigned && after.terminal.None?
      && forall x :: x in after.pending <==> x in before.pending && x !in GetOr(c.inputEvidenceRefs, [])
    case ActionIntent =>
      after == before.(status := Running)
    case TaskReplan =>
      && c.causeId.Some? && c.causeId.value in before.pending && c.causeId.value !in after.pending
      && after.epoch == before.epoch + 1 && c.fromEpoch == Some(before.epoch) && c.toEpoch == Some(after.epoch)
      && after.plan.None? && after.activeRound.None? && after.completed == [] && after.terminal.None?
      && after.status == Replanning
      && forall x :: x in after.pending <==>
           x in before.pending && x != c.causeId.value && x !in GetOr(c.evidenceRefs, [])
    case TaskDone =>
      && after.terminal == Some(Terminal(e.id, e.kind, c, e.version, e.ts)) && after.status == Done
      && after.activeRound.None? && after.pending == [] && after.plan == before.plan
    case TaskFailed =>
      && after.terminal == Some(Terminal(e.id, e.kind, c, e.version, e.ts)) && after.status == Failed
      && after.activeRound.None? && after.pending == [] && after.plan == before.plan
    case _ => false
  }

  lemma AdmittedTransitionApplies(v: View, e: Event)
    requires ViewConsistent(v) && EventError(e).None? && IsV2(e.content)
    requires IsGated(e.kind) && !e.kind.TaskPosted?
    requires TransitionError(v, e).None?
    ensures v.terminal.None? && TookEffect(v, Apply(v, e), e)
  {
    match e.kind
    case TaskReplan =>
      assert ReplanConsumes(e.content) <= SetOf(v.pending);
    case _ =>
  }

  /** Every admitted v2 transition takes its effect branch in the replay: what
      the gate admits, the projection never skips. */
  lemma AdmissionRefinesProjection(log: seq<Event>, i: nat, task: string, revision: int)
    requires AdmittedLog(log) && i < |log| && IsTransition(log[i], task, revision)
    ensures var before := Fold(log[..i], task, revision);
            var after := Fold(log[..i + 1], task, revision);
            && before.task.Some?
            && before.terminal.None?
            && TransitionError(before, log[i]).None?
            && after == Apply(before, log[i])
            && TookEffect(before, after, log[i])
  {
    AdmittedAt(log, i);
    FoldIsConsistent(log[..i], task, revision);
    AdmittedTransitionApplies(Fold(log[..i], task, revision), log[i]);
    FoldStep(log, i, task, revision);
  }

  /** The task entry of a view is set exactly by the first posting. */
  lemma {:induction false} TaskMeansPosted(log: seq<Event>, task: string, revision: int)
    ensures Fold(log, task, revision).task.Some? ==> HasPosting(log, task, revision)
    ensures HasPosting(log, task, revision) && Fold(log, task, revision).terminal.None? ==>
              Fold(log, task, revision).task.Some?
  {
    if log != [] {
      var prefix := log[..|log| - 1];
      TaskMeansPosted(prefix, task, revision);
      var last := log[|log| - 1];
      if HasPosting(prefix, task, revision) {
        var i :| 0 <= i < |prefix| && IsPosting(prefix[i], task, revision);
        assert IsPosting(log[i], task, revision);
      }
      if IsPosting(last, task, revision) {
        assert HasPosting(log, task, revision);
      } else if HasPosting(log, task, revision) {
        var i :| 0 <= i < |log| && IsPosting(log[i], task, revision);
        assert prefix[i] == log[i];
      }
    }
  }

  /** The one gated event that can be admitted without effect is a posting: it
      takes effect exactly when its revision has no terminal event yet, which
      only a legacy terminal can have brought about. */
  lemma PostingTakesEffectUnlessFrozen(log: seq<Event>, i: nat, task: string, revision: int)
    requires AdmittedLog(log) && i < |log| && IsV2(log[i].content) && IsPosting(log[i], task, revision)
    ensures var before := Fold(log[..i], task, revision);
            var after := Fold(log[..i + 1], task, revision);
            && before.task.None?
            && (before.terminal.None? <==> after.task == Some(log[i].content))
            && (before.terminal.None? ==> after == before.(task := Some(log[i].content), status := Posted))
            && (before.terminal.Some? ==> after == before && !IsV2(before.terminal.value.content))
  {
    AdmittedAt(log, i);
    FoldStep(log, i, task, revision);
    TaskMeansPosted(log[..i], task, revision);
    var before := Fold(log[..i], task, revision);
    if before.terminal.Some? {
      var k := TerminalOrigin(log[..i], task, revision);
      if IsV2(log[k].content) {
        AdmissionRefinesProjection(log, k, task, revision);
        TaskIsKept(log, k, i, task, revision);
      }
    }
  }

  const LEGACY_DONE :=
    Event(Plain("e1"), TaskDone, TaskLedger, NO_CONTENT.(taskId := Some("patrol")), "legacy", None, None, None, 0, 0.0,
          1, 0)
  const LATE_POSTING :=
    Event(Plain("e2"), TaskPosted, TaskLedger,
          NO_CONTENT.(schemaVersion := Some(2), taskId := Some("patrol"), taskRevision := Some(1)),
          "coordinator", None, None, None, 0, 0.0, 2, 0)

  lemma PatrolIsAdmitted()
    ensures AdmittedLog([LEGACY_DONE, LATE_POSTING])
  {
    hide ContractError, Fold;
    PatrolPayloads(LEGACY_DONE.content, LATE_POSTING.content);
    assert Admitted([], LEGACY_DONE);
    AdmittedExtends([], LEGACY_DONE);
    assert [] + [LEGACY_DONE] == [LEGACY_DONE];
    assert Admitted([LEGACY_DONE], LATE_POSTING);
    AdmittedExtends([LEGACY_DONE], LATE_POSTING);
    assert [LEGACY_DONE] + [LATE_POSTING] == [LEGACY_DONE, LATE_POSTING];
  }

  /** Such a log: a legacy TASK_DONE for a task not yet posted, then the posting. */
  lemma FrozenPosting()
    ensures var log := [LEGACY_DONE, LATE_POSTING];
            && AdmittedLog(log)
            && IsV2(log[1].content) && IsPosting(log[1], "patrol", 1) && !HasPosting(log[..1], "patrol", 1)
            && Fold(log, "patrol", 1).task.None?
  {
    hide AdmittedLog;
    PatrolIsAdmitted();
    var log := [LEGACY_DONE, LATE_POSTING];
    assert log[..0] == [] && log[..1] == [LEGACY_DONE] && log[..2] == log;
    FoldStep(log, 0, "patrol", 1);
    FoldStep(log, 1, "patrol", 1);
  }

  lemma PatrolPayloads(legacy: Content, posting: Content)
    requires legacy == NO_CONTENT.(taskId := Some("patrol"))
    requires posting == legacy.(schemaVersion := Some(2), taskRevision := Some(1))
    ensures ContractError(TaskDone, legacy).None? && ContractError(TaskPosted, posting).None?
  {
    assert "patrol"[0] == 'p';
  }

  lemma {:induction false} TaskIsKept(log: seq<Event>, m: nat, n: nat, task: string, revision: int)
    requires m <= n <= |log|
    ensures Fold(log[..m], task, revision).task.Some? ==>
              Fold(log[..n], task, revision).task == Fold(log[..m], task, revision).task
    ensures Fold(log[..m], task, revision).terminal.Some? ==>
              Fold(log[..n], task, revision) == Fold(log[..m], task, revision)
    decreases n
  {
    if m < n {
      TaskIsKept(log, m, n - 1, task, revision);
      FoldStep(log, n - 1, task, revision);
    }
  }

  // ---------------------------------------------------------------------
  // Terminal agreement
  // ---------------------------------------------------------------------

  /** A terminal view was made by a terminal event of that task and revision. */
  lemma {:induction false} TerminalOrigin(log: seq<Event>, task: string, revision: int) returns (k: nat)
    requires Fold(log, task, revision).terminal.Some?
    ensures k < |log| && IsTerminalKind(log[k].kind)
    ensures TaskOf(log[k].content) == task && RevisionOf(log[k].content) == revision
    ensures Fold(log, task, revision).terminal ==
            Some(Terminal(log[k].id, log[k].kind, log[k].content, log[k].version, log[k].ts))
  {
    var prefix := log[..|log| - 1];
    if Fold(prefix, task, revision).terminal.Some? {
      k := TerminalOrigin(prefix, task, revision);
    } else {
      k := |log| - 1;
    }
  }

  /** In an admitted log a terminal event of either generation freezes the view
      of its task and revision, and does so at once. */
  lemma {:induction false} TerminalEventTakesEffect(log: seq<Event>, k: nat)
    requires AdmittedLog(log) && k < |log| && TerminalKey(log[k]).Some?
    ensures var (task, revision) := TerminalKey(log[k]).value;
            && Fold(log[..k], task, revision).terminal.None?
            && Fold(log[..k + 1], task, revision).terminal ==
               Some(Terminal(log[k].id, log[k].kind, log[k].content, log[k].version, log[k].ts))
  {
    var (task, revision) := TerminalKey(log[k]).value;
    AdmittedAt(log, k);
    FoldStep(log, k, task, revision);
    if Fold(log[..k], task, revision).terminal.Some? {
      var j := TerminalOrigin(log[..k], task, revision);
      assert false;
    }
    if IsV2(log[k].content) {
      AdmissionRefinesProjection(log, k, task, revision);
    }
  }

  /** The terminal index and the replay agree on every admitted log: an event is
      the terminal of (task, revision) in one exactly when it is in the other. */
  lemma TerminalAgreement(log: seq<Event>, k: nat, task: string, revision: int)
    requires AdmittedLog(log) && k < |log| && task != ""
    ensures TerminalKey(log[k]) == Some((task, revision)) <==>
            Fold(log, task, revision).terminal ==
            Some(Terminal(log[k].id, log[k].kind, log[k].content, log[k].version, log[k].ts))
  {
    if TerminalKey(log[k]) == Some((task, revision)) {
      TerminalEventTakesEffect(log, k);
      TaskIsKept(log, k + 1, |log|, task, revision);
      assert log[..|log|] == log;
    }
    if Fold(log, task, revision).terminal ==
       Some(Terminal(log[k].id, log[k].kind, log[k].content, log[k].version, log[k].ts)) {
      var j := TerminalOrigin(log, task, revision);
      if j < k {
        IdentitiesAreUnique(log, j, k);
      } else if k < j {
        IdentitiesAreUnique(log, k, j);
      }
    }
  }

  /** After the terminal event no append changes the view. */
  lemma TerminalFreezes(log: seq<Event>, more: seq<Event>, task: string, revision: int)
    requires Fold(log, task, revision).terminal.Some?
    ensures Fold(log + more, task, revision) == Fold(log, task, revision)
  {
    assert (log + more)[..|log|] == log;
    assert (log + more)[..|log + more|] == log + more;
    TaskIsKept(log + more, |log|, |log + more|, task, revision);
  }

  // ---------------------------------------------------------------------
  // One plan per epoch
  // ---------------------------------------------------------------------

  lemma ApplyEpochGrows(v: View, e: Event)
    requires ViewConsistent(v) && EventError(e).None?
    ensures v.epoch <= Apply(v, e).epoch
  {
  }

  lemma {:induction false} EpochGrows(log: seq<Event>, m: nat, n: nat, task: string, revision: int)
    requires AdmittedLog(log) && m <= n <= |log|
    ensures Fold(log[..m], task, revision).epoch <= Fold(log[..n], task, revision).epoch
    decreases n
  {
    if m < n {
      EpochGrows(log, m, n - 1, task, revision);
      FoldStep(log, n - 1, task, revision);
      AdmittedAt(log, n - 1);
      FoldIsConsistent(log[..n - 1], task, revision);
      ApplyEpochGrows(Fold(log[..n - 1], task, revision), log[n - 1]);
    }
  }

  /** How a task stands at position n once a plan was committed at position i:
      it still has a plan, or has ended, or was re-planned since, and any round
      open by then was opened after that. */
  ghost predicate SincePlan(log: seq<Event>, i: nat, n: nat, task: string, revision: int)
    requires i < n <= |log|
  {
    var v := Fold(log[..n], task, revision);
    v.terminal.None? && v.plan.None? ==> exists k :: ReplannedAt(log, i, n, k, task, revision)
  }

  ghost predicate ReplannedAt(log: seq<Event>, i: nat, n: nat, k: nat, task: string, revision: int)
    requires i < n <= |log|
  {
    var v := Fold(log[..n], task, revision);
    && i < k < n
    && IsReplan(log[k], task, revision)
    && log[k].content.toEpoch == Some(v.epoch)
    && Fold(log[..k], task, revision).epoch + 1 == v.epoch
    && (v.activeRound.Some? ==> exists l :: RoundBetween(log, k, l, n, v.epoch, task, revision))
  }

  predicate RoundBetween(log: seq<Event>, k: nat, l: nat, n: nat, epoch: int, task: string, revision: int)
    requires n <= |log|
  {
    k < l < n && IsRound(log[l], task, revision) && EpochOf(log[l]) == epoch
  }

  /** A view without a plan came from one without a plan, unless by a replan. */
  lemma PlanlessApply(v: View, e: Event)
    requires ViewConsistent(v) && EventError(e).None? && !(e.kind.TaskReplan? && IsV2(e.content))
    requires Apply(v, e).plan.None? && Apply(v, e).terminal.None?
    ensures v.plan.None? && v.terminal.None?
    ensures !e.kind.BidRoundOpened? ==> Apply(v, e).activeRound == v.activeRound && Apply(v, e).epoch == v.epoch
    ensures e.kind.BidRoundOpened? ==> IsV2(e.content)
  {
  }

  lemma SincePlanStep(log: seq<Event>, i: nat, n: nat, task: string, revision: int)
    requires AdmittedLog(log) && i < n < |log| && SincePlan(log, i, n, task, revision)
    ensures SincePlan(log, i, n + 1, task, revision)
  {
    var e := log[n];
    var v := Fold(log[..n + 1], task, revision);
    if v.terminal.None? && v.plan.None? {
      FoldStep(log, n, task, revision);
      if IsReplan(e, task, revision) {
        AdmissionRefinesProjection(log, n, task, revision);
        assert ReplannedAt(log, i, n + 1, n, task, revision);
      } else {
        PlanlessStep(log, n, task, revision);
        var k :| ReplannedAt(log, i, n, k, task, revision);
        ReplannedAtStep(log, i, n, k, task, revision);
      }
    }
  }

  lemma PlanlessStep(log: seq<Event>, n: nat, task: string, revision: int)
    requires AdmittedLog(log) && n < |log| && !IsReplan(log[n], task, revision)
    requires Fold(log[..n + 1], task, revision).plan.None? && Fold(log[..n + 1], task, revision).terminal.None?
    ensures var before := Fold(log[..n], task, revision);
            var v := Fold(log[..n + 1], task, revision);
            && before.plan.None? && before.terminal.None?
            && (IsRound(log[n], task, revision) || (v.activeRound == before.activeRound && v.epoch == before.epoch))
  {
    FoldStep(log, n, task, revision);
    AdmittedAt(log, n);
    FoldIsConsistent(log[..n], task, revision);
    if BindsAt(log, n, task, revision) {
      PlanlessApply(Fold(log[..n], task, revision), log[n]);
    }
  }

  lemma ReplannedAtStep(log: seq<Event>, i: nat, n: nat, k: nat, task: string, revision: int)
    requires AdmittedLog(log) && i < n < |log| && !IsReplan(log[n], task, revision)
    requires Fold(log[..n + 1], task, revision).plan.None? && Fold(log[..n + 1], task, revision).terminal.None?
    requires ReplannedAt(log, i, n, k, task, revision)
    ensures ReplannedAt(log, i, n + 1, k, task, revision)
  {
    var before := Fold(log[..n], task, revision);
    var v := Fold(log[..n + 1], task, revision);
    PlanlessStep(log, n, task, revision);
    if IsRound(log[n], task, revision) {
      AdmissionRefinesProjection(log, n, task, revision);
      AdmittedPrefix(log, k);
      FoldIsConsistent(log[..k], task, revision);
      assert RoundBetween(log, k, n, n + 1, v.epoch, task, revision);
    } else if v.activeRound.Some? {
      var l :| RoundBetween(log, k, l, n, before.epoch, task, revision);
      assert RoundBetween(log, k, l, n + 1, v.epoch, task, revision);
    }
  }

  lemma {:induction false} SincePlanHolds(log: seq<Event>, i: nat, n: nat, task: string, revision: int)
    requires AdmittedLog(log) && i < n <= |log| && IsCommittedPlan(log[i], task, revision)
    ensures SincePlan(log, i, n, task, revision)
    decreases n
  {
    if n == i + 1 {
      AdmissionRefinesProjection(log, i, task, revision);
    } else {
      SincePlanHolds(log, i, n - 1, task, revision);
      SincePlanStep(log, i, n - 1, task, revision);
    }
  }

  /** A view that carries the plan goes on carrying it, or ends, or enters a later epoch. */
  lemma PlanStandsStep(log: seq<Event>, n: nat, task: string, revision: int, c: Content)
    requires AdmittedLog(log) && n < |log|
    requires var v := Fold(log[..n], task, revision); v.plan == Some(c) && v.epoch >= 1
    ensures var v := Fold(log[..n], task, revision);
            var after := Fold(log[..n + 1], task, revision);
            after.terminal.Some? || after.epoch > v.epoch || (after.epoch == v.epoch && after.plan == Some(c))
  {
    hide Fold, AdmittedLog, IsFresh;
    FoldStep(log, n, task, revision);
    AdmittedAt(log, n);
  }

  lemma PlanTakesEffect(log: seq<Event>, i: nat, task: string, revision: int)
    requires AdmittedLog(log) && i < |log| && IsCommittedPlan(log[i], task, revision)
    ensures var v := Fold(log[..i + 1], task, revision);
            v.epoch == EpochOf(log[i]) >= 1 && v.plan == Some(log[i].content)
  {
    hide Fold, AdmittedLog, IsFresh;
    AdmittedAt(log, i);
    AdmissionRefinesProjection(log, i, task, revision);
  }

  /** A committed plan stands until its task ends or is re-planned. */
  lemma {:induction false} PlanStands(log: seq<Event>, i: nat, n: nat, task: string, revision: int)
    requires AdmittedLog(log) && i < n <= |log| && IsCommittedPlan(log[i], task, revision)
    ensures var v := Fold(log[..n], task, revision);
            || v.terminal.Some? || v.epoch > EpochOf(log[i])
            || (v.epoch == EpochOf(log[i]) >= 1 && v.plan == Some(log[i].content))
    decreases n
  {
    hide Fold, AdmittedLog, IsCommittedPlan;
    if n == i + 1 {
      PlanTakesEffect(log, i, task, revision);
    } else {
      PlanStands(log, i, n - 1, task, revision);
      var v := Fold(log[..n - 1], task, revision);
      EpochGrows(log, n - 1, n, task, revision);
      TaskIsKept(log, n - 1, n, task, revision);
      if v.terminal.None? && v.epoch == EpochOf(log[i]) {
        PlanStandsStep(log, n - 1, task, revision, log[i].content);
      }
    }
  }

  /** Between two committed plans of a task and revision lie a replan and, after
      it, a bid round at the epoch the replan opened, which is the epoch of the
      second plan and later than that of the first. */
  lemma OnePlanPerEpoch(log: seq<Event>, i: nat, j: nat, task: string, revision: int)
    requires AdmittedLog(log) && i < j < |log|
    requires IsCommittedPlan(log[i], task, revision) && IsCommittedPlan(log[j], task, revision)
    ensures EpochOf(log[i]) < EpochOf(log[j])
    ensures exists k, l | i < k < l < j ::
              && IsReplan(log[k], task, revision)
              && IsRound(log[l], task, revision)
              && log[k].content.toEpoch == Some(EpochOf(log[l]))
              && EpochOf(log[l]) == EpochOf(log[j])
  {
    AdmissionRefinesProjection(log, i, task, revision);
    AdmissionRefinesProjection(log, j, task, revision);
    SincePlanHolds(log, i, j, task, revision);
    var v := Fold(log[..j], task, revision);
    var k :| ReplannedAt(log, i, j, k, task, revision);
    var l :| RoundBetween(log, k, l, j, v.epoch, task, revision);
    EpochGrows(log, i + 1, k, task, revision);
  }

  /** Hence a task, revision and epoch name at most one committed plan. */
  lemma PlanOfEpochIsUnique(log: seq<Event>, i: nat, j: nat, task: string, revision: int)
    requires AdmittedLog(log) && i < |log| && j < |log|
    requires IsCommittedPlan(log[i], task, revision) && IsCommittedPlan(log[j], task, revision)
    requires EpochOf(log[i]) == EpochOf(log[j])
    ensures i == j
  {
    if i < j {
      OnePlanPerEpoch(log, i, j, task, revision);
    } else if j < i {
      OnePlanPerEpoch(log, j, i, task, revision);
    }
  }

  // ---------------------------------------------------------------------
  // Rounds advance
  // ---------------------------------------------------------------------

  predicate SinceRound(v: View, epoch: int, number: int) {
    || v.epoch > epoch
    || v.terminal.Some?
    || v.plan.Some?
    || (v.activeRound.Some? && GetOr(v.activeRound.value.bidRound, 0) >= number)
  }

  lemma SinceRoundApply(v: View, e: Event, epoch: int, number: int)
    requires ViewConsistent(v) && EventError(e).None? && v.epoch >= epoch && SinceRound(v, epoch, number)
    ensures SinceRound(Apply(v, e), epoch, number)
  {
    if v.terminal.None? {
      match e.kind
      case TaskReplan =>
        assert Apply(v, e) == v || Apply(v, e).epoch == v.epoch + 1;
      case _ =>
    }
  }

  lemma SinceRoundStep(log: seq<Event>, n: nat, epoch: int, number: int, task: string, revision: int)
    requires AdmittedLog(log) && n < |log|
    requires Fold(log[..n], task, revision).epoch >= epoch && SinceRound(Fold(log[..n], task, revision), epoch, number)
    ensures Fold(log[..n + 1], task, revision).epoch >= epoch
    ensures SinceRound(Fold(log[..n + 1], task, revision), epoch, number)
  {
    EpochGrows(log, n, n + 1, task, revision);
    FoldStep(log, n, task, revision);
    AdmittedAt(log, n);
    FoldIsConsistent(log[..n], task, revision);
    if BindsAt(log, n, task, revision) {
      SinceRoundApply(Fold(log[..n], task, revision), log[n], epoch, number);
    }
  }

  lemma SinceRoundStart(log: seq<Event>, i: nat, task: string, revision: int)
    requires AdmittedLog(log) && i < |log| && IsRound(log[i], task, revision)
    ensures Fold(log[..i + 1], task, revision).epoch == EpochOf(log[i])
    ensures SinceRound(Fold(log[..i + 1], task, revision), EpochOf(log[i]), RoundOf(log[i]))
  {
    AdmissionRefinesProjection(log, i, task, revision);
    AdmittedAt(log, i);
  }

  lemma {:induction false} SinceRoundHolds(log: seq<Event>, i: nat, n: nat, task: string, revision: int)
    requires AdmittedLog(log) && i < n <= |log| && IsRound(log[i], task, revision)
    ensures Fold(log[..n], task, revision).epoch >= EpochOf(log[i])
    ensures SinceRound(Fold(log[..n], task, revision), EpochOf(log[i]), RoundOf(log[i]))
    decreases n
  {
    if n == i + 1 {
      SinceRoundStart(log, i, task, revision);
    } else {
      SinceRoundHolds(log, i, n - 1, task, revision);
      SinceRoundStep(log, n - 1, EpochOf(log[i]), RoundOf(log[i]), task, revision);
    }
  }

  /** Successive bid rounds of a task and revision advance: the epoch grows, or
      the round number grows within the epoch. */
  lemma RoundsAdvance(log: seq<Event>, i: nat, j: nat, task: string, revision: int)
    requires AdmittedLog(log) && i < j < |log|
    requires IsRound(log[i], task, revision) && IsRound(log[j], task, revision)
    ensures EpochOf(log[i]) < EpochOf(log[j])
            || (EpochOf(log[i]) == EpochOf(log[j]) && RoundOf(log[i]) < RoundOf(log[j]))
  {
    SinceRoundHolds(log, i, j, task, revision);
    AdmissionRefinesProjection(log, j, task, revision);
    AdmittedAt(log, j);
    FoldIsConsistent(log[..j], task, revision);
  }

  // ---------------------------------------------------------------------
  // Exact completion
  // ---------------------------------------------------------------------

  predicate IsCompletionOf(e: Event, task: string, revision: int, plan: Content, id: string) {
    && e.kind.AssignmentCompleted?
    && TaskOf(e.content) == task && RevisionOf(e.content) == revision
    && e.content.planId == plan.planId
    && e.content.coordinationEpoch == plan.coordinationEpoch
    && e.content.assignmentId == Some(id)
  }

  ghost predicate CompletedBetween(log: seq<Event>, a: nat, n: nat, task: string, revision: int, id: string)
    requires a < |log| && n <= |log|
  {
    exists k :: a < k < n && IsCompletionOf(log[k], task, revision, log[a].content, id)
  }

  /** Short of a committed plan, an event leaves a v2 plan in place and adds no
      completion but the one it reports under that plan. */
  lemma PlanIsKept(v: View, e: Event)
    requires ViewConsistent(v) && EventError(e).None? && !(e.kind.TaskAssigned? && IsV2(e.content))
    requires Apply(v, e).plan.Some? && IsV2(Apply(v, e).plan.value)
    ensures v.plan == Apply(v, e).plan
    ensures forall id | id in Apply(v, e).completed && id !in v.completed ::
              && e.kind.AssignmentCompleted? && e.content.planId == v.plan.value.planId
              && e.content.coordinationEpoch == v.plan.value.coordinationEpoch
              && e.content.assignmentId == Some(id)
  {
  }

  /** The event that committed the plan of a view, after which every completion
      the view counts was recorded. */
  lemma {:induction false} PlanOrigin(log: seq<Event>, task: string, revision: int) returns (a: nat)
    requires AdmittedLog(log)
    requires Fold(log, task, revision).plan.Some? && IsV2(Fold(log, task, revision).plan.value)
    ensures a < |log| && IsCommittedPlan(log[a], task, revision)
    ensures Fold(log, task, revision).plan == Some(log[a].content)
    ensures forall id | id in Fold(log, task, revision).completed ::
              CompletedBetween(log, a, |log|, task, revision, id)
  {
    hide Apply, EventError, ViewConsistent;
    var n := |log| - 1;
    var prefix := log[..n];
    var e := log[n];
    assert log[..n + 1] == log;
    AdmittedAt(log, n);
    FoldIsConsistent(prefix, task, revision);
    if IsCommittedPlan(e, task, revision) {
      AdmissionRefinesProjection(log, n, task, revision);
      a := n;
    } else {
      var before := Fold(prefix, task, revision);
      if Binds(prefix, e, task, revision) {
        PlanIsKept(before, e);
      }
      a := PlanOrigin(prefix, task, revision);
      forall id | id in Fold(log, task, revision).completed
        ensures CompletedBetween(log, a, |log|, task, revision, id)
      {
        if id in before.completed {
          var k :| a < k < n && IsCompletionOf(prefix[k], task, revision, prefix[a].content, id);
          assert IsCompletionOf(log[k], task, revision, log[a].content, id);
        } else {
          assert IsCompletionOf(e, task, revision, log[a].content, id);
        }
      }
    }
  }

  /** An admitted v2 TASK_DONE declares exactly the assignments of the plan
      committed in its epoch, and each of them was reported complete, under that
      plan and epoch, after the commitment and before the declaration. */
  lemma {:induction false} ExactCompletion(log: seq<Event>, d: nat, task: string, revision: int) returns (a: nat)
    requires AdmittedLog(log) && d < |log| && log[d].kind.TaskDone? && IsTransition(log[d], task, revision)
    ensures a < d && IsCommittedPlan(log[a], task, revision)
    ensures EpochOf(log[a]) == EpochOf(log[d]) && log[a].content.planId == log[d].content.planId
    ensures SetOf(GetOr(log[d].content.completedIds, [])) == PlanIds(Some(log[a].content))
    ensures PlanIds(Some(log[a].content)) != {}
    ensures forall id | id in PlanIds(Some(log[a].content)) ::
              exists k :: a < k < d && IsCompletionOf(log[k], task, revision, log[a].content, id)
  {
    AdmissionRefinesProjection(log, d, task, revision);
    AdmittedAt(log, d);
    FoldIsConsistent(log[..d], task, revision);
    var v := Fold(log[..d], task, revision);
    a := PlanOrigin(log[..d], task, revision);
    assert log[..d][a] == log[a];
    forall id | id in PlanIds(Some(log[a].content))
      ensures exists k :: a < k < d && IsCompletionOf(log[k], task, revision, log[a].content, id)
    {
      assert id in v.completed;
      assert CompletedBetween(log[..d], a, d, task, revision, id);
      var k :| a < k < d && IsCompletionOf(log[..d][k], task, revision, log[..d][a].content, id);
      assert IsCompletionOf(log[k], task, revision, log[a].content, id);
    }
  }
}
