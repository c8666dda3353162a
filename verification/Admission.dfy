/** The state-gated admission check: which v2 transitions may still enter the
    log, judged on the replay of the committed prefix. */
module Admission {
  import opened Events
  import opened TaskView

  predicate IsGated(k: Kind) {
    k.TaskPosted? || k.BidRoundOpened? || k.TaskAssigned? || k.ActionIntent? || k.TaskReplan? || k.TaskDone?
    || k.TaskFailed?
  }

  predicate IsBlockedLegacy(k: Kind) {
    k.TaskAssigned? || k.SafetyIntercept? || k.TaskDone?
  }

  predicate IsV2Posting(e: Event, task: string) {
    e.kind.TaskPosted? && TaskOf(e.content) == task && IsV2(e.content)
  }

  predicate HasV2Posting(log: seq<Event>, task: string) {
    exists i | 0 <= i < |log| :: IsV2Posting(log[i], task)
  }

  /** The plan context an intent must match. */
  function PlanContextError(c: Content, v: View): Option<Reason> {
    if GetOr(c.coordinationEpoch, 0) != v.epoch then Some(CoordinationEpochMismatch)
    else if v.plan.None? || c.planId != v.plan.value.planId then Some(PlanContextMismatch)
    else
      var found := FindAssignment(AssignmentsOf(v.plan), GetOr(c.assignmentId, ""));
      if found.None? || GetOr(c.assignmentEpoch, 0) != found.value.assignmentEpoch then Some(AssignmentContextMismatch)
      else None
  }

  function RoundError(c: Content, v: View): Option<Reason> {
    var epoch := GetOr(c.coordinationEpoch, 0);
    if epoch != ExpectedEpoch(v.epoch) then Some(CoordinationEpochMismatch)
    else if v.plan.Some? then Some(TaskPlanAlreadyCommitted)
    else if v.activeRound.Some? && epoch == GetOr(v.activeRound.value.coordinationEpoch, 0)
            && GetOr(c.bidRound, 0) <= GetOr(v.activeRound.value.bidRound, 0) then Some(BidRoundNotAdvancing)
    else None
  }

  function AssignedError(c: Content, v: View): Option<Reason> {
    if GetOr(c.coordinationEpoch, 0) != v.epoch then Some(CoordinationEpochMismatch)
    else if v.activeRound.None? then Some(BidRoundNotActive)
    else if v.plan.Some? then Some(TaskPlanAlreadyCommitted)
    else None
  }

  function ReplanError(c: Content, v: View): Option<Reason> {
    if GetOr(c.fromEpoch, 0) != v.epoch then Some(CoordinationEpochMismatch)
    else if GetOr(c.toEpoch, 0) != v.epoch + 1 then Some(EpochRelationInvalid)
    else if c.causeId.None? || c.causeId.value !in v.pending then Some(ReplanCauseNotPending)
    else if !(SetOf(GetOr(c.evidenceRefs, [])) <= SetOf(v.pending)) then Some(ReplanEvidenceNotPending)
    else None
  }

  function DoneError(c: Content, v: View): Option<Reason> {
    if GetOr(c.coordinationEpoch, 0) != v.epoch then Some(CoordinationEpochMismatch)
    else if v.plan.None? || c.planId != v.plan.value.planId then Some(TaskDonePlanMismatch)
    else if PlanIds(v.plan) == {} || !(PlanIds(v.plan) <= SetOf(v.completed))
            || SetOf(GetOr(c.completedIds, [])) != SetOf(v.completed) then Some(TaskDoneCompletionIncomplete)
    else None
  }

  /** The verdict on a v2 transition other than a posting. */
  function TransitionError(v: View, e: Event): Option<Reason> {
    if v.task.None? then Some(TaskRevisionNotFound)
    else if v.terminal.Some? then Some(TaskAlreadyTerminal)
    else match e.kind
      case BidRoundOpened => RoundError(e.content, v)
      case TaskAssigned => AssignedError(e.content, v)
      case ActionIntent => PlanContextError(e.content, v)
      case TaskReplan => ReplanError(e.content, v)
      case TaskDone => DoneError(e.content, v)
      case TaskFailed =>
        if GetOr(e.content.coordinationEpoch, 0) != v.epoch then Some(CoordinationEpochMismatch) else None
      case _ => None
  }

  /** The verdict of the gate on an event that would follow the log. */
  function GateError(log: seq<Event>, e: Event): Option<Reason> {
    var task := TaskOf(e.content);
    var revision := RevisionOf(e.content);
    if !IsV2(e.content) then
      if IsBlockedLegacy(e.kind) && task != "" && HasV2Posting(log, task) then Some(SchemaVersionRequired) else None
    else if !IsGated(e.kind) then None
    else if e.kind.TaskPosted? then
      if HasPosting(log, task, revision) then Some(TaskRevisionAlreadyPosted) else None
    else TransitionError(Fold(log, task, revision), e)
  }

  /** No committed event shares an identity with the newcomer. */
  predicate IsFresh(log: seq<Event>, e: Event) {
    forall i | 0 <= i < |log| ::
      && log[i].id != e.id
      && (e.key.Some? ==> log[i].key != e.key)
      && (TerminalKey(e).Some? ==> TerminalKey(log[i]) != TerminalKey(e))
  }

  /** What it takes to be the next event of a log. */
  predicate Admitted(log: seq<Event>, e: Event) {
    && EventError(e).None?
    && IsFresh(log, e)
    && GateError(log, e).None?
    && e.version == |log| + 1
    && e.ts >= 0.0
  }

  /** A log in which every event was admitted behind its prefix. */
  predicate AdmittedLog(log: seq<Event>) {
    log != [] ==> AdmittedLog(log[..|log| - 1]) && Admitted(log[..|log| - 1], log[|log| - 1])
  }

  lemma AdmittedExtends(log: seq<Event>, e: Event)
    requires AdmittedLog(log) && Admitted(log, e)
    ensures AdmittedLog(log + [e])
  {
    assert (log + [e])[..|log|] == log;
  }

  lemma {:induction false} AdmittedPrefix(log: seq<Event>, n: nat)
    requires AdmittedLog(log) && n <= |log|
    ensures AdmittedLog(log[..n])
  {
    if n == |log| {
      assert log[..n] == log;
    } else {
      AdmittedPrefix(log[..|log| - 1], n);
      assert log[..|log| - 1][..n] == log[..n];
    }
  }

  lemma {:induction false} AdmittedAt(log: seq<Event>, i: nat)
    requires AdmittedLog(log) && i < |log|
    ensures AdmittedLog(log[..i]) && Admitted(log[..i], log[i])
  {
    AdmittedPrefix(log, i + 1);
    assert log[..i + 1][..i] == log[..i];
  }

  /** Identifiers, keys and terminal keys occur at most once in an admitted log. */
  lemma {:induction false} IdentitiesAreUnique(log: seq<Event>, i: nat, j: nat)
    requires AdmittedLog(log) && i < j < |log|
    ensures log[i].id != log[j].id
    ensures log[j].key.Some? ==> log[i].key != log[j].key
    ensures TerminalKey(log[j]).Some? ==> TerminalKey(log[i]) != TerminalKey(log[j])
  {
    AdmittedAt(log, j);
    assert log[..j][i] == log[i];
  }
}
