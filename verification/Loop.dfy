/** The agent loop: how the agent of one device answers one board event, given
    its session and the current view of the task. It performs no input or output;
    what it wants done it returns as an effect. */
module Loop {
  import opened Events
  import opened TaskView
  import opened Store

  datatype Submission = Submission(intent: IntentId, planId: string, assignment: Assignment)

  datatype Effect = AppendEvent(event: Event) | SubmitIntent(submission: Submission) | CleanupSession(task: string)

  /** A step that raises leaves no result. */
  datatype StepResult = Stepped(effect: Option<Effect>, after: Session, consumed: bool) | Raised

  /** The revision is the one the view was asked for; the offer is whatever the
      bid engine computes from device state and time. */
  datatype LoopInput = LoopInput(event: Event, now: real, session: Session, view: View, revision: int, offer: Rest)

  function Observe(task: string, revision: int): Session {
    Session(task, revision, 0, Observed, None, None, None, 1)
  }

  /** The outputs of an agent are named by their idempotency key. */
  function MakeEvent(kind: Kind, ledger: Ledger, content: Content, source: string, key: Key): Event {
    Event(Derived(key), kind, ledger, content, source, None, None, Some(key), 0, 0.0, 0, 0)
  }

  function BidEvent(device: string, task: string, round: Content, offer: Rest): Event {
    var number := GetOr(round.bidRound, 1);
    MakeEvent(
      Bid, TaskLedger,
      NO_CONTENT.(schemaVersion := Some(2), taskId := Some(task), taskRevision := round.taskRevision,
                  coordinationEpoch := round.coordinationEpoch, bidRound := Some(number), rest := offer),
      device, BidKey(task, RevisionOf(round), GetOr(round.coordinationEpoch, 0), number, device))
  }

  predicate IsKnownVerb(verb: string) {
    verb in {"move_to", "follow", "hover", "pick_place", "return_home", "stop", "formation"}
  }

  /** The device is allowed to do what the assignment asks for, and knows how to. */
  predicate IsLegal(a: Assignment) {
    a.verb in a.allowedActions && IsKnownVerb(a.verb)
  }

  function IntentOf(c: Content, a: Assignment): IntentId {
    IntentId(TaskOf(c), RevisionOf(c), GetOr(c.coordinationEpoch, 0), a.assignmentId, a.assignmentEpoch)
  }

  /** The first assignment of a plan to the device. */
  function FirstFor(assignments: seq<Assignment>, device: string): (r: Option<Assignment>)
    ensures r.Some? ==> r.value in assignments && r.value.deviceId == device
    ensures r.None? ==> forall a | a in assignments :: a.deviceId != device
  {
    if assignments == [] then None
    else if assignments[0].deviceId == device then Some(assignments[0])
    else FirstFor(assignments[1..], device)
  }

  /** No earlier one is for the device. */
  lemma {:induction false} FirstForIsFirst(assignments: seq<Assignment>, device: string) returns (k: nat)
    requires FirstFor(assignments, device).Some?
    ensures k < |assignments| && assignments[k] == FirstFor(assignments, device).value
    ensures forall m | 0 <= m < k :: assignments[m].deviceId != device
  {
    if assignments[0].deviceId == device {
      k := 0;
    } else {
      k := FirstForIsFirst(assignments[1..], device);
      assert forall m | 0 < m < k + 1 :: assignments[m] == assignments[1..][m - 1];
      k := k + 1;
    }
  }

  /** The assignment that a dictionary keyed by identifier retains: the last. */
  function LastById(assignments: seq<Assignment>, id: string): (r: Option<Assignment>)
    ensures r.Some? ==> r.value in assignments && r.value.assignmentId == id
    ensures r.None? ==> forall a | a in assignments :: a.assignmentId != id
  {
    if assignments == [] then None
    else
      var last := |assignments| - 1;
      if assignments[last].assignmentId == id then Some(assignments[last]) else LastById(assignments[..last], id)
  }

  /** No later one has the identifier. */
  lemma {:induction false} LastByIdIsLast(assignments: seq<Assignment>, id: string) returns (k: nat)
    requires LastById(assignments, id).Some?
    ensures k < |assignments| && assignments[k] == LastById(assignments, id).value
    ensures forall m | k < m < |assignments| :: assignments[m].assignmentId != id
  {
    var last := |assignments| - 1;
    if assignments[last].assignmentId == id {
      k := last;
    } else {
      k := LastByIdIsLast(assignments[..last], id);
    }
  }

  /** The assignment still stands in the current plan, for the same device and epoch. */
  predicate StillPlanned(a: Assignment, current: seq<Assignment>) {
    var found := LastById(current, a.assignmentId);
    found.Some? && found.value.deviceId == a.deviceId && found.value.assignmentEpoch == a.assignmentEpoch
  }

  /** The plan gives every assignment identifier to one device. */
  predicate IsUnambiguous(c: Content) {
    forall a | a in GetOr(c.assignments, []) :: StillPlanned(a, GetOr(c.assignments, []))
  }

  predicate Names(intent: Option<IntentSession>, c: Content) {
    intent.Some? && c.intentId == Some(intent.value.id)
  }

  /** The session works on the intent and has gone beyond proposing it. */
  predicate SettledOn(s: Session, intent: IntentId) {
    s.intent.Some? && s.intent.value.id == intent && !s.intent.value.state.Proposed?
  }

  function Ignored(s: Session): StepResult {
    Stepped(None, s, true)
  }

  function OnBidRoundOpened(device: string, i: LoopInput): StepResult {
    var c := i.event.content;
    var requested := c.rest.details.slots;
    var known := if i.view.task.Some? then i.view.task.value.rest.details.slots else [];
    if i.view.terminal.Some? then Ignored(i.session)
    else if GetOr(c.taskRevision, 0) != i.revision then Ignored(i.session)
    else if i.now > GetOr(c.deadline, 0.0) then Ignored(i.session)
    else if requested == [] || (exists slot | slot in requested :: slot !in known) then Ignored(i.session)
    else if c.taskRevision.None? || c.coordinationEpoch.None? || c.deadline.None? then Raised
    else
      assert requested[0] in known;
      Stepped(Some(AppendEvent(BidEvent(device, TaskOf(i.view.task.value), c, i.offer))),
              i.session.(revision := RevisionOf(c), epoch := c.coordinationEpoch.value, state := Standby,
                         version := i.session.version + 1),
              true)
  }

  /** Whether a TASK_ASSIGNED event no longer describes the task's current plan. */
  predicate IsStale(i: LoopInput) {
    var c := i.event.content;
    || GetOr(c.taskRevision, 0) != i.revision
    || GetOr(c.coordinationEpoch, 0) != i.view.epoch
    || i.session.epoch > GetOr(c.coordinationEpoch, 0)
    || i.view.plan.None?
    || GetOr(c.planId, "") != GetOr(i.view.plan.value.planId, "")
    || exists a | a in GetOr(c.assignments, []) :: !StillPlanned(a, AssignmentsOf(i.view.plan))
  }

  function OnTaskAssigned(device: string, i: LoopInput): StepResult {
    var c := i.event.content;
    var s := i.session;
    if i.view.terminal.Some? then Ignored(s)
    else if ReplanPending(i.view) then Stepped(None, s, false)
    else if IsStale(i) then Ignored(s)
    else
      var moved := s.(revision := GetOr(c.taskRevision, 0), epoch := GetOr(c.coordinationEpoch, 0),
                      version := s.version + 1);
      var mine := FirstFor(GetOr(c.assignments, []), device);
      if mine.None? then Stepped(None, moved.(state := Standby, assignment := None, intent := None), true)
      else if c.taskId.None? || c.taskRevision.None? || c.coordinationEpoch.None? || c.planId.None? then Raised
      else if !IsLegal(mine.value) then Raised
      else
        var intent := IntentOf(c, mine.value);
        var active := moved.(state := Active, assignment := mine);
        if SettledOn(s, intent) then Stepped(None, active, true)
        else
          Stepped(Some(SubmitIntent(Submission(intent, c.planId.value, mine.value))),
                  active.(intent := Some(IntentSession(intent, Proposed, None))), true)
  }

  function OnActionIntent(i: LoopInput): StepResult {
    var s := i.session;
    if Names(s.intent, i.event.content) && s.intent.value.state.Proposed? then
      Stepped(None, s.(intent := Some(s.intent.value.(state := Dispatched)), version := s.version + 1), true)
    else Ignored(s)
  }

  function OnReceipt(i: LoopInput): StepResult {
    var s := i.session;
    var d := i.event.content.rest.details;
    if !Names(s.intent, i.event.content) then Ignored(s)
    else
      var success := d.success && d.certainty == "confirmed" && d.postCheckAllowed;
      var receipt := if d.receiptId == "" then None else Some(d.receiptId);
      var outcome := if success then Succeeded else if d.certainty == "unknown" then DispatchUnknown else IntentFailed;
      Stepped(None,
              s.(intent := Some(s.intent.value.(state := outcome, receipt := receipt)), lastReceipt := receipt,
                 state := if success then s.state else SessionFailed, version := s.version + 1),
              true)
  }

  function OnSafetyIntercept(i: LoopInput): StepResult {
    var s := i.session;
    if Names(s.intent, i.event.content) then
      Stepped(None,
              s.(intent := Some(s.intent.value.(state := SafetyBlocked)), state := SessionFailed,
                 version := s.version + 1),
              true)
    else Ignored(s)
  }

  function OnAssignmentCompleted(i: LoopInput): StepResult {
    var s := i.session;
    if s.assignment.Some? && i.event.content.assignmentId == Some(s.assignment.value.assignmentId) then
      Stepped(None, s.(state := SessionDone, version := s.version + 1), true)
    else Ignored(s)
  }

  function OnTaskReplan(i: LoopInput): StepResult {
    var s := i.session;
    if GetOr(i.event.content.fromEpoch, -1) != s.epoch then Ignored(s)
    else if i.event.content.toEpoch.None? then Raised
    else
      Stepped(None,
              s.(epoch := i.event.content.toEpoch.value, state := Observed, assignment := None, intent := None,
                 lastReceipt := None, version := s.version + 1),
              true)
  }

  function OnTerminal(i: LoopInput, state: SessionState): StepResult {
    Stepped(Some(CleanupSession(i.session.task)), i.session.(state := state, version := i.session.version + 1), true)
  }

  function OnEStop(device: string, i: LoopInput): StepResult {
    var s := i.session;
    var d := i.event.content.rest.details;
    if d.operation == "stop" && (d.scopeType == "all" || (d.scopeType == "device" && d.scopeId == device)) then
      Stepped(None, s.(state := SessionFailed, version := s.version + 1), true)
    else Ignored(s)
  }

  function LoopStep(device: string, i: LoopInput): StepResult {
    match i.event.kind
    case BidRoundOpened => OnBidRoundOpened(device, i)
    case TaskAssigned => OnTaskAssigned(device, i)
    case ActionIntent => OnActionIntent(i)
    case Receipt => OnReceipt(i)
    case SafetyIntercept => OnSafetyIntercept(i)
    case AssignmentCompleted => OnAssignmentCompleted(i)
    case TaskReplan => OnTaskReplan(i)
    case TaskDone => OnTerminal(i, SessionDone)
    case TaskFailed => OnTerminal(i, SessionFailed)
    case EStop => OnEStop(device, i)
    case _ => Ignored(i.session)
  }

  // ---------------------------------------------------------------------
  // What every step keeps
  // ---------------------------------------------------------------------

  /** A step that changes the session gives it a newer version, so the store
      never refuses the result; effects come only with consumption. */
  lemma StepIsSavable(device: string, i: LoopInput, sessions: map<string, Session>)
    requires LoopStep(device, i).Stepped?
    requires i.session.task in sessions ==> sessions[i.session.task] == i.session
    ensures var r := LoopStep(device, i);
            && r.after.task == i.session.task
            && (r.after == i.session || r.after.version == i.session.version + 1)
            && MaySave(sessions, r.after)
            && (r.effect.Some? ==> r.consumed && r.after.version == i.session.version + 1)
            && (!r.consumed ==> r.after == i.session)
  {
    hide IsStale, StillPlanned;
  }

  /** The assignment event names the intent as the work of the device. */
  predicate Triggers(device: string, e: Event, intent: IntentId) {
    && e.kind.TaskAssigned? && IsV2(e.content)
    && FirstFor(GetOr(e.content.assignments, []), device).Some?
    && intent == IntentOf(e.content, FirstFor(GetOr(e.content.assignments, []), device).value)
  }

  /** Delivered again, an assignment whose intent has left the proposed state is
      never submitted a second time, and the session keeps its intent. */
  lemma RedeliveryNeverResubmits(device: string, i: LoopInput, intent: IntentId)
    requires Triggers(device, i.event, intent) && SettledOn(i.session, intent)
    requires LoopStep(device, i).Stepped?
    ensures var r := LoopStep(device, i);
            r.effect.None? && SettledOn(r.after, intent) && r.after.intent == i.session.intent
  {
    hide IsStale;
  }

  /** A revision is a v2 marker, so only v2 payloads may carry one. */
  lemma RevisionMeansV2(e: Event)
    requires EventError(e).None? && e.content.taskRevision.Some?
    ensures IsV2(e.content)
  {
  }

  /** A submission is the device's own work in the event at hand, proposed in the
      session that is to be stored before it is carried out. */
  lemma SubmissionIsOwnWork(device: string, i: LoopInput)
    requires EventError(i.event).None?
    requires LoopStep(device, i).Stepped? && LoopStep(device, i).effect.Some?
    requires LoopStep(device, i).effect.value.SubmitIntent?
    ensures var r := LoopStep(device, i);
            var sub := r.effect.value.submission;
            && Triggers(device, i.event, sub.intent)
            && !SettledOn(i.session, sub.intent)
            && r.after.intent == Some(IntentSession(sub.intent, Proposed, None))
            && r.after.assignment == Some(sub.assignment) && sub.assignment.deviceId == device
            && FirstFor(GetOr(i.event.content.assignments, []), device) == Some(sub.assignment)
            && IsLegal(sub.assignment) && r.after.epoch == sub.intent.epoch
  {
    hide IsStale, EventError;
    if i.event.content.taskRevision.Some? {
      RevisionMeansV2(i.event);
    }
  }

  /** The loop submits the intent at this input. */
  predicate SubmitsIntent(device: string, i: LoopInput, intent: IntentId) {
    var r := LoopStep(device, i);
    r.Stepped? && r.effect.Some? && r.effect.value.SubmitIntent? && r.effect.value.submission.intent == intent
  }

  /** The intent is submitted exactly when the event assigns it to the device, with work
      it can do, the assignment still stands, and the session has not gone beyond
      proposing it: whether it was submitted before plays no part. */
  lemma SubmissionIsExact(device: string, i: LoopInput, intent: IntentId)
    requires EventError(i.event).None?
    ensures SubmitsIntent(device, i, intent) <==>
            && Triggers(device, i.event, intent)
            && IsLegal(FirstFor(GetOr(i.event.content.assignments, []), device).value)
            && i.view.terminal.None? && !ReplanPending(i.view) && !IsStale(i)
            && !SettledOn(i.session, intent)
  {
    hide IsStale, EventError, IsLegal;
    if i.event.content.taskRevision.Some? {
      RevisionMeansV2(i.event);
    }
    if i.event.kind.TaskAssigned? && IsV2(i.event.content) {
      PlanIsComplete(i.event);
    }
  }

  lemma PlanIsComplete(e: Event)
    requires EventError(e).None? && e.kind.TaskAssigned? && IsV2(e.content)
    ensures e.content.taskId.Some? && e.content.taskRevision.Some? && e.content.coordinationEpoch.Some?
    ensures e.content.planId.Some?
  {
  }

  /** A plan that gives an identifier to two devices is never submitted from: the
      comparison with the current plan, which keeps one entry per identifier, fails for
      one of the two. */
  lemma SubmissionIsUnambiguous(device: string, i: LoopInput)
    requires i.event.kind.TaskAssigned? && LoopStep(device, i).Stepped? && LoopStep(device, i).effect.Some?
    ensures IsUnambiguous(i.event.content)
  {
    var plan := GetOr(i.event.content.assignments, []);
    forall a | a in plan
      ensures StillPlanned(a, plan)
    {
      assert LastById(plan, a.assignmentId).Some?;
      assert StillPlanned(LastById(plan, a.assignmentId).value, AssignmentsOf(i.view.plan));
    }
  }

  /** The rounds that ask the device for the bid of a key. */
  predicate Invites(e: Event, key: Key) {
    && key.BidKey? && e.kind.BidRoundOpened? && IsV2(e.content)
    && TaskOf(e.content) == key.task && RevisionOf(e.content) == key.revision
    && GetOr(e.content.coordinationEpoch, 0) == key.epoch && GetOr(e.content.bidRound, 1) == key.number
  }

  lemma {:induction false} ViewTaskIsOwn(log: seq<Event>, task: string, revision: int)
    ensures Fold(log, task, revision).task.Some? ==> TaskOf(Fold(log, task, revision).task.value) == task
  {
    if log != [] {
      ViewTaskIsOwn(log[..|log| - 1], task, revision);
    }
  }

  /** Whatever the loop wants appended is its device's bid for the round at hand,
      under the key of that round. */
  lemma AppendIsOwnBid(device: string, i: LoopInput)
    requires EventError(i.event).None?
    requires i.view.task.Some? ==> TaskOf(i.view.task.value) == TaskOf(i.event.content)
    requires LoopStep(device, i).Stepped? && LoopStep(device, i).effect.Some?
    requires LoopStep(device, i).effect.value.AppendEvent?
    ensures var e := LoopStep(device, i).effect.value.event;
            && e.key.Some? && Invites(i.event, e.key.value) && e.key.value.device == device
            && e.id == Derived(e.key.value) && e.kind.Bid?
            && TaskOf(e.content) == TaskOf(i.event.content)
            && StoredForm(e) == e
  {
    hide IsStale, EventError;
    if i.event.content.taskRevision.Some? {
      RevisionMeansV2(i.event);
    }
    var requested := i.event.content.rest.details.slots;
    if i.event.kind.BidRoundOpened? && requested != [] {
      assert requested[0] in requested;
    }
  }

  // ---------------------------------------------------------------------
  // The loop as it runs
  // ---------------------------------------------------------------------

  lemma LastByIdStep(assignments: seq<Assignment>, n: nat, id: string)
    requires n < |assignments|
    ensures LastById(assignments[..n + 1], id) ==
            if assignments[n].assignmentId == id then Some(assignments[n]) else LastById(assignments[..n], id)
  {
    assert assignments[..n + 1][..n] == assignments[..n];
  }

  /** Indexes a plan by assignment identifier; a later entry replaces an earlier one. */
  method IndexAssignments(assignments: seq<Assignment>) returns (index: map<string, Assignment>)
    ensures forall id :: LastById(assignments, id) == if id in index then Some(index[id]) else None
  {
    index := map[];
    for n := 0 to |assignments|
      invariant forall id :: LastById(assignments[..n], id) == if id in index then Some(index[id]) else None
    {
      forall id {
        LastByIdStep(assignments, n, id);
      }
      index := index[assignments[n].assignmentId := assignments[n]];
    }
    assert assignments[..|assignments|] == assignments;
  }

  class PureAgentLoop {
    const deviceId: string

    constructor (deviceId: string)
      ensures this.deviceId == deviceId
    {
      this.deviceId := deviceId;
    }

    /** Whether every assignment of the event still stands in the current plan. */
    method MatchesPlan(assignments: seq<Assignment>, plan: seq<Assignment>) returns (ok: bool)
      ensures ok <==> forall a | a in assignments :: StillPlanned(a, plan)
    {
      var current := IndexAssignments(plan);
      for n := 0 to |assignments|
        invariant forall k | 0 <= k < n :: StillPlanned(assignments[k], plan)
      {
        var value := assignments[n];
        if value.assignmentId !in current {
          assert !StillPlanned(value, plan);
          return false;
        }
        var found := current[value.assignmentId];
        if found.deviceId != value.deviceId || found.assignmentEpoch != value.assignmentEpoch {
          assert !StillPlanned(value, plan);
          return false;
        }
      }
      ok := true;
    }

    method AssignTask(i: LoopInput) returns (result: StepResult)
      ensures result == OnTaskAssigned(deviceId, i)
    {
      var session := i.session;
      var c := i.event.content;
      if i.view.terminal.Some? {
        return Stepped(None, session, true);
      }
      if ReplanPending(i.view) {
        return Stepped(None, session, false);
      }
      var revision := GetOr(c.taskRevision, 0);
      var epoch := GetOr(c.coordinationEpoch, 0);
      if revision != i.revision || epoch != i.view.epoch || session.epoch > epoch || i.view.plan.None? {
        return Stepped(None, session, true);
      }
      if GetOr(c.planId, "") != GetOr(i.view.plan.value.planId, "") {
        return Stepped(None, session, true);
      }
      var assignments := GetOr(c.assignments, []);
      var ok := MatchesPlan(assignments, AssignmentsOf(i.view.plan));
      if !ok {
        return Stepped(None, session, true);
      }
      var assignment := FirstFor(assignments, deviceId);
      session := session.(revision := revision);
      session := session.(epoch := epoch);
      session := session.(version := session.version + 1);
      if assignment.None? {
        session := session.(state := Standby);
        session := session.(assignment := None);
        session := session.(intent := None);
        return Stepped(None, session, true);
      }
      if c.taskId.None? || c.taskRevision.None? || c.coordinationEpoch.None? || c.planId.None? {
        return Raised;
      }
      if assignment.value.verb !in assignment.value.allowedActions || !IsKnownVerb(assignment.value.verb) {
        return Raised;
      }
      var intent := IntentOf(c, assignment.value);
      if session.intent.Some? && session.intent.value.id == intent {
        if !session.intent.value.state.Proposed? {
          session := session.(assignment := assignment);
          session := session.(state := Active);
          return Stepped(None, session, true);
        }
      }
      session := session.(state := Active);
      session := session.(assignment := assignment);
      session := session.(intent := Some(IntentSession(intent, Proposed, None)));
      result := Stepped(Some(SubmitIntent(Submission(intent, c.planId.value, assignment.value))), session, true);
    }

    /** Each handler works on a copy of the session and returns it. */
    method Step(i: LoopInput) returns (result: StepResult)
      ensures result == LoopStep(deviceId, i)
    {
      var session := i.session;
      var c := i.event.content;
      match i.event.kind
      case BidRoundOpened =>
        result := OnBidRoundOpened(deviceId, i);
      case TaskAssigned =>
        result := AssignTask(i);
      case ActionIntent =>
        if session.intent.Some? && c.intentId == Some(session.intent.value.id) {
          if session.intent.value.state.Proposed? {
            session := session.(intent := Some(session.intent.value.(state := Dispatched)));
            session := session.(version := session.version + 1);
          }
        }
        result := Stepped(None, session, true);
      case Receipt =>
        if session.intent.None? || c.intentId != Some(session.intent.value.id) {
          return Stepped(None, session, true);
        }
        var d := c.rest.details;
        var success := d.success && d.certainty == "confirmed" && d.postCheckAllowed;
        var receipt := if d.receiptId != "" then Some(d.receiptId) else None;
        var current := session.intent.value;
        current := current.(state := if success then Succeeded
                                     else if d.certainty == "unknown" then DispatchUnknown else IntentFailed);
        current := current.(receipt := receipt);
        session := session.(intent := Some(current));
        session := session.(lastReceipt := receipt);
        if !success {
          session := session.(state := SessionFailed);
        }
        session := session.(version := session.version + 1);
        result := Stepped(None, session, true);
      case SafetyIntercept =>
        if session.intent.Some? && c.intentId == Some(session.intent.value.id) {
          session := session.(intent := Some(session.intent.value.(state := SafetyBlocked)));
          session := session.(state := SessionFailed);
          session := session.(version := session.version + 1);
        }
        result := Stepped(None, session, true);
      case AssignmentCompleted =>
        if session.assignment.Some? && c.assignmentId == Some(session.assignment.value.assignmentId) {
          session := session.(state := SessionDone);
          session := session.(version := session.version + 1);
        }
        result := Stepped(None, session, true);
      case TaskReplan =>
        if GetOr(c.fromEpoch, -1) != session.epoch {
          return Stepped(None, session, true);
        }
        if c.toEpoch.None? {
          return Raised;
        }
        session := session.(epoch := c.toEpoch.value);
        session := session.(state := Observed);
        session := session.(assignment := None);
        session := session.(intent := None);
        session := session.(lastReceipt := None);
        session := session.(version := session.version + 1);
        result := Stepped(None, session, true);
      case TaskDone =>
        session := session.(state := SessionDone);
        session := session.(version := session.version + 1);
        result := Stepped(Some(CleanupSession(session.task)), session, true);
      case TaskFailed =>
        session := session.(state := SessionFailed);
        session := session.(version := session.version + 1);
        result := Stepped(Some(CleanupSession(session.task)), session, true);
      case EStop =>
        var d := c.rest.details;
        if d.operation == "stop" && (d.scopeType == "all" || (d.scopeType == "device" && d.scopeId == deviceId)) {
          session := session.(state := SessionFailed);
          session := session.(version := session.version + 1);
        }
        result := Stepped(None, session, true);
      case _ =>
        result := Stepped(None, session, true);
    }
  }
}
