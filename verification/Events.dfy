/** Events of the shared board: payloads, identities and the contract every
    event must meet before it can be appended. */
module Events {
  datatype Option<+T> = None | Some(value: T)

  /** An intent is named by the assignment it executes. Step and attempt are the
      constants 0 and 1 in the current contract and carry no information. */
  datatype IntentId = IntentId(task: string, revision: int, epoch: int, assignment: string, assignmentEpoch: int)

  datatype Phase = Pre | Post

  /** Idempotency keys. The program formats them as text; they are kept here as
      the injective values that the text stands for. */
  datatype Key =
    | Named(text: string)
    | BidKey(task: string, revision: int, epoch: int, number: int, device: string)
    | IntentKey(intent: IntentId)
    | InterceptKey(intent: IntentId, phase: Phase)
    | ReceiptKey(intent: IntentId)

  /** A plain identifier, or the digest of an idempotency key. */
  datatype EventId = Plain(text: string) | Derived(key: Key)

  datatype Ledger = TaskLedger | EvidenceLedger | ReceiptLedger | HumanLedger

  datatype Kind =
    | TaskPosted | BidRoundOpened | TaskAssigned | AssignmentCompleted | TaskDone | TaskFailed | TaskReplan
    | Bid | Claim | Yield | Handoff | AskHelp
    | Clue | Fusion
    | AuthPoint | AuthDecision
    | ActionIntent | Receipt | SafetyIntercept | EStop
    | SkillRegistered

  datatype Assignment = Assignment(
    assignmentId: string, slotId: string, deviceId: string, supportingBid: string, assignmentEpoch: int,
    allowedActions: seq<string>, verb: string, rest: int)

  /** What an agent reads of a payload beyond its coordination fields: the outcome
      in a receipt, the reach of an emergency stop, the slots of a task or a round. */
  datatype Details = Details(
    success: bool, certainty: string, postCheckAllowed: bool, receiptId: string,
    operation: string, scopeType: string, scopeId: string, slots: seq<string>, other: int)

  /** The part of a payload that neither admission nor the projections look at:
      whether it holds a further v2 marker field, whether its own field checks
      pass, and its data. */
  datatype Rest = Rest(hasMarker: bool, wellFormed: bool, details: Details)

  /** An event payload; an absent dictionary entry is None. */
  datatype Content = Content(
    schemaVersion: Option<int>,
    taskId: Option<string>,
    taskRevision: Option<int>,
    coordinationEpoch: Option<int>,
    bidRound: Option<int>,
    deadline: Option<real>,
    planId: Option<string>,
    assignments: Option<seq<Assignment>>,
    assignmentId: Option<string>,
    assignmentEpoch: Option<int>,
    intentId: Option<IntentId>,
    completedIds: Option<seq<string>>,
    causeId: Option<EventId>,
    evidenceRefs: Option<seq<EventId>>,
    inputEvidenceRefs: Option<seq<EventId>>,
    fromEpoch: Option<int>,
    toEpoch: Option<int>,
    rest: Rest)

  /** The empty payload. */
  const NO_DETAILS := Details(false, "", false, "", "", "", "", [], 0)
  const NO_REST := Rest(false, true, NO_DETAILS)
  const NO_CONTENT := Content(None, None, None, None, None, None, None, None, None, None, None, None, None, None, None,
                              None, None, NO_REST)

  datatype Event = Event(
    id: EventId, kind: Kind, ledger: Ledger, content: Content, source: string,
    confidence: Option<real>, ttl: Option<real>, key: Option<Key>, extra: int,
    ts: real, version: nat, trace: int)

  datatype Reason =
    | EventIdRequired | SourceRequired | KeyInvalid | LedgerMismatch | ConfidenceInvalid | TtlInvalid
    | TerminalTaskInvalid | FieldInvalid | SchemaVersionRequired | SchemaVersionUnsupported | EpochRelationInvalid
    | TaskRevisionRequired | TaskRevisionAlreadyPosted | TaskRevisionNotFound | TaskAlreadyTerminal
    | CoordinationEpochMismatch | TaskPlanAlreadyCommitted | BidRoundNotAdvancing | BidRoundNotActive
    | PlanContextMismatch | AssignmentContextMismatch | ReplanCauseNotPending | ReplanEvidenceNotPending
    | TaskDonePlanMismatch | TaskDoneCompletionIncomplete
    | NegativeServerTime | KeyReused | IdReused | TerminalAlreadyCommitted

  function GetOr<T>(field: Option<T>, default: T): T {
    if field.Some? then field.value else default
  }

  function TaskOf(c: Content): string {
    GetOr(c.taskId, "")
  }

  /** The revision a payload names, where an absent one counts as 1. */
  function RevisionOf(c: Content): int {
    GetOr(c.taskRevision, 1)
  }

  predicate IsV2(c: Content) {
    c.schemaVersion == Some(2)
  }

  /** Business identity: server-owned position and time, and trace data, are no part of it. */
  function Canonical(e: Event): Event {
    e.(ts := 0.0, version := 0, trace := 0)
  }

  predicate IsTerminalKind(k: Kind) {
    k.TaskDone? || k.TaskFailed?
  }

  function TerminalKey(e: Event): Option<(string, int)> {
    if IsTerminalKind(e.kind) && TaskOf(e.content) != "" then Some((TaskOf(e.content), RevisionOf(e.content))) else None
  }

  // ---------------------------------------------------------------------
  // The event contract
  // ---------------------------------------------------------------------

  predicate IsBlank(s: string) {
    forall i | 0 <= i < |s| :: s[i] in {' ', '\t', '\n', '\r'}
  }

  predicate PresentText(field: Option<string>) {
    field.Some? && !IsBlank(field.value)
  }

  predicate PresentId(field: Option<EventId>) {
    field.Some? && (field.value.Plain? ==> !IsBlank(field.value.text))
  }

  predicate AtLeast(field: Option<int>, minimum: int) {
    field.Some? ==> field.value >= minimum
  }

  predicate Requires(field: Option<int>, minimum: int) {
    field.Some? && field.value >= minimum
  }

  predicate IsV2Only(k: Kind) {
    k.BidRoundOpened? || k.AssignmentCompleted? || k.TaskFailed? || k.ActionIntent?
  }

  predicate IsTaskScoped(k: Kind) {
    k.TaskPosted? || k.BidRoundOpened? || k.Bid? || k.TaskAssigned? || k.AssignmentCompleted? || k.TaskReplan?
    || k.TaskDone? || k.TaskFailed? || k.Clue? || k.ActionIntent? || k.Receipt? || k.SafetyIntercept?
  }

  predicate HasMarker(c: Content) {
    c.taskRevision.Some? || c.coordinationEpoch.Some? || c.bidRound.Some? || c.assignments.Some? || c.planId.Some?
    || c.assignmentId.Some? || c.assignmentEpoch.Some? || c.completedIds.Some? || c.evidenceRefs.Some?
    || c.fromEpoch.Some? || c.toEpoch.Some? || c.rest.hasMarker
  }

  predicate CommonFieldsOk(c: Content) {
    && (c.taskId.Some? ==> !IsBlank(c.taskId.value))
    && AtLeast(c.taskRevision, 1) && AtLeast(c.coordinationEpoch, 0) && AtLeast(c.assignmentEpoch, 1)
    && AtLeast(c.bidRound, 1) && AtLeast(c.fromEpoch, 0) && AtLeast(c.toEpoch, 1)
    && (c.deadline.Some? ==> c.deadline.value >= 0.0)
  }

  predicate AssignmentOk(a: Assignment) {
    !IsBlank(a.assignmentId) && !IsBlank(a.slotId) && !IsBlank(a.deviceId) && a.assignmentEpoch >= 1
  }

  /** The field checks shared by intents, receipts, intercepts and completions. */
  function ActionContextError(c: Content): Option<Reason> {
    if !Requires(c.coordinationEpoch, 1) || !Requires(c.assignmentEpoch, 1) || !PresentText(c.planId)
       || !PresentText(c.assignmentId) then Some(FieldInvalid)
    else if c.assignmentEpoch != c.coordinationEpoch then Some(EpochRelationInvalid)
    else None
  }

  function KindError(k: Kind, c: Content): Option<Reason> {
    match k
    case BidRoundOpened =>
      if Requires(c.coordinationEpoch, 1) && Requires(c.bidRound, 1) && c.deadline.Some? then None
      else Some(FieldInvalid)
    case Bid =>
      if Requires(c.coordinationEpoch, 1) && Requires(c.bidRound, 1) then None else Some(FieldInvalid)
    case TaskAssigned =>
      if !Requires(c.coordinationEpoch, 1) || !PresentText(c.planId) || c.assignments.None? then Some(FieldInvalid)
      else if exists a | a in c.assignments.value :: !AssignmentOk(a) then Some(FieldInvalid)
      else if exists a | a in c.assignments.value :: a.assignmentEpoch != c.coordinationEpoch.value then
        Some(EpochRelationInvalid)
      else None
    case ActionIntent => ActionContextError(c)
    case SafetyIntercept => ActionContextError(c)
    case Receipt => ActionContextError(c)
    case AssignmentCompleted => ActionContextError(c)
    case TaskReplan =>
      if !Requires(c.fromEpoch, 0) || !Requires(c.toEpoch, 1) then Some(FieldInvalid)
      else if c.toEpoch.value != c.fromEpoch.value + 1 then Some(EpochRelationInvalid)
      else if !PresentId(c.causeId) || c.evidenceRefs.None? then Some(FieldInvalid)
      else None
    case EStop =>
      if c.taskId.Some? && c.taskRevision.None? then Some(TaskRevisionRequired) else None
    case TaskDone =>
      if Requires(c.coordinationEpoch, 1) && PresentText(c.planId) && c.completedIds.Some? then None
      else Some(FieldInvalid)
    case TaskFailed =>
      if Requires(c.coordinationEpoch, 0) then None else Some(FieldInvalid)
    case _ => None
  }

  function ContractError(k: Kind, c: Content): Option<Reason> {
    if !CommonFieldsOk(c) then Some(FieldInvalid)
    else if c.schemaVersion.None? then
      if IsV2Only(k) || HasMarker(c) then Some(SchemaVersionRequired) else None
    else if !IsV2(c) then Some(SchemaVersionUnsupported)
    else if IsTaskScoped(k) && (!PresentText(c.taskId) || !Requires(c.taskRevision, 1)) then Some(FieldInvalid)
    else if KindError(k, c).Some? then KindError(k, c)
    else if !c.rest.wellFormed then Some(FieldInvalid)
    else None
  }

  function ExpectedLedger(k: Kind): Option<Ledger> {
    match k
    case SkillRegistered => None
    case Clue => Some(EvidenceLedger)
    case Fusion => Some(EvidenceLedger)
    case AuthPoint => Some(HumanLedger)
    case AuthDecision => Some(HumanLedger)
    case ActionIntent => Some(ReceiptLedger)
    case Receipt => Some(ReceiptLedger)
    case SafetyIntercept => Some(ReceiptLedger)
    case EStop => Some(ReceiptLedger)
    case Claim => Some(ReceiptLedger)
    case Yield => Some(ReceiptLedger)
    case _ => Some(TaskLedger)
  }

  /** The checks made before the board is locked. */
  function EventError(e: Event): Option<Reason> {
    if e.id == Plain("") then Some(EventIdRequired)
    else if e.source == "" then Some(SourceRequired)
    else if e.key == Some(Named("")) then Some(KeyInvalid)
    else if ExpectedLedger(e.kind).Some? && e.ledger != ExpectedLedger(e.kind).value then Some(LedgerMismatch)
    else if e.confidence.Some? && !(0.0 <= e.confidence.value <= 1.0) then Some(ConfidenceInvalid)
    else if e.ttl.Some? && e.ttl.value < 0.0 then Some(TtlInvalid)
    else if IsTerminalKind(e.kind) && TerminalKey(e).None? then Some(TerminalTaskInvalid)
    else ContractError(e.kind, e.content)
  }
}
