/** The agent process as a state machine over its durable writes. Every state of
    the program counter is followed by exactly one durable write or outside
    effect, so a crash may fall between any two of them. */
module AgentHost {
  import opened Events
  import opened TaskView
  import opened Admission
  import opened Board
  import opened History
  import opened Store
  import opened Loop

  // ---------------------------------------------------------------------
  // The events of an execution
  // ---------------------------------------------------------------------

  /** The context that an intent, an intercept and a receipt have in common. */
  function ExecutionContext(sub: Submission, rest: Rest): Content {
    NO_CONTENT.(schemaVersion := Some(2), taskId := Some(sub.intent.task), taskRevision := Some(sub.intent.revision),
                coordinationEpoch := Some(sub.intent.epoch), planId := Some(sub.planId),
                assignmentId := Some(sub.intent.assignment), assignmentEpoch := Some(sub.intent.assignmentEpoch),
                intentId := Some(sub.intent), rest := rest)
  }

  function IntentEvent(sub: Submission): Event {
    var rest := NO_REST.(details := NO_DETAILS.(other := sub.assignment.rest));
    MakeEvent(ActionIntent, ReceiptLedger, ExecutionContext(sub, rest), sub.assignment.deviceId, IntentKey(sub.intent))
  }

  function InterceptEvent(sub: Submission, phase: Phase, verdict: Rest): Event {
    MakeEvent(SafetyIntercept, ReceiptLedger, ExecutionContext(sub, verdict), sub.assignment.deviceId,
              InterceptKey(sub.intent, phase))
  }

  function ReceiptEvent(sub: Submission, outcome: Rest): Event {
    MakeEvent(Receipt, ReceiptLedger, ExecutionContext(sub, outcome), sub.assignment.deviceId, ReceiptKey(sub.intent))
  }

  // ---------------------------------------------------------------------
  // States
  // ---------------------------------------------------------------------

  /** The handling of one input event: its offset and task, the session the loop
      returned, and what is left to do once its effects are carried out. */
  datatype Work = Work(
    offset: nat, task: string, after: Session, hasSubmit: bool, cleanup: Option<string>, pending: seq<Place>,
    raw: Option<IntentId>)

  /** Where handling goes on after a publication. */
  datatype Next = ToFinish | ToCheck(sub: Submission) | ToReceipt(sub: Submission, outcome: Rest)

  /** Who publishes: the replay of the outbox at startup, or the handling of an input. */
  datatype Purpose = Replay(todo: seq<Place>) | Handle(work: Work, next: Next)

  datatype Pc =
    | Down
    | Replaying(todo: seq<Place>)
    | ReplayResolving(place: Place, todo: seq<Place>)
    | Polling
    | Ready
    | SavingProposed(work: Work, sub: Submission)
    | Staging(event: Event, source: Option<nat>, purpose: Purpose)
    | Appending(place: Place, event: Event, source: Option<nat>, purpose: Purpose)
    | Rejecting(place: Place)
    | Unlinking(place: Place)
    | Checking(work: Work, sub: Submission)
    | Marking(work: Work, sub: Submission)
    | Sending(work: Work, sub: Submission)
    | StoringRaw(work: Work, sub: Submission)
    | Judging(work: Work, sub: Submission)
    | Finishing(work: Work)
    | Committing(work: Work)
    | Resolving(work: Work)
    | RemovingRaw(work: Work)
    | Cleaning(work: Work)

  datatype Dispatch = Dispatch(count: nat, source: nat)

  datatype Submitted = Submitted(event: Event, source: Option<nat>)

  /** The process, its disk and the board, with a history of what it dispatched and
      of the first event it submitted under each key. The mailbox holds the offsets of
      the inputs read and not yet taken; committed events never change, so an offset
      stands for its envelope. Conflicts counts KEY_CONFLICT answers, mismatches counts
      submissions that differ from the first under their key, and faults counts writes
      the store refused and sessions found missing. */
  datatype Host = Host(
    disk: Disk, board: State, pc: Pc, mailbox: seq<nat>, maxsize: int, dispatches: map<IntentId, Dispatch>,
    submitted: map<Key, Submitted>, conflicts: nat, mismatches: nat, faults: nat)

  const START := Host(BLANK, EMPTY, Down, [], 100, map[], map[], 0, 0, 0)

  /** What a step cannot decide by itself: the limit of a poll, the server's time, the
      verdict of a safety check, and the data computed by the bid engine, the checks
      and the device. */
  datatype Choice = Choice(limit: nat, now: real, allowed: bool, data: Rest, outcome: Rest)

  datatype Move =
    | Crash
    | Restart(order: seq<Place>, maxsize: int)
    | Environment(event: Event, now: real)
    | Advance(choice: Choice)

  /** What a receipt says of a dispatch: success only where it is certain, and the verdict of
      the check after the action. */
  function Outcome(answer: Choice): Rest {
    var d := answer.outcome.details;
    answer.outcome.(details := d.(success := d.success && d.certainty == "confirmed",
                                  postCheckAllowed := answer.allowed))
  }

  const AGENT_TYPES: set<Kind> :=
    {BidRoundOpened, TaskAssigned, ActionIntent, Receipt, SafetyIntercept, AssignmentCompleted, TaskReplan, EStop,
     TaskDone, TaskFailed}

  predicate IsAgentKind(k: Kind) {
    k in AGENT_TYPES
  }

  /** The first event of interest after the committed offset. */
  predicate IsNext(log: seq<Event>, offset: int, o: nat) {
    && offset < o < |log|
    && IsAgentKind(log[o].kind)
    && forall i | 0 <= i < |log| && offset < i < o :: !IsAgentKind(log[i].kind)
  }

  /** Puts the envelopes of a page into the mailbox until it is full; a maximum size
      that is not positive means no bound. */
  function Deliver(mailbox: seq<nat>, page: seq<Stored>, maxsize: int): seq<nat>
    decreases |page|
  {
    if page == [] || (maxsize > 0 && |mailbox| >= maxsize) then mailbox
    else Deliver(mailbox + [page[0].offset], page[1..], maxsize)
  }

  // ---------------------------------------------------------------------
  // Steps
  // ---------------------------------------------------------------------

  /** An exception: the process goes down and whatever was in memory is lost. */
  function Fault(h: Host): Host {
    h.(pc := Down, faults := h.faults + 1)
  }

  function LoadSession(d: Disk, task: string, revision: int): Session {
    if task in d.sessions then d.sessions[task] else Observe(task, revision)
  }

  function InputAt(h: Host, o: nat, choice: Choice): LoopInput
    requires o < |h.board.log|
  {
    var c := h.board.log[o].content;
    var revision := RevisionOf(c);
    LoopInput(h.board.log[o], choice.now, LoadSession(h.disk, TaskOf(c), revision),
              Fold(h.board.log, TaskOf(c), revision), revision, choice.data)
  }

  /** Reads behind the committed offset, whatever the mailbox still holds. A limit that
      is not positive raises. */
  function PollBoard(h: Host, limit: nat): Host {
    if limit == 0 then h.(pc := Down)
    else
      var page := Page(h.board.log, h.disk.offset, Some(AGENT_TYPES), limit);
      h.(mailbox := Deliver(h.mailbox, page, h.maxsize), pc := Ready)
  }

  /** Takes up an input: the loop decides, nothing is written yet. An input that is not
      consumed ends the poll. */
  function BeginWork(device: string, h: Host, o: nat, choice: Choice): Host
    requires o < |h.board.log|
  {
    var task := TaskOf(h.board.log[o].content);
    if task == "" then if o < h.disk.offset then Fault(h) else h.(disk := h.disk.(offset := o))
    else
      var r := LoopStep(device, InputAt(h, o, choice));
      if r.Raised? then h.(pc := Down)
      else if !r.consumed then h.(pc := Polling)
      else
        var work := Work(o, task, r.after, false, None, [], None);
        match r.effect
        case None => h.(pc := Finishing(work))
        case Some(AppendEvent(e)) => h.(pc := Staging(e, Some(o), Handle(work, ToFinish)))
        case Some(SubmitIntent(sub)) => h.(pc := SavingProposed(work.(hasSubmit := true), sub))
        case Some(CleanupSession(t)) => h.(pc := Finishing(work.(cleanup := Some(t))))
  }

  /** Takes the oldest envelope; an empty mailbox ends the poll. */
  function TakeInput(device: string, h: Host, choice: Choice): Host {
    if h.mailbox == [] || h.mailbox[0] >= |h.board.log| then h.(mailbox := [], pc := Polling)
    else BeginWork(device, h.(mailbox := h.mailbox[1..]), h.mailbox[0], choice)
  }

  function SaveProposed(h: Host, work: Work, sub: Submission): Host {
    if MaySave(h.disk.sessions, work.after) then
      h.(disk := Saved(h.disk, work.after),
         pc := Staging(IntentEvent(sub), Some(work.offset), Handle(work, ToCheck(sub))))
    else Fault(h)
  }

  /** Persists the event in the outbox, or finds the one persisted before. */
  function Stage(h: Host, e: Event, source: Option<nat>, purpose: Purpose): Host {
    if e.key.None? || TaskOf(e.content) == "" then h.(pc := Down)
    else
      var place := (TaskOf(e.content), e.key.value);
      var staged := StagedEvent(h.disk, place, e);
      if staged.None? then h.(pc := Down)
      else h.(disk := Staged(h.disk, place, e, source), pc := Appending(place, staged.value, source, purpose))
  }

  function Remember(h: Host, key: Key, e: Event, source: Option<nat>): Host {
    if key !in h.submitted then h.(submitted := h.submitted[key := Submitted(Canonical(e), source)])
    else if h.submitted[key].event == Canonical(e) then h
    else h.(mismatches := h.mismatches + 1)
  }

  /** Where the handling of an input goes on after a publication. */
  function Onward(w: Work, next: Next): Pc {
    match next
    case ToFinish => Finishing(w)
    case ToCheck(sub) => Checking(w, sub)
    case ToReceipt(sub, outcome) =>
      Staging(ReceiptEvent(sub, outcome), Some(w.offset), Handle(w.(raw := Some(sub.intent)), ToFinish))
  }

  function AfterPublishing(purpose: Purpose, place: Place, accepted: bool): Pc {
    match purpose
    case Replay(todo) => if accepted then ReplayResolving(place, todo) else Replaying(todo)
    case Handle(work, next) =>
      Onward(if accepted then work.(pending := work.pending + [place]) else work, next)
  }

  /** Submits the staged event to the board. */
  function Submit(h: Host, place: Place, e: Event, source: Option<nat>, purpose: Purpose, now: real): Host {
    var (board, result) := AppendTo(h.board, e, now);
    var tried := Remember(h, place.1, e, source).(board := board);
    match result.status
    case Rejected => tried.(pc := Rejecting(place))
    case KeyConflict => tried.(pc := Down, conflicts := h.conflicts + 1)
    case TerminalConflict => tried.(pc := AfterPublishing(purpose, place, false))
    case _ => tried.(pc := AfterPublishing(purpose, place, true))
  }

  function MarkDispatching(h: Host, work: Work, sub: Submission): Host {
    if sub.intent.task !in h.disk.sessions then Fault(h)
    else
      var s := h.disk.sessions[sub.intent.task];
      if s.intent.None? || s.intent.value.id != sub.intent then Fault(h)
      else
        var marked := s.(intent := Some(s.intent.value.(state := Dispatching)), version := s.version + 1);
        if MaySave(h.disk.sessions, marked) then h.(disk := Saved(h.disk, marked), pc := Sending(work, sub))
        else Fault(h)
  }

  function CountDispatch(h: Host, work: Work, sub: Submission): Host {
    var before := if sub.intent in h.dispatches then h.dispatches[sub.intent] else Dispatch(0, work.offset);
    h.(dispatches := h.dispatches[sub.intent := before.(count := before.count + 1)], pc := StoringRaw(work, sub))
  }

  function Check(h: Host, work: Work, sub: Submission, choice: Choice): Host {
    if choice.allowed then h.(pc := Marking(work, sub))
    else h.(pc := Staging(InterceptEvent(sub, Pre, choice.data), Some(work.offset), Handle(work, ToFinish)))
  }

  function Judge(h: Host, work: Work, sub: Submission, choice: Choice): Host {
    if choice.allowed then
      h.(pc := Staging(ReceiptEvent(sub, Outcome(choice)), Some(work.offset),
                       Handle(work.(raw := Some(sub.intent)), ToFinish)))
    else
      h.(pc := Staging(InterceptEvent(sub, Post, choice.data), Some(work.offset),
                       Handle(work, ToReceipt(sub, Outcome(choice)))))
  }

  function SaveAfter(h: Host, work: Work): Host {
    var s := if work.hasSubmit && work.task in h.disk.sessions then h.disk.sessions[work.task] else work.after;
    if MaySave(h.disk.sessions, s) then h.(disk := Saved(h.disk, s), pc := Committing(work)) else Fault(h)
  }

  function CommitOffset(h: Host, work: Work): Host {
    if work.offset < h.disk.offset then Fault(h)
    else h.(disk := h.disk.(offset := work.offset), pc := Resolving(work))
  }

  function AfterRaw(work: Work): Pc {
    if work.cleanup.Some? then Cleaning(work) else Ready
  }

  function Resolve(h: Host, work: Work): Host {
    if work.pending != [] then
      h.(disk := Resolved(h.disk, work.pending[0]), pc := Resolving(work.(pending := work.pending[1..])))
    else h.(pc := if work.raw.Some? then RemovingRaw(work) else AfterRaw(work))
  }

  function ReplayNext(h: Host, todo: seq<Place>): Host {
    if todo == [] then h.(pc := Polling)
    else if todo[0] !in h.disk.outbox then h.(pc := Replaying(todo[1..]))
    else
      var record := h.disk.outbox[todo[0]];
      if record.source.Some? && record.source.value > h.disk.offset then h.(pc := Replaying(todo[1..]))
      else if TaskOf(record.event.content) == "" || record.event.key.None? then h.(pc := Replaying(todo[1..]))
      else h.(pc := Staging(record.event, record.source, Replay(todo[1..])))
  }

  /** One step of a running process. */
  function AdvanceTo(device: string, h: Host, choice: Choice): Host
  {
    match h.pc
    case Down => h
    case Replaying(todo) => ReplayNext(h, todo)
    case ReplayResolving(place, todo) => h.(disk := Resolved(h.disk, place), pc := Replaying(todo))
    case Polling => PollBoard(h, choice.limit)
    case Ready => TakeInput(device, h, choice)
    case SavingProposed(work, sub) => SaveProposed(h, work, sub)
    case Staging(e, source, purpose) => Stage(h, e, source, purpose)
    case Appending(place, e, source, purpose) => Submit(h, place, e, source, purpose, choice.now)
    case Rejecting(place) =>
      if place in h.disk.outbox then h.(disk := Quarantined(h.disk, place), pc := Unlinking(place)) else h.(pc := Down)
    case Unlinking(place) => h.(disk := Resolved(h.disk, place), pc := Down)
    case Checking(work, sub) => Check(h, work, sub, choice)
    case Marking(work, sub) => MarkDispatching(h, work, sub)
    case Sending(work, sub) => CountDispatch(h, work, sub)
    case StoringRaw(work, sub) =>
      h.(disk := h.disk.(rawReceipts := h.disk.rawReceipts + {(sub.intent.task, sub.intent)}), pc := Judging(work, sub))
    case Judging(work, sub) => Judge(h, work, sub, choice)
    case Finishing(work) => SaveAfter(h, work)
    case Committing(work) => CommitOffset(h, work)
    case Resolving(work) => Resolve(h, work)
    case RemovingRaw(work) =>
      if work.raw.None? then h.(pc := AfterRaw(work))
      else
        h.(disk := h.disk.(rawReceipts := h.disk.rawReceipts - {(work.task, work.raw.value)}), pc := AfterRaw(work))
    case Cleaning(work) =>
      h.(disk := if work.cleanup.Some? then Cleaned(h.disk, work.cleanup.value) else h.disk, pc := Ready)
  }

  /** What a start replays: the staged records, in whatever order the directory yields
      them, or nothing, when the process is polled without a replay. */
  predicate Lists(order: seq<Place>, d: Disk) {
    order == [] || (SetOf(order) == d.outbox.Keys && |order| == |d.outbox|)
  }

  function Step(device: string, h: Host, move: Move): Host
  {
    match move
    case Crash => h.(pc := Down, mailbox := [])
    case Restart(order, maxsize) =>
      if h.pc.Down? && Lists(order, h.disk) then h.(pc := Replaying(order), mailbox := [], maxsize := maxsize) else h
    case Environment(e, now) => h.(board := AppendTo(h.board, e, now).0)
    case Advance(choice) => AdvanceTo(device, h, choice)
  }

  /** The process after any schedule of its own steps, crashes, restarts and
      appends by others. */
  function RunHost(device: string, moves: seq<Move>): Host {
    if moves == [] then START
    else Step(device, RunHost(device, moves[..|moves| - 1]), moves[|moves| - 1])
  }

  /** The process after further moves. */
  function Steps(device: string, h: Host, moves: seq<Move>): Host {
    if moves == [] then h else Step(device, Steps(device, h, moves[..|moves| - 1]), moves[|moves| - 1])
  }

  lemma NoSteps(device: string, h: Host)
    ensures Steps(device, h, []) == h
  {
  }

  lemma StepsExtend(device: string, h: Host, moves: seq<Move>, move: Move)
    ensures Steps(device, h, moves + [move]) == Step(device, Steps(device, h, moves), move)
  {
    hide Step;
    assert (moves + [move])[..|moves|] == moves;
  }

  lemma HostRunExtends(device: string, moves: seq<Move>, move: Move)
    ensures RunHost(device, moves + [move]) == Step(device, RunHost(device, moves), move)
  {
    hide Step;
    assert (moves + [move])[..|moves|] == moves;
  }

  /** The process after n uninterrupted steps. */
  function Uninterrupted(device: string, h: Host, answer: Choice, n: nat): Host {
    if n == 0 then h else AdvanceTo(device, Uninterrupted(device, h, answer, n - 1), answer)
  }

  /** A run may be continued by uninterrupted steps. */
  lemma {:induction false} RunOn(device: string, moves: seq<Move>, answer: Choice, n: nat) returns (longer: seq<Move>)
    ensures RunHost(device, longer) == Uninterrupted(device, RunHost(device, moves), answer, n)
    ensures longer == moves + seq(n, _ => Advance(answer))
  {
    hide AdvanceTo, RunHost;
    longer := moves;
    for k := 0 to n
      invariant RunHost(device, longer) == Uninterrupted(device, RunHost(device, moves), answer, k)
      invariant longer == moves + seq(k, _ => Advance(answer))
    {
      HostRunExtends(device, longer, Advance(answer));
      assert seq(k + 1, _ => Advance(answer)) == seq(k, _ => Advance(answer)) + [Advance(answer)];
      longer := longer + [Advance(answer)];
    }
  }

  // ---------------------------------------------------------------------
  // The step at each point of the program
  // ---------------------------------------------------------------------

  lemma StageStep(device: string, h: Host, answer: Choice)
    requires h.pc.Staging?
    ensures var e := h.pc.event;
            var place := (TaskOf(e.content), if e.key.Some? then e.key.value else Named(""));
            var staged := StagedEvent(h.disk, place, e);
            AdvanceTo(device, h, answer) ==
            if e.key.None? || TaskOf(e.content) == "" || staged.None? then h.(pc := Down)
            else
              h.(disk := Staged(h.disk, place, e, h.pc.source),
                 pc := Appending(place, staged.value, h.pc.source, h.pc.purpose))
  {
    hide StagedEvent, Staged;
  }

  lemma SubmitStep(device: string, h: Host, answer: Choice)
    requires h.pc.Appending?
    ensures var (board, result) := AppendTo(h.board, h.pc.event, answer.now);
            var after := AdvanceTo(device, h, answer);
            && after == h.(board := board, pc := after.pc, submitted := after.submitted, mismatches := after.mismatches,
                           conflicts := if result.status.KeyConflict? then h.conflicts + 1 else h.conflicts)
            && after.pc == match result.status
                           case Rejected => Rejecting(h.pc.place)
                           case KeyConflict => Down
                           case TerminalConflict => AfterPublishing(h.pc.purpose, h.pc.place, false)
                           case _ => AfterPublishing(h.pc.purpose, h.pc.place, true)
  {
    hide AppendTo, AfterPublishing;
  }

  lemma RejectSteps(device: string, h: Host, answer: Choice)
    requires h.pc.Rejecting? && h.pc.place in h.disk.outbox
    ensures var after := AdvanceTo(device, AdvanceTo(device, h, answer), answer);
            && after.disk == Resolved(Quarantined(h.disk, h.pc.place), h.pc.place)
            && after == h.(disk := after.disk, pc := Down)
    ensures AdvanceTo(device, h, answer).pc.Unlinking?
  {
    hide Quarantined, Resolved;
  }

  lemma RejectNothing(device: string, h: Host, answer: Choice)
    requires h.pc.Rejecting? && h.pc.place !in h.disk.outbox
    ensures AdvanceTo(device, h, answer) == h.(pc := Down)
  {
    hide AppendTo;
  }

  /** The step at each point of an execution. */
  lemma ExecutionStep(device: string, h: Host, answer: Choice)
    ensures var after := AdvanceTo(device, h, answer);
            match h.pc
            case SavingProposed(w, sub) => after == SaveProposed(h, w, sub)
            case Checking(w, sub) => after == Check(h, w, sub, answer)
            case Marking(w, sub) => after == MarkDispatching(h, w, sub)
            case Sending(w, sub) => after == CountDispatch(h, w, sub)
            case StoringRaw(w, sub) =>
              after == h.(disk := h.disk.(rawReceipts := h.disk.rawReceipts + {(sub.intent.task, sub.intent)}),
                          pc := Judging(w, sub))
            case Judging(w, sub) => after == Judge(h, w, sub, answer)
            case _ => true
  {
    hide SaveProposed, Check, MarkDispatching, CountDispatch, Judge;
  }

  /** The step at each point of a conclusion. */
  lemma ConclusionStep(device: string, h: Host, answer: Choice)
    ensures var after := AdvanceTo(device, h, answer);
            match h.pc
            case Finishing(w) => after == SaveAfter(h, w)
            case Committing(w) => after == CommitOffset(h, w)
            case Resolving(w) => after == Resolve(h, w)
            case RemovingRaw(w) =>
              w.raw.Some? ==>
                after == h.(disk := h.disk.(rawReceipts := h.disk.rawReceipts - {(w.task, w.raw.value)}),
                            pc := AfterRaw(w))
            case Cleaning(w) =>
              w.cleanup.Some? ==> after == h.(disk := Cleaned(h.disk, w.cleanup.value), pc := Ready)
            case _ => true
  {
    hide SaveAfter, CommitOffset, Resolve, Cleaned;
  }

  /** The step that takes up an input, or the next record to replay. */
  lemma OpeningStep(device: string, h: Host, answer: Choice)
    ensures var after := AdvanceTo(device, h, answer);
            match h.pc
            case Polling => after == PollBoard(h, answer.limit)
            case Ready => after == TakeInput(device, h, answer)
            case Replaying(todo) => after == ReplayNext(h, todo)
            case ReplayResolving(place, todo) => after == h.(disk := Resolved(h.disk, place), pc := Replaying(todo))
            case _ => true
  {
    hide TakeInput, PollBoard, ReplayNext, Resolved;
  }

  // ---------------------------------------------------------------------
  // What the loop submits, the gate admits
  // ---------------------------------------------------------------------

  /** Every assignment of a committed plan carries the epoch of the plan. */
  lemma PlanEpochsAgree(log: seq<Event>, task: string, revision: int, a: Assignment)
    requires AdmittedLog(log)
    requires Fold(log, task, revision).plan.Some? && IsV2(Fold(log, task, revision).plan.value)
    requires a in AssignmentsOf(Fold(log, task, revision).plan)
    ensures a.assignmentEpoch == Fold(log, task, revision).epoch
  {
    hide Fold;
    var k := PlanOrigin(log, task, revision);
    AdmittedAt(log, k);
    FoldIsConsistent(log, task, revision);
  }

  lemma PlannedTaskIsPosted(log: seq<Event>, task: string, revision: int)
    requires AdmittedLog(log)
    requires Fold(log, task, revision).plan.Some? && IsV2(Fold(log, task, revision).plan.value)
    ensures Fold(log, task, revision).task.Some?
  {
    hide Fold;
    var k := PlanOrigin(log, task, revision);
    AdmissionRefinesProjection(log, k, task, revision);
    TaskIsKept(log, k, |log|, task, revision);
    assert log[..|log|] == log;
  }

  lemma AssignmentContract(e: Event, a: Assignment)
    requires EventError(e).None? && e.kind.TaskAssigned? && IsV2(e.content) && a in GetOr(e.content.assignments, [])
    ensures AssignmentOk(a) && e.content.coordinationEpoch == Some(a.assignmentEpoch) && a.assignmentEpoch >= 1
    ensures PresentText(e.content.planId) && PresentText(e.content.taskId) && Requires(e.content.taskRevision, 1)
  {
  }

  lemma IntentIsWellFormed(sub: Submission)
    requires !IsBlank(sub.intent.task) && sub.intent.revision >= 1 && sub.intent.epoch >= 1
    requires sub.intent.epoch == sub.intent.assignmentEpoch
    requires !IsBlank(sub.planId) && !IsBlank(sub.intent.assignment) && !IsBlank(sub.assignment.deviceId)
    ensures EventError(IntentEvent(sub)).None?
  {
    assert sub.assignment.deviceId != "";
  }

  /** What a dispatch leads to is never refused: intercept and receipt meet the event contract
      and pass the gate, whatever has happened to the task meanwhile. */
  lemma ReportsAreAdmissible(log: seq<Event>, sub: Submission, phase: Phase, verdict: Rest)
    requires !IsBlank(sub.intent.task) && sub.intent.revision >= 1 && sub.intent.epoch >= 1
    requires sub.intent.epoch == sub.intent.assignmentEpoch && verdict.wellFormed
    requires !IsBlank(sub.planId) && !IsBlank(sub.intent.assignment) && !IsBlank(sub.assignment.deviceId)
    ensures EventError(InterceptEvent(sub, phase, verdict)).None?
    ensures EventError(ReceiptEvent(sub, verdict)).None?
    ensures GateError(log, InterceptEvent(sub, phase, verdict)).None?
    ensures GateError(log, ReceiptEvent(sub, verdict)).None?
  {
    assert sub.assignment.deviceId != "";
  }

  /** The plan context of a submission: the view the loop decided on still plans it. */
  lemma SubmissionIsPlanned(device: string, i: LoopInput)
    requires EventError(i.event).None? && i.event.kind.TaskAssigned?
    requires LoopStep(device, i).Stepped? && LoopStep(device, i).effect.Some?
    ensures LoopStep(device, i).effect.value.SubmitIntent?
    ensures var sub := LoopStep(device, i).effect.value.submission;
            && IsV2(i.event.content) && i.view.terminal.None? && i.view.plan.Some?
            && sub.assignment in GetOr(i.event.content.assignments, [])
            && sub.intent == IntentOf(i.event.content, sub.assignment)
            && sub.intent.epoch == i.view.epoch
            && i.event.content.planId == Some(sub.planId)
            && GetOr(i.view.plan.value.planId, "") == sub.planId
            && LastById(AssignmentsOf(i.view.plan), sub.intent.assignment).Some?
  {
    hide EventError;
    if i.event.content.taskRevision.Some? {
      RevisionMeansV2(i.event);
    }
    var mine := FirstFor(GetOr(i.event.content.assignments, []), device);
    if !IsStale(i) && mine.Some? {
      assert StillPlanned(mine.value, AssignmentsOf(i.view.plan));
    }
  }

  /** An intent that the loop submits for an input, judged on the board it was
      decided on, meets the event contract and passes the gate. */
  lemma SubmissionIsAdmissible(device: string, h: Host, o: nat, choice: Choice)
    requires AdmittedLog(h.board.log) && o < |h.board.log| && h.board.log[o].kind.TaskAssigned?
    requires LoopStep(device, InputAt(h, o, choice)).Stepped?
    requires LoopStep(device, InputAt(h, o, choice)).effect.Some?
    requires LoopStep(device, InputAt(h, o, choice)).effect.value.SubmitIntent?
    ensures var e := IntentEvent(LoopStep(device, InputAt(h, o, choice)).effect.value.submission);
            EventError(e).None? && GateError(h.board.log, e).None?
  {
    hide LoopStep, Fold, AdmittedLog, EventError, LoadSession, IsBlank;
    var log := h.board.log;
    var c := log[o].content;
    var input := InputAt(h, o, choice);
    var sub := LoopStep(device, input).effect.value.submission;
    AdmittedAt(log, o);
    SubmissionIsPlanned(device, input);
    AssignmentContract(log[o], sub.assignment);
    IntentIsWellFormed(sub);
    FoldIsConsistent(log, TaskOf(c), RevisionOf(c));
    PlannedTaskIsPosted(log, TaskOf(c), RevisionOf(c));
    var plan := AssignmentsOf(input.view.plan);
    var found := FindAssignment(plan, sub.intent.assignment);
    PlanEpochsAgree(log, TaskOf(c), RevisionOf(c), found.value);
  }
}
