/** What board events do to the session of a task: which event moves it and to where, and,
    over whole runs, that a stored outcome was reported on the board. */
module Sessions {
  import opened Events
  import opened TaskView
  import opened Board
  import opened Store
  import opened Loop
  import opened AgentHost
  import opened Handling

  // ---------------------------------------------------------------------
  // One step
  // ---------------------------------------------------------------------

  /** A receipt that confirms success, with the check after the action passed. */
  predicate ReportsSuccess(e: Event) {
    var d := e.content.rest.details;
    e.kind.Receipt? && d.success && d.certainty == "confirmed" && d.postCheckAllowed
  }

  predicate ReportsUnknown(e: Event) {
    e.kind.Receipt? && !ReportsSuccess(e) && e.content.rest.details.certainty == "unknown"
  }

  predicate ReportsFailure(e: Event) {
    e.kind.Receipt? && !ReportsSuccess(e) && e.content.rest.details.certainty != "unknown"
  }

  /** The event is about the intent that the session works on. */
  predicate IsAbout(e: Event, s: Session) {
    s.intent.Some? && e.content.intentId == Some(s.intent.value.id)
  }

  /** An emergency stop that reaches the device. */
  predicate Stops(device: string, e: Event) {
    var d := e.content.rest.details;
    e.kind.EStop? && d.operation == "stop" && (d.scopeType == "all" || (d.scopeType == "device" && d.scopeId == device))
  }

  /** What makes a session fail. */
  predicate Fails(device: string, e: Event, s: Session) {
    || (e.kind.Receipt? && IsAbout(e, s) && !ReportsSuccess(e))
    || (e.kind.SafetyIntercept? && IsAbout(e, s))
    || e.kind.TaskFailed?
    || Stops(device, e)
  }

  /** What completes it. */
  predicate Completes(e: Event, s: Session) {
    || e.kind.TaskDone?
    || (e.kind.AssignmentCompleted? && s.assignment.Some?
        && e.content.assignmentId == Some(s.assignment.value.assignmentId))
  }

  /** A session becomes failed, and done, exactly so; otherwise its state is left alone, or
      it starts over with a round, an assignment or a replan. */
  lemma SessionEndsExactly(device: string, i: LoopInput)
    requires LoopStep(device, i).Stepped?
    ensures var after := LoopStep(device, i).after;
            && (Fails(device, i.event, i.session) ==> after.state == SessionFailed)
            && (Completes(i.event, i.session) ==> after.state == SessionDone)
            && (!Fails(device, i.event, i.session) && !Completes(i.event, i.session)
                && after.state != i.session.state ==>
                  || (i.event.kind.BidRoundOpened? && after.state == Standby)
                  || (i.event.kind.TaskAssigned? && after.state in {Standby, Active})
                  || (i.event.kind.TaskReplan? && after.state == Observed))
  {
    hide IsStale;
  }

  /** A receipt of the intent at hand settles it: succeeded exactly when it reports
      success, unknown exactly when it reports neither, and nothing else moves. */
  lemma ReceiptSettles(device: string, i: LoopInput)
    requires i.event.kind.Receipt? && IsAbout(i.event, i.session)
    ensures var r := LoopStep(device, i);
            var receipt := i.event.content.rest.details.receiptId;
            && r.Stepped? && r.effect.None? && r.consumed && r.after.intent.Some?
            && var settled := r.after.intent.value;
               && settled.id == i.session.intent.value.id
               && (settled.state.Succeeded? <==> ReportsSuccess(i.event))
               && (settled.state.DispatchUnknown? <==> ReportsUnknown(i.event))
               && (settled.state.IntentFailed? <==> ReportsFailure(i.event))
               && settled.receipt == r.after.lastReceipt
               && (if receipt == "" then r.after.lastReceipt.None? else r.after.lastReceipt == Some(receipt))
               && r.after == i.session.(intent := r.after.intent, lastReceipt := r.after.lastReceipt,
                                        state := r.after.state, version := i.session.version + 1)
  {
  }

  /** A replan from the session's epoch moves it to the new one and takes back whatever it
      was assigned. */
  lemma ReplanResets(device: string, i: LoopInput)
    requires i.event.kind.TaskReplan? && EventError(i.event).None?
    requires i.event.content.fromEpoch == Some(i.session.epoch)
    ensures var r := LoopStep(device, i);
            && r.Stepped? && r.consumed && r.effect.None?
            && r.after.epoch == i.session.epoch + 1 && r.after.state == Observed
            && r.after.assignment.None? && r.after.intent.None? && r.after.lastReceipt.None?
            && r.after.revision == i.session.revision && r.after.version == i.session.version + 1
  {
    hide CommonFieldsOk;
  }

  /** The event settles what the session is assigned to do. */
  predicate Assigns(i: LoopInput) {
    i.event.kind.TaskAssigned? && i.view.terminal.None? && !ReplanPending(i.view) && !IsStale(i)
  }

  /** An assignment that stands moves the session to its revision and epoch: to work on the
      device's own part, or to stand by without one. */
  lemma AssignmentIsTakenUp(device: string, i: LoopInput)
    requires Assigns(i) && LoopStep(device, i).Stepped?
    ensures var r := LoopStep(device, i);
            var own := FirstFor(GetOr(i.event.content.assignments, []), device);
            && r.consumed && r.after.assignment == own
            && r.after.revision == i.revision && r.after.epoch == i.view.epoch
            && r.after.state == (if own.Some? then Active else Standby)
            && (own.None? ==> r.after.intent.None?)
            && (own.Some? ==> IsLegal(own.value) && r.after.intent.Some?
                              && r.after.intent.value.id == IntentOf(i.event.content, own.value))
            && r.after.version == i.session.version + 1 && r.after.lastReceipt == i.session.lastReceipt
  {
  }

  /** The round asks the device for a bid that it can still make. */
  predicate IsAsked(i: LoopInput) {
    var c := i.event.content;
    && i.event.kind.BidRoundOpened? && i.view.terminal.None? && i.view.task.Some?
    && c.taskRevision == Some(i.revision) && c.deadline.Some? && i.now <= c.deadline.value
    && c.rest.details.slots != []
    && forall slot | slot in c.rest.details.slots :: slot in i.view.task.value.rest.details.slots
  }

  /** A bid is made exactly when it is asked for; it answers the round, in the round's
      epoch, with what the bid engine offered, and the session stands by. */
  lemma BidIsExact(device: string, i: LoopInput)
    requires EventError(i.event).None?
    ensures var r := LoopStep(device, i);
            r.Stepped? && r.effect.Some? && r.effect.value.AppendEvent? <==> IsAsked(i)
    ensures IsAsked(i) ==>
              var r := LoopStep(device, i);
              var bid, round := r.effect.value.event, i.event.content;
              && bid.kind.Bid? && bid.source == device && TaskOf(bid.content) == TaskOf(i.view.task.value)
              && bid.content.taskRevision == round.taskRevision
              && bid.content.coordinationEpoch == round.coordinationEpoch
              && bid.content.bidRound == round.bidRound && bid.content.rest == i.offer
              && r.consumed && r.after.state == Standby && Some(r.after.revision) == round.taskRevision
              && Some(r.after.epoch) == round.coordinationEpoch
              && r.after == i.session.(revision := r.after.revision, epoch := r.after.epoch, state := Standby,
                                       version := i.session.version + 1)
  {
    hide IsStale, CommonFieldsOk;
    var slots := i.event.content.rest.details.slots;
    if slots != [] {
      assert slots[0] in slots;
    }
  }

  /** An input is left unconsumed exactly when it is an assignment while a replan is
      pending; a session is cleaned up exactly when its task ends. */
  lemma ConsumptionIsExact(device: string, i: LoopInput)
    requires LoopStep(device, i).Stepped?
    ensures var r := LoopStep(device, i);
            && (!r.consumed <==> i.event.kind.TaskAssigned? && ReplanPending(i.view))
            && (r.effect.Some? && r.effect.value.CleanupSession? <==> IsTerminalKind(i.event.kind))
            && (IsTerminalKind(i.event.kind) ==> r.effect == Some(CleanupSession(i.session.task)))
  {
    hide IsStale;
  }

  /** What moves a session at all. */
  predicate Moves(device: string, i: LoopInput) {
    var e, s := i.event, i.session;
    || Fails(device, e, s) || Completes(e, s) || Assigns(i) || IsAsked(i)
    || (e.kind.Receipt? && IsAbout(e, s))
    || (e.kind.ActionIntent? && IsAbout(e, s) && s.intent.value.state.Proposed?)
    || (e.kind.TaskReplan? && e.content.fromEpoch == Some(s.epoch))
  }

  /** A session moves exactly then, and with it its version. */
  lemma SessionMovesExactly(device: string, i: LoopInput)
    requires EventError(i.event).None? && LoopStep(device, i).Stepped?
    ensures LoopStep(device, i).after != i.session <==> Moves(device, i)
    ensures Moves(device, i) ==> LoopStep(device, i).after.version == i.session.version + 1
  {
    hide Moves, LoopStep;
    if Moves(device, i) {
      MovedIsNewer(device, i);
    } else {
      UnmovedIsSame(device, i);
    }
  }

  lemma MovedIsNewer(device: string, i: LoopInput)
    requires EventError(i.event).None? && LoopStep(device, i).Stepped? && Moves(device, i)
    ensures LoopStep(device, i).after.version == i.session.version + 1
  {
    hide IsStale, CommonFieldsOk;
  }

  lemma UnmovedIsSame(device: string, i: LoopInput)
    requires EventError(i.event).None? && LoopStep(device, i).Stepped? && !Moves(device, i)
    ensures LoopStep(device, i).after == i.session
  {
    hide IsStale, CommonFieldsOk;
    var slots := i.event.content.rest.details.slots;
    if slots != [] {
      assert slots[0] in slots;
    }
  }

  // ---------------------------------------------------------------------
  // Whole runs
  // ---------------------------------------------------------------------

  /** The event reports that the intent has come to the state. */
  predicate Reports(e: Event, intent: IntentId, state: IntentState) {
    && e.content.intentId == Some(intent)
    && match state
       case Dispatched => e.kind.ActionIntent?
       case Succeeded => ReportsSuccess(e)
       case DispatchUnknown => ReportsUnknown(e)
       case IntentFailed => ReportsFailure(e)
       case SafetyBlocked => e.kind.SafetyIntercept?
       case _ => false
  }

  predicate IsReported(log: seq<Event>, intent: IntentId, state: IntentState) {
    exists i | 0 <= i < |log| :: Reports(log[i], intent, state)
  }

  /** The event brings a task to an epoch. */
  predicate BringsTo(e: Event, task: string, epoch: int) {
    && TaskOf(e.content) == task
    && (|| ((e.kind.BidRoundOpened? || e.kind.TaskAssigned?) && e.content.coordinationEpoch == Some(epoch))
        || (e.kind.TaskReplan? && e.content.toEpoch == Some(epoch)))
  }

  predicate EpochIsKnown(log: seq<Event>, s: Session) {
    s.epoch == 0 || exists i | 0 <= i < |log| :: BringsTo(log[i], s.task, s.epoch)
  }

  predicate IntentIsKnown(log: seq<Event>, s: Session) {
    s.intent.Some? ==>
      var current := s.intent.value;
      if current.state.Proposed? then true
      else if current.state.Dispatching? then HasIntent(log, current.id)
      else IsReported(log, current.id, current.state)
  }

  /** What the session says is on the board: the event that brought its task to its epoch;
      that its intent is being dispatched, the intent itself; an outcome, the event that
      reports it. */
  predicate IsGrounded(log: seq<Event>, s: Session) {
    EpochIsKnown(log, s) && IntentIsKnown(log, s)
  }

  predicate AllGrounded(log: seq<Event>, sessions: map<string, Session>) {
    forall t | t in sessions :: IsGrounded(log, sessions[t])
  }

  /** The work in hand, from the decision of the loop to the commit. */
  function WorkInHand(pc: Pc): Option<Work> {
    match pc
    case SavingProposed(w, _) => Some(w)
    case Staging(_, _, purpose) => if purpose.Handle? then Some(purpose.work) else None
    case Appending(_, _, _, purpose) => if purpose.Handle? then Some(purpose.work) else None
    case Checking(w, _) => Some(w)
    case Marking(w, _) => Some(w)
    case Sending(w, _) => Some(w)
    case StoringRaw(w, _) => Some(w)
    case Judging(w, _) => Some(w)
    case Finishing(w) => Some(w)
    case Committing(w) => Some(w)
    case _ => None
  }

  predicate RunGrounded(h: Host) {
    && AllGrounded(h.board.log, h.disk.sessions)
    && (WorkInHand(h.pc).Some? ==> IsGrounded(h.board.log, WorkInHand(h.pc).value.after))
  }

  lemma GroundStays(log: seq<Event>, longer: seq<Event>, s: Session)
    requires log <= longer && IsGrounded(log, s)
    ensures IsGrounded(longer, s)
  {
    hide Reports, IsIntentRecord, BringsTo;
    if s.epoch != 0 {
      var i :| 0 <= i < |log| && BringsTo(log[i], s.task, s.epoch);
      assert longer[i] == log[i];
    }
    if s.intent.Some? {
      var x := s.intent.value;
      if x.state.Dispatching? {
        var i :| 0 <= i < |log| && IsIntentRecord(log[i], x.id);
        assert longer[i] == log[i];
      } else if !x.state.Proposed? {
        var i :| 0 <= i < |log| && Reports(log[i], x.id, x.state);
        assert longer[i] == log[i];
      }
    }
  }

  /** The loop invents no outcome. */
  lemma StepIsGrounded(device: string, log: seq<Event>, o: nat, i: LoopInput)
    requires o < |log| && i.event == log[o] && i.session.task == TaskOf(i.event.content)
    requires IsGrounded(log, i.session) && LoopStep(device, i).Stepped?
    ensures IsGrounded(log, LoopStep(device, i).after)
  {
    hide IsStale, HasIntent;
    var after := LoopStep(device, i).after;
    if after.epoch != i.session.epoch && after.epoch != 0 {
      assert BringsTo(log[o], after.task, after.epoch);
    }
    if after.intent != i.session.intent && after.intent.Some? && !after.intent.value.state.Proposed? {
      assert Reports(log[o], after.intent.value.id, after.intent.value.state);
    }
  }

  lemma BeginIsGrounded(device: string, h: Host, o: nat, choice: Choice)
    requires RunGrounded(h) && SessionsNamed(h.disk.sessions) && h.pc.Ready? && o < |h.board.log|
    ensures RunGrounded(BeginWork(device, h, o, choice))
  {
    hide LoopStep, IsGrounded, Fold;
    if LoopStep(device, InputAt(h, o, choice)).Stepped? {
      assert IsGrounded(h.board.log, InputAt(h, o, choice).session) by {
        LoadedIsGrounded(h, TaskOf(h.board.log[o].content), RevisionOf(h.board.log[o].content));
      }
      StepIsGrounded(device, h.board.log, o, InputAt(h, o, choice));
    }
  }

  lemma LoadedIsGrounded(h: Host, task: string, revision: int)
    requires RunGrounded(h)
    ensures IsGrounded(h.board.log, LoadSession(h.disk, task, revision))
  {
  }

  /** Where the sessions of the next state and its work come from. */
  ghost predicate KeepsGround(h: Host, after: Host) {
    && h.board.log <= after.board.log
    && (WorkInHand(after.pc).Some? ==>
          WorkInHand(h.pc).Some? && WorkInHand(after.pc).value.after == WorkInHand(h.pc).value.after)
    && forall t | t in after.disk.sessions ::
         || (t in h.disk.sessions && after.disk.sessions[t] == h.disk.sessions[t])
         || (WorkInHand(h.pc).Some? && after.disk.sessions[t] == WorkInHand(h.pc).value.after)
  }

  lemma GroundIsKept(h: Host, after: Host)
    requires RunGrounded(h) && KeepsGround(h, after)
    ensures RunGrounded(after)
  {
    hide IsGrounded;
    forall t | t in after.disk.sessions
      ensures IsGrounded(after.board.log, after.disk.sessions[t])
    {
      GroundStays(h.board.log, after.board.log, after.disk.sessions[t]);
    }
    if WorkInHand(after.pc).Some? {
      GroundStays(h.board.log, after.board.log, WorkInHand(after.pc).value.after);
    }
  }

  lemma PublishingKeepsGround(device: string, h: Host, choice: Choice)
    ensures h.pc.Staging? ==> KeepsGround(h, Stage(h, h.pc.event, h.pc.source, h.pc.purpose))
    ensures h.pc.Appending? ==> KeepsGround(h, AdvanceTo(device, h, choice))
    ensures h.pc.Replaying? ==> KeepsGround(h, ReplayNext(h, h.pc.todo))
  {
    hide AppendTo, AdvanceTo, StagedEvent;
    if h.pc.Appending? {
      AppendGrows(h.board, h.pc.event, choice.now);
      SubmitStep(device, h, choice);
    }
  }

  lemma HandlingKeepsGround(h: Host, choice: Choice)
    ensures h.pc.SavingProposed? ==> KeepsGround(h, SaveProposed(h, h.pc.work, h.pc.sub))
    ensures h.pc.Checking? ==> KeepsGround(h, Check(h, h.pc.work, h.pc.sub, choice))
    ensures h.pc.Sending? ==> KeepsGround(h, CountDispatch(h, h.pc.work, h.pc.sub))
    ensures h.pc.Judging? ==> KeepsGround(h, Judge(h, h.pc.work, h.pc.sub, choice))
    ensures h.pc.Committing? ==> KeepsGround(h, CommitOffset(h, h.pc.work))
    ensures h.pc.Resolving? ==> KeepsGround(h, Resolve(h, h.pc.work))
    ensures h.pc.Polling? ==> KeepsGround(h, PollBoard(h, choice.limit))
  {
    hide MaySave, ReceiptEvent, IntentEvent, InterceptEvent, Page, Deliver;
  }

  lemma SaveAfterKeepsGround(h: Host)
    requires h.pc.Finishing? && SessionsNamed(h.disk.sessions)
    ensures KeepsGround(h, SaveAfter(h, h.pc.work))
  {
    hide MaySave;
  }

  lemma OtherStepKeepsGround(device: string, h: Host, choice: Choice)
    requires h.pc.Down? || h.pc.ReplayResolving? || h.pc.Rejecting? || h.pc.Unlinking? || h.pc.StoringRaw?
             || h.pc.RemovingRaw? || h.pc.Cleaning?
    ensures KeepsGround(h, AdvanceTo(device, h, choice))
  {
    hide LoopStep, AppendTo, TakeInput, SaveProposed, Stage, Submit, MarkDispatching, CountDispatch, SaveAfter,
      CommitOffset, ReplayNext, Resolve, Judge, Check, PollBoard;
  }

  lemma MarkIsGrounded(device: string, h: Host)
    requires Sound(device, h) && RunGrounded(h) && h.pc.Marking?
    ensures RunGrounded(MarkDispatching(h, h.pc.work, h.pc.sub))
  {
    hide Valid, OutboxShaped, DispatchesSound, HasIntent, GivesWork, MaySave, IsReported;
  }

  lemma AdvanceIsGrounded(device: string, h: Host, choice: Choice)
    requires Sound(device, h) && RunGrounded(h)
    ensures RunGrounded(AdvanceTo(device, h, choice))
  {
    hide RunGrounded, KeepsGround, LoopStep, AppendTo, TakeInput, SaveProposed, Stage, Submit, MarkDispatching,
      CountDispatch, SaveAfter, CommitOffset, ReplayNext, Resolve, Judge, Check, PollBoard, Cleaned, PcSound, Valid,
      OutboxShaped, DispatchesSound;
    var after := AdvanceTo(device, h, choice);
    PublishingKeepsGround(device, h, choice);
    HandlingKeepsGround(h, choice);
    if h.pc.Ready? {
      OpeningStep(device, h, choice);
      TakeIsGrounded(device, h, choice);
    } else if h.pc.Marking? {
      MarkIsGrounded(device, h);
    } else {
      if h.pc.Finishing? {
        SaveAfterKeepsGround(h);
      } else if h.pc.Down? || h.pc.ReplayResolving? || h.pc.Rejecting? || h.pc.Unlinking? || h.pc.StoringRaw?
                || h.pc.RemovingRaw? || h.pc.Cleaning? {
        OtherStepKeepsGround(device, h, choice);
      }
      assert KeepsGround(h, after);
      GroundIsKept(h, after);
    }
  }

  lemma TakeIsGrounded(device: string, h: Host, choice: Choice)
    requires RunGrounded(h) && SessionsNamed(h.disk.sessions) && h.pc.Ready?
    ensures RunGrounded(TakeInput(device, h, choice))
  {
    hide BeginWork, IsGrounded;
    if h.mailbox != [] && h.mailbox[0] < |h.board.log| {
      BeginIsGrounded(device, h.(mailbox := h.mailbox[1..]), h.mailbox[0], choice);
    }
  }

  lemma StepKeepsGrounded(device: string, h: Host, move: Move)
    requires Sound(device, h) && RunGrounded(h)
    ensures RunGrounded(Step(device, h, move))
  {
    hide AppendTo, AdvanceTo, Sound, IsGrounded, Lists;
    match move
    case Advance(choice) => AdvanceIsGrounded(device, h, choice);
    case Environment(e, now) =>
      AppendGrows(h.board, e, now);
      GroundIsKept(h, Step(device, h, move));
    case _ =>
  }

  lemma {:induction false} RunIsGrounded(device: string, moves: seq<Move>)
    ensures RunGrounded(RunHost(device, moves))
  {
    hide Step, Sound, IsGrounded;
    if moves == [] {
    } else {
      RunIsSound(device, moves[..|moves| - 1]);
      RunIsGrounded(device, moves[..|moves| - 1]);
      StepKeepsGrounded(device, RunHost(device, moves[..|moves| - 1]), moves[|moves| - 1]);
    }
  }

  /** In every run, a stored session that is not at its start has an epoch that a bid round, an
      assignment or a replan of its task named on the board. */
  lemma EpochWasReached(device: string, moves: seq<Move>, task: string)
    requires task in RunHost(device, moves).disk.sessions
    ensures var h := RunHost(device, moves);
            var s := h.disk.sessions[task];
            s.epoch == 0 || exists i | 0 <= i < |h.board.log| :: BringsTo(h.board.log[i], s.task, s.epoch)
  {
    hide RunHost, BringsTo;
    RunIsGrounded(device, moves);
    assert IsGrounded(RunHost(device, moves).board.log, RunHost(device, moves).disk.sessions[task]);
  }

  /** In every run, an intent that a stored session counts as succeeded, failed, unknown,
      blocked or dispatched was reported so on the board, and one that it counts as being
      dispatched is on the board. */
  lemma OutcomeWasReported(device: string, moves: seq<Move>, task: string)
    requires var sessions := RunHost(device, moves).disk.sessions;
             task in sessions && sessions[task].intent.Some? && !sessions[task].intent.value.state.Proposed?
    ensures var h := RunHost(device, moves);
            var current := h.disk.sessions[task].intent.value;
            if current.state.Dispatching? then HasIntent(h.board.log, current.id)
            else exists i | 0 <= i < |h.board.log| :: Reports(h.board.log[i], current.id, current.state)
  {
    hide RunHost, HasIntent, Reports;
    RunIsGrounded(device, moves);
    assert IsGrounded(RunHost(device, moves).board.log, RunHost(device, moves).disk.sessions[task]);
  }

  // ---------------------------------------------------------------------
  // Versions
  // ---------------------------------------------------------------------

  /** Whatever a step does, a stored session is replaced by a newer version of the same task,
      is left as it is, or is removed. */
  lemma SessionsOnlyGrowNewer(device: string, h: Host, move: Move, task: string)
    requires task in h.disk.sessions && task in Step(device, h, move).disk.sessions
    requires SessionsNamed(h.disk.sessions)
    ensures var before, after := h.disk.sessions[task], Step(device, h, move).disk.sessions[task];
            after == before || before.version < after.version
  {
    hide AppendTo, Lists, PollBoard, TakeInput, Stage, Submit, SaveProposed, MarkDispatching, Check, CountDispatch,
      Judge, SaveAfter, CommitOffset, Resolve, ReplayNext, Cleaned, SessionsNamed;
    if move.Advance? {
      PublishingSavesNothing(device, h, move.choice);
      HandlingSavesNothing(device, h, move.choice);
      SavingKeepsVersions(h, task);
    }
  }

  lemma PublishingSavesNothing(device: string, h: Host, choice: Choice)
    ensures h.pc.Staging? ==> Stage(h, h.pc.event, h.pc.source, h.pc.purpose).disk.sessions == h.disk.sessions
    ensures h.pc.Appending? ==>
              Submit(h, h.pc.place, h.pc.event, h.pc.source, h.pc.purpose, choice.now).disk.sessions == h.disk.sessions
    ensures h.pc.Replaying? ==> ReplayNext(h, h.pc.todo).disk.sessions == h.disk.sessions
    ensures h.pc.Polling? ==> PollBoard(h, choice.limit).disk.sessions == h.disk.sessions
    ensures h.pc.Ready? ==> TakeInput(device, h, choice).disk.sessions == h.disk.sessions
  {
    hide LoopStep, InputAt, Page, Deliver, StagedEvent, AppendTo, AfterPublishing;
  }

  lemma HandlingSavesNothing(device: string, h: Host, choice: Choice)
    ensures h.pc.Checking? ==> Check(h, h.pc.work, h.pc.sub, choice).disk.sessions == h.disk.sessions
    ensures h.pc.Sending? ==> CountDispatch(h, h.pc.work, h.pc.sub).disk.sessions == h.disk.sessions
    ensures h.pc.Judging? ==> Judge(h, h.pc.work, h.pc.sub, choice).disk.sessions == h.disk.sessions
    ensures h.pc.Committing? ==> CommitOffset(h, h.pc.work).disk.sessions == h.disk.sessions
    ensures h.pc.Resolving? ==> Resolve(h, h.pc.work).disk.sessions == h.disk.sessions
    ensures h.pc.Cleaning? && h.pc.work.cleanup.Some? ==>
              forall t | t in Cleaned(h.disk, h.pc.work.cleanup.value).sessions ::
                t in h.disk.sessions && Cleaned(h.disk, h.pc.work.cleanup.value).sessions[t] == h.disk.sessions[t]
  {
    hide IsConverged, InterceptEvent, ReceiptEvent, Outcome;
  }

  lemma SavingKeepsVersions(h: Host, task: string)
    requires task in h.disk.sessions && SessionsNamed(h.disk.sessions)
    ensures h.pc.SavingProposed? ==> NoOlder(h, SaveProposed(h, h.pc.work, h.pc.sub), task)
    ensures h.pc.Marking? ==> NoOlder(h, MarkDispatching(h, h.pc.work, h.pc.sub), task)
    ensures h.pc.Finishing? ==> NoOlder(h, SaveAfter(h, h.pc.work), task)
  {
    hide IntentEvent;
  }

  predicate NoOlder(h: Host, after: Host, task: string)
    requires task in h.disk.sessions
  {
    && task in after.disk.sessions
    && (after.disk.sessions[task] == h.disk.sessions[task]
        || h.disk.sessions[task].version < after.disk.sessions[task].version)
  }
}
