/** What holds of an agent process under every schedule, also when its mailbox hands an
    input over again: a dispatch is on the board first, sessions are never lost to the
    store, and the one write it refuses is that of an offset that lies behind. */
module Handling {
  import opened Events
  import opened TaskView
  import opened Admission
  import opened Board
  import opened History
  import opened Store
  import opened Loop
  import opened AgentHost

  predicate IsIntentRecord(e: Event, intent: IntentId) {
    e.kind.ActionIntent? && e.key == Some(IntentKey(intent))
  }

  predicate HasIntent(log: seq<Event>, intent: IntentId) {
    exists i | 0 <= i < |log| :: IsIntentRecord(log[i], intent)
  }

  predicate Holds(sessions: map<string, Session>, intent: IntentId) {
    intent.task in sessions && SettledOn(sessions[intent.task], intent)
  }

  /** The event gives the device the intent as work that it can do, and gives no other
      device the same assignment. */
  predicate GivesWork(device: string, e: Event, intent: IntentId) {
    && Triggers(device, e, intent) && IsUnambiguous(e.content)
    && IsLegal(FirstFor(GetOr(e.content.assignments, []), device).value)
  }

  /** A dispatched intent is on the board, because of a committed plan. */
  predicate DispatchSound(device: string, log: seq<Event>, intent: IntentId, d: Dispatch) {
    HasIntent(log, intent) && d.source < |log| && GivesWork(device, log[d.source], intent)
  }

  predicate DispatchesSound(device: string, log: seq<Event>, dispatches: map<IntentId, Dispatch>) {
    forall x | x in dispatches :: DispatchSound(device, log, x, dispatches[x])
  }

  predicate SessionsNamed(sessions: map<string, Session>) {
    forall t | t in sessions :: sessions[t].task == t
  }

  predicate KindFits(key: Key, kind: Kind) {
    match key
    case Named(_) => false
    case BidKey(_, _, _, _, _) => kind.Bid?
    case IntentKey(_) => kind.ActionIntent?
    case InterceptKey(_, _) => kind.SafetyIntercept?
    case ReceiptKey(_) => kind.Receipt?
  }

  /** The event is in the context of the intent. */
  predicate IntentFits(e: Event, x: IntentId) {
    && IsV2(e.content) && TaskOf(e.content) == x.task && RevisionOf(e.content) == x.revision
    && GetOr(e.content.coordinationEpoch, 0) == x.epoch
  }

  predicate Shaped(e: Event, key: Key) {
    e.key == Some(key) && KindFits(key, e.kind) && (key.IntentKey? ==> IntentFits(e, key.intent))
  }

  predicate OutboxShaped(outbox: map<Place, Record>) {
    forall p | p in outbox :: Shaped(outbox[p].event, p.1)
  }

  // ---------------------------------------------------------------------
  // Facts that hold at each point of the program
  // ---------------------------------------------------------------------

  predicate AtInput(log: seq<Event>, w: Work) {
    w.offset < |log| && w.task == TaskOf(log[w.offset].content) && w.after.task == w.task
  }

  /** The intent is the device's work at this input; the session in memory proposes it. */
  predicate Proposes(device: string, log: seq<Event>, w: Work, sub: Submission) {
    && AtInput(log, w) && w.hasSubmit
    && GivesWork(device, log[w.offset], sub.intent)
    && sub.intent.task == w.task
    && w.after.intent == Some(IntentSession(sub.intent, Proposed, None)) && w.after.epoch == sub.intent.epoch
  }

  predicate SavedProposed(sessions: map<string, Session>, w: Work) {
    w.task in sessions && sessions[w.task] == w.after
  }

  predicate Concludes(log: seq<Event>, sessions: map<string, Session>, w: Work) {
    AtInput(log, w) && if w.hasSubmit then w.task in sessions else MaySave(sessions, w.after)
  }

  /** The outcome of the handling is on the disk. */
  predicate IsStored(sessions: map<string, Session>, w: Work) {
    w.task in sessions && (!w.hasSubmit ==> sessions[w.task] == w.after)
  }

  /** What a publication must find when it returns; the key is that of the event being
      published. */
  predicate PurposeSound(device: string, log: seq<Event>, sessions: map<string, Session>, key: Key, purpose: Purpose) {
    match purpose
    case Replay(_) => true
    case Handle(w, next) =>
      match next
      case ToFinish => Concludes(log, sessions, w)
      case ToCheck(sub) => Proposes(device, log, w, sub) && SavedProposed(sessions, w) && key == IntentKey(sub.intent)
      case ToReceipt(_, _) => Concludes(log, sessions, w)
  }

  predicate PcSound(device: string, log: seq<Event>, sessions: map<string, Session>, pc: Pc) {
    match pc
    case SavingProposed(w, sub) => Proposes(device, log, w, sub) && MaySave(sessions, w.after)
    case Staging(e, _, purpose) =>
      e.key.Some? && Shaped(e, e.key.value) && PurposeSound(device, log, sessions, e.key.value, purpose)
    case Appending(place, e, _, purpose) => Shaped(e, place.1) && PurposeSound(device, log, sessions, place.1, purpose)
    case Checking(w, sub) => Proposes(device, log, w, sub) && SavedProposed(sessions, w) && HasIntent(log, sub.intent)
    case Marking(w, sub) => Proposes(device, log, w, sub) && SavedProposed(sessions, w) && HasIntent(log, sub.intent)
    case Sending(w, sub) => Proposes(device, log, w, sub) && Holds(sessions, sub.intent) && HasIntent(log, sub.intent)
    case StoringRaw(w, _) => Concludes(log, sessions, w)
    case Judging(w, _) => Concludes(log, sessions, w)
    case Finishing(w) => Concludes(log, sessions, w)
    case Committing(w) => AtInput(log, w) && IsStored(sessions, w)
    case _ => true
  }

  ghost predicate Sound(device: string, h: Host) {
    && Valid(h.board)
    && SessionsNamed(h.disk.sessions)
    && OutboxShaped(h.disk.outbox)
    && DispatchesSound(device, h.board.log, h.dispatches)
    && PcSound(device, h.board.log, h.disk.sessions, h.pc)
  }

  /** The step writes the offset of an input that lies behind the committed one. */
  predicate GoesBack(h: Host, move: Move) {
    && move.Advance?
    && ((h.pc.Committing? && h.pc.work.offset < h.disk.offset)
        || (h.pc.Ready? && h.mailbox != [] && h.mailbox[0] < |h.board.log|
            && TaskOf(h.board.log[h.mailbox[0]].content) == "" && h.mailbox[0] < h.disk.offset))
  }

  /** What a step does to the invariant and to the count of refused writes. */
  ghost predicate StaysSound(device: string, h: Host, after: Host) {
    Sound(device, after) && after.faults == h.faults
  }

  // ---------------------------------------------------------------------
  // The log only grows
  // ---------------------------------------------------------------------

  lemma HasIntentGrows(log: seq<Event>, more: seq<Event>, intent: IntentId)
    requires HasIntent(log, intent)
    ensures HasIntent(log + more, intent)
  {
    var i :| 0 <= i < |log| && IsIntentRecord(log[i], intent);
    assert (log + more)[i] == log[i];
  }

  lemma DispatchesGrow(device: string, log: seq<Event>, more: seq<Event>, dispatches: map<IntentId, Dispatch>)
    requires DispatchesSound(device, log, dispatches)
    ensures DispatchesSound(device, log + more, dispatches)
  {
    hide GivesWork, HasIntent;
    forall x | x in dispatches
      ensures DispatchSound(device, log + more, x, dispatches[x])
    {
      assert DispatchSound(device, log, x, dispatches[x]);
      HasIntentGrows(log, more, x);
    }
  }

  /** The facts at every program point survive appends by others. */
  lemma PcGrows(device: string, log: seq<Event>, more: seq<Event>, sessions: map<string, Session>, pc: Pc)
    requires PcSound(device, log, sessions, pc)
    ensures PcSound(device, log + more, sessions, pc)
  {
    hide GivesWork, HasIntent, MaySave, Shaped, Holds;
    forall x: IntentId | HasIntent(log, x)
      ensures HasIntent(log + more, x)
    {
      HasIntentGrows(log, more, x);
    }
  }

  // ---------------------------------------------------------------------
  // Every step keeps the invariant
  // ---------------------------------------------------------------------

  /** A plan that names an intent is the only one in the log, for whichever device. */
  lemma TriggerIsUnique(a: string, b: string, log: seq<Event>, i: nat, j: nat, intent: IntentId)
    requires AdmittedLog(log) && i < |log| && j < |log|
    requires Triggers(a, log[i], intent) && Triggers(b, log[j], intent)
    ensures i == j
  {
    PlanOfEpochIsUnique(log, i, j, intent.task, intent.revision);
  }

  /** A step that leaves the log, the sessions and the dispatches alone is sound when the
      outbox and the program point are. */
  lemma FrameIsSound(device: string, h: Host, after: Host)
    requires Sound(device, h)
    requires after.board == h.board && after.dispatches == h.dispatches && after.disk.sessions == h.disk.sessions
    requires OutboxShaped(after.disk.outbox) && PcSound(device, h.board.log, h.disk.sessions, after.pc)
    ensures Sound(device, after)
  {
    hide Valid, DispatchesSound, PcSound, SessionsNamed, OutboxShaped;
  }

  lemma DecisionIsSound(device: string, h: Host, o: nat, choice: Choice)
    requires Sound(device, h) && h.pc.Ready? && o < |h.board.log| && TaskOf(h.board.log[o].content) != ""
    ensures PcSound(device, h.board.log, h.disk.sessions, BeginWork(device, h, o, choice).pc)
  {
    hide LoopStep, Fold, Triggers, IsUnambiguous, IsLegal, HasIntent, SettledOn, MaySave, DispatchesSound, AdmittedLog,
      IndexesExact, OutboxShaped, EventError;
    var e := h.board.log[o];
    var input := InputAt(h, o, choice);
    var r := LoopStep(device, input);
    if r.Stepped? && r.consumed {
      AdmittedAt(h.board.log, o);
      StepIsSavable(device, input, h.disk.sessions);
      if r.effect.Some? && r.effect.value.SubmitIntent? {
        SubmissionIsOwnWork(device, input);
        TriggeredTask(device, e, r.effect.value.submission.intent);
        SubmissionIsUnambiguous(device, input);
      }
      if r.effect.Some? && r.effect.value.AppendEvent? {
        ViewTaskIsOwn(h.board.log, TaskOf(e.content), RevisionOf(e.content));
        AppendIsOwnBid(device, input);
      }
    }
  }

  lemma TriggeredTask(device: string, e: Event, x: IntentId)
    requires Triggers(device, e, x)
    ensures x.task == TaskOf(e.content) && e.kind.TaskAssigned?
  {
  }

  /** What the loop decides for an input is sound to carry out. */
  lemma BeginIsSound(device: string, h: Host, o: nat, choice: Choice)
    requires Sound(device, h) && h.pc.Ready? && o < |h.board.log|
    ensures Sound(device, BeginWork(device, h, o, choice))
    ensures BeginWork(device, h, o, choice).faults ==
            h.faults + if TaskOf(h.board.log[o].content) == "" && o < h.disk.offset then 1 else 0
  {
    hide Valid, LoopStep, Fold, DispatchesSound, SessionsNamed, OutboxShaped, InputAt;
    if TaskOf(h.board.log[o].content) != "" {
      DecisionIsSound(device, h, o, choice);
      FrameIsSound(device, h, BeginWork(device, h, o, choice));
    }
  }

  lemma TakeIsSound(device: string, h: Host, choice: Choice)
    requires Sound(device, h) && h.pc.Ready?
    ensures Sound(device, TakeInput(device, h, choice))
    ensures TakeInput(device, h, choice).faults == h.faults + if GoesBack(h, Advance(choice)) then 1 else 0
  {
    hide Sound, BeginWork;
    MailIsImmaterial(device, h);
    if h.mailbox != [] && h.mailbox[0] < |h.board.log| {
      BeginIsSound(device, h.(mailbox := h.mailbox[1..]), h.mailbox[0], choice);
    }
  }

  lemma MailIsImmaterial(device: string, h: Host)
    requires Sound(device, h)
    ensures forall mailbox :: Sound(device, h.(mailbox := mailbox))
    ensures Sound(device, h.(mailbox := [], pc := Polling))
  {
    hide Valid, DispatchesSound, SessionsNamed, OutboxShaped;
  }

  lemma SaveProposedIsSound(device: string, h: Host)
    requires Sound(device, h) && h.pc.SavingProposed?
    ensures StaysSound(device, h, SaveProposed(h, h.pc.work, h.pc.sub))
  {
    hide GivesWork, Valid, DispatchesSound;
  }

  /** Staging touches the outbox only, and leaves it an event under the right key. */
  lemma StageIsSound(device: string, h: Host)
    requires Sound(device, h) && h.pc.Staging?
    ensures StaysSound(device, h, Stage(h, h.pc.event, h.pc.source, h.pc.purpose))
  {
    hide HasIntent, Valid, DispatchesSound, PurposeSound;
  }

  lemma PublishedIsSound(
      device: string, log: seq<Event>, sessions: map<string, Session>, place: Place, purpose: Purpose)
    requires PurposeSound(device, log, sessions, place.1, purpose)
    requires place.1.IntentKey? ==> HasIntent(log, place.1.intent)
    ensures PcSound(device, log, sessions, AfterPublishing(purpose, place, true))
  {
    hide HasIntent, GivesWork, MaySave;
  }

  /** The board as it is after an append, with everything else unchanged. */
  lemma AppendIsSound(device: string, h: Host, e: Event, now: real)
    requires Sound(device, h)
    ensures Sound(device, h.(board := AppendTo(h.board, e, now).0))
  {
    hide AppendTo, Valid, DispatchesSound, PcSound, SessionsNamed, OutboxShaped;
    AcceptedMeansCommitted(h.board, e, now);
    var log := AppendTo(h.board, e, now).0.log;
    var more := log[|h.board.log|..];
    assert h.board.log + more == log;
    DispatchesGrow(device, h.board.log, more, h.dispatches);
    PcGrows(device, h.board.log, more, h.disk.sessions, h.pc);
  }

  lemma AcceptedIsIntent(b: State, e: Event, now: real, intent: IntentId)
    requires Valid(b) && IsIntentRecord(e, intent)
    requires AppendTo(b, e, now).1.status.Appended? || AppendTo(b, e, now).1.status.DuplicateSame?
    ensures HasIntent(AppendTo(b, e, now).0.log, intent)
  {
    hide AppendTo, Valid, Canonical;
    AcceptedMeansCommitted(b, e, now);
    var log := AppendTo(b, e, now).0.log;
    var i :| 0 <= i < |log| && Canonical(log[i]) == Canonical(e);
    SameBusinessEvent(log[i], e);
  }

  lemma SubmitIsSound(device: string, h: Host, now: real)
    requires Sound(device, h) && h.pc.Appending?
    ensures StaysSound(device, h, Submit(h, h.pc.place, h.pc.event, h.pc.source, h.pc.purpose, now))
  {
    hide AppendTo, Valid, DispatchesSound, PurposeSound, SessionsNamed, OutboxShaped, HasIntent, AfterPublishing;
    var e := h.pc.event;
    var place := h.pc.place;
    var after := Submit(h, place, e, h.pc.source, h.pc.purpose, now);
    var grown := h.(board := AppendTo(h.board, e, now).0);
    AppendIsSound(device, h, e, now);
    NoTerminalConflict(h.board, e, now);
    var status := AppendTo(h.board, e, now).1.status;
    if status.Appended? || status.DuplicateSame? {
      if place.1.IntentKey? {
        AcceptedIsIntent(h.board, e, now, place.1.intent);
      }
      PublishedIsSound(device, grown.board.log, h.disk.sessions, place, h.pc.purpose);
    }
    FrameIsSound(device, grown, after);
  }

  lemma MarkIsSound(device: string, h: Host)
    requires Sound(device, h) && h.pc.Marking?
    ensures StaysSound(device, h, MarkDispatching(h, h.pc.work, h.pc.sub))
  {
    hide HasIntent, GivesWork, Valid, DispatchesSound;
  }

  lemma SendIsSound(device: string, h: Host)
    requires Sound(device, h) && h.pc.Sending?
    ensures StaysSound(device, h, CountDispatch(h, h.pc.work, h.pc.sub))
  {
    hide HasIntent, GivesWork, Valid;
    var x := h.pc.sub.intent;
    var after := CountDispatch(h, h.pc.work, h.pc.sub);
    forall y | y in after.dispatches
      ensures DispatchSound(device, h.board.log, y, after.dispatches[y])
    {
      if y in h.dispatches {
        assert DispatchSound(device, h.board.log, y, h.dispatches[y]);
      }
    }
  }

  lemma SaveAfterIsSound(device: string, h: Host)
    requires Sound(device, h) && h.pc.Finishing?
    ensures StaysSound(device, h, SaveAfter(h, h.pc.work))
  {
    hide Valid, DispatchesSound;
    var w := h.pc.work;
    if w.hasSubmit {
      assert h.disk.sessions[w.task := h.disk.sessions[w.task]] == h.disk.sessions;
    }
  }

  lemma CommitIsSound(device: string, h: Host)
    requires Sound(device, h) && h.pc.Committing?
    ensures Sound(device, CommitOffset(h, h.pc.work))
    ensures CommitOffset(h, h.pc.work).faults == h.faults + if h.pc.work.offset < h.disk.offset then 1 else 0
  {
    hide Valid, DispatchesSound;
  }

  lemma CleanIsSound(device: string, h: Host)
    requires Sound(device, h) && h.pc.Cleaning?
    ensures StaysSound(device, h, h.(disk := if h.pc.work.cleanup.Some? then Cleaned(h.disk, h.pc.work.cleanup.value)
                                             else h.disk,
                                     pc := Ready))
  {
    hide Valid, DispatchesSound;
  }

  lemma ReplayIsSound(device: string, h: Host)
    requires Sound(device, h) && h.pc.Replaying?
    ensures StaysSound(device, h, ReplayNext(h, h.pc.todo))
  {
    hide Valid, DispatchesSound;
    FrameIsSound(device, h, ReplayNext(h, h.pc.todo));
  }

  lemma CheckIsSound(device: string, h: Host, choice: Choice)
    requires Sound(device, h) && h.pc.Checking?
    ensures StaysSound(device, h, Check(h, h.pc.work, h.pc.sub, choice))
  {
    hide Valid, DispatchesSound, SessionsNamed, OutboxShaped, GivesWork, HasIntent, MaySave;
    FrameIsSound(device, h, Check(h, h.pc.work, h.pc.sub, choice));
  }

  lemma JudgeIsSound(device: string, h: Host, choice: Choice)
    requires Sound(device, h) && h.pc.Judging?
    ensures StaysSound(device, h, Judge(h, h.pc.work, h.pc.sub, choice))
  {
    hide Valid, DispatchesSound, SessionsNamed, OutboxShaped, MaySave;
    FrameIsSound(device, h, Judge(h, h.pc.work, h.pc.sub, choice));
  }

  lemma ResolveIsSound(device: string, h: Host)
    requires Sound(device, h) && h.pc.Resolving?
    ensures StaysSound(device, h, Resolve(h, h.pc.work))
  {
    hide Valid, DispatchesSound, SessionsNamed;
    FrameIsSound(device, h, Resolve(h, h.pc.work));
  }

  /** The steps that write no session, offset or log. */
  lemma OtherStepIsSound(device: string, h: Host, choice: Choice)
    requires Sound(device, h)
    requires h.pc.Down? || h.pc.ReplayResolving? || h.pc.Polling? || h.pc.Rejecting? || h.pc.Unlinking?
             || h.pc.StoringRaw? || h.pc.RemovingRaw?
    ensures StaysSound(device, h, AdvanceTo(device, h, choice))
  {
    hide Valid, DispatchesSound, SessionsNamed, Concludes, LoopStep, AppendTo, TakeInput, SaveProposed, Stage, Submit,
      MarkDispatching, CountDispatch, SaveAfter, CommitOffset, ReplayNext, Cleaned, Resolve, Judge, Check, Page,
      Deliver;
    FrameIsSound(device, h, AdvanceTo(device, h, choice));
  }

  lemma AdvanceIsSound(device: string, h: Host, choice: Choice)
    requires Sound(device, h)
    ensures Sound(device, AdvanceTo(device, h, choice))
    ensures AdvanceTo(device, h, choice).faults == h.faults + if GoesBack(h, Advance(choice)) then 1 else 0
  {
    hide Sound, LoopStep, AppendTo, TakeInput, SaveProposed, Stage, Submit, MarkDispatching, CountDispatch, SaveAfter,
      CommitOffset, ReplayNext, Cleaned, Judge, Check, Resolve, PollBoard;
    match h.pc
    case Ready => TakeIsSound(device, h, choice);
    case SavingProposed(_, _) => SaveProposedIsSound(device, h);
    case Staging(_, _, _) => StageIsSound(device, h);
    case Appending(_, _, _, _) => SubmitIsSound(device, h, choice.now);
    case Marking(_, _) => MarkIsSound(device, h);
    case Sending(_, _) => SendIsSound(device, h);
    case Finishing(_) => SaveAfterIsSound(device, h);
    case Committing(_) => CommitIsSound(device, h);
    case Cleaning(_) => CleanIsSound(device, h);
    case Replaying(_) => ReplayIsSound(device, h);
    case Checking(_, _) => CheckIsSound(device, h, choice);
    case Judging(_, _) => JudgeIsSound(device, h, choice);
    case Resolving(_) => ResolveIsSound(device, h);
    case _ => OtherStepIsSound(device, h, choice);
  }

  /** A step keeps the invariant; the store refuses a write exactly when it would move
      the offset back, and the session to mark is always found. */
  lemma StepIsSound(device: string, h: Host, move: Move)
    requires Sound(device, h)
    ensures Sound(device, Step(device, h, move))
    ensures Step(device, h, move).faults == h.faults + if GoesBack(h, move) then 1 else 0
  {
    hide AppendTo, AdvanceTo, Valid, DispatchesSound, Lists;
    match move
    case Advance(choice) => AdvanceIsSound(device, h, choice);
    case Environment(e, now) => AppendIsSound(device, h, e, now);
    case _ =>
  }

  lemma {:induction false} RunIsSound(device: string, moves: seq<Move>)
    ensures Sound(device, RunHost(device, moves))
  {
    hide Step;
    if moves == [] {
    } else {
      RunIsSound(device, moves[..|moves| - 1]);
      StepIsSound(device, RunHost(device, moves[..|moves| - 1]), moves[|moves| - 1]);
    }
  }

  // ---------------------------------------------------------------------
  // What holds in every run
  // ---------------------------------------------------------------------

  /** In every run, whatever the mailbox hands over again: the store refuses a write
      exactly when the input it commits lies behind the committed offset; no write of a
      session is refused, and the session that marks a dispatch is always found. */
  lemma RefusalMeansBehind(device: string, moves: seq<Move>, move: Move)
    ensures var h := RunHost(device, moves);
            Step(device, h, move).faults == h.faults + if GoesBack(h, move) then 1 else 0
  {
    hide RunHost, Step, Sound, GoesBack;
    RunIsSound(device, moves);
    StepIsSound(device, RunHost(device, moves), move);
  }

  /** The step hands the intent to the device. */
  predicate Sends(h: Host, move: Move, intent: IntentId) {
    move.Advance? && h.pc.Sending? && h.pc.sub.intent == intent
  }

  /** In every run, at the moment of a dispatch the intent is already on the board because
      of a committed plan that assigns it, and the stored session is already marked. */
  lemma DispatchComesAfterIntent(device: string, moves: seq<Move>, move: Move, intent: IntentId)
    requires Sends(RunHost(device, moves), move, intent)
    ensures var h := RunHost(device, moves);
            && HasIntent(h.board.log, intent)
            && Holds(h.disk.sessions, intent)
            && exists i | 0 <= i < |h.board.log| :: GivesWork(device, h.board.log[i], intent)
  {
    hide RunHost, HasIntent, GivesWork, Holds, Valid, DispatchesSound;
    RunIsSound(device, moves);
  }

  /** In every run, an input is committed only when the session that its handling ended in
      is stored; where an intent was submitted, it is the session the dispatch marked. */
  lemma CommitComesAfterSession(device: string, moves: seq<Move>)
    requires RunHost(device, moves).pc.Committing?
    ensures var h := RunHost(device, moves);
            IsStored(h.disk.sessions, h.pc.work) && h.pc.work.offset < |h.board.log|
  {
    hide RunHost, Valid, DispatchesSound;
    RunIsSound(device, moves);
  }

  /** In every run, an intent that was dispatched is submitted again exactly when the
      mailbox hands its assignment over again while the assignment still stands, its view
      is not terminal, no replan is pending, and the stored session of the task is not
      settled on it. */
  lemma ResubmissionIsExact(device: string, moves: seq<Move>, choice: Choice, intent: IntentId)
    requires var h := RunHost(device, moves);
             && h.pc.Ready? && h.mailbox != [] && h.mailbox[0] < |h.board.log|
             && TaskOf(h.board.log[h.mailbox[0]].content) != ""
             && intent in h.dispatches
    ensures var h := RunHost(device, moves);
            var after := AdvanceTo(device, h, choice);
            var i := InputAt(h, h.mailbox[0], choice);
            after.pc.SavingProposed? && after.pc.sub.intent == intent
            <==> && h.mailbox[0] == h.dispatches[intent].source
                 && i.view.terminal.None? && !ReplanPending(i.view) && !IsStale(i)
                 && !SettledOn(i.session, intent)
  {
    hide RunHost, AdvanceTo, LoopStep, Fold, HasIntent, IndexesExact, AdmittedLog, IsLegal, IsUnambiguous, Triggers,
      IsStale, EventError, SettledOn, SessionsNamed, OutboxShaped, PcSound;
    var h := RunHost(device, moves);
    var o := h.mailbox[0];
    RunIsSound(device, moves);
    OpeningStep(device, h, choice);
    AdmittedAt(h.board.log, o);
    SubmissionIsExact(device, InputAt(h, o, choice), intent);
    assert DispatchSound(device, h.board.log, intent, h.dispatches[intent]);
    if Triggers(device, h.board.log[o], intent) {
      TriggerIsUnique(device, device, h.board.log, o, h.dispatches[intent].source, intent);
    }
    assert InputAt(h.(mailbox := h.mailbox[1..]), o, choice) == InputAt(h, o, choice);
    SubmittedIsSaving(device, h.(mailbox := h.mailbox[1..]), o, choice, intent);
  }

  lemma SubmittedIsSaving(device: string, h: Host, o: nat, choice: Choice, intent: IntentId)
    requires h.pc.Ready? && o < |h.board.log| && TaskOf(h.board.log[o].content) != "" && AdmittedLog(h.board.log)
    requires SessionsNamed(h.disk.sessions)
    ensures SubmitsIntent(device, InputAt(h, o, choice), intent) <==>
            BeginWork(device, h, o, choice).pc.SavingProposed?
            && BeginWork(device, h, o, choice).pc.sub.intent == intent
  {
    hide LoopStep, AdmittedLog, Fold;
    if LoopStep(device, InputAt(h, o, choice)).Stepped? {
      StepIsSavable(device, InputAt(h, o, choice), h.disk.sessions);
    }
  }
}
