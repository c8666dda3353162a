/** When polls start with an empty mailbox, under every schedule of crashes, restarts and
    foreign appends, the agent process dispatches each intent at most once. */
module DispatchSafety {
  import opened Events
  import opened TaskView
  import opened Admission
  import opened Board
  import opened Store
  import opened Loop
  import opened AgentHost
  import opened Mailbox
  import opened Handling

  /** What the dispatch rule depends on: the log, the committed offset, the stored
      sessions and the history of dispatches. */
  datatype Core = Core(
    log: seq<Event>, offset: int, sessions: map<string, Session>, dispatches: map<IntentId, Dispatch>)

  function CoreOf(h: Host): Core {
    Core(h.board.log, h.disk.offset, h.disk.sessions, h.dispatches)
  }

  /** A dispatch happened once; until its input is committed, the stored session
      remembers it. */
  predicate DispatchOnce(k: Core, intent: IntentId, d: Dispatch) {
    d.count == 1 && (d.source <= k.offset || (IsNext(k.log, k.offset, d.source) && Holds(k.sessions, intent)))
  }

  predicate DispatchesOnce(k: Core) {
    forall x | x in k.dispatches :: DispatchOnce(k, x, k.dispatches[x])
  }

  predicate Settled(offset: int, dispatches: map<IntentId, Dispatch>) {
    forall x | x in dispatches :: dispatches[x].source <= offset
  }

  /** Whatever was dispatched for this input is still remembered by the session
      that is about to replace the stored one. */
  predicate Remembers(dispatches: map<IntentId, Dispatch>, w: Work) {
    w.hasSubmit || forall x | x in dispatches && dispatches[x].source == w.offset :: SettledOn(w.after, x)
  }

  predicate PurposeOnce(dispatches: map<IntentId, Dispatch>, purpose: Purpose) {
    purpose.Handle? ==>
      if purpose.next.ToCheck? then purpose.next.sub.intent !in dispatches else Remembers(dispatches, purpose.work)
  }

  predicate PcOnce(k: Core, pc: Pc) {
    match pc
    case SavingProposed(_, sub) => sub.intent !in k.dispatches
    case Staging(_, _, purpose) => PurposeOnce(k.dispatches, purpose)
    case Appending(_, _, _, purpose) => PurposeOnce(k.dispatches, purpose)
    case Checking(_, sub) => sub.intent !in k.dispatches
    case Marking(_, sub) => sub.intent !in k.dispatches
    case Sending(_, sub) => sub.intent !in k.dispatches
    case StoringRaw(w, _) => Remembers(k.dispatches, w)
    case Judging(w, _) => Remembers(k.dispatches, w)
    case Finishing(w) => Remembers(k.dispatches, w)
    case Resolving(_) => Settled(k.offset, k.dispatches)
    case RemovingRaw(_) => Settled(k.offset, k.dispatches)
    case Cleaning(_) => Settled(k.offset, k.dispatches)
    case _ => true
  }

  ghost predicate Safe(device: string, h: Host) {
    Sound(device, h) && InOrder(h) && Once(h)
  }

  predicate Once(h: Host) {
    DispatchesOnce(CoreOf(h)) && PcOnce(CoreOf(h), h.pc)
  }

  // ---------------------------------------------------------------------
  // Every step keeps the invariant
  // ---------------------------------------------------------------------

  lemma LogMayGrow(k: Core, log: seq<Event>, pc: Pc)
    requires DispatchesOnce(k) && PcOnce(k, pc) && k.log <= log
    ensures DispatchesOnce(k.(log := log)) && PcOnce(k.(log := log), pc)
  {
    hide Holds, Remembers, Settled;
    forall x | x in k.dispatches
      ensures DispatchOnce(k.(log := log), x, k.dispatches[x])
    {
      assert DispatchOnce(k, x, k.dispatches[x]);
    }
  }

  lemma OneIntentPerInput(device: string, e: Event, x: IntentId, y: IntentId)
    requires Triggers(device, e, x) && Triggers(device, e, y)
    ensures x == y && x.task == TaskOf(e.content)
  {
  }

  /** Every dispatch for the input at hand is of its one intent. */
  lemma SourceNamesIntent(device: string, h: Host, x: IntentId)
    requires Sound(device, h) && x in h.dispatches
    ensures var source := h.dispatches[x].source;
            source < |h.board.log| && Triggers(device, h.board.log[source], x)
            && x.task == TaskOf(h.board.log[source].content)
  {
    hide Valid, SessionsNamed, OutboxShaped, PcSound, HasIntent, IsUnambiguous, IsLegal, Triggers;
    assert DispatchSound(device, h.board.log, x, h.dispatches[x]);
    TriggeredTask(device, h.board.log[h.dispatches[x].source], x);
  }

  /** The step leaves the log, the offset, the sessions and the dispatches alone. */
  lemma FrameIsOnce(h: Host, after: Host)
    requires Once(h) && CoreOf(after) == CoreOf(h) && PcOnce(CoreOf(h), after.pc)
    ensures Once(after)
  {
    hide DispatchesOnce, PcOnce;
  }

  /** Whatever was dispatched for an input is remembered by the session that the loop
      returns for it, and is not submitted again. */
  lemma DecisionRemembers(device: string, h: Host, o: nat, choice: Choice)
    requires Sound(device, h) && Once(h) && IsNext(h.board.log, h.disk.offset, o)
    requires LoopStep(device, InputAt(h, o, choice)).Stepped?
    ensures var r := LoopStep(device, InputAt(h, o, choice));
            && (forall x | x in h.dispatches && h.dispatches[x].source == o :: SettledOn(r.after, x))
            && forall x | x in h.dispatches && Triggers(device, h.board.log[o], x) :: r.effect.None?
  {
    hide LoopStep, Fold, IndexesExact, Triggers, SettledOn, PcSound, PcOnce, AdmittedLog, DispatchesSound,
      SessionsNamed, OutboxShaped;
    var r := LoopStep(device, InputAt(h, o, choice));
    forall x | x in h.dispatches && (h.dispatches[x].source == o || Triggers(device, h.board.log[o], x))
      ensures SettledOn(r.after, x) && r.effect.None?
    {
      SourceNamesIntent(device, h, x);
      TriggerIsUnique(device, device, h.board.log, h.dispatches[x].source, o, x);
      assert DispatchOnce(CoreOf(h), x, h.dispatches[x]);
      RedeliveryNeverResubmits(device, InputAt(h, o, choice), x);
    }
  }

  lemma DecisionIsOnce(device: string, h: Host, o: nat, choice: Choice)
    requires Sound(device, h) && Once(h) && h.pc.Ready? && IsNext(h.board.log, h.disk.offset, o)
    requires o < |h.board.log| && TaskOf(h.board.log[o].content) != ""
    ensures PcOnce(CoreOf(h), BeginWork(device, h, o, choice).pc)
  {
    hide LoopStep, Fold, Triggers, SettledOn, DispatchesOnce, DispatchesSound, PcSound, AdmittedLog, IndexesExact,
      OutboxShaped, SessionsNamed, EventError, IsLegal;
    var input := InputAt(h, o, choice);
    var r := LoopStep(device, input);
    if r.Stepped? && r.consumed {
      AdmittedAt(h.board.log, o);
      DecisionRemembers(device, h, o, choice);
      if r.effect.Some? && r.effect.value.SubmitIntent? {
        SubmissionIsOwnWork(device, input);
      }
    }
  }

  /** What the loop decides for the next input keeps the rule. */
  lemma BeginIsOnce(device: string, h: Host, o: nat, choice: Choice)
    requires Sound(device, h) && Once(h) && h.pc.Ready? && IsNext(h.board.log, h.disk.offset, o)
    ensures Once(BeginWork(device, h, o, choice))
  {
    hide Sound, LoopStep, Fold, DispatchesOnce, InputAt;
    if TaskOf(h.board.log[o].content) == "" {
      CommitSettles(h, o);
    } else {
      DecisionIsOnce(device, h, o, choice);
      FrameIsOnce(h, BeginWork(device, h, o, choice));
    }
  }

  lemma TakeIsOnce(device: string, h: Host, choice: Choice)
    requires Safe(device, h) && h.pc.Ready?
    ensures Once(TakeInput(device, h, choice))
  {
    hide Sound, BeginWork, DispatchesOnce, IsNext;
    MailIsImmaterial(device, h);
    if h.mailbox != [] && h.mailbox[0] < |h.board.log| {
      BeginIsOnce(device, h.(mailbox := h.mailbox[1..]), h.mailbox[0], choice);
    }
  }

  /** Moving the offset to the next input settles every dispatch so far. */
  lemma CommitSettles(h: Host, o: nat)
    requires DispatchesOnce(CoreOf(h)) && IsNext(h.board.log, h.disk.offset, o)
    ensures Settled(o, h.dispatches) && DispatchesOnce(CoreOf(h).(offset := o))
  {
    hide Holds;
    forall x | x in h.dispatches
      ensures h.dispatches[x].source <= o && DispatchOnce(CoreOf(h).(offset := o), x, h.dispatches[x])
    {
      assert DispatchOnce(CoreOf(h), x, h.dispatches[x]);
    }
  }

  /** Replacing the session of the task at hand forgets no dispatch that is not
      yet committed. */
  lemma SaveIsOnce(device: string, h: Host, w: Work, s: Session)
    requires Sound(device, h) && Once(h) && IsNext(h.board.log, h.disk.offset, w.offset)
    requires AtInput(h.board.log, w) && s.task == w.task
    requires forall x | x in h.dispatches && h.dispatches[x].source == w.offset :: SettledOn(s, x)
    ensures DispatchesOnce(CoreOf(h).(sessions := h.disk.sessions[s.task := s]))
  {
    hide Sound, SettledOn, Triggers, PcOnce;
    var k := CoreOf(h);
    forall x | x in h.dispatches
      ensures DispatchOnce(k.(sessions := h.disk.sessions[s.task := s]), x, h.dispatches[x])
    {
      assert DispatchOnce(k, x, h.dispatches[x]);
      SourceNamesIntent(device, h, x);
    }
  }

  /** No dispatch has this input as its source while its intent is not dispatched. */
  lemma NothingSentYet(device: string, h: Host, w: Work, sub: Submission)
    requires Sound(device, h) && w.offset < |h.board.log| && Triggers(device, h.board.log[w.offset], sub.intent)
    requires sub.intent !in h.dispatches
    ensures forall x | x in h.dispatches :: h.dispatches[x].source != w.offset
  {
    hide Sound, Triggers;
    forall x | x in h.dispatches
      ensures h.dispatches[x].source != w.offset
    {
      SourceNamesIntent(device, h, x);
      if h.dispatches[x].source == w.offset {
        OneIntentPerInput(device, h.board.log[w.offset], x, sub.intent);
        assert false;
      }
    }
  }

  lemma SaveProposedIsOnce(device: string, h: Host)
    requires Safe(device, h) && h.pc.SavingProposed?
    ensures Once(SaveProposed(h, h.pc.work, h.pc.sub))
  {
    hide Valid, SessionsNamed, OutboxShaped, DispatchesSound, DispatchesOnce, Chain, IsNext, Triggers, IsUnambiguous,
      IsLegal, MaySave;
    var w := h.pc.work;
    NothingSentYet(device, h, w, h.pc.sub);
    SaveIsOnce(device, h, w, w.after);
  }

  lemma StageIsOnce(h: Host)
    requires Once(h) && h.pc.Staging?
    ensures Once(Stage(h, h.pc.event, h.pc.source, h.pc.purpose))
  {
    hide DispatchesOnce, PurposeOnce, StagedEvent;
    FrameIsOnce(h, Stage(h, h.pc.event, h.pc.source, h.pc.purpose));
  }

  lemma PublishedIsOnce(device: string, h: Host, accepted: bool)
    requires Safe(device, h) && h.pc.Appending?
    ensures PcOnce(CoreOf(h), AfterPublishing(h.pc.purpose, h.pc.place, accepted))
  {
    hide Valid, DispatchesSound, DispatchesOnce, SessionsNamed, OutboxShaped, GivesWork, Chain, IsNext, SettledOn;
  }

  lemma SubmitIsOnce(device: string, h: Host, choice: Choice)
    requires Safe(device, h) && h.pc.Appending?
    ensures Once(AdvanceTo(device, h, choice))
  {
    hide AppendTo, AdvanceTo, Sound, InOrder, DispatchesOnce, PcOnce, AfterPublishing;
    AppendGrows(h.board, h.pc.event, choice.now);
    SubmitStep(device, h, choice);
    var after := AdvanceTo(device, h, choice);
    PublishedIsOnce(device, h, true);
    PublishedIsOnce(device, h, false);
    assert PcOnce(CoreOf(h), after.pc) by { NothingLeft(CoreOf(h)); }
    LogMayGrow(CoreOf(h), after.board.log, after.pc);
  }

  lemma NothingLeft(k: Core)
    ensures PcOnce(k, Down) && forall place :: PcOnce(k, Rejecting(place))
  {
  }

  lemma MarkIsOnce(device: string, h: Host)
    requires Safe(device, h) && h.pc.Marking?
    ensures Once(MarkDispatching(h, h.pc.work, h.pc.sub))
  {
    hide Valid, OutboxShaped, DispatchesSound, DispatchesOnce, Chain, IsNext, Triggers, IsUnambiguous, IsLegal,
      HasIntent;
    var w := h.pc.work;
    NothingSentYet(device, h, w, h.pc.sub);
    var s := h.disk.sessions[w.task];
    SaveIsOnce(device, h, w, s.(intent := Some(s.intent.value.(state := Dispatching)), version := s.version + 1));
  }

  lemma SendIsOnce(device: string, h: Host)
    requires Safe(device, h) && h.pc.Sending?
    ensures Once(CountDispatch(h, h.pc.work, h.pc.sub))
  {
    hide Valid, SessionsNamed, OutboxShaped, DispatchesSound, Chain, IsNext, GivesWork, HasIntent, Holds;
    var after := CountDispatch(h, h.pc.work, h.pc.sub);
    forall y | y in after.dispatches
      ensures DispatchOnce(CoreOf(after), y, after.dispatches[y])
    {
      if y in h.dispatches {
        assert DispatchOnce(CoreOf(h), y, h.dispatches[y]);
      }
    }
  }

  lemma SaveAfterIsOnce(device: string, h: Host)
    requires Safe(device, h) && h.pc.Finishing?
    ensures Once(SaveAfter(h, h.pc.work))
  {
    hide Valid, OutboxShaped, DispatchesSound, DispatchesOnce, Chain, IsNext, SettledOn, MaySave;
    var w := h.pc.work;
    if w.hasSubmit {
      assert h.disk.sessions[w.task := h.disk.sessions[w.task]] == h.disk.sessions;
    } else {
      SaveIsOnce(device, h, w, w.after);
    }
  }

  lemma CommitIsOnce(device: string, h: Host)
    requires Safe(device, h) && h.pc.Committing?
    ensures Once(CommitOffset(h, h.pc.work))
  {
    hide Sound, DispatchesOnce, Chain, IsNext;
    CommitSettles(h, h.pc.work.offset);
  }

  lemma CleanIsOnce(h: Host)
    requires Once(h) && h.pc.Cleaning?
    ensures Once(h.(disk := if h.pc.work.cleanup.Some? then Cleaned(h.disk, h.pc.work.cleanup.value) else h.disk,
                    pc := Ready))
  {
    hide Holds, IsNext;
    var d := if h.pc.work.cleanup.Some? then Cleaned(h.disk, h.pc.work.cleanup.value) else h.disk;
    forall x | x in h.dispatches
      ensures DispatchOnce(CoreOf(h).(sessions := d.sessions), x, h.dispatches[x])
    {
      assert DispatchOnce(CoreOf(h), x, h.dispatches[x]);
    }
  }

  lemma CheckIsOnce(device: string, h: Host, choice: Choice)
    requires Safe(device, h) && h.pc.Checking?
    ensures Once(Check(h, h.pc.work, h.pc.sub, choice))
  {
    hide Valid, SessionsNamed, OutboxShaped, DispatchesSound, DispatchesOnce, GivesWork, HasIntent, InterceptEvent,
      Chain, IsNext;
  }

  /** The steps that write no session, offset or log. */
  lemma QuietStepIsOnce(h: Host, choice: Choice)
    requires Once(h)
    ensures h.pc.Replaying? ==> Once(ReplayNext(h, h.pc.todo))
    ensures h.pc.Judging? ==> Once(Judge(h, h.pc.work, h.pc.sub, choice))
    ensures h.pc.Resolving? ==> Once(Resolve(h, h.pc.work))
    ensures h.pc.Polling? ==> Once(PollBoard(h, choice.limit))
  {
    hide DispatchesOnce, SettledOn, IntentEvent, InterceptEvent, ReceiptEvent, Page, Deliver, Settled;
  }

  lemma OtherStepIsOnce(device: string, h: Host, choice: Choice)
    requires Once(h)
    requires h.pc.Down? || h.pc.ReplayResolving? || h.pc.Rejecting? || h.pc.Unlinking? || h.pc.StoringRaw?
             || h.pc.RemovingRaw?
    ensures Once(AdvanceTo(device, h, choice))
  {
    hide DispatchesOnce, Remembers, Settled, LoopStep, AppendTo, TakeInput, SaveProposed, Stage, Submit,
      MarkDispatching, CountDispatch, SaveAfter, CommitOffset, ReplayNext, Cleaned, Resolve, Judge, Check, PollBoard;
    FrameIsOnce(h, AdvanceTo(device, h, choice));
  }

  lemma AdvanceIsOnce(device: string, h: Host, choice: Choice)
    requires Safe(device, h)
    ensures Once(AdvanceTo(device, h, choice))
  {
    hide Sound, InOrder, Once, LoopStep, AppendTo, TakeInput, SaveProposed, Stage, Submit, MarkDispatching,
      CountDispatch, SaveAfter, CommitOffset, ReplayNext, Cleaned, Judge, Check, Resolve, PollBoard;
    QuietStepIsOnce(h, choice);
    match h.pc
    case Ready => TakeIsOnce(device, h, choice);
    case SavingProposed(_, _) => SaveProposedIsOnce(device, h);
    case Staging(_, _, _) => StageIsOnce(h);
    case Appending(_, _, _, _) => SubmitIsOnce(device, h, choice);
    case Marking(_, _) => MarkIsOnce(device, h);
    case Sending(_, _) => SendIsOnce(device, h);
    case Finishing(_) => SaveAfterIsOnce(device, h);
    case Committing(_) => CommitIsOnce(device, h);
    case Cleaning(_) => CleanIsOnce(h);
    case Checking(_, _) => CheckIsOnce(device, h, choice);
    case Down => OtherStepIsOnce(device, h, choice);
    case ReplayResolving(_, _) => OtherStepIsOnce(device, h, choice);
    case Rejecting(_) => OtherStepIsOnce(device, h, choice);
    case Unlinking(_) => OtherStepIsOnce(device, h, choice);
    case StoringRaw(_, _) => OtherStepIsOnce(device, h, choice);
    case RemovingRaw(_) => OtherStepIsOnce(device, h, choice);
    case _ =>
  }

  lemma StepIsSafe(device: string, h: Host, move: Move)
    requires Safe(device, h) && StartsEmpty(h, move)
    ensures Safe(device, Step(device, h, move))
  {
    hide AppendTo, AdvanceTo, Sound, InOrder, DispatchesOnce, Lists;
    StepIsSound(device, h, move);
    StepIsInOrder(device, h, move);
    match move
    case Advance(choice) => AdvanceIsOnce(device, h, choice);
    case Environment(e, now) =>
      AppendGrows(h.board, e, now);
      LogMayGrow(CoreOf(h), AppendTo(h.board, e, now).0.log, h.pc);
    case _ =>
  }

  lemma {:induction false} RunIsSafe(device: string, moves: seq<Move>)
    requires PollsStartEmpty(device, moves)
    ensures Safe(device, RunHost(device, moves))
  {
    hide Step, Sound, InOrder, StartsEmpty;
    if moves == [] {
      RunIsSound(device, moves);
      RunIsInOrder(device, moves);
    } else {
      var before := moves[..|moves| - 1];
      PollsStartEmptyBefore(device, moves, |moves| - 1);
      RunIsSafe(device, before);
      StepIsSafe(device, RunHost(device, before), moves[|moves| - 1]);
    }
  }

  // ---------------------------------------------------------------------
  // The theorems
  // ---------------------------------------------------------------------

  /** How often a run hands the intent to the device. */
  function Sent(device: string, moves: seq<Move>, intent: IntentId): nat {
    if moves == [] then 0
    else
      var before := moves[..|moves| - 1];
      Sent(device, before, intent) + (if Sends(RunHost(device, before), moves[|moves| - 1], intent) then 1 else 0)
  }

  lemma PublishingSendsNothing(h: Host, choice: Choice)
    ensures h.pc.Staging? ==> Stage(h, h.pc.event, h.pc.source, h.pc.purpose).dispatches == h.dispatches
    ensures h.pc.Appending? ==>
              Submit(h, h.pc.place, h.pc.event, h.pc.source, h.pc.purpose, choice.now).dispatches == h.dispatches
  {
    hide AppendTo, StagedEvent, Staged, AfterPublishing;
  }

  lemma HandlingSendsNothing(device: string, h: Host, choice: Choice)
    ensures TakeInput(device, h, choice).dispatches == h.dispatches
    ensures h.pc.SavingProposed? ==> SaveProposed(h, h.pc.work, h.pc.sub).dispatches == h.dispatches
    ensures h.pc.Checking? ==> Check(h, h.pc.work, h.pc.sub, choice).dispatches == h.dispatches
    ensures h.pc.Marking? ==> MarkDispatching(h, h.pc.work, h.pc.sub).dispatches == h.dispatches
    ensures h.pc.Judging? ==> Judge(h, h.pc.work, h.pc.sub, choice).dispatches == h.dispatches
  {
    hide LoopStep, InputAt, Saved, MaySave, ReceiptEvent, IntentEvent, InterceptEvent;
  }

  lemma ClosingSendsNothing(h: Host, choice: Choice)
    ensures h.pc.Replaying? ==> ReplayNext(h, h.pc.todo).dispatches == h.dispatches
    ensures h.pc.Finishing? ==> SaveAfter(h, h.pc.work).dispatches == h.dispatches
    ensures h.pc.Committing? ==> CommitOffset(h, h.pc.work).dispatches == h.dispatches
    ensures h.pc.Resolving? ==> Resolve(h, h.pc.work).dispatches == h.dispatches
    ensures PollBoard(h, choice.limit).dispatches == h.dispatches
  {
    hide Saved, MaySave, Resolved, Page, Deliver;
  }

  lemma StepCountsSends(device: string, h: Host, move: Move, intent: IntentId)
    ensures var after := Step(device, h, move).dispatches;
            (if intent in after then after[intent].count else 0)
            == (if intent in h.dispatches then h.dispatches[intent].count else 0)
               + (if Sends(h, move, intent) then 1 else 0)
  {
    hide AppendTo, Cleaned, Resolved, Quarantined, Lists, TakeInput, PollBoard, SaveProposed, Stage, Submit, Check,
      MarkDispatching, Judge, SaveAfter, CommitOffset, Resolve, ReplayNext;
    if move.Advance? {
      PublishingSendsNothing(h, move.choice);
      HandlingSendsNothing(device, h, move.choice);
      ClosingSendsNothing(h, move.choice);
    }
  }

  lemma {:induction false} HistoryCountsSends(device: string, moves: seq<Move>, intent: IntentId)
    ensures var d := RunHost(device, moves).dispatches;
            Sent(device, moves, intent) == if intent in d then d[intent].count else 0
  {
    hide Step;
    if moves != [] {
      HistoryCountsSends(device, moves[..|moves| - 1], intent);
      StepCountsSends(device, RunHost(device, moves[..|moves| - 1]), moves[|moves| - 1], intent);
    }
  }

  /** For every schedule of steps, crashes, restarts and appends by others in which polls
      start with an empty mailbox, an intent is handed to the device at most once, and if
      it was, it is on the board because of a committed plan that assigns it to the device. */
  lemma DispatchedAtMostOnce(device: string, moves: seq<Move>, intent: IntentId)
    requires PollsStartEmpty(device, moves)
    ensures Sent(device, moves, intent) <= 1
    ensures Sent(device, moves, intent) == 1 ==>
              var log := RunHost(device, moves).board.log;
              HasIntent(log, intent) && exists i | 0 <= i < |log| :: Triggers(device, log[i], intent)
  {
    hide RunHost, PollsStartEmpty, Valid, SessionsNamed, OutboxShaped, PcSound, InOrder, PcOnce, Holds, HasIntent,
      Triggers, IsUnambiguous, IsLegal;
    var h := RunHost(device, moves);
    RunIsSafe(device, moves);
    HistoryCountsSends(device, moves, intent);
    if intent in h.dispatches {
      assert DispatchOnce(CoreOf(h), intent, h.dispatches[intent]);
      assert DispatchSound(device, h.board.log, intent, h.dispatches[intent]);
    }
  }

  /** In such a run, at the moment of a dispatch the intent is already on the board, the
      stored session is already marked, and no earlier dispatch took place. */
  lemma DispatchComesLast(device: string, moves: seq<Move>, move: Move, intent: IntentId)
    requires PollsStartEmpty(device, moves)
    requires Sends(RunHost(device, moves), move, intent)
    ensures var h := RunHost(device, moves);
            && HasIntent(h.board.log, intent)
            && Holds(h.disk.sessions, intent)
            && Sent(device, moves, intent) == 0
  {
    hide RunHost, PollsStartEmpty, Sound, InOrder, DispatchesOnce, HasIntent, Holds;
    DispatchComesAfterIntent(device, moves, move, intent);
    RunIsSafe(device, moves);
    HistoryCountsSends(device, moves, intent);
  }

  /** In such a run the store refuses no write. */
  lemma {:induction false} StoreNeverRefuses(device: string, moves: seq<Move>)
    requires PollsStartEmpty(device, moves)
    ensures RunHost(device, moves).faults == 0
  {
    hide Step, InOrder, GoesBack;
    if moves != [] {
      var before := moves[..|moves| - 1];
      PollsStartEmptyBefore(device, moves, |moves| - 1);
      StoreNeverRefuses(device, before);
      RunIsInOrder(device, before);
      RefusalMeansBehind(device, before, moves[|moves| - 1]);
      InOrderNeverGoesBack(RunHost(device, before), moves[|moves| - 1]);
    }
  }

  lemma InOrderNeverGoesBack(h: Host, move: Move)
    requires InOrder(h)
    ensures !GoesBack(h, move)
  {
  }
}
