/** When polls start with an empty mailbox, an intent is put on the board while its
    assignment is handled and stands; no later replay of the outbox adds one. */
module Timeliness {
  import opened Events
  import opened TaskView
  import opened Admission
  import opened Board
  import opened History
  import opened Store
  import opened Loop
  import opened AgentHost
  import opened Mailbox
  import opened Handling

  /** What the rule depends on. */
  datatype Desk = Desk(log: seq<Event>, offset: int, sessions: map<string, Session>, outbox: map<Place, Record>)

  function DeskOf(h: Host): Desk {
    Desk(h.board.log, h.disk.offset, h.disk.sessions, h.disk.outbox)
  }

  /** The gate refuses the intent for good. */
  predicate IsClosed(log: seq<Event>, x: IntentId) {
    var v := Fold(log, x.task, x.revision);
    v.terminal.Some? || v.epoch > x.epoch
  }

  /** The intent is on the board, or never will be. */
  predicate IsAnswered(log: seq<Event>, x: IntentId) {
    HasIntent(log, x) || IsClosed(log, x)
  }

  /** The session still proposes the intent, unless it is on the board. */
  predicate Awaits(log: seq<Event>, s: Session, x: IntentId) {
    s.epoch == x.epoch && (s.intent == Some(IntentSession(x, Proposed, None)) || HasIntent(log, x))
  }

  /** A staged intent is answered once its input is committed, and awaited before. */
  predicate RecordTimely(device: string, k: Desk, p: Place, x: IntentId) {
    && p in k.outbox && p.0 == x.task && k.outbox[p].source.Some?
    && var source := k.outbox[p].source.value;
       && source < |k.log| && GivesWork(device, k.log[source], x)
       && (if source <= k.offset then IsAnswered(k.log, x)
           else IsNext(k.log, k.offset, source) && x.task in k.sessions && Awaits(k.log, k.sessions[x.task], x))
  }

  predicate RecordsTimely(device: string, k: Desk) {
    forall p | p in k.outbox && p.1.IntentKey? :: RecordTimely(device, k, p, p.1.intent)
  }

  predicate IsStagedFor(k: Desk, p: Place, o: nat) {
    p in k.outbox && p.1.IntentKey? && k.outbox[p].source == Some(o)
  }

  /** The handling of the input may end: its staged intent is answered, and still awaited by
      the session that is about to be stored. */
  predicate MayEnd(k: Desk, w: Work) {
    forall p | p in k.outbox && IsStagedFor(k, p, w.offset) ::
      IsAnswered(k.log, p.1.intent) && (w.hasSubmit || Awaits(k.log, w.after, p.1.intent))
  }

  predicate PurposeTimely(k: Desk, place: Place, source: Option<nat>, purpose: Purpose) {
    match purpose
    case Replay(_) =>
      place.1.IntentKey? ==>
        place in k.outbox && k.outbox[place].source.Some? && k.outbox[place].source.value <= k.offset
    case Handle(w, next) => source == Some(w.offset) && (next.ToCheck? || (MayEnd(k, w) && !place.1.IntentKey?))
  }

  predicate PcTimely(k: Desk, pc: Pc) {
    match pc
    case Staging(e, source, purpose) =>
      e.key.Some? && PurposeTimely(k, (TaskOf(e.content), e.key.value), source, purpose)
    case Appending(place, _, source, purpose) => PurposeTimely(k, place, source, purpose)
    case StoringRaw(w, _) => MayEnd(k, w)
    case Judging(w, _) => MayEnd(k, w)
    case Finishing(w) => MayEnd(k, w)
    case Committing(w) => MayEnd(k, w)
    case Resolving(_) => NothingWaits(k)
    case RemovingRaw(_) => NothingWaits(k)
    case Cleaning(_) => NothingWaits(k)
    case _ => true
  }

  /** No staged intent belongs to an input that is not committed. */
  predicate NothingWaits(k: Desk) {
    forall p | p in k.outbox && p.1.IntentKey? :: k.outbox[p].source.Some? && k.outbox[p].source.value <= k.offset
  }

  predicate Timely(device: string, h: Host) {
    RecordsTimely(device, DeskOf(h)) && PcTimely(DeskOf(h), h.pc)
  }

  // ---------------------------------------------------------------------
  // The log only grows
  // ---------------------------------------------------------------------

  lemma ClosedForGood(log: seq<Event>, longer: seq<Event>, x: IntentId)
    requires AdmittedLog(longer) && log <= longer && IsClosed(log, x)
    ensures IsClosed(longer, x)
  {
    hide Fold, AdmittedLog;
    assert longer[..|log|] == log && longer[..|longer|] == longer;
    EpochGrows(longer, |log|, |longer|, x.task, x.revision);
    TaskIsKept(longer, |log|, |longer|, x.task, x.revision);
  }

  lemma IntentStays(log: seq<Event>, longer: seq<Event>, x: IntentId)
    requires log <= longer && HasIntent(log, x)
    ensures HasIntent(longer, x)
  {
    HasIntentGrows(log, longer[|log|..], x);
    assert log + longer[|log|..] == longer;
  }

  lemma AnswersStay(log: seq<Event>, longer: seq<Event>)
    requires AdmittedLog(longer) && log <= longer
    ensures forall x :: HasIntent(log, x) ==> HasIntent(longer, x)
    ensures forall x :: IsAnswered(log, x) ==> IsAnswered(longer, x)
  {
    hide HasIntent, IsClosed, AdmittedLog;
    forall x | IsAnswered(log, x)
      ensures IsAnswered(longer, x)
    {
      if IsClosed(log, x) {
        ClosedForGood(log, longer, x);
      } else {
        IntentStays(log, longer, x);
      }
    }
    forall x | HasIntent(log, x)
      ensures HasIntent(longer, x)
    {
      IntentStays(log, longer, x);
    }
  }

  lemma LogMayGrow(device: string, k: Desk, longer: seq<Event>, pc: Pc)
    requires AdmittedLog(longer) && k.log <= longer && RecordsTimely(device, k) && PcTimely(k, pc)
    ensures RecordsTimely(device, k.(log := longer)) && PcTimely(k.(log := longer), pc)
  {
    hide AdmittedLog, HasIntent, GivesWork, IsAnswered;
    AnswersStay(k.log, longer);
    forall p | p in k.outbox && p.1.IntentKey?
      ensures RecordTimely(device, k.(log := longer), p, p.1.intent)
    {
      assert RecordTimely(device, k, p, p.1.intent);
    }
  }

  // ---------------------------------------------------------------------
  // The decision of the loop
  // ---------------------------------------------------------------------

  /** An assignment that was submitted once, in the view of its own epoch, is never stale. */
  lemma OnlyClosedIsStale(device: string, log: seq<Event>, o: nat, x: IntentId, i: LoopInput)
    requires AdmittedLog(log) && o < |log| && GivesWork(device, log[o], x)
    requires i.event == log[o] && i.revision == x.revision && i.view == Fold(log, x.task, x.revision)
    requires i.session.epoch == x.epoch && IsStale(i)
    ensures IsClosed(log, x)
  {
    hide Fold, AdmittedLog, IsLegal;
    AdmittedAt(log, o);
    PlanIsComplete(log[o]);
    PlanStands(log, o, |log|, x.task, x.revision);
    assert log[..|log|] == log;
  }

  /** What the loop makes of an input whose intent is staged: it is submitted again, or the
      input may be committed. */
  lemma DecisionIsTimely(device: string, h: Host, o: nat, choice: Choice, p: Place)
    requires Sound(device, h) && IsNext(h.board.log, h.disk.offset, o) && TaskOf(h.board.log[o].content) != ""
    requires IsStagedFor(DeskOf(h), p, o) && RecordTimely(device, DeskOf(h), p, p.1.intent)
    requires LoopStep(device, InputAt(h, o, choice)).Stepped? && LoopStep(device, InputAt(h, o, choice)).consumed
    ensures var r := LoopStep(device, InputAt(h, o, choice));
            || (r.effect.Some? && r.effect.value.SubmitIntent?)
            || (r.effect.None? && IsAnswered(h.board.log, p.1.intent) && Awaits(h.board.log, r.after, p.1.intent))
  {
    hide Fold, AdmittedLog, IndexesExact, HasIntent, IsStale, IsLegal, IsUnambiguous, SessionsNamed, OutboxShaped,
      DispatchesSound, PcSound, EventError;
    var x := p.1.intent;
    var i := InputAt(h, o, choice);
    AdmittedAt(h.board.log, o);
    PlanIsComplete(h.board.log[o]);
    if i.view.terminal.None? && IsStale(i) {
      OnlyClosedIsStale(device, h.board.log, o, x, i);
    }
  }

  // ---------------------------------------------------------------------
  // Every step keeps the rule
  // ---------------------------------------------------------------------

  ghost predicate Prompt(device: string, h: Host) {
    Sound(device, h) && InOrder(h) && Timely(device, h)
  }

  lemma FrameIsTimely(device: string, h: Host, after: Host)
    requires Timely(device, h) && DeskOf(after) == DeskOf(h) && PcTimely(DeskOf(h), after.pc)
    ensures Timely(device, after)
  {
    hide RecordsTimely, PcTimely;
  }

  lemma TriggerNamesTask(device: string, log: seq<Event>, o: nat, x: IntentId)
    requires AdmittedLog(log) && o < |log| && Triggers(device, log[o], x)
    ensures x.task == TaskOf(log[o].content) != ""
  {
    hide AdmittedLog, GateError, IsFresh;
    AdmittedAt(log, o);
    assert PresentText(log[o].content.taskId);
  }

  /** The intents staged for the input in hand. */
  lemma StagedIsItsIntent(device: string, h: Host, p: Place, o: nat)
    requires RecordsTimely(device, DeskOf(h)) && IsStagedFor(DeskOf(h), p, o)
    ensures RecordTimely(device, DeskOf(h), p, p.1.intent) && o < |h.board.log|
    ensures Triggers(device, h.board.log[o], p.1.intent) && p.1.intent.task == TaskOf(h.board.log[o].content)
  {
    hide HasIntent, IsAnswered, Triggers, IsUnambiguous, IsLegal;
    assert RecordTimely(device, DeskOf(h), p, p.1.intent);
    TriggeredTask(device, h.board.log[o], p.1.intent);
  }

  lemma TriggeredIntent(device: string, e: Event, x: IntentId, y: IntentId)
    requires Triggers(device, e, x) && Triggers(device, e, y)
    ensures x == y
  {
  }

  /** Moving the offset to the next input, whose staged intents are answered. */
  lemma CommitIsPrompt(device: string, k: Desk, o: nat)
    requires RecordsTimely(device, k) && IsNext(k.log, k.offset, o)
    requires forall p | p in k.outbox && IsStagedFor(k, p, o) :: IsAnswered(k.log, p.1.intent)
    ensures RecordsTimely(device, k.(offset := o)) && NothingWaits(k.(offset := o))
  {
    hide GivesWork, IsAnswered, Awaits;
    forall p | p in k.outbox && p.1.IntentKey?
      ensures RecordTimely(device, k.(offset := o), p, p.1.intent)
    {
      assert RecordTimely(device, k, p, p.1.intent);
    }
  }

  /** Storing the session of the task at hand, which still awaits what is staged. */
  lemma SaveIsPrompt(device: string, h: Host, w: Work, s: Session)
    requires RecordsTimely(device, DeskOf(h)) && IsNext(h.board.log, h.disk.offset, w.offset)
    requires AtInput(h.board.log, w) && s.task == w.task
    requires forall p | p in h.disk.outbox && IsStagedFor(DeskOf(h), p, w.offset) :: Awaits(h.board.log, s, p.1.intent)
    ensures RecordsTimely(device, DeskOf(h).(sessions := h.disk.sessions[s.task := s]))
  {
    hide GivesWork, IsAnswered, Awaits;
    var k := DeskOf(h);
    forall p | p in k.outbox && p.1.IntentKey?
      ensures RecordTimely(device, k.(sessions := h.disk.sessions[s.task := s]), p, p.1.intent)
    {
      assert RecordTimely(device, k, p, p.1.intent);
      if k.outbox[p].source.value > k.offset {
        assert IsStagedFor(k, p, w.offset);
        StagedIsItsIntent(device, h, p, w.offset);
      }
    }
  }

  lemma OutboxMayShrink(device: string, k: Desk, gone: Place)
    requires RecordsTimely(device, k)
    ensures RecordsTimely(device, k.(outbox := k.outbox - {gone}))
    ensures NothingWaits(k) ==> NothingWaits(k.(outbox := k.outbox - {gone}))
  {
    hide GivesWork, IsAnswered, Awaits;
    forall p | p in k.outbox - {gone} && p.1.IntentKey?
      ensures RecordTimely(device, k.(outbox := k.outbox - {gone}), p, p.1.intent)
    {
      assert RecordTimely(device, k, p, p.1.intent);
    }
  }

  lemma BeginIsTimely(device: string, h: Host, o: nat, choice: Choice)
    requires Sound(device, h) && Timely(device, h) && h.pc.Ready? && IsNext(h.board.log, h.disk.offset, o)
    requires TaskOf(h.board.log[o].content) != ""
    ensures PcTimely(DeskOf(h), BeginWork(device, h, o, choice).pc)
  {
    hide LoopStep, Fold, AdmittedLog, IndexesExact, HasIntent, IsClosed, GivesWork, SessionsNamed, OutboxShaped,
      DispatchesSound, PcSound, EventError, RecordTimely, Awaits, InputAt;
    var r := LoopStep(device, InputAt(h, o, choice));
    if r.Stepped? && r.consumed {
      forall p | p in h.disk.outbox && IsStagedFor(DeskOf(h), p, o)
        ensures || (r.effect.Some? && r.effect.value.SubmitIntent?)
                || (r.effect.None? && IsAnswered(h.board.log, p.1.intent)
                    && Awaits(h.board.log, r.after, p.1.intent))
      {
        assert RecordTimely(device, DeskOf(h), p, p.1.intent);
        DecisionIsTimely(device, h, o, choice, p);
      }
      if r.effect.Some? && r.effect.value.AppendEvent? {
        BidKeyIsNoIntent(device, h, o, choice);
      }
    }
  }

  lemma BidKeyIsNoIntent(device: string, h: Host, o: nat, choice: Choice)
    requires o < |h.board.log| && LoopStep(device, InputAt(h, o, choice)).Stepped?
    requires LoopStep(device, InputAt(h, o, choice)).effect.Some?
    requires LoopStep(device, InputAt(h, o, choice)).effect.value.AppendEvent?
    ensures var e := LoopStep(device, InputAt(h, o, choice)).effect.value.event; e.key.Some? && e.key.value.BidKey?
  {
    hide Fold, IsStale;
  }

  lemma TakeIsTimely(device: string, h: Host, choice: Choice)
    requires Prompt(device, h) && h.pc.Ready?
    ensures Timely(device, TakeInput(device, h, choice))
  {
    hide BeginWork, RecordsTimely, SessionsNamed, OutboxShaped, DispatchesSound, AdmittedLog, IndexesExact, IsNext,
      LoopStep;
    if h.mailbox != [] && h.mailbox[0] < |h.board.log| {
      var o := h.mailbox[0];
      var taken := h.(mailbox := h.mailbox[1..]);
      FrameIsTimely(device, h, taken);
      if TaskOf(h.board.log[o].content) == "" {
        BlankIsPassed(device, taken, o, choice);
      } else {
        BeginIsTimely(device, taken, o, choice);
        BeginKeepsDesk(device, taken, o, choice);
        FrameIsTimely(device, taken, BeginWork(device, taken, o, choice));
      }
    }
  }

  lemma BeginKeepsDesk(device: string, h: Host, o: nat, choice: Choice)
    requires o < |h.board.log| && TaskOf(h.board.log[o].content) != ""
    ensures DeskOf(BeginWork(device, h, o, choice)) == DeskOf(h)
  {
    hide LoopStep, InputAt;
  }

  lemma BlankIsPassed(device: string, h: Host, o: nat, choice: Choice)
    requires Sound(device, h) && Timely(device, h) && h.pc.Ready? && o < |h.board.log|
    requires IsNext(h.board.log, h.disk.offset, o) && TaskOf(h.board.log[o].content) == ""
    ensures Timely(device, BeginWork(device, h, o, choice))
  {
    hide SessionsNamed, OutboxShaped, DispatchesSound, AdmittedLog, IndexesExact, LoopStep, Triggers, RecordsTimely,
      IsAnswered;
    forall p | p in h.disk.outbox
      ensures !IsStagedFor(DeskOf(h), p, o)
    {
      if IsStagedFor(DeskOf(h), p, o) {
        StagedIsItsIntent(device, h, p, o);
        TriggerNamesTask(device, h.board.log, o, p.1.intent);
      }
    }
    CommitIsPrompt(device, DeskOf(h), o);
  }

  /** The one intent of the input in hand is on the board. */
  lemma RecordedMayEnd(device: string, h: Host, w: Work, sub: Submission)
    requires RecordsTimely(device, DeskOf(h)) && Proposes(device, h.board.log, w, sub)
    requires HasIntent(h.board.log, sub.intent)
    ensures MayEnd(DeskOf(h), w)
  {
    hide HasIntent, Triggers, IsUnambiguous, IsLegal, RecordsTimely, RecordTimely, IsClosed;
    forall p | p in h.disk.outbox && IsStagedFor(DeskOf(h), p, w.offset)
      ensures IsAnswered(h.board.log, p.1.intent)
    {
      StagedIsItsIntent(device, h, p, w.offset);
      TriggeredIntent(device, h.board.log[w.offset], p.1.intent, sub.intent);
    }
  }

  /** A session that proposes the intent in hand, or marks it when it is on the board. */
  lemma ProposalIsAwaited(device: string, h: Host, w: Work, sub: Submission, s: Session)
    requires RecordsTimely(device, DeskOf(h)) && Proposes(device, h.board.log, w, sub)
    requires s.epoch == w.after.epoch && (s.intent == w.after.intent || HasIntent(h.board.log, sub.intent))
    ensures forall p | p in h.disk.outbox && IsStagedFor(DeskOf(h), p, w.offset) :: Awaits(h.board.log, s, p.1.intent)
  {
    hide HasIntent, Triggers, IsUnambiguous, IsLegal, RecordsTimely, RecordTimely;
    forall p | p in h.disk.outbox && IsStagedFor(DeskOf(h), p, w.offset)
      ensures Awaits(h.board.log, s, p.1.intent)
    {
      StagedIsItsIntent(device, h, p, w.offset);
      TriggeredIntent(device, h.board.log[w.offset], p.1.intent, sub.intent);
    }
  }

  lemma SaveProposedIsTimely(device: string, h: Host)
    requires Prompt(device, h) && h.pc.SavingProposed?
    ensures Timely(device, SaveProposed(h, h.pc.work, h.pc.sub))
  {
    hide Valid, SessionsNamed, OutboxShaped, DispatchesSound, GivesWork, Chain, IsNext, Awaits, RecordTimely;
    var w := h.pc.work;
    ProposalIsAwaited(device, h, w, h.pc.sub, w.after);
    SaveIsPrompt(device, h, w, w.after);
  }

  lemma NewRecordIsTimely(device: string, k: Desk, p: Place, r: Record)
    requires RecordsTimely(device, k) && p !in k.outbox
    requires p.1.IntentKey? ==> RecordTimely(device, k.(outbox := k.outbox[p := r]), p, p.1.intent)
    ensures RecordsTimely(device, k.(outbox := k.outbox[p := r]))
  {
    hide GivesWork, IsAnswered, Awaits;
    forall q | q in k.outbox[p := r] && q.1.IntentKey?
      ensures RecordTimely(device, k.(outbox := k.outbox[p := r]), q, q.1.intent)
    {
      if q != p {
        assert RecordTimely(device, k, q, q.1.intent);
      }
    }
  }

  lemma StageIsTimely(device: string, h: Host)
    requires Prompt(device, h) && h.pc.Staging?
    ensures Timely(device, Stage(h, h.pc.event, h.pc.source, h.pc.purpose))
  {
    hide Valid, SessionsNamed, OutboxShaped, DispatchesSound, GivesWork, Chain, HasIntent, RecordsTimely, IsClosed;
    var e := h.pc.event;
    var place := (TaskOf(e.content), e.key.value);
    if place !in h.disk.rejected && place !in h.disk.outbox {
      NewRecordIsTimely(device, DeskOf(h), place, Record(StoredForm(e), h.pc.source));
    }
  }

  lemma SubmitIsTimely(device: string, h: Host, choice: Choice)
    requires Prompt(device, h) && h.pc.Appending?
    ensures Timely(device, AdvanceTo(device, h, choice))
  {
    hide AppendTo, AdvanceTo, AdmittedLog, IndexesExact, SessionsNamed, OutboxShaped, DispatchesSound, PcSound, InOrder,
      RecordsTimely, MayEnd;
    AppendKeepsValid(h.board, h.pc.event, choice.now);
    AppendGrows(h.board, h.pc.event, choice.now);
    SubmitStep(device, h, choice);
    var after := AdvanceTo(device, h, choice);
    LogMayGrow(device, DeskOf(h), after.board.log, h.pc);
    if h.pc.purpose.Handle? {
      var w := h.pc.purpose.work;
      PendingIsImmaterial(DeskOf(after), w, w.pending + [h.pc.place]);
    }
  }

  lemma PendingIsImmaterial(k: Desk, w: Work, pending: seq<Place>)
    ensures MayEnd(k, w) ==> forall raw :: MayEnd(k, w.(pending := pending, raw := raw)) && MayEnd(k, w.(raw := raw))
  {
    hide IsAnswered, Awaits;
  }

  lemma ExecutionIsTimely(device: string, h: Host, choice: Choice)
    requires Prompt(device, h)
    ensures h.pc.Checking? ==> Timely(device, Check(h, h.pc.work, h.pc.sub, choice))
    ensures h.pc.Sending? ==> Timely(device, CountDispatch(h, h.pc.work, h.pc.sub))
    ensures h.pc.Judging? ==> Timely(device, Judge(h, h.pc.work, h.pc.sub, choice))
  {
    hide Valid, SessionsNamed, OutboxShaped, DispatchesSound, InOrder, HasIntent, RecordsTimely, MayEnd, Proposes;
    if h.pc.Checking? || h.pc.Sending? {
      RecordedMayEnd(device, h, h.pc.work, h.pc.sub);
    } else if h.pc.Judging? {
      PendingIsImmaterial(DeskOf(h), h.pc.work, h.pc.work.pending);
    }
  }

  lemma MarkIsTimely(device: string, h: Host)
    requires Prompt(device, h) && h.pc.Marking?
    ensures Timely(device, MarkDispatching(h, h.pc.work, h.pc.sub))
  {
    hide Valid, OutboxShaped, DispatchesSound, Chain, GivesWork, HasIntent, RecordsTimely, IsNext;
    var w := h.pc.work;
    var s := h.disk.sessions[w.task];
    var marked := s.(intent := Some(s.intent.value.(state := Dispatching)), version := s.version + 1);
    ProposalIsAwaited(device, h, w, h.pc.sub, marked);
    SaveIsPrompt(device, h, w, marked);
  }

  lemma SaveAfterIsTimely(device: string, h: Host)
    requires Prompt(device, h) && h.pc.Finishing?
    ensures Timely(device, SaveAfter(h, h.pc.work))
  {
    hide Valid, OutboxShaped, DispatchesSound, Chain, HasIntent, RecordsTimely, IsNext, IsAnswered, Awaits, MaySave;
    var w := h.pc.work;
    if w.hasSubmit {
      assert h.disk.sessions[w.task := h.disk.sessions[w.task]] == h.disk.sessions;
    } else {
      SaveIsPrompt(device, h, w, w.after);
    }
  }

  lemma CommitIsTimely(device: string, h: Host)
    requires Prompt(device, h) && h.pc.Committing?
    ensures Timely(device, CommitOffset(h, h.pc.work))
  {
    hide Sound, Chain, RecordsTimely, IsNext, IsAnswered;
    CommitIsPrompt(device, DeskOf(h), h.pc.work.offset);
  }

  lemma ClearingIsTimely(device: string, h: Host)
    requires Timely(device, h)
    ensures h.pc.Resolving? ==> Timely(device, Resolve(h, h.pc.work))
    ensures h.pc.ReplayResolving? ==>
              Timely(device, h.(disk := Resolved(h.disk, h.pc.place), pc := Replaying(h.pc.todo)))
    ensures h.pc.Unlinking? ==> Timely(device, h.(disk := Resolved(h.disk, h.pc.place), pc := Down))
  {
    hide RecordsTimely, NothingWaits;
    if h.pc.Resolving? && h.pc.work.pending != [] {
      OutboxMayShrink(device, DeskOf(h), h.pc.work.pending[0]);
    } else if h.pc.ReplayResolving? || h.pc.Unlinking? {
      OutboxMayShrink(device, DeskOf(h), h.pc.place);
    }
  }

  lemma CleanIsTimely(device: string, h: Host)
    requires Timely(device, h) && h.pc.Cleaning?
    ensures Timely(device, h.(disk := if h.pc.work.cleanup.Some? then Cleaned(h.disk, h.pc.work.cleanup.value)
                                      else h.disk,
                              pc := Ready))
  {
    hide GivesWork, IsAnswered, Awaits;
    var d := if h.pc.work.cleanup.Some? then Cleaned(h.disk, h.pc.work.cleanup.value) else h.disk;
    forall p | p in d.outbox && p.1.IntentKey?
      ensures RecordTimely(device, DeskOf(h.(disk := d)), p, p.1.intent)
    {
      assert RecordTimely(device, DeskOf(h), p, p.1.intent);
    }
  }

  lemma ReplayIsTimely(device: string, h: Host)
    requires Sound(device, h) && Timely(device, h) && h.pc.Replaying?
    ensures Timely(device, ReplayNext(h, h.pc.todo))
  {
    hide Valid, SessionsNamed, DispatchesSound, GivesWork, IsAnswered, Awaits;
    if h.pc.todo != [] && h.pc.todo[0] in h.disk.outbox && h.pc.todo[0].1.IntentKey? {
      assert RecordTimely(device, DeskOf(h), h.pc.todo[0], h.pc.todo[0].1.intent);
    }
    FrameIsTimely(device, h, ReplayNext(h, h.pc.todo));
  }

  lemma OtherStepIsTimely(device: string, h: Host, choice: Choice)
    requires Timely(device, h)
    requires h.pc.Down? || h.pc.Polling? || h.pc.Rejecting? || h.pc.StoringRaw? || h.pc.RemovingRaw?
    ensures Timely(device, AdvanceTo(device, h, choice))
  {
    hide RecordsTimely, MayEnd, NothingWaits, LoopStep, AppendTo, TakeInput, SaveProposed, Stage, Submit,
      MarkDispatching, CountDispatch, SaveAfter, CommitOffset, ReplayNext, Cleaned, Resolve, Judge, Check, Page,
      Deliver;
    FrameIsTimely(device, h, AdvanceTo(device, h, choice));
  }

  lemma AdvanceIsTimely(device: string, h: Host, choice: Choice)
    requires Prompt(device, h)
    ensures Timely(device, AdvanceTo(device, h, choice))
  {
    hide Sound, InOrder, Timely, LoopStep, AppendTo, TakeInput, SaveProposed, Stage, Submit, MarkDispatching,
      CountDispatch, SaveAfter, CommitOffset, ReplayNext, Cleaned, Judge, Check, Resolve, Resolved, PollBoard;
    ExecutionIsTimely(device, h, choice);
    match h.pc
    case Ready => TakeIsTimely(device, h, choice);
    case Replaying(_) => ReplayIsTimely(device, h);
    case ReplayResolving(_, _) => ClearingIsTimely(device, h);
    case SavingProposed(_, _) => SaveProposedIsTimely(device, h);
    case Staging(_, _, _) => StageIsTimely(device, h);
    case Appending(_, _, _, _) => SubmitIsTimely(device, h, choice);
    case Unlinking(_) => ClearingIsTimely(device, h);
    case Marking(_, _) => MarkIsTimely(device, h);
    case Finishing(_) => SaveAfterIsTimely(device, h);
    case Committing(_) => CommitIsTimely(device, h);
    case Resolving(_) => ClearingIsTimely(device, h);
    case Cleaning(_) => CleanIsTimely(device, h);
    case Checking(_, _) =>
    case Sending(_, _) =>
    case Judging(_, _) =>
    case _ => OtherStepIsTimely(device, h, choice);
  }

  lemma StepIsPrompt(device: string, h: Host, move: Move)
    requires Prompt(device, h) && StartsEmpty(h, move)
    ensures Prompt(device, Step(device, h, move))
  {
    hide AppendTo, AdvanceTo, InOrder, AdmittedLog, IndexesExact, SessionsNamed, OutboxShaped, DispatchesSound, PcSound,
      RecordsTimely, Lists;
    StepIsSound(device, h, move);
    StepIsInOrder(device, h, move);
    match move
    case Advance(choice) => AdvanceIsTimely(device, h, choice);
    case Environment(e, now) =>
      AppendKeepsValid(h.board, e, now);
      AppendGrows(h.board, e, now);
      LogMayGrow(device, DeskOf(h), AppendTo(h.board, e, now).0.log, h.pc);
    case _ =>
  }

  lemma {:induction false} RunIsPrompt(device: string, moves: seq<Move>)
    requires PollsStartEmpty(device, moves)
    ensures Prompt(device, RunHost(device, moves))
  {
    hide Step, Sound, InOrder, StartsEmpty;
    if moves == [] {
      RunIsSound(device, moves);
      RunIsInOrder(device, moves);
    } else {
      var before := moves[..|moves| - 1];
      PollsStartEmptyBefore(device, moves, |moves| - 1);
      RunIsPrompt(device, before);
      StepIsPrompt(device, RunHost(device, before), moves[|moves| - 1]);
    }
  }

  // ---------------------------------------------------------------------
  // The theorem
  // ---------------------------------------------------------------------

  lemma AnsweredIsNotAppended(b: State, e: Event, x: IntentId, now: real)
    requires Valid(b) && Shaped(e, IntentKey(x)) && IsAnswered(b.log, x)
    ensures !AppendTo(b, e, now).1.status.Appended?
  {
    hide EventError, AdmittedLog, IndexesExact, Fold, IdentityAnswer;
    AnswerMeansKnown(b, e);
    if HasIntent(b.log, x) {
      var i :| 0 <= i < |b.log| && IsIntentRecord(b.log[i], x);
      assert !IsFresh(b.log, e);
    }
  }

  /** In a run whose polls start with an empty mailbox, startup replay adds no intent to the
      board: a staged intent whose input is committed is there already, or is refused. */
  lemma ReplayAddsNoIntent(device: string, moves: seq<Move>, now: real)
    requires PollsStartEmpty(device, moves)
    requires var pc := RunHost(device, moves).pc; pc.Appending? && pc.purpose.Replay? && pc.event.kind.ActionIntent?
    ensures var h := RunHost(device, moves); !AppendTo(h.board, h.pc.event, now).1.status.Appended?
  {
    hide RunHost, PollsStartEmpty, AppendTo, AdmittedLog, IndexesExact, SessionsNamed, OutboxShaped, DispatchesSound,
      InOrder, IsAnswered, GivesWork, Awaits, IntentFits;
    var h := RunHost(device, moves);
    RunIsPrompt(device, moves);
    var x := h.pc.place.1.intent;
    assert RecordTimely(device, DeskOf(h), h.pc.place, x);
    AnsweredIsNotAppended(h.board, h.pc.event, x, now);
  }
}
