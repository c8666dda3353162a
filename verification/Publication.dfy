/** When polls start with an empty mailbox, under every schedule of crashes, restarts and
    foreign appends, the agent process submits one event per key: re-handling an input
    finds what was staged first, and the board never answers it with a conflict. */
module Publication {
  import opened Events
  import opened TaskView
  import opened Admission
  import opened Board
  import opened History
  import opened Store
  import opened Loop
  import opened AgentHost
  import opened Mailbox
  import opened Handling

  /** The keys that belong to one agent: those of its own bids and of the intents
      it owns. Every intent belongs to at most one device. */
  datatype Agent = Agent(device: string, intents: iset<IntentId>)

  ghost predicate Owns(a: Agent, key: Key) {
    match key
    case Named(_) => false
    case BidKey(_, _, _, _, device) => device == a.device
    case IntentKey(x) => x in a.intents
    case InterceptKey(x, _) => x in a.intents
    case ReceiptKey(x) => x in a.intents
  }

  function TaskOfKey(key: Key): string {
    match key
    case Named(_) => ""
    case BidKey(task, _, _, _, _) => task
    case IntentKey(x) => x.task
    case InterceptKey(x, _) => x.task
    case ReceiptKey(x) => x.task
  }

  /** The input that makes the agent produce the event of a key. */
  predicate Causes(a: Agent, e: Event, key: Key) {
    match key
    case Named(_) => false
    case BidKey(_, _, _, _, device) => Invites(e, key) && device == a.device
    case IntentKey(x) => Triggers(a.device, e, x)
    case InterceptKey(x, _) => Triggers(a.device, e, x)
    case ReceiptKey(x) => Triggers(a.device, e, x)
  }

  /** What the other clients of the board leave alone: they use no key of the agent
      and no identifier derived from one, and a plan that gives the agent work gives
      it intents of its own. */
  ghost predicate Respects(a: Agent, e: Event) {
    && (e.key.Some? ==> !Owns(a, e.key.value))
    && (e.id.Derived? ==> !Owns(a, e.id.key))
    && AssignsOwn(a, e)
  }

  ghost predicate AssignsOwn(a: Agent, e: Event) {
    forall x | Triggers(a.device, e, x) :: x in a.intents
  }

  // ---------------------------------------------------------------------
  // The invariant
  // ---------------------------------------------------------------------

  /** What the publication rule depends on. */
  datatype Shelf = Shelf(
    log: seq<Event>, offset: int, outbox: map<Place, Record>, rejected: map<Place, Record>,
    submitted: map<Key, Submitted>)

  function ShelfOf(h: Host): Shelf {
    Shelf(h.board.log, h.disk.offset, h.disk.outbox, h.disk.rejected, h.submitted)
  }

  /** An input already committed, or the next one. */
  predicate IsDue(log: seq<Event>, offset: int, source: Option<nat>) {
    && source.Some? && source.value < |log|
    && (source.value <= offset || IsNext(log, offset, source.value))
  }

  /** A committed event under a key of the agent is the one the agent submitted. */
  ghost predicate EventIsOwn(a: Agent, e: Event, submitted: map<Key, Submitted>) {
    && (e.key.Some? && Owns(a, e.key.value) ==>
          e.key.value in submitted && submitted[e.key.value].event == Canonical(e))
    && (e.id.Derived? && Owns(a, e.id.key) ==> e.key == Some(e.id.key))
    && AssignsOwn(a, e)
  }

  ghost predicate LogIsOwn(a: Agent, log: seq<Event>, submitted: map<Key, Submitted>) {
    forall i | 0 <= i < |log| :: EventIsOwn(a, log[i], submitted)
  }

  /** A submission was caused by its input; until that input is committed, the event
      is kept in the outbox or in quarantine. */
  ghost predicate SubmissionOk(a: Agent, s: Shelf, key: Key) {
    && key in s.submitted
    && Owns(a, key)
    && IsDue(s.log, s.offset, s.submitted[key].source)
    && Causes(a, s.log[s.submitted[key].source.value], key)
    && (s.submitted[key].source.value > s.offset ==>
          (TaskOfKey(key), key) in s.outbox || (TaskOfKey(key), key) in s.rejected)
  }

  ghost predicate SubmissionsOk(a: Agent, s: Shelf) {
    forall key | key in s.submitted :: SubmissionOk(a, s, key)
  }

  ghost predicate WellMade(a: Agent, e: Event, key: Key) {
    && e.key == Some(key) && e.id == Derived(key) && KindFits(key, e.kind)
    && Owns(a, key) && TaskOf(e.content) == TaskOfKey(key)
  }

  /** A staged event was caused by its input and agrees with what was submitted. */
  ghost predicate RecordOk(a: Agent, s: Shelf, p: Place) {
    && p in s.outbox
    && WellMade(a, s.outbox[p].event, p.1) && p.0 == TaskOfKey(p.1)
    && IsDue(s.log, s.offset, s.outbox[p].source)
    && Causes(a, s.log[s.outbox[p].source.value], p.1)
    && (p.1 in s.submitted ==> s.submitted[p.1].event == Canonical(s.outbox[p].event))
  }

  ghost predicate OutboxOk(a: Agent, s: Shelf) {
    forall p | p in s.outbox :: RecordOk(a, s, p)
  }

  predicate IsCommittedKey(log: seq<Event>, key: Key) {
    exists i | 0 <= i < |log| :: log[i].key == Some(key)
  }

  predicate AllCommitted(log: seq<Event>, pending: seq<Place>) {
    forall p | p in pending :: IsCommittedKey(log, p.1)
  }

  /** Nothing on the shelf waits for an uncommitted input. */
  predicate AllSettled(s: Shelf) {
    && (forall key | key in s.submitted :: s.submitted[key].source.Some? && s.submitted[key].source.value <= s.offset)
    && (forall p | p in s.outbox :: s.outbox[p].source.Some? && s.outbox[p].source.value <= s.offset)
  }

  predicate AtWork(log: seq<Event>, offset: int, w: Work) {
    IsNext(log, offset, w.offset) && AllCommitted(log, w.pending)
  }

  ghost predicate AtSubmission(a: Agent, log: seq<Event>, offset: int, w: Work, sub: Submission) {
    AtWork(log, offset, w) && Triggers(a.device, log[w.offset], sub.intent) && sub.intent in a.intents
  }

  /** A publication for a key: during replay the event is the staged one, while an
      input is handled the input is its cause. */
  ghost predicate PurposeFits(
    a: Agent, log: seq<Event>, offset: int, key: Key, source: Option<nat>, purpose: Purpose)
  {
    match purpose
    case Replay(_) => source.Some? && source.value <= offset
    case Handle(w, next) =>
      && source == Some(w.offset) && AtWork(log, offset, w) && Causes(a, log[w.offset], key)
      && match next
         case ToFinish => true
         case ToCheck(sub) => AtSubmission(a, log, offset, w, sub)
         case ToReceipt(sub, _) => AtSubmission(a, log, offset, w, sub)
  }

  ghost predicate PcFits(a: Agent, s: Shelf, pc: Pc) {
    match pc
    case ReplayResolving(place, _) =>
      && (place in s.outbox ==> s.outbox[place].source.Some? && s.outbox[place].source.value <= s.offset)
      && IsCommittedKey(s.log, place.1)
    case SavingProposed(w, sub) => AtSubmission(a, s.log, s.offset, w, sub)
    case Staging(e, source, purpose) =>
      && e.key.Some? && WellMade(a, e, e.key.value) && PurposeFits(a, s.log, s.offset, e.key.value, source, purpose)
      && (purpose.Replay? ==>
            var place := (TaskOf(e.content), e.key.value);
            place in s.outbox && s.outbox[place] == Record(e, source))
    case Appending(place, e, source, purpose) =>
      && WellMade(a, e, place.1) && PurposeFits(a, s.log, s.offset, place.1, source, purpose)
      && place in s.outbox && s.outbox[place].event == e
      && (purpose.Replay? ==> s.outbox[place].source == source)
    case Rejecting(place) => place in s.outbox
    case Unlinking(place) => place in s.rejected
    case Checking(w, sub) => AtSubmission(a, s.log, s.offset, w, sub)
    case Marking(w, sub) => AtSubmission(a, s.log, s.offset, w, sub)
    case Sending(w, sub) => AtSubmission(a, s.log, s.offset, w, sub)
    case StoringRaw(w, sub) => AtSubmission(a, s.log, s.offset, w, sub)
    case Judging(w, sub) => AtSubmission(a, s.log, s.offset, w, sub)
    case Finishing(w) => AtWork(s.log, s.offset, w)
    case Committing(w) => AtWork(s.log, s.offset, w)
    case Resolving(w) => AllSettled(s) && AllCommitted(s.log, w.pending)
    case RemovingRaw(_) => AllSettled(s)
    case Cleaning(_) => AllSettled(s)
    case _ => true
  }

  ghost predicate Orderly(a: Agent, h: Host) {
    && Valid(h.board)
    && LogIsOwn(a, h.board.log, h.submitted)
    && SubmissionsOk(a, ShelfOf(h))
    && OutboxOk(a, ShelfOf(h))
    && PcFits(a, ShelfOf(h), h.pc)
    && h.conflicts == 0 && h.mismatches == 0
  }

  // ---------------------------------------------------------------------
  // The log only grows
  // ---------------------------------------------------------------------

  lemma ShelfGrows(a: Agent, s: Shelf, more: seq<Event>)
    requires SubmissionsOk(a, s) && OutboxOk(a, s)
    ensures SubmissionsOk(a, s.(log := s.log + more)) && OutboxOk(a, s.(log := s.log + more))
  {
    hide Causes, Owns, WellMade, IsNext;
    var g := s.(log := s.log + more);
    NextGrows(s.log, more, s.offset);
    forall key | key in s.submitted
      ensures SubmissionOk(a, g, key)
    {
      assert SubmissionOk(a, s, key);
    }
    forall p | p in s.outbox
      ensures RecordOk(a, g, p)
    {
      assert RecordOk(a, s, p);
    }
  }

  lemma NextGrows(log: seq<Event>, more: seq<Event>, offset: int)
    ensures forall o: nat :: IsNext(log, offset, o) ==> IsNext(log + more, offset, o)
  {
  }

  lemma PcFitsGrows(a: Agent, s: Shelf, more: seq<Event>, pc: Pc)
    requires PcFits(a, s, pc)
    ensures PcFits(a, s.(log := s.log + more), pc)
  {
    hide Causes, Owns, WellMade, Triggers, IsCommittedKey;
    forall key | IsCommittedKey(s.log, key)
      ensures IsCommittedKey(s.log + more, key)
    {
      CommittedKeyGrows(s.log, more, key);
    }
  }

  lemma CommittedKeyGrows(log: seq<Event>, more: seq<Event>, key: Key)
    requires IsCommittedKey(log, key)
    ensures IsCommittedKey(log + more, key)
  {
    var i :| 0 <= i < |log| && log[i].key == Some(key);
    assert (log + more)[i].key == Some(key);
  }

  /** Each key has one cause in the log. */
  lemma CauseIsUnique(a: Agent, log: seq<Event>, i: nat, j: nat, key: Key)
    requires AdmittedLog(log) && i < |log| && j < |log|
    requires Causes(a, log[i], key) && Causes(a, log[j], key)
    ensures i == j
  {
    hide AdmittedLog, EventError, GateError, Triggers;
    match key
    case BidKey(task, revision, epoch, number, _) =>
      if i < j {
        RoundsAdvance(log, i, j, task, revision);
      } else if j < i {
        RoundsAdvance(log, j, i, task, revision);
      }
    case IntentKey(x) => TriggerIsUnique(a.device, a.device, log, i, j, x);
    case InterceptKey(x, _) => TriggerIsUnique(a.device, a.device, log, i, j, x);
    case ReceiptKey(x) => TriggerIsUnique(a.device, a.device, log, i, j, x);
    case _ =>
  }

  // ---------------------------------------------------------------------
  // Submitting
  // ---------------------------------------------------------------------

  /** An event that agrees with whatever is committed under its key, and whose
      identifier nobody else uses, is never in conflict. */
  lemma OwnEventNeverConflicts(b: State, e: Event, key: Key, now: real)
    requires Valid(b) && e.key == Some(key) && !IsTerminalKind(e.kind)
    requires forall i | 0 <= i < |b.log| && b.log[i].key == Some(key) :: Canonical(b.log[i]) == Canonical(e)
    requires forall i | 0 <= i < |b.log| && b.log[i].id == e.id :: b.log[i].key == Some(key)
    ensures !AppendTo(b, e, now).1.status.KeyConflict? && !AppendTo(b, e, now).1.status.TerminalConflict?
  {
    hide EventError, GateError, Canonical, IndexExact;
    if key in b.keys {
      IndexPointsIntoLog(b.log, b.keys, KeyName, key);
      LookupIsNamed(b.log, b.keys, KeyName, key);
    } else if e.id in b.ids {
      IndexPointsIntoLog(b.log, b.ids, IdName, e.id);
      LookupIsNamed(b.log, b.ids, IdName, e.id);
      assert KeyName(b.log[b.ids[e.id].offset]) == Some(key);
      LookupMeansNamed(b.log, b.keys, KeyName, key);
    }
  }

  lemma LookupIsNamed<K(!new)>(log: seq<Event>, index: map<K, Stored>, name: Event -> Option<K>, k: K)
    requires IndexExact(log, index, name) && k in index
    ensures index[k].offset < |log| && name(log[index[k].offset]) == Some(k)
  {
  }

  // ---------------------------------------------------------------------
  // Every step keeps the order
  // ---------------------------------------------------------------------

  lemma FrameIsOrderly(a: Agent, h: Host, after: Host)
    requires Orderly(a, h)
    requires after.board == h.board && ShelfOf(after) == ShelfOf(h)
    requires after.conflicts == h.conflicts && after.mismatches == h.mismatches
    requires PcFits(a, ShelfOf(h), after.pc)
    ensures Orderly(a, after)
  {
    hide Valid, LogIsOwn, SubmissionsOk, OutboxOk, PcFits;
  }

  /** Moving the offset to the next input leaves nothing waiting. */
  lemma ShelfSettles(a: Agent, s: Shelf, o: nat)
    requires SubmissionsOk(a, s) && OutboxOk(a, s) && IsNext(s.log, s.offset, o)
    ensures var t := s.(offset := o); AllSettled(t) && SubmissionsOk(a, t) && OutboxOk(a, t)
  {
    hide Causes, Owns, WellMade;
    var t := s.(offset := o);
    forall key | key in s.submitted
      ensures SubmissionOk(a, t, key) && t.submitted[key].source.Some? && t.submitted[key].source.value <= o
    {
      assert SubmissionOk(a, s, key);
    }
    forall p | p in s.outbox
      ensures RecordOk(a, t, p) && t.outbox[p].source.Some? && t.outbox[p].source.value <= o
    {
      assert RecordOk(a, s, p);
    }
  }

  lemma DecisionFits(a: Agent, h: Host, o: nat, choice: Choice)
    requires Orderly(a, h) && h.pc.Ready? && IsNext(h.board.log, h.disk.offset, o)
    requires TaskOf(h.board.log[o].content) != ""
    ensures PcFits(a, ShelfOf(h), BeginWork(a.device, h, o, choice).pc)
  {
    hide LoopStep, Fold, Triggers, Invites, SubmissionsOk, OutboxOk, AdmittedLog, IndexesExact, EventError;
    var e := h.board.log[o];
    var input := InputAt(h, o, choice);
    var r := LoopStep(a.device, input);
    if r.Stepped? && r.consumed && r.effect.Some? {
      AdmittedAt(h.board.log, o);
      assert EventIsOwn(a, e, h.submitted);
      if r.effect.value.SubmitIntent? {
        SubmissionIsOwnWork(a.device, input);
      }
      if r.effect.value.AppendEvent? {
        ViewTaskIsOwn(h.board.log, TaskOf(e.content), RevisionOf(e.content));
        AppendIsOwnBid(a.device, input);
        InvitedTask(e, r.effect.value.event.key.value);
      }
    }
  }

  lemma InvitedTask(e: Event, key: Key)
    requires Invites(e, key)
    ensures key.BidKey? && key.task == TaskOf(e.content)
  {
  }

  lemma BeginIsOrderly(a: Agent, h: Host, o: nat, choice: Choice)
    requires Orderly(a, h) && h.pc.Ready? && IsNext(h.board.log, h.disk.offset, o)
    ensures Orderly(a, BeginWork(a.device, h, o, choice))
  {
    hide Valid, LogIsOwn, SubmissionsOk, OutboxOk, LoopStep, InputAt;
    if TaskOf(h.board.log[o].content) == "" {
      ShelfSettles(a, ShelfOf(h), o);
    } else {
      DecisionFits(a, h, o, choice);
      FrameIsOrderly(a, h, BeginWork(a.device, h, o, choice));
    }
  }

  /** A key that is neither staged nor quarantined was submitted, if at all, for an input
      already committed. */
  lemma UnstagedIsUnsubmitted(a: Agent, s: Shelf, o: nat, key: Key)
    requires AdmittedLog(s.log) && SubmissionsOk(a, s) && o < |s.log| && Causes(a, s.log[o], key)
    requires (TaskOfKey(key), key) !in s.outbox && (TaskOfKey(key), key) !in s.rejected
    ensures key in s.submitted ==> o <= s.offset
  {
    hide AdmittedLog, Causes, Owns;
    if key in s.submitted {
      assert SubmissionOk(a, s, key);
      CauseIsUnique(a, s.log, s.submitted[key].source.value, o, key);
    }
  }

  lemma NewRecordIsOk(a: Agent, s: Shelf, p: Place, r: Record)
    requires OutboxOk(a, s) && SubmissionsOk(a, s) && p !in s.outbox
    requires WellMade(a, r.event, p.1) && p.0 == TaskOfKey(p.1) && p.1 !in s.submitted
    requires IsDue(s.log, s.offset, r.source) && Causes(a, s.log[r.source.value], p.1)
    ensures OutboxOk(a, s.(outbox := s.outbox[p := r])) && SubmissionsOk(a, s.(outbox := s.outbox[p := r]))
  {
    hide Causes, Owns, WellMade, IsDue;
    var t := s.(outbox := s.outbox[p := r]);
    forall q | q in t.outbox
      ensures RecordOk(a, t, q)
    {
      if q != p {
        assert RecordOk(a, s, q);
      }
    }
    forall key | key in t.submitted
      ensures SubmissionOk(a, t, key)
    {
      assert SubmissionOk(a, s, key);
    }
  }

  lemma StageIsOrderly(a: Agent, h: Host)
    requires Orderly(a, h) && h.pc.Staging?
    ensures Orderly(a, Stage(h, h.pc.event, h.pc.source, h.pc.purpose))
  {
    hide IndexesExact, AdmittedLog, LogIsOwn, Causes, Owns, AtSubmission, KindFits, AllCommitted, SubmissionsOk,
      OutboxOk;
    var e := h.pc.event;
    var place := (TaskOf(e.content), e.key.value);
    var s := ShelfOf(h);
    var after := Stage(h, e, h.pc.source, h.pc.purpose);
    if place in s.rejected {
      FrameIsOrderly(a, h, after);
    } else if place in s.outbox {
      StagedRecord(a, s, place);
      FrameIsOrderly(a, h, after);
    } else {
      UnstagedIsUnsubmitted(a, s, h.pc.purpose.work.offset, place.1);
      NewRecordIsOk(a, s, place, Record(StoredForm(e), h.pc.source));
    }
  }

  /** Nothing in the log contradicts a staged event. */
  lemma StagedNeverConflicts(a: Agent, h: Host, p: Place, now: real)
    requires Valid(h.board) && LogIsOwn(a, h.board.log, h.submitted) && RecordOk(a, ShelfOf(h), p)
    ensures var status := AppendTo(h.board, h.disk.outbox[p].event, now).1.status;
            !status.KeyConflict? && !status.TerminalConflict?
  {
    hide Valid, Owns, Causes, Canonical, AppendTo, IsDue;
    var e := h.disk.outbox[p].event;
    var log := h.board.log;
    forall i | 0 <= i < |log| && (log[i].key == Some(p.1) || log[i].id == e.id)
      ensures log[i].key == Some(p.1) && Canonical(log[i]) == Canonical(e)
    {
      assert EventIsOwn(a, log[i], h.submitted);
    }
    OwnEventNeverConflicts(h.board, e, p.1, now);
  }

  /** The history with the first submission of a staged event added. */
  lemma RememberIsOrderly(a: Agent, s: Shelf, p: Place, source: Option<nat>)
    requires SubmissionsOk(a, s) && OutboxOk(a, s) && p in s.outbox && p.1 !in s.submitted
    requires IsDue(s.log, s.offset, source) && Causes(a, s.log[source.value], p.1)
    ensures var t := s.(submitted := s.submitted[p.1 := Submitted(Canonical(s.outbox[p].event), source)]);
            SubmissionsOk(a, t) && OutboxOk(a, t)
  {
    hide Causes, Owns, WellMade, IsDue, Canonical;
    var t := s.(submitted := s.submitted[p.1 := Submitted(Canonical(s.outbox[p].event), source)]);
    assert RecordOk(a, s, p);
    WellMadeIsOwned(a, s.outbox[p].event, p.1);
    forall key | key in t.submitted
      ensures SubmissionOk(a, t, key)
    {
      if key != p.1 {
        assert SubmissionOk(a, s, key);
      }
    }
    forall q | q in t.outbox
      ensures RecordOk(a, t, q)
    {
      assert RecordOk(a, s, q);
    }
  }

  lemma WellMadeIsOwned(a: Agent, e: Event, key: Key)
    requires WellMade(a, e, key)
    ensures Owns(a, key) && e.key == Some(key)
  {
  }

  lemma SubmitKeepsLogOwn(a: Agent, h: Host, p: Place, now: real, submitted: map<Key, Submitted>)
    requires Valid(h.board) && LogIsOwn(a, h.board.log, h.submitted) && RecordOk(a, ShelfOf(h), p)
    requires forall key | key in h.submitted :: key in submitted && submitted[key] == h.submitted[key]
    requires p.1 in submitted && submitted[p.1].event == Canonical(h.disk.outbox[p].event)
    ensures var e := h.disk.outbox[p].event;
            LogIsOwn(a, AppendTo(h.board, e, now).0.log, submitted)
  {
    hide AppendTo, Valid, Owns, Causes, EventError, GateError, IsDue, AssignsOwn;
    var log := h.board.log;
    var e := h.disk.outbox[p].event;
    var after := AppendTo(h.board, e, now).0.log;
    AppendKeepsValid(h.board, e, now);
    forall i | 0 <= i < |after|
      ensures EventIsOwn(a, after[i], submitted)
    {
      if i < |log| {
        assert EventIsOwn(a, log[i], h.submitted);
      } else {
        OutputAssignsNothing(a, after[i]);
      }
    }
  }

  lemma OutputAssignsNothing(a: Agent, e: Event)
    requires !e.kind.TaskAssigned?
    ensures AssignsOwn(a, e)
  {
  }

  lemma AcceptedIsCommitted(b: State, e: Event, now: real, key: Key)
    requires Valid(b) && e.key == Some(key)
    requires AppendTo(b, e, now).1.status.Appended? || AppendTo(b, e, now).1.status.DuplicateSame?
    ensures IsCommittedKey(AppendTo(b, e, now).0.log, key)
  {
    hide AppendTo, Valid, Canonical;
    AcceptedMeansCommitted(b, e, now);
    var log := AppendTo(b, e, now).0.log;
    var i :| 0 <= i < |log| && Canonical(log[i]) == Canonical(e);
    SameBusinessEvent(log[i], e);
  }

  lemma AfterPublishingFits(a: Agent, s: Shelf, place: Place, source: Option<nat>, purpose: Purpose)
    requires PurposeFits(a, s.log, s.offset, place.1, source, purpose)
    requires purpose.Replay? && place in s.outbox ==> s.outbox[place].source == source
    requires IsCommittedKey(s.log, place.1)
    ensures PcFits(a, s, AfterPublishing(purpose, place, true))
  {
    hide IsCommittedKey, Triggers, IsNext;
  }

  /** The board after the append, seen from the shelf. */
  lemma AppendIsOrderly(a: Agent, h: Host, e: Event, now: real)
    requires Valid(h.board) && SubmissionsOk(a, ShelfOf(h)) && OutboxOk(a, ShelfOf(h)) && PcFits(a, ShelfOf(h), h.pc)
    ensures var s := ShelfOf(h).(log := AppendTo(h.board, e, now).0.log);
            SubmissionsOk(a, s) && OutboxOk(a, s) && PcFits(a, s, h.pc) && Valid(AppendTo(h.board, e, now).0)
            && |s.log| >= |h.board.log|
  {
    hide AppendTo, Valid, SubmissionsOk, OutboxOk, PcFits;
    AcceptedMeansCommitted(h.board, e, now);
    var log := AppendTo(h.board, e, now).0.log;
    var more := log[|h.board.log|..];
    assert h.board.log + more == log;
    ShelfGrows(a, ShelfOf(h), more);
    PcFitsGrows(a, ShelfOf(h), more, h.pc);
  }

  lemma SubmitIsOrderly(a: Agent, h: Host, now: real)
    requires Orderly(a, h) && h.pc.Appending?
    ensures Orderly(a, Submit(h, h.pc.place, h.pc.event, h.pc.source, h.pc.purpose, now))
  {
    hide AppendTo, Valid, LogIsOwn, SubmissionsOk, OutboxOk, Owns, Causes, AfterPublishing, IsCommittedKey, Canonical,
      AtSubmission, AllCommitted, RecordOk;
    var e := h.pc.event;
    var place := h.pc.place;
    var (b1, r) := AppendTo(h.board, e, now);
    var after := Submit(h, place, e, h.pc.source, h.pc.purpose, now);
    StagedRecord(a, ShelfOf(h), place);
    StagedNeverConflicts(a, h, place, now);
    AppendIsOrderly(a, h, e, now);
    var grown := ShelfOf(h).(log := b1.log);
    StagedRecord(a, grown, place);
    if place.1 !in h.submitted {
      RememberIsOrderly(a, grown, place, h.pc.source);
    }
    SubmitKeepsLogOwn(a, h, place, now, after.submitted);
    if r.status.Appended? || r.status.DuplicateSame? {
      AcceptedIsCommitted(h.board, e, now, place.1);
      AfterPublishingFits(a, ShelfOf(after), place, h.pc.source, h.pc.purpose);
    }
  }

  lemma StagedRecord(a: Agent, s: Shelf, p: Place)
    requires OutboxOk(a, s) && p in s.outbox
    ensures RecordOk(a, s, p)
    ensures IsDue(s.log, s.offset, s.outbox[p].source) && Causes(a, s.log[s.outbox[p].source.value], p.1)
    ensures p.1 in s.submitted ==> s.submitted[p.1].event == Canonical(s.outbox[p].event)
  {
    assert RecordOk(a, s, p);
  }

  /** Removing a record is harmless when its input is committed or it is in quarantine. */
  lemma RemovalIsOrderly(a: Agent, s: Shelf, p: Place)
    requires AdmittedLog(s.log) && SubmissionsOk(a, s) && OutboxOk(a, s)
    requires p in s.outbox ==> p in s.rejected || (s.outbox[p].source.Some? && s.outbox[p].source.value <= s.offset)
    ensures SubmissionsOk(a, s.(outbox := s.outbox - {p})) && OutboxOk(a, s.(outbox := s.outbox - {p}))
  {
    hide AdmittedLog, Causes, Owns, WellMade, IsNext;
    var t := s.(outbox := s.outbox - {p});
    forall key | key in t.submitted
      ensures SubmissionOk(a, t, key)
    {
      assert SubmissionOk(a, s, key);
      if p == (TaskOfKey(key), key) && p in s.outbox {
        assert RecordOk(a, s, p);
        CauseIsUnique(a, s.log, s.submitted[key].source.value, s.outbox[p].source.value, key);
      }
    }
    forall q | q in t.outbox
      ensures RecordOk(a, t, q)
    {
      assert RecordOk(a, s, q);
    }
  }

  lemma ReplayResolvingIsOrderly(a: Agent, h: Host)
    requires Orderly(a, h) && h.pc.ReplayResolving?
    ensures Orderly(a, h.(disk := Resolved(h.disk, h.pc.place), pc := Replaying(h.pc.todo)))
  {
    hide IndexesExact, AdmittedLog, LogIsOwn, SubmissionsOk, OutboxOk;
    RemovalIsOrderly(a, ShelfOf(h), h.pc.place);
  }

  lemma ResolveIsOrderly(a: Agent, h: Host)
    requires Orderly(a, h) && h.pc.Resolving?
    ensures Orderly(a, Resolve(h, h.pc.work))
  {
    hide IndexesExact, AdmittedLog, LogIsOwn, SubmissionsOk, OutboxOk, IsCommittedKey;
    if h.pc.work.pending != [] {
      RemovalIsOrderly(a, ShelfOf(h), h.pc.work.pending[0]);
    } else {
      FrameIsOrderly(a, h, Resolve(h, h.pc.work));
    }
  }

  lemma QuarantineIsOrderly(a: Agent, h: Host)
    requires Orderly(a, h)
    ensures h.pc.Rejecting? && h.pc.place in h.disk.outbox ==>
              Orderly(a, h.(disk := Quarantined(h.disk, h.pc.place), pc := Unlinking(h.pc.place)))
    ensures h.pc.Unlinking? ==> Orderly(a, h.(disk := Resolved(h.disk, h.pc.place), pc := Down))
  {
    hide IndexesExact, AdmittedLog, LogIsOwn, Owns, Causes, WellMade, IsDue, RecordOk;
    if h.pc.Unlinking? {
      RemovalIsOrderly(a, ShelfOf(h), h.pc.place);
    } else if h.pc.Rejecting? && h.pc.place in h.disk.outbox {
      var s := ShelfOf(h);
      var t := s.(rejected := s.rejected[h.pc.place := s.outbox[h.pc.place]]);
      forall key | key in s.submitted
        ensures SubmissionOk(a, t, key)
      {
        assert SubmissionOk(a, s, key);
      }
      RejectedIsImmaterial(a, s, t.rejected);
    }
  }

  lemma RejectedIsImmaterial(a: Agent, s: Shelf, rejected: map<Place, Record>)
    requires OutboxOk(a, s)
    ensures OutboxOk(a, s.(rejected := rejected))
  {
    hide Owns, Causes, WellMade, IsDue;
    forall p | p in s.outbox
      ensures RecordOk(a, s.(rejected := rejected), p)
    {
      assert RecordOk(a, s, p);
    }
  }

  lemma CleanIsOrderly(a: Agent, h: Host)
    requires Orderly(a, h) && h.pc.Cleaning?
    ensures Orderly(a, h.(disk := if h.pc.work.cleanup.Some? then Cleaned(h.disk, h.pc.work.cleanup.value) else h.disk,
                          pc := Ready))
  {
    hide Valid, LogIsOwn, Owns, Causes, WellMade, IsDue, OutboxOk;
    var d := if h.pc.work.cleanup.Some? then Cleaned(h.disk, h.pc.work.cleanup.value) else h.disk;
    var s := ShelfOf(h);
    RejectedIsImmaterial(a, s, d.rejected);
    forall key | key in s.submitted
      ensures SubmissionOk(a, s.(rejected := d.rejected), key)
    {
      assert SubmissionOk(a, s, key);
    }
  }

  lemma CommitIsOrderly(a: Agent, h: Host)
    requires Orderly(a, h) && h.pc.Committing?
    ensures Orderly(a, CommitOffset(h, h.pc.work))
  {
    hide Valid, LogIsOwn, SubmissionsOk, OutboxOk, AllSettled, IsCommittedKey;
    ShelfSettles(a, ShelfOf(h), h.pc.work.offset);
  }

  lemma ReplayIsOrderly(a: Agent, h: Host)
    requires Orderly(a, h) && h.pc.Replaying?
    ensures Orderly(a, ReplayNext(h, h.pc.todo))
  {
    hide Valid, LogIsOwn, SubmissionsOk, Owns, Causes;
    if h.pc.todo != [] && h.pc.todo[0] in h.disk.outbox {
      assert RecordOk(a, ShelfOf(h), h.pc.todo[0]);
    }
    FrameIsOrderly(a, h, ReplayNext(h, h.pc.todo));
  }

  /** The steps of an execution that leave the shelf alone. */
  lemma ExecutionIsOrderly(a: Agent, h: Host, choice: Choice)
    requires Orderly(a, h)
    ensures h.pc.SavingProposed? ==> Orderly(a, SaveProposed(h, h.pc.work, h.pc.sub))
    ensures h.pc.Checking? ==> Orderly(a, Check(h, h.pc.work, h.pc.sub, choice))
  {
    hide Valid, LogIsOwn, SubmissionsOk, OutboxOk, Triggers, IsNext, AllCommitted, MaySave;
  }

  lemma DispatchIsOrderly(a: Agent, h: Host)
    requires Orderly(a, h)
    ensures h.pc.Marking? ==> Orderly(a, MarkDispatching(h, h.pc.work, h.pc.sub))
    ensures h.pc.Sending? ==> Orderly(a, CountDispatch(h, h.pc.work, h.pc.sub))
  {
    hide Valid, LogIsOwn, SubmissionsOk, OutboxOk, AtSubmission;
  }

  lemma ConclusionIsOrderly(a: Agent, h: Host, choice: Choice)
    requires Orderly(a, h)
    ensures h.pc.Judging? ==> Orderly(a, Judge(h, h.pc.work, h.pc.sub, choice))
    ensures h.pc.Finishing? ==> Orderly(a, SaveAfter(h, h.pc.work))
  {
    hide Valid, LogIsOwn, SubmissionsOk, OutboxOk, Triggers, IsNext, AllCommitted, MaySave;
  }

  lemma TakeIsOrderly(a: Agent, h: Host, choice: Choice)
    requires Orderly(a, h) && InOrder(h) && h.pc.Ready?
    ensures Orderly(a, TakeInput(a.device, h, choice))
  {
    hide Valid, LogIsOwn, SubmissionsOk, OutboxOk, BeginWork, IsNext;
    if h.mailbox != [] && h.mailbox[0] < |h.board.log| {
      var taken := h.(mailbox := h.mailbox[1..]);
      FrameIsOrderly(a, h, taken);
      BeginIsOrderly(a, taken, h.mailbox[0], choice);
    } else {
      FrameIsOrderly(a, h, TakeInput(a.device, h, choice));
    }
  }

  lemma PollIsOrderly(a: Agent, h: Host, limit: nat)
    requires Orderly(a, h) && h.pc.Polling?
    ensures Orderly(a, PollBoard(h, limit))
  {
    hide Valid, LogIsOwn, SubmissionsOk, OutboxOk, Page, Deliver;
    FrameIsOrderly(a, h, PollBoard(h, limit));
  }

  lemma AdvanceIsOrderly(a: Agent, h: Host, choice: Choice)
    requires Orderly(a, h) && InOrder(h)
    ensures Orderly(a, AdvanceTo(a.device, h, choice))
  {
    hide Orderly, InOrder, LoopStep, AppendTo, TakeInput, PollBoard, SaveProposed, Stage, Submit, MarkDispatching,
      CountDispatch, SaveAfter, CommitOffset, ReplayNext, Cleaned, Judge, Check, Resolve, Resolved, Quarantined;
    match h.pc
    case Polling => PollIsOrderly(a, h, choice.limit);
    case Ready => TakeIsOrderly(a, h, choice);
    case Replaying(_) => ReplayIsOrderly(a, h);
    case ReplayResolving(_, _) => ReplayResolvingIsOrderly(a, h);
    case Staging(_, _, _) => StageIsOrderly(a, h);
    case Appending(_, _, _, _) => SubmitIsOrderly(a, h, choice.now);
    case Rejecting(_) => RejectingIsOrderly(a, h, choice);
    case Unlinking(_) => QuarantineIsOrderly(a, h);
    case Resolving(_) => ResolveIsOrderly(a, h);
    case Committing(_) => CommitIsOrderly(a, h);
    case Cleaning(_) => CleanIsOrderly(a, h);
    case StoringRaw(_, _) => RawIsOrderly(a, h, choice);
    case RemovingRaw(_) => RawIsOrderly(a, h, choice);
    case Down =>
    case _ =>
      ExecutionIsOrderly(a, h, choice);
      DispatchIsOrderly(a, h);
      ConclusionIsOrderly(a, h, choice);
  }

  lemma RejectingIsOrderly(a: Agent, h: Host, choice: Choice)
    requires Orderly(a, h) && h.pc.Rejecting?
    ensures Orderly(a, AdvanceTo(a.device, h, choice))
  {
    hide Valid, LogIsOwn, SubmissionsOk, OutboxOk, Quarantined, AppendTo, LoopStep;
    QuarantineIsOrderly(a, h);
  }

  lemma RawIsOrderly(a: Agent, h: Host, choice: Choice)
    requires Orderly(a, h) && (h.pc.StoringRaw? || h.pc.RemovingRaw?)
    ensures Orderly(a, AdvanceTo(a.device, h, choice))
  {
    hide Valid, LogIsOwn, SubmissionsOk, OutboxOk, AppendTo, LoopStep, AllSettled, AtSubmission;
  }

  ghost predicate MoveRespects(a: Agent, move: Move) {
    move.Environment? ==> Respects(a, move.event)
  }

  lemma ForeignAppendIsOrderly(a: Agent, h: Host, e: Event, now: real)
    requires Orderly(a, h) && Respects(a, e)
    ensures Orderly(a, h.(board := AppendTo(h.board, e, now).0))
  {
    hide AppendTo, Valid, SubmissionsOk, OutboxOk, PcFits, Owns, Triggers, EventError, GateError;
    AppendIsOrderly(a, h, e, now);
    AppendKeepsValid(h.board, e, now);
    var log := AppendTo(h.board, e, now).0.log;
    forall i | 0 <= i < |log|
      ensures EventIsOwn(a, log[i], h.submitted)
    {
      if i < |h.board.log| {
        assert EventIsOwn(a, h.board.log[i], h.submitted);
      } else {
        StampKeepsTriggers(a, e, |h.board.log|, now);
      }
    }
  }

  lemma StampKeepsTriggers(a: Agent, e: Event, n: nat, now: real)
    requires AssignsOwn(a, e)
    ensures AssignsOwn(a, Stamped(e, n, now))
  {
    forall x | Triggers(a.device, Stamped(e, n, now), x)
      ensures x in a.intents
    {
      assert Triggers(a.device, e, x);
    }
  }

  lemma StepIsOrderly(a: Agent, h: Host, move: Move)
    requires Orderly(a, h) && InOrder(h) && MoveRespects(a, move)
    ensures Orderly(a, Step(a.device, h, move))
  {
    hide AppendTo, AdvanceTo, Valid, LogIsOwn, SubmissionsOk, OutboxOk, Lists;
    match move
    case Advance(choice) => AdvanceIsOrderly(a, h, choice);
    case Environment(e, now) => ForeignAppendIsOrderly(a, h, e, now);
    case _ =>
  }

  lemma {:induction false} RunIsOrderly(a: Agent, moves: seq<Move>)
    requires forall move | move in moves :: MoveRespects(a, move)
    requires PollsStartEmpty(a.device, moves)
    ensures Orderly(a, RunHost(a.device, moves))
  {
    hide Step, MoveRespects, InOrder, StartsEmpty;
    if moves != [] {
      PollsStartEmptyBefore(a.device, moves, |moves| - 1);
      RunIsOrderly(a, moves[..|moves| - 1]);
      RunIsInOrder(a.device, moves[..|moves| - 1]);
      StepIsOrderly(a, RunHost(a.device, moves[..|moves| - 1]), moves[|moves| - 1]);
    }
  }

  // ---------------------------------------------------------------------
  // The theorems
  // ---------------------------------------------------------------------

  /** The step submits the event to the board. */
  predicate Submits(h: Host, move: Move, e: Event) {
    move.Advance? && h.pc.Appending? && h.pc.event == e
  }

  lemma StepKeepsSubmitted(device: string, h: Host, move: Move, key: Key)
    requires key in h.submitted
    ensures var after := Step(device, h, move);
            key in after.submitted && after.submitted[key] == h.submitted[key]
  {
    hide AppendTo, TakeInput, PollBoard, Cleaned, Resolved, Quarantined, Lists, SaveProposed, Stage, Submit, Check,
      MarkDispatching, CountDispatch, Judge, SaveAfter, CommitOffset, Resolve, ReplayNext;
    if move.Advance? {
      PublishingKeepsSubmitted(h, move.choice);
      HandlingKeepsSubmitted(device, h, move.choice);
      ClosingKeepsSubmitted(h, move.choice);
    }
  }

  lemma PublishingKeepsSubmitted(h: Host, choice: Choice)
    ensures h.pc.Staging? ==> Stage(h, h.pc.event, h.pc.source, h.pc.purpose).submitted == h.submitted
    ensures h.pc.Appending? ==>
              var after := Submit(h, h.pc.place, h.pc.event, h.pc.source, h.pc.purpose, choice.now);
              && after.submitted == Remember(h, h.pc.place.1, h.pc.event, h.pc.source).submitted
              && forall key | key in h.submitted :: key in after.submitted && after.submitted[key] == h.submitted[key]
  {
    hide AppendTo, StagedEvent, Staged, AfterPublishing, Canonical;
  }

  lemma HandlingKeepsSubmitted(device: string, h: Host, choice: Choice)
    ensures TakeInput(device, h, choice).submitted == h.submitted
    ensures h.pc.SavingProposed? ==> SaveProposed(h, h.pc.work, h.pc.sub).submitted == h.submitted
    ensures h.pc.Checking? ==> Check(h, h.pc.work, h.pc.sub, choice).submitted == h.submitted
    ensures h.pc.Marking? ==> MarkDispatching(h, h.pc.work, h.pc.sub).submitted == h.submitted
    ensures h.pc.Sending? ==> CountDispatch(h, h.pc.work, h.pc.sub).submitted == h.submitted
    ensures h.pc.Judging? ==> Judge(h, h.pc.work, h.pc.sub, choice).submitted == h.submitted
  {
    hide LoopStep, InputAt, Saved, MaySave, ReceiptEvent, IntentEvent, InterceptEvent;
  }

  lemma ClosingKeepsSubmitted(h: Host, choice: Choice)
    ensures h.pc.Replaying? ==> ReplayNext(h, h.pc.todo).submitted == h.submitted
    ensures h.pc.Finishing? ==> SaveAfter(h, h.pc.work).submitted == h.submitted
    ensures h.pc.Committing? ==> CommitOffset(h, h.pc.work).submitted == h.submitted
    ensures h.pc.Resolving? ==> Resolve(h, h.pc.work).submitted == h.submitted
    ensures PollBoard(h, choice.limit).submitted == h.submitted
  {
    hide Saved, MaySave, Resolved, Page, Deliver;
  }

  lemma {:induction false} RunKeepsSubmitted(device: string, moves: seq<Move>, n: nat, key: Key)
    requires n <= |moves| && key in RunHost(device, moves[..n]).submitted
    ensures var first := RunHost(device, moves[..n]);
            var last := RunHost(device, moves);
            key in last.submitted && last.submitted[key] == first.submitted[key]
    decreases |moves|
  {
    hide Step;
    if n == |moves| {
      assert moves[..n] == moves;
    } else {
      var before := moves[..|moves| - 1];
      assert before[..n] == moves[..n];
      RunKeepsSubmitted(device, before, n, key);
      StepKeepsSubmitted(device, RunHost(device, before), moves[|moves| - 1], key);
    }
  }

  lemma PrefixRespects(a: Agent, moves: seq<Move>, n: nat)
    requires n <= |moves| && forall move | move in moves :: MoveRespects(a, move)
    ensures forall move | move in moves[..n] :: MoveRespects(a, move)
  {
  }

  /** Whatever the agent submits carries its key, agrees with its first submission
      under that key, and is not answered with a conflict. */
  lemma SubmissionAgrees(a: Agent, moves: seq<Move>, move: Move, e: Event)
    requires forall m | m in moves :: MoveRespects(a, m)
    requires PollsStartEmpty(a.device, moves)
    requires Submits(RunHost(a.device, moves), move, e)
    ensures var h := RunHost(a.device, moves);
            var after := Step(a.device, h, move);
            var status := AppendTo(h.board, e, move.choice.now).1.status;
            && e.key.Some? && Owns(a, e.key.value)
            && e.key.value in after.submitted && after.submitted[e.key.value].event == Canonical(e)
            && !status.KeyConflict? && !status.TerminalConflict?
  {
    hide AppendTo, Valid, LogIsOwn, SubmissionsOk, OutboxOk, Causes, Owns, AtSubmission, RecordOk, Submit, IsDue,
      Canonical;
    var h := RunHost(a.device, moves);
    RunIsOrderly(a, moves);
    StagedRecord(a, ShelfOf(h), h.pc.place);
    WellMadeIsOwned(a, e, h.pc.place.1);
    StagedNeverConflicts(a, h, h.pc.place, move.choice.now);
    PublishingKeepsSubmitted(h, move.choice);
  }

  /** Two submissions of one run under the same key are the same business event,
      whatever crashed, was restarted, recomputed or appended by others in between. */
  lemma ResubmissionIsSame(a: Agent, moves: seq<Move>, m: nat, n: nat, first: Event, again: Event)
    requires forall move | move in moves :: MoveRespects(a, move)
    requires PollsStartEmpty(a.device, moves)
    requires m <= n < |moves|
    requires Submits(RunHost(a.device, moves[..m]), moves[m], first)
    requires Submits(RunHost(a.device, moves[..n]), moves[n], again)
    requires first.key == again.key
    ensures Canonical(first) == Canonical(again)
  {
    hide Step, Submits, Canonical, Owns, AppendTo;
    PrefixRespects(a, moves, m);
    PrefixRespects(a, moves, n);
    PollsStartEmptyBefore(a.device, moves, m);
    PollsStartEmptyBefore(a.device, moves, n);
    SubmissionAgrees(a, moves[..m], moves[m], first);
    SubmissionAgrees(a, moves[..n], moves[n], again);
    assert moves[..m + 1][..m] == moves[..m] && moves[..n + 1][..n] == moves[..n];
    assert moves[..n + 1][..m + 1] == moves[..m + 1];
    RunKeepsSubmitted(a.device, moves[..n + 1], m + 1, first.key.value);
  }

  /** A record leaves the outbox only into quarantine, or when its input has been
      committed and its event is on the board. */
  lemma OutboxLosesOnlyCommitted(a: Agent, moves: seq<Move>, move: Move, p: Place)
    requires forall m | m in moves :: MoveRespects(a, m)
    requires PollsStartEmpty(a.device, moves)
    requires p in RunHost(a.device, moves).disk.outbox
    requires p !in Step(a.device, RunHost(a.device, moves), move).disk.outbox
    ensures var h := RunHost(a.device, moves);
            var record := h.disk.outbox[p];
            || p in h.disk.rejected
            || (record.source.Some? && record.source.value <= h.disk.offset
                && exists i :: 0 <= i < |h.board.log| && Canonical(h.board.log[i]) == Canonical(record.event))
  {
    hide Valid, SubmissionsOk, OutboxOk, Owns, Causes, AppendTo, LoopStep, RecordOk, Canonical, LogIsOwn, EventIsOwn,
      IsDue, RunHost, Step, PollsStartEmpty;
    var h := RunHost(a.device, moves);
    RunIsOrderly(a, moves);
    RemovalPoints(a.device, h, move, p);
    StagedRecord(a, ShelfOf(h), p);
    if h.pc.Unlinking? {
    } else if h.pc.Resolving? {
      assert p in h.pc.work.pending;
      CommittedIsStaged(a, h, p);
    } else {
      CommittedIsStaged(a, h, p);
    }
  }

  /** The steps that take a record out of the outbox. */
  lemma RemovalPoints(device: string, h: Host, move: Move, p: Place)
    requires p in h.disk.outbox && p !in Step(device, h, move).disk.outbox
    ensures move.Advance?
    ensures || (h.pc.Unlinking? && h.pc.place == p)
            || (h.pc.ReplayResolving? && h.pc.place == p)
            || (h.pc.Resolving? && h.pc.work.pending != [] && h.pc.work.pending[0] == p)
  {
    hide AppendTo, TakeInput, PollBoard, Lists, SaveProposed, Stage, Submit, Check, MarkDispatching, CountDispatch,
      Judge, SaveAfter, CommitOffset, ReplayNext, Resolve, Cleaned, Quarantined;
    match move
    case Advance(choice) =>
      if h.pc.Resolving? {
        ResolveTakesFirst(h, h.pc.work, p);
      } else if h.pc.Polling? || h.pc.Ready? {
        OpeningKeepsOutbox(device, h, choice, p);
      } else if h.pc.Staging? || h.pc.Appending? || h.pc.Replaying? {
        PublishingKeepsOutbox(h, choice, p);
      } else if h.pc.Rejecting? || h.pc.Cleaning? {
        QuarantineKeepsOutbox(h.disk);
      } else {
        HandlingKeepsOutbox(h, choice, p);
      }
    case _ =>
  }

  lemma ResolveTakesFirst(h: Host, work: Work, p: Place)
    requires p in h.disk.outbox
    ensures p !in Resolve(h, work).disk.outbox ==> work.pending != [] && work.pending[0] == p
  {
  }

  lemma QuarantineKeepsOutbox(d: Disk)
    ensures forall task :: Cleaned(d, task).outbox == d.outbox
    ensures forall q :: Quarantined(d, q).outbox == d.outbox
  {
  }

  lemma PublishingKeepsOutbox(h: Host, choice: Choice, p: Place)
    requires p in h.disk.outbox
    ensures h.pc.Staging? ==> p in Stage(h, h.pc.event, h.pc.source, h.pc.purpose).disk.outbox
    ensures h.pc.Appending? ==>
              p in Submit(h, h.pc.place, h.pc.event, h.pc.source, h.pc.purpose, choice.now).disk.outbox
    ensures h.pc.Replaying? ==> p in ReplayNext(h, h.pc.todo).disk.outbox
  {
    hide AppendTo, StagedEvent, AfterPublishing, Canonical;
  }

  lemma OpeningKeepsOutbox(device: string, h: Host, choice: Choice, p: Place)
    requires p in h.disk.outbox
    ensures p in TakeInput(device, h, choice).disk.outbox
    ensures p in PollBoard(h, choice.limit).disk.outbox
  {
    hide LoopStep, InputAt, Page, Deliver;
  }

  lemma HandlingKeepsOutbox(h: Host, choice: Choice, p: Place)
    requires p in h.disk.outbox
    ensures h.pc.SavingProposed? ==> p in SaveProposed(h, h.pc.work, h.pc.sub).disk.outbox
    ensures h.pc.Checking? ==> p in Check(h, h.pc.work, h.pc.sub, choice).disk.outbox
    ensures h.pc.Marking? ==> p in MarkDispatching(h, h.pc.work, h.pc.sub).disk.outbox
    ensures h.pc.Sending? ==> p in CountDispatch(h, h.pc.work, h.pc.sub).disk.outbox
    ensures h.pc.Judging? ==> p in Judge(h, h.pc.work, h.pc.sub, choice).disk.outbox
    ensures h.pc.Finishing? ==> p in SaveAfter(h, h.pc.work).disk.outbox
    ensures h.pc.Committing? ==> p in CommitOffset(h, h.pc.work).disk.outbox
  {
    hide MaySave, ReceiptEvent, IntentEvent, InterceptEvent;
  }

  lemma CommittedIsStaged(a: Agent, h: Host, p: Place)
    requires LogIsOwn(a, h.board.log, h.submitted) && RecordOk(a, ShelfOf(h), p)
    requires IsCommittedKey(h.board.log, p.1)
    ensures exists i :: 0 <= i < |h.board.log| && Canonical(h.board.log[i]) == Canonical(h.disk.outbox[p].event)
  {
    hide Owns, Causes, Canonical, IsDue, AssignsOwn;
    var i :| 0 <= i < |h.board.log| && h.board.log[i].key == Some(p.1);
    assert EventIsOwn(a, h.board.log[i], h.submitted);
  }

  /** An input is committed only when every output it counts as published is on the
      board. */
  lemma CommitComesAfterOutputs(a: Agent, moves: seq<Move>)
    requires forall m | m in moves :: MoveRespects(a, m)
    requires PollsStartEmpty(a.device, moves)
    requires RunHost(a.device, moves).pc.Committing?
    ensures var h := RunHost(a.device, moves);
            forall p | p in h.pc.work.pending :: IsCommittedKey(h.board.log, p.1)
  {
    hide RunHost, PollsStartEmpty, Valid, LogIsOwn, SubmissionsOk, OutboxOk, IsCommittedKey;
    RunIsOrderly(a, moves);
  }
}
