/** Stretches of an agent process that nothing interrupts: from an input to its commit. */
module Schedules {
  import opened Events
  import opened Board
  import opened Store
  import opened Loop
  import opened AgentHost
  import opened Mailbox

  /** Uninterrupted steps with the same answers lead from one state to the other. */
  ghost predicate Leads(device: string, h: Host, answer: Choice, after: Host) {
    exists n: nat :: Uninterrupted(device, h, answer, n) == after
  }

  lemma {:induction false} UninterruptedOn(device: string, h: Host, answer: Choice, m: nat, n: nat)
    ensures Uninterrupted(device, Uninterrupted(device, h, answer, m), answer, n) ==
            Uninterrupted(device, h, answer, m + n)
    decreases n
  {
    hide AdvanceTo;
    if n > 0 {
      UninterruptedOn(device, h, answer, m, n - 1);
    }
  }

  lemma LeadsOn(device: string, h: Host, answer: Choice, middle: Host, after: Host)
    requires Leads(device, h, answer, middle) && Leads(device, middle, answer, after)
    ensures Leads(device, h, answer, after)
  {
    hide AdvanceTo;
    var m: nat :| Uninterrupted(device, h, answer, m) == middle;
    var n: nat :| Uninterrupted(device, middle, answer, n) == after;
    UninterruptedOn(device, h, answer, m, n);
  }

  lemma LeadsOneStep(device: string, h: Host, answer: Choice)
    ensures Leads(device, h, answer, AdvanceTo(device, h, answer))
  {
    hide AdvanceTo;
    assert Uninterrupted(device, h, answer, 0) == h;
    assert Uninterrupted(device, h, answer, 1) == AdvanceTo(device, h, answer);
  }

  lemma LeadsOnBy(device: string, start: Host, answer: Choice, h: Host)
    requires Leads(device, start, answer, h)
    ensures Leads(device, start, answer, AdvanceTo(device, h, answer))
  {
    hide AdvanceTo, Leads;
    LeadsOneStep(device, h, answer);
    LeadsOn(device, start, answer, h, AdvanceTo(device, h, answer));
  }

  /** A run may be continued to wherever its last state leads. */
  lemma RunLeads(device: string, moves: seq<Move>, answer: Choice, after: Host) returns (longer: seq<Move>)
    requires Leads(device, RunHost(device, moves), answer, after)
    ensures RunHost(device, longer) == after
    ensures forall m | m in longer :: m in moves || m == Advance(answer)
  {
    hide RunHost, Uninterrupted;
    var n: nat :| Uninterrupted(device, RunHost(device, moves), answer, n) == after;
    longer := RunOn(device, moves, answer, n);
  }

  lemma Restarts(device: string, h: Host, order: seq<Place>)
    requires h.pc.Down? && Lists(order, h.disk)
    ensures Step(device, h, Restart(order, 100)) == h.(pc := Replaying(order), mailbox := [], maxsize := 100)
  {
    hide AdvanceTo;
  }

  lemma NothingListed()
    ensures Lists([], BLANK)
  {
  }

  // ---------------------------------------------------------------------
  // Taking up an input
  // ---------------------------------------------------------------------

  predicate HasHead(h: Host, o: nat) {
    h.pc.Ready? && h.mailbox != [] && h.mailbox[0] == o && o < |h.board.log| && TaskOf(h.board.log[o].content) != ""
  }

  function WorkOf(h: Host, o: nat, after: Session): Work
    requires o < |h.board.log|
  {
    Work(o, TaskOf(h.board.log[o].content), after, false, None, [], None)
  }

  /** Where the decision of the loop leaves the process. */
  lemma HeadIsTaken(device: string, h: Host, o: nat, answer: Choice)
    requires HasHead(h, o)
    ensures var r := LoopStep(device, InputAt(h, o, answer));
            r.Stepped? ==>
              AdvanceTo(device, h, answer) ==
              h.(mailbox := h.mailbox[1..],
                 pc := if !r.consumed then Polling
                       else
                         var work := WorkOf(h, o, r.after);
                         match r.effect
                         case None => Finishing(work)
                         case Some(AppendEvent(e)) => Staging(e, Some(o), Handle(work, ToFinish))
                         case Some(SubmitIntent(sub)) => SavingProposed(work.(hasSubmit := true), sub)
                         case Some(CleanupSession(t)) => Finishing(work.(cleanup := Some(t))))
  {
    hide AdvanceTo, LoopStep;
    OpeningStep(device, h, answer);
    assert InputAt(h.(mailbox := h.mailbox[1..]), o, answer) == InputAt(h, o, answer);
  }

  /** What the disk becomes when an input without output is committed. */
  function Committed(d: Disk, o: nat, s: Session, cleanup: Option<string>): Disk {
    var saved := Saved(d, s).(offset := o);
    if cleanup.Some? then Cleaned(saved, cleanup.value) else saved
  }

  lemma CommitLeads(device: string, h: Host, answer: Choice)
    requires h.pc.Finishing? && !h.pc.work.hasSubmit && h.pc.work.pending == [] && h.pc.work.raw.None?
    requires MaySave(h.disk.sessions, h.pc.work.after) && h.disk.offset <= h.pc.work.offset
    ensures var w := h.pc.work;
            Leads(device, h, answer, h.(disk := Committed(h.disk, w.offset, w.after, w.cleanup), pc := Ready))
  {
    hide AdvanceTo, Leads, MaySave, Cleaned;
    var w := h.pc.work;
    var saved := h.(disk := Saved(h.disk, w.after), pc := Committing(w));
    var committed := saved.(disk := Saved(h.disk, w.after).(offset := w.offset), pc := Resolving(w));
    ConclusionStep(device, h, answer);
    LeadsOneStep(device, h, answer);
    ConclusionStep(device, saved, answer);
    LeadsOnBy(device, h, answer, saved);
    ConclusionStep(device, committed, answer);
    LeadsOnBy(device, h, answer, committed);
    if w.cleanup.Some? {
      ConclusionStep(device, committed.(pc := Cleaning(w)), answer);
      LeadsOnBy(device, h, answer, committed.(pc := Cleaning(w)));
    }
  }

  /** An input that has no output, from the mailbox to its commit. */
  lemma QuietInputLeads(device: string, h: Host, o: nat, answer: Choice, cleanup: Option<string>)
    requires HasHead(h, o) && h.disk.offset <= o
    requires var r := LoopStep(device, InputAt(h, o, answer));
             && r.Stepped? && r.consumed && MaySave(h.disk.sessions, r.after)
             && r.effect == if cleanup.Some? then Some(CleanupSession(cleanup.value)) else None
    ensures var r := LoopStep(device, InputAt(h, o, answer));
            Leads(device, h, answer,
                  h.(mailbox := h.mailbox[1..], disk := Committed(h.disk, o, r.after, cleanup)))
  {
    hide AdvanceTo, Leads, LoopStep, InputAt, Cleaned, MaySave;
    HeadIsTaken(device, h, o, answer);
    LeadsOneStep(device, h, answer);
    var taken := AdvanceTo(device, h, answer);
    CommitLeads(device, taken, answer);
    LeadsOn(device, h, answer, taken, taken.(disk := Committed(h.disk, o, taken.pc.work.after, cleanup), pc := Ready));
  }

  // ---------------------------------------------------------------------
  // Carrying out a submission
  // ---------------------------------------------------------------------

  predicate IsFree(d: Disk, place: Place) {
    place !in d.outbox && place !in d.rejected
  }

  predicate IsAccepted(b: State, e: Event, now: real) {
    AppendTo(b, e, now).1.status.Appended? || AppendTo(b, e, now).1.status.DuplicateSame?
  }

  predicate IsOutput(e: Event) {
    e.key.Some? && TaskOf(e.content) != "" && StoredForm(e) == e
  }

  function PlaceOf(e: Event): Place {
    (TaskOf(e.content), GetOr(e.key, Named("")))
  }

  predicate IsPublishing(h: Host) {
    && h.pc.Staging? && h.pc.purpose.Handle?
    && IsOutput(h.pc.event) && IsFree(h.disk, PlaceOf(h.pc.event))
  }

  /** The output is staged and about to be submitted. */
  function Submitting(h: Host): Host
    requires IsPublishing(h)
  {
    var e, place := h.pc.event, PlaceOf(h.pc.event);
    h.(disk := h.disk.(outbox := h.disk.outbox[place := Record(e, h.pc.source)]),
       pc := Appending(place, e, h.pc.source, h.pc.purpose))
  }

  lemma StagingLeads(device: string, h: Host, answer: Choice)
    requires IsPublishing(h)
    ensures AdvanceTo(device, h, answer) == Submitting(h)
  {
    hide AdvanceTo;
    StageStep(device, h, answer);
  }

  /** The submission of an output that the board accepts. */
  lemma AcceptanceLeads(device: string, h: Host, answer: Choice) returns (after: Host)
    requires IsPublishing(h) && IsAccepted(h.board, h.pc.event, answer.now)
    ensures Leads(device, h, answer, after)
    ensures var w := h.pc.purpose.work;
            after == Submitting(h).(
                       board := AppendTo(h.board, h.pc.event, answer.now).0,
                       pc := Onward(w.(pending := w.pending + [PlaceOf(h.pc.event)]), h.pc.purpose.next),
                       submitted := after.submitted, mismatches := after.mismatches)
  {
    hide AdvanceTo, AppendTo, Leads, Onward;
    StagingLeads(device, h, answer);
    LeadsOneStep(device, h, answer);
    SubmitStep(device, Submitting(h), answer);
    LeadsOnBy(device, h, answer, Submitting(h));
    after := AdvanceTo(device, Submitting(h), answer);
  }

  predicate IsProposal(h: Host) {
    && h.pc.SavingProposed?
    && var w, sub := h.pc.work, h.pc.sub;
       && w.hasSubmit && w.pending == [] && w.raw.None? && w.after.task == w.task == sub.intent.task
       && w.task != ""
       && w.after.intent == Some(IntentSession(sub.intent, Proposed, None)) && MaySave(h.disk.sessions, w.after)
       && IsFree(h.disk, PlaceOf(IntentEvent(sub))) && IsFree(h.disk, PlaceOf(ReceiptEvent(sub, NO_REST)))
  }

  /** The session that marks the dispatch. */
  function Marked(s: Session): Session
    requires s.intent.Some?
  {
    s.(intent := Some(s.intent.value.(state := Dispatching)), version := s.version + 1)
  }

  /** The proposal is stored. */
  function Proposing(h: Host): Host
    requires h.pc.SavingProposed?
  {
    h.(disk := Saved(h.disk, h.pc.work.after),
       pc := Staging(IntentEvent(h.pc.sub), Some(h.pc.work.offset), Handle(h.pc.work, ToCheck(h.pc.sub))))
  }

  lemma ProposalLeads(device: string, h: Host, answer: Choice)
    requires IsProposal(h)
    ensures AdvanceTo(device, h, answer) == Proposing(h) && IsPublishing(Proposing(h))
  {
    hide AdvanceTo, MaySave;
    ExecutionStep(device, h, answer);
  }

  /** Cleared by the safety check, the intent is marked. */
  lemma MarkLeads(device: string, h: Host, answer: Choice)
    requires h.pc.Checking? && answer.allowed
    requires var w, sub := h.pc.work, h.pc.sub;
             && w.task in h.disk.sessions && h.disk.sessions[w.task] == w.after && w.after.task == w.task
             && sub.intent.task == w.task && w.after.intent == Some(IntentSession(sub.intent, Proposed, None))
    ensures var w, sub := h.pc.work, h.pc.sub;
            Leads(device, h, answer, h.(disk := Saved(h.disk, Marked(w.after)), pc := Sending(w, sub)))
  {
    hide AdvanceTo, Leads;
    var cleared := h.(pc := Marking(h.pc.work, h.pc.sub));
    ExecutionStep(device, h, answer);
    LeadsOneStep(device, h, answer);
    ExecutionStep(device, cleared, answer);
    LeadsOnBy(device, h, answer, cleared);
  }

  function KeepingRaw(h: Host, w: Work, sub: Submission): Host {
    CountDispatch(h, w, sub).(
      disk := h.disk.(rawReceipts := h.disk.rawReceipts + {(sub.intent.task, sub.intent)}),
      pc := Judging(w, sub))
  }

  /** Marked, it is handed over, and the device answers. */
  lemma SendLeads(device: string, h: Host, answer: Choice)
    requires h.pc.Sending? && answer.allowed
    ensures var w, sub := h.pc.work, h.pc.sub;
            Leads(device, h, answer,
                  KeepingRaw(h, w, sub).(
                    pc := Staging(ReceiptEvent(sub, Outcome(answer)), Some(w.offset),
                                  Handle(w.(raw := Some(sub.intent)), ToFinish))))
  {
    hide AdvanceTo, Leads, ReceiptEvent;
    var w, sub := h.pc.work, h.pc.sub;
    ExecutionStep(device, h, answer);
    LeadsOneStep(device, h, answer);
    ExecutionStep(device, CountDispatch(h, w, sub), answer);
    LeadsOnBy(device, h, answer, CountDispatch(h, w, sub));
    ExecutionStep(device, KeepingRaw(h, w, sub), answer);
    LeadsOnBy(device, h, answer, KeepingRaw(h, w, sub));
  }

  lemma DispatchLeads(device: string, h: Host, answer: Choice) returns (after: Host)
    requires h.pc.Checking? && answer.allowed
    requires var w, sub := h.pc.work, h.pc.sub;
             && w.task in h.disk.sessions && h.disk.sessions[w.task] == w.after && w.after.task == w.task
             && sub.intent.task == w.task && w.after.intent == Some(IntentSession(sub.intent, Proposed, None))
    ensures Leads(device, h, answer, after)
    ensures var w, sub := h.pc.work, h.pc.sub;
            && after == h.(disk := after.disk, dispatches := after.dispatches,
                           pc := Staging(ReceiptEvent(sub, Outcome(answer)), Some(w.offset),
                                         Handle(w.(raw := Some(sub.intent)), ToFinish)))
            && after.disk == h.disk.(sessions := h.disk.sessions[w.task := Marked(w.after)],
                                     rawReceipts := h.disk.rawReceipts + {(w.task, sub.intent)})
            && after.dispatches == CountDispatch(h, w, sub).dispatches
  {
    hide AdvanceTo, Leads, ReceiptEvent;
    var w, sub := h.pc.work, h.pc.sub;
    var marked := h.(disk := Saved(h.disk, Marked(w.after)), pc := Sending(w, sub));
    MarkLeads(device, h, answer);
    SendLeads(device, marked, answer);
    after := KeepingRaw(marked, w, sub).(
      pc := Staging(ReceiptEvent(sub, Outcome(answer)), Some(w.offset), Handle(w.(raw := Some(sub.intent)), ToFinish)));
    LeadsOn(device, h, answer, marked, after);
  }

  /** The disk while the intent, and then its receipt, wait for the commit. */
  function Executed(d: Disk, w: Work, sub: Submission): Disk
    requires w.after.intent.Some?
  {
    d.(sessions := d.sessions[w.task := Marked(w.after)],
       outbox := d.outbox[PlaceOf(IntentEvent(sub)) := Record(IntentEvent(sub), Some(w.offset))],
       rawReceipts := d.rawReceipts + {(w.task, sub.intent)})
  }

  /** An execution, from the proposal to the receipt. */
  lemma ExecutionLeads(device: string, h: Host, answer: Choice) returns (after: Host)
    requires IsProposal(h) && IsAccepted(h.board, IntentEvent(h.pc.sub), answer.now) && answer.allowed
    ensures Leads(device, h, answer, after)
    ensures var w, sub := h.pc.work, h.pc.sub;
            && after == h.(disk := Executed(h.disk, w, sub), dispatches := after.dispatches,
                           board := AppendTo(h.board, IntentEvent(sub), answer.now).0,
                           pc := Staging(ReceiptEvent(sub, Outcome(answer)), Some(w.offset),
                                         Handle(w.(pending := [PlaceOf(IntentEvent(sub))], raw := Some(sub.intent)),
                                                ToFinish)),
                           submitted := after.submitted, mismatches := after.mismatches)
            && after.dispatches == CountDispatch(h, w, sub).dispatches
            && IsPublishing(after)
  {
    hide AdvanceTo, AppendTo, Leads;
    ProposalLeads(device, h, answer);
    LeadsOneStep(device, h, answer);
    var accepted := AcceptanceLeads(device, Proposing(h), answer);
    LeadsOn(device, h, answer, Proposing(h), accepted);
    after := DispatchLeads(device, accepted, answer);
    LeadsOn(device, h, answer, accepted, after);
    var w, sub := h.pc.work, h.pc.sub;
    assert after.disk.sessions == h.disk.sessions[w.task := Marked(w.after)];
    assert [] + [PlaceOf(IntentEvent(sub))] == [PlaceOf(IntentEvent(sub))];
  }

  /** The receipt is accepted, and the commit is next. */
  lemma ReceiptLeads(device: string, h: Host, answer: Choice) returns (after: Host)
    requires IsPublishing(h) && h.pc.purpose.next.ToFinish? && IsAccepted(h.board, h.pc.event, answer.now)
    requires var w := h.pc.purpose.work;
             w.hasSubmit && w.task in h.disk.sessions && h.disk.sessions[w.task].task == w.task
    ensures Leads(device, h, answer, after)
    ensures var w := h.pc.purpose.work;
            after == Submitting(h).(
                       board := AppendTo(h.board, h.pc.event, answer.now).0,
                       pc := Committing(w.(pending := w.pending + [PlaceOf(h.pc.event)])),
                       submitted := after.submitted, mismatches := after.mismatches)
  {
    hide AdvanceTo, AppendTo, Leads;
    var accepted := AcceptanceLeads(device, h, answer);
    ConclusionStep(device, accepted, answer);
    LeadsOnBy(device, h, answer, accepted);
    after := AdvanceTo(device, accepted, answer);
    assert after.disk.sessions == h.disk.sessions;
  }

  lemma ResolveLeads(device: string, h: Host, answer: Choice)
    requires h.pc.Resolving? && |h.pc.work.pending| == 2
    ensures var w := h.pc.work;
            Leads(device, h, answer,
                  h.(disk := h.disk.(outbox := h.disk.outbox - {w.pending[0], w.pending[1]}),
                     pc := Resolving(w.(pending := []))))
  {
    hide AdvanceTo, Leads;
    var w := h.pc.work;
    var p, q := w.pending[0], w.pending[1];
    var first := h.(disk := Resolved(h.disk, p), pc := Resolving(w.(pending := [q])));
    assert w.pending == [p, q] && [p, q][1..] == [q] && [q][1..] == [];
    ConclusionStep(device, h, answer);
    LeadsOneStep(device, h, answer);
    ConclusionStep(device, first, answer);
    LeadsOnBy(device, h, answer, first);
    assert h.disk.outbox - {p} - {q} == h.disk.outbox - {p, q};
  }

  /** A commit with two outputs and a raw receipt. */
  lemma OutputsLead(device: string, h: Host, answer: Choice)
    requires h.pc.Committing? && |h.pc.work.pending| == 2 && h.pc.work.raw.Some? && h.pc.work.cleanup.None?
    requires h.disk.offset <= h.pc.work.offset
    ensures var w := h.pc.work;
            Leads(device, h, answer,
                  h.(disk := h.disk.(offset := w.offset, outbox := h.disk.outbox - {w.pending[0], w.pending[1]},
                                     rawReceipts := h.disk.rawReceipts - {(w.task, w.raw.value)}),
                     pc := Ready))
  {
    hide AdvanceTo, Leads;
    var w := h.pc.work;
    var rest := w.(pending := []);
    var committed := h.(disk := h.disk.(offset := w.offset), pc := Resolving(w));
    ConclusionStep(device, h, answer);
    LeadsOneStep(device, h, answer);
    ResolveLeads(device, committed, answer);
    var resolved := committed.(disk := committed.disk.(outbox := h.disk.outbox - {w.pending[0], w.pending[1]}),
                               pc := Resolving(rest));
    LeadsOn(device, h, answer, committed, resolved);
    ConclusionStep(device, resolved, answer);
    LeadsOnBy(device, h, answer, resolved);
    ConclusionStep(device, resolved.(pc := RemovingRaw(rest)), answer);
    LeadsOnBy(device, h, answer, resolved.(pc := RemovingRaw(rest)));
  }

  // ---------------------------------------------------------------------
  // Polling
  // ---------------------------------------------------------------------

  lemma PollLeads(device: string, h: Host, answer: Choice)
    requires h.pc.Polling? && answer.limit > 0
    requires var page := Page(h.board.log, h.disk.offset, Some(AGENT_TYPES), answer.limit);
             h.maxsize <= 0 || |h.mailbox| + |page| <= h.maxsize
    ensures var page := Page(h.board.log, h.disk.offset, Some(AGENT_TYPES), answer.limit);
            AdvanceTo(device, h, answer) == h.(mailbox := h.mailbox + Offsets(page), pc := Ready)
  {
    hide AdvanceTo, Page;
    OpeningStep(device, h, answer);
    DeliverFits(h.mailbox, Page(h.board.log, h.disk.offset, Some(AGENT_TYPES), answer.limit), h.maxsize);
  }

  lemma PageSteps(log: seq<Event>, cursor: int, limit: nat)
    requires -1 <= cursor
    ensures var page := Page(log, cursor, Some(AGENT_TYPES), limit);
            Offsets(page) ==
            if limit == 0 || cursor + 1 >= |log| then []
            else if IsAgentKind(log[cursor + 1].kind) then
              [cursor + 1] + Offsets(Page(log, cursor + 1, Some(AGENT_TYPES), limit - 1))
            else Offsets(Page(log, cursor + 1, Some(AGENT_TYPES), limit))
  {
    var page := Page(log, cursor, Some(AGENT_TYPES), limit);
    if limit > 0 && cursor + 1 < |log| && IsAgentKind(log[cursor + 1].kind) {
      assert page[1..] == Page(log, cursor + 1, Some(AGENT_TYPES), limit - 1);
    }
  }
}
