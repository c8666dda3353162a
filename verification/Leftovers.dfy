/** What a mailbox does that still holds inputs when the next poll reads behind the committed
    offset: an input is handled again after its commit, or passed over for good. */
module Leftovers {
  import opened Events
  import opened TaskView
  import opened Admission
  import opened Board
  import opened Store
  import opened Loop
  import opened AgentHost
  import opened Mailbox
  import opened Handling
  import opened DispatchSafety
  import opened Fleet
  import opened Publication
  import opened Schedules
  import opened Patrol

  // ---------------------------------------------------------------------
  // Inputs passed over
  // ---------------------------------------------------------------------

  lemma SendingIsInHand(device: string, h: Host, move: Move, i: nat, intent: IntentId)
    requires Sound(device, h) && Sends(h, move, intent)
    requires i < |h.board.log| && Triggers(device, h.board.log[i], intent)
    ensures InHand(h.pc) == Some(i)
  {
    hide SessionsNamed, OutboxShaped, DispatchesSound, HasIntent, Holds, Triggers, IsUnambiguous, IsLegal, AdmittedLog,
      IndexesExact;
    TriggerIsUnique(device, device, h.board.log, i, h.pc.work.offset, intent);
  }

  lemma StepKeepsEvents(device: string, h: Host, move: Move)
    ensures h.board.log <= Step(device, h, move).board.log
  {
    hide Step, AppendTo;
    var e, now := MoveAppendsOnce(device, h, move);
    AppendGrows(h.board, e, now);
  }

  /** Whatever happens afterwards, the intent of an input that was passed over is not
      dispatched any more. */
  lemma {:induction false} PassedIsNeverSent(
      device: string, moves: seq<Move>, more: seq<Move>, i: nat, intent: IntentId)
    requires var h := RunHost(device, moves);
             Passed(h, i) && i < |h.board.log| && Triggers(device, h.board.log[i], intent)
    ensures Sent(device, moves + more, intent) == Sent(device, moves, intent)
    ensures var h := RunHost(device, moves + more);
            Passed(h, i) && i < |h.board.log| && Triggers(device, h.board.log[i], intent)
    decreases |more|
  {
    hide Step, Passed, Triggers, Sends;
    if more == [] {
      assert moves + more == moves;
    } else {
      var before := more[..|more| - 1];
      var last := more[|more| - 1];
      PassedIsNeverSent(device, moves, before, i, intent);
      assert moves + more == (moves + before) + [last];
      var h := RunHost(device, moves + before);
      RunGoesOn(device, moves + before, last, intent);
      RunIsSound(device, moves + before);
      StepKeepsPassed(device, h, last, i);
      StepKeepsEvents(device, h, last);
      if Sends(h, last, intent) {
        SendingIsInHand(device, h, last, i, intent);
        PassedIsNotInHand(h, i);
      }
    }
  }

  lemma PassedIsNotInHand(h: Host, i: nat)
    requires Passed(h, i)
    ensures InHand(h.pc) != Some(i)
  {
  }

  lemma RunGoesOn(device: string, moves: seq<Move>, last: Move, intent: IntentId)
    ensures RunHost(device, moves + [last]) == Step(device, RunHost(device, moves), last)
    ensures Sent(device, moves + [last], intent) ==
            Sent(device, moves, intent) + if Sends(RunHost(device, moves), last, intent) then 1 else 0
  {
    hide Step, Sends;
    assert (moves + [last])[..|moves|] == moves;
  }

  // ---------------------------------------------------------------------
  // An input handled again
  // ---------------------------------------------------------------------

  const X := IntentId("patrol", 1, 1, "a1", 1)
  const SUB := Submission(X, "p1", WATCH)
  const INTENT := IntentEvent(SUB)
  const RECEIPT := ReceiptEvent(SUB, Outcome(GO))

  /** After the deadline of the round; what the checks allow, the device answers, later
      perhaps otherwise. */
  const GO := Choice(100, 20.0, true, NO_REST, NO_REST)
  const OTHERWISE := GO.(outcome := NO_REST.(details := NO_DETAILS.(success := true, certainty := "confirmed")))
  const OTHER_RECEIPT := ReceiptEvent(SUB, Outcome(OTHERWISE))
  const LOG8 := LOG7 + [Stamped(INTENT, 7, 20.0)]
  const LOG9 := LOG8 + [Stamped(RECEIPT, 8, 20.0)]

  const SEEN := Observe("patrol", 1)
  const ACTIVE := SEEN.(revision := 1, epoch := 1, state := Active, assignment := Some(WATCH),
                        intent := Some(IntentSession(X, Proposed, None)), version := 2)

  /** The disk after the round, after the assignment, and after the failure of the second
      revision. */
  const DISK1 := BLANK.(sessions := map["patrol" := SEEN], offset := 1)
  const DISK4 := BLANK.(sessions := map["patrol" := Marked(ACTIVE)], offset := 4)
  const DISK6 := BLANK.(offset := 6)

  function Count(h: Host): nat {
    if X in h.dispatches then h.dispatches[X].count else 0
  }

  ghost predicate Is(h: Host, disk: Disk, log: seq<Event>, pc: Pc, mailbox: seq<nat>, sent: nat) {
    && h.disk == disk && Valid(h.board) && h.board.log == log && h.pc == pc && h.mailbox == mailbox
    && h.maxsize == 100 && Count(h) == sent && h.faults == 0 && h.conflicts == 0
  }

  // ---------------------------------------------------------------------
  // What the loop makes of the inputs
  // ---------------------------------------------------------------------

  lemma RoundIsLate(h: Host)
    requires LOG2 <= h.board.log
    ensures LoopStep("d1", InputAt(h, 1, GO)) == Stepped(None, LoadSession(h.disk, "patrol", 1), true)
  {
    hide Fold;
    assert h.board.log[1] == LOG2[1] == Stamped(OPENED, 1, 0.0);
  }

  lemma SurveyWaits(h: Host)
    requires LOG4 <= h.board.log && ReplanPending(Fold(h.board.log, "survey", 1))
    ensures LoopStep("d1", InputAt(h, 3, GO)) == Stepped(None, LoadSession(h.disk, "survey", 1), false)
  {
    hide Fold;
    assert h.board.log[3] == LOG4[3] == Stamped(SURVEYED, 3, 0.0);
  }

  lemma PatrolWaits(h: Host)
    requires LOG5 <= h.board.log && ReplanPending(Fold(h.board.log, "patrol", 1))
    ensures LoopStep("d1", InputAt(h, 4, GO)) == Stepped(None, LoadSession(h.disk, "patrol", 1), false)
  {
    hide Fold;
    assert h.board.log[4] == LOG5[4] == Stamped(ASSIGNED, 4, 0.0);
  }

  predicate StandsIn(v: View) {
    v.plan == Some(ASSIGNED.content) && v.epoch == 1 && v.terminal.None? && v.pending == []
  }

  /** While the plan stands, a session that knows nothing of it is told to go. */
  lemma PatrolIsSubmitted(h: Host, s: Session)
    requires LOG5 <= h.board.log && StandsIn(Fold(h.board.log, "patrol", 1))
    requires LoadSession(h.disk, "patrol", 1) == s && s == SEEN.(version := s.version)
    ensures LoopStep("d1", InputAt(h, 4, GO)) ==
            Stepped(Some(SubmitIntent(SUB)), ACTIVE.(version := s.version + 1), true)
  {
    hide Fold;
    assert h.board.log[4] == LOG5[4] == Stamped(ASSIGNED, 4, 0.0);
    var plan := [WATCH];
    assert LastById(plan, "a1") == Some(WATCH);
    assert FirstFor(plan, "d1") == Some(WATCH);
    assert IsLegal(WATCH);
  }

  lemma FailureCleansUp(h: Host)
    requires LOG7 <= h.board.log
    ensures var s := LoadSession(h.disk, "patrol", 2);
            LoopStep("d1", InputAt(h, 6, GO)) ==
            Stepped(Some(CleanupSession(s.task)), s.(state := SessionFailed, version := s.version + 1), true)
  {
    hide Fold;
    assert h.board.log[6] == LOG7[6] == Stamped(FAILED_AGAIN, 6, 0.0);
  }

  // ---------------------------------------------------------------------
  // The outputs on the board
  // ---------------------------------------------------------------------

  lemma IntentIsLegal()
    ensures EventError(INTENT).None? && IsOutput(INTENT)
  {
    hide EventError;
    assert "patrol"[0] == 'p' && "p1"[0] == 'p' && "a1"[0] == 'a' && "d1"[0] == 'd';
    IntentIsWellFormed(SUB);
  }

  lemma ReceiptIsLegal()
    ensures EventError(RECEIPT).None? && EventError(OTHER_RECEIPT).None? && IsOutput(RECEIPT)
  {
    assert "patrol"[0] == 'p' && "p1"[0] == 'p' && "a1"[0] == 'a';
  }

  lemma FreshIsAppended(b: State, e: Event, now: real)
    requires Valid(b) && EventError(e).None? && IsFresh(b.log, e) && GateError(b.log, e).None? && now >= 0.0
    ensures IsAccepted(b, e, now) && Valid(AppendTo(b, e, now).0)
    ensures AppendTo(b, e, now).0.log == b.log + [Stamped(e, |b.log|, now)]
  {
    hide EventError, GateError, IsFresh, IdentityAnswer, AdmittedLog, IndexesExact;
    AnswerMeansKnown(b, e);
    AppendKeepsValid(b, e, now);
  }

  lemma KnownIsAccepted(b: State, n: nat, e: Event, now: real)
    requires Valid(b) && n < |b.log| && Canonical(e) == Canonical(b.log[n])
    ensures IsAccepted(b, e, now) && AppendTo(b, e, now).0 == b
  {
    hide EventError, GateError, IdentityAnswer, Valid;
    AcceptedIsDuplicate(b, n, e);
  }

  /** The plan stands on any log that adds to the history only what leaves it alone. */
  lemma IntentPasses(log: seq<Event>)
    requires Fold(log, "patrol", 1).plan == Some(ASSIGNED.content) && Fold(log, "patrol", 1).epoch == 1
    requires Fold(log, "patrol", 1).task.Some? && Fold(log, "patrol", 1).terminal.None?
    ensures GateError(log, INTENT).None?
  {
    hide Fold;
    assert FindAssignment([WATCH], "a1") == Some(WATCH);
  }

  lemma NewOnBoard()
    ensures IsFresh(LOG7, INTENT) && IsFresh(LOG8, RECEIPT)
  {
  }

  lemma LaterViews()
    ensures StandsIn(Fold(LOG7, "patrol", 1)) && StandsIn(Fold(LOG9, "patrol", 1))
    ensures ReplanPending(Fold(LOG7, "survey", 1)) && ReplanPending(Fold(LOG9, "survey", 1))
    ensures Fold(LOG7, "patrol", 1).task.Some?
  {
    hide Fold;
    PatrolView();
    SurveyView();
    FoldNext(LOG7, Stamped(INTENT, 7, 20.0), "patrol", 1);
    FoldNext(LOG8, Stamped(RECEIPT, 8, 20.0), "patrol", 1);
    SurveyGoesOn(LOG7, Stamped(INTENT, 7, 20.0));
    SurveyGoesOn(LOG8, Stamped(RECEIPT, 8, 20.0));
  }

  // ---------------------------------------------------------------------
  // The stretches of the run
  // ---------------------------------------------------------------------

  lemma Polls(h: Host, disk: Disk, log: seq<Event>, mailbox: seq<nat>, sent: nat, more: seq<nat>) returns (after: Host)
    requires Is(h, disk, log, Polling, mailbox, sent)
    requires Offsets(Page(log, disk.offset, Some(AGENT_TYPES), 100)) == more && |mailbox| + |more| <= 100
    ensures Leads("d1", h, GO, after) && Is(after, disk, log, Ready, mailbox + more, sent)
  {
    hide AdvanceTo, Leads, Valid, Page;
    PollLeads("d1", h, GO);
    LeadsOneStep("d1", h, GO);
    after := AdvanceTo("d1", h, GO);
  }

  /** The survey is put back, and the poll ends with the rest kept. */
  lemma SurveyEndsPoll(h: Host, disk: Disk, log: seq<Event>, rest: seq<nat>, sent: nat) returns (after: Host)
    requires LOG4 <= log && Is(h, disk, log, Ready, [3] + rest, sent) && ReplanPending(Fold(log, "survey", 1))
    ensures Leads("d1", h, GO, after) && Is(after, disk, log, Polling, rest, sent)
  {
    hide AdvanceTo, Leads, Valid, LoopStep, Fold, InputAt;
    assert log[3] == LOG4[3];
    SurveyWaits(h);
    HeadIsTaken("d1", h, 3, GO);
    LeadsOneStep("d1", h, GO);
    after := AdvanceTo("d1", h, GO);
  }

  lemma RoundPasses(h: Host, rest: seq<nat>) returns (after: Host)
    requires Is(h, BLANK, LOG7, Ready, [1] + rest, 0)
    ensures Leads("d1", h, GO, after) && Is(after, DISK1, LOG7, Ready, rest, 0)
  {
    hide AdvanceTo, Leads, Valid, LoopStep, Fold, InputAt;
    RoundIsLate(h);
    QuietInputLeads("d1", h, 1, GO, None);
    after := h.(mailbox := h.mailbox[1..], disk := Committed(h.disk, 1, SEEN, None));
  }

  /** The assignment is carried out, up to the receipt. */
  lemma PatrolIsDispatched(h: Host, disk: Disk, log: seq<Event>, rest: seq<nat>, sent: nat, s: Session, answer: Choice)
    returns (after: Host)
    requires LOG5 <= log && Is(h, disk, log, Ready, [4] + rest, sent) && StandsIn(Fold(log, "patrol", 1))
    requires LoadSession(disk, "patrol", 1) == s && s == SEEN.(version := s.version)
    requires disk.outbox == map[] && disk.rejected == map[] && answer == GO.(outcome := answer.outcome)
    requires IsAccepted(h.board, INTENT, 20.0) && Valid(AppendTo(h.board, INTENT, 20.0).0)
    ensures Leads("d1", h, answer, after) && IsPublishing(after)
    ensures var w := Work(4, "patrol", ACTIVE.(version := s.version + 1), true, None, [], None);
            Is(after, Executed(disk, w, SUB), AppendTo(h.board, INTENT, 20.0).0.log,
               Staging(ReceiptEvent(SUB, Outcome(answer)), Some(4),
                       Handle(w.(pending := [PlaceOf(INTENT)], raw := Some(X)), ToFinish)),
               rest, sent + 1)
            && after.board == AppendTo(h.board, INTENT, 20.0).0
  {
    hide AdvanceTo, Leads, Valid, LoopStep, Fold, AppendTo;
    assert log[4] == LOG5[4] == Stamped(ASSIGNED, 4, 0.0);
    PatrolIsSubmitted(h, s);
    assert InputAt(h, 4, answer) == InputAt(h, 4, GO);
    HeadIsTaken("d1", h, 4, answer);
    LeadsOneStep("d1", h, answer);
    var taken := AdvanceTo("d1", h, answer);
    after := ExecutionLeads("d1", taken, answer);
    LeadsOn("d1", h, answer, taken, after);
  }

  /** The first time. */
  lemma FirstDispatch(h: Host, rest: seq<nat>) returns (after: Host)
    requires Is(h, DISK1, LOG7, Ready, [4] + rest, 0)
    ensures Leads("d1", h, GO, after) && Is(after, DISK4, LOG9, Ready, rest, 1)
  {
    hide AdvanceTo, Leads, Valid, Fold, AppendTo, IsFresh, GateError, EventError;
    LaterViews();
    NewOnBoard();
    IntentIsLegal();
    ReceiptIsLegal();
    IntentPasses(LOG7);
    FreshIsAppended(h.board, INTENT, 20.0);
    var dispatched := PatrolIsDispatched(h, DISK1, LOG7, rest, 0, SEEN, GO);
    assert GateError(LOG8, RECEIPT).None? by { ReceiptPasses(LOG8); }
    FreshIsAppended(dispatched.board, RECEIPT, 20.0);
    var committing := ReceiptLeads("d1", dispatched, GO);
    LeadsOn("d1", h, GO, dispatched, committing);
    after := FirstCommit(committing, rest);
    LeadsOn("d1", h, GO, committing, after);
  }

  lemma FirstCommit(h: Host, rest: seq<nat>) returns (after: Host)
    requires Is(h, DISK1.(sessions := map["patrol" := Marked(ACTIVE)], outbox := h.disk.outbox,
                          rawReceipts := {("patrol", X)}), LOG9, h.pc, rest, 1)
    requires h.disk.outbox.Keys == {PlaceOf(INTENT), PlaceOf(RECEIPT)}
    requires h.pc == Committing(Work(4, "patrol", ACTIVE, true, None, [PlaceOf(INTENT), PlaceOf(RECEIPT)], Some(X)))
    ensures Leads("d1", h, GO, after) && Is(after, DISK4, LOG9, Ready, rest, 1)
  {
    hide AdvanceTo, Leads, Valid;
    OutputsLead("d1", h, GO);
    after := h.(disk := DISK4, pc := Ready);
    var w := h.pc.work;
    assert h.disk.outbox - {w.pending[0], w.pending[1]} == map[];
    assert h.disk.rawReceipts - {(w.task, w.raw.value)} == {};
  }

  lemma ReceiptPasses(log: seq<Event>)
    ensures GateError(log, RECEIPT).None?
  {
  }

  /** The failure of the second revision removes the session that both share. */
  lemma FailurePasses(h: Host, rest: seq<nat>) returns (after: Host)
    requires Is(h, DISK4, LOG9, Ready, [6] + rest, 1)
    ensures Leads("d1", h, GO, after) && Is(after, DISK6, LOG9, Ready, rest, 1)
  {
    hide AdvanceTo, Leads, Valid, LoopStep, Fold, InputAt;
    FailureCleansUp(h);
    QuietInputLeads("d1", h, 6, GO, Some("patrol"));
    var failed := Marked(ACTIVE).(state := SessionFailed, version := 4);
    CleanedUp(Saved(DISK4, failed).(offset := 6));
    after := h.(mailbox := h.mailbox[1..], disk := Committed(h.disk, 6, failed, Some("patrol")));
  }

  lemma CleanedUp(d: Disk)
    requires d.outbox == map[] && d.rejected == map[] && d.rawReceipts == {} && d.sessions.Keys == {"patrol"}
    ensures Cleaned(d, "patrol") == BLANK.(offset := d.offset)
  {
    assert d.sessions - {"patrol"} == map[];
  }

  /** The second time, with the session gone: up to the commit that the store refuses. */
  lemma SecondDispatch(h: Host, rest: seq<nat>) returns (after: Host)
    requires Is(h, DISK6, LOG9, Ready, [4] + rest, 1)
    ensures Leads("d1", h, GO, after)
    ensures after.pc.Down? && Count(after) == 2 && after.faults == 1 && after.disk.offset == 6
  {
    hide AdvanceTo, Leads, Valid, Fold, AppendTo;
    LaterViews();
    KnownIsAccepted(h.board, 7, INTENT, 20.0);
    var dispatched := PatrolIsDispatched(h, DISK6, LOG9, rest, 1, SEEN, GO);
    KnownIsAccepted(dispatched.board, 8, RECEIPT, 20.0);
    var committing := ReceiptLeads("d1", dispatched, GO);
    LeadsOn("d1", h, GO, dispatched, committing);
    ConclusionStep("d1", committing, GO);
    LeadsOnBy("d1", h, GO, committing);
    after := AdvanceTo("d1", committing, GO);
  }

  /** The second time, when the device answers otherwise than the first. */
  lemma OtherAnswer(h: Host, rest: seq<nat>) returns (after: Host)
    requires Is(h, DISK6, LOG9, Ready, [4] + rest, 1)
    ensures Leads("d1", h, OTHERWISE, after)
    ensures after.pc.Down? && Count(after) == 2 && after.conflicts == 1
  {
    hide AdvanceTo, Leads, Valid, Fold, AppendTo;
    LaterViews();
    KnownIsAccepted(h.board, 7, INTENT, 20.0);
    var dispatched := PatrolIsDispatched(h, DISK6, LOG9, rest, 1, SEEN, OTHERWISE);
    StagingLeads("d1", dispatched, OTHERWISE);
    LeadsOnBy("d1", h, OTHERWISE, dispatched);
    var submitting := Submitting(dispatched);
    ReceiptConflicts(h.board);
    SubmitStep("d1", submitting, OTHERWISE);
    LeadsOnBy("d1", h, OTHERWISE, submitting);
    after := AdvanceTo("d1", submitting, OTHERWISE);
  }

  /** A different event under a committed key. */
  lemma DifferentConflicts(b: State, n: nat, e: Event, now: real)
    requires Valid(b) && n < |b.log| && e.key.Some? && b.log[n].key == e.key && TerminalKey(e).None?
    requires EventError(e).None? && Canonical(e) != Canonical(b.log[n])
    ensures AppendTo(b, e, now).1.status.KeyConflict?
  {
    hide EventError, GateError, AdmittedLog, Canonical;
    assert KeyName(b.log[n]) == e.key;
  }

  lemma ReceiptConflicts(b: State)
    requires Valid(b) && b.log == LOG9
    ensures AppendTo(b, OTHER_RECEIPT, 20.0).1.status.KeyConflict?
  {
    hide EventError, Valid, AppendTo;
    ReceiptIsLegal();
    assert Canonical(LOG9[8]).content.rest != Canonical(OTHER_RECEIPT).content.rest;
    DifferentConflicts(b, 8, OTHER_RECEIPT, 20.0);
  }

  // ---------------------------------------------------------------------
  // The runs
  // ---------------------------------------------------------------------

  /** The pages of a log with inputs at 1, 3, 4 and 6. */
  lemma FirstPages(log: seq<Event>)
    requires |log| == 7 && forall i | 0 <= i < 7 :: IsAgentKind(log[i].kind) <==> i in {1, 3, 4, 6}
    ensures Offsets(Page(log, -1, Some(AGENT_TYPES), 100)) == [1, 3, 4, 6]
    ensures Offsets(Page(log, 1, Some(AGENT_TYPES), 100)) == [3, 4, 6]
  {
    hide Page, Offsets, IsAgentKind;
    PageSteps(log, -1, 100);
    PageSteps(log, 0, 100);
    RestOfPage(log, 99);
    RestOfPage(log, 100);
  }

  lemma RestOfPage(log: seq<Event>, limit: nat)
    requires |log| == 7 && forall i | 0 <= i < 7 :: IsAgentKind(log[i].kind) <==> i in {1, 3, 4, 6}
    requires limit >= 4
    ensures Offsets(Page(log, 1, Some(AGENT_TYPES), limit)) == [3, 4, 6]
  {
    hide Page, Offsets, IsAgentKind;
    PageSteps(log, 1, limit);
    PageSteps(log, 2, limit);
    PageSteps(log, 3, limit - 1);
    PageSteps(log, 4, limit - 2);
    PageSteps(log, 5, limit - 2);
    PageSteps(log, 6, limit - 3);
  }

  lemma LastPage(log: seq<Event>)
    requires |log| == 9 && IsAgentKind(log[7].kind) && IsAgentKind(log[8].kind)
    ensures Offsets(Page(log, 6, Some(AGENT_TYPES), 100)) == [7, 8]
  {
    hide Page, Offsets, IsAgentKind;
    PageSteps(log, 6, 100);
    PageSteps(log, 7, 99);
    PageSteps(log, 8, 98);
  }

  lemma Pages()
    ensures Offsets(Page(LOG7, -1, Some(AGENT_TYPES), 100)) == [1, 3, 4, 6]
    ensures Offsets(Page(LOG7, 1, Some(AGENT_TYPES), 100)) == [3, 4, 6]
    ensures Offsets(Page(LOG9, 6, Some(AGENT_TYPES), 100)) == [7, 8]
  {
    hide Page, Offsets;
    FirstPages(LOG7);
    LastPage(LOG9);
  }

  /** The first poll handles the round and puts the survey back; the second reads the same
      inputs again behind the two that are left. */
  lemma TwoPolls(h: Host) returns (after: Host)
    requires Is(h, BLANK, LOG7, Polling, [], 0)
    ensures Leads("d1", h, GO, after) && Is(after, DISK1, LOG7, Ready, [4, 6, 3, 4, 6], 0)
  {
    hide Leads, Is, Fold, Page, Offsets;
    Pages();
    LaterViews();
    var polled := Polls(h, BLANK, LOG7, [], 0, [1, 3, 4, 6]);
    assert [] + [1, 3, 4, 6] == [1] + [3, 4, 6];
    var passed := RoundPasses(polled, [3, 4, 6]);
    LeadsOn("d1", h, GO, polled, passed);
    assert [3, 4, 6] == [3] + [4, 6];
    var ended := SurveyEndsPoll(passed, DISK1, LOG7, [4, 6], 0);
    LeadsOn("d1", h, GO, passed, ended);
    assert [4, 6] + [3, 4, 6] == [4, 6, 3, 4, 6];
    after := Polls(ended, DISK1, LOG7, [4, 6], 0, [3, 4, 6]);
    LeadsOn("d1", h, GO, ended, after);
  }

  /** The second poll dispatches and commits; the third finds the assignment left over. */
  lemma ThirdPoll(h: Host) returns (after: Host)
    requires Is(h, DISK1, LOG7, Ready, [4, 6, 3, 4, 6], 0)
    ensures Leads("d1", h, GO, after) && Is(after, DISK6, LOG9, Ready, [4, 6, 7, 8], 1)
  {
    hide Leads, Is, Fold, Page, Offsets;
    Pages();
    LaterViews();
    assert [4, 6, 3, 4, 6] == [4] + [6, 3, 4, 6];
    var first := FirstDispatch(h, [6, 3, 4, 6]);
    assert [6, 3, 4, 6] == [6] + [3, 4, 6];
    var failed := FailurePasses(first, [3, 4, 6]);
    LeadsOn("d1", h, GO, first, failed);
    assert [3, 4, 6] == [3] + [4, 6];
    var ended := SurveyEndsPoll(failed, DISK6, LOG9, [4, 6], 1);
    LeadsOn("d1", h, GO, failed, ended);
    assert [4, 6] + [7, 8] == [4, 6, 7, 8];
    after := Polls(ended, DISK6, LOG9, [4, 6], 1, [7, 8]);
    LeadsOn("d1", h, GO, ended, after);
  }

  ghost predicate IsStart(m: Move) {
    m.Environment? && MoveRespects(Agent("d1", iset{X}), m)
  }

  lemma EventsRespect()
    ensures forall e | e in {POSTED, OPENED, HINT, SURVEYED, ASSIGNED, POSTED_AGAIN, FAILED_AGAIN, SECOND_HINT} ::
              IsStart(Environment(e, 0.0))
  {
    assert FirstFor([WATCH], "d1") == Some(WATCH);
  }

  /** The process has started on the whole history and is about to poll for the first time. */
  lemma Started() returns (moves: seq<Move>)
    ensures Is(RunHost("d1", moves), BLANK, LOG7, Polling, [], 0)
    ensures forall m | m in moves :: IsStart(m) || m in {Restart([], 100), Advance(GO)}
  {
    hide RunHost, AdvanceTo, Step, Lists, IsStart, Valid;
    moves := WholeBoard("d1");
    EventsRespect();
    RunIsSound("d1", moves);
    assert Valid(RunHost("d1", moves).board) by { BoardIsValid("d1", moves); }
    NothingListed();
    Restarts("d1", RunHost("d1", moves), []);
    HostRunExtends("d1", moves, Restart([], 100));
    moves := moves + [Restart([], 100)];
    HostRunExtends("d1", moves, Advance(GO));
    AdvancesTo("d1", RunHost("d1", moves), GO);
    OpeningStep("d1", RunHost("d1", moves), GO);
    moves := moves + [Advance(GO)];
  }

  lemma AdvancesTo(device: string, h: Host, answer: Choice)
    ensures Step(device, h, Advance(answer)) == AdvanceTo(device, h, answer)
  {
    hide AdvanceTo;
  }

  lemma BoardIsValid(device: string, moves: seq<Move>)
    ensures Valid(RunHost(device, moves).board)
  {
    hide RunHost, Valid, SessionsNamed, OutboxShaped, DispatchesSound, PcSound;
    RunIsSound(device, moves);
  }

  /** The third poll is about to take the assignment that is left over. */
  lemma LeftOver() returns (moves: seq<Move>)
    ensures Is(RunHost("d1", moves), DISK6, LOG9, Ready, [4, 6, 7, 8], 1)
    ensures forall m | m in moves :: IsStart(m) || m in {Restart([], 100), Advance(GO)}
  {
    hide RunHost, Is, Leads, IsStart;
    moves := Started();
    var twice := TwoPolls(RunHost("d1", moves));
    var third := ThirdPoll(twice);
    LeadsOn("d1", RunHost("d1", moves), GO, twice, third);
    moves := RunLeads("d1", moves, GO, third);
  }

  /** A run without a crash, with clients that keep to their keys, in which the intent is
      handed to the device twice; the store then refuses the offset, which lies behind. */
  lemma LeftoverIsDispatchedTwice() returns (moves: seq<Move>)
    ensures Sent("d1", moves, X) == 2 && RunHost("d1", moves).faults == 1
    ensures forall m | m in moves :: !m.Crash? && MoveRespects(Agent("d1", iset{X}), m)
  {
    hide RunHost, Leads, Respects, Valid;
    moves := LeftOver();
    assert [4, 6, 7, 8] == [4] + [6, 7, 8];
    var after := SecondDispatch(RunHost("d1", moves), [6, 7, 8]);
    moves := RunLeads("d1", moves, GO, after);
    HistoryCountsSends("d1", moves, X);
  }

  /** The same run, where the device answers otherwise the second time: the board finds the
      receipt in conflict with the first. */
  lemma LeftoverConflicts() returns (moves: seq<Move>)
    ensures Sent("d1", moves, X) == 2 && RunHost("d1", moves).conflicts == 1
    ensures forall m | m in moves :: !m.Crash? && MoveRespects(Agent("d1", iset{X}), m)
  {
    hide RunHost, Leads, Respects, Valid;
    moves := LeftOver();
    assert [4, 6, 7, 8] == [4] + [6, 7, 8];
    var after := OtherAnswer(RunHost("d1", moves), [6, 7, 8]);
    moves := RunLeads("d1", moves, OTHERWISE, after);
    HistoryCountsSends("d1", moves, X);
  }

  // ---------------------------------------------------------------------
  // An input passed over
  // ---------------------------------------------------------------------

  const SECOND_HINT := Note("e8", Clue, EvidenceLedger, PATROL)
  const LATER_LOG := LOG7 + [Stamped(SECOND_HINT, 7, 0.0)]
  const INTENT_PLACE: Place := ("patrol", IntentKey(X))
  const INTENT_RECORD := Record(INTENT, Some(4))
  const FAILED_SESSION := ACTIVE.(state := SessionFailed, version := 3)

  /** The disk when the process crashes before it submits the intent, and when it has
      passed the assignment over. */
  const STAGED_DISK := DISK1.(sessions := map["patrol" := ACTIVE], outbox := map[INTENT_PLACE := INTENT_RECORD])
  const PASSED_DISK := STAGED_DISK.(sessions := map["patrol" := FAILED_SESSION], offset := 6)

  /** The intent is staged. */
  lemma IntentIsStaged(h: Host, rest: seq<nat>) returns (after: Host)
    requires Is(h, DISK1, LOG7, Ready, [4] + rest, 0)
    ensures Leads("d1", h, GO, after) && Is(after, STAGED_DISK, LOG7, after.pc, rest, 0)
  {
    hide AdvanceTo, Leads, Valid, LoopStep, Fold;
    LaterViews();
    PatrolIsSubmitted(h, SEEN);
    HeadIsTaken("d1", h, 4, GO);
    LeadsOneStep("d1", h, GO);
    var taken := AdvanceTo("d1", h, GO);
    IntentIsLegal();
    ProposalLeads("d1", taken, GO);
    LeadsOnBy("d1", h, GO, taken);
    StagingLeads("d1", Proposing(taken), GO);
    LeadsOnBy("d1", h, GO, Proposing(taken));
    after := Submitting(Proposing(taken));
  }

  /** The assignment, too, is put back while a replan is pending. */
  lemma PatrolEndsPoll(h: Host, disk: Disk, log: seq<Event>, rest: seq<nat>) returns (after: Host)
    requires LOG5 <= log && Is(h, disk, log, Ready, [4] + rest, 0) && ReplanPending(Fold(log, "patrol", 1))
    ensures Leads("d1", h, GO, after) && Is(after, disk, log, Polling, rest, 0)
  {
    hide AdvanceTo, Leads, Valid, LoopStep, Fold, InputAt;
    assert log[4] == LOG5[4];
    PatrolWaits(h);
    HeadIsTaken("d1", h, 4, GO);
    LeadsOneStep("d1", h, GO);
    after := AdvanceTo("d1", h, GO);
  }

  /** The failure of the second revision is committed; the session stays, since an output
      of its task is still staged. */
  lemma FailurePassesOver(h: Host, rest: seq<nat>) returns (after: Host)
    requires Is(h, STAGED_DISK, LATER_LOG, Ready, [6] + rest, 0)
    ensures Leads("d1", h, GO, after) && Is(after, PASSED_DISK, LATER_LOG, Ready, rest, 0)
  {
    hide AdvanceTo, Leads, Valid, LoopStep, Fold, InputAt;
    FailureCleansUp(h);
    QuietInputLeads("d1", h, 6, GO, Some("patrol"));
    assert INTENT_PLACE in STAGED_DISK.outbox && !IsConverged(PASSED_DISK, "patrol");
    after := h.(mailbox := h.mailbox[1..], disk := Committed(h.disk, 6, FAILED_SESSION, Some("patrol")));
  }

  lemma LaterView()
    ensures ReplanPending(Fold(LATER_LOG, "patrol", 1)) && ReplanPending(Fold(LATER_LOG, "survey", 1))
    ensures GateError(LATER_LOG, INTENT).None? && IsFresh(LATER_LOG, INTENT)
  {
    hide Fold;
    PatrolView();
    SurveyView();
    FoldNext(LOG7, Stamped(SECOND_HINT, 7, 0.0), "patrol", 1);
    SurveyGoesOn(LOG7, Stamped(SECOND_HINT, 7, 0.0));
    IntentPasses(LATER_LOG);
  }

  lemma LaterPage(log: seq<Event>)
    requires |log| == 8 && forall i | 0 <= i < 8 :: IsAgentKind(log[i].kind) <==> i in {1, 3, 4, 6}
    ensures Offsets(Page(log, 1, Some(AGENT_TYPES), 100)) == [3, 4, 6]
  {
    hide Page, Offsets, IsAgentKind;
    PageSteps(log, 1, 100);
    PageSteps(log, 2, 100);
    PageSteps(log, 3, 99);
    PageSteps(log, 4, 98);
    PageSteps(log, 5, 98);
    PageSteps(log, 6, 97);
    PageSteps(log, 7, 97);
  }

  /** With both assignments put back, the failure behind them is handled, and the offset
      passes them over. */
  lemma PassesOver(h: Host) returns (after: Host)
    requires Is(h, STAGED_DISK, LATER_LOG, Polling, [], 0)
    ensures Leads("d1", h, GO, after) && Is(after, PASSED_DISK, LATER_LOG, Ready, [3, 4, 6, 3, 4, 6], 0)
  {
    hide Leads, Is, Fold, Page, Offsets;
    LaterPage(LATER_LOG);
    LaterView();
    var first := Polls(h, STAGED_DISK, LATER_LOG, [], 0, [3, 4, 6]);
    assert [] + [3, 4, 6] == [3] + [4, 6];
    var ended := SurveyEndsPoll(first, STAGED_DISK, LATER_LOG, [4, 6], 0);
    LeadsOn("d1", h, GO, first, ended);
    var second := Polls(ended, STAGED_DISK, LATER_LOG, [4, 6], 0, [3, 4, 6]);
    LeadsOn("d1", h, GO, ended, second);
    assert [4, 6] + [3, 4, 6] == [4] + [6, 3, 4, 6];
    var waiting := PatrolEndsPoll(second, STAGED_DISK, LATER_LOG, [6, 3, 4, 6]);
    LeadsOn("d1", h, GO, second, waiting);
    var third := Polls(waiting, STAGED_DISK, LATER_LOG, [6, 3, 4, 6], 0, [3, 4, 6]);
    LeadsOn("d1", h, GO, waiting, third);
    assert [6, 3, 4, 6] + [3, 4, 6] == [6] + [3, 4, 6, 3, 4, 6];
    after := FailurePassesOver(third, [3, 4, 6, 3, 4, 6]);
    LeadsOn("d1", h, GO, third, after);
  }

  /** Before its input is committed, replay passes the staged intent over. */
  lemma ReplayWaits(h: Host) returns (after: Host)
    requires Is(h, STAGED_DISK, LATER_LOG, Replaying([INTENT_PLACE]), [], 0)
    ensures Leads("d1", h, GO, after) && Is(after, STAGED_DISK, LATER_LOG, Polling, [], 0)
  {
    hide AdvanceTo, Leads, Valid;
    assert [INTENT_PLACE][1..] == [];
    OpeningStep("d1", h, GO);
    LeadsOneStep("d1", h, GO);
    var skipped := AdvanceTo("d1", h, GO);
    OpeningStep("d1", skipped, GO);
    LeadsOnBy("d1", h, GO, skipped);
    after := AdvanceTo("d1", skipped, GO);
  }

  /** Afterwards replay submits it, and the gate lets it through. */
  lemma ReplaySubmitsIntent(h: Host) returns (after: Host)
    requires Is(h, PASSED_DISK, LATER_LOG, Replaying([INTENT_PLACE]), [], 0)
    ensures Leads("d1", h, GO, after)
    ensures Is(after, PASSED_DISK, LATER_LOG + [Stamped(INTENT, 8, 20.0)], ReplayResolving(INTENT_PLACE, []), [], 0)
  {
    hide AdvanceTo, Leads, Valid, AppendTo, EventError, GateError, IsFresh;
    assert [INTENT_PLACE][1..] == [];
    IntentIsLegal();
    LaterView();
    OpeningStep("d1", h, GO);
    LeadsOneStep("d1", h, GO);
    var taken := AdvanceTo("d1", h, GO);
    StageStep("d1", taken, GO);
    LeadsOnBy("d1", h, GO, taken);
    var submitting := AdvanceTo("d1", taken, GO);
    FreshIsAppended(h.board, INTENT, 20.0);
    SubmitStep("d1", submitting, GO);
    LeadsOnBy("d1", h, GO, submitting);
    after := AdvanceTo("d1", submitting, GO);
  }

  lemma IntentIsListed(d: Disk)
    requires d.outbox == map[INTENT_PLACE := INTENT_RECORD]
    ensures Lists([INTENT_PLACE], d)
  {
    assert SetOf([INTENT_PLACE]) == {INTENT_PLACE} && d.outbox.Keys == {INTENT_PLACE};
  }

  lemma Crashes(moves: seq<Move>, disk: Disk, log: seq<Event>) returns (longer: seq<Move>)
    requires var h := RunHost("d1", moves); Is(h, disk, log, h.pc, h.mailbox, 0)
    ensures Is(RunHost("d1", longer), disk, log, Down, [], 0)
  {
    hide RunHost, Valid;
    HostRunExtends("d1", moves, Crash);
    longer := moves + [Crash];
  }

  lemma RestartsListed(moves: seq<Move>, disk: Disk, log: seq<Event>) returns (longer: seq<Move>)
    requires Is(RunHost("d1", moves), disk, log, Down, [], 0) && disk.outbox == map[INTENT_PLACE := INTENT_RECORD]
    ensures Is(RunHost("d1", longer), disk, log, Replaying([INTENT_PLACE]), [], 0)
  {
    hide RunHost, Valid, Lists, Step;
    IntentIsListed(disk);
    Restarts("d1", RunHost("d1", moves), [INTENT_PLACE]);
    HostRunExtends("d1", moves, Restart([INTENT_PLACE], 100));
    longer := moves + [Restart([INTENT_PLACE], 100)];
  }

  /** The first life ends with the intent staged; then a replan becomes due. */
  lemma EndsStaged() returns (moves: seq<Move>)
    ensures Is(RunHost("d1", moves), STAGED_DISK, LATER_LOG, Down, [], 0)
  {
    hide RunHost, Leads, Valid, EventError, GateError, IsFresh;
    moves := Started();
    var twice := TwoPolls(RunHost("d1", moves));
    assert [4, 6, 3, 4, 6] == [4] + [6, 3, 4, 6];
    var staged := IntentIsStaged(twice, [6, 3, 4, 6]);
    LeadsOn("d1", RunHost("d1", moves), GO, twice, staged);
    moves := RunLeads("d1", moves, GO, staged);
    moves := Crashes(moves, STAGED_DISK, LOG7);
    SecondHintPasses();
    moves := Enters("d1", moves, SECOND_HINT);
    BoardIsValid("d1", moves);
  }

  lemma SecondHintPasses()
    ensures EventError(SECOND_HINT).None? && IsFresh(LOG7, SECOND_HINT) && GateError(LOG7, SECOND_HINT).None?
  {
    hide Fold;
    assert "patrol"[0] == 'p' && "e8"[0] == 'e';
  }

  /** A run in which an intent that was staged before a crash is put on the board by a
      later replay and is not dispatched, whatever happens afterwards. */
  lemma LateIntentIsNeverDispatched() returns (moves: seq<Move>)
    ensures HasIntent(RunHost("d1", moves).board.log, X)
    ensures forall more :: Sent("d1", moves + more, X) == 0
  {
    hide RunHost, Leads, Valid, Is, Triggers, Passed, Sent;
    moves := EndsStaged();
    moves := RestartsListed(moves, STAGED_DISK, LATER_LOG);
    var waiting := ReplayWaits(RunHost("d1", moves));
    var passed := PassesOver(waiting);
    LeadsOn("d1", RunHost("d1", moves), GO, waiting, passed);
    moves := RunLeads("d1", moves, GO, passed);
    assert Is(passed, PASSED_DISK, LATER_LOG, passed.pc, passed.mailbox, 0) by { KeepsItself(passed); }
    moves := Crashes(moves, PASSED_DISK, LATER_LOG);
    moves := RestartsListed(moves, PASSED_DISK, LATER_LOG);
    var late := ReplaySubmitsIntent(RunHost("d1", moves));
    moves := RunLeads("d1", moves, GO, late);
    IntentIsLate(late);
    HistoryCountsSends("d1", moves, X);
    forall more
      ensures Sent("d1", moves + more, X) == 0
    {
      PassedIsNeverSent("d1", moves, more, 4, X);
    }
  }

  lemma KeepsItself(h: Host)
    requires Is(h, PASSED_DISK, LATER_LOG, Ready, [3, 4, 6, 3, 4, 6], 0)
    ensures Is(h, PASSED_DISK, LATER_LOG, h.pc, h.mailbox, 0)
  {
  }

  lemma IntentIsLate(h: Host)
    requires Is(h, PASSED_DISK, LATER_LOG + [Stamped(INTENT, 8, 20.0)], ReplayResolving(INTENT_PLACE, []), [], 0)
    ensures HasIntent(h.board.log, X) && Passed(h, 4) && Count(h) == 0
    ensures 4 < |h.board.log| && Triggers("d1", h.board.log[4], X)
  {
    hide Valid, Triggers;
    assert h.board.log[8] == Stamped(INTENT, 8, 20.0) && h.board.log[4] == LOG5[4] == Stamped(ASSIGNED, 4, 0.0);
    assert IsIntentRecord(h.board.log[8], X);
    AssignmentTriggers();
  }

  lemma AssignmentTriggers()
    ensures Triggers("d1", Stamped(ASSIGNED, 4, 0.0), X)
  {
    assert FirstFor([WATCH], "d1") == Some(WATCH);
  }
}
