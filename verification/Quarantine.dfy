/** What startup replay does with a staged record, and how a record that is both staged
    and quarantined comes about and stops every restart. */
module Quarantine {
  import opened Events
  import opened TaskView
  import opened Admission
  import opened Board
  import opened Store
  import opened Loop
  import opened AgentHost
  import opened Mailbox
  import opened Patrol
  import opened Schedules
  import opened Publication

  // ---------------------------------------------------------------------
  // The replay of one record
  // ---------------------------------------------------------------------

  predicate IsReplaying(h: Host) {
    h.pc.Replaying? && h.pc.todo != [] && h.pc.todo[0] in h.disk.outbox
  }

  predicate IsWaiting(h: Host)
    requires IsReplaying(h)
  {
    var source := h.disk.outbox[h.pc.todo[0]].source;
    source.Some? && source.value > h.disk.offset
  }

  function AppendOf(h: Host, answer: Choice): (State, AppendResult)
    requires IsReplaying(h)
  {
    AppendTo(h.board, h.disk.outbox[h.pc.todo[0]].event, answer.now)
  }

  /** How many steps the replay of the first record listed takes. */
  function RecordSteps(h: Host, answer: Choice): nat
    requires IsReplaying(h)
  {
    if IsWaiting(h) then 1
    else if h.pc.todo[0] in h.disk.rejected then 2
    else if AppendOf(h, answer).1.status.Rejected? then 5
    else 4
  }

  /** The input that causes a key names a task. */
  lemma CauseNamesTask(a: Agent, log: seq<Event>, i: nat, key: Key)
    requires AdmittedLog(log) && i < |log| && Causes(a, log[i], key)
    ensures TaskOfKey(key) != ""
  {
    hide AdmittedLog, GateError, KindError;
    AdmittedAt(log, i);
    assert TaskOfKey(key) == TaskOf(log[i].content);
    assert PresentText(log[i].content.taskId);
  }

  lemma ReplayTakesUp(a: Agent, h: Host, answer: Choice)
    requires Orderly(a, h) && IsReplaying(h)
    ensures var p := h.pc.todo[0];
            var record := h.disk.outbox[p];
            && WellMade(a, record.event, p.1) && p.0 == TaskOfKey(p.1) && p.0 != ""
            && Uninterrupted(a.device, h, answer, 1) ==
               h.(pc := if IsWaiting(h) then Replaying(h.pc.todo[1..])
                        else Staging(record.event, record.source, Replay(h.pc.todo[1..])))
  {
    hide IndexesExact, AdmittedLog, LogIsOwn, SubmissionsOk, OutboxOk, Causes, Owns, AdvanceTo;
    var p := h.pc.todo[0];
    StagedRecord(a, ShelfOf(h), p);
    CauseNamesTask(a, h.board.log, h.disk.outbox[p].source.value, p.1);
    OpeningStep(a.device, h, answer);
    assert Uninterrupted(a.device, h, answer, 0) == h;
  }

  lemma ReplayStages(a: Agent, h: Host, answer: Choice)
    requires Orderly(a, h) && IsReplaying(h) && !IsWaiting(h)
    ensures var p := h.pc.todo[0];
            var record := h.disk.outbox[p];
            Uninterrupted(a.device, h, answer, 2) ==
            h.(pc := if p in h.disk.rejected then Down
                     else Appending(p, record.event, record.source, Replay(h.pc.todo[1..])))
  {
    hide Orderly, AdvanceTo, Owns;
    ReplayTakesUp(a, h, answer);
    StageStep(a.device, Uninterrupted(a.device, h, answer, 1), answer);
  }

  lemma ReplaySubmits(a: Agent, h: Host, answer: Choice)
    requires Orderly(a, h) && IsReplaying(h) && !IsWaiting(h) && h.pc.todo[0] !in h.disk.rejected
    ensures var p := h.pc.todo[0];
            var (board, result) := AppendOf(h, answer);
            var after := Uninterrupted(a.device, h, answer, 3);
            && after.disk == h.disk && after.board == board
            && after.pc == (if result.status.Rejected? then Rejecting(p) else ReplayResolving(p, h.pc.todo[1..]))
            && (!result.status.Rejected? ==> result.status.Appended? || result.status.DuplicateSame?)
  {
    hide Valid, LogIsOwn, SubmissionsOk, OutboxOk, AdvanceTo, AppendTo, RecordOk;
    ReplayStages(a, h, answer);
    SubmitStep(a.device, Uninterrupted(a.device, h, answer, 2), answer);
    StagedRecord(a, ShelfOf(h), h.pc.todo[0]);
    StagedNeverConflicts(a, h, h.pc.todo[0], answer.now);
  }

  lemma ReplayResolves(a: Agent, h: Host, answer: Choice)
    requires Orderly(a, h) && IsReplaying(h) && !IsWaiting(h) && h.pc.todo[0] !in h.disk.rejected
    requires !AppendOf(h, answer).1.status.Rejected?
    ensures var p := h.pc.todo[0];
            var after := Uninterrupted(a.device, h, answer, 4);
            && after.pc == Replaying(h.pc.todo[1..]) && after.disk == Resolved(h.disk, p)
            && after.board == AppendOf(h, answer).0
            && exists i :: 0 <= i < |after.board.log|
                           && Canonical(after.board.log[i]) == Canonical(h.disk.outbox[p].event)
  {
    hide LogIsOwn, SubmissionsOk, OutboxOk, AdvanceTo, AppendTo, Canonical, Valid;
    ReplaySubmits(a, h, answer);
    OpeningStep(a.device, Uninterrupted(a.device, h, answer, 3), answer);
    AcceptedMeansCommitted(h.board, h.disk.outbox[h.pc.todo[0]].event, answer.now);
  }

  lemma ReplayRejects(a: Agent, h: Host, answer: Choice)
    requires Orderly(a, h) && IsReplaying(h) && !IsWaiting(h) && h.pc.todo[0] !in h.disk.rejected
    requires AppendOf(h, answer).1.status.Rejected?
    ensures var p := h.pc.todo[0];
            var after := Uninterrupted(a.device, h, answer, 5);
            && after.pc.Down? && after.disk == Resolved(Quarantined(h.disk, p), p) && after.board == h.board
            && p !in after.disk.outbox && p in after.disk.rejected
  {
    hide LogIsOwn, SubmissionsOk, OutboxOk, AdvanceTo, AppendTo, Valid;
    ReplaySubmits(a, h, answer);
    var third := Uninterrupted(a.device, h, answer, 3);
    RejectSteps(a.device, third, answer);
    AppendKeepsValid(h.board, h.disk.outbox[h.pc.todo[0]].event, answer.now);
    assert Uninterrupted(a.device, h, answer, 5) ==
           AdvanceTo(a.device, Uninterrupted(a.device, h, answer, 4), answer);
  }

  /** The replay of a staged record, to its end. A record whose input is not committed
      is passed over. A due record takes the process down exactly when it is quarantined
      as well, and then nothing has changed, or when the board rejects it, and then the
      record has left the outbox and cannot be met again. Otherwise its event is on the
      board, the record is gone, and replay goes on. */
  lemma DueRecordIsSettled(a: Agent, h: Host, answer: Choice)
    requires Orderly(a, h) && IsReplaying(h)
    ensures var p := h.pc.todo[0];
            var after := Uninterrupted(a.device, h, answer, RecordSteps(h, answer));
            && (after.pc.Down? <==>
                  !IsWaiting(h) && (p in h.disk.rejected || AppendOf(h, answer).1.status.Rejected?))
            && (!after.pc.Down? ==> after.pc == Replaying(h.pc.todo[1..]))
            && (IsWaiting(h) || p in h.disk.rejected ==> after.disk == h.disk && after.board == h.board)
            && (!IsWaiting(h) && p !in h.disk.rejected ==>
                  && p !in after.disk.outbox
                  && (p in after.disk.rejected <==> after.pc.Down?)
                  && (!after.pc.Down? ==>
                        exists i :: 0 <= i < |after.board.log|
                                    && Canonical(after.board.log[i]) == Canonical(h.disk.outbox[p].event)))
  {
    hide Orderly, AdvanceTo, AppendTo, Canonical, Uninterrupted;
    ReplayTakesUp(a, h, answer);
    if !IsWaiting(h) {
      ReplayStages(a, h, answer);
      if h.pc.todo[0] !in h.disk.rejected {
        if AppendOf(h, answer).1.status.Rejected? {
          ReplayRejects(a, h, answer);
        } else {
          ReplayResolves(a, h, answer);
        }
      }
    }
  }

  // ---------------------------------------------------------------------
  // A record that stops every restart
  // ---------------------------------------------------------------------

  /** A bid whose offers do not pass the field checks of the board. */
  const MALFORMED := NO_REST.(wellFormed := false)
  const BAD_BID := BidEvent("d1", "patrol", OPENED.content, MALFORMED)
  const BID_PLACE: Place := ("patrol", BidKey("patrol", 1, 1, 1, "d1"))
  const BID_RECORD := Record(BAD_BID, Some(1))

  const IN_TIME := Choice(1, 0.0, false, MALFORMED, NO_REST)
  const TOO_LATE := Choice(1, 20.0, false, MALFORMED, NO_REST)

  lemma BidIsIllegal()
    ensures EventError(BAD_BID).Some?
  {
  }

  lemma RoundIsDelivered(h: Host)
    requires h.board.log == LOG2 && h.disk.offset == -1 && h.mailbox == [] && h.maxsize == 100
    ensures PollBoard(h, 1) == h.(mailbox := [1], pc := Ready)
  {
    assert Page(LOG2, 1, Some(AGENT_TYPES), 0) == [];
    assert Page(LOG2, 0, Some(AGENT_TYPES), 1) == [Stored(1, LOG2[1])];
    assert Page(LOG2, -1, Some(AGENT_TYPES), 1) == [Stored(1, LOG2[1])];
    var page := [Stored(1, LOG2[1])];
    DeliverFits([], page, 100);
    assert page[1..] == [] && Offsets([]) == [] && Offsets(page) == [1];
  }

  /** What the loop makes of the round: in time a bid, afterwards nothing. */
  lemma RoundIsAnswered(h: Host)
    requires h.board.log == LOG2 && h.disk.sessions == map[]
    ensures LoopStep("d1", InputAt(h, 1, IN_TIME)).Stepped? && LoopStep("d1", InputAt(h, 1, IN_TIME)).consumed
    ensures LoopStep("d1", InputAt(h, 1, IN_TIME)).effect == Some(AppendEvent(BAD_BID))
    ensures LoopStep("d1", InputAt(h, 1, TOO_LATE)) == Stepped(None, Observe("patrol", 1), true)
  {
    hide Fold;
    PatrolView();
    assert PATROL.rest.details.slots == ["watch"];
  }

  const STAGED_DISK := BLANK.(outbox := map[BID_PLACE := BID_RECORD])
  const STRANDED_DISK := STAGED_DISK.(rejected := map[BID_PLACE := BID_RECORD])
  const SETTLED_DISK := STRANDED_DISK.(sessions := map["patrol" := Observe("patrol", 1)], offset := 1)
  const LATE_WORK := Work(1, "patrol", Observe("patrol", 1), false, None, [], None)

  function At(b: State, submitted: map<Key, Submitted>, disk: Disk, pc: Pc): Host {
    Host(disk, b, pc, [], 100, map[], submitted, 0, 0, 0)
  }

  /** The bid is staged, and the board refuses it. */
  lemma BidIsStaged(b: State, w: Work)
    requires b.log == LOG2
    ensures var h := At(b, map[], BLANK, Staging(BAD_BID, Some(1), Handle(w, ToFinish)));
            AdvanceTo("d1", h, IN_TIME) ==
            At(b, map[], STAGED_DISK, Appending(BID_PLACE, BAD_BID, Some(1), Handle(w, ToFinish)))
  {
    hide AdvanceTo;
    StageStep("d1", At(b, map[], BLANK, Staging(BAD_BID, Some(1), Handle(w, ToFinish))), IN_TIME);
    assert StoredForm(BAD_BID) == BAD_BID;
  }

  lemma BidIsRefused(b: State, w: Work)
    ensures var h := At(b, map[], STAGED_DISK, Appending(BID_PLACE, BAD_BID, Some(1), Handle(w, ToFinish)));
            AdvanceTo("d1", h, IN_TIME) ==
            At(b, map[BID_PLACE.1 := Submitted(Canonical(BAD_BID), Some(1))], STAGED_DISK, Rejecting(BID_PLACE))
  {
    hide EventError, Canonical, AfterPublishing, IdentityAnswer, GateError;
    BidIsIllegal();
  }

  lemma BidIsQuarantined(b: State, submitted: map<Key, Submitted>)
    ensures AdvanceTo("d1", At(b, submitted, STAGED_DISK, Rejecting(BID_PLACE)), IN_TIME) ==
            At(b, submitted, STRANDED_DISK, Unlinking(BID_PLACE))
  {
    hide AppendTo;
  }

  lemma RoundIsTakenUp(b: State) returns (w: Work)
    requires b.log == LOG2
    ensures AdvanceTo("d1", At(b, map[], BLANK, Ready).(mailbox := [1]), IN_TIME) ==
            At(b, map[], BLANK, Staging(BAD_BID, Some(1), Handle(w, ToFinish)))
  {
    hide AdvanceTo, LoopStep, Fold;
    var h := At(b, map[], BLANK, Ready);
    OpeningStep("d1", h.(mailbox := [1]), IN_TIME);
    assert [1][1..] == [];
    RoundIsAnswered(h);
    w := Work(1, "patrol", LoopStep("d1", InputAt(h, 1, IN_TIME)).after, false, None, [], None);
  }

  lemma RoundIsPassedOver(b: State, submitted: map<Key, Submitted>)
    requires b.log == LOG2
    ensures Uninterrupted("d1", At(b, submitted, STRANDED_DISK, Polling), TOO_LATE, 2) ==
            At(b, submitted, STRANDED_DISK, Finishing(LATE_WORK))
  {
    hide AdvanceTo, LoopStep, Fold, PollBoard;
    var h := At(b, submitted, STRANDED_DISK, Polling);
    assert Uninterrupted("d1", h, TOO_LATE, 0) == h;
    OpeningStep("d1", h, TOO_LATE);
    RoundIsDelivered(h);
    OpeningStep("d1", h.(mailbox := [1], pc := Ready), TOO_LATE);
    assert [1][1..] == [];
    RoundIsAnswered(h.(pc := Ready));
  }

  lemma RoundIsCommitted(b: State, submitted: map<Key, Submitted>)
    ensures var h := At(b, submitted, STRANDED_DISK, Finishing(LATE_WORK));
            Uninterrupted("d1", h, TOO_LATE, 3) == At(b, submitted, SETTLED_DISK, Ready)
  {
    hide AdvanceTo;
    var h := At(b, submitted, STRANDED_DISK, Finishing(LATE_WORK));
    var first := Uninterrupted("d1", h, TOO_LATE, 1);
    var second := Uninterrupted("d1", h, TOO_LATE, 2);
    assert Uninterrupted("d1", h, TOO_LATE, 0) == h;
    ConclusionStep("d1", h, TOO_LATE);
    ConclusionStep("d1", first, TOO_LATE);
    ConclusionStep("d1", second, TOO_LATE);
  }

  /** Before the commit replay passes the record over; after it, replay goes down. */
  lemma StrandedReplay(b: State, submitted: map<Key, Submitted>, answer: Choice)
    ensures Uninterrupted("d1", At(b, submitted, STRANDED_DISK, Replaying([BID_PLACE])), answer, 2) ==
            At(b, submitted, STRANDED_DISK, Polling)
    ensures Uninterrupted("d1", At(b, submitted, SETTLED_DISK, Replaying([BID_PLACE])), answer, 2) ==
            At(b, submitted, SETTLED_DISK, Down)
  {
    hide AdvanceTo;
    var early := At(b, submitted, STRANDED_DISK, Replaying([BID_PLACE]));
    var late := At(b, submitted, SETTLED_DISK, Replaying([BID_PLACE]));
    assert Uninterrupted("d1", early, answer, 0) == early && Uninterrupted("d1", late, answer, 0) == late;
    assert [BID_PLACE][1..] == [];
    OpeningStep("d1", early, answer);
    OpeningStep("d1", Uninterrupted("d1", early, answer, 1), answer);
    OpeningStep("d1", late, answer);
    StageStep("d1", Uninterrupted("d1", late, answer, 1), answer);
  }

  /** From the start of the process to the crash between the two writes of a rejection. */
  lemma FirstLife(b: State) returns (submitted: map<Key, Submitted>)
    requires b.log == LOG2
    ensures Uninterrupted("d1", At(b, map[], BLANK, Replaying([])), IN_TIME, 6) ==
            At(b, submitted, STRANDED_DISK, Unlinking(BID_PLACE))
  {
    hide AdvanceTo;
    var h := At(b, map[], BLANK, Replaying([]));
    assert Uninterrupted("d1", h, IN_TIME, 0) == h;
    OpeningStep("d1", h, IN_TIME);
    var polling := At(b, map[], BLANK, Polling);
    assert Uninterrupted("d1", h, IN_TIME, 1) == polling;
    OpeningStep("d1", polling, IN_TIME);
    RoundIsDelivered(polling);
    var w := RoundIsTakenUp(b);
    assert Uninterrupted("d1", h, IN_TIME, 3) == AdvanceTo("d1", Uninterrupted("d1", h, IN_TIME, 2), IN_TIME);
    BidIsStaged(b, w);
    assert Uninterrupted("d1", h, IN_TIME, 4) == AdvanceTo("d1", Uninterrupted("d1", h, IN_TIME, 3), IN_TIME);
    BidIsRefused(b, w);
    assert Uninterrupted("d1", h, IN_TIME, 5) == AdvanceTo("d1", Uninterrupted("d1", h, IN_TIME, 4), IN_TIME);
    submitted := map[BID_PLACE.1 := Submitted(Canonical(BAD_BID), Some(1))];
    BidIsQuarantined(b, submitted);
  }

  lemma BidIsListed(d: Disk)
    requires d.outbox == map[BID_PLACE := BID_RECORD]
    ensures Lists([BID_PLACE], d)
  {
    assert SetOf([BID_PLACE]) == {BID_PLACE};
    assert d.outbox.Keys == {BID_PLACE};
  }

  /** The run: a malformed bid is staged and refused, the process crashes between the
      two writes of its quarantine, the next life passes the round over because its
      deadline is past and commits it, and the process goes down once more. */
  lemma StrandedRecordIsReachable() returns (moves: seq<Move>)
    ensures var h := RunHost("d1", moves);
            && h.pc.Down?
            && BID_PLACE in h.disk.outbox && BID_PLACE in h.disk.rejected
            && h.disk.outbox[BID_PLACE].source == Some(1) && h.disk.offset == 1
            && Lists([BID_PLACE], h.disk)
    ensures forall answer ::
              RunHost("d1", moves + [Restart([BID_PLACE], 100)] + seq(2, _ => Advance(answer))) == RunHost("d1", moves)
    ensures PollsStartEmpty("d1", moves)
    ensures forall m | m in moves :: MoveRespects(Agent("d1", iset{}), m)
  {
    hide AdvanceTo, RunHost, Uninterrupted, Step, Lists, AppendTo, Respects, PollsStartEmpty;
    moves := PatrolBoard("d1");
    var b := RunHost("d1", moves).board;
    assert RunHost("d1", moves) == At(b, map[], BLANK, Down);
    PostingsRespect("d1");
    assert Lists([], BLANK) by { NothingListed(); }
    Restarts("d1", At(b, map[], BLANK, Down), []);
    HostRunExtends("d1", moves, Restart([], 100));
    moves := moves + [Restart([], 100)];
    var submitted := FirstLife(b);
    moves := RunOn("d1", moves, IN_TIME, 6);
    moves := SecondLife(moves, b, submitted);
    OneAtATimeStartsEmpty("d1", moves);
    forall answer
      ensures RunHost("d1", moves + [Restart([BID_PLACE], 100)] + seq(2, _ => Advance(answer))) == RunHost("d1", moves)
    {
      BidIsListed(SETTLED_DISK);
      Restarts("d1", At(b, submitted, SETTLED_DISK, Down), [BID_PLACE]);
      HostRunExtends("d1", moves, Restart([BID_PLACE], 100));
      StrandedReplay(b, submitted, answer);
      var longer := RunOn("d1", moves + [Restart([BID_PLACE], 100)], answer, 2);
    }
    BidIsListed(SETTLED_DISK);
  }

  lemma PostingsRespect(device: string)
    ensures forall m | m in [Environment(POSTED, 0.0), Environment(OPENED, 0.0)] ::
              MoveRespects(Agent(device, iset{}), m)
  {
  }

  /** From that crash to the next. */
  lemma SecondLife(before: seq<Move>, b: State, submitted: map<Key, Submitted>) returns (moves: seq<Move>)
    requires b.log == LOG2
    requires RunHost("d1", before) == At(b, submitted, STRANDED_DISK, Unlinking(BID_PLACE))
    ensures RunHost("d1", moves) == At(b, submitted, SETTLED_DISK, Down)
    ensures forall m | m in moves :: m in before || m.Crash? || m.Restart? || m in {Advance(IN_TIME), Advance(TOO_LATE)}
  {
    hide AdvanceTo, RunHost, Uninterrupted, Lists, AppendTo;
    HostRunExtends("d1", before, Crash);
    moves := before + [Crash];
    BidIsListed(STRANDED_DISK);
    HostRunExtends("d1", moves, Restart([BID_PLACE], 100));
    moves := moves + [Restart([BID_PLACE], 100)];
    StrandedReplay(b, submitted, IN_TIME);
    moves := RunOn("d1", moves, IN_TIME, 2);
    RoundIsPassedOver(b, submitted);
    moves := RunOn("d1", moves, TOO_LATE, 2);
    RoundIsCommitted(b, submitted);
    moves := RunOn("d1", moves, TOO_LATE, 3);
    HostRunExtends("d1", moves, Crash);
    moves := moves + [Crash];
  }
}
