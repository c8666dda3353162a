/** A small history of the board that the concrete runs share: a patrol that is posted, bid
    for and assigned to one device, and failed in its second revision, next to a survey
    whose legacy assignment waits for a replan. */
module Patrol {
  import opened Events
  import opened TaskView
  import opened Admission
  import opened Board
  import opened AgentHost
  import opened Handling

  const WATCH_ONLY := NO_REST.(details := NO_DETAILS.(slots := ["watch"]))
  const PATROL := NO_CONTENT.(schemaVersion := Some(2), taskId := Some("patrol"), taskRevision := Some(1),
                              rest := WATCH_ONLY)
  const SURVEY := NO_CONTENT.(taskId := Some("survey"))
  const WATCH := Assignment("a1", "watch", "d1", "b1", 1, ["hover"], "hover", 0)

  function Note(id: string, kind: Kind, ledger: Ledger, content: Content): Event {
    Event(Plain(id), kind, ledger, content, "coordinator", None, None, None, 0, 0.0, 0, 0)
  }

  const POSTED := Note("e1", TaskPosted, TaskLedger, PATROL)
  const OPENED := Note("e2", BidRoundOpened, TaskLedger,
                       PATROL.(coordinationEpoch := Some(1), bidRound := Some(1), deadline := Some(10.0)))
  const HINT := Note("e3", Clue, EvidenceLedger, SURVEY.(schemaVersion := Some(2), taskRevision := Some(1)))
  const SURVEYED := Note("e4", TaskAssigned, TaskLedger, SURVEY)
  const ASSIGNED := Note("e5", TaskAssigned, TaskLedger,
                         PATROL.(coordinationEpoch := Some(1), planId := Some("p1"), assignments := Some([WATCH])))
  const POSTED_AGAIN := Note("e6", TaskPosted, TaskLedger, PATROL.(taskRevision := Some(2)))
  const FAILED_AGAIN := Note("e7", TaskFailed, TaskLedger,
                             PATROL.(taskRevision := Some(2), coordinationEpoch := Some(0)))

  /** The logs after the events, one by one. */
  const LOG1 := [Stamped(POSTED, 0, 0.0)]
  const LOG2 := LOG1 + [Stamped(OPENED, 1, 0.0)]
  const LOG3 := LOG2 + [Stamped(HINT, 2, 0.0)]
  const LOG4 := LOG3 + [Stamped(SURVEYED, 3, 0.0)]
  const LOG5 := LOG4 + [Stamped(ASSIGNED, 4, 0.0)]
  const LOG6 := LOG5 + [Stamped(POSTED_AGAIN, 5, 0.0)]
  const LOG7 := LOG6 + [Stamped(FAILED_AGAIN, 6, 0.0)]

  const OPEN_VIEW :=
    INITIAL.(task := Some(PATROL), status := Bidding, epoch := 1, activeRound := Some(OPENED.content))
  const PLANNED_VIEW := OPEN_VIEW.(plan := Some(ASSIGNED.content), activeRound := None, status := Assigned)
  const WAITING_VIEW := INITIAL.(pending := [HINT.id])

  lemma FirstPayloadsAreLegal()
    ensures EventError(POSTED).None? && EventError(OPENED).None?
    ensures EventError(POSTED_AGAIN).None? && EventError(FAILED_AGAIN).None?
  {
    assert "patrol"[0] == 'p';
  }

  lemma SurveyPayloadsAreLegal()
    ensures EventError(HINT).None? && EventError(SURVEYED).None?
  {
    assert "survey"[0] == 's';
  }

  lemma PlanIsLegal()
    ensures EventError(ASSIGNED).None?
  {
    assert "patrol"[0] == 'p' && "p1"[0] == 'p';
    assert AssignmentOk(WATCH) by { assert "a1"[0] == 'a' && "watch"[0] == 'w' && "d1"[0] == 'd'; }
  }

  // ---------------------------------------------------------------------
  // The views
  // ---------------------------------------------------------------------

  lemma FoldNext(log: seq<Event>, e: Event, task: string, revision: int)
    ensures Fold(log + [e], task, revision) ==
            if Binds(log, e, task, revision) then Apply(Fold(log, task, revision), e) else Fold(log, task, revision)
  {
    assert (log + [e])[..|log|] == log;
  }

  lemma PatrolView()
    ensures Fold(LOG1, "patrol", 1) == INITIAL.(task := Some(PATROL), status := Posted)
    ensures Fold(LOG2, "patrol", 1) == OPEN_VIEW
    ensures Fold(LOG4, "patrol", 1) == OPEN_VIEW
    ensures Fold(LOG5, "patrol", 1) == PLANNED_VIEW
    ensures Fold(LOG7, "patrol", 1) == PLANNED_VIEW
  {
    hide Fold;
    assert [] + [Stamped(POSTED, 0, 0.0)] == LOG1;
    FoldNothing("patrol", 1);
    FoldNext([], Stamped(POSTED, 0, 0.0), "patrol", 1);
    FoldNext(LOG1, Stamped(OPENED, 1, 0.0), "patrol", 1);
    FoldNext(LOG2, Stamped(HINT, 2, 0.0), "patrol", 1);
    FoldNext(LOG3, Stamped(SURVEYED, 3, 0.0), "patrol", 1);
    FoldNext(LOG4, Stamped(ASSIGNED, 4, 0.0), "patrol", 1);
    FoldNext(LOG5, Stamped(POSTED_AGAIN, 5, 0.0), "patrol", 1);
    FoldNext(LOG6, Stamped(FAILED_AGAIN, 6, 0.0), "patrol", 1);
  }

  lemma SecondView()
    ensures Fold(LOG6, "patrol", 2) == INITIAL.(task := Some(POSTED_AGAIN.content), status := Posted)
  {
    hide Fold;
    assert [] + [Stamped(POSTED, 0, 0.0)] == LOG1;
    FoldNothing("patrol", 2);
    FoldNext([], Stamped(POSTED, 0, 0.0), "patrol", 2);
    FoldNext(LOG1, Stamped(OPENED, 1, 0.0), "patrol", 2);
    FoldNext(LOG2, Stamped(HINT, 2, 0.0), "patrol", 2);
    FoldNext(LOG3, Stamped(SURVEYED, 3, 0.0), "patrol", 2);
    FoldNext(LOG4, Stamped(ASSIGNED, 4, 0.0), "patrol", 2);
    FoldNext(LOG5, Stamped(POSTED_AGAIN, 5, 0.0), "patrol", 2);
  }

  /** An event of another task leaves the view of the survey as it was. */
  lemma SurveyGoesOn(log: seq<Event>, e: Event)
    requires TaskOf(e.content) != "survey"
    ensures Fold(log + [e], "survey", 1) == Fold(log, "survey", 1)
  {
    FoldNext(log, e, "survey", 1);
  }

  lemma SurveyView()
    ensures Fold(LOG7, "survey", 1) == WAITING_VIEW.(plan := Some(SURVEY), status := Assigned)
  {
    hide Fold;
    assert [] + [Stamped(POSTED, 0, 0.0)] == LOG1;
    FoldNothing("survey", 1);
    SurveyGoesOn([], Stamped(POSTED, 0, 0.0));
    SurveyGoesOn(LOG1, Stamped(OPENED, 1, 0.0));
    FoldNext(LOG2, Stamped(HINT, 2, 0.0), "survey", 1);
    FoldNext(LOG3, Stamped(SURVEYED, 3, 0.0), "survey", 1);
    SurveyGoesOn(LOG4, Stamped(ASSIGNED, 4, 0.0));
    SurveyGoesOn(LOG5, Stamped(POSTED_AGAIN, 5, 0.0));
    SurveyGoesOn(LOG6, Stamped(FAILED_AGAIN, 6, 0.0));
  }

  // ---------------------------------------------------------------------
  // The board of a process
  // ---------------------------------------------------------------------

  /** An event that the gate lets through is the next one on the board. */
  lemma Enters(device: string, moves: seq<Move>, e: Event) returns (longer: seq<Move>)
    requires var log := RunHost(device, moves).board.log;
             EventError(e).None? && IsFresh(log, e) && GateError(log, e).None?
    ensures longer == moves + [Environment(e, 0.0)]
    ensures var before, after := RunHost(device, moves), RunHost(device, longer);
            && after == before.(board := after.board)
            && after.board.log == before.board.log + [Stamped(e, |before.board.log|, 0.0)]
  {
    hide RunHost, EventError, IsFresh, GateError, AdvanceTo, IdentityAnswer, AdmittedLog, IndexesExact;
    longer := moves + [Environment(e, 0.0)];
    var b := RunHost(device, moves).board;
    RunIsSound(device, moves);
    AnswerMeansKnown(b, e);
    AppendKeepsValid(b, e, 0.0);
    HostRunExtends(device, moves, Environment(e, 0.0));
  }

  lemma NothingRun(device: string)
    ensures RunHost(device, []) == START && EMPTY.log == []
  {
  }

  lemma PatrolBoard(device: string) returns (moves: seq<Move>)
    ensures var h := RunHost(device, moves); h == START.(board := h.board) && h.board.log == LOG2
    ensures moves == [Environment(POSTED, 0.0), Environment(OPENED, 0.0)]
  {
    hide RunHost, EventError, Fold;
    FirstPayloadsAreLegal();
    PatrolView();
    NothingRun(device);
    moves := Enters(device, [], POSTED);
    assert [] + [Stamped(POSTED, 0, 0.0)] == LOG1;
    moves := Enters(device, moves, OPENED);
  }

  lemma WholeBoard(device: string) returns (moves: seq<Move>)
    ensures var h := RunHost(device, moves); h == START.(board := h.board) && h.board.log == LOG7
    ensures moves == [Environment(POSTED, 0.0), Environment(OPENED, 0.0), Environment(HINT, 0.0),
                      Environment(SURVEYED, 0.0), Environment(ASSIGNED, 0.0), Environment(POSTED_AGAIN, 0.0),
                      Environment(FAILED_AGAIN, 0.0)]
  {
    hide RunHost, EventError, Fold, IsFresh, GateError;
    FirstPayloadsAreLegal();
    SurveyPayloadsAreLegal();
    PlanIsLegal();
    GatesOpen();
    SecondGatesOpen();
    moves := PatrolBoard(device);
    moves := Enters(device, moves, HINT);
    moves := Enters(device, moves, SURVEYED);
    moves := Enters(device, moves, ASSIGNED);
    moves := Enters(device, moves, POSTED_AGAIN);
    moves := Enters(device, moves, FAILED_AGAIN);
  }

  lemma GatesOpen()
    ensures IsFresh(LOG2, HINT) && GateError(LOG2, HINT).None?
    ensures IsFresh(LOG3, SURVEYED) && GateError(LOG3, SURVEYED).None?
    ensures IsFresh(LOG4, ASSIGNED) && GateError(LOG4, ASSIGNED).None?
  {
    hide Fold;
    PatrolView();
  }

  lemma SecondGatesOpen()
    ensures IsFresh(LOG5, POSTED_AGAIN) && GateError(LOG5, POSTED_AGAIN).None?
    ensures IsFresh(LOG6, FAILED_AGAIN) && GateError(LOG6, FAILED_AGAIN).None?
  {
    hide Fold;
    SecondView();
  }
}
