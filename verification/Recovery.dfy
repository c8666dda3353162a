/** The coordinator's control state, rebuilt after a restart by paging through the
    board's history, and what it has to agree with. */
module Recovery {
  import opened Events
  import opened TaskView
  import opened Admission
  import opened History
  import opened Board

  datatype ActiveRound = ActiveRound(task: string, revision: int, epoch: int, number: int, deadline: real)

  const RECOVERY_TYPES: set<Kind> := {TaskPosted, BidRoundOpened, TaskAssigned, TaskReplan, TaskDone, TaskFailed}

  datatype Control = Control(activeRounds: map<string, ActiveRound>, knownTasks: set<(string, int)>)

  function RoundOfContent(c: Content): ActiveRound {
    ActiveRound(TaskOf(c), RevisionOf(c), GetOr(c.coordinationEpoch, 0), GetOr(c.bidRound, 1), GetOr(c.deadline, 0.0))
  }

  /** What one replayed event does to the control state. */
  function Absorb(s: Control, e: Event): Control {
    var task := TaskOf(e.content);
    var known := if task != "" then s.knownTasks + {(task, RevisionOf(e.content))} else s.knownTasks;
    if e.kind.BidRoundOpened? then Control(s.activeRounds[task := RoundOfContent(e.content)], known)
    else if e.kind.TaskAssigned? || e.kind.TaskReplan? then Control(s.activeRounds - {task}, known)
    else if IsTerminalKind(e.kind) then
      Control(s.activeRounds - {task}, known - {(task, RevisionOf(e.content))})
    else Control(s.activeRounds, known)
  }

  function AbsorbAll(s: Control, page: seq<Stored>): Control {
    if page == [] then s else Absorb(AbsorbAll(s, page[..|page| - 1]), page[|page| - 1].event)
  }

  const FORGOTTEN := Control(map[], {})

  /** The control state that a history stands for. */
  function Recovered(log: seq<Event>): Control {
    AbsorbAll(FORGOTTEN, Selected(log, Some(RECOVERY_TYPES)))
  }

  lemma {:induction false} AbsorbJoins(s: Control, a: seq<Stored>, b: seq<Stored>)
    ensures AbsorbAll(s, a + b) == AbsorbAll(AbsorbAll(s, a), b)
  {
    if b == [] {
      assert a + b == a;
    } else {
      AbsorbJoins(s, a, b[..|b| - 1]);
      assert (a + b)[..|a + b| - 1] == a + b[..|b| - 1];
    }
  }

  // ---------------------------------------------------------------------
  // Agreement with the replay
  // ---------------------------------------------------------------------

  /** A history of v2 events only. */
  predicate PureV2(log: seq<Event>) {
    forall i | 0 <= i < |log| :: IsV2(log[i].content)
  }

  /** Every event of the task names the same revision. */
  predicate OneRevision(log: seq<Event>, task: string, revision: int) {
    forall i | 0 <= i < |log| && TaskOf(log[i].content) == task :: RevisionOf(log[i].content) == revision
  }

  lemma RecoveredStep(log: seq<Event>)
    requires log != []
    ensures var prefix := log[..|log| - 1];
            var e := log[|log| - 1];
            Recovered(log) == if e.kind in RECOVERY_TYPES then Absorb(Recovered(prefix), e) else Recovered(prefix)
  {
    var prefix := log[..|log| - 1];
    var e := log[|log| - 1];
    var before := Selected(prefix, Some(RECOVERY_TYPES));
    var last := [Stored(|log| - 1, e)];
    if e.kind in RECOVERY_TYPES {
      assert (before + last)[..|before|] == before;
    } else {
      assert Selected(log, Some(RECOVERY_TYPES)) == before + [];
      assert before + [] == before;
    }
  }

  /** How the recovered rounds and the replayed view of a task stand to each other: the
      timer shows the task, the revision, and the epoch, number and deadline that the view
      shows for the active round. */
  predicate Agrees(s: Control, v: View, task: string, revision: int) {
    && (task in s.activeRounds <==> v.activeRound.Some?)
    && (v.activeRound.Some? ==>
          var timer, round := s.activeRounds[task], v.activeRound.value;
          && timer.task == task && timer.revision == revision
          && timer.epoch == v.epoch && round.coordinationEpoch == Some(timer.epoch)
          && round.bidRound == Some(timer.number) && round.deadline == Some(timer.deadline))
    && ((task, revision) in s.knownTasks <==> v.task.Some? && v.terminal.None?)
  }

  lemma OtherTaskKeepsAgreement(s: Control, e: Event, v: View, task: string, revision: int)
    requires Agrees(s, v, task, revision) && TaskOf(e.content) != task
    ensures Agrees(Absorb(s, e), v, task, revision)
  {
  }

  lemma RoundIsComplete(e: Event)
    requires EventError(e).None? && e.kind.BidRoundOpened?
    ensures e.content.coordinationEpoch.Some? && e.content.bidRound.Some? && e.content.deadline.Some?
  {
  }

  /** A v2 event admitted behind a prefix keeps the agreement for its task. */
  lemma OwnEventKeepsAgreement(s: Control, prefix: seq<Event>, e: Event, task: string, revision: int)
    requires AdmittedLog(prefix + [e]) && IsV2(e.content) && e.kind in RECOVERY_TYPES
    requires TaskOf(e.content) == task && RevisionOf(e.content) == revision && task != ""
    requires Agrees(s, Fold(prefix, task, revision), task, revision)
    requires e.kind.TaskPosted? ==> Fold(prefix, task, revision).terminal.None?
    ensures Agrees(Absorb(s, e), Fold(prefix + [e], task, revision), task, revision)
  {
    hide EventError, GateError, AdmittedLog;
    var n := |prefix|;
    var log := prefix + [e];
    assert log[..n] == prefix && log[..n + 1] == log;
    FoldStep(log, n, task, revision);
    if e.kind.BidRoundOpened? {
      AdmittedAt(log, n);
      RoundIsComplete(e);
    }
    if !e.kind.TaskPosted? {
      AdmissionRefinesProjection(log, n, task, revision);
    } else {
      TaskMeansPosted(prefix, task, revision);
    }
  }

  lemma IrrelevantEventKeepsView(v: View, e: Event)
    requires e.kind !in RECOVERY_TYPES
    ensures Apply(v, e).activeRound == v.activeRound && Apply(v, e).task == v.task
    ensures Apply(v, e).terminal == v.terminal && Apply(v, e).epoch == v.epoch
  {
  }

  /** In a pure v2 history a posting always precedes the end of its revision. */
  lemma PostingIsNotLate(log: seq<Event>, i: nat, task: string, revision: int)
    requires AdmittedLog(log) && PureV2(log) && i < |log| && IsPosting(log[i], task, revision)
    ensures Fold(log[..i], task, revision).terminal.None?
  {
    PostingTakesEffectUnlessFrozen(log, i, task, revision);
    if Fold(log[..i], task, revision).terminal.Some? {
      var k := TerminalOrigin(log[..i], task, revision);
    }
  }

  /** After recovery from a pure v2 history in which the task has one revision,
      the task has an active round exactly when the replay shows one, with the
      same epoch, number and deadline, and it is known exactly when it is posted
      and not terminal. */
  lemma {:induction false} RecoveryAgreesWithReplay(log: seq<Event>, task: string, revision: int)
    requires AdmittedLog(log) && PureV2(log) && OneRevision(log, task, revision) && task != ""
    ensures Agrees(Recovered(log), Fold(log, task, revision), task, revision)
  {
    hide Absorb, Apply, Admitted, Recovered;
    if log == [] {
      RecoveredFromNothing();
    } else {
      var n := |log| - 1;
      var prefix := log[..n];
      var e := log[n];
      assert log == prefix + [e];
      RecoveryAgreesWithReplay(prefix, task, revision);
      RecoveredStep(log);
      if TaskOf(e.content) != task {
        if e.kind in RECOVERY_TYPES {
          OtherTaskKeepsAgreement(Recovered(prefix), e, Fold(prefix, task, revision), task, revision);
        }
      } else if e.kind !in RECOVERY_TYPES {
        IrrelevantEventKeepsView(Fold(prefix, task, revision), e);
      } else {
        if e.kind.TaskPosted? {
          PostingIsNotLate(log, n, task, revision);
        }
        OwnEventKeepsAgreement(Recovered(prefix), prefix, e, task, revision);
      }
    }
  }

  lemma CatalogueStep(s: Control, prefix: seq<Event>, e: Event, task: string, revision: int)
    requires AdmittedLog(prefix + [e]) && IsV2(e.content) && e.kind in RECOVERY_TYPES
    requires TaskOf(e.content) == task && RevisionOf(e.content) == revision && task != ""
    requires (task, revision) in s.knownTasks <==>
             Fold(prefix, task, revision).task.Some? && Fold(prefix, task, revision).terminal.None?
    requires e.kind.TaskPosted? ==> Fold(prefix, task, revision).terminal.None?
    ensures (task, revision) in Absorb(s, e).knownTasks <==>
            Fold(prefix + [e], task, revision).task.Some? && Fold(prefix + [e], task, revision).terminal.None?
  {
    hide EventError, GateError, AdmittedLog;
    var n := |prefix|;
    var log := prefix + [e];
    assert log[..n] == prefix && log[..n + 1] == log;
    FoldStep(log, n, task, revision);
    if !e.kind.TaskPosted? {
      AdmissionRefinesProjection(log, n, task, revision);
    } else {
      TaskMeansPosted(prefix, task, revision);
    }
  }

  lemma OtherEventKeepsCatalogue(s: Control, e: Event, task: string, revision: int)
    requires TaskOf(e.content) != task || RevisionOf(e.content) != revision
    ensures (task, revision) in Absorb(s, e).knownTasks <==> (task, revision) in s.knownTasks
  {
  }

  /** The view of a task moves on events of its own, of which clues may be unnamed. */
  lemma OtherEventKeepsView(log: seq<Event>, n: nat, task: string, revision: int)
    requires n < |log|
    requires log[n].kind !in RECOVERY_TYPES || TaskOf(log[n].content) != task || RevisionOf(log[n].content) != revision
    ensures Fold(log[..n + 1], task, revision).task == Fold(log[..n], task, revision).task
    ensures Fold(log[..n + 1], task, revision).terminal == Fold(log[..n], task, revision).terminal
  {
    hide Fold;
    FoldStep(log, n, task, revision);
    if log[n].kind !in RECOVERY_TYPES {
      IrrelevantEventKeepsView(Fold(log[..n], task, revision), log[n]);
    }
  }

  /** The catalogue of known tasks agrees with the replay whatever the number of
      revisions: it is kept per revision. */
  lemma {:induction false} CatalogueAgreesWithReplay(log: seq<Event>, task: string, revision: int)
    requires AdmittedLog(log) && PureV2(log) && task != ""
    ensures (task, revision) in Recovered(log).knownTasks <==>
            Fold(log, task, revision).task.Some? && Fold(log, task, revision).terminal.None?
  {
    hide AdmittedLog, Admitted, Recovered, Fold, Absorb;
    if log == [] {
      RecoveredFromNothing();
      FoldNothing(task, revision);
    } else {
      var n := |log| - 1;
      var prefix := log[..n];
      var e := log[n];
      assert log == prefix + [e] && log[..n + 1] == log;
      AdmittedAt(log, n);
      CatalogueAgreesWithReplay(prefix, task, revision);
      RecoveredStep(log);
      if TaskOf(e.content) == task && RevisionOf(e.content) == revision && e.kind in RECOVERY_TYPES {
        if e.kind.TaskPosted? {
          PostingIsNotLate(log, n, task, revision);
        }
        CatalogueStep(Recovered(prefix), prefix, e, task, revision);
      } else {
        OtherEventKeepsView(log, n, task, revision);
        if e.kind in RECOVERY_TYPES {
          OtherEventKeepsCatalogue(Recovered(prefix), e, task, revision);
        }
      }
    }
  }

  /** The timer shows the task and what the round says of itself, with the defaults of
      what it leaves unsaid. */
  predicate IsTimerOf(timer: ActiveRound, task: string, c: Content) {
    && timer.task == task
    && timer.revision == (if c.taskRevision.Some? then c.taskRevision.value else 1)
    && timer.epoch == (if c.coordinationEpoch.Some? then c.coordinationEpoch.value else 0)
    && timer.number == (if c.bidRound.Some? then c.bidRound.value else 1)
    && timer.deadline == (if c.deadline.Some? then c.deadline.value else 0.0)
  }

  lemma TimerStep(s: Control, e: Event, task: string)
    requires e.kind in RECOVERY_TYPES
    ensures IsControl(e, task) ==>
              && (task in Absorb(s, e).activeRounds <==> e.kind.BidRoundOpened?)
              && (e.kind.BidRoundOpened? ==> IsTimerOf(Absorb(s, e).activeRounds[task], task, e.content))
    ensures !IsControl(e, task) ==>
              && (task in Absorb(s, e).activeRounds <==> task in s.activeRounds)
              && (task in s.activeRounds ==> Absorb(s, e).activeRounds[task] == s.activeRounds[task])
  {
  }

  /** The timers, in contrast, are kept per task: with several revisions they show
      the last control event of the task, whichever revision it belonged to. */
  lemma {:induction false} TimersFollowTheLastControlEvent(log: seq<Event>, task: string)
    ensures (forall i | 0 <= i < |log| :: !IsControl(log[i], task)) ==> task !in Recovered(log).activeRounds
    ensures forall i | IsLastControl(log, i, task) ::
              && (task in Recovered(log).activeRounds <==> log[i].kind.BidRoundOpened?)
              && (log[i].kind.BidRoundOpened? ==> IsTimerOf(Recovered(log).activeRounds[task], task, log[i].content))
  {
    hide Recovered, Absorb, IsTimerOf;
    if log == [] {
      RecoveredFromNothing();
    } else {
      var n := |log| - 1;
      var prefix := log[..n];
      if log[n].kind in RECOVERY_TYPES {
        TimerStep(Recovered(prefix), log[n], task);
      }
      TimersFollowTheLastControlEvent(prefix, task);
      RecoveredStep(log);
      if IsControl(log[n], task) {
        assert forall i | IsLastControl(log, i, task) :: i == n;
      } else {
        assert forall i :: IsLastControl(log, i, task) ==> IsLastControl(prefix, i, task);
      }
    }
  }

  lemma RecoveredFromNothing()
    ensures Recovered([]) == FORGOTTEN
  {
  }

  /** The events that set or clear the timer of a task. */
  predicate IsControl(e: Event, task: string) {
    TaskOf(e.content) == task && e.kind in RECOVERY_TYPES && !e.kind.TaskPosted?
  }

  predicate IsLastControl(log: seq<Event>, i: int, task: string) {
    && 0 <= i < |log|
    && IsControl(log[i], task)
    && forall j | i < j < |log| :: !IsControl(log[j], task)
  }

  // ---------------------------------------------------------------------
  // The recovery as it runs
  // ---------------------------------------------------------------------

  class Coordinator {
    var activeRounds: map<string, ActiveRound>
    var knownTasks: set<(string, int)>

    constructor ()
    {
      activeRounds := map[];
      knownTasks := {};
    }

    method RememberBidRound(c: Content)
      modifies this`activeRounds
      ensures activeRounds == old(activeRounds)[TaskOf(c) := RoundOfContent(c)]
      ensures IsTimerOf(activeRounds[TaskOf(c)], TaskOf(c), c)
    {
      var round := ActiveRound(TaskOf(c), RevisionOf(c), GetOr(c.coordinationEpoch, 0), GetOr(c.bidRound, 1),
                               GetOr(c.deadline, 0.0));
      activeRounds := activeRounds[round.task := round];
    }

    /** Replays one page; the cursor moves to its last offset. */
    method AbsorbPage(page: seq<Stored>)
      modifies this
      ensures Control(activeRounds, knownTasks) == AbsorbAll(Control(old(activeRounds), old(knownTasks)), page)
    {
      for n := 0 to |page|
        invariant Control(activeRounds, knownTasks) ==
                  AbsorbAll(Control(old(activeRounds), old(knownTasks)), page[..n])
      {
        var e := page[n].event;
        assert page[..n + 1][..n] == page[..n];
        var task := TaskOf(e.content);
        var revision := RevisionOf(e.content);
        if task != "" {
          knownTasks := knownTasks + {(task, revision)};
        }
        if e.kind.BidRoundOpened? {
          RememberBidRound(e.content);
        } else if e.kind.TaskAssigned? || e.kind.TaskReplan? || IsTerminalKind(e.kind) {
          activeRounds := activeRounds - {task};
        }
        if IsTerminalKind(e.kind) {
          knownTasks := knownTasks - {(task, revision)};
        }
      }
      assert page[..|page|] == page;
    }

    /** Rebuilds timers and catalogue from the history, page by page, while others
        append. Whatever the page size and whenever their requests are served, the
        result is the one that the history at the last page stands for, and the number
        returned is the number of events of interest. */
    method RecoverControlState(board: Blackboard, limit: nat, others: seq<Request>) returns (recovered: nat)
      requires limit > 0
      modifies this, board
      ensures old(board.events) <= board.events
      ensures Control(activeRounds, knownTasks) == Recovered(board.events)
      ensures recovered == |Selected(board.events, Some(RECOVERY_TYPES))|
    {
      hide Absorb, Selected, Page;
      activeRounds := map[];
      knownTasks := {};
      var cursor := -1;
      recovered := 0;
      var waiting := others;
      ghost var types := Some(RECOVERY_TYPES);
      assert board.events[..0] == [];
      NothingSelected(types);
      while true
        invariant old(board.events) <= board.events
        invariant -1 <= cursor && (cursor < |board.events| || cursor == -1)
        invariant Control(activeRounds, knownTasks) == AbsorbAll(FORGOTTEN, Selected(board.events[..cursor + 1], types))
        invariant recovered == |Selected(board.events[..cursor + 1], types)|
        decreases |waiting|, |board.events| - cursor
      {
        ghost var before := Selected(board.events[..cursor + 1], types);
        ghost var seen := board.events;
        waiting := ServeSome(board, waiting);
        assert board.events[..cursor + 1] == seen[..cursor + 1];
        var page := board.ReadSince(cursor, Some(RECOVERY_TYPES), limit);
        PageAdvances(board.events, cursor, types, limit);
        AbsorbJoins(FORGOTTEN, before, page);
        if page == [] {
          assert before + page == before;
          break;
        }
        PageMoves(board.events, cursor, types, limit);
        AbsorbPage(page);
        cursor := page[|page| - 1].offset;
        recovered := recovered + |page|;
        if |page| < limit {
          break;
        }
      }
    }
  }

  /** Some of the waiting requests are served, in order. */
  method ServeSome(board: Blackboard, waiting: seq<Request>) returns (rest: seq<Request>)
    modifies board
    ensures old(board.events) <= board.events
    ensures |rest| <= |waiting| && (|rest| == |waiting| ==> board.events == old(board.events))
  {
    hide AppendTo;
    var count: int := *;
    rest := waiting;
    while count > 0 && rest != []
      invariant old(board.events) <= board.events
      invariant |rest| <= |waiting| && (|rest| == |waiting| ==> board.events == old(board.events))
      decreases |rest|
    {
      AppendGrows(board.Value(), rest[0].event, rest[0].now);
      var result := board.Append(rest[0].event, rest[0].now);
      rest, count := rest[1..], count - 1;
    }
  }

  /** A page that is not empty moves the cursor. */
  lemma {:induction false} PageMoves(log: seq<Event>, cursor: int, types: Option<set<Kind>>, limit: nat)
    requires -1 <= cursor && Page(log, cursor, types, limit) != []
    ensures var page := Page(log, cursor, types, limit);
            cursor < page[|page| - 1].offset < |log|
    decreases |log| - cursor
  {
    var n := cursor + 1;
    if !Requested(log[n], types) {
      PageMoves(log, n, types, limit);
    } else if Page(log, n, types, limit - 1) != [] {
      PageMoves(log, n, types, limit - 1);
    }
  }
}
