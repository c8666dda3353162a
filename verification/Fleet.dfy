/** Any number of agent processes on one board: in every run an intent is handed to at
    most one device, and to it at most once when polls start with an empty mailbox. */
module Fleet {
  import opened Events
  import opened Admission
  import opened Board
  import opened Store
  import opened Loop
  import opened AgentHost
  import opened Mailbox
  import opened Handling
  import opened DispatchSafety

  /** The processes by device, and the board they share. The board kept in a process is
      the one it last saw. */
  datatype Fleet = Fleet(board: State, hosts: map<string, Host>)

  datatype FleetMove = FleetMove(device: string, move: Move)

  function HostOf(f: Fleet, device: string): Host {
    (if device in f.hosts then f.hosts[device] else START).(board := f.board)
  }

  function StepFleet(f: Fleet, m: FleetMove): Fleet {
    var after := Step(m.device, HostOf(f, m.device), m.move);
    Fleet(after.board, f.hosts[m.device := after])
  }

  /** The fleet after any interleaving of its processes' moves; appends by clients
      other than the processes are moves of any of them. */
  function RunFleet(moves: seq<FleetMove>): Fleet {
    if moves == [] then Fleet(EMPTY, map[]) else StepFleet(RunFleet(moves[..|moves| - 1]), moves[|moves| - 1])
  }

  /** Every poll of every process starts with an empty mailbox. */
  predicate FleetStartsEmpty(moves: seq<FleetMove>) {
    forall n | 0 <= n < |moves| :: StartsEmpty(HostOf(RunFleet(moves[..n]), moves[n].device), moves[n].move)
  }

  ghost predicate AllSound(f: Fleet) {
    forall device :: Sound(device, HostOf(f, device))
  }

  ghost predicate AllSafe(f: Fleet) {
    forall device :: Safe(device, HostOf(f, device))
  }

  // ---------------------------------------------------------------------
  // What a move of the fleet is to each of its processes
  // ---------------------------------------------------------------------

  /** An event that no board accepts. */
  const NOTHING := Event(Plain(""), Clue, EvidenceLedger, NO_CONTENT, "", None, None, None, 0, 0.0, 0, 0)

  /** To the board every move is one append, possibly of nothing. */
  lemma MoveAppendsOnce(device: string, h: Host, move: Move) returns (e: Event, now: real)
    ensures Step(device, h, move).board == AppendTo(h.board, e, now).0
  {
    hide AppendTo, Cleaned, Resolved, Quarantined, Lists, TakeInput, PollBoard, SaveProposed, Stage, Submit, Check,
      MarkDispatching, CountDispatch, Judge, SaveAfter, CommitOffset, Resolve, ReplayNext;
    e, now := NOTHING, 0.0;
    NothingIsAppended(h.board);
    match move
    case Environment(event, time) => e, now := event, time;
    case Advance(choice) =>
      if h.pc.Appending? {
        e, now := h.pc.event, choice.now;
      }
      SubmittingAppendsOnce(h, choice);
      OthersAppendNothing(device, h, choice);
    case _ =>
  }

  lemma NothingIsAppended(b: State)
    ensures AppendTo(b, NOTHING, 0.0).0 == b
  {
  }

  lemma SubmittingAppendsOnce(h: Host, choice: Choice)
    ensures h.pc.Staging? ==> Stage(h, h.pc.event, h.pc.source, h.pc.purpose).board == h.board
    ensures h.pc.Appending? ==>
              Submit(h, h.pc.place, h.pc.event, h.pc.source, h.pc.purpose, choice.now).board ==
              AppendTo(h.board, h.pc.event, choice.now).0
    ensures h.pc.Replaying? ==> ReplayNext(h, h.pc.todo).board == h.board
  {
    hide AppendTo, StagedEvent, Staged, AfterPublishing, Canonical;
  }

  lemma OthersAppendNothing(device: string, h: Host, choice: Choice)
    ensures TakeInput(device, h, choice).board == h.board && PollBoard(h, choice.limit).board == h.board
    ensures h.pc.SavingProposed? ==> SaveProposed(h, h.pc.work, h.pc.sub).board == h.board
    ensures h.pc.Checking? ==> Check(h, h.pc.work, h.pc.sub, choice).board == h.board
    ensures h.pc.Marking? ==> MarkDispatching(h, h.pc.work, h.pc.sub).board == h.board
    ensures h.pc.Sending? ==> CountDispatch(h, h.pc.work, h.pc.sub).board == h.board
    ensures h.pc.Judging? ==> Judge(h, h.pc.work, h.pc.sub, choice).board == h.board
    ensures h.pc.Finishing? ==> SaveAfter(h, h.pc.work).board == h.board
    ensures h.pc.Committing? ==> CommitOffset(h, h.pc.work).board == h.board
    ensures h.pc.Resolving? ==> Resolve(h, h.pc.work).board == h.board
  {
    hide LoopStep, InputAt, Saved, MaySave, ReceiptEvent, IntentEvent, InterceptEvent, Resolved, Page, Deliver;
  }

  /** To a process the moves of the others are appends by other clients. */
  lemma EachMoves(f: Fleet, m: FleetMove, device: string) returns (move: Move)
    ensures if device == m.device then move == m.move else move.Environment?
    ensures HostOf(StepFleet(f, m), device) == Step(device, HostOf(f, device), move)
  {
    hide AppendTo, AdvanceTo;
    move := m.move;
    if device != m.device {
      var e, now := MoveAppendsOnce(m.device, HostOf(f, m.device), m.move);
      move := Environment(e, now);
    }
  }

  lemma FleetStepIsSound(f: Fleet, m: FleetMove)
    requires AllSound(f)
    ensures AllSound(StepFleet(f, m))
  {
    hide Sound, Step, StepFleet, HostOf;
    forall device
      ensures Sound(device, HostOf(StepFleet(f, m), device))
    {
      var move := EachMoves(f, m, device);
      StepIsSound(device, HostOf(f, device), move);
    }
  }

  lemma {:induction false} FleetIsSound(moves: seq<FleetMove>)
    ensures AllSound(RunFleet(moves))
  {
    hide StepFleet, Sound;
    if moves == [] {
      forall device
        ensures Sound(device, HostOf(RunFleet(moves), device))
      {
        RunIsSound(device, []);
        NobodyRun(device);
      }
    } else {
      FleetIsSound(moves[..|moves| - 1]);
      FleetStepIsSound(RunFleet(moves[..|moves| - 1]), moves[|moves| - 1]);
    }
  }

  lemma NobodyRun(device: string)
    ensures HostOf(RunFleet([]), device) == START == RunHost(device, [])
    ensures PollsStartEmpty(device, [])
  {
  }

  lemma FleetStepIsSafe(f: Fleet, m: FleetMove)
    requires AllSafe(f) && StartsEmpty(HostOf(f, m.device), m.move)
    ensures AllSafe(StepFleet(f, m))
  {
    hide Safe, Step, StepFleet, HostOf;
    forall device
      ensures Safe(device, HostOf(StepFleet(f, m), device))
    {
      var move := EachMoves(f, m, device);
      StepIsSafe(device, HostOf(f, device), move);
    }
  }

  lemma {:induction false} FleetIsSafe(moves: seq<FleetMove>)
    requires FleetStartsEmpty(moves)
    ensures AllSafe(RunFleet(moves))
  {
    hide StepFleet, Safe, StartsEmpty;
    if moves == [] {
      forall device
        ensures Safe(device, HostOf(RunFleet(moves), device))
      {
        NobodyRun(device);
        RunIsSafe(device, []);
      }
    } else {
      FleetStartsEmptyBefore(moves);
      FleetIsSafe(moves[..|moves| - 1]);
      FleetStepIsSafe(RunFleet(moves[..|moves| - 1]), moves[|moves| - 1]);
    }
  }

  lemma FleetStartsEmptyBefore(moves: seq<FleetMove>)
    requires moves != [] && FleetStartsEmpty(moves)
    ensures var before := moves[..|moves| - 1];
            var last := moves[|moves| - 1];
            FleetStartsEmpty(before) && StartsEmpty(HostOf(RunFleet(before), last.device), last.move)
  {
    hide RunFleet, StartsEmpty, HostOf;
    var before := moves[..|moves| - 1];
    forall n | 0 <= n < |before|
      ensures StartsEmpty(HostOf(RunFleet(before[..n]), before[n].device), before[n].move)
    {
      assert before[..n] == moves[..n];
    }
  }

  // ---------------------------------------------------------------------
  // One device
  // ---------------------------------------------------------------------

  /** A plan that gives an identifier to one device names it in the intents of that
      device only. */
  lemma IntentNamesDevice(a: string, b: string, e: Event, intent: IntentId)
    requires Triggers(a, e, intent) && Triggers(b, e, intent) && IsUnambiguous(e.content)
    ensures a == b
  {
    var plan := GetOr(e.content.assignments, []);
    assert StillPlanned(FirstFor(plan, a).value, plan);
    assert StillPlanned(FirstFor(plan, b).value, plan);
  }

  /** The process has dispatched the intent or is about to. */
  predicate HasWork(h: Host, intent: IntentId) {
    intent in h.dispatches || (h.pc.Sending? && h.pc.sub.intent == intent)
  }

  lemma WorkIsPlanned(device: string, h: Host, intent: IntentId) returns (i: nat)
    requires Sound(device, h) && HasWork(h, intent)
    ensures i < |h.board.log| && Triggers(device, h.board.log[i], intent) && IsUnambiguous(h.board.log[i].content)
  {
    hide Valid, SessionsNamed, OutboxShaped, HasIntent, Holds, Triggers, IsUnambiguous, IsLegal;
    if intent in h.dispatches {
      i := h.dispatches[intent].source;
      assert DispatchSound(device, h.board.log, intent, h.dispatches[intent]);
    } else {
      i := h.pc.work.offset;
    }
  }

  /** Two devices never have the same intent, dispatched or about to be. */
  lemma DispatchNamesDevice(f: Fleet, a: string, b: string, intent: IntentId)
    requires AllSound(f)
    requires HasWork(HostOf(f, a), intent) && HasWork(HostOf(f, b), intent)
    ensures a == b
  {
    hide HasWork, Triggers, IsUnambiguous, SessionsNamed, OutboxShaped, DispatchesSound, PcSound, AdmittedLog,
      IndexesExact;
    assert Sound(a, HostOf(f, a));
    var i := WorkIsPlanned(a, HostOf(f, a), intent);
    var j := WorkIsPlanned(b, HostOf(f, b), intent);
    TriggerIsUnique(a, b, f.board.log, i, j, intent);
    IntentNamesDevice(a, b, f.board.log[i], intent);
  }

  /** The move hands the intent to its device. */
  predicate FleetSends(f: Fleet, m: FleetMove, intent: IntentId) {
    Sends(HostOf(f, m.device), m.move, intent)
  }

  lemma StepKeepsDispatched(device: string, h: Host, move: Move, intent: IntentId)
    ensures intent in h.dispatches ==> intent in Step(device, h, move).dispatches
    ensures Sends(h, move, intent) ==> intent in Step(device, h, move).dispatches
  {
    hide AppendTo, Cleaned, Resolved, Quarantined, Lists, TakeInput, PollBoard, SaveProposed, Stage, Submit, Check,
      MarkDispatching, Judge, SaveAfter, CommitOffset, Resolve, ReplayNext;
    if move.Advance? {
      PublishingSendsNothing(h, move.choice);
      HandlingSendsNothing(device, h, move.choice);
      ClosingSendsNothing(h, move.choice);
    }
  }

  lemma {:induction false} DispatchedStays(moves: seq<FleetMove>, n: nat, intent: IntentId)
    requires n < |moves| && FleetSends(RunFleet(moves[..n]), moves[n], intent)
    ensures intent in HostOf(RunFleet(moves), moves[n].device).dispatches
  {
    hide StepFleet, HostOf, Step, Sends;
    var before := moves[..|moves| - 1];
    var device := moves[n].device;
    var move := EachMoves(RunFleet(before), moves[|moves| - 1], device);
    StepKeepsDispatched(device, HostOf(RunFleet(before), device), move, intent);
    if n < |before| {
      assert before[..n] == moves[..n];
      DispatchedStays(before, n, intent);
    }
  }

  /** For any number of devices on one board and every schedule, whatever their mailboxes
      hand over again: an intent is handed to one device only, although its name
      mentions none. */
  lemma OneDeviceInTheFleet(moves: seq<FleetMove>, m: nat, n: nat, intent: IntentId)
    requires m < n < |moves|
    requires FleetSends(RunFleet(moves[..m]), moves[m], intent) && FleetSends(RunFleet(moves[..n]), moves[n], intent)
    ensures moves[m].device == moves[n].device
  {
    hide RunFleet, HostOf, AllSound;
    assert moves[..n][..m] == moves[..m];
    DispatchedStays(moves[..n], m, intent);
    FleetIsSound(moves[..n]);
    DispatchNamesDevice(RunFleet(moves[..n]), moves[m].device, moves[n].device, intent);
  }

  // ---------------------------------------------------------------------
  // Once
  // ---------------------------------------------------------------------

  /** How often a run of the fleet hands the intent to a device, whichever it is. */
  function FleetSent(moves: seq<FleetMove>, intent: IntentId): nat {
    if moves == [] then 0
    else
      var before := moves[..|moves| - 1];
      FleetSent(before, intent) + (if FleetSends(RunFleet(before), moves[|moves| - 1], intent) then 1 else 0)
  }

  lemma SendingIsNew(device: string, h: Host, intent: IntentId)
    requires Safe(device, h)
    ensures h.pc.Sending? && h.pc.sub.intent == intent ==> intent !in h.dispatches
  {
    hide Sound, InOrder, DispatchesOnce;
  }

  lemma SafeIsSound(f: Fleet)
    requires AllSafe(f)
    ensures AllSound(f)
  {
    hide Sound, InOrder, Once;
    forall device
      ensures Sound(device, HostOf(f, device))
    {
      assert Safe(device, HostOf(f, device));
    }
  }

  /** Nothing was sent before the first time. */
  lemma {:induction false} NothingSentBefore(moves: seq<FleetMove>, m: FleetMove, intent: IntentId)
    requires FleetStartsEmpty(moves) && FleetSends(RunFleet(moves), m, intent)
    ensures FleetSent(moves, intent) == 0
  {
    hide StepFleet, Safe, Sends, StartsEmpty, FleetStartsEmpty, FleetSends;
    FleetIsSafe(moves);
    SafeIsSound(RunFleet(moves));
    if FleetSent(moves, intent) != 0 {
      var n := SomebodySent(moves, intent);
      DispatchedStays(moves, n, intent);
      SendersHaveWork(RunFleet(moves), m, intent);
      DispatchNamesDevice(RunFleet(moves), moves[n].device, m.device, intent);
      SendingIsNew(m.device, HostOf(RunFleet(moves), m.device), intent);
      assert false;
    }
  }

  lemma SendersHaveWork(f: Fleet, m: FleetMove, intent: IntentId)
    requires FleetSends(f, m, intent)
    ensures HasWork(HostOf(f, m.device), intent)
    ensures HostOf(f, m.device).pc.Sending? && HostOf(f, m.device).pc.sub.intent == intent
    ensures forall device | intent in HostOf(f, device).dispatches :: HasWork(HostOf(f, device), intent)
  {
  }

  lemma {:induction false} SomebodySent(moves: seq<FleetMove>, intent: IntentId) returns (n: nat)
    requires FleetSent(moves, intent) != 0
    ensures n < |moves| && FleetSends(RunFleet(moves[..n]), moves[n], intent)
  {
    hide RunFleet, FleetSends;
    var before := moves[..|moves| - 1];
    n := |before|;
    if !FleetSends(RunFleet(before), moves[n], intent) {
      n := SomebodySent(before, intent);
      assert before[..n] == moves[..n];
    }
  }

  lemma SentIsRecorded(moves: seq<FleetMove>, intent: IntentId)
    ensures FleetSent(moves, intent) != 0 ==> HasIntent(RunFleet(moves).board.log, intent)
  {
    hide RunFleet, FleetSends, HasIntent, Valid, SessionsNamed, OutboxShaped, PcSound, GivesWork;
    if FleetSent(moves, intent) != 0 {
      var n := SomebodySent(moves, intent);
      var device := moves[n].device;
      DispatchedStays(moves, n, intent);
      FleetIsSound(moves);
      var h := HostOf(RunFleet(moves), device);
      assert Sound(device, h);
      assert DispatchSound(device, h.board.log, intent, h.dispatches[intent]);
    }
  }

  /** For any number of devices on one board and every schedule of their steps,
      crashes, restarts and appends by others in which polls start with an empty
      mailbox, an intent is handed over at most once in the whole fleet, and is then on
      the board. */
  lemma {:induction false} OneDispatchInTheFleet(moves: seq<FleetMove>, intent: IntentId)
    requires FleetStartsEmpty(moves)
    ensures FleetSent(moves, intent) <= 1
    ensures FleetSent(moves, intent) == 1 ==> HasIntent(RunFleet(moves).board.log, intent)
  {
    hide RunFleet, FleetSends, HasIntent;
    SentIsRecorded(moves, intent);
    if moves != [] {
      var before := moves[..|moves| - 1];
      FleetStartsEmptyBefore(moves);
      OneDispatchInTheFleet(before, intent);
      if FleetSends(RunFleet(before), moves[|moves| - 1], intent) {
        NothingSentBefore(before, moves[|moves| - 1], intent);
      }
    }
  }
}
