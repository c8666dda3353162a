/** The agent process as it runs: each method performs its writes in program order
    while other clients append to the board, and between crashes it moves through
    exactly the states of the state machine. */
module AgentProcess {
  import opened Events
  import opened TaskView
  import opened Board
  import opened Store
  import opened Loop
  import opened AgentHost
  import opened Mailbox

  const NO_ANSWER := Choice(1, 0.0, false, NO_REST, NO_REST)

  /** The clock and the bid engine, with the answers they gave so far. */
  class Surroundings {
    var asked: seq<Choice>

    method Ask() returns (answer: Choice)
      modifies this
      ensures asked == old(asked) + [answer]
    {
      answer := *;
      asked := asked + [answer];
    }
  }

  /** Whether a safety check allows what it was asked about, and the data of its verdict. */
  datatype Verdict = Verdict(allowed: bool, data: Rest)

  /** A check that was made, before the action or after it, and then of its receipt. */
  datatype SafetyCheck = SafetyCheck(intent: IntentId, phase: Phase, receipt: Option<Rest>, verdict: Verdict)

  /** The safety guard, with the checks it made so far. */
  class SafetyGuard {
    var checks: seq<SafetyCheck>

    method PreCheck(intent: IntentId) returns (verdict: Verdict)
      modifies this
      ensures checks == old(checks) + [SafetyCheck(intent, Pre, None, verdict)]
    {
      verdict := *;
      checks := checks + [SafetyCheck(intent, Pre, None, verdict)];
    }

    method PostCheck(intent: IntentId, receipt: Rest) returns (verdict: Verdict)
      modifies this
      ensures checks == old(checks) + [SafetyCheck(intent, Post, Some(receipt), verdict)]
    {
      verdict := *;
      checks := checks + [SafetyCheck(intent, Post, Some(receipt), verdict)];
    }
  }

  /** The device behind the process, with the intents handed to it so far and its receipts;
      there is none where the dispatch raises, or where it answers for another action. */
  class PhysicalActionGateway {
    var dispatched: seq<IntentId>
    var receipts: seq<Option<Rest>>

    method Dispatch(intent: IntentId) returns (receipt: Option<Rest>)
      modifies this
      ensures dispatched == old(dispatched) + [intent]
      ensures receipts == old(receipts) + [receipt]
    {
      receipt := *;
      dispatched := dispatched + [intent];
      receipts := receipts + [receipt];
    }
  }

  /** What stands for the receipt, and for the verdict on it, of a dispatch without an
      authoritative answer. */
  const UNKNOWN_RECEIPT := NO_REST.(details := NO_DETAILS.(certainty := "unknown"))
  const UNKNOWN_VERDICT := Verdict(false, NO_REST)

  /** A verdict, and the receipt it is about, as the answer a step of the machine takes. */
  function VerdictAnswer(verdict: Verdict, receipt: Option<Rest>): Choice {
    NO_ANSWER.(allowed := verdict.allowed, data := verdict.data,
               outcome := if receipt.Some? then receipt.value else UNKNOWN_RECEIPT)
  }

  /** The checks that follow a dispatch: one of its receipt, if there is any. */
  ghost predicate IsJudged(intent: IntentId, receipt: Option<Rest>, post: Verdict, checks: seq<SafetyCheck>) {
    if receipt.Some? then checks == [SafetyCheck(intent, Post, receipt, post)]
    else checks == [] && post == UNKNOWN_VERDICT
  }

  /** The outputs after a dispatch: the intercept of a refused outcome, and then the receipt
      with what the device and the check said. */
  ghost function Judgement(sub: Submission, receipt: Option<Rest>, post: Verdict): seq<Event> {
    (if post.allowed then [] else [InterceptEvent(sub, Post, post.data)])
    + [ReceiptEvent(sub, Outcome(VerdictAnswer(post, receipt)))]
  }

  /** The stored session of the intent's task counts it as being dispatched, in a newer
      version; nothing else has changed. */
  ghost predicate IsMarked(sub: Submission, before: map<string, Session>, after: map<string, Session>) {
    && sub.intent.task in before
    && var s := before[sub.intent.task];
    && s.intent.Some? && s.intent.value.id == sub.intent
    && var marked := s.(intent := Some(s.intent.value.(state := Dispatching)), version := s.version + 1);
       after == before[s.task := marked]
  }

  /** What an execution leaves behind the publication of its intent: the checks it made, what
      it handed to the device and heard from it, and the outputs it handed over. */
  ghost predicate HasDecided(sub: Submission, post: Verdict, checks: seq<SafetyCheck>, sent: seq<IntentId>,
                             heard: seq<Option<Rest>>, outputs: seq<Event>, raw: Option<IntentId>)
  {
    && checks != []
    && var pre := checks[0].verdict;
    && checks[0] == SafetyCheck(sub.intent, Pre, None, pre)
    && if !pre.allowed then
         && checks[1..] == [] && sent == [] && heard == [] && raw.None?
         && outputs == [InterceptEvent(sub, Pre, pre.data)]
       else
         && sent == [sub.intent] && raw == Some(sub.intent)
         && |heard| == 1 && IsJudged(sub.intent, heard[0], post, checks[1..])
         && outputs == Judgement(sub, heard[0], post)
  }

  lemma GoingOn(w: Work, sub: Submission, outcome: Rest)
    ensures Onward(w, ToFinish) == Finishing(w)
    ensures Onward(w, ToReceipt(sub, outcome)) ==
            Staging(ReceiptEvent(sub, outcome), Some(w.offset), Handle(w.(raw := Some(sub.intent)), ToFinish))
  {
  }

  /** The step takes up what the clock and the bid engine answered. */
  ghost predicate UsesAnswer(h: Host) {
    || h.pc.Appending?
    || (h.pc.Ready? && h.mailbox != [] && h.mailbox[0] < |h.board.log|
        && TaskOf(h.board.log[h.mailbox[0]].content) != "")
  }

  /** The output of a handling that the step stages. */
  ghost function Produces(h: Host): seq<Event> {
    if h.pc.Staging? && h.pc.purpose.Handle? then [h.pc.event] else []
  }

  function DispatchCount(h: Host, intent: IntentId): nat {
    if intent in h.dispatches then h.dispatches[intent].count else 0
  }

  /** The queue between a poll and the handling of what it read; an envelope is the offset
      of its event. */
  class SimpleMailbox {
    const maxsize: int
    var queue: seq<nat>

    constructor (maxsize: int)
      ensures this.maxsize == maxsize && queue == []
    {
      this.maxsize := maxsize;
      queue := [];
    }

    method Put(envelope: nat) returns (ok: bool)
      modifies this
      ensures ok <==> maxsize <= 0 || |old(queue)| < maxsize
      ensures queue == if ok then old(queue) + [envelope] else old(queue)
    {
      ok := maxsize <= 0 || |queue| < maxsize;
      if ok {
        queue := queue + [envelope];
      }
    }

    method Get() returns (envelope: Option<nat>)
      modifies this
      ensures old(queue) == [] ==> envelope.None? && queue == []
      ensures old(queue) != [] ==> envelope == Some(old(queue)[0]) && queue == old(queue)[1..]
    {
      if queue == [] {
        return None;
      }
      envelope := Some(queue[0]);
      queue := queue[1..];
    }
  }

  /** The event is on the board, as the same business event. */
  ghost predicate IsOnBoard(log: seq<Event>, e: Event) {
    exists i :: 0 <= i < |log| && Canonical(log[i]) == Canonical(e)
  }

  /** Another event has ended the task and revision that the event would end. */
  ghost predicate IsOutlived(log: seq<Event>, e: Event) {
    exists i :: 0 <= i < |log| && SharesTerminal(e, log[i]) && Canonical(log[i]) != Canonical(e)
  }

  lemma BoardRemembers(log: seq<Event>, longer: seq<Event>, e: Event)
    requires log <= longer
    ensures IsOnBoard(log, e) ==> IsOnBoard(longer, e)
    ensures IsOutlived(log, e) ==> IsOutlived(longer, e)
  {
    hide Canonical, SharesTerminal;
    if i :| 0 <= i < |log| && Canonical(log[i]) == Canonical(e) {
      assert longer[i] == log[i];
    }
    if i :| 0 <= i < |log| && SharesTerminal(e, log[i]) && Canonical(log[i]) != Canonical(e) {
      assert longer[i] == log[i];
    }
  }

  /** What an append that is neither refused nor in conflict with a key leaves on the board. */
  lemma AppendSettles(b: State, e: Event, now: real)
    requires Valid(b)
    ensures Valid(AppendTo(b, e, now).0)
    ensures var (after, r) := AppendTo(b, e, now);
            && (r.status.Appended? || r.status.DuplicateSame? ==> IsOnBoard(after.log, e))
            && (r.status.TerminalConflict? ==> IsOutlived(after.log, e))
  {
    hide EventError, IdentityAnswer, Valid, SharesTerminal, Canonical, RunsInto;
    AppendKeepsValid(b, e, now);
    AcceptedMeansCommitted(b, e, now);
    if AppendTo(b, e, now).1.status.TerminalConflict? {
      ConflictIsOutlived(b, e, now);
    }
  }

  lemma ConflictIsOutlived(b: State, e: Event, now: real)
    requires Valid(b) && AppendTo(b, e, now).1.status.TerminalConflict?
    ensures IsOutlived(b.log, e)
  {
    hide EventError, IdentityAnswer, Valid, SharesTerminal, Canonical, SharesKey;
    AnswerIsExact(b, e, now);
    var r := AppendTo(b, e, now).1;
    var i: nat :|
      && RunsInto(b.log, e, i) && r.offset == Some(i)
      && r.status == if Canonical(b.log[i]) == Canonical(e) then DuplicateSame
                     else if SharesTerminal(e, b.log[i]) then TerminalConflict
                     else KeyConflict;
  }

  // ---------------------------------------------------------------------
  // What a replay of the outbox has done
  // ---------------------------------------------------------------------

  /** Every record lies under its own task and key. */
  ghost predicate IsKeyed(outbox: map<Place, Record>) {
    forall p | p in outbox :: outbox[p].event.key == Some(p.1) && TaskOf(outbox[p].event.content) == p.0
  }

  /** The input of the record is committed, or there is none. */
  predicate IsDue(record: Record, offset: int) {
    (record.source.None? || record.source.value <= offset) && TaskOf(record.event.content) != ""
  }

  /** A due record that was listed is gone once its event is on the board, and stays only
      because another event has ended its task; every other record stays as it was. */
  ghost predicate IsReplayed(before: map<Place, Record>, offset: int, listed: seq<Place>, after: map<Place, Record>,
                             log: seq<Event>)
  {
    && after.Keys <= before.Keys
    && forall p | p in before ::
         && (p in after ==> after[p] == before[p])
         && if p in listed && IsDue(before[p], offset) then
              if p in after then IsOutlived(log, before[p].event) else IsOnBoard(log, before[p].event)
            else p in after
  }

  lemma NothingReplayed(before: map<Place, Record>, offset: int, log: seq<Event>)
    ensures IsReplayed(before, offset, [], before, log)
  {
  }

  lemma ReplayGoesOn(before: map<Place, Record>, offset: int, listed: seq<Place>, after: map<Place, Record>,
                     log: seq<Event>, place: Place, now: map<Place, Record>, longer: seq<Event>)
    requires IsReplayed(before, offset, listed, after, log) && log <= longer
    requires now == after || now == after - {place}
    requires place !in before ==> now == after
    requires place in before && !IsDue(before[place], offset) ==> now == after
    requires place in after && IsDue(before[place], offset) ==>
               if place in now then IsOutlived(longer, before[place].event) else IsOnBoard(longer, before[place].event)
    ensures IsReplayed(before, offset, listed + [place], now, longer)
  {
    hide IsDue, IsOutlived, IsOnBoard;
    forall p | p in before
      ensures IsOnBoard(log, before[p].event) ==> IsOnBoard(longer, before[p].event)
      ensures IsOutlived(log, before[p].event) ==> IsOutlived(longer, before[p].event)
    {
      BoardRemembers(log, longer, before[p].event);
    }
  }

  /** The loop declined to consume the input on the board as it was, nothing was written,
      and the input is no longer in the mailbox. */
  ghost predicate IsLeftOver(device: string, before: Host, after: Host, offset: nat) {
    && before.mailbox != [] && offset < |after.board.log|
    && after == before.(board := after.board, mailbox := before.mailbox[1..], pc := Polling)
    && exists answer ::
         var r := LoopStep(device, InputAt(after, offset, answer));
         r.Stepped? && !r.consumed
  }

  class AgentProcessHost {
    const device: string
    const store: FileTaskSessionStore
    const blackboard: Blackboard
    const loop: PureAgentLoop
    const surroundings: Surroundings
    const safety: SafetyGuard
    const gateway: PhysicalActionGateway
    const mailbox: SimpleMailbox
    var pendingCommitKeys: seq<Place>
    ghost var machine: Host
    ghost const origin: Host
    ghost var trail: seq<Move>
    ghost var answered: seq<Choice>
    ghost var produced: seq<Event>

    /** A process that has just been started, with the outbox records it found. */
    constructor (device: string, store: FileTaskSessionStore, blackboard: Blackboard, loop: PureAgentLoop,
                 surroundings: Surroundings, safety: SafetyGuard, gateway: PhysicalActionGateway, order: seq<Place>,
                 mailboxSize: int)
      requires loop.deviceId == device && gateway.dispatched == [] && Lists(order, store.Value())
      ensures Tracks() && fresh(mailbox)
      ensures machine.pc == Replaying(order) && machine.disk == store.Value() && machine.board == blackboard.Value()
      ensures this.device == device && this.store == store && this.blackboard == blackboard && this.gateway == gateway
      ensures this.surroundings == surroundings && this.safety == safety && produced == []
    {
      this.device := device;
      this.store := store;
      this.blackboard := blackboard;
      this.loop := loop;
      this.surroundings := surroundings;
      this.safety := safety;
      this.gateway := gateway;
      var box := new SimpleMailbox(mailboxSize);
      mailbox := box;
      pendingCommitKeys := [];
      origin := Host(store.Value(), blackboard.Value(), Replaying(order), [], mailboxSize, map[], map[], 0, 0, 0);
      machine := Host(store.Value(), blackboard.Value(), Replaying(order), [], mailboxSize, map[], map[], 0, 0, 0);
      trail, answered, produced := [], surroundings.asked, [];
      new;
      NoSteps(device, origin);
    }

    /** The machine has reached its state by its own steps and others' appends, and its disk,
        its board, its dispatches and the answers it took up are the real ones. */
    ghost predicate Follows()
      reads this, store, blackboard, surroundings, gateway
    {
      && loop.deviceId == device
      && machine == Steps(device, origin, trail) && origin.mailbox == []
      && machine.disk == store.Value()
      && machine.board == blackboard.Value()
      && machine.maxsize == mailbox.maxsize
      && answered == surroundings.asked
      && forall x :: multiset(gateway.dispatched)[x] == DispatchCount(machine, x)
    }

    /** And so is its mailbox. */
    ghost predicate Tracks()
      reads this, store, blackboard, surroundings, gateway, mailbox
    {
      Follows() && machine.mailbox == mailbox.queue
    }

    ghost method Advance(answer: Choice)
      requires machine == Steps(device, origin, trail)
      modifies this`machine, this`trail, this`answered, this`produced
      ensures machine == Steps(device, origin, trail)
      ensures machine == AdvanceTo(device, old(machine), answer)
      ensures answered == old(answered) + if UsesAnswer(old(machine)) then [answer] else []
      ensures produced == old(produced) + Produces(old(machine))
      ensures !old(machine).pc.Polling? && !old(machine).pc.Ready? ==>
                machine.mailbox == old(machine).mailbox && machine.maxsize == old(machine).maxsize
    {
      if !machine.pc.Polling? && !machine.pc.Ready? {
        AdvanceKeepsMail(device, machine, answer);
      }
      StepsExtend(device, origin, trail, Move.Advance(answer));
      answered := if UsesAnswer(machine) then answered + [answer] else answered;
      produced := produced + Produces(machine);
      machine := AdvanceTo(device, machine, answer);
      trail := trail + [Move.Advance(answer)];
    }

    /** Whatever other clients append meanwhile. It is called where the process is about
        to look at the board, since nothing else it does depends on the board. */
    method LetOthersAppend()
      requires Follows()
      modifies this`machine, this`trail, blackboard
      ensures Follows() && machine == old(machine).(board := machine.board)
      ensures old(blackboard.events) <= blackboard.events
      ensures Valid(old(blackboard.Value())) ==> Valid(blackboard.Value())
    {
      hide AppendTo, Steps, AdvanceTo, Valid;
      var count: int := *;
      for n := 0 to if count > 0 then count else 0
        invariant Follows() && machine == old(machine).(board := machine.board)
        invariant old(blackboard.events) <= blackboard.events
        invariant Valid(old(blackboard.Value())) ==> Valid(blackboard.Value())
      {
        var event: Event := *;
        var now: real := *;
        AppendGrows(blackboard.Value(), event, now);
        if Valid(blackboard.Value()) {
          AppendKeepsValid(blackboard.Value(), event, now);
        }
        var result := blackboard.Append(event, now);
        StepsExtend(device, origin, trail, Environment(event, now));
        machine := Step(device, machine, Environment(event, now));
        trail := trail + [Environment(event, now)];
      }
    }

    /** Persists the event in the outbox, or finds the one persisted before. */
    method StageOutput(event: Event, source: Option<nat>, ghost purpose: Purpose) returns (staged: Option<Event>)
      requires Tracks() && machine.pc == Staging(event, source, purpose)
      modifies this, store
      ensures Tracks() && pendingCommitKeys == old(pendingCommitKeys)
      ensures produced == old(produced) + Produces(old(machine))
      ensures if staged.Some? then
                && event.key.Some?
                && machine.pc == Appending((TaskOf(event.content), event.key.value), staged.value, source, purpose)
              else machine.pc.Down?
      ensures store.lastOffset == old(store.lastOffset)
      ensures staged.Some? ==>
                var place := (TaskOf(event.content), event.key.value);
                && staged == StagedEvent(old(store.Value()), place, event)
                && store.Value() == Staged(old(store.Value()), place, event, source)
    {
      hide AppendTo, Steps, AdvanceTo;
      var task := TaskOf(event.content);
      StageStep(device, machine, NO_ANSWER);
      if event.key.None? || task == "" {
        Advance(NO_ANSWER);
        return None;
      }
      staged := store.StageTaskEvent(task, event.key.value, event, source);
      Advance(NO_ANSWER);
    }

    method RejectOutput(task: string, key: Key)
      requires Tracks() && machine.pc == Rejecting((task, key))
      modifies this, store
      ensures Tracks() && machine.pc.Down? && pendingCommitKeys == old(pendingCommitKeys) && produced == old(produced)
      ensures store.lastOffset == old(store.lastOffset)
    {
      hide AppendTo, Steps, AdvanceTo;
      if (task, key) in store.outbox {
        RejectSteps(device, machine, NO_ANSWER);
        Advance(NO_ANSWER);
      } else {
        RejectNothing(device, machine, NO_ANSWER);
      }
      store.RejectTaskEvent(task, key);
      Advance(NO_ANSWER);
    }

    /** Stages, submits, and quarantines on rejection; raises unless the board has
        accepted the event or answered with a terminal event in its place. */
    method PublishTaskEvent(event: Event, source: Option<nat>, ghost purpose: Purpose)
      returns (alive: bool, accepted: bool)
      requires Tracks() && machine.pc == Staging(event, source, purpose)
      modifies this, store, blackboard, surroundings
      ensures Tracks() && pendingCommitKeys == old(pendingCommitKeys)
      ensures produced == old(produced) + Produces(old(machine))
      ensures if alive then
                && event.key.Some?
                && machine.pc == AfterPublishing(purpose, (TaskOf(event.content), event.key.value), accepted)
              else machine.pc.Down?
      ensures store.lastOffset == old(store.lastOffset)
      ensures old(blackboard.events) <= blackboard.events
      ensures Valid(old(blackboard.Value())) ==> Valid(blackboard.Value())
      ensures alive ==>
                var place := (TaskOf(event.content), event.key.value);
                var staged := StagedEvent(old(store.Value()), place, event);
                && staged.Some? && store.Value() == Staged(old(store.Value()), place, event, source)
                && (Valid(old(blackboard.Value())) ==>
                      if accepted then IsOnBoard(blackboard.events, staged.value)
                      else IsOutlived(blackboard.events, staged.value))
    {
      hide AppendTo, AfterPublishing, Steps, AdvanceTo, Valid, StagedEvent, Staged, IsOnBoard, IsOutlived, Follows;
      var staged := StageOutput(event, source, purpose);
      if staged.None? {
        return false, false;
      }
      var status := SubmitStaged(staged.value, (TaskOf(event.content), event.key.value), source, purpose);
      if status.Rejected? {
        RejectOutput(TaskOf(event.content), event.key.value);
        return false, false;
      }
      if status.KeyConflict? {
        return false, false;
      }
      alive, accepted := true, status.Appended? || status.DuplicateSame?;
    }

    /** Submits the staged event to the board, behind whatever others have appended. */
    method SubmitStaged(staged: Event, ghost place: Place, ghost source: Option<nat>, ghost purpose: Purpose)
      returns (status: AppendStatus)
      requires Tracks() && machine.pc == Appending(place, staged, source, purpose)
      modifies this`machine, this`trail, this`answered, this`produced, blackboard, surroundings
      ensures Tracks() && produced == old(produced)
      ensures machine.pc == match status
                            case Rejected => Rejecting(place)
                            case KeyConflict => Down
                            case TerminalConflict => AfterPublishing(purpose, place, false)
                            case _ => AfterPublishing(purpose, place, true)
      ensures old(blackboard.events) <= blackboard.events
      ensures Valid(old(blackboard.Value())) ==>
                && Valid(blackboard.Value())
                && (status.Appended? || status.DuplicateSame? ==> IsOnBoard(blackboard.events, staged))
                && (status.TerminalConflict? ==> IsOutlived(blackboard.events, staged))
    {
      hide AppendTo, AfterPublishing, Steps, AdvanceTo, Valid, IsOnBoard, IsOutlived;
      LetOthersAppend();
      var answer := surroundings.Ask();
      AppendGrows(blackboard.Value(), staged, answer.now);
      if Valid(blackboard.Value()) {
        AppendSettles(blackboard.Value(), staged, answer.now);
      }
      SubmitStep(device, machine, answer);
      var result := blackboard.Append(staged, answer.now);
      Advance(answer);
      status := result.status;
    }

    /** Publishes one output of the input at hand and remembers its key. */
    method PublishOutput(event: Event, offset: nat, ghost w: Work, ghost next: Next)
      returns (alive: bool, ghost after: Work)
      requires Tracks() && machine.pc == Staging(event, Some(offset), Handle(w, next))
      requires pendingCommitKeys == w.pending
      modifies this, store, blackboard, surroundings
      ensures Tracks() && (!alive ==> machine.pc.Down?) && produced == old(produced) + [event]
      ensures alive ==> machine.pc == Onward(after, next) && after == w.(pending := pendingCommitKeys)
      ensures alive ==> store.rawReceipts == old(store.rawReceipts) && store.sessions == old(store.sessions)
    {
      hide AdvanceTo, Steps, Onward;
      var accepted;
      alive, accepted := PublishTaskEvent(event, Some(offset), Handle(w, next));
      if alive && accepted {
        pendingCommitKeys := pendingCommitKeys + [(TaskOf(event.content), event.key.value)];
      }
      after := w.(pending := pendingCommitKeys);
    }

    /** Marks the stored session, which must work on the intent. */
    method MarkStored(sub: Submission, ghost w: Work) returns (alive: bool)
      requires Tracks() && machine.pc == Marking(w, sub)
      modifies this, store
      ensures Tracks() && pendingCommitKeys == old(pendingCommitKeys) && produced == old(produced)
      ensures machine.pc == if alive then Sending(w, sub) else Down
      ensures alive ==> IsMarked(sub, old(store.sessions), store.sessions)
      ensures store.rawReceipts == old(store.rawReceipts)
    {
      hide AdvanceTo, Steps;
      ExecutionStep(device, machine, NO_ANSWER);
      if sub.intent.task !in store.sessions {
        Advance(NO_ANSWER);
        return false;
      }
      var session := store.sessions[sub.intent.task];
      if session.intent.None? || session.intent.value.id != sub.intent {
        Advance(NO_ANSWER);
        return false;
      }
      session := session.(intent := Some(session.intent.value.(state := Dispatching)));
      session := session.(version := session.version + 1);
      alive := store.SaveSession(session);
      Advance(NO_ANSWER);
    }

    /** Dispatches the intent and keeps the raw receipt. */
    method DispatchIntent(sub: Submission, ghost w: Work) returns (receipt: Option<Rest>)
      requires Tracks() && machine.pc == Sending(w, sub)
      modifies this, store, gateway
      ensures Tracks() && pendingCommitKeys == old(pendingCommitKeys) && produced == old(produced)
      ensures machine.pc == Judging(w, sub)
      ensures store.Value() == old(store.Value()).(
                                 rawReceipts := old(store.rawReceipts) + {(sub.intent.task, sub.intent)})
      ensures gateway.dispatched == old(gateway.dispatched) + [sub.intent]
      ensures gateway.receipts == old(gateway.receipts) + [receipt]
    {
      hide AdvanceTo, Steps;
      ExecutionStep(device, machine, NO_ANSWER);
      receipt := gateway.Dispatch(sub.intent);
      Advance(NO_ANSWER);
      ExecutionStep(device, machine, NO_ANSWER);
      store.StoreRawReceipt(sub.intent.task, sub.intent);
      Advance(NO_ANSWER);
    }

    /** Asks the guard about the receipt, if there is any, and reports the outcome. */
    method Report(sub: Submission, receipt: Option<Rest>, offset: nat, ghost w: Work)
      returns (alive: bool, ghost after: Work, ghost post: Verdict)
      requires Tracks() && machine.pc == Judging(w, sub)
      requires pendingCommitKeys == w.pending && w.offset == offset
      modifies this, store, blackboard, surroundings, safety
      ensures Tracks()
      ensures if alive then
                machine.pc == Finishing(after) && after == w.(pending := pendingCommitKeys, raw := Some(sub.intent))
              else machine.pc.Down?
      ensures alive ==> store.rawReceipts == old(store.rawReceipts) && store.sessions == old(store.sessions)
      ensures old(safety.checks) <= safety.checks
      ensures IsJudged(sub.intent, receipt, post, safety.checks[|old(safety.checks)|..])
      ensures alive ==> produced == old(produced) + Judgement(sub, receipt, post)
    {
      hide AdvanceTo, Steps, InterceptEvent, ReceiptEvent, Outcome, Tracks, Follows, UsesAnswer, Produces, Onward,
        IsJudged;
      var verdict := JudgeReceipt(sub.intent, receipt);
      post := verdict;
      after := w;
      var answer := VerdictAnswer(verdict, receipt);
      JudgeInput(sub, w, answer);
      if !verdict.allowed {
        alive, after := PublishOutput(InterceptEvent(sub, Post, verdict.data), offset, w,
                                      ToReceipt(sub, Outcome(answer)));
        if !alive {
          return;
        }
        GoingOn(after, sub, Outcome(answer));
      }
      after := after.(raw := Some(sub.intent));
      alive, after := PublishOutput(ReceiptEvent(sub, Outcome(answer)), offset, after, ToFinish);
      GoingOn(after, sub, Outcome(answer));
    }

    /** The verdict on a receipt: the guard's, or the one that stands for it. */
    method JudgeReceipt(intent: IntentId, receipt: Option<Rest>) returns (verdict: Verdict)
      modifies safety
      ensures old(safety.checks) <= safety.checks
      ensures IsJudged(intent, receipt, verdict, safety.checks[|old(safety.checks)|..])
    {
      verdict := UNKNOWN_VERDICT;
      if receipt.Some? {
        verdict := safety.PostCheck(intent, receipt.value);
      }
    }

    /** The part of an execution that a safety check has cleared. */
    method Perform(sub: Submission, offset: nat, ghost w: Work)
      returns (alive: bool, ghost after: Work, ghost post: Verdict)
      requires Tracks() && machine.pc == Marking(w, sub)
      requires pendingCommitKeys == w.pending && w.offset == offset
      modifies this, store, blackboard, surroundings, safety, gateway
      ensures Tracks()
      ensures if alive then
                machine.pc == Finishing(after) && after == w.(pending := pendingCommitKeys, raw := Some(sub.intent))
              else machine.pc.Down?
      ensures alive ==>
                && IsMarked(sub, old(store.sessions), store.sessions)
                && store.rawReceipts == old(store.rawReceipts) + {(sub.intent.task, sub.intent)}
      ensures old(safety.checks) <= safety.checks
      ensures alive ==>
                && gateway.dispatched == old(gateway.dispatched) + [sub.intent]
                && |gateway.receipts| == |old(gateway.receipts)| + 1 && old(gateway.receipts) <= gateway.receipts
                && var receipt := gateway.receipts[|gateway.receipts| - 1];
                && IsJudged(sub.intent, receipt, post, safety.checks[|old(safety.checks)|..])
                && produced == old(produced) + Judgement(sub, receipt, post)
      ensures gateway.dispatched == old(gateway.dispatched)
              || gateway.dispatched == old(gateway.dispatched) + [sub.intent]
    {
      hide AdvanceTo, Steps, Tracks, IsJudged, Judgement, IsMarked;
      after, post := w, UNKNOWN_VERDICT;
      alive := MarkStored(sub, w);
      if !alive {
        return;
      }
      var receipt := DispatchIntent(sub, w);
      alive, after, post := Report(sub, receipt, offset, w);
    }

    ghost method JudgeInput(sub: Submission, w: Work, post: Choice)
      requires Tracks() && machine.pc == Judging(w, sub)
      modifies this`machine, this`trail, this`answered, this`produced
      ensures Tracks() && produced == old(produced)
      ensures machine.pc ==
              if post.allowed then
                Staging(ReceiptEvent(sub, Outcome(post)), Some(w.offset), Handle(w.(raw := Some(sub.intent)), ToFinish))
              else
                Staging(InterceptEvent(sub, Post, post.data), Some(w.offset), Handle(w, ToReceipt(sub, Outcome(post))))
    {
      hide AdvanceTo, Steps;
      ExecutionStep(device, machine, post);
      Advance(post);
    }

    ghost method CheckInput(sub: Submission, w: Work, pre: Choice)
      requires Tracks() && machine.pc == Checking(w, sub)
      modifies this`machine, this`trail, this`answered, this`produced
      ensures Tracks() && produced == old(produced)
      ensures machine.pc ==
              if pre.allowed then Marking(w, sub)
              else Staging(InterceptEvent(sub, Pre, pre.data), Some(w.offset), Handle(w, ToFinish))
    {
      hide AdvanceTo, Steps;
      ExecutionStep(device, machine, pre);
      Advance(pre);
    }

    /** Asks the guard, and carries the action out unless it is refused. */
    method Decide(sub: Submission, offset: nat, ghost w: Work)
      returns (alive: bool, raw: Option<IntentId>, ghost after: Work, ghost post: Verdict)
      requires Tracks() && machine.pc == Checking(w, sub)
      requires pendingCommitKeys == w.pending && w.raw.None? && w.offset == offset
      modifies this, store, blackboard, surroundings, safety, gateway
      ensures Tracks()
      ensures if alive then machine.pc == Finishing(after) && after == w.(pending := pendingCommitKeys, raw := raw)
              else machine.pc.Down?
      ensures alive ==>
                && old(safety.checks) <= safety.checks && old(gateway.dispatched) <= gateway.dispatched
                && old(gateway.receipts) <= gateway.receipts && old(produced) <= produced
                && HasDecided(sub, post, safety.checks[|old(safety.checks)|..],
                              gateway.dispatched[|old(gateway.dispatched)|..],
                              gateway.receipts[|old(gateway.receipts)|..], produced[|old(produced)|..], raw)
      ensures alive ==>
                if raw.None? then store.rawReceipts == old(store.rawReceipts) && store.sessions == old(store.sessions)
                else
                  && IsMarked(sub, old(store.sessions), store.sessions)
                  && store.rawReceipts == old(store.rawReceipts) + {(sub.intent.task, sub.intent)}
      ensures gateway.dispatched != old(gateway.dispatched) ==>
                && gateway.dispatched == old(gateway.dispatched) + [sub.intent]
                && |old(safety.checks)| < |safety.checks|
                && var check := safety.checks[|old(safety.checks)|];
                   check.intent == sub.intent && check.phase == Pre && check.verdict.allowed
    {
      hide AdvanceTo, Steps, InterceptEvent, Tracks, Follows, UsesAnswer, Produces, IsJudged, Judgement, IsMarked;
      post, after := UNKNOWN_VERDICT, w;
      var pre := safety.PreCheck(sub.intent);
      CheckInput(sub, w, VerdictAnswer(pre, None));
      if pre.allowed {
        alive, after, post := Perform(sub, offset, w);
        raw := Some(sub.intent);
      } else {
        alive, after := PublishOutput(InterceptEvent(sub, Pre, pre.data), offset, w, ToFinish);
        raw := None;
      }
    }

    /** Carries out a submission: intent, safety check, mark, dispatch, safety check,
        receipt. What the guard refuses before the action is not handed to the device, in
        whatever way the execution ends. */
    method Execute(sub: Submission, offset: nat, ghost w: Work)
      returns (alive: bool, raw: Option<IntentId>, ghost after: Work, ghost post: Verdict)
      requires Tracks() && machine.pc == Staging(IntentEvent(sub), Some(w.offset), Handle(w, ToCheck(sub)))
      requires pendingCommitKeys == w.pending && w.raw.None? && w.offset == offset
      modifies this, store, blackboard, surroundings, safety, gateway
      ensures Tracks()
      ensures if alive then machine.pc == Finishing(after) && after == w.(pending := pendingCommitKeys, raw := raw)
              else machine.pc.Down?
      ensures alive ==>
                && old(safety.checks) <= safety.checks && old(gateway.dispatched) <= gateway.dispatched
                && old(gateway.receipts) <= gateway.receipts && old(produced) + [IntentEvent(sub)] <= produced
                && HasDecided(sub, post, safety.checks[|old(safety.checks)|..],
                              gateway.dispatched[|old(gateway.dispatched)|..],
                              gateway.receipts[|old(gateway.receipts)|..], produced[|old(produced)| + 1..], raw)
      ensures alive ==>
                if raw.None? then store.rawReceipts == old(store.rawReceipts) && store.sessions == old(store.sessions)
                else
                  && IsMarked(sub, old(store.sessions), store.sessions)
                  && store.rawReceipts == old(store.rawReceipts) + {(sub.intent.task, sub.intent)}
      ensures gateway.dispatched != old(gateway.dispatched) ==>
                && gateway.dispatched == old(gateway.dispatched) + [sub.intent]
                && |old(safety.checks)| < |safety.checks|
                && var check := safety.checks[|old(safety.checks)|];
                   check.intent == sub.intent && check.phase == Pre && check.verdict.allowed
    {
      hide AdvanceTo, Steps, IntentEvent, Tracks, Follows, UsesAnswer, Produces, HasDecided, IsMarked;
      raw, post := None, UNKNOWN_VERDICT;
      alive, after := PublishOutput(IntentEvent(sub), offset, w, ToCheck(sub));
      if alive {
        alive, raw, after, post := Decide(sub, offset, after);
      }
    }

    ghost method Open(answer: Choice)
      requires machine == Steps(device, origin, trail)
      requires machine.pc.Ready? || machine.pc.Polling?
      modifies this`machine, this`trail, this`answered, this`produced
      ensures machine == Steps(device, origin, trail)
      ensures machine == if old(machine).pc.Ready? then TakeInput(device, old(machine), answer)
                         else PollBoard(old(machine), answer.limit)
      ensures answered == old(answered) + if UsesAnswer(old(machine)) then [answer] else []
    {
      hide AdvanceTo, Steps, TakeInput, PollBoard;
      OpeningStep(device, machine, answer);
      Advance(answer);
    }

    ghost method Close(answer: Choice)
      requires machine == Steps(device, origin, trail)
      requires machine.pc.Finishing? || machine.pc.Committing? || machine.pc.Resolving?
      modifies this`machine, this`trail, this`answered, this`produced
      ensures machine == Steps(device, origin, trail)
      ensures machine == match old(machine).pc
                         case Finishing(w) => SaveAfter(old(machine), w)
                         case Committing(w) => CommitOffset(old(machine), w)
                         case Resolving(w) => Resolve(old(machine), w)
                         case _ => machine
      ensures answered == old(answered)
    {
      hide AdvanceTo, Steps, SaveAfter, CommitOffset, Resolve;
      ConclusionStep(device, machine, answer);
      Advance(answer);
    }

    /** Stores the session, then the offset. */
    method CommitInput(session: Session, offset: nat, ghost w: Work) returns (alive: bool)
      requires Tracks() && machine.pc == Finishing(w) && w.offset == offset
      requires session == if w.hasSubmit && w.task in store.sessions then store.sessions[w.task] else w.after
      modifies this, store
      ensures Tracks() && pendingCommitKeys == old(pendingCommitKeys)
      ensures machine.pc == if alive then Resolving(w) else Down
      ensures alive ==> store.Value() == Saved(old(store.Value()), session).(offset := offset)
    {
      hide AdvanceTo, Steps;
      alive := store.SaveSession(session);
      Close(NO_ANSWER);
      if alive {
        alive := store.SaveConsumerOffset(offset);
        Close(NO_ANSWER);
      }
    }

    method RemoveRaw(task: string, intent: IntentId, ghost w: Work)
      requires Tracks() && machine.pc == RemovingRaw(w) && w.task == task && w.raw == Some(intent)
      modifies this, store
      ensures Tracks() && machine.pc == AfterRaw(w) && pendingCommitKeys == old(pendingCommitKeys)
      ensures store.Value() == old(store.Value()).(rawReceipts := old(store.rawReceipts) - {(task, intent)})
    {
      hide AdvanceTo, Steps, AfterRaw;
      ConclusionStep(device, machine, NO_ANSWER);
      store.RemoveRawReceipt(task, intent);
      Advance(NO_ANSWER);
    }

    method CleanUp(task: string, ghost w: Work)
      requires Tracks() && machine.pc == Cleaning(w) && w.cleanup == Some(task)
      modifies this, store
      ensures Tracks() && machine.pc.Ready? && pendingCommitKeys == old(pendingCommitKeys)
      ensures store.Value() == Cleaned(old(store.Value()), task)
    {
      hide AdvanceTo, Steps;
      ConclusionStep(device, machine, NO_ANSWER);
      var removed := store.CleanupTask(task);
      Advance(NO_ANSWER);
    }

    /** Stores the session, commits the input, and only then clears what the
        handling left behind. */
    method Conclude(offset: nat, task: string, after: Session, hasSubmit: bool, cleanup: Option<string>,
                    raw: Option<IntentId>)
      returns (alive: bool)
      requires Tracks()
      requires machine.pc == Finishing(Work(offset, task, after, hasSubmit, cleanup, pendingCommitKeys, raw))
      modifies this, store
      ensures Tracks()
      ensures if alive then machine.pc.Ready? && store.lastOffset == offset else machine.pc.Down?
      ensures alive ==> pendingCommitKeys == [] && store.outbox == old(store.outbox) - SetOf(old(pendingCommitKeys))
      ensures alive ==> store.rawReceipts == old(store.rawReceipts) - if raw.Some? then {(task, raw.value)} else {}
      ensures var kept := if hasSubmit && task in old(store.sessions) then old(store.sessions)[task] else after;
              alive && cleanup.None? ==> store.sessions == old(store.sessions)[kept.task := kept]
      ensures alive && cleanup.Some? && IsConverged(store.Value(), cleanup.value) ==>
                cleanup.value !in store.sessions && forall p | p in store.rejected :: p.0 != cleanup.value
    {
      hide AdvanceTo, Steps;
      ghost var w := Work(offset, task, after, hasSubmit, cleanup, pendingCommitKeys, raw);
      var session := after;
      if hasSubmit && task in store.sessions {
        session := store.sessions[task];
      }
      alive := CommitInput(session, offset, w);
      if !alive {
        return;
      }
      ClearUp(task, cleanup, raw, w);
    }

    /** Resolves what was published, and removes the raw receipt and a finished task. */
    method ClearUp(task: string, cleanup: Option<string>, raw: Option<IntentId>, ghost w: Work)
      requires Tracks() && machine.pc == Resolving(w)
      requires w.pending == pendingCommitKeys && w.task == task && w.cleanup == cleanup && w.raw == raw
      modifies this, store
      ensures Tracks() && machine.pc.Ready? && pendingCommitKeys == []
      ensures var d := old(store.Value());
              var rest := d.(outbox := d.outbox - SetOf(old(pendingCommitKeys)),
                             rawReceipts := d.rawReceipts - if raw.Some? then {(task, raw.value)} else {});
              store.Value() == if cleanup.Some? then Cleaned(rest, cleanup.value) else rest
    {
      hide AdvanceTo, Steps, Follows, Cleaned;
      ResolvePending(w);
      ghost var rest := w.(pending := []);
      if raw.Some? {
        RemoveRaw(task, raw.value, rest);
      }
      assert raw.None? ==> store.rawReceipts - {} == store.rawReceipts;
      if cleanup.Some? {
        CleanUp(cleanup.value, rest);
      }
    }

    method ResolvePending(ghost w: Work)
      requires Tracks() && machine.pc == Resolving(w) && w.pending == pendingCommitKeys
      modifies this, store
      ensures Tracks() && pendingCommitKeys == []
      ensures store.Value() == old(store.Value()).(outbox := old(store.outbox) - SetOf(old(pendingCommitKeys)))
      ensures machine.pc ==
              var rest := w.(pending := []); if w.raw.Some? then RemovingRaw(rest) else AfterRaw(rest)
    {
      hide AdvanceTo, Steps, Follows;
      while pendingCommitKeys != []
        invariant Tracks() && machine.pc == Resolving(w.(pending := pendingCommitKeys))
        invariant store.Value() == old(store.Value()).(outbox := store.outbox)
        invariant store.outbox - SetOf(pendingCommitKeys) == old(store.outbox) - SetOf(old(pendingCommitKeys))
        decreases |pendingCommitKeys|
      {
        assert SetOf(pendingCommitKeys) == {pendingCommitKeys[0]} + SetOf(pendingCommitKeys[1..]);
        ResolveFirst(w.(pending := pendingCommitKeys));
      }
      DoneResolving(w.(pending := []));
    }

    method ResolveFirst(ghost w: Work)
      requires Tracks() && machine.pc == Resolving(w) && w.pending == pendingCommitKeys != []
      modifies this, store
      ensures Tracks() && pendingCommitKeys == old(pendingCommitKeys)[1..]
      ensures store.Value() == Resolved(old(store.Value()), old(pendingCommitKeys)[0])
      ensures machine.pc == Resolving(w.(pending := pendingCommitKeys))
    {
      hide AdvanceTo, Steps;
      var place := pendingCommitKeys[0];
      store.ResolveTaskEvent(place.0, place.1);
      pendingCommitKeys := pendingCommitKeys[1..];
      Close(NO_ANSWER);
    }

    ghost method DoneResolving(w: Work)
      requires Tracks() && machine.pc == Resolving(w) && w.pending == []
      modifies this`machine, this`trail, this`answered, this`produced
      ensures Tracks() && machine.pc == if w.raw.Some? then RemovingRaw(w) else AfterRaw(w)
    {
      hide AdvanceTo, Steps;
      Close(NO_ANSWER);
    }

    /** Handles an input that was taken from the mailbox, wherever it lies: asks the loop,
        carries out its effect, concludes. A step that raises takes the process down, and
        so does the commit of an input that lies behind. */
    method HandleEnvelope(offset: nat) returns (alive: bool, consumed: bool)
      requires Follows() && machine.pc.Ready? && machine.mailbox == [offset] + mailbox.queue
      modifies this, store, blackboard, surroundings, safety, gateway
      ensures Tracks()
      ensures !alive ==> machine.pc.Down?
      ensures alive && consumed ==> machine.pc.Ready? && store.lastOffset == offset
      ensures alive && !consumed ==> machine.pc.Polling? && IsLeftOver(device, old(machine), machine, offset)
    {
      hide AdvanceTo, Steps, IntentEvent;
      assert machine.mailbox[0] == offset && machine.mailbox[1..] == mailbox.queue;
      assert offset < |blackboard.events| by {
        StepsAreInRange(device, origin, trail);
        assert machine.mailbox[0] in machine.mailbox;
      }
      LetOthersAppend();
      var event := blackboard.events[offset];
      var task := TaskOf(event.content);
      consumed := true;
      if task == "" {
        alive := store.SaveConsumerOffset(offset);
        Open(NO_ANSWER);
        return;
      }
      var result := Consult(offset, task);
      if result.Raised? {
        return false, false;
      }
      if !result.consumed {
        return true, false;
      }
      alive := CarryOut(offset, task, result);
    }

    /** Asks the loop about an input on the board as it is; nothing is written yet. */
    method Consult(offset: nat, task: string) returns (result: StepResult)
      requires Follows() && machine.pc.Ready? && machine.mailbox == [offset] + mailbox.queue
      requires offset < |blackboard.events| && task == TaskOf(blackboard.events[offset].content) != ""
      modifies this`machine, this`trail, this`answered, this`produced, surroundings
      ensures Tracks()
      ensures result.Raised? ==> machine.pc.Down?
      ensures result.Stepped? && !result.consumed ==>
                machine.pc.Polling? && IsLeftOver(device, old(machine), machine, offset)
      ensures result.Stepped? && result.consumed ==>
                var work := Work(offset, task, result.after, false, None, [], None);
                machine.pc == match result.effect
                              case None => Finishing(work)
                              case Some(AppendEvent(e)) => Staging(e, Some(offset), Handle(work, ToFinish))
                              case Some(SubmitIntent(sub)) => SavingProposed(work.(hasSubmit := true), sub)
                              case Some(CleanupSession(t)) => Finishing(work.(cleanup := Some(t)))
    {
      hide AdvanceTo, Steps, IntentEvent, LoopStep, Fold;
      var answer := surroundings.Ask();
      var event := blackboard.events[offset];
      var revision := RevisionOf(event.content);
      var session := if task in store.sessions then store.sessions[task] else Observe(task, revision);
      var view := TaskCoordinationView(blackboard.events, task, revision);
      result := loop.Step(LoopInput(event, answer.now, session, view, revision, answer.data));
      assert LoopInput(event, answer.now, session, view, revision, answer.data) == InputAt(machine, offset, answer);
      assert machine.mailbox[0] == offset && machine.mailbox[1..] == mailbox.queue;
      Open(answer);
      assert InputAt(machine, offset, answer) == InputAt(old(machine), offset, answer);
    }

    /** The proposed session is stored before anything of it is carried out. */
    method SaveProposal(session: Session, sub: Submission, ghost w: Work) returns (alive: bool)
      requires Tracks() && machine.pc == SavingProposed(w, sub) && w.after == session
      modifies this, store
      ensures Tracks() && pendingCommitKeys == old(pendingCommitKeys)
      ensures machine.pc == if alive then Staging(IntentEvent(sub), Some(w.offset), Handle(w, ToCheck(sub))) else Down
    {
      hide AdvanceTo, Steps, IntentEvent;
      ExecutionStep(device, machine, NO_ANSWER);
      alive := store.SaveSession(session);
      Advance(NO_ANSWER);
    }

    method CarryOut(offset: nat, task: string, result: StepResult) returns (alive: bool)
      requires Tracks() && result.Stepped?
      requires var work := Work(offset, task, result.after, false, None, [], None);
               machine.pc == match result.effect
                             case None => Finishing(work)
                             case Some(AppendEvent(e)) => Staging(e, Some(offset), Handle(work, ToFinish))
                             case Some(SubmitIntent(sub)) => SavingProposed(work.(hasSubmit := true), sub)
                             case Some(CleanupSession(t)) => Finishing(work.(cleanup := Some(t)))
      modifies this, store, blackboard, surroundings, safety, gateway
      ensures Tracks()
      ensures if alive then machine.pc.Ready? && store.lastOffset == offset else machine.pc.Down?
    {
      hide AdvanceTo, Steps, IntentEvent;
      ghost var work := Work(offset, task, result.after, false, None, [], None);
      pendingCommitKeys := [];
      match result.effect {
        case None =>
          alive := Conclude(offset, task, result.after, false, None, None);
        case Some(AppendEvent(e)) =>
          ghost var after;
          alive, after := PublishOutput(e, offset, work, ToFinish);
          if alive {
            alive := Conclude(offset, task, result.after, false, None, None);
          }
        case Some(SubmitIntent(sub)) =>
          alive := SaveProposal(result.after, sub, work.(hasSubmit := true));
          if alive {
            var raw;
            ghost var after;
            ghost var post;
            alive, raw, after, post := Execute(sub, offset, work.(hasSubmit := true));
            if alive {
              alive := Conclude(offset, task, result.after, true, None, raw);
            }
          }
        case Some(CleanupSession(t)) =>
          alive := Conclude(offset, task, result.after, false, Some(t), None);
      }
    }

    /** Puts a page into the mailbox until it is full. */
    method Fill(page: seq<Stored>)
      modifies mailbox
      ensures mailbox.queue == Deliver(old(mailbox.queue), page, mailbox.maxsize)
    {
      for n := 0 to |page|
        invariant Deliver(mailbox.queue, page[n..], mailbox.maxsize) ==
                  Deliver(old(mailbox.queue), page, mailbox.maxsize)
      {
        assert page[n..][1..] == page[n + 1..];
        var ok := mailbox.Put(page[n].offset);
        if !ok {
          return;
        }
      }
    }

    /** The reading part of a poll: behind what is left over, queues what lies behind the
        committed offset. */
    method FillMailbox(limit: nat)
      requires Tracks() && machine.pc.Polling? && limit > 0
      modifies this, blackboard, mailbox
      ensures Tracks() && machine.pc.Ready?
      ensures mailbox.queue ==
              Deliver(old(mailbox.queue), Page(blackboard.events, store.lastOffset, Some(AGENT_TYPES), limit),
                      mailbox.maxsize)
    {
      hide AdvanceTo, Steps, Page, Deliver, AppendTo;
      LetOthersAppend();
      var page := blackboard.ReadSince(store.lastOffset, Some(AGENT_TYPES), limit);
      Fill(page);
      Open(NO_ANSWER.(limit := limit));
    }

    ghost method EndPoll(answer: Choice)
      requires Tracks() && ((machine.pc.Ready? && machine.mailbox == []) || (machine.pc.Polling? && answer.limit == 0))
      modifies this`machine, this`trail, this`answered, this`produced
      ensures Tracks() && machine == old(machine).(pc := if old(machine).pc.Ready? then Polling else Down)
    {
      hide AdvanceTo, Steps;
      Open(answer);
    }

    /** A poll: fills the mailbox, and handles inputs from its front until one is not
        consumed or none is left. An input that is not consumed is dropped, and the ones
        behind it are kept. */
    method PollOnce(limit: nat) returns (alive: bool, processed: nat, ghost taken: seq<nat>)
      requires Tracks() && machine.pc.Polling?
      modifies this, store, blackboard, surroundings, safety, gateway, mailbox
      ensures Tracks()
      ensures if alive then machine.pc.Polling? else machine.pc.Down?
      ensures old(mailbox.queue) <= taken
      ensures alive && processed == |taken| ==> mailbox.queue == []
      ensures alive && processed != |taken| ==> processed < |taken| && mailbox.queue == taken[processed + 1..]
    {
      hide AdvanceTo, Steps, Page, Deliver, AppendTo, LoopStep, Follows, IsLeftOver;
      processed, taken := 0, mailbox.queue;
      if limit == 0 {
        EndPoll(NO_ANSWER.(limit := 0));
        return false, 0, taken;
      }
      FillMailbox(limit);
      DeliverKeepsMail(old(mailbox.queue), Page(blackboard.events, store.lastOffset, Some(AGENT_TYPES), limit),
                       mailbox.maxsize);
      taken := mailbox.queue;
      while mailbox.queue != []
        invariant Tracks() && machine.pc.Ready?
        invariant processed <= |taken| && mailbox.queue == taken[processed..]
        decreases |mailbox.queue|
      {
        var envelope := mailbox.Get();
        var consumed;
        alive, consumed := HandleEnvelope(envelope.value);
        if !alive || !consumed {
          return;
        }
        processed := processed + 1;
      }
      EndPoll(NO_ANSWER);
      alive := true;
    }

    /** Submits again every staged event whose input is committed, or that has none,
        and resolves it once the board has it. */
    method ReplayOutbox(order: seq<Place>) returns (alive: bool)
      requires Tracks() && machine.pc == Replaying(order)
      modifies this, store, blackboard, surroundings
      ensures Tracks()
      ensures if alive then machine.pc.Polling? else machine.pc.Down?
      ensures alive ==> store.Value() == old(store.Value()).(outbox := store.outbox)
      ensures alive && Valid(old(blackboard.Value())) && IsKeyed(old(store.outbox)) ==>
                IsReplayed(old(store.outbox), store.lastOffset, order, store.outbox, blackboard.events)
    {
      hide AdvanceTo, Steps, Follows, Valid, IsReplayed, IsOnBoard, IsOutlived, IsKeyed;
      ghost var sound := Valid(blackboard.Value()) && IsKeyed(store.outbox);
      NothingReplayed(store.outbox, store.lastOffset, blackboard.events);
      for n := 0 to |order|
        invariant Tracks() && machine.pc == Replaying(order[n..])
        invariant store.Value() == old(store.Value()).(outbox := store.outbox)
        invariant sound ==> Valid(blackboard.Value())
        invariant sound ==>
                    IsReplayed(old(store.outbox), store.lastOffset, order[..n], store.outbox, blackboard.events)
      {
        assert order[n..][0] == order[n] && order[n..][1..] == order[n + 1..];
        assert order[..n + 1] == order[..n] + [order[n]];
        alive := ReplayPlace(order[n], order[n + 1..], old(store.outbox), order[..n], sound);
        if !alive {
          return;
        }
      }
      assert order[..|order|] == order;
      EndReplay();
      alive := true;
    }

    /** Replays the record at a place: it is passed over unless it is there and due. */
    method ReplayPlace(place: Place, ghost rest: seq<Place>, ghost before: map<Place, Record>, ghost listed: seq<Place>,
                       ghost sound: bool)
      returns (alive: bool)
      requires Tracks() && machine.pc == Replaying([place] + rest)
      requires sound ==>
                 && Valid(blackboard.Value()) && IsKeyed(before)
                 && IsReplayed(before, store.lastOffset, listed, store.outbox, blackboard.events)
      modifies this, store, blackboard, surroundings
      ensures Tracks()
      ensures if alive then machine.pc == Replaying(rest) else machine.pc.Down?
      ensures store.lastOffset == old(store.lastOffset)
      ensures alive ==> store.Value() == old(store.Value()).(outbox := store.outbox)
      ensures alive && sound ==>
                && Valid(blackboard.Value())
                && IsReplayed(before, store.lastOffset, listed + [place], store.outbox, blackboard.events)
    {
      hide AdvanceTo, Steps, Follows, Valid, IsOnBoard, IsOutlived;
      TakeRecord(place, rest);
      ghost var outbox, log := store.outbox, blackboard.events;
      alive := true;
      if place in store.outbox {
        var record := store.outbox[place];
        var task := TaskOf(record.event.content);
        if (record.source.None? || record.source.value <= store.lastOffset) && task != "" && record.event.key.Some? {
          var accepted;
          alive, accepted := ReplayRecord(record.event, record.source, rest);
        }
      }
      if alive && sound {
        ReplayGoesOn(before, store.lastOffset, listed, outbox, log, place, store.outbox, blackboard.events);
      }
    }

    ghost method TakeRecord(place: Place, rest: seq<Place>)
      requires Tracks() && machine.pc == Replaying([place] + rest)
      modifies this`machine, this`trail, this`answered, this`produced
      ensures Tracks()
      ensures machine.pc == if place in store.outbox && IsDue(store.outbox[place], store.lastOffset)
                               && store.outbox[place].event.key.Some? then
                              Staging(store.outbox[place].event, store.outbox[place].source, Replay(rest))
                            else Replaying(rest)
    {
      hide AdvanceTo, Steps;
      assert ([place] + rest)[0] == place && ([place] + rest)[1..] == rest;
      OpeningStep(device, machine, NO_ANSWER);
      Advance(NO_ANSWER);
    }

    /** Publishes a staged event again and resolves it unless another one stands in its place. */
    method ReplayRecord(event: Event, source: Option<nat>, ghost rest: seq<Place>)
      returns (alive: bool, accepted: bool)
      requires Tracks() && machine.pc == Staging(event, source, Replay(rest)) && event.key.Some?
      modifies this, store, blackboard, surroundings
      ensures Tracks()
      ensures if alive then machine.pc == Replaying(rest) else machine.pc.Down?
      ensures store.lastOffset == old(store.lastOffset)
      ensures old(blackboard.events) <= blackboard.events
      ensures alive ==>
                var place := (TaskOf(event.content), event.key.value);
                var staged := StagedEvent(old(store.Value()), place, event);
                var kept := Staged(old(store.Value()), place, event, source);
                && staged.Some? && store.Value() == (if accepted then Resolved(kept, place) else kept)
                && (Valid(old(blackboard.Value())) ==>
                      && Valid(blackboard.Value())
                      && if accepted then IsOnBoard(blackboard.events, staged.value)
                         else IsOutlived(blackboard.events, staged.value))
    {
      hide AdvanceTo, Steps, Valid, StagedEvent, Staged, IsOnBoard, IsOutlived;
      alive, accepted := PublishTaskEvent(event, source, Replay(rest));
      if alive && accepted {
        OpeningStep(device, machine, NO_ANSWER);
        store.ResolveTaskEvent(TaskOf(event.content), event.key.value);
        Advance(NO_ANSWER);
      }
    }

    ghost method EndReplay()
      requires Tracks() && machine.pc == Replaying([])
      modifies this`machine, this`trail, this`answered, this`produced
      ensures Tracks() && machine.pc.Polling?
    {
      hide AdvanceTo, Steps;
      OpeningStep(device, machine, NO_ANSWER);
      Advance(NO_ANSWER);
    }
  }
}
