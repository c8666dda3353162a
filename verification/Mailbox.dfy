/** The order in which a process takes its inputs. Every poll reads behind the committed
    offset, whatever the mailbox still holds, so inputs come in order, each once, as long
    as polls start with an empty mailbox. */
module Mailbox {
  import opened Events
  import opened Board
  import opened Store
  import opened Loop
  import opened AgentHost

  /** Each offset of the mailbox is the next input after the one before it. */
  predicate Chain(log: seq<Event>, base: int, mailbox: seq<nat>)
    decreases |mailbox|
  {
    mailbox == [] || (IsNext(log, base, mailbox[0]) && Chain(log, mailbox[0], mailbox[1..]))
  }

  function Offsets(page: seq<Stored>): (r: seq<nat>)
    ensures |r| == |page|
  {
    if page == [] then [] else [page[0].offset] + Offsets(page[1..])
  }

  lemma {:induction false} ChainGrows(log: seq<Event>, longer: seq<Event>, base: int, mailbox: seq<nat>)
    requires log <= longer && Chain(log, base, mailbox)
    ensures Chain(longer, base, mailbox)
    decreases |mailbox|
  {
    if mailbox != [] {
      ChainGrows(log, longer, mailbox[0], mailbox[1..]);
    }
  }

  lemma {:induction false} ChainPrefix(log: seq<Event>, base: int, mailbox: seq<nat>, more: seq<nat>)
    requires Chain(log, base, mailbox + more)
    ensures Chain(log, base, mailbox)
    decreases |mailbox|
  {
    if mailbox != [] {
      assert (mailbox + more)[1..] == mailbox[1..] + more;
      ChainPrefix(log, mailbox[0], mailbox[1..], more);
    }
  }

  /** Inputs that are skipped are of no interest to the agent. */
  lemma {:induction false} ChainSkips(log: seq<Event>, base: int, mailbox: seq<nat>)
    requires -1 <= base && base + 1 < |log| && !IsAgentKind(log[base + 1].kind) && Chain(log, base + 1, mailbox)
    ensures Chain(log, base, mailbox)
  {
  }

  lemma {:induction false} PageIsChain(log: seq<Event>, cursor: int, limit: nat)
    requires -1 <= cursor
    ensures Chain(log, cursor, Offsets(Page(log, cursor, Some(AGENT_TYPES), limit)))
    decreases |log| - cursor
  {
    if limit > 0 && cursor + 1 < |log| {
      var n := cursor + 1;
      if Requested(log[n], Some(AGENT_TYPES)) {
        PageIsChain(log, n, limit - 1);
        var page := Page(log, cursor, Some(AGENT_TYPES), limit);
        assert page[1..] == Page(log, n, Some(AGENT_TYPES), limit - 1);
        assert Offsets(page)[1..] == Offsets(page[1..]);
      } else {
        PageIsChain(log, n, limit);
        ChainSkips(log, cursor, Offsets(Page(log, n, Some(AGENT_TYPES), limit)));
      }
    }
  }

  lemma {:induction false} DeliverIsChain(
      log: seq<Event>, base: int, mailbox: seq<nat>, page: seq<Stored>, maxsize: int)
    requires Chain(log, base, mailbox + Offsets(page))
    ensures Chain(log, base, Deliver(mailbox, page, maxsize))
    decreases |page|
  {
    if page == [] || (maxsize > 0 && |mailbox| >= maxsize) {
      ChainPrefix(log, base, mailbox, Offsets(page));
    } else {
      assert mailbox + Offsets(page) == (mailbox + [page[0].offset]) + Offsets(page[1..]);
      DeliverIsChain(log, base, mailbox + [page[0].offset], page[1..], maxsize);
    }
  }

  lemma {:induction false} DeliverFits(mailbox: seq<nat>, page: seq<Stored>, maxsize: int)
    requires maxsize <= 0 || |mailbox| + |page| <= maxsize
    ensures Deliver(mailbox, page, maxsize) == mailbox + Offsets(page)
    decreases |page|
  {
    if page == [] {
      assert mailbox + [] == mailbox;
    } else {
      DeliverFits(mailbox + [page[0].offset], page[1..], maxsize);
      assert mailbox + Offsets(page) == (mailbox + [page[0].offset]) + Offsets(page[1..]);
    }
  }

  lemma {:induction false} DeliverKeepsMail(mailbox: seq<nat>, page: seq<Stored>, maxsize: int)
    ensures mailbox <= Deliver(mailbox, page, maxsize)
    decreases |page|
  {
    if !(page == [] || (maxsize > 0 && |mailbox| >= maxsize)) {
      DeliverKeepsMail(mailbox + [page[0].offset], page[1..], maxsize);
    }
  }

  // ---------------------------------------------------------------------
  // What every step does to the mailbox
  // ---------------------------------------------------------------------

  /** The input in hand, from the decision of the loop to the commit. */
  function InHand(pc: Pc): Option<nat> {
    match pc
    case SavingProposed(w, _) => Some(w.offset)
    case Staging(_, _, purpose) => if purpose.Handle? then Some(purpose.work.offset) else None
    case Appending(_, _, _, purpose) => if purpose.Handle? then Some(purpose.work.offset) else None
    case Checking(w, _) => Some(w.offset)
    case Marking(w, _) => Some(w.offset)
    case Sending(w, _) => Some(w.offset)
    case StoringRaw(w, _) => Some(w.offset)
    case Judging(w, _) => Some(w.offset)
    case Finishing(w) => Some(w.offset)
    case Committing(w) => Some(w.offset)
    case _ => None
  }

  /** The points within a poll. */
  predicate InPoll(pc: Pc) {
    pc.Ready? || InHand(pc).Some? || pc.Resolving? || pc.RemovingRaw? || pc.Cleaning?
  }

  /** The offset that the mailbox continues from. */
  function Base(h: Host): int {
    if InHand(h.pc).Some? then InHand(h.pc).value else h.disk.offset
  }

  /** The input in hand is the next one after the committed offset, and the mailbox
      continues from it. */
  ghost predicate InOrder(h: Host) {
    && (InHand(h.pc).Some? ==> IsNext(h.board.log, h.disk.offset, InHand(h.pc).value))
    && (InPoll(h.pc) ==> Chain(h.board.log, Base(h), h.mailbox))
  }

  /** A step other than a read from the mailbox leaves it alone and goes on from where
      the process was. */
  ghost predicate KeepsMail(h: Host, after: Host) {
    && after.mailbox == h.mailbox && after.maxsize == h.maxsize
    && h.board.log <= after.board.log
    && (InPoll(after.pc) ==> InPoll(h.pc) && Base(after) == Base(h))
    && (InHand(after.pc).Some? ==> InHand(after.pc) == InHand(h.pc))
    && h.disk.offset <= after.disk.offset
    && (after.disk.offset == h.disk.offset || (h.pc.Committing? && after.disk.offset == h.pc.work.offset))
    && (InHand(after.pc).Some? ==> after.disk.offset == h.disk.offset)
    && (after.pc.Ready? ==> !h.pc.Down?)
  }

  lemma PublishingKeepsMail(h: Host)
    ensures h.pc.Staging? ==> KeepsMail(h, Stage(h, h.pc.event, h.pc.source, h.pc.purpose))
    ensures h.pc.Replaying? ==> KeepsMail(h, ReplayNext(h, h.pc.todo))
  {
    hide StagedEvent;
  }

  lemma SubmittingKeepsMail(device: string, h: Host, choice: Choice)
    requires h.pc.Appending?
    ensures KeepsMail(h, AdvanceTo(device, h, choice))
  {
    hide AppendTo, AdvanceTo;
    AppendGrows(h.board, h.pc.event, choice.now);
    SubmitStep(device, h, choice);
  }

  lemma HandlingKeepsMail(h: Host, choice: Choice)
    ensures h.pc.SavingProposed? ==> KeepsMail(h, SaveProposed(h, h.pc.work, h.pc.sub))
    ensures h.pc.Checking? ==> KeepsMail(h, Check(h, h.pc.work, h.pc.sub, choice))
    ensures h.pc.Marking? ==> KeepsMail(h, MarkDispatching(h, h.pc.work, h.pc.sub))
    ensures h.pc.Sending? ==> KeepsMail(h, CountDispatch(h, h.pc.work, h.pc.sub))
    ensures h.pc.Judging? ==> KeepsMail(h, Judge(h, h.pc.work, h.pc.sub, choice))
  {
    hide MaySave, ReceiptEvent, IntentEvent, InterceptEvent;
  }

  lemma ClosingKeepsMail(h: Host)
    ensures h.pc.Finishing? ==> KeepsMail(h, SaveAfter(h, h.pc.work))
    ensures h.pc.Committing? ==> KeepsMail(h, CommitOffset(h, h.pc.work))
    ensures h.pc.Resolving? ==> KeepsMail(h, Resolve(h, h.pc.work))
  {
    hide MaySave;
  }

  lemma AdvanceKeepsMail(device: string, h: Host, choice: Choice)
    requires !h.pc.Polling? && !h.pc.Ready?
    ensures KeepsMail(h, AdvanceTo(device, h, choice))
  {
    hide AppendTo, TakeInput, PollBoard, SaveProposed, Stage, Submit, Check, MarkDispatching, CountDispatch, Judge,
      SaveAfter, CommitOffset, Resolve, ReplayNext;
    PublishingKeepsMail(h);
    if h.pc.Appending? {
      SubmittingKeepsMail(device, h, choice);
    }
    HandlingKeepsMail(h, choice);
    ClosingKeepsMail(h);
  }

  /** Taking an input goes on from it. */
  lemma BeginGoesOn(device: string, h: Host, o: nat, choice: Choice)
    requires o < |h.board.log|
    ensures var after := BeginWork(device, h, o, choice);
            && after.mailbox == h.mailbox && after.maxsize == h.maxsize && after.board == h.board
            && (InPoll(after.pc) && after.pc != h.pc ==> Base(after) == o)
            && (InHand(after.pc).Some? && h.pc.Ready? ==> after.disk.offset == h.disk.offset)
            && (after.pc == h.pc && h.pc.Ready? ==> after.disk.offset == o)
            && (after.disk.offset == h.disk.offset || after.disk.offset == o) && h.disk.offset <= after.disk.offset
  {
    hide LoopStep, InputAt;
  }

  // ---------------------------------------------------------------------
  // Runs whose polls start empty
  // ---------------------------------------------------------------------

  predicate StartsEmpty(h: Host, move: Move) {
    move.Advance? && h.pc.Polling? ==> h.mailbox == []
  }

  /** What the caller of the poll can check: the mailbox is empty whenever it polls. */
  predicate PollsStartEmpty(device: string, moves: seq<Move>) {
    forall n | 0 <= n < |moves| :: StartsEmpty(RunHost(device, moves[..n]), moves[n])
  }

  lemma PollsStartEmptyBefore(device: string, moves: seq<Move>, n: nat)
    requires PollsStartEmpty(device, moves) && n <= |moves|
    ensures PollsStartEmpty(device, moves[..n])
    ensures n < |moves| ==> StartsEmpty(RunHost(device, moves[..n]), moves[n])
  {
    hide RunHost, StartsEmpty;
    forall k | 0 <= k < n
      ensures StartsEmpty(RunHost(device, moves[..n][..k]), moves[..n][k])
    {
      assert moves[..n][..k] == moves[..k];
    }
  }

  lemma StepIsInOrder(device: string, h: Host, move: Move)
    requires InOrder(h) && StartsEmpty(h, move)
    ensures InOrder(Step(device, h, move))
  {
    hide AppendTo, LoopStep, Lists, Page, Deliver, BeginWork;
    match move
    case Environment(e, now) =>
      AppendGrows(h.board, e, now);
      if InPoll(h.pc) {
        ChainGrows(h.board.log, AppendTo(h.board, e, now).0.log, Base(h), h.mailbox);
      }
    case Advance(choice) =>
      var after := AdvanceTo(device, h, choice);
      if h.pc.Polling? {
        PollIsInOrder(h, choice.limit);
        OpeningStep(device, h, choice);
      } else if h.pc.Ready? {
        OpeningStep(device, h, choice);
        if h.mailbox != [] && h.mailbox[0] < |h.board.log| {
          BeginGoesOn(device, h.(mailbox := h.mailbox[1..]), h.mailbox[0], choice);
        }
      } else {
        AdvanceKeepsMail(device, h, choice);
        if InPoll(after.pc) {
          ChainGrows(h.board.log, after.board.log, Base(h), h.mailbox);
        }
      }
    case _ =>
  }

  lemma PollIsInOrder(h: Host, limit: nat)
    requires h.mailbox == []
    ensures InOrder(PollBoard(h, limit))
  {
    hide Page, Deliver;
    if limit > 0 {
      var page := Page(h.board.log, h.disk.offset, Some(AGENT_TYPES), limit);
      PageIsChain(h.board.log, h.disk.offset, limit);
      assert [] + Offsets(page) == Offsets(page);
      DeliverIsChain(h.board.log, h.disk.offset, [], page, h.maxsize);
    }
  }

  /** Then inputs are taken in order: the head of the mailbox is the next input after
      the committed offset. */
  lemma {:induction false} RunIsInOrder(device: string, moves: seq<Move>)
    requires PollsStartEmpty(device, moves)
    ensures InOrder(RunHost(device, moves))
  {
    hide Step, InOrder, PollsStartEmpty, StartsEmpty;
    if moves == [] {
      assert InOrder(START) by { NothingInHand(); }
    } else {
      var before := moves[..|moves| - 1];
      PollsStartEmptyBefore(device, moves, |moves| - 1);
      RunIsInOrder(device, before);
      StepIsInOrder(device, RunHost(device, before), moves[|moves| - 1]);
    }
  }

  lemma NothingInHand()
    ensures InOrder(START)
  {
  }

  /** And the committed offset passes no input of interest over: it moves to the next one. */
  lemma OffsetSkipsNothing(device: string, moves: seq<Move>, move: Move)
    requires PollsStartEmpty(device, moves)
    ensures var h := RunHost(device, moves);
            var after := Step(device, h, move);
            after.disk.offset != h.disk.offset ==>
              after.disk.offset >= 0 && IsNext(h.board.log, h.disk.offset, after.disk.offset)
  {
    hide RunHost, AppendTo, LoopStep, Lists, BeginWork, PollsStartEmpty, IsNext;
    var h := RunHost(device, moves);
    RunIsInOrder(device, moves);
    if move.Advance? {
      if h.pc.Polling? || h.pc.Ready? {
        OpeningStep(device, h, move.choice);
        if h.pc.Ready? && h.mailbox != [] && h.mailbox[0] < |h.board.log| {
          BeginGoesOn(device, h.(mailbox := h.mailbox[1..]), h.mailbox[0], move.choice);
        }
      } else {
        AdvanceKeepsMail(device, h, move.choice);
      }
    }
  }

  // ---------------------------------------------------------------------
  // Inputs passed over
  // ---------------------------------------------------------------------

  /** The input lies at or behind the committed offset, and nothing of it is left. */
  predicate Passed(h: Host, o: nat) {
    o <= h.disk.offset && o !in h.mailbox && InHand(h.pc) != Some(o)
  }

  lemma {:induction false} PageLiesAhead(log: seq<Event>, cursor: int, limit: nat)
    requires -1 <= cursor
    ensures forall o | o in Offsets(Page(log, cursor, Some(AGENT_TYPES), limit)) :: o > cursor
    decreases |log| - cursor
  {
    if limit > 0 && cursor + 1 < |log| {
      if Requested(log[cursor + 1], Some(AGENT_TYPES)) {
        var page := Page(log, cursor, Some(AGENT_TYPES), limit);
        assert page[1..] == Page(log, cursor + 1, Some(AGENT_TYPES), limit - 1);
        PageLiesAhead(log, cursor + 1, limit - 1);
      } else {
        PageLiesAhead(log, cursor + 1, limit);
      }
    }
  }

  lemma {:induction false} DeliverAddsPage(mailbox: seq<nat>, page: seq<Stored>, maxsize: int)
    ensures forall o | o in Deliver(mailbox, page, maxsize) :: o in mailbox || o in Offsets(page)
    decreases |page|
  {
    if !(page == [] || (maxsize > 0 && |mailbox| >= maxsize)) {
      DeliverAddsPage(mailbox + [page[0].offset], page[1..], maxsize);
    }
  }

  /** In every run an input that is passed once stays passed: no poll reads it again. */
  lemma StepKeepsPassed(device: string, h: Host, move: Move, o: nat)
    requires Passed(h, o)
    ensures Passed(Step(device, h, move), o)
  {
    hide AppendTo, LoopStep, Lists, Page, Deliver, BeginWork, Offsets;
    match move
    case Advance(choice) =>
      if h.pc.Polling? {
        OpeningStep(device, h, choice);
        PageLiesAhead(h.board.log, h.disk.offset, choice.limit);
        DeliverAddsPage(h.mailbox, Page(h.board.log, h.disk.offset, Some(AGENT_TYPES), choice.limit), h.maxsize);
      } else if h.pc.Ready? {
        OpeningStep(device, h, choice);
        if h.mailbox != [] && h.mailbox[0] < |h.board.log| {
          BeginGoesOn(device, h.(mailbox := h.mailbox[1..]), h.mailbox[0], choice);
        }
      } else {
        AdvanceKeepsMail(device, h, choice);
      }
    case _ =>
  }

  // ---------------------------------------------------------------------
  // Envelopes of committed events
  // ---------------------------------------------------------------------

  predicate InRange(h: Host) {
    forall o | o in h.mailbox :: o < |h.board.log|
  }

  lemma {:induction false} PageIsInRange(log: seq<Event>, cursor: int, limit: nat)
    requires -1 <= cursor
    ensures forall o | o in Offsets(Page(log, cursor, Some(AGENT_TYPES), limit)) :: o < |log|
    decreases |log| - cursor
  {
    if limit > 0 && cursor + 1 < |log| {
      if Requested(log[cursor + 1], Some(AGENT_TYPES)) {
        var page := Page(log, cursor, Some(AGENT_TYPES), limit);
        assert page[1..] == Page(log, cursor + 1, Some(AGENT_TYPES), limit - 1);
        PageIsInRange(log, cursor + 1, limit - 1);
      } else {
        PageIsInRange(log, cursor + 1, limit);
      }
    }
  }

  /** The mailbox holds committed events only. */
  lemma StepKeepsInRange(device: string, h: Host, move: Move)
    requires InRange(h)
    ensures InRange(Step(device, h, move))
  {
    hide AppendTo, LoopStep, Lists, Page, Deliver, BeginWork, Offsets;
    match move
    case Environment(e, now) => AppendGrows(h.board, e, now);
    case Advance(choice) =>
      if h.pc.Polling? {
        OpeningStep(device, h, choice);
        PageIsInRange(h.board.log, h.disk.offset, choice.limit);
        DeliverAddsPage(h.mailbox, Page(h.board.log, h.disk.offset, Some(AGENT_TYPES), choice.limit), h.maxsize);
      } else if h.pc.Ready? {
        OpeningStep(device, h, choice);
        if h.mailbox != [] && h.mailbox[0] < |h.board.log| {
          assert forall o | o in h.mailbox[1..] :: o in h.mailbox;
          BeginGoesOn(device, h.(mailbox := h.mailbox[1..]), h.mailbox[0], choice);
        }
      } else {
        AdvanceKeepsMail(device, h, choice);
      }
    case _ =>
  }

  lemma {:induction false} StepsAreInRange(device: string, h: Host, moves: seq<Move>)
    requires InRange(h)
    ensures InRange(Steps(device, h, moves))
  {
    hide Step, InRange;
    if moves != [] {
      StepsAreInRange(device, h, moves[..|moves| - 1]);
      StepKeepsInRange(device, Steps(device, h, moves[..|moves| - 1]), moves[|moves| - 1]);
    }
  }

  // ---------------------------------------------------------------------
  // When polls start empty
  // ---------------------------------------------------------------------

  /** A mailbox that never holds two envelopes is empty between polls. */
  predicate IsSlim(h: Host) {
    |h.mailbox| <= 1 && (h.pc.Ready? || h.pc.Down? || h.mailbox == [])
  }

  predicate HoldsOne(moves: seq<Move>) {
    forall m | m in moves && m.Restart? :: m.maxsize == 1
  }

  /** The mailbox of every life holds one envelope, or every poll reads one. */
  predicate OneAtATime(moves: seq<Move>) {
    || HoldsOne(moves)
    || (forall m | m in moves && m.Advance? :: m.choice.limit <= 1)
  }

  lemma {:induction false} DeliverIsBounded(mailbox: seq<nat>, page: seq<Stored>, maxsize: int)
    requires maxsize == 1 ==> |mailbox| <= 1
    ensures maxsize == 1 ==> |Deliver(mailbox, page, maxsize)| <= 1
    ensures |Deliver(mailbox, page, maxsize)| <= |mailbox| + |page|
    decreases |page|
  {
    if !(page == [] || (maxsize > 0 && |mailbox| >= maxsize)) {
      DeliverIsBounded(mailbox + [page[0].offset], page[1..], maxsize);
    }
  }

  lemma {:induction false} PageIsBounded(log: seq<Event>, cursor: int, limit: nat)
    requires cursor >= -1
    ensures |Page(log, cursor, Some(AGENT_TYPES), limit)| <= limit
    decreases |log| - cursor
  {
    if limit > 0 && cursor + 1 < |log| {
      PageIsBounded(log, cursor + 1, if Requested(log[cursor + 1], Some(AGENT_TYPES)) then limit - 1 else limit);
    }
  }

  lemma StepIsSlim(device: string, h: Host, move: Move)
    requires IsSlim(h)
    requires move.Advance? && h.pc.Polling? ==> h.maxsize == 1 || move.choice.limit <= 1
    ensures IsSlim(Step(device, h, move))
    ensures h.maxsize == 1 || h.pc.Down? ==>
              var after := Step(device, h, move);
              after.maxsize == 1 || after.pc.Down? || (move.Restart? && move.maxsize != 1)
  {
    hide AppendTo, LoopStep, Lists, Page, Deliver, BeginWork, Chain;
    match move
    case Advance(choice) =>
      if h.pc.Polling? {
        OpeningStep(device, h, choice);
        var page := Page(h.board.log, h.disk.offset, Some(AGENT_TYPES), choice.limit);
        PageIsBounded(h.board.log, h.disk.offset, choice.limit);
        DeliverIsBounded(h.mailbox, page, h.maxsize);
      } else if h.pc.Ready? {
        OpeningStep(device, h, choice);
        if h.mailbox != [] && h.mailbox[0] < |h.board.log| {
          assert h.mailbox[1..] == [];
          BeginGoesOn(device, h.(mailbox := h.mailbox[1..]), h.mailbox[0], choice);
        }
      } else if h.pc.Down? {
        assert AdvanceTo(device, h, choice) == h;
      } else {
        AdvanceKeepsMail(device, h, choice);
      }
    case _ =>
  }

  lemma {:induction false} RunIsSlim(device: string, moves: seq<Move>)
    requires OneAtATime(moves)
    ensures IsSlim(RunHost(device, moves))
    ensures HoldsOne(moves) ==> RunHost(device, moves).maxsize == 1 || RunHost(device, moves).pc.Down?
  {
    hide Step, IsSlim;
    if moves == [] {
      assert IsSlim(START) by { NothingDelivered(); }
    } else {
      var before := moves[..|moves| - 1];
      var last := moves[|moves| - 1];
      assert forall m | m in before :: m in moves;
      RunIsSlim(device, before);
      StepIsSlim(device, RunHost(device, before), last);
    }
  }

  lemma NothingDelivered()
    ensures IsSlim(START)
  {
  }

  /** It is enough that the mailbox holds one envelope, or that a poll reads one. */
  lemma OneAtATimeStartsEmpty(device: string, moves: seq<Move>)
    requires OneAtATime(moves)
    ensures PollsStartEmpty(device, moves)
  {
    hide Step, RunHost;
    forall n | 0 <= n < |moves|
      ensures StartsEmpty(RunHost(device, moves[..n]), moves[n])
    {
      RunIsSlim(device, moves[..n]);
    }
  }
}
