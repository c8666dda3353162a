/** The protocol of an execution, in every run of an agent process: which safety verdict,
    dispatch and output follow which, from the proposal of an intent to its commit. */
module Protocol {
  import opened Events
  import opened Board
  import opened Store
  import opened Loop
  import opened AgentHost
  import opened Handling

  /** What has happened since the handling at hand began, with no crash in between: the
      submission that was taken up, the answers of the two safety checks, the intents
      handed to the device, and the outputs handed over for publication. */
  datatype Progress = Progress(
    sub: Option<Submission>, pre: Option<Choice>, sent: seq<IntentId>, post: Option<Choice>, outputs: seq<Event>)

  const NOTHING_YET := Progress(None, None, [], None, [])

  function Extend(h: Host, move: Move, r: Progress): Progress {
    match move
    case Crash => NOTHING_YET
    case Advance(choice) =>
      (match h.pc
       case SavingProposed(_, sub) => NOTHING_YET.(sub := Some(sub))
       case Checking(_, _) => r.(pre := Some(choice))
       case Sending(_, sub) => r.(sent := r.sent + [sub.intent])
       case Judging(_, _) => r.(post := Some(choice))
       case Staging(e, _, Handle(_, _)) => r.(outputs := r.outputs + [e])
       case Ready => NOTHING_YET
       case _ => r)
    case _ => r
  }

  /** The record of the handling at hand at the end of a run. */
  function ProgressOf(device: string, moves: seq<Move>): Progress {
    if moves == [] then NOTHING_YET
    else
      var before := moves[..|moves| - 1];
      Extend(RunHost(device, before), moves[|moves| - 1], ProgressOf(device, before))
  }

  /** The move ends the handling at hand: a crash, or the next input taken up. */
  predicate EndsHandling(h: Host, move: Move) {
    move.Crash? || (move.Advance? && h.pc.Ready?)
  }

  /** What a complete execution has done: nothing but the intercept after a refusal;
      otherwise one dispatch, the intercept of a refused outcome before the receipt, and the
      receipt with what the device and the check said. */
  predicate IsComplete(r: Progress) {
    if r.sub.None? then
      r.pre.None? && r.sent == [] && r.post.None? && |r.outputs| <= 1 && forall e | e in r.outputs :: e.kind.Bid?
    else
      var sub := r.sub.value;
      && r.pre.Some?
      && if !r.pre.value.allowed then
           r.sent == [] && r.post.None?
           && r.outputs == [IntentEvent(sub), InterceptEvent(sub, Pre, r.pre.value.data)]
         else
           r.sent == [sub.intent] && r.post.Some?
           && r.outputs == [IntentEvent(sub)]
                           + (if r.post.value.allowed then [] else [InterceptEvent(sub, Post, r.post.value.data)])
                           + [ReceiptEvent(sub, Outcome(r.post.value))]
  }

  /** How far the execution is at each point of the program. */
  predicate IsAt(r: Progress, sub: Submission, outputs: seq<Event>) {
    r.sub == Some(sub) && r.outputs == outputs
  }

  predicate PublishingFits(r: Progress, e: Event, w: Work, next: Next) {
    match next
    case ToCheck(sub) => w.hasSubmit && e == IntentEvent(sub) && r == NOTHING_YET.(sub := Some(sub))
    case ToReceipt(sub, outcome) =>
      && w.hasSubmit && IsAt(r, sub, [IntentEvent(sub)]) && r.pre.Some? && r.pre.value.allowed && r.sent == [sub.intent]
      && r.post.Some? && !r.post.value.allowed && outcome == Outcome(r.post.value)
      && e == InterceptEvent(sub, Post, r.post.value.data)
    case ToFinish => IsComplete(r.(outputs := r.outputs + [e])) && (w.hasSubmit <==> r.sub.Some?)
  }

  predicate Fits(r: Progress, pc: Pc) {
    match pc
    case Staging(e, _, Handle(w, next)) => PublishingFits(r, e, w, next)
    case Appending(_, _, _, Handle(w, next)) =>
      r.outputs != []
      && PublishingFits(r.(outputs := r.outputs[..|r.outputs| - 1]), r.outputs[|r.outputs| - 1], w, next)
    case Checking(w, sub) =>
      w.hasSubmit && IsAt(r, sub, [IntentEvent(sub)]) && r.pre.None? && r.sent == [] && r.post.None?
    case Marking(w, sub) =>
      && w.hasSubmit && IsAt(r, sub, [IntentEvent(sub)]) && r.pre.Some? && r.pre.value.allowed
      && r.sent == [] && r.post.None?
    case Sending(w, sub) =>
      && w.hasSubmit && IsAt(r, sub, [IntentEvent(sub)]) && r.pre.Some? && r.pre.value.allowed
      && r.sent == [] && r.post.None?
    case StoringRaw(w, sub) =>
      && w.hasSubmit && IsAt(r, sub, [IntentEvent(sub)]) && r.pre.Some? && r.pre.value.allowed
      && r.sent == [sub.intent] && r.post.None?
    case Judging(w, sub) =>
      && w.hasSubmit && IsAt(r, sub, [IntentEvent(sub)]) && r.pre.Some? && r.pre.value.allowed
      && r.sent == [sub.intent] && r.post.None?
    case SavingProposed(w, _) => w.hasSubmit
    case Finishing(w) => IsComplete(r) && (w.hasSubmit <==> r.sub.Some?)
    case Committing(w) => IsComplete(r) && (w.hasSubmit <==> r.sub.Some?)
    case _ => true
  }

  // ---------------------------------------------------------------------
  // Every step keeps to the protocol
  // ---------------------------------------------------------------------

  lemma BeginFits(device: string, h: Host, o: nat, choice: Choice)
    requires h.pc.Ready? && o < |h.board.log|
    ensures Fits(NOTHING_YET, BeginWork(device, h, o, choice).pc)
  {
    hide LoopStep, InputAt;
    if LoopStep(device, InputAt(h, o, choice)).Stepped? {
      AppendedIsBid(device, InputAt(h, o, choice));
    }
  }

  lemma AppendedIsBid(device: string, i: LoopInput)
    requires LoopStep(device, i).Stepped?
    ensures var effect := LoopStep(device, i).effect;
            effect.Some? && effect.value.AppendEvent? ==> effect.value.event.kind.Bid?
  {
    hide IsStale;
  }

  lemma StageFits(h: Host, r: Progress)
    requires h.pc.Staging? && Fits(r, h.pc)
    ensures Fits(if h.pc.purpose.Handle? then r.(outputs := r.outputs + [h.pc.event]) else r,
                 Stage(h, h.pc.event, h.pc.source, h.pc.purpose).pc)
  {
    hide StagedEvent, IsComplete, IntentEvent, InterceptEvent, ReceiptEvent;
    if h.pc.purpose.Handle? {
      var longer := r.outputs + [h.pc.event];
      assert longer[..|longer| - 1] == r.outputs;
    }
  }

  /** What a publication leaves when it is done. */
  lemma PublishedFits(r: Progress, w: Work, next: Next, pending: seq<Place>)
    requires r.outputs != []
    requires PublishingFits(r.(outputs := r.outputs[..|r.outputs| - 1]), r.outputs[|r.outputs| - 1], w, next)
    ensures Fits(r, Onward(w.(pending := pending), next))
  {
    hide IntentEvent, InterceptEvent, ReceiptEvent, IsComplete, Fits;
    var before, last := r.outputs[..|r.outputs| - 1], r.outputs[|r.outputs| - 1];
    assert r.outputs == before + [last];
    var now := w.(pending := pending);
    match next
    case ToFinish =>
      assert r.(outputs := before).(outputs := before + [last]) == r;
      FinishingFits(r, now);
    case ToCheck(sub) => CheckingFits(r, now, sub);
    case ToReceipt(sub, outcome) =>
      ReceiptCompletes(r, sub);
      StagingFits(r, ReceiptEvent(sub, outcome), now.offset, now.(raw := Some(sub.intent)), ToFinish);
  }

  lemma FinishingFits(r: Progress, w: Work)
    requires IsComplete(r) && (w.hasSubmit <==> r.sub.Some?)
    ensures Fits(r, Finishing(w))
  {
    hide IsComplete;
  }

  lemma CheckingFits(r: Progress, w: Work, sub: Submission)
    requires w.hasSubmit && IsAt(r, sub, [IntentEvent(sub)]) && r.pre.None? && r.sent == [] && r.post.None?
    ensures Fits(r, Checking(w, sub))
  {
    hide IntentEvent;
  }

  lemma StagingFits(r: Progress, e: Event, offset: nat, w: Work, next: Next)
    requires PublishingFits(r, e, w, next)
    ensures Fits(r, Staging(e, Some(offset), Handle(w, next)))
  {
    hide PublishingFits;
  }

  lemma ReceiptCompletes(r: Progress, sub: Submission)
    requires r.sub == Some(sub) && r.pre.Some? && r.pre.value.allowed && r.sent == [sub.intent]
    requires r.post.Some? && !r.post.value.allowed
    requires r.outputs == [IntentEvent(sub)] + [InterceptEvent(sub, Post, r.post.value.data)]
    ensures IsComplete(r.(outputs := r.outputs + [ReceiptEvent(sub, Outcome(r.post.value))]))
  {
    hide IntentEvent, InterceptEvent, ReceiptEvent;
  }

  lemma SubmitFits(device: string, h: Host, r: Progress, choice: Choice)
    requires h.pc.Appending? && Fits(r, h.pc)
    ensures Fits(r, AdvanceTo(device, h, choice).pc)
  {
    hide AppendTo, AdvanceTo, PublishingFits, Onward;
    SubmitStep(device, h, choice);
    if h.pc.purpose.Handle? {
      var w := h.pc.purpose.work;
      PublishedFits(r, w, h.pc.purpose.next, w.pending + [h.pc.place]);
      PublishedFits(r, w, h.pc.purpose.next, w.pending);
      assert w.(pending := w.pending) == w;
    }
  }

  lemma ExecutionFits(h: Host, r: Progress, choice: Choice)
    requires Fits(r, h.pc)
    ensures h.pc.SavingProposed? ==>
              Fits(NOTHING_YET.(sub := Some(h.pc.sub)), SaveProposed(h, h.pc.work, h.pc.sub).pc)
    ensures h.pc.Checking? ==> Fits(r.(pre := Some(choice)), Check(h, h.pc.work, h.pc.sub, choice).pc)
    ensures h.pc.Marking? ==> Fits(r, MarkDispatching(h, h.pc.work, h.pc.sub).pc)
    ensures h.pc.Sending? ==>
              Fits(r.(sent := r.sent + [h.pc.sub.intent]), CountDispatch(h, h.pc.work, h.pc.sub).pc)
    ensures h.pc.Judging? ==> Fits(r.(post := Some(choice)), Judge(h, h.pc.work, h.pc.sub, choice).pc)
  {
    hide MaySave, IntentEvent, InterceptEvent, ReceiptEvent;
  }

  lemma ClosingFits(h: Host, r: Progress, choice: Choice)
    requires Fits(r, h.pc)
    ensures h.pc.Finishing? ==> Fits(r, SaveAfter(h, h.pc.work).pc)
    ensures h.pc.Committing? ==> Fits(r, CommitOffset(h, h.pc.work).pc)
    ensures h.pc.Resolving? ==> Fits(r, Resolve(h, h.pc.work).pc)
    ensures h.pc.Replaying? ==> Fits(r, ReplayNext(h, h.pc.todo).pc)
    ensures h.pc.Polling? ==> Fits(r, PollBoard(h, choice.limit).pc)
  {
    hide MaySave, IsComplete, Page, Deliver;
  }

  lemma TakeFits(device: string, h: Host, choice: Choice)
    requires h.pc.Ready?
    ensures Fits(NOTHING_YET, TakeInput(device, h, choice).pc)
  {
    hide BeginWork, Fits;
    if h.mailbox != [] && h.mailbox[0] < |h.board.log| {
      BeginFits(device, h.(mailbox := h.mailbox[1..]), h.mailbox[0], choice);
    } else {
      PollingFits(NOTHING_YET);
    }
  }

  lemma PollingFits(r: Progress)
    ensures Fits(r, Polling) && Fits(r, Down)
    ensures forall todo :: Fits(r, Replaying(todo))
  {
  }

  lemma StepFits(device: string, h: Host, move: Move, r: Progress)
    requires Fits(r, h.pc)
    ensures Fits(Extend(h, move, r), Step(device, h, move).pc)
  {
    hide AppendTo, LoopStep, Lists, TakeInput, PollBoard, SaveProposed, Stage, Submit, Check, MarkDispatching,
      CountDispatch, Judge, SaveAfter, CommitOffset, Resolve, ReplayNext, Cleaned, Resolved, Quarantined, IsComplete,
      PublishingFits;
    match move
    case Advance(choice) =>
      if h.pc.Ready? {
        TakeFits(device, h, choice);
      } else if h.pc.Staging? {
        StageFits(h, r);
      } else if h.pc.Appending? {
        SubmitFits(device, h, r, choice);
      } else {
        ExecutionFits(h, r, choice);
        ClosingFits(h, r, choice);
      }
    case _ =>
  }

  lemma {:induction false} RunFits(device: string, moves: seq<Move>)
    ensures Fits(ProgressOf(device, moves), RunHost(device, moves).pc)
  {
    hide Step, Fits, Extend;
    if moves == [] {
      PollingFits(NOTHING_YET);
    } else {
      RunFits(device, moves[..|moves| - 1]);
      StepFits(device, RunHost(device, moves[..|moves| - 1]), moves[|moves| - 1],
               ProgressOf(device, moves[..|moves| - 1]));
    }
  }

  // ---------------------------------------------------------------------
  // The theorems
  // ---------------------------------------------------------------------

  /** In every run, when an input is committed its execution is complete: after a refusal
      before the action, the intent and the intercept and no dispatch; otherwise one
      dispatch, then the intercept of a refused outcome, then the receipt. */
  lemma CommitComesAfterExecution(device: string, moves: seq<Move>)
    requires RunHost(device, moves).pc.Committing?
    ensures IsComplete(ProgressOf(device, moves))
    ensures RunHost(device, moves).pc.work.hasSubmit <==> ProgressOf(device, moves).sub.Some?
  {
    hide RunHost, IsComplete, ProgressOf;
    RunFits(device, moves);
  }

  /** The answer of the check before the action was given at a step of the run, for the
      submission at hand, and since then neither a crash nor another input came between. */
  lemma {:induction false} PreWasAsked(device: string, moves: seq<Move>) returns (n: nat)
    requires ProgressOf(device, moves).pre.Some?
    ensures n < |moves| && moves[n] == Advance(ProgressOf(device, moves).pre.value)
    ensures RunHost(device, moves[..n]).pc.Checking?
    ensures ProgressOf(device, moves).sub == Some(RunHost(device, moves[..n]).pc.sub)
    ensures forall k | n < k < |moves| :: !EndsHandling(RunHost(device, moves[..k]), moves[k])
  {
    hide RunHost;
    var before := moves[..|moves| - 1];
    var h := RunHost(device, before);
    RunFits(device, before);
    if moves[|before|].Advance? && h.pc.Checking? {
      n := |before|;
    } else {
      n := PreWasAsked(device, before);
      assert forall k | n <= k < |before| :: before[..k] == moves[..k];
    }
  }

  /** In every run, a dispatch is preceded, in the same handling and with no crash in
      between, by a check of the same submission that allowed it, and by nothing but the
      publication of its intent. */
  lemma DispatchWasCleared(device: string, moves: seq<Move>, move: Move, intent: IntentId) returns (n: nat)
    requires Sends(RunHost(device, moves), move, intent)
    ensures n < |moves| && moves[n].Advance? && moves[n].choice.allowed
    ensures var pc := RunHost(device, moves[..n]).pc; pc.Checking? && pc.sub.intent == intent
    ensures forall k | n < k < |moves| :: !EndsHandling(RunHost(device, moves[..k]), moves[k])
    ensures var r := ProgressOf(device, moves);
            r.sent == [] && r.sub.Some? && r.sub.value.intent == intent && r.outputs == [IntentEvent(r.sub.value)]
  {
    hide RunHost, ProgressOf, IntentEvent;
    RunFits(device, moves);
    n := PreWasAsked(device, moves);
  }

  /** In every run, a receipt says what the device and the check after the action answered,
      and where the check refused, its intercept was handed over before. */
  lemma ReceiptComesAfterJudgement(device: string, moves: seq<Move>)
    requires var pc := RunHost(device, moves).pc; pc.Staging? && pc.purpose.Handle? && pc.event.kind.Receipt?
    ensures var e, r := RunHost(device, moves).pc.event, ProgressOf(device, moves);
            && r.sub.Some? && r.post.Some? && r.sent == [r.sub.value.intent]
            && e == ReceiptEvent(r.sub.value, Outcome(r.post.value))
            && r.outputs == [IntentEvent(r.sub.value)]
                            + if r.post.value.allowed then []
                              else [InterceptEvent(r.sub.value, Post, r.post.value.data)]
  {
    hide RunHost, ProgressOf;
    RunFits(device, moves);
    var pc, r := RunHost(device, moves).pc, ProgressOf(device, moves);
    ReceiptEndsOutputs(r, pc.event);
  }

  lemma ReceiptEndsOutputs(r: Progress, e: Event)
    requires IsComplete(r.(outputs := r.outputs + [e])) && e.kind.Receipt?
    ensures r.sub.Some? && r.post.Some? && r.sent == [r.sub.value.intent]
    ensures e == ReceiptEvent(r.sub.value, Outcome(r.post.value))
    ensures r.outputs == [IntentEvent(r.sub.value)]
                         + if r.post.value.allowed then []
                           else [InterceptEvent(r.sub.value, Post, r.post.value.data)]
  {
    hide IntentEvent, InterceptEvent, ReceiptEvent, Outcome;
    var all := r.outputs + [e];
    assert e in all && all[|all| - 1] == e && all[..|all| - 1] == r.outputs;
    var sub := r.sub.value;
    if !r.pre.value.allowed {
      assert e == [IntentEvent(sub), InterceptEvent(sub, Pre, r.pre.value.data)][1];
      InterceptIsNoReceipt(sub, Pre, r.pre.value.data);
      assert false;
    }
    var before := [IntentEvent(sub)]
                  + if r.post.value.allowed then [] else [InterceptEvent(sub, Post, r.post.value.data)];
    assert all == before + [ReceiptEvent(sub, Outcome(r.post.value))];
    assert (before + [ReceiptEvent(sub, Outcome(r.post.value))])[..|before|] == before;
  }

  lemma InterceptIsNoReceipt(sub: Submission, phase: Phase, verdict: Rest)
    ensures !InterceptEvent(sub, phase, verdict).kind.Receipt?
  {
  }

  // ---------------------------------------------------------------------
  // What the host reports, the loop reads
  // ---------------------------------------------------------------------

  /** A receipt read back settles the intent it was written for: as succeeded exactly when
      the device was certain of a success and the check allowed it, as unknown exactly when
      the device was not certain; and only a success keeps the session active. */
  lemma ReportIsReadBack(device: string, i: LoopInput, sub: Submission, answer: Choice)
    requires i.event.kind == ReceiptEvent(sub, Outcome(answer)).kind
    requires i.event.content == ReceiptEvent(sub, Outcome(answer)).content
    requires i.session.intent.Some? && i.session.intent.value.id == sub.intent
    ensures var r := LoopStep(device, i);
            var device := answer.outcome.details;
            && r.Stepped? && r.consumed && r.after.intent.Some? && r.after.intent.value.id == sub.intent
            && (r.after.intent.value.state.Succeeded? <==>
                  device.success && device.certainty == "confirmed" && answer.allowed)
            && (r.after.intent.value.state.DispatchUnknown? <==> device.certainty == "unknown")
            && (r.after.state == if r.after.intent.value.state.Succeeded? then i.session.state else SessionFailed)
  {
  }

  /** A receipt claims success only where the device was certain of it, and otherwise passes
      on what the device and the check said. */
  lemma ReceiptIsHonest(sub: Submission, answer: Choice)
    ensures var claim, said := ReceiptEvent(sub, Outcome(answer)).content.rest.details, answer.outcome.details;
            && (claim.success <==> said.success && said.certainty == "confirmed")
            && claim.certainty == said.certainty && (claim.postCheckAllowed <==> answer.allowed)
            && claim.receiptId == said.receiptId && claim.other == said.other
  {
  }

  /** The outputs of two executions have the same key only when they are the same output of
      the same intent. */
  lemma OutputsAreToldApart(a: Submission, b: Submission, x: Rest, y: Rest)
    ensures IntentEvent(a).key == IntentEvent(b).key <==> a.intent == b.intent
    ensures ReceiptEvent(a, x).key == ReceiptEvent(b, y).key <==> a.intent == b.intent
    ensures forall p, q ::
              InterceptEvent(a, p, x).key == InterceptEvent(b, q, y).key <==> a.intent == b.intent && p == q
    ensures IntentEvent(a).key != ReceiptEvent(b, y).key
    ensures forall p ::
              InterceptEvent(a, p, x).key != IntentEvent(b).key && InterceptEvent(a, p, x).key != ReceiptEvent(b, y).key
  {
  }

  /** An intercept read back blocks the intent and fails the session, whichever check it
      comes from; the intent itself read back counts as handed over. */
  lemma InterceptIsReadBack(device: string, i: LoopInput, sub: Submission, phase: Phase, verdict: Rest)
    requires i.session.intent.Some? && i.session.intent.value.id == sub.intent
    ensures i.event.kind == InterceptEvent(sub, phase, verdict).kind
            && i.event.content == InterceptEvent(sub, phase, verdict).content ==>
              var r := LoopStep(device, i);
              && r.Stepped? && r.consumed && r.after.state == SessionFailed
              && r.after.intent == Some(i.session.intent.value.(state := SafetyBlocked))
    ensures i.event.kind == IntentEvent(sub).kind && i.event.content == IntentEvent(sub).content ==>
              var r := LoopStep(device, i);
              && r.Stepped? && r.consumed && r.after.state == i.session.state
              && r.after.intent == if !i.session.intent.value.state.Proposed? then i.session.intent
                                   else Some(i.session.intent.value.(state := Dispatched))
  {
  }
}
