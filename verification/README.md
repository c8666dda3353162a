# Coordination kernel: model and proofs

This project models the coordination-v2 kernel of a multi-device agent system and
proves what the kernel is for. The kernel has five parts that are modelled
together, because the interesting properties span them, and two self-contained ones.

* **The board** (`Events`, `TaskView`, `Admission`, `Board`): an append-only event
  log with indexes by event id, idempotency key and terminal key, a state-gated
  admission check, and the replay that turns a log into the view of one task and
  revision. Every append is one atomic step, so a run of the board is any
  interleaving of its clients' requests. `AdmittedLog` says exactly which logs a
  board can hold (`Board.RunIsValid`, `Board.AdmittedLogIsReachable`).
* **What every board history satisfies** (`History`, `Clues`, `Gate`): the gate and the
  replay are two pieces of code with conditions of their own, and they agree on
  every reachable log, mixed legacy and v2, with any number of tasks and revisions.
  `Gate` says in both directions, about the events of the log instead of the replay,
  what the gate lets in, which completions count and which clues are pending.
* **Coordinator recovery** (`Recovery`): the control state rebuilt by paging through
  the log agrees with the replay.
* **Team planning** (`Ordering`, `Matching`, `Preference`, `Planning`, `Eligibility`): the
  augmenting-path search is complete by Hall's theorem, for slot lists with and without
  repeated ids, and chooses by the order of slots, devices and bids; an offer and the
  later check of the plan look for the same; and closing a bid round around an arbitrary
  or throwing policy ends in a sound plan exactly when it should.
* **The agent process** (`Loop`, `Store`, `AgentHost`, `Mailbox`, `Handling`, `Sessions`,
  `Protocol`, `DispatchSafety`, `Fleet`, `Publication`, `Timeliness`, `Quarantine`,
  `Leftovers`, `AgentProcess`): the agent loop, the durable store, and the host with its mailbox as a
  state machine in which each point of the program is followed by one durable write or
  outside effect. A schedule is any list of own steps, crashes, restarts, with or without
  a replay, and appends by other clients. `Handling`, `Sessions` (what each board event
  does to a session) and `Protocol` (which safety verdict, dispatch and output follow
  which) hold for every schedule;
  `DispatchSafety`, `Publication` and `Timeliness` for every schedule in which polls start
  with an empty mailbox (`Mailbox.PollsStartEmpty`), which a caller of the poll can
  check, and which a mailbox of size one or a poll limit of one guarantees. `Fleet`
  carries the dispatch rule over to any number of processes on one board. `AgentProcess`
  holds the same process as imperative code over mutable objects and proves that, while
  others append, it moves through exactly the states of the machine. `Patrol` and
  `Schedules` are a small board history and the stretches of a run that the concrete
  counterexamples share.
* **The tiered write queue** (`TieredQueue`) and **the redaction traversal**
  (`Redaction`).

Five properties do not hold as one would first state them; each comes with the exact
condition and a concrete or general counterexample.

* Every admitted v2 gated event takes effect in the replay, except a posting whose
  revision a legacy terminal event has already frozen
  (`History.PostingTakesEffectUnlessFrozen`, `History.FrozenPosting`).
* A bid round commits a plan exactly when a team exists only while the bids are
  fresh. In general the fallback commits exactly when the slot ids are distinct, the
  matching finds a plan, and each of that plan's own seats still stands; a stale bid
  can hide another, acceptable team (`Planning.FallbackDecides`,
  `Planning.StaleBidHidesATeam`, `Planning.RepeatedSlotIsRefused`).
* The queue's outstanding count is what is queued plus what is in flight, at every
  point of a run, exactly when every acknowledgement covers no more than what is in
  flight or meets an empty queue. An acknowledgement of a record never taken brings the
  count to zero while the record is queued. That is a misuse of the class and no run of
  the program: its one writer (observability/storage.py:751-802) acknowledges exactly
  the batch it took, which is always covered (`TieredQueue.OutstandingIsExact`,
  `TieredQueue.EarlyReportHidesARecord`, `TieredQueue.WriterIsCovered`).
* The store documents quarantine as the means to keep startup replay from looping on a
  rejected event. Replay of a record whose input is committed takes the process down
  exactly when the board rejects the event, and then only once, because the record
  leaves the outbox, or when the record is quarantined as well, and then on every
  restart that replays. A rejection is two writes, and a crash between them leaves such
  a record: a run of the process reaches it, and no replay gets past it
  (`Quarantine.DueRecordIsSettled`, `Quarantine.StrandedRecordIsReachable`).
* An intent is handed to the device at most once, its events agree, no startup replay
  adds an intent to the board, the store refuses no write and the committed offset
  passes no input over, provided polls start with an empty mailbox. A poll ends at an
  input that is not consumed, drops it and keeps the ones behind it; the next poll reads behind the committed offset again and queues the same
  inputs once more behind them. What is left over is then handled again after its commit,
  or its commit passes the dropped input over. In any run, a dispatched intent is
  submitted again exactly when the mailbox hands its assignment over again while the
  assignment stands, the view is not terminal, no replan is pending, and the stored
  session is not settled on it; and the store refuses a write exactly when it would move
  the offset back. A run without a crash dispatches an intent twice and ends with a
  refused offset, or, if the device answers otherwise, with a key conflict; in another
  run a later replay puts an intent that was staged before a crash on the board, and
  nothing ever dispatches it (`Handling.ResubmissionIsExact`,
  `Handling.RefusalMeansBehind`, `Leftovers.LeftoverIsDispatchedTwice`,
  `Leftovers.LeftoverConflicts`, `Leftovers.LateIntentIsNeverDispatched`,
  `DispatchSafety.DispatchedAtMostOnce`, `Timeliness.ReplayAddsNoIntent`). That an intent goes to one device only, and
  only when it is on the board, holds in every run (`Fleet.OneDeviceInTheFleet`,
  `Handling.DispatchComesAfterIntent`).

Strings are opaque names; keys, event ids and intent ids are the injective values that
the program formats as text or hashes. Times are reals. A payload is a record of optional
fields, and `Rest` stands for what neither admission nor the replay looks at. Where the
program raises, the result is an error value or the process goes down. Times, safety
verdicts, device answers and bid offers are inputs of the steps that use them; the classes
of `AgentProcess` record what was asked and answered, so that contracts can say what
became of it.

`dafny verify dfyconfig.toml` checks the whole project.

## Model

| member | source | states |
|---|---|---|
| TaskView.TaskCoordinationView | blackboard/view.py:134-312 | the one-pass loop over eight mutable variables computes the replay function on every log, task and revision |
| TaskView.EffectiveTaskRevisions | blackboard/view.py:74-94 | the pass with a running maximum resolves each event's revision from the prefix that ends at it |
| TaskView.FoldIsLocal | blackboard/view.py:159-172 | replaying only the events of a task and revision, with the same matching and clue binding, gives the view of the whole log |
| TaskView.ClueBindsInSubLog | blackboard/view.py:74-94 | a clue without a revision binds to the same revision in that sub-log as in the log |
| TaskView.FoldIgnoresInterleaving | blackboard/view.py:159-172 | logs that agree on those events have the same view, whatever else is interleaved |
| TaskView.RevisionIsPrefixStable | blackboard/view.py:74-94 | no later event re-binds an older one to another revision |
| TaskView.RelevantExtends | blackboard/view.py:47-61 | the events of a task and revision only grow at the end |
| TaskView.ClueBinding | blackboard/view.py:163-169 | a clue without a revision belongs to the newest revision posted before it |
| TaskView.FoundIsFirst | blackboard/view.py:230-254 | an id names the first assignment of a plan that carries it |
| Admission.IdentitiesAreUnique | blackboard/board.py:189-245 | ids, keys and terminal keys occur at most once in an admitted log |
| Board.Blackboard.Append | blackboard/board.py:162-298 | the method on its log and three index dictionaries is the atomic append function, result and state |
| Board.Blackboard.ValidateTransition | blackboard/board.py:510-633 | the gate, judged on a fresh replay of the committed events |
| Board.Blackboard.ReadSince | blackboard/board.py:684-698 | the scan returns the next events of the requested types, at most limit of them |
| Board.AppendKeepsValid | blackboard/board.py:257-285 | an append keeps the log admitted and the indexes exact; only an appended answer changes anything, and it adds the stamped event at offset n with version n + 1 |
| Board.RunIsValid | blackboard/board.py:162-298 | after any interleaving of requests the log is admitted and each index is exactly the function of the log it stands for |
| Board.AdmittedLogIsReachable | blackboard/board.py:162-298 | conversely every admitted log is the log of some run |
| Board.AnswerMeansKnown | blackboard/board.py:189-245 | the indexes answer exactly when a committed event shares an id, key or terminal key |
| Board.AcceptedMeansCommitted | blackboard/board.py:189-285 | an accepted request is in the log with the same business identity |
| Board.AcceptedIsDuplicate | blackboard/board.py:190-239 | a request equal in business terms to a committed event is answered with that event's place |
| Board.RetryIsStable | blackboard/board.py:185-245 | after any further history, an accepted event is answered as a duplicate at its first offset and version, even where the gate would now refuse it |
| Board.BusinessIdentity | blackboard/board.py:91-104 | two requests are the same in business terms exactly when they agree in everything but the fields the server owns and trace data |
| Board.AnswerIsExact | blackboard/board.py:185-285 | what a client is told, from the committed events alone: a request that shares no key, terminal key or id with any is appended unless gate or clock refuse it; any other is answered with the place of the event it runs into, as a duplicate, a terminal conflict or a key conflict |
| Board.RunExtends | blackboard/board.py:257-277 | the log only grows at its end |
| Board.PageAdvances | blackboard/board.py:684-698 | a page followed to its last offset selects exactly the log in between, and a short page exhausts it |
| Board.DeliveryIsExact | blackboard/board.py:300-329 | polling from -1 with the last offset, any limits and any appends in between, delivers exactly the type-filtered log in order |
| History.FoldIsConsistent | blackboard/view.py:182-221 | an active round carries the view's epoch, a plan is of the current epoch or legacy at epoch 0, completed ids are among the plan's ids |
| History.AdmissionRefinesProjection | blackboard/board.py:563-633 | every admitted v2 transition takes its effect branch in the replay and is never skipped |
| History.AdmittedTransitionApplies | blackboard/view.py:182-307 | on a consistent view, what the gate admits has the effect its kind claims |
| History.PostingTakesEffectUnlessFrozen | blackboard/board.py:541-549 | an admitted v2 posting sets task and status if and only if its revision has no terminal event yet, and changes nothing else; only a legacy terminal event can have frozen it |
| History.FrozenPosting | blackboard/view.py:174-181 | a legacy TASK_DONE followed by a v2 posting: the posting is admitted and has no effect |
| History.TaskMeansPosted | blackboard/view.py:178-181 | a view has a task only if its revision was posted, and always does unless frozen |
| History.TerminalOrigin | blackboard/view.py:300-307 | a terminal view was made by a terminal event of that task and revision in the log |
| History.TerminalEventTakesEffect | blackboard/board.py:216-229 | a committed terminal event of either generation freezes its view at once |
| History.TerminalAgreement | blackboard/board.py:275-276 | an event is named by the terminal index for a task and revision exactly when the replay of the whole log reports it as terminal |
| History.TerminalFreezes | blackboard/view.py:174-176 | after a terminal event no append changes the view |
| History.TaskIsKept | blackboard/view.py:174-181 | the first posting and the first terminal event stay in the view for ever |
| History.EpochGrows | blackboard/view.py:189-196 | the epoch of a task and revision never decreases |
| History.OnePlanPerEpoch | blackboard/board.py:586-593 | between two committed plans lie a replan and, after it, a bid round at the epoch it opened, which is the second plan's epoch |
| History.PlanOfEpochIsUnique | blackboard/board.py:586-593 | a task, revision and epoch name at most one committed plan |
| History.RoundsAdvance | blackboard/board.py:572-584 | successive rounds grow in epoch, or in number within an epoch |
| History.PlanOrigin | blackboard/view.py:214-254 | a view's v2 plan is a committed event, after which every completion it counts was recorded |
| History.ExactCompletion | blackboard/board.py:613-627 | an admitted v2 TASK_DONE declares exactly the ids of the plan of its epoch, and each was reported complete under that plan between the plan and the TASK_DONE |
| Gate.GateIsExact | blackboard/board.py:510-633 | for every well-formed v2 transition behind every admitted log: the gate lets it in if and only if the log posts its revision, has not ended it, and holds what the transition rests on in the current epoch: rounds below it and no plan, a round and no plan, the named plan with the assignment, open clues, or the named plan with every one of its ids reported complete |
| Gate.CompletedMeansReported | blackboard/view.py:230-254 | after a committed v2 plan and until a replan or the end, an id counts as completed if and only if it is an id of the plan and a later ASSIGNMENT_COMPLETED reports it under that plan, epoch and assignment epoch |
| Gate.PendingMeansOpen | blackboard/view.py:255-279 | in a view that has not ended, a clue is pending if and only if it was bound and no plan or replan has used it up since |
| Gate.EndedMeansTerminal | blackboard/view.py:300-307 | a view is terminal exactly when the log holds a terminal event of its task and revision |
| Gate.EpochIsOpened | blackboard/view.py:182-196 | the epoch of a view that has not ended is the latest that a bid round or a replan of the log opened |
| Gate.EpochIsShown | blackboard/view.py:182-221 | the active round and the plan of such a view are the last round and the plan of its epoch in the log |
| Gate.LegacyGateIsExact | blackboard/board.py:516-535 | a legacy event is refused exactly when it would assign, intercept or end a task that the log posts as a v2 task |
| Gate.V2TasksStayV2 | blackboard/board.py:516-535 | so a task posted as a v2 task is planned, intercepted and ended by v2 events only |
| Gate.PendingIsInOrder | blackboard/view.py:255-279 | pending clues stand in the order in which they were bound |
| Gate.CompletedIsInOrder | blackboard/view.py:230-254 | completed ids stand in the order of their reports |
| Clues.CluesAreConserved | blackboard/view.py:255-279 | the clues bound before the terminal event split, with multiplicity, into pending, consumed and left over at the end |
| Clues.BoundOnce | blackboard/view.py:255-257 | each clue is bound at most once |
| Clues.ConsumedOnce | blackboard/view.py:266-274 | each consumed clue was bound, is consumed once, and is not pending |
| Clues.ReplansPayForEpochs | blackboard/board.py:601-611 | with R admitted replans the epoch is R or R + 1, and at least R clues were consumed |
| Clues.ReplansAreBoundedByClues | blackboard/board.py:601-611 | R is at most the number of bound clues |
| Recovery.Coordinator.RecoverControlState | coordination/coordinator.py:124-173 | for every positive page limit, and whatever others append between pages, the paged loop leaves the control state that the history at the last page stands for |
| Recovery.Coordinator.RememberBidRound | coordination/coordinator.py:609-617 | the timer of a task shows task, revision, epoch, number and deadline of the round event, field by field, and nothing else changes |
| Recovery.RecoveryAgreesWithReplay | coordination/coordinator.py:124-173 | in a pure v2 history with one revision of a task, the task has a timer exactly when the replay shows an active round, and then its task, revision, epoch, number and deadline are those of the view; and it is known exactly when posted and not terminal |
| Recovery.CatalogueAgreesWithReplay | coordination/coordinator.py:152-167 | the known-task catalogue agrees with the replay for any number of revisions |
| Recovery.TimersFollowTheLastControlEvent | coordination/coordinator.py:154-162 | the timer, kept per task, shows the fields of the last control event of whichever revision, if that is a round, and there is none otherwise |
| Matching.Matcher.AugmentSlot | coordination/policy.py:394-404 | the recursive method that mutates its two maps and the visited set is the search function; unvisited devices decrease |
| Matching.AugmentMeaning | coordination/policy.py:394-404 | success gives the root slot one more holder and every other slot as many as before, and leaves visited devices alone; failure leaves the matching unchanged and every neighbour visited |
| Matching.ReseatedDeviceSeats | coordination/policy.py:399-403 | a device counted for two slots in mid-recursion is moved once its former slot has found a replacement, and the counts come out right |
| Matching.FailureIsHallViolator | coordination/policy.py:394-408 | a failed search exhibits a set of slots, the root and those held by visited devices, that takes up more positions than it has acceptable devices |
| Matching.HallViolatorExcludesTeam | coordination/policy.py:377-408 | where such a set exists no team does |
| Matching.MatchingIsComplete | coordination/policy.py:377-408 | for every slot list, repeated ids included, the search returns nothing exactly when no injective assignment of devices to positions along accepted, eligible bids exists |
| Matching.ProposedIsPerfect | coordination/policy.py:410-418 | a proposed plan has an assignment for every position, backed by a bid, and it covers each slot once with distinct devices exactly when no slot id repeats |
| Matching.TeamIsInjective | coordination/policy.py:391-408 | where no slot id repeats, each slot has one holder after the search |
| Matching.BestPlanIsPerfect | coordination/policy.py:406-418 | for distinct slots there is one plan exactly when a team exists, and it is perfect |
| Matching.ProposedIsBest | coordination/policy.py:410-418 | for distinct slots the search proposes that plan and no other |
| Matching.PlanIsStable | coordination/policy.py:381-389 | the plan does not depend on the order of slots and bids nor on repeated bids |
| Matching.DeterministicMaximumMatching | coordination/policy.py:377-426 | the method proposes a plan exactly when a team exists, for every slot list; for distinct slots it is the best plan |
| Matching.OfferIsFirst | coordination/policy.py:464-465 | of several offers of a bid for a slot the first counts |
| Preference.ProposedIsOrdered | coordination/policy.py:381-404 | a proposed plan lists the slots in the order of their ids, and backs each assignment by the first of the bids with which its device accepts the slot |
| Preference.LastSlotChooses | coordination/policy.py:394-408 | no perfect plan gives the last slot an earlier device than the search does |
| Preference.FirstThatSeats | coordination/policy.py:394-404 | a search takes the first device of its list from which it does not run into a dead end, where every device is held and every other device of its holder is one as well |
| Preference.DeadEndIsTaken | coordination/policy.py:394-408 | no perfect plan gives a device of a dead end to a further slot |
| Preference.FirstChoicesAreMet | coordination/policy.py:377-408 | where the first devices of the slots are distinct, every slot gets its first device |
| Preference.TextLeqIsLexicographic | coordination/policy.py:381-389 | the order of ids is the lexicographic one |
| Eligibility.EligibilityBidEngine.EvaluateSlot | coordination/policy.py:77-154 | an offer accepts exactly when the device is suitable, its state fresh and its channel open, exactly when its metrics are eligible, and exactly when it gives no reason; the closed channel is the only reason exactly when nothing else is missing |
| Eligibility.SuitableDevicesFit | coordination/policy.py:245-318 | the check of a plan finds that a device fits exactly when it is suitable on the snapshot at hand |
| Planning.CollectViolations | coordination/policy.py:180-318 | the method collects exactly the violations of a candidate |
| Planning.Validate | coordination/policy.py:174-374 | accepts exactly the acceptable candidates; the committed assignments, one per slot id in slot order with distinct devices, are those of the candidate, each along an accepting bid of its own device, with epoch, name, verb, actions and completion rule of the task and the slot; otherwise reports exactly the violations, or the complaint about the first slot with an illegal template |
| Planning.AcceptedIsPerfect | coordination/policy.py:174-374 | every accepted plan, from whatever policy, is a perfect matching along accepting bids |
| Planning.AcceptanceMeans | coordination/policy.py:174-344 | with distinct bids, a candidate is acceptable if and only if its header is current, it is a perfect matching along accepting bids, and each of its devices still fits its slot, whose template is legal |
| Planning.SlotOfIsRetained | coordination/policy.py:191-191 | of several slots with an id the last is the one looked up |
| Planning.BidIsLast | coordination/policy.py:219-219 | of several bids with an id the last is the one looked up |
| Planning.SnapshotIsLast | coordination/policy.py:220-222 | of several snapshots of a device the last is the one looked up |
| Planning.CommittedIsSound | coordination/policy.py:345-373 | what is committed for an acceptable candidate is a sound plan and the one proposed |
| Planning.PerfectPlanIsTeam | coordination/policy.py:174-374 | where no slot id repeats, an accepted plan witnesses a team |
| Planning.PerfectIsStructurallySound | coordination/policy.py:180-244 | a plan of the matching never breaks a structural rule nor a bid rule |
| Planning.PerfectIsAcceptedWhenSeatsStand | coordination/policy.py:245-360 | a perfect plan is accepted exactly when each of its own devices still fits its slot and each template is legal |
| Planning.PerfectIsAcceptedWhenFresh | coordination/policy.py:245-360 | with fresh bids and legal templates it is accepted |
| Planning.RepeatedSlotIsRefused | coordination/policy.py:190-200 | where a slot id repeats, no plan of the matching is accepted |
| Planning.FallbackDecides | coordination/coordinator.py:372-398 | without a surviving proposal the round commits exactly when the slot ids are distinct, the matching finds a plan and each of its seats stands |
| Planning.CloseBidRound | coordination/coordinator.py:300-401 | for any policy, also one that throws, and any slot list: committed exactly when the surviving proposal or else the plan of the matching is acceptable; then the committed assignments are those of that plan, and sound; with fresh bids and distinct slot ids, committed exactly when a team exists and failed otherwise, with the reason of the failure |
| Planning.StaleBidHidesATeam | coordination/coordinator.py:374-398 | with a stale bid the round can fail although an acceptable team exists |
| Loop.PureAgentLoop.Step | coordination/agent_loop.py:162-405 | the handlers that assign to a copied session compute the step function |
| Loop.PureAgentLoop.AssignTask | coordination/agent_loop.py:233-318 | the TASK_ASSIGNED handler, branch by branch |
| Loop.PureAgentLoop.MatchesPlan | coordination/agent_loop.py:258-274 | every assignment of the event still stands in the current plan, by its last entry, for the same device and epoch |
| Loop.FirstForIsFirst | coordination/agent_loop.py:272-274 | of several assignments to a device the first is its own |
| Loop.LastByIdIsLast | coordination/agent_loop.py:258-274 | of several planned assignments with an id the last is the one that counts |
| Sessions.SessionEndsExactly | coordination/agent_loop.py:330-405 | a session fails exactly on a receipt of its intent without success, an intercept of it, the failure of its task or an emergency stop that reaches its device, and is done exactly on the completion of its assignment or of its task |
| Sessions.ReceiptSettles | coordination/agent_loop.py:330-351 | a receipt of the intent at hand settles it as succeeded, unknown or failed exactly as it reports, and moves nothing else |
| Sessions.ReplanResets | coordination/agent_loop.py:369-379 | a replan from the session's epoch moves it to the next and takes back assignment, intent and receipt |
| Sessions.AssignmentIsTakenUp | coordination/agent_loop.py:233-318 | an assignment that stands moves the session to its revision and epoch, to work on the device's own part or to stand by without one |
| Sessions.BidIsExact | coordination/agent_loop.py:182-231 | a bid is made exactly when the round asks for known slots, in time and for the revision of the view, and it answers that round |
| Sessions.ConsumptionIsExact | coordination/agent_loop.py:162-405 | an input is left unconsumed exactly when it is an assignment while a replan is pending, and a session is cleaned up exactly when its task ends |
| Sessions.SessionMovesExactly | coordination/agent_loop.py:162-405 | a session moves, by one version, exactly on these events |
| Sessions.RunIsGrounded | coordination/agent_process.py:212-297 | the invariant of stored outcomes, over every schedule |
| Sessions.OutcomeWasReported | coordination/agent_loop.py:330-360 | in any run, an intent that a stored session counts as succeeded, failed, unknown, blocked or dispatched was reported so on the board |
| Sessions.EpochWasReached | coordination/agent_loop.py:162-405 | in any run, a stored session past its start has an epoch that a bid round, an assignment or a replan of its task named on the board |
| Sessions.SessionsOnlyGrowNewer | coordination/file_session_store.py:271-281 | no step of the process replaces a stored session except by a newer version |
| Loop.StepIsSavable | coordination/agent_loop.py:162-405 | a step that changes a session makes its version newer, so the store accepts it; effects come only with consumption |
| Loop.RedeliveryNeverResubmits | coordination/agent_loop.py:297-309 | delivered again, an assignment whose intent has left the proposed state submits nothing and keeps the intent |
| Loop.SubmissionIsOwnWork | coordination/agent_loop.py:284-318 | a submission is the device's own first assignment of the event, proposed in the session to be stored |
| Loop.AppendIsOwnBid | coordination/agent_loop.py:199-231 | an output is the device's bid for the round at hand, under that round's key |
| AgentHost.SubmissionIsAdmissible | coordination/agent_loop.py:284-318 | an intent submitted against the current view meets the event contract and passes the gate |
| AgentHost.ReportsAreAdmissible | coordination/action_executor.py:317-387 | what a dispatch leads to is never refused: intercept and receipt meet the event contract and pass the gate on whatever log |
| Store.StagingIsIdempotent | coordination/file_session_store.py:296-315 | staging again, with whatever was recomputed, yields the event staged first |
| Store.QuarantineIsFinal | coordination/file_session_store.py:342-352 | a key in quarantine is not staged again |
| Store.StoredFormIsCanonical | coordination/file_session_store.py:79-123 | the business identity of an event survives storage |
| Store.RepublicationIsStable | coordination/publisher.py:28-48 | publishing again after acceptance changes nothing and reports the first place |
| Store.Publish | coordination/publisher.py:28-48 | stage, append, quarantine on rejection: disk, board and outcome |
| Store.PublicationIsExact | coordination/publisher.py:28-48 | a quarantined key is refused and nothing changes; otherwise the first event under the key is submitted, and stays staged unless the board rejects it, which quarantines it; no other place is touched |
| Store.FileTaskSessionStore.SaveConsumerOffset | coordination/file_session_store.py:167-172 | the offset moves forward only |
| Store.FileTaskSessionStore.SaveSession | coordination/file_session_store.py:271-281 | a session is replaced by a newer version or by itself |
| Store.FileTaskSessionStore.StageTaskEvent | coordination/file_session_store.py:296-315 | the first event under a key stays, a quarantined key is refused |
| Store.FileTaskSessionStore.ResolveTaskEvent | coordination/file_session_store.py:336-340 | removes one staged event |
| Store.FileTaskSessionStore.RejectTaskEvent | coordination/file_session_store.py:342-352 | moves one staged event to quarantine |
| Store.FileTaskSessionStore.CleanupTask | coordination/file_session_store.py:365-382 | removes what a task left behind only when its outbox and raw receipts are empty |
| Loop.SubmissionIsUnambiguous | coordination/agent_loop.py:258-274 | a plan that names one assignment id for two devices is never submitted from |
| Loop.SubmissionIsExact | coordination/agent_loop.py:233-318 | an intent is submitted exactly when the event assigns it to the device with a legal action, the view is not terminal, no replan is pending, the assignment still stands, and the session has not gone beyond proposing it |
| Mailbox.RunIsInOrder | coordination/agent_process.py:127-142 | in a run whose polls start with an empty mailbox, the input in hand is the next one after the committed offset, and the mailbox continues from it without a gap |
| Mailbox.OffsetSkipsNothing | coordination/agent_process.py:137-142 | in such a run the committed offset moves only to the next input of interest |
| Mailbox.OneAtATimeStartsEmpty | coordination/agent_process.py:66-85 | polls start empty in every run in which the mailbox holds one envelope, or each poll reads at most one |
| Mailbox.StepKeepsPassed | coordination/agent_process.py:127-135 | in any run an input at or behind the committed offset, of which neither the mailbox nor the handling has anything left, is never taken up again |
| Handling.RunIsSound | coordination/agent_process.py:212-297 | the invariant of the host's durable state at every point of the program, over every schedule and whatever the mailbox hands over again |
| Handling.RefusalMeansBehind | coordination/file_session_store.py:167-172 | in any run the store refuses a write exactly when the input to be committed lies behind the committed offset; no write of a session is refused and the session to mark is found |
| Handling.DispatchComesAfterIntent | coordination/agent_process.py:586-595 | in any run, at the moment of a dispatch the intent is on the board because of a committed plan that assigns it, and the stored session is marked |
| Handling.CommitComesAfterSession | coordination/agent_process.py:284-286 | in any run an input is committed only when the session its handling ended in is stored |
| Handling.ResubmissionIsExact | coordination/agent_loop.py:233-318 | in any run a dispatched intent is submitted again exactly when the mailbox hands its assignment over again, not stale, not terminal, no replan pending, and the stored session not settled on it |
| Handling.TriggerIsUnique | coordination/action_executor.py:60-66 | an intent is triggered by at most one event of the log, for whichever device |
| Protocol.RunFits | coordination/action_executor.py:134-259 | the invariant of the execution protocol at every point of the program, over every schedule |
| Protocol.DispatchWasCleared | coordination/action_executor.py:154-211 | in any run, a dispatch is preceded, in the same handling and with no crash in between, by a check of the same submission that allowed it, and by nothing else than the publication of its intent |
| Protocol.PreWasAsked | coordination/action_executor.py:154-178 | the verdict that counts before the action was given at a step of the same handling, for the submission at hand |
| Protocol.ReceiptComesAfterJudgement | coordination/action_executor.py:223-259 | in any run, a receipt says what the device and the check after the action answered, and the intercept of a refused outcome was handed over before it |
| Protocol.CommitComesAfterExecution | coordination/action_executor.py:134-259 | in any run, when an input is committed its execution is complete: intent and intercept and no dispatch after a refusal, otherwise one dispatch, the intercept of a refused outcome, and the receipt |
| Protocol.ReportIsReadBack | coordination/action_executor.py:342-387 | the receipt that the executor writes, read by the loop, settles the intent as succeeded exactly when the device was certain of a success and the check allowed it, and as unknown exactly when the device was not certain |
| Protocol.ReceiptIsHonest | coordination/action_executor.py:342-387 | a receipt claims success only where the device was certain of it, and passes on certainty and verdict |
| Protocol.OutputsAreToldApart | coordination/action_executor.py:289-387 | two outputs of executions have one key only when they are the same output of the same intent |
| Protocol.InterceptIsReadBack | coordination/action_executor.py:290-339 | the intercept and the intent that the executor writes, read by the loop, block the intent and mark it as handed over |
| DispatchSafety.RunIsSafe | coordination/agent_process.py:212-297 | the invariant of the dispatch rule, over every schedule whose polls start empty |
| DispatchSafety.DispatchedAtMostOnce | coordination/action_executor.py:154-211 | for every schedule of steps, crashes, restarts and appends by others whose polls start empty, an intent is handed to the device at most once, and then it is on the board because of a committed plan that assigns it |
| DispatchSafety.DispatchComesLast | coordination/agent_process.py:586-595 | in such a run, at the moment of a dispatch the intent is on the board, the stored session is marked, and no earlier dispatch took place |
| DispatchSafety.HistoryCountsSends | coordination/action_executor.py:204-211 | in any run the recorded count is the number of steps that handed the intent over |
| DispatchSafety.StoreNeverRefuses | coordination/file_session_store.py:271-281 | in a run whose polls start empty no write of session or offset is refused and the session to mark is found |
| Fleet.FleetIsSound | coordination/agent_process.py:212-297 | the unconditional invariant of every process of a fleet that shares one board |
| Fleet.FleetIsSafe | coordination/agent_process.py:212-297 | the invariant of the dispatch rule for every process, when the polls of all start empty |
| Fleet.DispatchNamesDevice | coordination/agent_loop.py:258-274 | two devices never have the same intent, dispatched or about to be |
| Fleet.OneDeviceInTheFleet | coordination/agent_loop.py:258-274 | for any number of devices on one board and every interleaving of their schedules, whatever their mailboxes hand over again, an intent is handed to one device only |
| Fleet.OneDispatchInTheFleet | coordination/action_executor.py:154-211 | when all polls start empty, an intent is handed over at most once in the whole fleet, and is then on the board |
| Leftovers.PassedIsNeverSent | coordination/agent_process.py:127-142 | the intent of an input that was passed over is not dispatched any more, whatever happens afterwards |
| Leftovers.LeftoverIsDispatchedTwice | coordination/agent_process.py:137-142 | a run without a crash in which an intent is dispatched twice and the store refuses the offset |
| Leftovers.LeftoverConflicts | coordination/agent_process.py:137-142 | the same with a different second answer: the board finds the receipts in conflict |
| Leftovers.LateIntentIsNeverDispatched | coordination/agent_process.py:153-170 | a run in which a later replay puts an intent on the board that was staged before a crash, and no continuation dispatches it |
| Publication.RunIsOrderly | coordination/agent_process.py:299-323 | the invariant of outbox, quarantine and board for the keys of one agent, over every schedule whose polls start empty |
| Publication.CauseIsUnique | coordination/agent_loop.py:213-222 | each key of an agent has at most one causing event in the log |
| Publication.SubmissionAgrees | coordination/publisher.py:28-48 | in a run whose polls start empty, whatever the host submits is owned by its agent, agrees with its first submission under the key, and is never answered with a conflict |
| Publication.ResubmissionIsSame | coordination/file_session_store.py:311-315 | in such a run two submissions under one key are the same business event, whatever was recomputed in between |
| Publication.OutboxLosesOnlyCommitted | coordination/agent_process.py:267-292 | in such a run a staged event leaves the outbox only into quarantine, or when its input is committed and the event is on the board |
| Publication.CommitComesAfterOutputs | coordination/agent_process.py:312-323 | in such a run, when an input is committed, every output counted as published is on the board |
| Publication.UnstagedIsUnsubmitted | coordination/file_session_store.py:296-315 | a key that is neither staged nor quarantined was submitted, if at all, for an input already committed |
| Timeliness.RunIsPrompt | coordination/agent_process.py:153-170 | the invariant of staged intents, over every schedule whose polls start empty: on the board or refused by the gate for good once the input is committed, and awaited by the stored session before |
| Timeliness.ReplayAddsNoIntent | coordination/agent_process.py:153-170 | in such a run the replay of the outbox never appends an intent: it is on the board already, or the gate refuses it |
| History.PlanStands | blackboard/view.py:205-254 | a committed plan stands in the view until the task ends or a later epoch begins |
| Quarantine.DueRecordIsSettled | coordination/agent_process.py:153-170 | the replay of a record, to its end: passed over when its input is not committed; down exactly when it is quarantined as well, with nothing changed, or rejected by the board, with the record gone from the outbox; otherwise on the board, resolved, and replay goes on |
| Quarantine.StrandedRecordIsReachable | coordination/file_session_store.py:342-352 | a run of the process that leaves a record staged and quarantined with its input committed, after which every restart that replays goes down again in the same state |
| AgentProcess.SimpleMailbox.Put | coordination/agent_process.py:70-75 | adds at the end unless the mailbox is full |
| AgentProcess.SimpleMailbox.Get | coordination/agent_process.py:77-81 | takes from the front, or nothing |
| AgentProcess.AgentProcessHost.FillMailbox | coordination/agent_process.py:127-135 | a poll queues what lies behind the committed offset behind what is left over, until the mailbox is full |
| AgentProcess.AgentProcessHost.PollOnce | coordination/agent_process.py:127-142 | inputs are handled from the front, by the machine's steps; the poll ends when none is left, or at one that is not consumed, which is dropped while those behind it are kept |
| AgentProcess.AgentProcessHost.HandleEnvelope | coordination/agent_process.py:212-297 | handling an input taken from the mailbox, wherever it lies, while others append, moves through the states of the machine only and ends with the input committed, or put aside with nothing written, or down |
| AgentProcess.AgentProcessHost.Consult | coordination/agent_process.py:212-258 | asks the loop, with the stored session, the view of the board as it is and the answers of the clock and the bid engine |
| AgentProcess.AgentProcessHost.Execute | coordination/action_executor.py:134-259 | moves through the machine's states; done, it has published the intent, asked the guard before the action, and after a refusal published the intercept and dispatched nothing; otherwise it has dispatched the intent once, asked the guard about the receipt, and published the intercept of a refused outcome and then the receipt with both answers; and however it ends, it has dispatched only what the guard allowed |
| AgentProcess.AgentProcessHost.MarkStored | coordination/agent_process.py:586-595 | marks the stored session or raises |
| AgentProcess.AgentProcessHost.Conclude | coordination/agent_process.py:284-296 | session, then offset, then outbox, raw receipt and cleanup: the stored session, the records and receipts that are gone, and what is left of a finished task |
| AgentProcess.AgentProcessHost.PublishTaskEvent | coordination/agent_process.py:312-323 | staging, append and quarantine, in the machine's steps; on a valid board, an accepted event is then on the board, and one that is not has been outlived by another terminal event |
| AgentProcess.AgentProcessHost.ReplayOutbox | coordination/agent_process.py:153-170 | on a valid board and outbox: a due record is gone once its event is on the board and stays only because another event has ended its task; every other record, and the rest of the store, is as before |
| TieredQueue.TieredBuffer.PutRecord | observability/storage.py:73-99 | the method on its fields is the put function, result and state |
| TieredQueue.TieredBuffer.GetNowait | observability/storage.py:119-127 | takes the oldest record of the most important tier that has one |
| TieredQueue.TieredBuffer.TaskDone | observability/storage.py:129-133 | the outstanding count, floored at zero |
| TieredQueue.PutIsRecorded | observability/storage.py:73-99 | the history of a run records exactly what put did to the queue |
| TieredQueue.GetIsRecorded | observability/storage.py:119-127 | and what get took |
| TieredQueue.GetTakesTheMostImportant | observability/storage.py:119-127 | in every run, a get answers nothing exactly when nothing is queued; otherwise it takes the oldest record of its tier, no queued record is more important, and the other tiers stay |
| TieredQueue.RecordsAreConserved | observability/storage.py:73-133 | in every run and tier, accepted is removed followed by queued, offered is taken plus queued plus dropped, size is the sum of the tiers within capacity, and a critical record leaves only by being taken |
| TieredQueue.RefusalMeansNoRoom | observability/storage.py:75-91 | a put is refused exactly when closed, or full of records at least as important; a critical one only when all are critical |
| TieredQueue.EvictionSparesTheImportant | observability/storage.py:80-95 | an eviction takes the oldest record of the least important tier there is |
| TieredQueue.OutstandingIsExact | observability/storage.py:129-133 | the outstanding count is queued plus in flight at every point of a run exactly when every acknowledgement covers no more than what is in flight, or meets an empty queue |
| TieredQueue.StepIsExact | observability/storage.py:129-133 | the step that breaks the count is an acknowledgement that is not covered, and every such step breaks it |
| TieredQueue.WriterIsCovered | observability/storage.py:751-802 | a writer that acknowledges exactly its batch is always covered |
| TieredQueue.EmptyMeansWritten | observability/storage.py:135-143 | then the count is zero exactly when nothing is queued or in flight, which a flush waits for |
| TieredQueue.EarlyReportHidesARecord | observability/storage.py:129-133 | an acknowledgement that is not covered: the count is zero with a record queued |
| Redaction.Redactor.RedactValue | observability/redaction.py:97-158 | the method ends on every finite graph, restores the active set, computes the guarded traversal, where a later item of a mapping replaces an earlier one with the same key text, and its output is masked |
| Redaction.OutputIsMasked | observability/redaction.py:97-158 | at every depth of the output: an environment, reasoning or secret never shows under its name, except harmless telemetry; nothing is withheld under another name; and apart from telemetry only numbers show as they are |
| Redaction.UnremarkableIsShown | observability/redaction.py:113-158 | a value whose name falls under no rule shows in full: numbers as they are, texts cleaned, binary data by size and digest, containers by all their items |
| Redaction.MergeKeepsLast | observability/redaction.py:137-142 | a dictionary in the output has one item for every key text, the one that came last |
| Redaction.PutThenGuard | observability/redaction.py:137-142 | replacing an item of a mapping before the traversal is replacing its output after it |
| Redaction.CycleMarkMeansEndless | observability/redaction.py:131-154 | a cycle mark appears exactly when the value cannot be written out in full; otherwise the output is the plain redaction, shared objects included |
| Redaction.AcyclicIsUnmarked | observability/redaction.py:131-154 | on an acyclic graph nothing is marked |
| Redaction.PlainIsUnique | observability/redaction.py:97-158 | a value has at most one plain redaction |

## Left out

- Field checks of payloads that no argument rests on are one flag; the distinct error codes of the rest are one code.
- Blank text means ASCII white space, and an empty task id in a query is an ordinary name.
- Keys, event ids and intent ids are injective values: text formatting with separators and hashing are not modelled.
- The fingerprint of an intent and the skill references passed with it are not modelled.
- Copying of events into and out of the board, the stamping of the caller's object, subscribers, waiting and timeouts.
- The bid-round, evidence, action, terminal and agent views; resource claims; the v1 skeleton, adapters and tools.
- Distances and reliability in bid metrics, which decide nothing; the payload of a bid on the board is opaque, and the bids of a round are an input of its closing.
- The check that a verdict's risk level fits its decision: a verdict that does not fit raises, which is a crash at that point.
- Violations and completed ids are compared as sets where the program sorts them.
- The coordinator's reaction to a posting derives its epoch from the current view and is not repeatable after its round was appended; crash properties are stated for the agent process only.
- A caller that catches the exception of a poll and polls the same object again: an exception ends the process and its mailbox.
- Publication.SubmissionAgrees: other clients are required to leave alone the keys of the agent and the identifiers derived from them, and plans to give the agent intents of its own; the program separates them by naming only.
- AgentProcess.AgentProcessHost.HandleEnvelope: crashes between its writes are in the state machine, not in the method.
- Matching.PlanIsStable: distinct slots only; where an id repeats, the holder that is read depends on the order of a dictionary.
- Recovery.Coordinator.RecoverControlState: others make a finite number of requests while it runs; under endless appends neither the program nor the model ends.
- AgentProcess.AgentProcessHost.ReplayOutbox: the process object starts with an empty dispatch count of its own; counts over restarts are in the state machine.
- Each file replacement or removal is atomic, removal of a finished task's directory is one step, and files survive a crash.
- Liveness: a task may wait for ever after a crash between dispatch and receipt, by design of the dispatching mark.
- Redaction.Redactor.RedactValue: the text and key rules are functions given from outside, and the graph does not change during the traversal.
- TieredQueue.TieredBuffer.GetNowait: stands for the waiting get as well, at the moment it returns.
- HTTP, command lines, the model clients, SQLite storage, metrics and spans.
