/** The accounts of a task: where every clue goes, and how epochs are paid for. */
module Clues {
  import opened Events
  import opened TaskView
  import opened Admission
  import opened History

  /** Clues bound to the task and revision before its terminal event. */
  function BoundClues(log: seq<Event>, task: string, revision: int): seq<EventId> {
    if log == [] then []
    else
      var prefix := log[..|log| - 1];
      var e := log[|log| - 1];
      BoundClues(prefix, task, revision) + Added(prefix, e, task, revision)
  }

  function Added(prefix: seq<Event>, e: Event, task: string, revision: int): seq<EventId> {
    if e.kind.Clue? && Binds(prefix, e, task, revision) && Fold(prefix, task, revision).terminal.None? then [e.id]
    else []
  }

  /** What one step took out of the pending list. */
  function Taken(before: View, after: View): seq<EventId> {
    Without(before.pending, SetOf(after.pending))
  }

  function TakenBy(before: View, after: View): seq<EventId> {
    if before.terminal.None? && after.terminal.None? then Taken(before, after) else []
  }

  function LeftBy(before: View, after: View): seq<EventId> {
    if before.terminal.None? && after.terminal.Some? then before.pending else []
  }

  /** Clues taken by plans and replans, in the order in which they were taken. */
  function Consumed(log: seq<Event>, task: string, revision: int): seq<EventId> {
    if log == [] then []
    else
      var prefix := log[..|log| - 1];
      Consumed(prefix, task, revision) + TakenBy(Fold(prefix, task, revision), Fold(log, task, revision))
  }

  /** Clues still pending when the task ended. */
  function Abandoned(log: seq<Event>, task: string, revision: int): seq<EventId> {
    if log == [] then []
    else
      var prefix := log[..|log| - 1];
      Abandoned(prefix, task, revision) + LeftBy(Fold(prefix, task, revision), Fold(log, task, revision))
  }

  /** The number of admitted v2 replans. */
  function Replans(log: seq<Event>, task: string, revision: int): nat {
    if log == [] then 0
    else Replans(log[..|log| - 1], task, revision) + (if IsReplan(log[|log| - 1], task, revision) then 1 else 0)
  }

  lemma {:induction false} BoundCluesAreInLog(log: seq<Event>, task: string, revision: int, id: EventId)
    requires id in BoundClues(log, task, revision)
    ensures exists i :: 0 <= i < |log| && log[i].id == id
  {
    var prefix := log[..|log| - 1];
    if id in BoundClues(prefix, task, revision) {
      BoundCluesAreInLog(prefix, task, revision, id);
      var i :| 0 <= i < |prefix| && prefix[i].id == id;
      assert log[i].id == id;
    } else {
      assert log[|log| - 1].id == id;
    }
  }

  /** No clue is bound twice. */
  lemma {:induction false} BoundOnce(log: seq<Event>, task: string, revision: int, id: EventId)
    requires AdmittedLog(log)
    ensures multiset(BoundClues(log, task, revision))[id] <= 1
  {
    if log != [] {
      var n := |log| - 1;
      var prefix := log[..n];
      BoundOnce(prefix, task, revision, id);
      if id in BoundClues(prefix, task, revision) {
        BoundCluesAreInLog(prefix, task, revision, id);
        var i :| 0 <= i < |prefix| && prefix[i].id == id;
        IdentitiesAreUnique(log, i, n);
      }
    }
  }

  lemma TakenSplits(before: View, after: View, gone: set<EventId>)
    requires after.pending == Without(before.pending, gone)
    ensures multiset(before.pending) == multiset(after.pending) + multiset(Taken(before, after))
  {
  }

  /** How one event moves the clues of a task. */
  lemma ApplyMovesClues(v: View, e: Event)
    requires v.terminal.None? && e.id !in v.pending
    ensures var after := Apply(v, e);
            if after.terminal.Some? then after.pending == [] && !e.kind.Clue?
            else
              multiset(v.pending) + (if e.kind.Clue? then multiset{e.id} else multiset{})
              == multiset(after.pending) + multiset(Taken(v, after))
  {
    var after := Apply(v, e);
    if after.terminal.None? {
      match e.kind
      case Clue =>
        assert Taken(v, after) == [];
      case TaskAssigned =>
        if after != v {
          TakenSplits(v, after, SetOf(GetOr(e.content.inputEvidenceRefs, [])));
        }
      case TaskReplan =>
        if after != v {
          TakenSplits(v, after, ReplanConsumes(e.content));
        }
      case _ =>
        assert after.pending == v.pending;
        assert Taken(v, after) == [];
    }
  }

  lemma NothingTaken(v: View)
    ensures Taken(v, v) == []
  {
  }

  lemma StepBalances(prefix: seq<Event>, e: Event, task: string, revision: int)
    requires e.id !in Fold(prefix, task, revision).pending
    ensures var before := Fold(prefix, task, revision);
            var after := Fold(prefix + [e], task, revision);
            multiset(before.pending) + multiset(Added(prefix, e, task, revision)) ==
            multiset(after.pending) + multiset(TakenBy(before, after)) + multiset(LeftBy(before, after))
  {
    var before := Fold(prefix, task, revision);
    assert (prefix + [e])[..|prefix|] == prefix;
    if before.terminal.None? && Binds(prefix, e, task, revision) {
      ApplyMovesClues(before, e);
    } else {
      NothingTaken(before);
    }
  }

  lemma {:induction false} PendingIsBound(log: seq<Event>, task: string, revision: int, id: EventId)
    requires id in Fold(log, task, revision).pending
    ensures id in BoundClues(log, task, revision)
  {
    var prefix := log[..|log| - 1];
    var e := log[|log| - 1];
    var before := Fold(prefix, task, revision);
    if id in before.pending {
      PendingIsBound(prefix, task, revision, id);
    } else {
      assert e.kind.Clue? && id == e.id && before.terminal.None?;
    }
  }

  lemma NewEventIsNotPending(log: seq<Event>, task: string, revision: int)
    requires AdmittedLog(log) && log != []
    ensures log[|log| - 1].id !in Fold(log[..|log| - 1], task, revision).pending
  {
    var n := |log| - 1;
    if log[n].id in Fold(log[..n], task, revision).pending {
      PendingIsBound(log[..n], task, revision, log[n].id);
      BoundCluesAreInLog(log[..n], task, revision, log[n].id);
    }
  }

  /** Bookkeeping: what leaves the pending list enters one of the other accounts. */
  lemma BalanceStep(bound: seq<EventId>, consumed: seq<EventId>, abandoned: seq<EventId>, pending: seq<EventId>,
                    added: seq<EventId>, taken: seq<EventId>, left: seq<EventId>, after: seq<EventId>)
    requires multiset(bound) == multiset(pending) + multiset(consumed) + multiset(abandoned)
    requires multiset(pending) + multiset(added) == multiset(after) + multiset(taken) + multiset(left)
    ensures multiset(bound + added) == multiset(after) + multiset(consumed + taken) + multiset(abandoned + left)
  {
    assert multiset(bound + added) == multiset(bound) + multiset(added);
    assert multiset(consumed + taken) == multiset(consumed) + multiset(taken);
    assert multiset(abandoned + left) == multiset(abandoned) + multiset(left);
    forall x
      ensures multiset(bound + added)[x] ==
              (multiset(after) + multiset(consumed + taken) + multiset(abandoned + left))[x]
    {
      assert multiset(bound)[x] == (multiset(pending) + multiset(consumed) + multiset(abandoned))[x];
      assert (multiset(pending) + multiset(added))[x] == (multiset(after) + multiset(taken) + multiset(left))[x];
    }
  }

  lemma AbandonedNeedsEnd(log: seq<Event>, task: string, revision: int)
    ensures Fold(log, task, revision).terminal.None? ==> Abandoned(log, task, revision) == []
  {
    if log != [] {
      AbandonedNeedsEnd(log[..|log| - 1], task, revision);
    }
  }

  /** Every bound clue is in exactly one place: pending, consumed by one plan or
      replan, or abandoned at the end. */
  lemma {:induction false} CluesAreConserved(log: seq<Event>, task: string, revision: int)
    requires AdmittedLog(log)
    ensures multiset(BoundClues(log, task, revision)) ==
            multiset(Fold(log, task, revision).pending) + multiset(Consumed(log, task, revision))
            + multiset(Abandoned(log, task, revision))
    ensures Fold(log, task, revision).terminal.None? ==> Abandoned(log, task, revision) == []
  {
    hide Fold, Apply, Added, TakenBy, LeftBy, AdmittedLog, Admitted;
    AbandonedNeedsEnd(log, task, revision);
    FoldNothing(task, revision);
    if log != [] {
      AdmittedAt(log, |log| - 1);
      var prefix := log[..|log| - 1];
      var e := log[|log| - 1];
      var before := Fold(prefix, task, revision);
      var after := Fold(log, task, revision);
      assert log == prefix + [e];
      CluesAreConserved(prefix, task, revision);
      NewEventIsNotPending(log, task, revision);
      StepBalances(prefix, e, task, revision);
      BalanceStep(BoundClues(prefix, task, revision), Consumed(prefix, task, revision),
                  Abandoned(prefix, task, revision), before.pending,
                  Added(prefix, e, task, revision), TakenBy(before, after), LeftBy(before, after), after.pending);
    }
  }

  /** A clue is consumed at most once, and never again pending or abandoned. */
  lemma {:induction false} ConsumedOnce(log: seq<Event>, task: string, revision: int, id: EventId)
    requires AdmittedLog(log) && id in Consumed(log, task, revision)
    ensures multiset(Consumed(log, task, revision))[id] == 1
    ensures id in BoundClues(log, task, revision)
    ensures id !in Fold(log, task, revision).pending
    ensures id !in Abandoned(log, task, revision)
  {
    CluesAreConserved(log, task, revision);
    BoundOnce(log, task, revision, id);
    assert multiset(Consumed(log, task, revision))[id] > 0;
    assert multiset(BoundClues(log, task, revision))[id] > 0;
  }

  /** Replans pay for epochs: after R admitted replans the epoch is R, or R + 1
      when it was opened by a bid round, and each replan consumed a clue of its own. */
  lemma {:induction false} ReplansPayForEpochs(log: seq<Event>, task: string, revision: int)
    requires AdmittedLog(log)
    ensures var r := Replans(log, task, revision);
            && r <= Fold(log, task, revision).epoch <= r + 1
            && r <= |Consumed(log, task, revision)|
  {
    if log != [] {
      var n := |log| - 1;
      var prefix := log[..n];
      var e := log[n];
      ReplansPayForEpochs(prefix, task, revision);
      FoldIsConsistent(prefix, task, revision);
      assert log[..n + 1] == log;
      if IsReplan(e, task, revision) {
        AdmissionRefinesProjection(log, n, task, revision);
        assert e.content.causeId.value in Taken(Fold(prefix, task, revision), Fold(log, task, revision));
      } else if Binds(prefix, e, task, revision) {
        AdmittedAt(log, n);
        EpochWithoutReplan(Fold(prefix, task, revision), e);
      }
    }
  }

  lemma EpochWithoutReplan(v: View, e: Event)
    requires ViewConsistent(v) && EventError(e).None? && !(e.kind.TaskReplan? && IsV2(e.content))
    ensures Apply(v, e).epoch == v.epoch || (v.epoch == 0 && Apply(v, e).epoch == 1)
  {
  }

  /** Hence a task that was re-planned R times had at least R clues. */
  lemma {:induction false} ReplansAreBoundedByClues(log: seq<Event>, task: string, revision: int)
    requires AdmittedLog(log)
    ensures Replans(log, task, revision) <= |BoundClues(log, task, revision)|
    ensures Fold(log, task, revision).epoch <= |BoundClues(log, task, revision)| + 1
  {
    ReplansPayForEpochs(log, task, revision);
    CluesAreConserved(log, task, revision);
    var total := multiset(Fold(log, task, revision).pending) + multiset(Consumed(log, task, revision))
                 + multiset(Abandoned(log, task, revision));
    assert |multiset(BoundClues(log, task, revision))| == |total|;
  }
}
