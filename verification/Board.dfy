/** The append-only board: the log, its three identity indexes, and the atomic
    append and read that clients interleave. */
module Board {
  import opened Events
  import opened TaskView
  import opened Admission

  datatype Stored = Stored(offset: nat, event: Event)

  datatype State = State(
    log: seq<Event>,
    ids: map<EventId, Stored>,
    keys: map<Key, Stored>,
    terminals: map<(string, int), Stored>)

  const EMPTY := State([], map[], map[], map[])

  datatype AppendStatus = Appended | DuplicateSame | Rejected | KeyConflict | TerminalConflict

  datatype AppendResult = AppendResult(
    status: AppendStatus, offset: Option<nat>, version: Option<nat>, id: EventId, existing: Option<EventId>,
    reason: Option<Reason>)

  function ResultForExisting(status: AppendStatus, s: Stored, id: EventId, reason: Option<Reason>): AppendResult {
    AppendResult(status, Some(s.offset), Some(s.event.version), id, Some(s.event.id), reason)
  }

  function RejectedResult(e: Event, reason: Reason): AppendResult {
    AppendResult(Rejected, None, None, e.id, None, Some(reason))
  }

  /** The stored event that answers a request before admission is considered:
      by key, then by terminal key, then by identifier. */
  function IdentityAnswer(b: State, e: Event): (answer: Option<AppendResult>)
    ensures answer.Some? ==> !answer.value.status.Appended? && !answer.value.status.Rejected?
  {
    var terminal := TerminalKey(e);
    if e.key.Some? && e.key.value in b.keys then
      var s := b.keys[e.key.value];
      if Canonical(e) == Canonical(s.event) then Some(ResultForExisting(DuplicateSame, s, s.event.id, None))
      else if terminal.Some? && terminal == TerminalKey(s.event) then
        Some(ResultForExisting(TerminalConflict, s, e.id, Some(TerminalAlreadyCommitted)))
      else Some(ResultForExisting(KeyConflict, s, e.id, Some(KeyReused)))
    else if terminal.Some? && terminal.value in b.terminals then
      var s := b.terminals[terminal.value];
      if Canonical(e) == Canonical(s.event) then Some(ResultForExisting(DuplicateSame, s, s.event.id, None))
      else Some(ResultForExisting(TerminalConflict, s, e.id, Some(TerminalAlreadyCommitted)))
    else if e.id in b.ids then
      var s := b.ids[e.id];
      if Canonical(e) == Canonical(s.event) then Some(ResultForExisting(DuplicateSame, s, s.event.id, None))
      else Some(ResultForExisting(KeyConflict, s, e.id, Some(IdReused)))
    else None
  }

  /** The committed form of an event: the server owns its position and time. */
  function Stamped(e: Event, n: nat, now: real): Event {
    e.(version := n + 1, ts := now)
  }

  function Commit(b: State, e: Event): State {
    var s := Stored(|b.log|, e);
    State(b.log + [e],
          b.ids[e.id := s],
          if e.key.Some? then b.keys[e.key.value := s] else b.keys,
          if TerminalKey(e).Some? then b.terminals[TerminalKey(e).value := s] else b.terminals)
  }

  /** One append, atomic under the board's lock. */
  function AppendTo(b: State, e: Event, now: real): (State, AppendResult) {
    if EventError(e).Some? then (b, RejectedResult(e, EventError(e).value))
    else if IdentityAnswer(b, e).Some? then (b, IdentityAnswer(b, e).value)
    else if GateError(b.log, e).Some? then (b, RejectedResult(e, GateError(b.log, e).value))
    else if now < 0.0 then (b, RejectedResult(e, NegativeServerTime))
    else
      (Commit(b, Stamped(e, |b.log|, now)),
       AppendResult(Appended, Some(|b.log|), Some(|b.log| + 1), e.id, None, None))
  }

  // ---------------------------------------------------------------------
  // Runs of a board
  // ---------------------------------------------------------------------

  /** One request of some client and the server time at which it is served. */
  datatype Request = Request(event: Event, now: real)

  /** The board after any interleaving of its clients' requests. */
  function Run(requests: seq<Request>): State {
    if requests == [] then EMPTY
    else
      var last := requests[|requests| - 1];
      AppendTo(Run(requests[..|requests| - 1]), last.event, last.now).0
  }

  /** An index is exactly the function of the log that it stands for: it maps the
      name of every named event to that event and its offset, and nothing else. */
  ghost predicate IndexExact<K(!new)>(log: seq<Event>, index: map<K, Stored>, name: Event -> Option<K>) {
    && (forall i | 0 <= i < |log| && name(log[i]).Some? ::
          name(log[i]).value in index && index[name(log[i]).value] == Stored(i, log[i]))
    && (forall k | k in index :: index[k].offset < |log| && name(log[index[k].offset]) == Some(k))
  }

  function IdName(e: Event): Option<EventId> {
    Some(e.id)
  }

  function KeyName(e: Event): Option<Key> {
    e.key
  }

  ghost predicate IndexesExact(b: State) {
    && IndexExact(b.log, b.ids, IdName)
    && IndexExact(b.log, b.keys, KeyName)
    && IndexExact(b.log, b.terminals, TerminalKey)
  }

  /** What every reachable board satisfies. */
  ghost predicate Valid(b: State) {
    AdmittedLog(b.log) && IndexesExact(b)
  }

  /** Server-owned fields have no influence on validation and admission. */
  lemma StampIsNeutral(log: seq<Event>, e: Event, n: nat, now: real)
    ensures EventError(Stamped(e, n, now)) == EventError(e)
    ensures GateError(log, Stamped(e, n, now)) == GateError(log, e)
    ensures IsFresh(log, Stamped(e, n, now)) <==> IsFresh(log, e)
    ensures TerminalKey(Stamped(e, n, now)) == TerminalKey(e)
    ensures Canonical(Stamped(e, n, now)) == Canonical(e)
  {
  }

  ghost predicate IsNamed<K(!new)>(log: seq<Event>, name: Event -> Option<K>, k: K) {
    exists i :: 0 <= i < |log| && name(log[i]) == Some(k)
  }

  lemma LookupMeansNamed<K(!new)>(log: seq<Event>, index: map<K, Stored>, name: Event -> Option<K>, k: K)
    requires IndexExact(log, index, name)
    ensures k in index <==> IsNamed(log, name, k)
    ensures k in index ==> index[k] == Stored(index[k].offset, log[index[k].offset])
  {
    if k in index {
      assert name(log[index[k].offset]) == Some(k);
    }
  }

  lemma ExtendIndex<K(!new)>(log: seq<Event>, index: map<K, Stored>, name: Event -> Option<K>, e: Event)
    requires IndexExact(log, index, name)
    requires name(e).Some? ==> !IsNamed(log, name, name(e).value)
    ensures IndexExact(log + [e], if name(e).Some? then index[name(e).value := Stored(|log|, e)] else index, name)
  {
    assert forall i | 0 <= i < |log| :: (log + [e])[i] == log[i];
  }

  lemma FreshMeansUnnamed(log: seq<Event>, e: Event)
    ensures IsFresh(log, e) <==>
            && !IsNamed(log, IdName, e.id)
            && (e.key.Some? ==> !IsNamed(log, KeyName, e.key.value))
            && (TerminalKey(e).Some? ==> !IsNamed(log, TerminalKey, TerminalKey(e).value))
  {
    if IsFresh(log, e) {
    } else {
      var i :| 0 <= i < |log|
               && !(log[i].id != e.id && (e.key.Some? ==> log[i].key != e.key)
                    && (TerminalKey(e).Some? ==> TerminalKey(log[i]) != TerminalKey(e)));
      assert IdName(log[i]) == Some(log[i].id) && KeyName(log[i]) == log[i].key;
    }
  }

  /** The indexes answer exactly when some committed event shares an identity. */
  lemma AnswerMeansKnown(b: State, e: Event)
    requires IndexesExact(b)
    ensures IdentityAnswer(b, e).None? <==> IsFresh(b.log, e)
  {
    hide IndexExact, IsFresh;
    FreshMeansUnnamed(b.log, e);
    LookupMeansNamed(b.log, b.ids, IdName, e.id);
    if e.key.Some? {
      LookupMeansNamed(b.log, b.keys, KeyName, e.key.value);
    }
    if TerminalKey(e).Some? {
      LookupMeansNamed(b.log, b.terminals, TerminalKey, TerminalKey(e).value);
    }
  }

  lemma CommitKeepsIndexes(b: State, e: Event)
    requires IndexesExact(b) && IsFresh(b.log, e)
    ensures IndexesExact(Commit(b, e))
  {
    hide IndexExact, IsFresh;
    FreshMeansUnnamed(b.log, e);
    ExtendIndex(b.log, b.ids, IdName, e);
    ExtendIndex(b.log, b.keys, KeyName, e);
    ExtendIndex(b.log, b.terminals, TerminalKey, e);
  }

  lemma AppendedIsAdmitted(b: State, e: Event, now: real)
    requires Valid(b) && AppendTo(b, e, now).1.status.Appended?
    ensures Admitted(b.log, Stamped(e, |b.log|, now))
    ensures AppendTo(b, e, now).0 == Commit(b, Stamped(e, |b.log|, now))
  {
    hide EventError, GateError, IsFresh, IndexesExact;
    AnswerMeansKnown(b, e);
    StampedIsAdmitted(b.log, e, now);
  }

  lemma StampedIsAdmitted(log: seq<Event>, e: Event, now: real)
    requires EventError(e).None? && IsFresh(log, e) && GateError(log, e).None? && now >= 0.0
    ensures Admitted(log, Stamped(e, |log|, now))
  {
    StampIsNeutral(log, e, |log|, now);
  }

  /** One append keeps the board valid; only an Appended answer changes it, and
      it adds exactly the stamped event at the end. */
  lemma AppendKeepsValid(b: State, e: Event, now: real)
    requires Valid(b)
    ensures Valid(AppendTo(b, e, now).0)
    ensures !AppendTo(b, e, now).1.status.Appended? ==> AppendTo(b, e, now).0 == b
    ensures AppendTo(b, e, now).1.status.Appended? ==>
              && AppendTo(b, e, now).0.log == b.log + [Stamped(e, |b.log|, now)]
              && AppendTo(b, e, now).1.offset == Some(|b.log|)
              && AppendTo(b, e, now).1.version == Some(|b.log| + 1)
              && Admitted(b.log, Stamped(e, |b.log|, now))
  {
    hide EventError, GateError, IsFresh, IndexesExact, AdmittedLog;
    if AppendTo(b, e, now).1.status.Appended? {
      AppendedIsAdmitted(b, e, now);
      var s := Stamped(e, |b.log|, now);
      CommitKeepsIndexes(b, s);
      AdmittedExtends(b.log, s);
    }
  }

  /** Whatever the answer, the log only grows. */
  lemma AppendGrows(b: State, e: Event, now: real)
    ensures b.log <= AppendTo(b, e, now).0.log
  {
    hide EventError, GateError, IdentityAnswer, Stamped;
  }

  /** Every run leaves an admitted log and exact indexes. */
  lemma {:induction false} RunIsValid(requests: seq<Request>)
    ensures Valid(Run(requests))
  {
    if requests != [] {
      var before := requests[..|requests| - 1];
      RunIsValid(before);
      AppendKeepsValid(Run(before), requests[|requests| - 1].event, requests[|requests| - 1].now);
    }
  }

  function Replayed(log: seq<Event>): seq<Request> {
    if log == [] then []
    else Replayed(log[..|log| - 1]) + [Request(log[|log| - 1], log[|log| - 1].ts)]
  }

  /** Conversely every admitted log is the log of some run, so AdmittedLog says
      exactly which logs the board can hold. */
  lemma {:induction false} AdmittedLogIsReachable(log: seq<Event>)
    requires AdmittedLog(log)
    ensures Run(Replayed(log)).log == log
  {
    hide EventError, GateError, IdentityAnswer, IsFresh, IndexesExact;
    if log != [] {
      var prefix := log[..|log| - 1];
      var e := log[|log| - 1];
      AdmittedLogIsReachable(prefix);
      RunIsValid(Replayed(prefix));
      AnswerMeansKnown(Run(Replayed(prefix)), e);
      assert Replayed(log)[..|Replayed(log)| - 1] == Replayed(prefix);
      assert Stamped(e, |prefix|, e.ts) == e;
      assert prefix + [e] == log;
    }
  }

  lemma {:induction false} RunExtends(requests: seq<Request>, more: seq<Request>)
    ensures Run(requests).log <= Run(requests + more).log
    decreases |more|
  {
    hide AppendTo, Valid;
    if more == [] {
      assert requests + more == requests;
    } else {
      var init := more[..|more| - 1];
      RunExtends(requests, init);
      RunIsValid(requests + init);
      var last := more[|more| - 1];
      AppendKeepsValid(Run(requests + init), last.event, last.now);
      assert (requests + more)[..|requests + more| - 1] == requests + init;
    }
  }

  /** An event that the board once accepted is answered with its original place
      for ever after, whatever the gate would say of it by then. */
  lemma RetryIsStable(requests: seq<Request>, e: Event, now: real, more: seq<Request>, later: real, retry: Event)
    requires AppendTo(Run(requests), e, now).1.status.Appended?
    requires Canonical(retry) == Canonical(e)
    ensures var b := Run(requests + [Request(e, now)] + more);
            && AppendTo(b, retry, later).0 == b
            && AppendTo(b, retry, later).1.status.DuplicateSame?
            && AppendTo(b, retry, later).1.offset == Some(|Run(requests).log|)
            && AppendTo(b, retry, later).1.version == Some(|Run(requests).log| + 1)
  {
    var n := |Run(requests).log|;
    var first := requests + [Request(e, now)];
    RunIsValid(requests);
    AppendKeepsValid(Run(requests), e, now);
    assert first[..|requests|] == requests;
    RunExtends(first, more);
    RunIsValid(first + more);
    var b := Run(first + more);
    assert b.log[n] == Stamped(e, n, now);
    StampIsNeutral(b.log, e, n, now);
    AcceptedIsDuplicate(b, n, retry);
  }

  /** On a valid board, a request equal in business terms to a committed event
      is answered by that event. */
  lemma AcceptedIsDuplicate(b: State, n: nat, retry: Event)
    requires Valid(b) && n < |b.log|
    requires Canonical(retry) == Canonical(b.log[n])
    ensures EventError(retry).None?
    ensures IdentityAnswer(b, retry) == Some(ResultForExisting(DuplicateSame, Stored(n, b.log[n]), b.log[n].id, None))
    ensures b.log[n].version == n + 1
  {
    hide EventError, GateError;
    AdmittedAt(b.log, n);
    SameBusinessEvent(retry, b.log[n]);
  }

  /** Two requests are the same in business terms when they differ at most in what the server
      owns and in trace data. */
  lemma BusinessIdentity(a: Event, b: Event)
    ensures Canonical(a) == Canonical(b) <==>
            && a.id == b.id && a.kind == b.kind && a.ledger == b.ledger && a.content == b.content
            && a.source == b.source && a.confidence == b.confidence && a.ttl == b.ttl && a.key == b.key
            && a.extra == b.extra
  {
    assert Canonical(a) == Canonical(b) ==> a == b.(ts := a.ts, version := a.version, trace := a.trace);
  }

  lemma SameBusinessEvent(a: Event, b: Event)
    requires Canonical(a) == Canonical(b)
    ensures EventError(a) == EventError(b)
    ensures a.key == b.key && a.id == b.id && a.kind == b.kind && TerminalKey(a) == TerminalKey(b)
  {
    assert a == b.(ts := a.ts, version := a.version, trace := a.trace);
  }

  lemma IndexPointsIntoLog<K(!new)>(log: seq<Event>, index: map<K, Stored>, name: Event -> Option<K>, k: K)
    requires IndexExact(log, index, name) && k in index
    ensures index[k].offset < |log| && index[k].event == log[index[k].offset]
  {
  }

  lemma DuplicateIsCommitted(b: State, e: Event)
    requires IndexesExact(b) && IdentityAnswer(b, e).Some? && IdentityAnswer(b, e).value.status.DuplicateSame?
    ensures exists i :: 0 <= i < |b.log| && Canonical(b.log[i]) == Canonical(e)
  {
    hide IndexExact, Canonical;
    if e.key.Some? && e.key.value in b.keys {
      IndexPointsIntoLog(b.log, b.keys, KeyName, e.key.value);
    } else if TerminalKey(e).Some? && TerminalKey(e).value in b.terminals {
      IndexPointsIntoLog(b.log, b.terminals, TerminalKey, TerminalKey(e).value);
    } else {
      IndexPointsIntoLog(b.log, b.ids, IdName, e.id);
    }
  }

  /** What an append means to its client: accepted means that an event with the same
      business identity is in the log, refused that nothing changed. */
  lemma AcceptedMeansCommitted(b: State, e: Event, now: real)
    requires Valid(b)
    ensures var (b1, r) := AppendTo(b, e, now);
            && Valid(b1)
            && b.log <= b1.log
            && (r.status.Appended? || r.status.DuplicateSame? ==>
                  exists i :: 0 <= i < |b1.log| && Canonical(b1.log[i]) == Canonical(e))
  {
    hide EventError, GateError, IdentityAnswer, AdmittedLog, IndexesExact;
    AppendKeepsValid(b, e, now);
    var (b1, r) := AppendTo(b, e, now);
    if r.status.Appended? {
      StampIsNeutral(b.log, e, |b.log|, now);
      assert b1.log[|b.log|] == Stamped(e, |b.log|, now);
    } else if r.status.DuplicateSame? {
      DuplicateIsCommitted(b, e);
    }
  }

  predicate SharesKey(e: Event, s: Event) {
    e.key.Some? && s.key == e.key
  }

  predicate SharesTerminal(e: Event, s: Event) {
    TerminalKey(e).Some? && TerminalKey(s) == TerminalKey(e)
  }

  /** The committed event that a request runs into: the one with its key, or else with its
      terminal key, or else with its identifier. */
  predicate RunsInto(log: seq<Event>, e: Event, i: nat) {
    && i < |log|
    && if exists k | 0 <= k < |log| :: SharesKey(e, log[k]) then SharesKey(e, log[i])
       else if exists k | 0 <= k < |log| :: SharesTerminal(e, log[k]) then SharesTerminal(e, log[i])
       else log[i].id == e.id
  }

  /** What a client is told, from the committed events alone. A well-formed request that runs
      into none of them is appended unless the gate or the clock refuses it; any other is
      answered with the place of the event it runs into: as a duplicate when that is the same
      business event, as a terminal conflict when both end the same task and revision, and as
      a key conflict otherwise. */
  lemma AnswerIsExact(b: State, e: Event, now: real)
    requires Valid(b) && EventError(e).None?
    ensures var r := AppendTo(b, e, now).1;
            if IsFresh(b.log, e) then
              if GateError(b.log, e).None? && now >= 0.0 then r.status.Appended?
              else
                r.status.Rejected? && r.offset.None? && r.existing.None?
                && r.reason == if GateError(b.log, e).Some? then GateError(b.log, e) else Some(NegativeServerTime)
            else
              exists i: nat ::
                && RunsInto(b.log, e, i)
                && r.offset == Some(i) && r.version == Some(i + 1) && r.existing == Some(b.log[i].id)
                && r.status == if Canonical(b.log[i]) == Canonical(e) then DuplicateSame
                               else if SharesTerminal(e, b.log[i]) then TerminalConflict
                               else KeyConflict
  {
    hide EventError, GateError, IsFresh, AdmittedLog, Canonical, IndexesExact;
    AnswerMeansKnown(b, e);
    if !IsFresh(b.log, e) {
      var i := KnownRunsInto(b, e);
      AdmittedAt(b.log, i);
      assert b.log[i].version == i + 1;
    }
  }

  lemma KnownRunsInto(b: State, e: Event) returns (i: nat)
    requires IndexesExact(b) && IdentityAnswer(b, e).Some?
    ensures RunsInto(b.log, e, i)
    ensures var r := IdentityAnswer(b, e).value;
            && r.offset == Some(i) && r.version == Some(b.log[i].version) && r.existing == Some(b.log[i].id)
            && r.status == if Canonical(b.log[i]) == Canonical(e) then DuplicateSame
                           else if SharesTerminal(e, b.log[i]) then TerminalConflict
                           else KeyConflict
  {
    hide IndexExact, Canonical, IsNamed;
    if e.key.Some? {
      LookupMeansNamed(b.log, b.keys, KeyName, e.key.value);
      NamedMeansShared(b.log, e);
    }
    if TerminalKey(e).Some? {
      LookupMeansNamed(b.log, b.terminals, TerminalKey, TerminalKey(e).value);
      NamedMeansShared(b.log, e);
    }
    if e.key.Some? && e.key.value in b.keys {
      i := b.keys[e.key.value].offset;
      IndexNames(b.log, b.keys, KeyName, e.key.value);
    } else if TerminalKey(e).Some? && TerminalKey(e).value in b.terminals {
      i := b.terminals[TerminalKey(e).value].offset;
      IndexNames(b.log, b.terminals, TerminalKey, TerminalKey(e).value);
    } else {
      i := b.ids[e.id].offset;
      IndexNames(b.log, b.ids, IdName, e.id);
    }
  }

  lemma IndexNames<K(!new)>(log: seq<Event>, index: map<K, Stored>, name: Event -> Option<K>, k: K)
    requires IndexExact(log, index, name) && k in index
    ensures index[k].offset < |log| && index[k].event == log[index[k].offset] && name(log[index[k].offset]) == Some(k)
  {
  }

  lemma NamedMeansShared(log: seq<Event>, e: Event)
    ensures e.key.Some? ==>
              (IsNamed(log, KeyName, e.key.value) <==> exists k | 0 <= k < |log| :: SharesKey(e, log[k]))
    ensures TerminalKey(e).Some? ==>
              (IsNamed(log, TerminalKey, TerminalKey(e).value) <==>
                 exists k | 0 <= k < |log| :: SharesTerminal(e, log[k]))
  {
    hide TerminalKey;
    if e.key.Some? && IsNamed(log, KeyName, e.key.value) {
      var i :| 0 <= i < |log| && KeyName(log[i]) == Some(e.key.value);
      assert SharesKey(e, log[i]);
    }
    if TerminalKey(e).Some? && IsNamed(log, TerminalKey, TerminalKey(e).value) {
      var i :| 0 <= i < |log| && TerminalKey(log[i]) == Some(TerminalKey(e).value);
      assert SharesTerminal(e, log[i]);
    }
    if k :| 0 <= k < |log| && SharesKey(e, log[k]) {
      assert KeyName(log[k]) == Some(e.key.value);
    }
    if k :| 0 <= k < |log| && SharesTerminal(e, log[k]) {
      assert TerminalKey(log[k]) == Some(TerminalKey(e).value);
    }
  }

  /** Only terminal events can collide on a terminal key. */
  lemma NoTerminalConflict(b: State, e: Event, now: real)
    requires !IsTerminalKind(e.kind)
    ensures !AppendTo(b, e, now).1.status.TerminalConflict?
  {
    hide EventError, GateError;
  }

  // ---------------------------------------------------------------------
  // The board as it runs
  // ---------------------------------------------------------------------

  class Blackboard {
    var events: seq<Event>
    var eventIdIndex: map<EventId, Stored>
    var idempotencyIndex: map<Key, Stored>
    var terminalIndex: map<(string, int), Stored>

    ghost function Value(): State
      reads this
    {
      State(events, eventIdIndex, idempotencyIndex, terminalIndex)
    }

    constructor ()
      ensures Value() == EMPTY
    {
      events := [];
      eventIdIndex := map[];
      idempotencyIndex := map[];
      terminalIndex := map[];
    }

    /** The state-gated check, against a fresh replay of the committed events. */
    method ValidateTransition(e: Event) returns (error: Option<Reason>)
      ensures error == GateError(events, e)
    {
      var task := TaskOf(e.content);
      var revision := RevisionOf(e.content);
      if !IsV2(e.content) {
        if !IsBlockedLegacy(e.kind) || task == "" {
          return None;
        }
        for n := 0 to |events|
          invariant forall i | 0 <= i < n :: !IsV2Posting(events[i], task)
        {
          if IsV2Posting(events[n], task) {
            return Some(SchemaVersionRequired);
          }
        }
        return None;
      }
      if !IsGated(e.kind) {
        return None;
      }
      if e.kind.TaskPosted? {
        for n := 0 to |events|
          invariant forall i | 0 <= i < n :: !IsPosting(events[i], task, revision)
        {
          if IsPosting(events[n], task, revision) {
            return Some(TaskRevisionAlreadyPosted);
          }
        }
        return None;
      }
      var view := TaskCoordinationView(events, task, revision);
      error := TransitionError(view, e);
    }

    /** Appends the event or answers with the event that stands in its place. */
    method Append(e: Event, now: real) returns (result: AppendResult)
      modifies this
      ensures (Value(), result) == AppendTo(old(Value()), e, now)
    {
      var invalid := EventError(e);
      if invalid.Some? {
        return RejectedResult(e, invalid.value);
      }
      var terminal := TerminalKey(e);
      if e.key.Some? && e.key.value in idempotencyIndex {
        var s := idempotencyIndex[e.key.value];
        if Canonical(e) == Canonical(s.event) {
          return ResultForExisting(DuplicateSame, s, s.event.id, None);
        }
        if terminal.Some? && terminal == TerminalKey(s.event) {
          return ResultForExisting(TerminalConflict, s, e.id, Some(TerminalAlreadyCommitted));
        }
        return ResultForExisting(KeyConflict, s, e.id, Some(KeyReused));
      }
      if terminal.Some? && terminal.value in terminalIndex {
        var s := terminalIndex[terminal.value];
        if Canonical(e) == Canonical(s.event) {
          return ResultForExisting(DuplicateSame, s, s.event.id, None);
        }
        return ResultForExisting(TerminalConflict, s, e.id, Some(TerminalAlreadyCommitted));
      }
      if e.id in eventIdIndex {
        var s := eventIdIndex[e.id];
        if Canonical(e) == Canonical(s.event) {
          return ResultForExisting(DuplicateSame, s, s.event.id, None);
        }
        return ResultForExisting(KeyConflict, s, e.id, Some(IdReused));
      }
      var refused := ValidateTransition(e);
      if refused.Some? {
        return RejectedResult(e, refused.value);
      }
      if now < 0.0 {
        return RejectedResult(e, NegativeServerTime);
      }
      var offset := |events|;
      var committed := e.(version := offset + 1, ts := now);
      events := events + [committed];
      var stored := Stored(offset, committed);
      eventIdIndex := eventIdIndex[committed.id := stored];
      if committed.key.Some? {
        idempotencyIndex := idempotencyIndex[committed.key.value := stored];
      }
      if terminal.Some? {
        terminalIndex := terminalIndex[terminal.value := stored];
      }
      result := AppendResult(Appended, Some(offset), Some(offset + 1), committed.id, None, None);
    }

    /** Events with offsets strictly greater than the cursor, oldest first. */
    method ReadSince(cursor: int, types: Option<set<Kind>>, limit: nat) returns (result: seq<Stored>)
      requires cursor >= -1 && limit > 0
      ensures result == Page(events, cursor, types, limit)
    {
      result := [];
      if cursor + 1 >= |events| {
        return;
      }
      for n := cursor + 1 to |events|
        invariant |result| < limit
        invariant Page(events, cursor, types, limit) ==
                  result + Page(events, n - 1, types, limit - |result|)
      {
        if Requested(events[n], types) {
          result := result + [Stored(n, events[n])];
          if |result| == limit {
            return;
          }
        }
      }
    }
  }

  // ---------------------------------------------------------------------
  // Cursors
  // ---------------------------------------------------------------------

  predicate Requested(e: Event, types: Option<set<Kind>>) {
    types.Some? ==> e.kind in types.value
  }

  /** The next events of the requested types after the cursor, at most limit of them. */
  function Page(log: seq<Event>, cursor: int, types: Option<set<Kind>>, limit: nat): seq<Stored>
    requires cursor >= -1
    decreases |log| - cursor
  {
    if limit == 0 || cursor + 1 >= |log| then []
    else if Requested(log[cursor + 1], types) then
      [Stored(cursor + 1, log[cursor + 1])] + Page(log, cursor + 1, types, limit - 1)
    else Page(log, cursor + 1, types, limit)
  }

  /** The whole log restricted to the requested types, with its offsets. */
  function Selected(log: seq<Event>, types: Option<set<Kind>>): seq<Stored> {
    if log == [] then []
    else
      Selected(log[..|log| - 1], types)
      + (if Requested(log[|log| - 1], types) then [Stored(|log| - 1, log[|log| - 1])] else [])
  }

  /** A step in the life of a reader: the log grows, or the reader polls. */
  datatype ReaderStep = Grow(events: seq<Event>) | Poll(limit: nat)

  datatype Reader = Reader(log: seq<Event>, cursor: int, delivered: seq<Stored>)

  function NextCursor(cursor: int, page: seq<Stored>): int {
    if page == [] then cursor else page[|page| - 1].offset
  }

  function StepReader(r: Reader, step: ReaderStep, types: Option<set<Kind>>): Reader
    requires r.cursor >= -1
    ensures StepReader(r, step, types).cursor >= -1
  {
    match step
    case Grow(events) => r.(log := r.log + events)
    case Poll(limit) =>
      var page := Page(r.log, r.cursor, types, limit);
      r.(cursor := NextCursor(r.cursor, page), delivered := r.delivered + page)
  }

  function RunReader(steps: seq<ReaderStep>, types: Option<set<Kind>>): (r: Reader)
    ensures r.cursor >= -1
  {
    if steps == [] then Reader([], -1, [])
    else StepReader(RunReader(steps[..|steps| - 1], types), steps[|steps| - 1], types)
  }

  lemma NothingSelected(types: Option<set<Kind>>)
    ensures Selected([], types) == []
  {
  }

  lemma SelectedStep(log: seq<Event>, n: nat, types: Option<set<Kind>>)
    requires n < |log|
    ensures Selected(log[..n + 1], types) ==
            Selected(log[..n], types) + (if Requested(log[n], types) then [Stored(n, log[n])] else [])
  {
    assert log[..n + 1][..n] == log[..n];
  }

  /** A page followed to its last offset selects exactly the log in between; a
      page shorter than its limit exhausts the log. */
  lemma {:induction false} PageAdvances(log: seq<Event>, cursor: int, types: Option<set<Kind>>, limit: nat)
    requires -1 <= cursor && (cursor < |log| || cursor == -1)
    ensures var page := Page(log, cursor, types, limit);
            var next := NextCursor(cursor, page);
            && cursor <= next && (next < |log| || next == cursor)
            && Selected(log[..next + 1], types) == Selected(log[..cursor + 1], types) + page
            && (|page| < limit ==> Selected(log, types) == Selected(log[..cursor + 1], types) + page)
            && |page| <= limit
    decreases |log| - cursor
  {
    hide Selected;
    var page := Page(log, cursor, types, limit);
    var here := Selected(log[..cursor + 1], types);
    if limit == 0 || cursor + 1 >= |log| {
      if cursor + 1 >= |log| {
        assert log[..cursor + 1] == log;
      }
      assert here + page == here;
    } else {
      var n := cursor + 1;
      SelectedStep(log, n, types);
      if Requested(log[n], types) {
        var rest := Page(log, n, types, limit - 1);
        PageAdvances(log, n, types, limit - 1);
        assert page == [Stored(n, log[n])] + rest;
        assert here + page == (here + [Stored(n, log[n])]) + rest;
        assert NextCursor(cursor, page) == NextCursor(n, rest);
      } else {
        PageAdvances(log, n, types, limit);
        assert here + [] == here;
      }
    }
  }

  lemma {:induction false} SelectedExtends(log: seq<Event>, n: nat, types: Option<set<Kind>>)
    requires n <= |log|
    ensures Selected(log[..n], types) <= Selected(log, types)
  {
    if n == |log| {
      assert log[..n] == log;
    } else {
      SelectedExtends(log[..|log| - 1], n, types);
      assert log[..|log| - 1][..n] == log[..n];
    }
  }

  predicate Delivered(r: Reader, types: Option<set<Kind>>) {
    -1 <= r.cursor < |r.log| && r.delivered == Selected(r.log[..r.cursor + 1], types)
  }

  lemma StepDelivers(before: Reader, step: ReaderStep, types: Option<set<Kind>>)
    requires Delivered(before, types)
    ensures Delivered(StepReader(before, step, types), types)
    ensures var r := StepReader(before, step, types);
            step.Poll? && |r.delivered| - |before.delivered| < step.limit ==> r.delivered == Selected(r.log, types)
  {
    hide Selected, Page;
    match step
    case Grow(events) =>
      assert (before.log + events)[..before.cursor + 1] == before.log[..before.cursor + 1];
    case Poll(limit) =>
      PageAdvances(before.log, before.cursor, types, limit);
  }

  /** A reader that polls from the start with its last offset receives, for any
      limits and any interleaved appends, exactly the selected log in order: what
      it has is what lies at or before its cursor, and a poll that comes back
      short has caught up. */
  lemma {:induction false} DeliveryIsExact(steps: seq<ReaderStep>, types: Option<set<Kind>>)
    ensures var r := RunReader(steps, types);
            && Delivered(r, types)
            && r.delivered <= Selected(r.log, types)
    ensures steps != [] && steps[|steps| - 1].Poll? ==>
              var before := RunReader(steps[..|steps| - 1], types);
              var r := RunReader(steps, types);
              |r.delivered| - |before.delivered| < steps[|steps| - 1].limit ==> r.delivered == Selected(r.log, types)
  {
    hide Selected, Page;
    var r := RunReader(steps, types);
    if steps == [] {
      NothingSelected(types);
      assert r.log[..0] == [];
    } else {
      DeliveryIsExact(steps[..|steps| - 1], types);
      StepDelivers(RunReader(steps[..|steps| - 1], types), steps[|steps| - 1], types);
    }
    SelectedExtends(r.log, r.cursor + 1, types);
  }
}
