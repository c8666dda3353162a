/** The private durable state of an agent process: consumer offset, sessions,
    outbox, quarantined events and raw receipts; each operation is one atomic file
    replacement or removal. */
module Store {
  import opened Events
  import opened Admission
  import opened Board

  datatype SessionState = Observed | BiddingState | Standby | Active | SessionDone | SessionFailed

  datatype IntentState =
    | Proposed | Dispatching | Dispatched | Succeeded | IntentFailed | SafetyBlocked | DispatchUnknown

  datatype IntentSession = IntentSession(id: IntentId, state: IntentState, receipt: Option<string>)

  datatype Session = Session(
    task: string, revision: int, epoch: int, state: SessionState, assignment: Option<Assignment>,
    intent: Option<IntentSession>, lastReceipt: Option<string>, version: nat)

  datatype Record = Record(event: Event, source: Option<nat>)

  /** Outbox, quarantine and receipts are kept per task. */
  type Place = (string, Key)

  /** The offset of the last input consumed, -1 before the first. */
  type Offset = n: int | -1 <= n

  datatype Disk = Disk(
    offset: Offset,
    sessions: map<string, Session>,
    outbox: map<Place, Record>,
    rejected: map<Place, Record>,
    rawReceipts: set<(string, IntentId)>)

  const BLANK := Disk(-1, map[], map[], map[], {})

  /** The stored form of an event: the server-owned fields are not kept. */
  function StoredForm(e: Event): Event {
    e.(ts := 0.0, version := 0)
  }

  /** The event that the outbox holds for a key once the caller's is staged: the
      first one that was staged, unless the key is quarantined. */
  function StagedEvent(d: Disk, place: Place, e: Event): Option<Event> {
    if place in d.rejected then None
    else if place in d.outbox then Some(d.outbox[place].event)
    else Some(StoredForm(e))
  }

  function Staged(d: Disk, place: Place, e: Event, source: Option<nat>): Disk {
    if place in d.rejected || place in d.outbox then d
    else d.(outbox := d.outbox[place := Record(StoredForm(e), source)])
  }

  function Resolved(d: Disk, place: Place): Disk {
    d.(outbox := d.outbox - {place})
  }

  function Quarantined(d: Disk, place: Place): Disk {
    if place in d.outbox then d.(rejected := d.rejected[place := d.outbox[place]]) else d
  }

  /** A session may be replaced by a newer version, or by itself. */
  predicate MaySave(sessions: map<string, Session>, s: Session) {
    s.task in sessions ==> sessions[s.task].version < s.version || sessions[s.task] == s
  }

  function Saved(d: Disk, s: Session): Disk {
    d.(sessions := d.sessions[s.task := s])
  }

  predicate IsConverged(d: Disk, task: string) {
    && (forall p | p in d.outbox :: p.0 != task)
    && (forall r | r in d.rawReceipts :: r.0 != task)
  }

  /** Removes everything a finished task left behind, once its outbox and raw
      receipts are empty. */
  function Cleaned(d: Disk, task: string): Disk {
    if IsConverged(d, task) then
      d.(sessions := d.sessions - {task},
         rejected := map p | p in d.rejected && p.0 != task :: d.rejected[p])
    else d
  }

  /** The business identity of an event survives storage. */
  lemma StoredFormIsCanonical(e: Event)
    ensures Canonical(StoredForm(e)) == Canonical(e)
    ensures StoredForm(e).trace == e.trace
  {
  }

  /** Staging again, with whatever was recomputed, yields the event staged first. */
  lemma StagingIsIdempotent(d: Disk, place: Place, first: Event, again: Event, s1: Option<nat>, s2: Option<nat>)
    requires place !in d.rejected && place !in d.outbox
    ensures var once := Staged(d, place, first, s1);
            && StagedEvent(once, place, again) == Some(StoredForm(first))
            && Staged(once, place, again, s2) == once
            && StagedEvent(d, place, first) == StagedEvent(once, place, again)
  {
  }

  /** A quarantined key is never submitted again. */
  lemma QuarantineIsFinal(d: Disk, place: Place, e: Event, source: Option<nat>)
    requires place in d.outbox
    ensures StagedEvent(Resolved(Quarantined(d, place), place), place, e).None?
    ensures Staged(Resolved(Quarantined(d, place), place), place, e, source) == Resolved(Quarantined(d, place), place)
  {
  }

  class FileTaskSessionStore {
    var lastOffset: Offset
    var sessions: map<string, Session>
    var outbox: map<Place, Record>
    var rejected: map<Place, Record>
    var rawReceipts: set<(string, IntentId)>

    ghost function Value(): Disk
      reads this
    {
      Disk(lastOffset, sessions, outbox, rejected, rawReceipts)
    }

    constructor ()
      ensures Value() == BLANK
    {
      lastOffset := -1;
      sessions := map[];
      outbox := map[];
      rejected := map[];
      rawReceipts := {};
    }

    /** Moves the offset forward; a move backwards is refused. */
    method SaveConsumerOffset(offset: nat) returns (ok: bool)
      modifies this
      ensures ok <==> old(lastOffset) <= offset
      ensures Value() == if ok then old(Value()).(offset := offset) else old(Value())
    {
      if offset < lastOffset {
        return false;
      }
      lastOffset := offset;
      ok := true;
    }

    method SaveSession(s: Session) returns (ok: bool)
      modifies this
      ensures ok <==> MaySave(old(sessions), s)
      ensures Value() == if ok then Saved(old(Value()), s) else old(Value())
    {
      if s.task in sessions {
        var current := sessions[s.task];
        if current.version > s.version {
          return false;
        }
        if current.version == s.version && current != s {
          return false;
        }
      }
      sessions := sessions[s.task := s];
      ok := true;
    }

    /** Persists the event unless one is already staged under its key, and
        returns the one that counts; None when the key is quarantined. */
    method StageTaskEvent(task: string, key: Key, e: Event, source: Option<nat>) returns (staged: Option<Event>)
      modifies this
      ensures staged == StagedEvent(old(Value()), (task, key), e)
      ensures Value() == Staged(old(Value()), (task, key), e, source)
    {
      var place := (task, key);
      if place in rejected {
        return None;
      }
      if place !in outbox {
        outbox := outbox[place := Record(e.(ts := 0.0, version := 0), source)];
      }
      staged := Some(outbox[place].event);
    }

    method ResolveTaskEvent(task: string, key: Key)
      modifies this
      ensures Value() == Resolved(old(Value()), (task, key))
    {
      outbox := outbox - {(task, key)};
    }

    method RejectTaskEvent(task: string, key: Key)
      modifies this
      ensures (task, key) in old(outbox) ==>
                Value() == Resolved(Quarantined(old(Value()), (task, key)), (task, key))
      ensures (task, key) !in old(outbox) ==> Value() == old(Value())
    {
      var place := (task, key);
      if place !in outbox {
        return;
      }
      rejected := rejected[place := outbox[place]];
      outbox := outbox - {place};
    }

    method StoreRawReceipt(task: string, intent: IntentId)
      modifies this
      ensures Value() == old(Value()).(rawReceipts := old(rawReceipts) + {(task, intent)})
    {
      rawReceipts := rawReceipts + {(task, intent)};
    }

    method RemoveRawReceipt(task: string, intent: IntentId)
      modifies this
      ensures Value() == old(Value()).(rawReceipts := old(rawReceipts) - {(task, intent)})
    {
      rawReceipts := rawReceipts - {(task, intent)};
    }

    method CleanupTask(task: string) returns (removed: bool)
      modifies this
      ensures removed <==> IsConverged(old(Value()), task)
      ensures Value() == Cleaned(old(Value()), task)
    {
      if exists p | p in outbox :: p.0 == task {
        return false;
      }
      if exists r | r in rawReceipts :: r.0 == task {
        return false;
      }
      sessions := sessions - {task};
      rejected := map p | p in rejected && p.0 != task :: rejected[p];
      removed := true;
    }
  }

  // ---------------------------------------------------------------------
  // Publishing through the outbox
  // ---------------------------------------------------------------------

  datatype PublishOutcome =
    | Published(result: AppendResult)
    | PermanentError(rejection: AppendResult)
    | ConflictError(conflict: AppendResult)
    | PreviouslyRejected

  /** Stage, append, and on rejection quarantine: what one publication leaves on
      the disk and on the board, and what it reports. */
  function PublishTo(d: Disk, b: State, place: Place, e: Event, source: Option<nat>, now: real)
    : (Disk, State, PublishOutcome)
  {
    var staged := StagedEvent(d, place, e);
    var disk := Staged(d, place, e, source);
    if staged.None? then (disk, b, PreviouslyRejected)
    else
      var (board, result) := AppendTo(b, staged.value, now);
      match result.status
      case Rejected => (Resolved(Quarantined(disk, place), place), board, PermanentError(result))
      case KeyConflict => (disk, board, ConflictError(result))
      case _ => (disk, board, Published(result))
  }

  /** The request the board just appended is answered from its new place. */
  lemma AppendedOnce(b: State, e: Event, now: real, later: real)
    requires Valid(b) && AppendTo(b, e, now).1.status.Appended?
    ensures var b1 := AppendTo(b, e, now).0;
            && Valid(b1)
            && AppendTo(b1, e, later).0 == b1
            && AppendTo(b1, e, later).1.status.DuplicateSame?
            && AppendTo(b1, e, later).1.offset == Some(|b.log|)
  {
    hide EventError, GateError, IdentityAnswer, Valid;
    var b1 := AppendTo(b, e, now).0;
    AppendKeepsValid(b, e, now);
    assert b1.log[|b.log|] == Stamped(e, |b.log|, now);
    StampIsNeutral(b.log, e, |b.log|, now);
    AcceptedIsDuplicate(b1, |b.log|, e);
  }

  /** Publishing an event again, recomputed in any way, after it was accepted and
      before it was resolved, changes nothing and reports its first place. */
  lemma RepublicationIsStable(d: Disk, b: State, place: Place, first: Event, again: Event, source: Option<nat>,
                              now: real, later: real)
    requires Valid(b) && place !in d.outbox && place !in d.rejected
    requires PublishTo(d, b, place, first, source, now).2.Published?
    requires PublishTo(d, b, place, first, source, now).2.result.status.Appended?
    ensures var (d1, b1, _) := PublishTo(d, b, place, first, source, now);
            var (d2, b2, out) := PublishTo(d1, b1, place, again, source, later);
            && d2 == d1 && b2 == b1
            && out.Published? && out.result.status.DuplicateSame? && out.result.offset == Some(|b.log|)
  {
    hide AppendTo, Valid;
    AppendedOnce(b, StoredForm(first), now, later);
  }

  /** What a publication comes to. Quarantine refuses it outright; otherwise the first event
      under the key is staged, and stays so when the board has it, or another event in its
      place, or finds the key taken; when the board rejects it, it is quarantined for good. */
  lemma PublicationIsExact(d: Disk, b: State, place: Place, e: Event, source: Option<nat>, now: real)
    ensures var (d1, b1, out) := PublishTo(d, b, place, e, source, now);
            && d1 == d.(outbox := d1.outbox, rejected := d1.rejected)
            && d1.outbox - {place} == d.outbox - {place} && d1.rejected - {place} == d.rejected - {place}
            && (out.PreviouslyRejected? <==> place in d.rejected)
            && (out.PreviouslyRejected? ==> d1 == d && b1 == b)
            && (place !in d.rejected ==>
                  var first := if place in d.outbox then d.outbox[place] else Record(StoredForm(e), source);
                  var answer := AppendTo(b, first.event, now);
                  && b1 == answer.0
                  && (out.PermanentError? <==> answer.1.status.Rejected?)
                  && (out.ConflictError? <==> answer.1.status.KeyConflict?)
                  && if out.PermanentError? then
                       place !in d1.outbox && place in d1.rejected && d1.rejected[place] == first
                     else place in d1.outbox && d1.outbox[place] == first && place !in d1.rejected)
  {
    hide AppendTo, StoredForm;
  }

  method Publish(store: FileTaskSessionStore, board: Blackboard, task: string, key: Key, e: Event,
                 source: Option<nat>, now: real)
    returns (outcome: PublishOutcome)
    modifies store, board
    ensures (store.Value(), board.Value(), outcome) ==
            PublishTo(old(store.Value()), old(board.Value()), (task, key), e, source, now)
  {
    var staged := store.StageTaskEvent(task, key, e, source);
    if staged.None? {
      return PreviouslyRejected;
    }
    var result := board.Append(staged.value, now);
    if result.status.Rejected? {
      store.RejectTaskEvent(task, key);
      return PermanentError(result);
    }
    if result.status.KeyConflict? {
      return ConflictError(result);
    }
    outcome := Published(result);
  }
}
