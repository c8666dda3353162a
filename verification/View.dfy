/** The task view: the replay of the event log, for one task and revision, that
    every participant reads and that admission consults. */
module TaskView {
  import opened Events

  datatype Status = Unknown | Posted | Bidding | Assigned | Running | Replanning | Done | Failed

  datatype Terminal = Terminal(id: EventId, kind: Kind, content: Content, version: nat, ts: real)

  datatype View = View(
    task: Option<Content>,
    status: Status,
    epoch: int,
    activeRound: Option<Content>,
    plan: Option<Content>,
    completed: seq<string>,
    terminal: Option<Terminal>,
    pending: seq<EventId>)

  const INITIAL := View(None, Unknown, 0, None, None, [], None, [])

  function PlanIdOf(plan: Option<Content>): Option<string> {
    if plan.Some? then plan.value.planId else None
  }

  function AssignmentsOf(plan: Option<Content>): seq<Assignment> {
    if plan.Some? then GetOr(plan.value.assignments, []) else []
  }

  /** The non-empty assignment identifiers of a plan. */
  function PlanIds(plan: Option<Content>): set<string> {
    set a | a in AssignmentsOf(plan) && a.assignmentId != "" :: a.assignmentId
  }

  /** The first assignment of a list that carries the identifier. */
  function FindAssignment(assignments: seq<Assignment>, id: string): (r: Option<Assignment>)
    ensures r.Some? ==> r.value in assignments && r.value.assignmentId == id
    ensures r.None? ==> forall a | a in assignments :: a.assignmentId != id
  {
    if assignments == [] then None
    else if assignments[0].assignmentId == id then Some(assignments[0])
    else FindAssignment(assignments[1..], id)
  }

  /** No earlier one carries it. */
  lemma {:induction false} FoundIsFirst(assignments: seq<Assignment>, id: string) returns (k: nat)
    requires FindAssignment(assignments, id).Some?
    ensures k < |assignments| && assignments[k] == FindAssignment(assignments, id).value
    ensures forall m | 0 <= m < k :: assignments[m].assignmentId != id
  {
    if assignments[0].assignmentId == id {
      k := 0;
    } else {
      k := FoundIsFirst(assignments[1..], id);
      assert forall m | 0 < m < k + 1 :: assignments[m] == assignments[1..][m - 1];
      k := k + 1;
    }
  }

  /** A list without the members of a set, order kept. */
  function Without(xs: seq<EventId>, gone: set<EventId>): (r: seq<EventId>)
    ensures forall x :: x in r <==> x in xs && x !in gone
    ensures forall x :: multiset(r)[x] == if x in gone then 0 else multiset(xs)[x]
  {
    if xs == [] then []
    else
      assert xs == [xs[0]] + xs[1..];
      if xs[0] in gone then Without(xs[1..], gone) else [xs[0]] + Without(xs[1..], gone)
  }

  function SetOf<T(==)>(xs: seq<T>): set<T> {
    set x | x in xs
  }

  function ExpectedEpoch(current: int): int {
    if current == 0 then 1 else current
  }

  // ---------------------------------------------------------------------
  // Which events concern a task and revision
  // ---------------------------------------------------------------------

  predicate IsPosting(e: Event, task: string, revision: int) {
    e.kind.TaskPosted? && TaskOf(e.content) == task && RevisionOf(e.content) == revision
  }

  predicate HasPosting(log: seq<Event>, task: string, revision: int) {
    exists i | 0 <= i < |log| :: IsPosting(log[i], task, revision)
  }

  /** The newest revision of the task posted in the log, 1 when there is none. */
  function LatestPosted(log: seq<Event>, task: string): int {
    if log == [] then 1
    else
      var before := LatestPosted(log[..|log| - 1], task);
      var e := log[|log| - 1];
      if e.kind.TaskPosted? && task != "" && TaskOf(e.content) == task && RevisionOf(e.content) > before
      then RevisionOf(e.content)
      else before
  }

  /** The revision an event belongs to, resolved at its position in the log. */
  function EffectiveRevision(log: seq<Event>, i: nat): int
    requires i < |log|
  {
    if log[i].content.taskRevision.Some? then log[i].content.taskRevision.value
    else LatestPosted(log[..i + 1], TaskOf(log[i].content))
  }

  /** Whether an event that follows the prefix concerns the task and revision. */
  predicate Binds(prefix: seq<Event>, e: Event, task: string, revision: int) {
    && TaskOf(e.content) == task
    && (if e.kind.Clue? && e.content.taskRevision.None? then LatestPosted(prefix, task) == revision
        else RevisionOf(e.content) == revision)
  }

  predicate BindsAt(log: seq<Event>, i: nat, task: string, revision: int)
    requires i < |log|
  {
    Binds(log[..i], log[i], task, revision)
  }

  // ---------------------------------------------------------------------
  // The transition relation of the replay
  // ---------------------------------------------------------------------

  function ApplyBidRound(v: View, c: Content): View {
    var active := if v.activeRound.Some? then GetOr(v.activeRound.value.bidRound, 0) else 0;
    if GetOr(c.coordinationEpoch, 0) == ExpectedEpoch(v.epoch) && v.plan.None? && GetOr(c.bidRound, 1) > active
    then v.(epoch := GetOr(c.coordinationEpoch, 0), activeRound := Some(c), status := Bidding)
    else v
  }

  function ApplyAssigned(v: View, c: Content): View {
    if GetOr(c.coordinationEpoch, 0) != v.epoch then v
    else if IsV2(c) && v.activeRound.None? then v
    else if v.plan.Some? && v.plan.value.planId != c.planId then v
    else v.(completed := if PlanIdOf(v.plan) != c.planId then [] else v.completed,
            plan := Some(c),
            activeRound := None,
            status := Assigned,
            pending := Without(v.pending, SetOf(GetOr(c.inputEvidenceRefs, []))))
  }

  function ApplyIntent(v: View, c: Content): View {
    if c.planId == PlanIdOf(v.plan) && GetOr(c.coordinationEpoch, -1) == v.epoch then v.(status := Running) else v
  }

  function ApplyCompleted(v: View, c: Content): View {
    if v.plan.None? then v
    else if c.planId != v.plan.value.planId
            || GetOr(c.coordinationEpoch, -1) != GetOr(v.plan.value.coordinationEpoch, -2) then v
    else
      var id := GetOr(c.assignmentId, "");
      var found := FindAssignment(AssignmentsOf(v.plan), id);
      if found.None? || GetOr(c.assignmentEpoch, -1) != found.value.assignmentEpoch then v
      else if id != "" && id !in v.completed then v.(completed := v.completed + [id])
      else v
  }

  function ReplanConsumes(c: Content): set<EventId> {
    SetOf(GetOr(c.evidenceRefs, [])) + (if c.causeId.Some? then {c.causeId.value} else {})
  }

  function ApplyReplan(v: View, c: Content): View {
    var from := GetOr(c.fromEpoch, -1);
    var to := GetOr(c.toEpoch, -1);
    if from != v.epoch || to != from + 1 then v
    else if c.causeId.None? || c.causeId.value !in v.pending || !(ReplanConsumes(c) <= SetOf(v.pending)) then v
    else v.(pending := Without(v.pending, ReplanConsumes(c)),
            epoch := to,
            activeRound := None,
            plan := None,
            completed := [],
            status := Replanning)
  }

  predicate PlanFinished(v: View, c: Content) {
    && v.plan.Some?
    && c.planId == v.plan.value.planId
    && PlanIds(v.plan) != {}
    && PlanIds(v.plan) <= SetOf(v.completed)
  }

  function ApplyTerminal(v: View, e: Event): View {
    if IsV2(e.content) && GetOr(e.content.coordinationEpoch, -1) != v.epoch then v
    else if IsV2(e.content) && e.kind.TaskDone? && !PlanFinished(v, e.content) then v
    else v.(terminal := Some(Terminal(e.id, e.kind, e.content, e.version, e.ts)),
            activeRound := None,
            status := if e.kind.TaskDone? then Done else Failed,
            pending := [])
  }

  /** One event of the task; the first terminal event freezes the view. */
  function Apply(v: View, e: Event): View {
    if v.terminal.Some? then v
    else match e.kind
      case TaskPosted => if v.task.None? then v.(task := Some(e.content), status := Posted) else v
      case BidRoundOpened => ApplyBidRound(v, e.content)
      case TaskAssigned => ApplyAssigned(v, e.content)
      case ActionIntent => ApplyIntent(v, e.content)
      case AssignmentCompleted => ApplyCompleted(v, e.content)
      case Clue => if e.id in v.pending then v else v.(pending := v.pending + [e.id])
      case TaskReplan => ApplyReplan(v, e.content)
      case TaskDone => ApplyTerminal(v, e)
      case TaskFailed => ApplyTerminal(v, e)
      case _ => v
  }

  /** The view of a task and revision after the whole log. */
  function Fold(log: seq<Event>, task: string, revision: int): View {
    if log == [] then INITIAL
    else
      var prefix := log[..|log| - 1];
      var v := Fold(prefix, task, revision);
      if Binds(prefix, log[|log| - 1], task, revision) then Apply(v, log[|log| - 1]) else v
  }

  predicate ReplanPending(v: View) {
    v.pending != [] && v.terminal.None?
  }

  lemma FoldNothing(task: string, revision: int)
    ensures Fold([], task, revision) == INITIAL
  {
  }

  lemma FoldStep(log: seq<Event>, i: nat, task: string, revision: int)
    requires i < |log|
    ensures Fold(log[..i + 1], task, revision) ==
            if BindsAt(log, i, task, revision) then Apply(Fold(log[..i], task, revision), log[i])
            else Fold(log[..i], task, revision)
  {
    assert log[..i + 1][..i] == log[..i];
  }

  // ---------------------------------------------------------------------
  // Locality
  // ---------------------------------------------------------------------

  /** The events of a log that concern the task and revision, in order. */
  function Relevant(log: seq<Event>, task: string, revision: int): seq<Event> {
    if log == [] then []
    else
      var prefix := log[..|log| - 1];
      Relevant(prefix, task, revision)
      + (if Binds(prefix, log[|log| - 1], task, revision) then [log[|log| - 1]] else [])
  }

  lemma PostingGrows(prefix: seq<Event>, e: Event, task: string, revision: int)
    ensures HasPosting(prefix + [e], task, revision) <==>
            HasPosting(prefix, task, revision) || IsPosting(e, task, revision)
  {
    var log := prefix + [e];
    if HasPosting(prefix, task, revision) {
      var i :| 0 <= i < |prefix| && IsPosting(prefix[i], task, revision);
      assert IsPosting(log[i], task, revision);
    }
    if IsPosting(e, task, revision) {
      assert IsPosting(log[|prefix|], task, revision);
    }
    if HasPosting(log, task, revision) {
      var i :| 0 <= i < |log| && IsPosting(log[i], task, revision);
      assert i < |prefix| ==> prefix[i] == log[i];
    }
  }

  /** A newest revision above 1 was posted. */
  lemma {:induction false} NewestWasPosted(log: seq<Event>, task: string)
    ensures LatestPosted(log, task) >= 1
    ensures LatestPosted(log, task) > 1 ==> task != "" && HasPosting(log, task, LatestPosted(log, task))
  {
    hide HasPosting;
    if log != [] {
      var prefix, e := log[..|log| - 1], log[|log| - 1];
      assert prefix + [e] == log;
      NewestWasPosted(prefix, task);
      PostingGrows(prefix, e, task, LatestPosted(log, task));
    }
  }

  /** Among the events of one revision, the newest posted revision is that one or none. */
  lemma {:induction false} NewestAmongRelevant(log: seq<Event>, task: string, revision: int)
    ensures LatestPosted(Relevant(log, task, revision), task) ==
            if revision > 1 && task != "" && HasPosting(log, task, revision) then revision else 1
  {
    hide HasPosting;
    if log == [] {
      assert !HasPosting(log, task, revision) by { NothingPosted(task, revision); }
    } else {
      var prefix, e := log[..|log| - 1], log[|log| - 1];
      var relevant := Relevant(prefix, task, revision);
      assert prefix + [e] == log;
      NewestAmongRelevant(prefix, task, revision);
      PostingGrows(prefix, e, task, revision);
      assert (relevant + [e])[..|relevant|] == relevant && relevant + [] == relevant;
    }
  }

  lemma NothingPosted(task: string, revision: int)
    ensures !HasPosting([], task, revision)
  {
  }

  /** A clue without a revision binds to the same one in the sub-log as in the log. */
  lemma ClueBindsInSubLog(log: seq<Event>, task: string, revision: int)
    requires LatestPosted(log, task) == revision
    ensures LatestPosted(Relevant(log, task, revision), task) == revision
  {
    NewestWasPosted(log, task);
    NewestAmongRelevant(log, task, revision);
  }

  /** A view depends on the events of its own task and revision alone: replaying
      only those gives the view of the whole log. */
  lemma {:induction false} FoldIsLocal(log: seq<Event>, task: string, revision: int)
    ensures Fold(Relevant(log, task, revision), task, revision) == Fold(log, task, revision)
  {
    if log != [] {
      var prefix, e := log[..|log| - 1], log[|log| - 1];
      var relevant := Relevant(prefix, task, revision);
      FoldIsLocal(prefix, task, revision);
      assert (relevant + [e])[..|relevant|] == relevant && relevant + [] == relevant;
      if Binds(prefix, e, task, revision) && e.kind.Clue? && e.content.taskRevision.None? {
        ClueBindsInSubLog(prefix, task, revision);
      }
    }
  }

  /** Logs that agree on the events of a task and revision agree on its view,
      whatever else was interleaved. */
  lemma FoldIgnoresInterleaving(a: seq<Event>, b: seq<Event>, task: string, revision: int)
    requires Relevant(a, task, revision) == Relevant(b, task, revision)
    ensures Fold(a, task, revision) == Fold(b, task, revision)
  {
    FoldIsLocal(a, task, revision);
    FoldIsLocal(b, task, revision);
  }

  lemma {:induction false} RelevantExtends(log: seq<Event>, more: seq<Event>, task: string, revision: int)
    ensures Relevant(log, task, revision) <= Relevant(log + more, task, revision)
    decreases |more|
  {
    if more == [] {
      assert log + more == log;
    } else {
      RelevantExtends(log, more[..|more| - 1], task, revision);
      assert (log + more)[..|log + more| - 1] == log + more[..|more| - 1];
    }
  }

  /** Later events never re-bind an older one: its revision is fixed at its position. */
  lemma RevisionIsPrefixStable(log: seq<Event>, more: seq<Event>, i: nat)
    requires i < |log|
    ensures EffectiveRevision(log + more, i) == EffectiveRevision(log, i)
    ensures forall t, r :: BindsAt(log + more, i, t, r) <==> BindsAt(log, i, t, r)
  {
    assert (log + more)[..i + 1] == log[..i + 1];
    assert (log + more)[..i] == log[..i];
  }

  // ---------------------------------------------------------------------
  // The replay as it runs
  // ---------------------------------------------------------------------

  /** Resolves every event's revision in one pass over the log. */
  method EffectiveTaskRevisions(log: seq<Event>) returns (result: seq<int>)
    ensures |result| == |log|
    ensures forall i | 0 <= i < |log| :: result[i] == EffectiveRevision(log, i)
  {
    var latest: map<string, int> := map[];
    result := [];
    for n := 0 to |log|
      invariant |result| == n
      invariant forall t :: (if t in latest then latest[t] else 1) == LatestPosted(log[..n], t)
      invariant forall i | 0 <= i < n :: result[i] == EffectiveRevision(log, i)
    {
      var e := log[n];
      var task := TaskOf(e.content);
      ghost var before := latest;
      if e.kind.TaskPosted? && task != "" {
        var known := if task in latest then latest[task] else 1;
        latest := latest[task := if RevisionOf(e.content) > known then RevisionOf(e.content) else known];
      }
      assert log[..n + 1][..n] == log[..n];
      forall t
        ensures (if t in latest then latest[t] else 1) == LatestPosted(log[..n + 1], t)
      {
        assert (if t in before then before[t] else 1) == LatestPosted(log[..n], t);
      }
      if e.content.taskRevision.Some? {
        result := result + [RevisionOf(e.content)];
      } else {
        result := result + [if task in latest then latest[task] else 1];
      }
    }
    assert log[..|log|] == log;
  }

  /** A missing revision resolves to the newest posted one; a clue is no posting. */
  lemma ClueBinding(log: seq<Event>, i: nat, task: string, revision: int)
    requires i < |log| && log[i].kind.Clue? && log[i].content.taskRevision.None?
    ensures BindsAt(log, i, task, revision) <==>
            TaskOf(log[i].content) == task && EffectiveRevision(log, i) == revision
  {
    assert log[..i + 1][..i] == log[..i];
  }

  method TaskCoordinationView(log: seq<Event>, task: string, revision: int) returns (view: View)
    ensures view == Fold(log, task, revision)
  {
    var posted: Option<Content> := None;
    var status := Unknown;
    var epoch := 0;
    var activeRound: Option<Content> := None;
    var plan: Option<Content> := None;
    var completed: seq<string> := [];
    var terminal: Option<Terminal> := None;
    var pending: seq<EventId> := [];
    var revisions := EffectiveTaskRevisions(log);
    for n := 0 to |log|
      invariant View(posted, status, epoch, activeRound, plan, completed, terminal, pending)
                == Fold(log[..n], task, revision)
    {
      FoldStep(log, n, task, revision);
      var e := log[n];
      var c := e.content;
      var matches;
      if e.kind.Clue? && c.taskRevision.None? {
        ClueBinding(log, n, task, revision);
        matches := TaskOf(c) == task && revisions[n] == revision;
      } else {
        matches := TaskOf(c) == task && RevisionOf(c) == revision;
      }
      if !matches || terminal.Some? {
        continue;
      }
      match e.kind {
        case TaskPosted =>
          if posted.None? {
            posted := Some(c);
            status := Posted;
          }
        case BidRoundOpened =>
          var round := GetOr(c.coordinationEpoch, 0);
          var active := if activeRound.Some? then GetOr(activeRound.value.bidRound, 0) else 0;
          if round == ExpectedEpoch(epoch) && plan.None? && GetOr(c.bidRound, 1) > active {
            epoch := round;
            activeRound := Some(c);
            status := Bidding;
          }
        case TaskAssigned =>
          if GetOr(c.coordinationEpoch, 0) != epoch {
            continue;
          }
          if IsV2(c) && activeRound.None? {
            continue;
          }
          if plan.Some? && plan.value.planId != c.planId {
            continue;
          }
          if PlanIdOf(plan) != c.planId {
            completed := [];
          }
          plan := Some(c);
          activeRound := None;
          status := Assigned;
          pending := Without(pending, SetOf(GetOr(c.inputEvidenceRefs, [])));
        case ActionIntent =>
          if c.planId == PlanIdOf(plan) && GetOr(c.coordinationEpoch, -1) == epoch {
            status := Running;
          }
        case AssignmentCompleted =>
          if plan.None? {
            continue;
          }
          if c.planId != plan.value.planId
             || GetOr(c.coordinationEpoch, -1) != GetOr(plan.value.coordinationEpoch, -2) {
            continue;
          }
          var id := GetOr(c.assignmentId, "");
          var found := FindAssignment(AssignmentsOf(plan), id);
          if found.None? || GetOr(c.assignmentEpoch, -1) != found.value.assignmentEpoch {
            continue;
          }
          if id != "" && id !in completed {
            completed := completed + [id];
          }
        case Clue =>
          if e.id !in pending {
            pending := pending + [e.id];
          }
        case TaskReplan =>
          var from := GetOr(c.fromEpoch, -1);
          var to := GetOr(c.toEpoch, -1);
          if from != epoch || to != from + 1 {
            continue;
          }
          var consumed := ReplanConsumes(c);
          if c.causeId.None? || c.causeId.value !in pending || !(consumed <= SetOf(pending)) {
            continue;
          }
          pending := Without(pending, consumed);
          epoch := to;
          activeRound := None;
          plan := None;
          completed := [];
          status := Replanning;
        case TaskDone =>
          if IsV2(c) {
            if GetOr(c.coordinationEpoch, -1) != epoch {
              continue;
            }
            if plan.None? || c.planId != plan.value.planId || PlanIds(plan) == {}
               || !(PlanIds(plan) <= SetOf(completed)) {
              continue;
            }
          }
          terminal := Some(Terminal(e.id, e.kind, c, e.version, e.ts));
          activeRound := None;
          status := Done;
          pending := [];
        case TaskFailed =>
          if IsV2(c) && GetOr(c.coordinationEpoch, -1) != epoch {
            continue;
          }
          terminal := Some(Terminal(e.id, e.kind, c, e.version, e.ts));
          activeRound := None;
          status := Failed;
          pending := [];
        case _ =>
      }
    }
    assert log[..|log|] == log;
    view := View(posted, status, epoch, activeRound, plan, completed, terminal, pending);
  }
}
