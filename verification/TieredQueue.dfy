/** The bounded write queue of the observability store: three tiers, of which the
    less important give way when it is full. */
module TieredQueue {
  import opened Events

  datatype Tier = Critical | Normal | Debug

  datatype QueuedRecord = QueuedRecord(kind: string, payload: int, tier: string)

  /** One value per tier. */
  datatype ByTier<T> = ByTier(critical: T, normal: T, debug: T) {
    function At(t: Tier): T {
      match t
      case Critical => critical
      case Normal => normal
      case Debug => debug
    }

    function Set(t: Tier, value: T): ByTier<T> {
      match t
      case Critical => this.(critical := value)
      case Normal => this.(normal := value)
      case Debug => this.(debug := value)
    }
  }

  datatype Queue = Queue(
    capacity: nat, queues: ByTier<seq<QueuedRecord>>, size: int, unfinished: int, closed: bool, dropped: ByTier<nat>)

  function Fresh(capacity: nat): Queue {
    Queue(capacity, ByTier([], [], []), 0, 0, false, ByTier(0, 0, 0))
  }

  function TierOf(r: QueuedRecord): (t: Tier)
    ensures t.Normal? <==> r.tier !in {"critical", "debug"}
    ensures t.Debug? ==> r.tier == "debug"
  {
    if r.tier == "critical" then Critical else if r.tier == "debug" then Debug else Normal
  }

  function Count(q: Queue): nat {
    |q.queues.critical| + |q.queues.normal| + |q.queues.debug|
  }

  /** The tier that gives way to a newcomer of the tier when the queue is full. */
  function Victim(q: Queue, t: Tier): Option<Tier> {
    match t
    case Critical =>
      if q.queues.debug != [] then Some(Debug) else if q.queues.normal != [] then Some(Normal) else None
    case Normal => if q.queues.debug != [] then Some(Debug) else None
    case Debug => None
  }

  function Enqueue(q: Queue, t: Tier, r: QueuedRecord): Queue {
    q.(queues := q.queues.Set(t, q.queues.At(t) + [r]), size := q.size + 1, unfinished := q.unfinished + 1)
  }

  function Drop(q: Queue, t: Tier): Queue {
    q.(dropped := q.dropped.Set(t, q.dropped.At(t) + 1))
  }

  function Evict(q: Queue, t: Tier): Queue
    requires q.queues.At(t) != []
  {
    Drop(q.(queues := q.queues.Set(t, q.queues.At(t)[1..]), size := q.size - 1, unfinished := q.unfinished - 1), t)
  }

  function PutTo(q: Queue, r: QueuedRecord): (Queue, bool) {
    var t := TierOf(r);
    if q.closed then (Drop(q, t), false)
    else if q.size >= q.capacity then
      match Victim(q, t)
      case None => (Drop(q, t), false)
      case Some(v) => (Enqueue(Evict(q, v), t, r), true)
    else (Enqueue(q, t, r), true)
  }

  /** The most important tier that holds a record. */
  function FirstTier(q: Queue): Option<Tier> {
    if q.queues.critical != [] then Some(Critical)
    else if q.queues.normal != [] then Some(Normal)
    else if q.queues.debug != [] then Some(Debug)
    else None
  }

  function GetFrom(q: Queue): (Queue, Option<QueuedRecord>) {
    if q.size == 0 then (q, None)
    else
      match FirstTier(q)
      case None => (q, None)
      case Some(t) =>
        (q.(queues := q.queues.Set(t, q.queues.At(t)[1..]), size := q.size - 1), Some(q.queues.At(t)[0]))
  }

  function DoneWith(q: Queue, count: nat): Queue {
    q.(unfinished := if q.unfinished - count > 0 then q.unfinished - count else 0)
  }

  // ---------------------------------------------------------------------
  // Runs
  // ---------------------------------------------------------------------

  datatype Op = Put(record: QueuedRecord) | Get | Acknowledge(count: nat) | Close

  /** A queue with the history of what happened to the records offered to it.
      Removed lists, per tier, what left the queue, whether taken or evicted; in
      flight are the records taken and not yet acknowledged. */
  datatype Trace = Trace(
    queue: Queue, offered: ByTier<nat>, accepted: ByTier<seq<QueuedRecord>>, removed: ByTier<seq<QueuedRecord>>,
    taken: ByTier<seq<QueuedRecord>>, inFlight: nat)

  function Start(capacity: nat): Trace {
    Trace(Fresh(capacity), ByTier(0, 0, 0), ByTier([], [], []), ByTier([], [], []), ByTier([], [], []), 0)
  }

  function Append<T>(s: ByTier<seq<T>>, t: Tier, x: T): ByTier<seq<T>> {
    s.Set(t, s.At(t) + [x])
  }

  function Offered(h: Trace, t: Tier): Trace {
    h.(offered := h.offered.Set(t, h.offered.At(t) + 1))
  }

  function Refused(h: Trace, t: Tier): Trace {
    Offered(h.(queue := Drop(h.queue, t)), t)
  }

  function Evicted(h: Trace, v: Tier): Trace
    requires h.queue.queues.At(v) != []
  {
    h.(queue := Evict(h.queue, v), removed := Append(h.removed, v, h.queue.queues.At(v)[0]))
  }

  function Accepted(h: Trace, t: Tier, r: QueuedRecord): Trace {
    Offered(h.(queue := Enqueue(h.queue, t, r), accepted := Append(h.accepted, t, r)), t)
  }

  function OnPut(h: Trace, r: QueuedRecord): Trace {
    var t := TierOf(r);
    if h.queue.closed then Refused(h, t)
    else if h.queue.size < h.queue.capacity then Accepted(h, t, r)
    else if Victim(h.queue, t).None? then Refused(h, t)
    else Accepted(Evicted(h, Victim(h.queue, t).value), t, r)
  }

  /** The history records what the queue did, and nothing else. */
  lemma PutIsRecorded(h: Trace, r: QueuedRecord)
    ensures OnPut(h, r).queue == PutTo(h.queue, r).0
    ensures OnPut(h, r).accepted == if PutTo(h.queue, r).1 then Append(h.accepted, TierOf(r), r) else h.accepted
  {
    hide Enqueue, Drop, Append;
  }

  function Took(h: Trace, t: Tier): Trace
    requires h.queue.queues.At(t) != []
  {
    var r := h.queue.queues.At(t)[0];
    h.(queue := h.queue.(queues := h.queue.queues.Set(t, h.queue.queues.At(t)[1..]), size := h.queue.size - 1),
       removed := Append(h.removed, t, r), taken := Append(h.taken, t, r), inFlight := h.inFlight + 1)
  }

  function OnGet(h: Trace): Trace {
    if h.queue.size == 0 || FirstTier(h.queue).None? then h else Took(h, FirstTier(h.queue).value)
  }

  lemma GetIsRecorded(h: Trace)
    ensures OnGet(h).queue == GetFrom(h.queue).0
    ensures var (_, r) := GetFrom(h.queue);
            OnGet(h).taken == if r.Some? then Append(h.taken, FirstTier(h.queue).value, r.value) else h.taken
  {
    hide Append;
  }

  function StepTrace(h: Trace, op: Op): Trace {
    match op
    case Put(r) => OnPut(h, r)
    case Get => OnGet(h)
    case Acknowledge(count) =>
      h.(queue := DoneWith(h.queue, count), inFlight := if count < h.inFlight then h.inFlight - count else 0)
    case Close => h.(queue := h.queue.(closed := true))
  }

  function Run(capacity: nat, ops: seq<Op>): Trace {
    if ops == [] then Start(capacity) else StepTrace(Run(capacity, ops[..|ops| - 1]), ops[|ops| - 1])
  }

  // ---------------------------------------------------------------------
  // Conservation
  // ---------------------------------------------------------------------

  predicate TierBalanced(h: Trace, t: Tier) {
    && h.accepted.At(t) == h.removed.At(t) + h.queue.queues.At(t)
    && h.offered.At(t) == |h.taken.At(t)| + |h.queue.queues.At(t)| + h.queue.dropped.At(t)
    && (t.Critical? ==> h.removed.At(t) == h.taken.At(t))
  }

  predicate Balanced(h: Trace) {
    && h.queue.size == Count(h.queue) <= h.queue.capacity
    && TiersBalanced(h)
    && 0 <= h.queue.unfinished <= Count(h.queue) + h.inFlight
  }

  lemma MoveHead<T>(left: seq<T>, right: seq<T>)
    requires right != []
    ensures left + right == (left + [right[0]]) + right[1..]
  {
  }

  predicate TiersBalanced(h: Trace) {
    TierBalanced(h, Critical) && TierBalanced(h, Normal) && TierBalanced(h, Debug)
  }

  lemma EvictKeepsTiers(h: Trace, v: Tier)
    requires TiersBalanced(h) && !v.Critical? && h.queue.queues.At(v) != []
    ensures TiersBalanced(Evicted(h, v)) && Count(Evicted(h, v).queue) == Count(h.queue) - 1
  {
    MoveHead(h.removed.At(v), h.queue.queues.At(v));
  }

  lemma AcceptKeepsTiers(h: Trace, t: Tier, r: QueuedRecord)
    requires TiersBalanced(h)
    ensures TiersBalanced(Accepted(h, t, r)) && Count(Accepted(h, t, r).queue) == Count(h.queue) + 1
  {
    assert h.accepted.At(t) + [r] == h.removed.At(t) + (h.queue.queues.At(t) + [r]);
  }

  lemma RefuseKeepsTiers(h: Trace, t: Tier)
    requires TiersBalanced(h)
    ensures TiersBalanced(Refused(h, t)) && Count(Refused(h, t).queue) == Count(h.queue)
  {
  }

  lemma PutCounts(h: Trace, r: QueuedRecord)
    ensures var after := OnPut(h, r);
            && after.taken == h.taken && after.inFlight == h.inFlight
            && after.queue.capacity == h.queue.capacity
            && after.queue.size - h.queue.size == after.queue.unfinished - h.queue.unfinished
            && (h.queue.size <= h.queue.capacity && h.queue.capacity >= 1 ==>
                  h.queue.size <= after.queue.size <= h.queue.capacity)
  {
    hide Append, Victim, TierOf;
  }

  lemma PutKeepsTiers(h: Trace, r: QueuedRecord)
    requires TiersBalanced(h)
    ensures TiersBalanced(OnPut(h, r))
    ensures Count(OnPut(h, r).queue) - Count(h.queue) == OnPut(h, r).queue.size - h.queue.size
  {
    hide TiersBalanced, TierOf, Append;
    var t := TierOf(r);
    var victim := Victim(h.queue, t);
    RefuseKeepsTiers(h, t);
    AcceptKeepsTiers(h, t, r);
    if victim.Some? {
      EvictKeepsTiers(h, victim.value);
      AcceptKeepsTiers(Evicted(h, victim.value), t, r);
    }
  }

  lemma PutKeepsBalance(h: Trace, r: QueuedRecord)
    requires Balanced(h) && h.queue.capacity >= 1
    ensures Balanced(OnPut(h, r))
  {
    hide OnPut, TiersBalanced, Count;
    PutCounts(h, r);
    PutKeepsTiers(h, r);
  }

  lemma TakeKeepsTiers(h: Trace, t: Tier)
    requires TiersBalanced(h) && h.queue.queues.At(t) != []
    ensures TiersBalanced(Took(h, t))
    ensures Count(Took(h, t).queue) == Count(h.queue) - 1
  {
    MoveHead(h.removed.At(t), h.queue.queues.At(t));
  }

  lemma GetKeepsBalance(h: Trace)
    requires Balanced(h)
    ensures Balanced(StepTrace(h, Get))
  {
    hide TiersBalanced, Append;
    var t := FirstTier(h.queue);
    if t.Some? {
      TakeKeepsTiers(h, t.value);
    }
  }

  lemma AcknowledgeKeepsBalance(h: Trace, count: nat)
    requires Balanced(h)
    ensures Balanced(StepTrace(h, Acknowledge(count))) && Balanced(StepTrace(h, Close))
  {
  }

  lemma CapacityIsFixed(h: Trace, op: Op)
    ensures StepTrace(h, op).queue.capacity == h.queue.capacity
  {
    hide Victim, FirstTier, Append;
  }

  lemma {:induction false} RunBalances(capacity: nat, ops: seq<Op>)
    requires capacity >= 1
    ensures Balanced(Run(capacity, ops)) && Run(capacity, ops).queue.capacity == capacity
  {
    if ops == [] {
    } else {
      hide StepTrace, Balanced;
      var before := Run(capacity, ops[..|ops| - 1]);
      RunBalances(capacity, ops[..|ops| - 1]);
      CapacityIsFixed(before, ops[|ops| - 1]);
      match ops[|ops| - 1]
      case Put(r) => PutKeepsBalance(before, r);
      case Get => GetKeepsBalance(before);
      case Acknowledge(count) => AcknowledgeKeepsBalance(before, count);
      case Close => AcknowledgeKeepsBalance(before, 0);
    }
  }

  /** In every run and tier, what was accepted is what was removed followed by what
      is queued, in order; what was offered was taken, is queued or counts as
      dropped; and no critical record is removed except by being taken. */
  lemma {:induction false} RecordsAreConserved(capacity: nat, ops: seq<Op>, t: Tier)
    requires capacity >= 1
    ensures var h := Run(capacity, ops);
            && h.accepted.At(t) == h.removed.At(t) + h.queue.queues.At(t)
            && h.offered.At(t) == |h.taken.At(t)| + |h.queue.queues.At(t)| + h.queue.dropped.At(t)
            && h.queue.size == Count(h.queue) <= capacity
    ensures var h := Run(capacity, ops);
            t.Critical? ==> h.accepted.At(t) == h.taken.At(t) + h.queue.queues.At(t)
  {
    RunBalances(capacity, ops);
  }

  /** The first tier is more important than the second. */
  predicate Outranks(a: Tier, b: Tier) {
    (a.Critical? && !b.Critical?) || (a.Normal? && b.Debug?)
  }

  /** Every record is queued in its own tier. */
  predicate IsSorted(q: Queue) {
    forall t: Tier, r | r in q.queues.At(t) :: TierOf(r) == t
  }

  lemma TailSorts(q: Queue, t: Tier, size: int, unfinished: int)
    requires IsSorted(q) && q.queues.At(t) != []
    ensures IsSorted(q.(queues := q.queues.Set(t, q.queues.At(t)[1..]), size := size, unfinished := unfinished))
  {
    hide TierOf;
    forall u: Tier, r | r in q.queues.Set(t, q.queues.At(t)[1..]).At(u)
      ensures TierOf(r) == u
    {
      assert r in q.queues.At(u);
    }
  }

  lemma EnqueueSorts(q: Queue, r: QueuedRecord)
    requires IsSorted(q)
    ensures IsSorted(Enqueue(q, TierOf(r), r))
  {
    hide TierOf;
    forall u: Tier, x | x in Enqueue(q, TierOf(r), r).queues.At(u)
      ensures TierOf(x) == u
    {
      assert x in q.queues.At(u) || (x == r && u == TierOf(r));
    }
  }

  lemma StepSorts(h: Trace, op: Op)
    requires IsSorted(h.queue)
    ensures IsSorted(StepTrace(h, op).queue)
  {
    hide TierOf, Append;
    match op
    case Put(r) =>
      var victim := Victim(h.queue, TierOf(r));
      EnqueueSorts(h.queue, r);
      if victim.Some? {
        TailSorts(h.queue, victim.value, h.queue.size - 1, h.queue.unfinished - 1);
        EnqueueSorts(Evict(h.queue, victim.value), r);
      }
    case Get =>
      if FirstTier(h.queue).Some? {
        TailSorts(h.queue, FirstTier(h.queue).value, h.queue.size - 1, h.queue.unfinished);
      }
    case _ =>
  }

  lemma FreshIsSorted(capacity: nat)
    ensures IsSorted(Fresh(capacity))
  {
  }

  lemma {:induction false} RunSorts(capacity: nat, ops: seq<Op>)
    ensures IsSorted(Run(capacity, ops).queue)
  {
    hide StepTrace, IsSorted;
    if ops == [] {
      FreshIsSorted(capacity);
    } else {
      RunSorts(capacity, ops[..|ops| - 1]);
      StepSorts(Run(capacity, ops[..|ops| - 1]), ops[|ops| - 1]);
    }
  }

  /** In every run, a get answers nothing exactly when nothing is queued; otherwise it takes
      the oldest record of its tier, no queued record is more important, and the other
      tiers stay as they are. */
  lemma GetTakesTheMostImportant(capacity: nat, ops: seq<Op>)
    requires capacity >= 1
    ensures var q := Run(capacity, ops).queue;
            var (after, taken) := GetFrom(q);
            && (taken.None? <==> Count(q) == 0)
            && (taken.Some? ==>
                  var t := TierOf(taken.value);
                  && q.queues.At(t) == [taken.value] + after.queues.At(t)
                  && (forall u: Tier | u != t :: after.queues.At(u) == q.queues.At(u))
                  && (forall u: Tier, r | r in q.queues.At(u) :: !Outranks(TierOf(r), t)))
  {
    hide TierOf;
    RunBalances(capacity, ops);
    RunSorts(capacity, ops);
    var q := Run(capacity, ops).queue;
    if GetFrom(q).1.Some? {
      var t := FirstTier(q).value;
      assert q.queues.At(t)[0] in q.queues.At(t);
    }
  }

  /** When a put is refused: the queue is closed, or full of records that are at
      least as important as the newcomer. For a critical record that means full of
      critical records. */
  lemma RefusalMeansNoRoom(capacity: nat, ops: seq<Op>, r: QueuedRecord)
    requires capacity >= 1
    ensures var q := Run(capacity, ops).queue;
            var refused := !PutTo(q, r).1;
            match TierOf(r)
            case Critical => refused <==> q.closed || |q.queues.critical| == capacity
            case Normal => refused <==> q.closed || |q.queues.critical| + |q.queues.normal| == capacity
            case Debug => refused <==> q.closed || Count(q) == capacity
  {
    RunBalances(capacity, ops);
  }

  /** An eviction takes the oldest record of the least important tier there is,
      and that tier is less important than the newcomer's. */
  lemma EvictionSparesTheImportant(capacity: nat, ops: seq<Op>, r: QueuedRecord)
    requires capacity >= 1
    requires var q := Run(capacity, ops).queue; PutTo(q, r).1 && Count(q) == capacity
    ensures var q := Run(capacity, ops).queue;
            var after := PutTo(q, r).0;
            && Count(after) == capacity
            && after.queues.At(TierOf(r)) == q.queues.At(TierOf(r)) + [r]
            && !TierOf(r).Debug?
            && (if q.queues.debug != [] then
                  && after.queues.debug == q.queues.debug[1..]
                  && (TierOf(r).Critical? ==> after.queues.normal == q.queues.normal)
                else
                  TierOf(r).Critical? && q.queues.normal != [] && after.queues.normal == q.queues.normal[1..])
            && (TierOf(r).Normal? ==> after.queues.critical == q.queues.critical)
  {
    RunBalances(capacity, ops);
  }

  predicate IsExact(h: Trace) {
    h.queue.unfinished == Count(h.queue) + h.inFlight
  }

  /** The acknowledgement covers no more than what is in flight, or nothing is queued
      that it could cover by mistake. */
  predicate Covered(h: Trace, op: Op) {
    op.Acknowledge? ==> op.count <= h.inFlight || Count(h.queue) == 0
  }

  /** The step that breaks the count is an acknowledgement that is not covered, and
      every such step breaks it. */
  lemma StepIsExact(h: Trace, op: Op)
    requires Balanced(h) && h.queue.capacity >= 1 && IsExact(h)
    ensures IsExact(StepTrace(h, op)) <==> Covered(h, op)
  {
    hide TiersBalanced, TierBalanced, Append;
    match op
    case Put(r) =>
      PutCounts(h, r);
      PutKeepsTiers(h, r);
    case Get =>
      if FirstTier(h.queue).Some? {
        TakeKeepsTiers(h, FirstTier(h.queue).value);
      }
    case _ =>
  }

  predicate AlwaysExact(capacity: nat, ops: seq<Op>) {
    forall n | 0 <= n <= |ops| :: IsExact(Run(capacity, ops[..n]))
  }

  predicate AlwaysCovered(capacity: nat, ops: seq<Op>) {
    forall n | 0 <= n < |ops| :: Covered(Run(capacity, ops[..n]), ops[n])
  }

  lemma AlwaysShrinks(capacity: nat, ops: seq<Op>)
    requires ops != []
    ensures var init := ops[..|ops| - 1];
            && (AlwaysExact(capacity, ops) <==> AlwaysExact(capacity, init) && IsExact(Run(capacity, ops)))
            && (AlwaysCovered(capacity, ops) <==>
                  AlwaysCovered(capacity, init) && Covered(Run(capacity, init), ops[|ops| - 1]))
  {
    hide IsExact, Covered, Run;
    var init := ops[..|ops| - 1];
    assert forall n | 0 <= n <= |init| :: init[..n] == ops[..n];
    assert ops[..|ops|] == ops && init[..|init|] == init;
  }

  /** The outstanding count is what is queued plus what is in flight, at every point
      of a run, exactly when every acknowledgement of the run is covered. */
  lemma {:induction false} OutstandingIsExact(capacity: nat, ops: seq<Op>)
    requires capacity >= 1
    ensures AlwaysExact(capacity, ops) <==> AlwaysCovered(capacity, ops)
  {
    hide StepTrace, Balanced, Covered;
    if ops == [] {
      assert forall n | 0 <= n <= |ops| :: ops[..n] == [];
    } else {
      var init := ops[..|ops| - 1];
      OutstandingIsExact(capacity, init);
      AlwaysShrinks(capacity, ops);
      assert init[..|init|] == init;
      RunBalances(capacity, init);
      if AlwaysExact(capacity, init) {
        StepIsExact(Run(capacity, init), ops[|ops| - 1]);
      }
    }
  }

  /** Then the count is zero exactly when nothing is queued and nothing is in flight,
      which is what a flush waits for. */
  lemma EmptyMeansWritten(capacity: nat, ops: seq<Op>)
    requires capacity >= 1 && AlwaysCovered(capacity, ops)
    ensures var h := Run(capacity, ops);
            h.queue.unfinished == 0 <==> Count(h.queue) == 0 && h.inFlight == 0
  {
    hide Run;
    OutstandingIsExact(capacity, ops);
    assert ops[..|ops|] == ops;
  }

  /** The batch of a writer: what it took since it last acknowledged. */
  function Batch(capacity: nat, ops: seq<Op>): nat {
    if ops == [] then 0
    else
      var init := ops[..|ops| - 1];
      match ops[|ops| - 1]
      case Acknowledge(_) => 0
      case Get => Batch(capacity, init) + (if GetFrom(Run(capacity, init).queue).1.Some? then 1 else 0)
      case _ => Batch(capacity, init)
  }

  /** The one writer of the program acknowledges exactly its batch, whatever is put
      in between. */
  predicate AcknowledgesBatches(capacity: nat, ops: seq<Op>) {
    forall n | 0 <= n < |ops| && ops[n].Acknowledge? :: ops[n].count == Batch(capacity, ops[..n])
  }

  lemma StepInFlight(h: Trace, op: Op)
    ensures StepTrace(h, op).inFlight ==
            match op
            case Get => h.inFlight + (if GetFrom(h.queue).1.Some? then 1 else 0)
            case Acknowledge(count) => if count < h.inFlight then h.inFlight - count else 0
            case _ => h.inFlight
  {
    hide Append, Enqueue, Drop;
  }

  /** So in the program every acknowledgement is covered. */
  lemma {:induction false} WriterIsCovered(capacity: nat, ops: seq<Op>)
    requires AcknowledgesBatches(capacity, ops)
    ensures AlwaysCovered(capacity, ops) && Batch(capacity, ops) == Run(capacity, ops).inFlight
  {
    hide StepTrace, GetFrom;
    if ops == [] {
    } else {
      var init := ops[..|ops| - 1];
      assert forall n | 0 <= n <= |init| :: init[..n] == ops[..n];
      WriterIsCovered(capacity, init);
      AlwaysShrinks(capacity, ops);
      StepInFlight(Run(capacity, init), ops[|ops| - 1]);
      assert ops[..|ops| - 1] == init;
    }
  }

  /** An acknowledgement that is not covered: the count reaches zero while a record
      is queued. */
  lemma EarlyReportHidesARecord(r: QueuedRecord)
    ensures var h := Run(1, [Put(r), Acknowledge(1)]);
            h.queue.unfinished == 0 && Count(h.queue) == 1 && h.inFlight == 0
    ensures !AlwaysCovered(1, [Put(r), Acknowledge(1)])
  {
    var ops := [Put(r), Acknowledge(1)];
    assert ops[..1] == [Put(r)];
    assert [Put(r)][..0] == [];
    assert Run(1, []) == Start(1);
    assert Run(1, [Put(r)]) == StepTrace(Start(1), Put(r));
    assert !Covered(Run(1, ops[..1]), ops[1]);
  }

  // ---------------------------------------------------------------------
  // The queue as it runs
  // ---------------------------------------------------------------------

  class TieredBuffer {
    const capacity: nat
    var queues: ByTier<seq<QueuedRecord>>
    var size: int
    var unfinished: int
    var closed: bool
    var dropped: ByTier<nat>

    ghost function Value(): Queue
      reads this
    {
      Queue(capacity, queues, size, unfinished, closed, dropped)
    }

    constructor (capacity: nat)
      requires capacity >= 1
      ensures Value() == Fresh(capacity)
    {
      this.capacity := capacity;
      queues := ByTier([], [], []);
      size := 0;
      unfinished := 0;
      closed := false;
      dropped := ByTier(0, 0, 0);
    }

    method PutRecord(record: QueuedRecord) returns (accepted: bool)
      modifies this
      ensures (Value(), accepted) == PutTo(old(Value()), record)
    {
      var tier := if record.tier == "critical" then Critical else if record.tier == "debug" then Debug else Normal;
      if closed {
        dropped := dropped.Set(tier, dropped.At(tier) + 1);
        return false;
      }
      if size >= capacity {
        var evicted: Option<Tier> := None;
        if tier == Critical {
          if queues.debug != [] {
            evicted := Some(Debug);
          } else if queues.normal != [] {
            evicted := Some(Normal);
          }
        } else if tier == Normal && queues.debug != [] {
          evicted := Some(Debug);
        }
        if evicted.None? {
          dropped := dropped.Set(tier, dropped.At(tier) + 1);
          return false;
        }
        queues := queues.Set(evicted.value, queues.At(evicted.value)[1..]);
        size := size - 1;
        unfinished := unfinished - 1;
        dropped := dropped.Set(evicted.value, dropped.At(evicted.value) + 1);
      }
      queues := queues.Set(tier, queues.At(tier) + [record]);
      size := size + 1;
      unfinished := unfinished + 1;
      accepted := true;
    }

    method GetNowait() returns (record: Option<QueuedRecord>)
      modifies this
      ensures (Value(), record) == GetFrom(old(Value()))
    {
      if size == 0 {
        return None;
      }
      var tiers := [Critical, Normal, Debug];
      for n := 0 to 3
        invariant Value() == old(Value())
        invariant forall k | 0 <= k < n :: queues.At(tiers[k]) == []
      {
        var tier := tiers[n];
        assert n > 0 ==> queues.At(tiers[0]) == [];
        assert n > 1 ==> queues.At(tiers[1]) == [];
        if queues.At(tier) != [] {
          size := size - 1;
          record := Some(queues.At(tier)[0]);
          queues := queues.Set(tier, queues.At(tier)[1..]);
          return;
        }
      }
      assert queues.At(tiers[0]) == [] && queues.At(tiers[1]) == [] && queues.At(tiers[2]) == [];
      record := None;
    }

    method TaskDone(count: nat)
      modifies this
      ensures Value() == DoneWith(old(Value()), count)
    {
      unfinished := if unfinished - count > 0 then unfinished - count else 0;
    }

    method Shut()
      modifies this
      ensures Value() == old(Value()).(closed := true)
    {
      closed := true;
    }
  }
}
