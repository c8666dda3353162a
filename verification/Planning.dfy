/** Closing a bid round: an untrusted policy proposes a plan, the validator
    judges it against a fresh snapshot, and the matching stands in for it. */
module Planning {
  import opened Events
  import opened Ordering
  import opened Matching

  datatype Snapshot = Snapshot(
    deviceId: string, deviceType: string, online: bool, healthy: bool, busy: bool, busyTask: Option<string>,
    battery: real, endurance: real, capabilities: seq<string>, verbs: seq<string>, width: Option<real>,
    updatedAt: real)

  datatype SpaceConstraint = SpaceConstraint(minGap: Option<real>, passableBy: seq<string>)

  datatype Requirement = Requirement(minBattery: real, minEndurance: real, space: seq<SpaceConstraint>)

  datatype PlanningInput = PlanningInput(
    taskId: string, revision: int, epoch: int, requirement: Requirement, slots: seq<RoleSlot>, bids: seq<BidRecord>,
    snapshots: seq<Snapshot>, evidenceRefs: seq<EventId>, fingerprint: int)

  datatype Candidate = Candidate(
    taskId: string, revision: int, epoch: int, assignments: seq<CandidateAssignment>, fingerprint: int)

  datatype Violation =
    | TaskIdMismatch | TaskRevisionMismatch | EpochMismatch | FingerprintMismatch
    | SlotOwnerCountInvalid(slot: string)
    | UnknownSlot(slot: string)
    | DeviceAssignedMultipleSlots(device: string)
    | SupportingBidInvalid(assignment: CandidateAssignment)
    | OwnerDidNotAcceptSlot(assignment: CandidateAssignment)
    | OwnerNoLongerEligible(assignment: CandidateAssignment)
    | OwnerCapabilityStale(assignment: CandidateAssignment)
    | OwnerActionVerbStale(assignment: CandidateAssignment)
    | OwnerBusy(assignment: CandidateAssignment)
    | OwnerBatteryStale(assignment: CandidateAssignment)
    | OwnerEnduranceStale(assignment: CandidateAssignment)
    | OwnerSpaceConstraintStale(assignment: CandidateAssignment)
    | ActionNotAllowed(slot: string)
    | UnsupportedCompletionRule(slot: string)

  datatype CommittedAssignment = CommittedAssignment(
    assignmentId: string, slotId: string, deviceId: string, supportingBid: string, assignmentEpoch: int,
    allowedActions: seq<string>, verb: string, completesOnReceipt: bool)

  datatype AssignmentPlan = AssignmentPlan(
    taskId: string, revision: int, epoch: int, assignments: seq<CommittedAssignment>, evidenceRefs: seq<EventId>,
    fingerprint: int)

  datatype Validation = ValidPlan(plan: AssignmentPlan) | InvalidPlan(violations: seq<Violation>)

  // ---------------------------------------------------------------------
  // Look-ups; a later entry replaces an earlier one with the same name
  // ---------------------------------------------------------------------

  function BidOf(bids: seq<BidRecord>, id: string): (r: Option<BidRecord>)
    ensures r.Some? ==> r.value in bids && r.value.eventId == id
    ensures r.None? ==> forall b | b in bids :: b.eventId != id
  {
    if bids == [] then None
    else if bids[|bids| - 1].eventId == id then Some(bids[|bids| - 1])
    else
      assert bids == bids[..|bids| - 1] + [bids[|bids| - 1]];
      BidOf(bids[..|bids| - 1], id)
  }

  function SnapshotOf(snapshots: seq<Snapshot>, device: string): (r: Option<Snapshot>)
    ensures r.Some? ==> r.value in snapshots && r.value.deviceId == device
  {
    if snapshots == [] then None
    else if snapshots[|snapshots| - 1].deviceId == device then Some(snapshots[|snapshots| - 1])
    else SnapshotOf(snapshots[..|snapshots| - 1], device)
  }

  function SlotOf(slots: seq<RoleSlot>, id: string): (r: Option<RoleSlot>)
    ensures r.Some? ==> r.value in slots && r.value.slotId == id
    ensures r.None? <==> id !in SlotIds(slots)
  {
    if slots == [] then None
    else if slots[|slots| - 1].slotId == id then
      assert slots[|slots| - 1] in slots;
      Some(slots[|slots| - 1])
    else
      assert slots == slots[..|slots| - 1] + [slots[|slots| - 1]];
      SlotOf(slots[..|slots| - 1], id)
  }

  /** No later bid has the identifier. */
  lemma {:induction false} BidIsLast(bids: seq<BidRecord>, id: string) returns (k: nat)
    requires BidOf(bids, id).Some?
    ensures k < |bids| && bids[k] == BidOf(bids, id).value
    ensures forall m | k < m < |bids| :: bids[m].eventId != id
  {
    var last := |bids| - 1;
    if bids[last].eventId == id {
      k := last;
    } else {
      k := BidIsLast(bids[..last], id);
    }
  }

  /** No later snapshot is of the device. */
  lemma {:induction false} SnapshotIsLast(snapshots: seq<Snapshot>, device: string) returns (k: nat)
    requires SnapshotOf(snapshots, device).Some?
    ensures k < |snapshots| && snapshots[k] == SnapshotOf(snapshots, device).value
    ensures forall m | k < m < |snapshots| :: snapshots[m].deviceId != device
  {
    var last := |snapshots| - 1;
    if snapshots[last].deviceId == device {
      k := last;
    } else {
      k := SnapshotIsLast(snapshots[..last], device);
    }
  }

  predicate SpaceSatisfied(space: seq<SpaceConstraint>, s: Snapshot) {
    forall c | c in space ::
      && (c.minGap.Some? ==> s.width.Some? && s.width.value <= c.minGap.value)
      && (c.passableBy != [] ==> s.deviceType in c.passableBy)
  }

  // ---------------------------------------------------------------------
  // What counts as a violation
  // ---------------------------------------------------------------------

  function OwnerCount(assignments: seq<CandidateAssignment>, slot: string): nat {
    if assignments == [] then 0
    else OwnerCount(assignments[..|assignments| - 1], slot)
         + (if assignments[|assignments| - 1].slotId == slot then 1 else 0)
  }

  function DeviceCount(assignments: seq<CandidateAssignment>, device: string): nat {
    if assignments == [] then 0
    else DeviceCount(assignments[..|assignments| - 1], device)
         + (if assignments[|assignments| - 1].deviceId == device then 1 else 0)
  }

  predicate BidSupports(input: PlanningInput, a: CandidateAssignment) {
    var record := BidOf(input.bids, a.supportingBid);
    record.Some? && record.value.deviceId == a.deviceId
  }

  predicate SnapshotAvailable(input: PlanningInput, device: string) {
    var s := SnapshotOf(input.snapshots, device);
    s.Some? && s.value.online && s.value.healthy
  }

  predicate HasCapabilities(s: Snapshot, slot: RoleSlot) {
    forall c | c in slot.requiredCapabilities :: c in s.capabilities
  }

  /** The requirement on one assignment that the violation reports as broken; a
      later requirement is only looked at when the ones it rests on hold. */
  predicate IsAssignmentViolation(input: PlanningInput, v: Violation)
    requires v.SupportingBidInvalid? || v.OwnerDidNotAcceptSlot? || v.OwnerNoLongerEligible? || v.OwnerCapabilityStale?
             || v.OwnerActionVerbStale? || v.OwnerBusy? || v.OwnerBatteryStale? || v.OwnerEnduranceStale?
             || v.OwnerSpaceConstraintStale?
  {
    var a := v.assignment;
    if !BidSupports(input, a) then v.SupportingBidInvalid?
    else if v.SupportingBidInvalid? then false
    else if v.OwnerDidNotAcceptSlot? then !Accepts(BidOf(input.bids, a.supportingBid).value, a.slotId)
    else if !SnapshotAvailable(input, a.deviceId) then v.OwnerNoLongerEligible?
    else if v.OwnerNoLongerEligible? then false
    else
      var s := SnapshotOf(input.snapshots, a.deviceId).value;
      var slot := SlotOf(input.slots, a.slotId);
      match v
      case OwnerCapabilityStale(_) => slot.Some? && !HasCapabilities(s, slot.value)
      case OwnerActionVerbStale(_) => slot.Some? && slot.value.verb !in s.verbs
      case OwnerBusy(_) => s.busy && s.busyTask != Some(input.taskId)
      case OwnerBatteryStale(_) => s.battery < input.requirement.minBattery
      case OwnerEnduranceStale(_) => s.endurance < input.requirement.minEndurance
      case OwnerSpaceConstraintStale(_) => !SpaceSatisfied(input.requirement.space, s)
  }

  predicate IsStructural(v: Violation) {
    v.TaskIdMismatch? || v.TaskRevisionMismatch? || v.EpochMismatch? || v.FingerprintMismatch?
    || v.SlotOwnerCountInvalid? || v.UnknownSlot? || v.DeviceAssignedMultipleSlots?
    || v.ActionNotAllowed? || v.UnsupportedCompletionRule?
  }

  /** Exactly the violations of a candidate that the validator collects. */
  predicate IsViolation(c: Candidate, input: PlanningInput, v: Violation) {
    match v
    case TaskIdMismatch => c.taskId != input.taskId
    case TaskRevisionMismatch => c.revision != input.revision
    case EpochMismatch => c.epoch != input.epoch
    case FingerprintMismatch => c.fingerprint != input.fingerprint
    case SlotOwnerCountInvalid(slot) => slot in SlotIds(input.slots) && OwnerCount(c.assignments, slot) != 1
    case UnknownSlot(slot) => slot !in SlotIds(input.slots) && exists a | a in c.assignments :: a.slotId == slot
    case DeviceAssignedMultipleSlots(device) => DeviceCount(c.assignments, device) > 1
    case ActionNotAllowed(_) => false
    case UnsupportedCompletionRule(_) => false
    case _ => v.assignment in c.assignments && IsAssignmentViolation(input, v)
  }

  predicate TemplateLegal(slot: RoleSlot) {
    slot.verb in slot.allowedActions && slot.completesOnReceipt
  }

  ghost predicate IsViolationFree(c: Candidate, input: PlanningInput) {
    forall v :: !IsViolation(c, input, v)
  }

  /** What the validator accepts. */
  ghost predicate IsAcceptable(c: Candidate, input: PlanningInput) {
    && IsViolationFree(c, input)
    && (forall a | a in c.assignments :: SlotOf(input.slots, a.slotId).Some? ==>
          TemplateLegal(SlotOf(input.slots, a.slotId).value))
  }

  predicate AssignmentLeq(a: CandidateAssignment, b: CandidateAssignment) {
    TextLeq(a.slotId, b.slotId)
  }

  function Commit(input: PlanningInput, a: CandidateAssignment, slot: RoleSlot): CommittedAssignment {
    CommittedAssignment(input.taskId + ":" + slot.slotId, slot.slotId, a.deviceId, a.supportingBid, input.epoch,
                        slot.allowedActions, slot.verb, slot.completesOnReceipt)
  }

  // ---------------------------------------------------------------------
  // What a committed plan promises
  // ---------------------------------------------------------------------

  /** The slot that a dictionary keyed by slot id retains. */
  predicate IsRetained(slots: seq<RoleSlot>, k: int) {
    0 <= k < |slots| && forall m | k < m < |slots| :: slots[m].slotId != slots[k].slotId
  }

  /** The committed assignment names its task and slot, belongs to the epoch of the round,
      and asks for what the retained slot of its id asks for. */
  predicate FollowsTemplate(input: PlanningInput, p: CommittedAssignment) {
    && p.assignmentId == input.taskId + ":" + p.slotId
    && p.assignmentEpoch == input.epoch
    && exists k | 0 <= k < |input.slots| && IsRetained(input.slots, k) ::
         && input.slots[k].slotId == p.slotId
         && p.verb == input.slots[k].verb && p.allowedActions == input.slots[k].allowedActions
         && p.completesOnReceipt == input.slots[k].completesOnReceipt
         && p.verb in p.allowedActions && p.completesOnReceipt
  }

  /** One entry per slot id, in slot order, with distinct devices, each backed by a bid of
      its own device that accepts the slot. */
  predicate IsSoundPlan(input: PlanningInput, plan: seq<CommittedAssignment>) {
    && (forall id | id in SlotIds(input.slots) :: exists i :: 0 <= i < |plan| && plan[i].slotId == id)
    && (forall i | 0 <= i < |plan| :: plan[i].slotId in SlotIds(input.slots))
    && (forall i, j | 0 <= i < j < |plan| ::
          && TextLeq(plan[i].slotId, plan[j].slotId) && plan[i].slotId != plan[j].slotId
          && plan[i].deviceId != plan[j].deviceId)
    && (forall i | 0 <= i < |plan| ::
          IsEdge(input.bids, plan[i].slotId, Edge(plan[i].deviceId, plan[i].supportingBid)))
    && (forall i | 0 <= i < |plan| :: FollowsTemplate(input, plan[i]))
  }

  /** The entries are the candidate's: same slots, devices and bids. */
  predicate CarriesOut(assignments: seq<CandidateAssignment>, plan: seq<CommittedAssignment>) {
    && |plan| == |assignments|
    && (forall i | 0 <= i < |plan| ::
          CandidateAssignment(plan[i].slotId, plan[i].deviceId, plan[i].supportingBid) in assignments)
    && (forall a | a in assignments ::
          exists i :: 0 <= i < |plan|
                      && CandidateAssignment(plan[i].slotId, plan[i].deviceId, plan[i].supportingBid) == a)
  }

  // ---------------------------------------------------------------------
  // The validator as it runs
  // ---------------------------------------------------------------------

  method CheckHeader(c: Candidate, input: PlanningInput) returns (found: seq<Violation>)
    ensures forall v :: v in found <==>
              IsViolation(c, input, v)
              && (v.TaskIdMismatch? || v.TaskRevisionMismatch? || v.EpochMismatch? || v.FingerprintMismatch?)
  {
    found := [];
    if c.taskId != input.taskId {
      found := found + [TaskIdMismatch];
    }
    if c.revision != input.revision {
      found := found + [TaskRevisionMismatch];
    }
    if c.epoch != input.epoch {
      found := found + [EpochMismatch];
    }
    if c.fingerprint != input.fingerprint {
      found := found + [FingerprintMismatch];
    }
  }

  function SlotIdList(slots: seq<RoleSlot>): (ids: seq<string>)
    ensures Members(ids) == SlotIds(slots)
  {
    if slots == [] then []
    else
      assert slots == [slots[0]] + slots[1..];
      var rest := SlotIdList(slots[1..]);
      assert Members([slots[0].slotId] + rest) == {slots[0].slotId} + Members(rest);
      [slots[0].slotId] + rest
  }

  function SortedTexts(xs: seq<string>): (r: seq<string>)
    ensures Members(r) == Members(xs)
  {
    DedupKeeps(xs);
    SortKeeps(Dedup(xs), TextLeq);
    Sort(Dedup(xs), TextLeq)
  }

  method CheckSlots(c: Candidate, input: PlanningInput) returns (found: seq<Violation>)
    ensures forall v :: v in found <==> IsViolation(c, input, v) && v.SlotOwnerCountInvalid?
  {
    found := [];
    var ids := SortedTexts(SlotIdList(input.slots));
    for n := 0 to |ids|
      invariant forall v :: v in found <==>
                  v.SlotOwnerCountInvalid? && v.slot in ids[..n] && OwnerCount(c.assignments, v.slot) != 1
    {
      assert ids[..n + 1] == ids[..n] + [ids[n]];
      if OwnerCount(c.assignments, ids[n]) != 1 {
        found := found + [SlotOwnerCountInvalid(ids[n])];
      }
    }
    assert ids[..|ids|] == ids;
    assert forall id :: id in ids <==> id in Members(ids);
  }

  function CandidateSlots(assignments: seq<CandidateAssignment>): (ids: seq<string>)
    ensures forall id :: id in ids <==> exists a | a in assignments :: a.slotId == id
  {
    if assignments == [] then []
    else
      assert assignments == [assignments[0]] + assignments[1..];
      [assignments[0].slotId] + CandidateSlots(assignments[1..])
  }

  function CandidateDevices(assignments: seq<CandidateAssignment>): (ids: seq<string>)
    ensures forall id :: id in ids <==> exists a | a in assignments :: a.deviceId == id
  {
    if assignments == [] then []
    else
      assert assignments == [assignments[0]] + assignments[1..];
      [assignments[0].deviceId] + CandidateDevices(assignments[1..])
  }

  method CheckUnknown(c: Candidate, input: PlanningInput) returns (found: seq<Violation>)
    ensures forall v :: v in found <==> IsViolation(c, input, v) && v.UnknownSlot?
  {
    found := [];
    var ids := SortedTexts(CandidateSlots(c.assignments));
    for n := 0 to |ids|
      invariant forall v :: v in found <==> v.UnknownSlot? && v.slot in ids[..n] && v.slot !in SlotIds(input.slots)
    {
      assert ids[..n + 1] == ids[..n] + [ids[n]];
      if ids[n] !in SlotIds(input.slots) {
        found := found + [UnknownSlot(ids[n])];
      }
    }
    assert ids[..|ids|] == ids;
    assert forall id :: id in ids <==> id in Members(ids);
    assert forall id :: id in CandidateSlots(c.assignments) <==> id in Members(CandidateSlots(c.assignments));
  }

  lemma {:induction false} DeviceCountMeaning(assignments: seq<CandidateAssignment>, device: string)
    ensures DeviceCount(assignments, device) > 0 <==> exists a | a in assignments :: a.deviceId == device
  {
    if assignments != [] {
      var init := assignments[..|assignments| - 1];
      assert assignments == init + [assignments[|assignments| - 1]];
      DeviceCountMeaning(init, device);
    }
  }

  method CheckDevices(c: Candidate, input: PlanningInput) returns (found: seq<Violation>)
    ensures forall v :: v in found <==> IsViolation(c, input, v) && v.DeviceAssignedMultipleSlots?
  {
    found := [];
    var ids := SortedTexts(CandidateDevices(c.assignments));
    for n := 0 to |ids|
      invariant forall v :: v in found <==>
                  v.DeviceAssignedMultipleSlots? && v.device in ids[..n] && DeviceCount(c.assignments, v.device) > 1
    {
      assert ids[..n + 1] == ids[..n] + [ids[n]];
      if DeviceCount(c.assignments, ids[n]) > 1 {
        found := found + [DeviceAssignedMultipleSlots(ids[n])];
      }
    }
    assert ids[..|ids|] == ids;
    assert forall id :: id in ids <==> id in Members(ids);
    assert forall id :: id in CandidateDevices(c.assignments) <==> id in Members(CandidateDevices(c.assignments));
    forall device | DeviceCount(c.assignments, device) > 1
      ensures device in ids
    {
      DeviceCountMeaning(c.assignments, device);
    }
  }

  /** The checks of the slot's needs against the snapshot of its owner. */
  method CheckSlotNeeds(input: PlanningInput, a: CandidateAssignment, s: Snapshot) returns (found: seq<Violation>)
    requires BidSupports(input, a) && SnapshotAvailable(input, a.deviceId)
    requires s == SnapshotOf(input.snapshots, a.deviceId).value
    ensures forall v :: v in found <==>
              && (v.OwnerCapabilityStale? || v.OwnerActionVerbStale?) && v.assignment == a
              && IsAssignmentViolation(input, v)
  {
    found := [];
    var slot := SlotOf(input.slots, a.slotId);
    if slot.Some? && !HasCapabilities(s, slot.value) {
      found := found + [OwnerCapabilityStale(a)];
    }
    if slot.Some? && slot.value.verb !in s.verbs {
      found := found + [OwnerActionVerbStale(a)];
    }
  }

  /** The checks of the task's needs against the snapshot of the owner. */
  method CheckTaskNeeds(input: PlanningInput, a: CandidateAssignment, s: Snapshot) returns (found: seq<Violation>)
    requires BidSupports(input, a) && SnapshotAvailable(input, a.deviceId)
    requires s == SnapshotOf(input.snapshots, a.deviceId).value
    ensures forall v :: v in found <==>
              && (v.OwnerBusy? || v.OwnerBatteryStale? || v.OwnerEnduranceStale? || v.OwnerSpaceConstraintStale?)
              && v.assignment == a && IsAssignmentViolation(input, v)
  {
    found := [];
    if s.busy && s.busyTask != Some(input.taskId) {
      found := found + [OwnerBusy(a)];
    }
    if s.battery < input.requirement.minBattery {
      found := found + [OwnerBatteryStale(a)];
    }
    if s.endurance < input.requirement.minEndurance {
      found := found + [OwnerEnduranceStale(a)];
    }
    if !SpaceSatisfied(input.requirement.space, s) {
      found := found + [OwnerSpaceConstraintStale(a)];
    }
  }

  method CheckAssignment(input: PlanningInput, a: CandidateAssignment) returns (found: seq<Violation>)
    ensures forall v :: v in found <==>
              !IsStructural(v) && v.assignment == a && IsAssignmentViolation(input, v)
  {
    var record := BidOf(input.bids, a.supportingBid);
    if record.None? || record.value.deviceId != a.deviceId {
      return [SupportingBidInvalid(a)];
    }
    found := [];
    var offer := OfferFor(record.value.offers, a.slotId);
    if offer.None? || !offer.value.accepts || !offer.value.metrics.Eligible() {
      found := [OwnerDidNotAcceptSlot(a)];
    }
    var snapshot := SnapshotOf(input.snapshots, a.deviceId);
    if snapshot.None? || !snapshot.value.online || !snapshot.value.healthy {
      found := found + [OwnerNoLongerEligible(a)];
      return;
    }
    var slotNeeds := CheckSlotNeeds(input, a, snapshot.value);
    var taskNeeds := CheckTaskNeeds(input, a, snapshot.value);
    found := found + slotNeeds + taskNeeds;
  }

  method CheckAssignments(c: Candidate, input: PlanningInput) returns (found: seq<Violation>)
    ensures forall v :: v in found <==> IsViolation(c, input, v) && !IsStructural(v)
  {
    found := [];
    for n := 0 to |c.assignments|
      invariant forall v :: v in found <==>
                  !IsStructural(v) && v.assignment in c.assignments[..n] && IsAssignmentViolation(input, v)
    {
      assert c.assignments[..n + 1] == c.assignments[..n] + [c.assignments[n]];
      var more := CheckAssignment(input, c.assignments[n]);
      found := found + more;
    }
    assert c.assignments[..|c.assignments|] == c.assignments;
  }

  /** Collects exactly the violations of the candidate. */
  method CollectViolations(c: Candidate, input: PlanningInput) returns (found: seq<Violation>)
    ensures forall v :: v in found <==> IsViolation(c, input, v)
  {
    var header := CheckHeader(c, input);
    var slots := CheckSlots(c, input);
    var unknown := CheckUnknown(c, input);
    var devices := CheckDevices(c, input);
    var owners := CheckAssignments(c, input);
    found := header + slots + unknown + devices + owners;
  }

  /** The complaint about an assignment whose slot has an illegal template. */
  predicate IsComplaintAt(input: PlanningInput, a: CandidateAssignment, v: Violation) {
    var found := SlotOf(input.slots, a.slotId);
    && found.Some?
    && var slot := found.value;
       if slot.verb !in slot.allowedActions then v == ActionNotAllowed(slot.slotId)
       else !slot.completesOnReceipt && v == UnsupportedCompletionRule(slot.slotId)
  }

  predicate IsLegalAt(input: PlanningInput, a: CandidateAssignment) {
    SlotOf(input.slots, a.slotId).Some? && TemplateLegal(SlotOf(input.slots, a.slotId).value)
  }

  /** The complaint is about the first slot, in slot order, whose template is illegal. */
  predicate IsFirstComplaint(input: PlanningInput, assignments: seq<CandidateAssignment>, v: Violation) {
    exists a | a in assignments ::
      && IsComplaintAt(input, a, v)
      && forall b | b in assignments :: TextLeq(a.slotId, b.slotId) || IsLegalAt(input, b)
  }

  /** Turns the assignments of a violation-free candidate into committed ones,
      unless a slot template is illegal. */
  method CommitTemplates(input: PlanningInput, ordered: seq<CandidateAssignment>)
    returns (committed: seq<CommittedAssignment>, illegal: Option<Violation>, ghost place: nat)
    requires forall a | a in ordered :: SlotOf(input.slots, a.slotId).Some?
    ensures illegal.None? <==> forall a | a in ordered :: TemplateLegal(SlotOf(input.slots, a.slotId).value)
    ensures illegal.None? ==> CommitsAll(input, ordered, committed)
    ensures illegal.Some? ==>
              && place < |ordered| && IsComplaintAt(input, ordered[place], illegal.value)
              && forall m | 0 <= m < place :: IsLegalAt(input, ordered[m])
  {
    committed := [];
    illegal := None;
    place := 0;
    for n := 0 to |ordered|
      invariant CommitsAll(input, ordered[..n], committed)
      invariant forall a | a in ordered[..n] :: TemplateLegal(SlotOf(input.slots, a.slotId).value)
    {
      var a := ordered[n];
      assert ordered[..n + 1] == ordered[..n] + [a];
      assert forall m | 0 <= m < n :: ordered[m] in ordered[..n];
      var slot := SlotOf(input.slots, a.slotId).value;
      place := n;
      if slot.verb !in slot.allowedActions {
        illegal := Some(ActionNotAllowed(slot.slotId));
        return;
      }
      if !slot.completesOnReceipt {
        illegal := Some(UnsupportedCompletionRule(slot.slotId));
        return;
      }
      committed := committed + [Commit(input, a, slot)];
    }
    assert ordered[..|ordered|] == ordered;
  }

  lemma KnownSlot(c: Candidate, input: PlanningInput, a: CandidateAssignment)
    requires a in c.assignments && !IsViolation(c, input, UnknownSlot(a.slotId))
    ensures SlotOf(input.slots, a.slotId).Some?
  {
  }

  /** Accepts exactly the acceptable candidates, and then commits them slot by
      slot; a rejected candidate comes with the violations that condemn it. */
  method Validate(c: Candidate, input: PlanningInput) returns (result: Validation)
    ensures result.ValidPlan? <==> IsAcceptable(c, input)
    ensures result.ValidPlan? ==>
              && result.plan.taskId == input.taskId && result.plan.revision == input.revision
              && result.plan.epoch == input.epoch && result.plan.fingerprint == input.fingerprint
              && result.plan.evidenceRefs == input.evidenceRefs
              && IsSoundPlan(input, result.plan.assignments) && CarriesOut(c.assignments, result.plan.assignments)
    ensures result.InvalidPlan? ==> result.violations != []
    ensures result.InvalidPlan? && (exists v :: IsViolation(c, input, v)) ==>
              forall v :: v in result.violations <==> IsViolation(c, input, v)
    ensures result.InvalidPlan? && (forall v :: !IsViolation(c, input, v)) ==>
              |result.violations| == 1 && IsFirstComplaint(input, c.assignments, result.violations[0])
  {
    hide IsViolation, TemplateLegal, IsSoundPlan, CarriesOut;
    var violations := CollectViolations(c, input);
    if violations != [] {
      assert IsViolation(c, input, violations[0]);
      return InvalidPlan(violations);
    }
    var ordered := Sort(c.assignments, AssignmentLeq);
    SortKeeps(c.assignments, AssignmentLeq);
    assert forall a :: a in ordered <==> a in Members(ordered);
    assert forall a :: a in c.assignments <==> a in Members(c.assignments);
    forall a | a in ordered
      ensures SlotOf(input.slots, a.slotId).Some?
    {
      KnownSlot(c, input, a);
    }
    ghost var place;
    var committed, illegal;
    committed, illegal, place := CommitTemplates(input, ordered);
    if illegal.Some? {
      ComplaintIsFirst(c, input, illegal.value, place);
      return InvalidPlan([illegal.value]);
    }
    CommittedIsSound(c, input, committed);
    result := ValidPlan(AssignmentPlan(input.taskId, input.revision, input.epoch, committed, input.evidenceRefs,
                                       input.fingerprint));
  }

  predicate CommitsAll(
    input: PlanningInput, assignments: seq<CandidateAssignment>, committed: seq<CommittedAssignment>)
  {
    && |committed| == |assignments|
    && forall i | 0 <= i < |assignments| ::
         && SlotOf(input.slots, assignments[i].slotId).Some?
         && committed[i] == Commit(input, assignments[i], SlotOf(input.slots, assignments[i].slotId).value)
  }

  // ---------------------------------------------------------------------
  // What acceptance means
  // ---------------------------------------------------------------------

  lemma {:induction false} OwnerCountMeaning(assignments: seq<CandidateAssignment>, slot: string)
    ensures OwnerCount(assignments, slot) > 0 <==> exists i :: 0 <= i < |assignments| && assignments[i].slotId == slot
    ensures forall i, j | 0 <= i < j < |assignments|
                          && assignments[i].slotId == slot && assignments[j].slotId == slot ::
              OwnerCount(assignments, slot) >= 2
  {
    if assignments != [] {
      var init := assignments[..|assignments| - 1];
      OwnerCountMeaning(init, slot);
      assert forall i | 0 <= i < |init| :: init[i] == assignments[i];
    }
  }

  lemma {:induction false} DeviceCountTwice(assignments: seq<CandidateAssignment>, i: nat, j: nat)
    requires i < j < |assignments| && assignments[i].deviceId == assignments[j].deviceId
    ensures DeviceCount(assignments, assignments[i].deviceId) >= 2
  {
    var n := |assignments| - 1;
    var init := assignments[..n];
    if j < n {
      DeviceCountTwice(init, i, j);
    } else {
      assert init[i] in init;
      DeviceCountMeaning(init, assignments[i].deviceId);
    }
  }

  lemma AcceptedCoversSlots(c: Candidate, input: PlanningInput, slot: string)
    requires IsViolationFree(c, input) && slot in SlotIds(input.slots)
    ensures exists i :: 0 <= i < |c.assignments| && c.assignments[i].slotId == slot
  {
    assert !IsViolation(c, input, SlotOwnerCountInvalid(slot));
    OwnerCountMeaning(c.assignments, slot);
  }

  lemma AcceptedIsBacked(c: Candidate, input: PlanningInput, a: CandidateAssignment)
    requires IsViolationFree(c, input) && a in c.assignments
    ensures a.slotId in SlotIds(input.slots)
    ensures IsEdge(input.bids, a.slotId, Edge(a.deviceId, a.supportingBid))
  {
    assert !IsViolation(c, input, UnknownSlot(a.slotId));
    assert !IsViolation(c, input, SupportingBidInvalid(a));
    assert !IsViolation(c, input, OwnerDidNotAcceptSlot(a));
  }

  lemma AcceptedIsInjective(c: Candidate, input: PlanningInput, i: nat, j: nat)
    requires IsViolationFree(c, input) && i < j < |c.assignments|
    ensures c.assignments[i].slotId != c.assignments[j].slotId
    ensures c.assignments[i].deviceId != c.assignments[j].deviceId
  {
    var a := c.assignments[i];
    AcceptedIsBacked(c, input, a);
    assert !IsViolation(c, input, SlotOwnerCountInvalid(a.slotId));
    OwnerCountMeaning(c.assignments, a.slotId);
    assert !IsViolation(c, input, DeviceAssignedMultipleSlots(a.deviceId));
    if a.deviceId == c.assignments[j].deviceId {
      DeviceCountTwice(c.assignments, i, j);
    }
  }

  /** An accepted plan is a perfect one, whoever proposed it. */
  lemma AcceptedIsPerfect(c: Candidate, input: PlanningInput)
    requires IsAcceptable(c, input)
    ensures PerfectPlan(input.slots, input.bids, c.assignments)
  {
    hide PerfectPlan, IsViolationFree;
    ViolationFreeIsPerfect(c, input);
  }

  lemma ViolationFreeIsPerfect(c: Candidate, input: PlanningInput)
    requires IsViolationFree(c, input)
    ensures PerfectPlan(input.slots, input.bids, c.assignments)
  {
    forall s | s in SlotIds(input.slots)
      ensures exists i :: 0 <= i < |c.assignments| && c.assignments[i].slotId == s
    {
      AcceptedCoversSlots(c, input, s);
    }
    forall i | 0 <= i < |c.assignments|
      ensures c.assignments[i].slotId in SlotIds(input.slots)
      ensures IsEdge(input.bids, c.assignments[i].slotId,
                     Edge(c.assignments[i].deviceId, c.assignments[i].supportingBid))
    {
      AcceptedIsBacked(c, input, c.assignments[i]);
    }
    forall i, j | 0 <= i < j < |c.assignments|
      ensures c.assignments[i].slotId != c.assignments[j].slotId
      ensures c.assignments[i].deviceId != c.assignments[j].deviceId
    {
      AcceptedIsInjective(c, input, i, j);
    }
  }

  lemma {:induction false} SlotOfIsRetained(slots: seq<RoleSlot>, id: string) returns (k: int)
    requires SlotOf(slots, id).Some?
    ensures IsRetained(slots, k) && slots[k] == SlotOf(slots, id).value
  {
    var last := |slots| - 1;
    if slots[last].slotId == id {
      k := last;
    } else {
      k := SlotOfIsRetained(slots[..last], id);
      assert forall m | k < m < last :: slots[m] == slots[..last][m];
    }
  }

  lemma CommittedFollowsTemplate(input: PlanningInput, a: CandidateAssignment)
    requires SlotOf(input.slots, a.slotId).Some? && TemplateLegal(SlotOf(input.slots, a.slotId).value)
    ensures FollowsTemplate(input, Commit(input, a, SlotOf(input.slots, a.slotId).value))
  {
    var k := SlotOfIsRetained(input.slots, a.slotId);
  }

  lemma {:induction false} SlotOrderIsTotal(plan: seq<CandidateAssignment>)
    requires forall i, j | 0 <= i < j < |plan| :: plan[i].slotId != plan[j].slotId
    ensures TotalOn(AssignmentLeq, Members(plan))
  {
    forall x, y | x in Members(plan) && y in Members(plan)
      ensures AssignmentLeq(x, y) || AssignmentLeq(y, x)
      ensures AssignmentLeq(x, y) && AssignmentLeq(y, x) ==> x == y
    {
      TextLeqTotal(x.slotId, y.slotId);
    }
    forall x, y, z | x in Members(plan) && y in Members(plan) && z in Members(plan)
                     && AssignmentLeq(x, y) && AssignmentLeq(y, z)
      ensures AssignmentLeq(x, z)
    {
      TextLeqTransitive(x.slotId, y.slotId, z.slotId);
    }
  }

  lemma SortedPlanKeeps(slots: seq<RoleSlot>, bids: seq<BidRecord>, plan: seq<CandidateAssignment>)
    requires PerfectPlan(slots, bids, plan)
    ensures var ordered := Sort(plan, AssignmentLeq);
            && PerfectPlan(slots, bids, ordered) && IsSorted(ordered, AssignmentLeq)
            && |ordered| == |plan| && forall a :: a in ordered <==> a in plan
  {
    hide IsEdge, Sort;
    var ordered := Sort(plan, AssignmentLeq);
    SortKeeps(plan, AssignmentLeq);
    SlotOrderIsTotal(plan);
    assert |ordered| == |multiset(ordered)| == |multiset(plan)| == |plan|;
    assert forall a :: a in ordered <==> a in Members(ordered);
    assert forall a :: a in plan <==> a in Members(plan);
    forall i | 0 <= i < |ordered|
      ensures ordered[i] in plan
    {
      assert ordered[i] in ordered;
    }
    forall id | id in SlotIds(slots)
      ensures exists i :: 0 <= i < |ordered| && ordered[i].slotId == id
    {
      var i :| 0 <= i < |plan| && plan[i].slotId == id;
      assert plan[i] in ordered;
    }
    NoDuplicatesByCount(plan, ordered);
  }

  lemma CommittedFollows(input: PlanningInput, ordered: seq<CandidateAssignment>, plan: seq<CommittedAssignment>)
    requires CommitsAll(input, ordered, plan)
    requires forall a | a in ordered ::
               SlotOf(input.slots, a.slotId).Some? && TemplateLegal(SlotOf(input.slots, a.slotId).value)
    ensures |plan| == |ordered|
    ensures forall i | 0 <= i < |plan| ::
              && FollowsTemplate(input, plan[i])
              && CandidateAssignment(plan[i].slotId, plan[i].deviceId, plan[i].supportingBid) == ordered[i]
  {
    hide SlotOf, TemplateLegal, FollowsTemplate;
    forall i | 0 <= i < |plan|
      ensures FollowsTemplate(input, plan[i])
      ensures CandidateAssignment(plan[i].slotId, plan[i].deviceId, plan[i].supportingBid) == ordered[i]
    {
      assert ordered[i] in ordered;
      CommittedFollowsTemplate(input, ordered[i]);
      CommittedIsItsAssignment(input, ordered[i]);
    }
  }

  lemma CandidateSlotsAreLegal(c: Candidate, input: PlanningInput)
    requires IsAcceptable(c, input)
    ensures forall a | a in c.assignments ::
              SlotOf(input.slots, a.slotId).Some? && TemplateLegal(SlotOf(input.slots, a.slotId).value)
  {
    hide IsViolation, SlotOf, TemplateLegal;
    forall a | a in c.assignments
      ensures SlotOf(input.slots, a.slotId).Some?
    {
      KnownSlot(c, input, a);
    }
  }

  lemma ComplaintIsFirst(c: Candidate, input: PlanningInput, v: Violation, n: nat)
    requires IsViolationFree(c, input)
    requires var ordered := Sort(c.assignments, AssignmentLeq);
             && n < |ordered| && IsComplaintAt(input, ordered[n], v)
             && forall m | 0 <= m < n :: IsLegalAt(input, ordered[m])
    ensures IsFirstComplaint(input, c.assignments, v)
  {
    hide IsViolationFree, PerfectPlan, IsComplaintAt, IsLegalAt, Sort, AssignmentLeq, IsSorted;
    ViolationFreeIsPerfect(c, input);
    SortedPlanKeeps(input.slots, input.bids, c.assignments);
    var ordered := Sort(c.assignments, AssignmentLeq);
    forall b | b in c.assignments
      ensures TextLeq(ordered[n].slotId, b.slotId) || IsLegalAt(input, b)
    {
      var m :| 0 <= m < |ordered| && ordered[m] == b;
      if m >= n {
        LaterSlot(ordered, n, m);
      }
    }
    assert ordered[n] in c.assignments;
  }

  lemma LaterSlot(ordered: seq<CandidateAssignment>, n: nat, m: nat)
    requires IsSorted(ordered, AssignmentLeq) && n <= m < |ordered|
    ensures TextLeq(ordered[n].slotId, ordered[m].slotId)
  {
    TextLeqTotal(ordered[n].slotId, ordered[n].slotId);
    assert n < m ==> AssignmentLeq(ordered[n], ordered[m]);
  }

  /** Whatever is committed for an acceptable candidate is a sound plan and the candidate's
      own. */
  lemma CommittedIsSound(c: Candidate, input: PlanningInput, plan: seq<CommittedAssignment>)
    requires IsAcceptable(c, input) && CommitsAll(input, Sort(c.assignments, AssignmentLeq), plan)
    ensures IsSoundPlan(input, plan) && CarriesOut(c.assignments, plan)
  {
    hide IsEdge, Sort, SlotOf, TemplateLegal, FollowsTemplate, CommitsAll, IsAcceptable, PerfectPlan, IsSoundPlan,
      CarriesOut, IsSorted;
    AcceptedIsPerfect(c, input);
    SortedPlanKeeps(input.slots, input.bids, c.assignments);
    CandidateSlotsAreLegal(c, input);
    var ordered := Sort(c.assignments, AssignmentLeq);
    CommittedFollows(input, ordered, plan);
    CommittedCarriesOut(c.assignments, ordered, plan);
    forall i, j | 0 <= i < j < |plan|
      ensures TextLeq(plan[i].slotId, plan[j].slotId)
    {
      LaterSlot(ordered, i, j);
    }
    CommittedKeepsPlan(input, ordered, plan);
  }

  lemma CommittedCarriesOut(
      assignments: seq<CandidateAssignment>, ordered: seq<CandidateAssignment>, plan: seq<CommittedAssignment>)
    requires |plan| == |ordered| == |assignments| && forall a :: a in ordered <==> a in assignments
    requires forall i | 0 <= i < |plan| ::
               CandidateAssignment(plan[i].slotId, plan[i].deviceId, plan[i].supportingBid) == ordered[i]
    ensures CarriesOut(assignments, plan)
  {
    forall a | a in assignments
      ensures exists i :: 0 <= i < |plan|
                          && CandidateAssignment(plan[i].slotId, plan[i].deviceId, plan[i].supportingBid) == a
    {
      var i :| 0 <= i < |ordered| && ordered[i] == a;
      assert CandidateAssignment(plan[i].slotId, plan[i].deviceId, plan[i].supportingBid) == a;
    }
  }

  lemma CommittedKeepsPlan(input: PlanningInput, ordered: seq<CandidateAssignment>, plan: seq<CommittedAssignment>)
    requires PerfectPlan(input.slots, input.bids, ordered) && |plan| == |ordered|
    requires forall i | 0 <= i < |plan| ::
               CandidateAssignment(plan[i].slotId, plan[i].deviceId, plan[i].supportingBid) == ordered[i]
    requires forall i, j | 0 <= i < j < |plan| :: TextLeq(plan[i].slotId, plan[j].slotId)
    requires forall i | 0 <= i < |plan| :: FollowsTemplate(input, plan[i])
    ensures IsSoundPlan(input, plan)
  {
    hide IsEdge, FollowsTemplate, SlotIds;
    forall id | id in SlotIds(input.slots)
      ensures exists i :: 0 <= i < |plan| && plan[i].slotId == id
    {
      var i :| 0 <= i < |ordered| && ordered[i].slotId == id;
      assert plan[i].slotId == id;
    }
  }

  lemma CommittedIsItsAssignment(input: PlanningInput, a: CandidateAssignment)
    requires SlotOf(input.slots, a.slotId).Some?
    ensures var p := Commit(input, a, SlotOf(input.slots, a.slotId).value);
            CandidateAssignment(p.slotId, p.deviceId, p.supportingBid) == a
  {
  }

  /** What the validator accepts, in full: the header is current, the plan is perfect, and
      each of its seats still stands. */
  lemma AcceptanceMeans(c: Candidate, input: PlanningInput)
    requires DistinctBids(input.bids)
    ensures IsAcceptable(c, input) <==>
            && c.taskId == input.taskId && c.revision == input.revision && c.epoch == input.epoch
            && c.fingerprint == input.fingerprint
            && PerfectPlan(input.slots, input.bids, c.assignments)
            && SeatsStand(input, c.assignments)
  {
    hide PerfectPlan, SeatsStand, DistinctBids;
    if IsAcceptable(c, input) {
      assert !IsViolation(c, input, TaskIdMismatch) && !IsViolation(c, input, TaskRevisionMismatch);
      assert !IsViolation(c, input, EpochMismatch) && !IsViolation(c, input, FingerprintMismatch);
      AcceptedIsPerfect(c, input);
    }
    if PerfectPlan(input.slots, input.bids, c.assignments) {
      PerfectIsAcceptedWhenSeatsStand(input, c.assignments);
    }
  }

  /** Hence, where no slot id repeats, an accepted plan witnesses a team. */
  lemma PerfectPlanIsTeam(slots: seq<RoleSlot>, bids: seq<BidRecord>, plan: seq<CandidateAssignment>)
    requires DistinctSlots(slots) && PerfectPlan(slots, bids, plan)
    ensures TeamExists(slots, bids)
  {
    hide IsEdge, CanFill;
    forall i | 0 <= i < |slots|
      ensures slots[i].slotId in SlotIds(slots)
    {
    }
    var team := map i | 0 <= i < |slots| :: plan[PositionOf(plan, slots[i].slotId)].deviceId;
    forall i | 0 <= i < |slots|
      ensures CanFill(bids, slots[i].slotId, team[i])
    {
      EdgeFills(bids, plan[PositionOf(plan, slots[i].slotId)]);
    }
    forall a, b | a in team && b in team && team[a] == team[b]
      ensures a == b
    {
      assert PositionOf(plan, slots[a].slotId) == PositionOf(plan, slots[b].slotId);
    }
    assert IsTeam(slots, bids, team);
  }

  lemma EdgeFills(bids: seq<BidRecord>, a: CandidateAssignment)
    requires IsEdge(bids, a.slotId, Edge(a.deviceId, a.supportingBid))
    ensures CanFill(bids, a.slotId, a.deviceId)
  {
  }

  ghost function PositionOf(plan: seq<CandidateAssignment>, slot: string): (i: nat)
    requires exists i :: 0 <= i < |plan| && plan[i].slotId == slot
    ensures i < |plan| && plan[i].slotId == slot
  {
    var i :| 0 <= i < |plan| && plan[i].slotId == slot;
    i
  }

  predicate DistinctBids(bids: seq<BidRecord>) {
    forall i, j | 0 <= i < j < |bids| :: bids[i].eventId != bids[j].eventId
  }

  /** The fresh snapshot of a device still satisfies the slot. */
  predicate StillFits(input: PlanningInput, device: string, slot: RoleSlot) {
    && SnapshotAvailable(input, device)
    && var s := SnapshotOf(input.snapshots, device).value;
       && HasCapabilities(s, slot)
       && slot.verb in s.verbs
       && (s.busy ==> s.busyTask == Some(input.taskId))
       && s.battery >= input.requirement.minBattery
       && s.endurance >= input.requirement.minEndurance
       && SpaceSatisfied(input.requirement.space, s)
  }

  /** Nothing has changed since the bids: every bidder still fits every slot it
      accepted, and the slot templates are legal. */
  predicate BidsAreFresh(input: PlanningInput) {
    && (forall b, slot | b in input.bids && slot in input.slots && Accepts(b, slot.slotId) ::
          StillFits(input, b.deviceId, slot))
    && (forall slot | slot in input.slots :: TemplateLegal(slot))
  }

  lemma {:induction false} OwnerCountOne(plan: seq<CandidateAssignment>, slot: string, k: nat)
    requires k < |plan| && plan[k].slotId == slot
    requires forall i, j | 0 <= i < j < |plan| :: plan[i].slotId != plan[j].slotId
    ensures OwnerCount(plan, slot) == 1
  {
    var n := |plan| - 1;
    var init := plan[..n];
    OwnerCountMeaning(init, slot);
    if k < n {
      OwnerCountOne(init, slot, k);
    }
  }

  lemma {:induction false} DeviceCountOne(plan: seq<CandidateAssignment>, device: string)
    requires forall i, j | 0 <= i < j < |plan| :: plan[i].deviceId != plan[j].deviceId
    ensures DeviceCount(plan, device) <= 1
  {
    if plan != [] {
      var n := |plan| - 1;
      var init := plan[..n];
      DeviceCountOne(init, device);
      DeviceCountMeaning(init, device);
      if plan[n].deviceId == device {
        assert forall a | a in init :: a.deviceId != device;
      }
    }
  }

  function FallbackCandidate(input: PlanningInput, plan: seq<CandidateAssignment>): Candidate {
    Candidate(input.taskId, input.revision, input.epoch, plan, input.fingerprint)
  }

  /** A perfect plan carried by the current header breaks no structural rule, and
      neither a bid nor an offer behind it is invalid: only a snapshot that went
      stale can speak against it. */
  lemma PerfectIsStructurallySound(input: PlanningInput, plan: seq<CandidateAssignment>, v: Violation)
    requires DistinctBids(input.bids) && PerfectPlan(input.slots, input.bids, plan)
    requires IsViolation(FallbackCandidate(input, plan), input, v)
    ensures !IsStructural(v) && !v.SupportingBidInvalid? && !v.OwnerDidNotAcceptSlot?
  {
    var c := FallbackCandidate(input, plan);
    match v
    case SlotOwnerCountInvalid(slot) =>
      var k := PositionOf(plan, slot);
      OwnerCountOne(plan, slot, k);
    case UnknownSlot(slot) =>
    case DeviceAssignedMultipleSlots(device) =>
      DeviceCountOne(plan, device);
    case SupportingBidInvalid(a) =>
      PerfectPlanBids(input, plan, a);
    case OwnerDidNotAcceptSlot(a) =>
      PerfectPlanBids(input, plan, a);
    case _ =>
  }

  lemma PerfectPlanBids(input: PlanningInput, plan: seq<CandidateAssignment>, a: CandidateAssignment)
    requires DistinctBids(input.bids) && PerfectPlan(input.slots, input.bids, plan) && a in plan
    ensures BidSupports(input, a) && Accepts(BidOf(input.bids, a.supportingBid).value, a.slotId)
  {
    var i :| 0 <= i < |plan| && plan[i] == a;
    assert IsEdge(input.bids, a.slotId, Edge(a.deviceId, a.supportingBid));
    var record :| record in input.bids && Accepts(record, a.slotId) && record.deviceId == a.deviceId
                  && record.eventId == a.supportingBid;
    var found := BidOf(input.bids, a.supportingBid).value;
    var m :| 0 <= m < |input.bids| && input.bids[m] == record;
    var n :| 0 <= n < |input.bids| && input.bids[n] == found;
    assert m == n;
  }

  /** What decides about a perfect plan: every device still fits its slot, and the
      slot's template is legal. */
  predicate SeatsStand(input: PlanningInput, plan: seq<CandidateAssignment>) {
    forall a | a in plan ::
      && SlotOf(input.slots, a.slotId).Some?
      && StillFits(input, a.deviceId, SlotOf(input.slots, a.slotId).value)
      && TemplateLegal(SlotOf(input.slots, a.slotId).value)
  }

  lemma MisfitIsViolation(input: PlanningInput, plan: seq<CandidateAssignment>, a: CandidateAssignment)
    requires DistinctBids(input.bids) && PerfectPlan(input.slots, input.bids, plan) && a in plan
    requires SlotOf(input.slots, a.slotId).Some? && !StillFits(input, a.deviceId, SlotOf(input.slots, a.slotId).value)
    ensures exists v :: IsViolation(FallbackCandidate(input, plan), input, v)
  {
    hide PerfectPlan, DistinctBids, BidOf, SnapshotOf, SlotOf, SpaceSatisfied, Accepts;
    PerfectPlanBids(input, plan, a);
    var c := FallbackCandidate(input, plan);
    var slot := SlotOf(input.slots, a.slotId).value;
    if !SnapshotAvailable(input, a.deviceId) {
      assert IsViolation(c, input, OwnerNoLongerEligible(a));
    } else {
      var snapshot := SnapshotOf(input.snapshots, a.deviceId).value;
      if !HasCapabilities(snapshot, slot) {
        assert IsViolation(c, input, OwnerCapabilityStale(a));
      } else if slot.verb !in snapshot.verbs {
        assert IsViolation(c, input, OwnerActionVerbStale(a));
      } else if snapshot.busy && snapshot.busyTask != Some(input.taskId) {
        assert IsViolation(c, input, OwnerBusy(a));
      } else if snapshot.battery < input.requirement.minBattery {
        assert IsViolation(c, input, OwnerBatteryStale(a));
      } else if snapshot.endurance < input.requirement.minEndurance {
        assert IsViolation(c, input, OwnerEnduranceStale(a));
      } else {
        assert IsViolation(c, input, OwnerSpaceConstraintStale(a));
      }
    }
  }

  lemma StandingSeatIsNoViolation(input: PlanningInput, plan: seq<CandidateAssignment>, v: Violation)
    requires DistinctBids(input.bids) && PerfectPlan(input.slots, input.bids, plan) && SeatsStand(input, plan)
    requires !IsStructural(v) && v.assignment in plan
    ensures !IsAssignmentViolation(input, v)
  {
    hide PerfectPlan, DistinctBids, BidOf, SnapshotOf, SlotOf, SpaceSatisfied, Accepts;
    PerfectPlanBids(input, plan, v.assignment);
  }

  /** The exact condition for a perfect plan to be accepted: each of its own seats
      still stands, whatever has become of the other bids. */
  lemma PerfectIsAcceptedWhenSeatsStand(input: PlanningInput, plan: seq<CandidateAssignment>)
    requires DistinctBids(input.bids) && PerfectPlan(input.slots, input.bids, plan)
    ensures IsAcceptable(FallbackCandidate(input, plan), input) <==> SeatsStand(input, plan)
  {
    hide PerfectPlan, DistinctBids, StillFits, IsViolation;
    var c := FallbackCandidate(input, plan);
    forall a | a in plan
      ensures SlotOf(input.slots, a.slotId).Some?
    {
      SeatHasSlot(input, plan, a);
    }
    if SeatsStand(input, plan) {
      forall v
        ensures !IsViolation(c, input, v)
      {
        StandingPlanHasNoViolation(input, plan, v);
      }
    } else {
      var a :| a in plan && !(SlotOf(input.slots, a.slotId).Some?
                              && StillFits(input, a.deviceId, SlotOf(input.slots, a.slotId).value)
                              && TemplateLegal(SlotOf(input.slots, a.slotId).value));
      if !StillFits(input, a.deviceId, SlotOf(input.slots, a.slotId).value) {
        MisfitIsViolation(input, plan, a);
      }
    }
  }

  lemma SeatHasSlot(input: PlanningInput, plan: seq<CandidateAssignment>, a: CandidateAssignment)
    requires PerfectPlan(input.slots, input.bids, plan) && a in plan
    ensures SlotOf(input.slots, a.slotId).Some?
  {
    var i :| 0 <= i < |plan| && plan[i] == a;
  }

  lemma StandingPlanHasNoViolation(input: PlanningInput, plan: seq<CandidateAssignment>, v: Violation)
    requires DistinctBids(input.bids) && PerfectPlan(input.slots, input.bids, plan) && SeatsStand(input, plan)
    ensures !IsViolation(FallbackCandidate(input, plan), input, v)
  {
    hide PerfectPlan, DistinctBids, SeatsStand, IsAssignmentViolation;
    if IsStructural(v) {
      if IsViolation(FallbackCandidate(input, plan), input, v) {
        PerfectIsStructurallySound(input, plan, v);
      }
    } else if v.assignment in plan {
      StandingSeatIsNoViolation(input, plan, v);
    }
  }

  /** With fresh bids every seat stands. */
  lemma FreshSeatsStand(input: PlanningInput, plan: seq<CandidateAssignment>)
    requires DistinctBids(input.bids) && BidsAreFresh(input) && PerfectPlan(input.slots, input.bids, plan)
    ensures SeatsStand(input, plan)
  {
    hide PerfectPlan, StillFits, TemplateLegal, Accepts;
    forall a | a in plan
      ensures SlotOf(input.slots, a.slotId).Some?
      ensures StillFits(input, a.deviceId, SlotOf(input.slots, a.slotId).value)
      ensures TemplateLegal(SlotOf(input.slots, a.slotId).value)
    {
      SeatHasSlot(input, plan, a);
      PerfectPlanBids(input, plan, a);
    }
  }

  lemma PerfectIsAcceptedWhenFresh(input: PlanningInput, plan: seq<CandidateAssignment>)
    requires DistinctBids(input.bids) && BidsAreFresh(input)
    requires PerfectPlan(input.slots, input.bids, plan)
    ensures IsAcceptable(FallbackCandidate(input, plan), input)
  {
    hide IsAcceptable, PerfectPlan, BidsAreFresh;
    FreshSeatsStand(input, plan);
    PerfectIsAcceptedWhenSeatsStand(input, plan);
  }

  /** Where a slot id repeats, whatever the matching proposes is refused: it assigns
      the slot once for every position, and the validator wants one owner. */
  lemma RepeatedSlotIsRefused(input: PlanningInput, plan: seq<CandidateAssignment>)
    requires IsProposed(input.slots, input.bids, plan) && !DistinctSlots(input.slots)
    ensures !IsAcceptable(FallbackCandidate(input, plan), input)
  {
    hide FindTeam, Ordered;
    OrderedKeeps(input.slots);
    var ordered := Ordered(input.slots);
    var i, j :| 0 <= i < j < |ordered| && ordered[i].slotId == ordered[j].slotId;
    var id := ordered[i].slotId;
    assert plan[i].slotId == plan[j].slotId == id;
    OwnerCountMeaning(plan, id);
    assert ordered[i] in ordered && id in SlotIds(ordered);
    assert IsViolation(FallbackCandidate(input, plan), input, SlotOwnerCountInvalid(id));
  }

  // ---------------------------------------------------------------------
  // Closing a round
  // ---------------------------------------------------------------------

  datatype FailureReason = RoleSlotsRequired | ExecutionChannelDown | NoFeasibleTeam

  datatype RoundOutcome =
    | Superseded
    | Failed(reason: FailureReason, related: seq<string>)
    | Committed(plan: AssignmentPlan)

  predicate OnlyChannelFailures(bids: seq<BidRecord>) {
    && bids != []
    && forall b | b in bids :: forall o | o in b.offers ::
         !o.accepts && o.reasonCodes == [RejectCode.ExecutionChannelUnavailable]
  }

  function BidIds(bids: seq<BidRecord>): (r: seq<string>)
    ensures |r| == |bids| && forall i | 0 <= i < |bids| :: r[i] == bids[i].eventId
  {
    if bids == [] then [] else [bids[0].eventId] + BidIds(bids[1..])
  }

  /** The candidate that is still worth validating: the policy's, unless it threw
      or the input changed under it. */
  function SurvivingProposal(before: PlanningInput, current: PlanningInput, proposal: Option<Candidate>)
    : Option<Candidate>
  {
    if current.fingerprint != before.fingerprint then None else proposal
  }

  /** The plan of the matching is there and acceptable. Where a slot id repeats none is. */
  ghost predicate IsFallback(current: PlanningInput) {
    && DistinctSlots(current.slots) && BestPlan(current.slots, current.bids).Some?
    && IsAcceptable(FallbackCandidate(current, BestPlan(current.slots, current.bids).value), current)
  }

  /** Without a surviving proposal, the round commits exactly when the matching finds a
      plan and each of its seats still stands. */
  lemma FallbackDecides(current: PlanningInput)
    requires DistinctBids(current.bids)
    ensures IsFallback(current) <==>
              && DistinctSlots(current.slots)
              && BestPlan(current.slots, current.bids).Some?
              && SeatsStand(current, BestPlan(current.slots, current.bids).value)
  {
    hide IsAcceptable, BestPlan, SeatsStand, PerfectPlan, TeamExists;
    if DistinctSlots(current.slots) {
      BestPlanIsPerfect(current.slots, current.bids);
      if BestPlan(current.slots, current.bids).Some? {
        PerfectIsAcceptedWhenSeatsStand(current, BestPlan(current.slots, current.bids).value);
      }
    }
  }

  const FIT := BidMetrics(true, true, true, true, 1.0, 1.0, true, true)
  const WATCH := RoleSlot("watch", [], ["hover"], "hover", true, 0)

  function WillingBid(id: string, device: string): BidRecord {
    BidRecord(id, device, [BidOffer("watch", true, FIT, [])])
  }

  function ReadySnapshot(device: string): Snapshot {
    Snapshot(device, "drone", true, true, false, None, 1.0, 1.0, [], ["hover"], None, 0.0)
  }

  function WatchInput(device: string): PlanningInput {
    PlanningInput("patrol", 1, 1, Requirement(0.0, 0.0, []), [WATCH], [WillingBid("b1", "d1"), WillingBid("b2", "d2")],
                  [ReadySnapshot(device)], [], 0)
  }

  lemma SingleCounts(a: CandidateAssignment, name: string)
    ensures OwnerCount([a], name) == (if a.slotId == name then 1 else 0)
    ensures DeviceCount([a], name) <= 1
  {
    assert [a][..0] == [];
  }

  lemma WatchLookups(device: string, bid: string, other: string)
    requires (device == "d1" && bid == "b1") || (device == "d2" && bid == "b2")
    ensures BidOf(WatchInput(device).bids, bid) == Some(WillingBid(bid, device))
    ensures SnapshotOf(WatchInput(device).snapshots, other) ==
            if other == device then Some(ReadySnapshot(device)) else None
    ensures SlotOf([WATCH], "watch") == Some(WATCH) && SlotIds([WATCH]) == {"watch"}
  {
    var input := WatchInput(device);
    assert input.bids[..1] == [WillingBid("b1", "d1")] && input.snapshots[..0] == [];
    assert WATCH in [WATCH];
  }

  lemma WatchAssignmentStands(device: string, bid: string, v: Violation)
    requires (device == "d1" && bid == "b1") || (device == "d2" && bid == "b2")
    requires !IsStructural(v) && v.assignment == CandidateAssignment("watch", device, bid)
    ensures !IsAssignmentViolation(WatchInput(device), v)
  {
    hide BidOf, SnapshotOf, SlotOf;
    WatchLookups(device, bid, device);
  }

  lemma WatchHasNoViolation(device: string, bid: string, v: Violation)
    requires (device == "d1" && bid == "b1") || (device == "d2" && bid == "b2")
    ensures !IsViolation(FallbackCandidate(WatchInput(device), [CandidateAssignment("watch", device, bid)]),
                         WatchInput(device), v)
  {
    hide BidOf, SnapshotOf, SlotOf, OwnerCount, DeviceCount, IsAssignmentViolation;
    var a := CandidateAssignment("watch", device, bid);
    WatchLookups(device, bid, device);
    if v.SlotOwnerCountInvalid? {
      SingleCounts(a, v.slot);
    } else if v.DeviceAssignedMultipleSlots? {
      SingleCounts(a, v.device);
    } else if !IsStructural(v) && v.assignment == a {
      WatchAssignmentStands(device, bid, v);
    }
  }

  lemma WatchPlanIsAcceptable(device: string, bid: string)
    requires (device == "d1" && bid == "b1") || (device == "d2" && bid == "b2")
    ensures IsAcceptable(FallbackCandidate(WatchInput(device), [CandidateAssignment("watch", device, bid)]),
                         WatchInput(device))
  {
    hide IsViolation, SlotOf;
    WatchLookups(device, bid, device);
    forall v {
      WatchHasNoViolation(device, bid, v);
    }
  }

  lemma WatchTeamExists()
    ensures TeamExists(WatchInput("d1").slots, WatchInput("d1").bids)
  {
    hide PerfectPlan, TeamExists, IsAcceptable;
    var good := FallbackCandidate(WatchInput("d1"), [CandidateAssignment("watch", "d1", "b1")]);
    WatchPlanIsAcceptable("d1", "b1");
    AcceptedIsPerfect(good, WatchInput("d1"));
    PerfectPlanIsTeam(WatchInput("d1").slots, WatchInput("d1").bids, good.assignments);
  }

  /** The matching commits to one of the two willing devices. */
  lemma WatchIsMatched() returns (a: CandidateAssignment)
    ensures var plan := BestPlan([WATCH], WatchInput("d1").bids);
            plan.Some? && a in plan.value && PerfectPlan([WATCH], WatchInput("d1").bids, plan.value)
  {
    hide BestPlan, TeamExists, IsEdge;
    WatchTeamExists();
    BestPlanIsPerfect([WATCH], WatchInput("d1").bids);
    var plan := BestPlan([WATCH], WatchInput("d1").bids).value;
    WatchLookups("d1", "b1", "d1");
    var i :| 0 <= i < |plan| && plan[i].slotId == "watch";
    a := plan[i];
  }

  lemma GoneDeviceIsViolation(input: PlanningInput, plan: seq<CandidateAssignment>, a: CandidateAssignment)
    requires DistinctBids(input.bids) && PerfectPlan(input.slots, input.bids, plan) && a in plan
    requires SnapshotOf(input.snapshots, a.deviceId).None?
    ensures !IsAcceptable(FallbackCandidate(input, plan), input)
  {
    PerfectPlanBids(input, plan, a);
    assert IsViolation(FallbackCandidate(input, plan), input, OwnerNoLongerEligible(a));
  }

  /** Without fresh bids a team may go unused: the matching commits to one of two
      willing devices before anyone looks at their snapshots, and when that one has
      gone, the round fails although the other would have been accepted. */
  lemma StaleBidHidesATeam() returns (input: PlanningInput, good: Candidate)
    ensures DistinctSlots(input.slots) && DistinctBids(input.bids) && input.slots != []
    ensures IsAcceptable(good, input)
    ensures TeamExists(input.slots, input.bids)
    ensures !IsFallback(input)
  {
    hide BestPlan, IsAcceptable, TeamExists, PerfectPlan, BidOf, SnapshotOf, SlotOf;
    WatchTeamExists();
    var a := WatchIsMatched();
    var device, bid := if a.deviceId == "d1" then "d2" else "d1", if a.deviceId == "d1" then "b2" else "b1";
    input := WatchInput(device);
    good := FallbackCandidate(input, [CandidateAssignment("watch", device, bid)]);
    WatchPlanIsAcceptable(device, bid);
    WatchLookups(device, bid, a.deviceId);
    GoneDeviceIsViolation(input, BestPlan(input.slots, input.bids).value, a);
  }

  /** Closes a bid round. The policy is arbitrary: None stands for one that threw.
      A committed plan is a sound one for the fresh input, and it is the policy's when that
      was made for this input and is acceptable, otherwise the matching's; and whenever the
      bids are still fresh and no slot id repeats, the round ends in a plan exactly when a
      team exists and in a failure exactly when none does, whatever the policy proposed. */
  method CloseBidRound(before: Option<PlanningInput>, proposal: Option<Candidate>, current: Option<PlanningInput>)
    returns (outcome: RoundOutcome)
    ensures outcome.Superseded? <==> before.None? || (before.value.slots != [] && current.None?)
    ensures before.Some? && current.Some? && (before.value.slots == [] || current.value.slots == []) ==>
              outcome == Failed(RoleSlotsRequired, [])
    ensures outcome.Committed? ==>
              && before.Some? && current.Some?
              && outcome.plan.taskId == current.value.taskId && outcome.plan.revision == current.value.revision
              && outcome.plan.epoch == current.value.epoch
              && outcome.plan.evidenceRefs == current.value.evidenceRefs
              && outcome.plan.fingerprint == current.value.fingerprint
              && (DistinctSlots(current.value.slots) ==> TeamExists(current.value.slots, current.value.bids))
              && IsSoundPlan(current.value, outcome.plan.assignments)
    ensures before.Some? && current.Some? && before.value.slots != [] && current.value.slots != [] ==>
              var input := current.value;
              if proposal.Some? && before.value.fingerprint == input.fingerprint
                 && IsAcceptable(proposal.value, input) then
                outcome.Committed? && CarriesOut(proposal.value.assignments, outcome.plan.assignments)
              else
                (outcome.Committed? <==> IsFallback(input))
                && (outcome.Committed? ==>
                      CarriesOut(BestPlan(input.slots, input.bids).value, outcome.plan.assignments))
    ensures before.Some? && current.Some? && before.value.slots != [] && current.value.slots != []
            && DistinctSlots(current.value.slots) && DistinctBids(current.value.bids) && BidsAreFresh(current.value) ==>
              && (outcome.Committed? <==> TeamExists(current.value.slots, current.value.bids))
              && (outcome.Failed? <==> !TeamExists(current.value.slots, current.value.bids))
    ensures before.Some? && current.Some? && before.value.slots != [] && current.value.slots != []
            && outcome.Failed? ==>
              var bids := current.value.bids;
              && |outcome.related| == |bids|
              && (forall i | 0 <= i < |bids| :: outcome.related[i] == bids[i].eventId)
              && outcome.reason ==
                 (if bids != [] && forall b, o | b in bids && o in b.offers ::
                       !o.accepts && o.reasonCodes == [RejectCode.ExecutionChannelUnavailable]
                  then ExecutionChannelDown else NoFeasibleTeam)
  {
    hide IsAcceptable, PerfectPlan, TeamExists, BestPlan, BidsAreFresh, IsProposed, IsSoundPlan, CarriesOut;
    if before.None? {
      return Superseded;
    }
    if before.value.slots == [] {
      return Failed(RoleSlotsRequired, []);
    }
    if current.None? {
      return Superseded;
    }
    var input := current.value;
    if input.slots == [] {
      return Failed(RoleSlotsRequired, []);
    }
    var candidate := SurvivingProposal(before.value, input, proposal);
    var validation := InvalidPlan([]);
    if candidate.Some? {
      validation := Validate(candidate.value, input);
      if validation.ValidPlan? {
        AcceptedIsPerfect(candidate.value, input);
        if DistinctSlots(input.slots) {
          PerfectPlanIsTeam(input.slots, input.bids, candidate.value.assignments);
        }
        return Committed(validation.plan);
      }
    }
    var plan := DeterministicMaximumMatching(input.slots, input.bids);
    if plan.Some? {
      validation := Validate(FallbackCandidate(input, plan.value), input);
      if !DistinctSlots(input.slots) {
        RepeatedSlotIsRefused(input, plan.value);
      } else {
        BestPlanIsPerfect(input.slots, input.bids);
        if DistinctBids(input.bids) && BidsAreFresh(input) {
          PerfectIsAcceptedWhenFresh(input, plan.value);
        }
      }
      if validation.ValidPlan? {
        return Committed(validation.plan);
      }
    }
    outcome := Failed(if OnlyChannelFailures(input.bids) then ExecutionChannelDown else NoFeasibleTeam,
                      BidIds(input.bids));
  }
}
