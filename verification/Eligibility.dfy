/** What a device offers for a slot, and how the offer agrees with the check of the plan that
    is later built on it. */
module Eligibility {
  import opened Events
  import opened Matching
  import opened Planning

  /** Whether a channel through which the device could act was open when it was last asked. */
  datatype ExecutionAvailability = ExecutionAvailability(
    deviceId: string, verb: string, available: bool, checkedAt: real)

  /** The device meets what the slot and the task ask for. */
  predicate IsSuitable(taskId: string, requirement: Requirement, slot: RoleSlot, s: Snapshot) {
    && s.online && s.healthy
    && (forall c | c in slot.requiredCapabilities :: c in s.capabilities)
    && slot.verb in s.verbs
    && (s.busy ==> s.busyTask == Some(taskId))
    && requirement.minBattery <= s.battery && requirement.minEndurance <= s.endurance
    && SpaceSatisfied(requirement.space, s)
  }

  /** The check of a plan looks for the same: on the snapshot an offer was made from, it finds
      that the device fits exactly when it was suitable. */
  lemma SuitableDevicesFit(input: PlanningInput, slot: RoleSlot, device: string)
    ensures StillFits(input, device, slot) <==>
            var s := SnapshotOf(input.snapshots, device);
            s.Some? && IsSuitable(input.taskId, input.requirement, slot, s.value)
  {
    hide SpaceSatisfied;
  }

  /** The first entry for a device and verb. */
  function AvailabilityOf(list: seq<ExecutionAvailability>, device: string, verb: string)
    : (r: Option<ExecutionAvailability>)
    ensures r.Some? ==> r.value in list && r.value.deviceId == device && r.value.verb == verb
    ensures r.None? ==> forall a | a in list :: a.deviceId != device || a.verb != verb
  {
    if list == [] then None
    else if list[0].deviceId == device && list[0].verb == verb then Some(list[0])
    else AvailabilityOf(list[1..], device, verb)
  }

  class EligibilityBidEngine {
    const agentStateTtl: real
    const executionAvailabilityTtl: real

    constructor (agentStateTtl: real, executionAvailabilityTtl: real)
      ensures this.agentStateTtl == agentStateTtl && this.executionAvailabilityTtl == executionAvailabilityTtl
    {
      this.agentStateTtl := agentStateTtl;
      this.executionAvailabilityTtl := executionAvailabilityTtl;
    }

    predicate StateIsFresh(s: Snapshot, now: real) {
      now - s.updatedAt <= agentStateTtl
    }

    /** The channel was found open, and not too long ago. */
    predicate ChannelIsOpen(list: seq<ExecutionAvailability>, s: Snapshot, slot: RoleSlot, now: real) {
      var found := AvailabilityOf(list, s.deviceId, slot.verb);
      found.Some? && found.value.available && now - found.value.checkedAt <= executionAvailabilityTtl
    }

    /** Accepts exactly for a suitable device with a fresh state and an open channel, gives a
        reason for every other offer, and gives the closed channel as the only one exactly
        when nothing else is missing. */
    method EvaluateSlot(taskId: string, requirement: Requirement, slot: RoleSlot, snapshot: Snapshot,
                        availabilities: seq<ExecutionAvailability>, now: real)
      returns (offer: BidOffer)
      ensures offer.slotId == slot.slotId && (offer.accepts <==> offer.metrics.Eligible())
      ensures offer.accepts <==>
              && IsSuitable(taskId, requirement, slot, snapshot) && StateIsFresh(snapshot, now)
              && ChannelIsOpen(availabilities, snapshot, slot, now)
      ensures offer.accepts <==> offer.reasonCodes == []
      ensures offer.reasonCodes == [ExecutionChannelUnavailable] <==>
              && IsSuitable(taskId, requirement, slot, snapshot) && StateIsFresh(snapshot, now)
              && !ChannelIsOpen(availabilities, snapshot, slot, now)
    {
      hide SpaceSatisfied;
      var capabilityMatch := HasCapabilities(snapshot, slot);
      var stateFresh := now - snapshot.updatedAt <= agentStateTtl;
      var online := snapshot.online && stateFresh;
      var idle := !snapshot.busy || snapshot.busyTask == Some(taskId);
      var availability := AvailabilityOf(availabilities, snapshot.deviceId, slot.verb);
      var actionSupported := slot.verb in snapshot.verbs;
      var executionAvailable := actionSupported && availability.Some? && availability.value.available
                                && now - availability.value.checkedAt <= executionAvailabilityTtl;
      var spaceOk := SpaceSatisfied(requirement.space, snapshot);
      var metrics := BidMetrics(capabilityMatch, online, snapshot.healthy, idle,
                                snapshot.battery - requirement.minBattery,
                                snapshot.endurance - requirement.minEndurance, spaceOk, executionAvailable);
      var reasons := DeviceReasons(metrics, stateFresh, snapshot.online);
      ghost var before := reasons;
      if !executionAvailable {
        if !actionSupported {
          reasons := reasons + [ActionVerbUnsupported];
        } else {
          reasons := reasons + [ExecutionChannelUnavailable];
        }
        assert reasons[..|before|] == before;
      }
      offer := BidOffer(slot.slotId, metrics.Eligible(), metrics, reasons);
    }

    /** The reasons that lie in the device itself. */
    method DeviceReasons(metrics: BidMetrics, stateFresh: bool, online: bool) returns (reasons: seq<RejectCode>)
      requires metrics.online == (online && stateFresh)
      ensures reasons == [] <==> metrics.(executionAvailable := true).Eligible()
      ensures ExecutionChannelUnavailable !in reasons && ActionVerbUnsupported !in reasons
      ensures !stateFresh ==> StaleAgentState in reasons && AgentOffline !in reasons
    {
      reasons := [];
      if !metrics.capabilityMatch {
        reasons := reasons + [CapabilityMismatch];
      }
      if !stateFresh {
        reasons := reasons + [StaleAgentState];
      } else if !online {
        reasons := reasons + [AgentOffline];
      }
      if !metrics.healthy {
        reasons := reasons + [AgentUnhealthy];
      }
      if !metrics.idle {
        reasons := reasons + [AgentBusy];
      }
      if metrics.batteryMargin < 0.0 {
        reasons := reasons + [BatteryBelowMinimum];
      }
      if metrics.enduranceMargin < 0.0 {
        reasons := reasons + [EnduranceBelowMinimum];
      }
      if !metrics.spaceSatisfied {
        reasons := reasons + [SpaceConstraintUnsatisfied];
      }
    }
  }
}
