/** The deterministic team matching: an augmenting-path search that fills every
    slot or reports that no team exists. */
module Matching {
  import opened Events
  import opened Ordering

  datatype BidMetrics = BidMetrics(
    capabilityMatch: bool, online: bool, healthy: bool, idle: bool, batteryMargin: real, enduranceMargin: real,
    spaceSatisfied: bool, executionAvailable: bool)
  {
    predicate Eligible() {
      capabilityMatch && online && healthy && idle && batteryMargin >= 0.0 && enduranceMargin >= 0.0
      && spaceSatisfied && executionAvailable
    }
  }

  datatype RejectCode =
    | CapabilityMismatch | StaleAgentState | AgentOffline | AgentUnhealthy | AgentBusy | BatteryBelowMinimum
    | EnduranceBelowMinimum | SpaceConstraintUnsatisfied | ActionVerbUnsupported | ExecutionChannelUnavailable
    | OtherCode(code: int)

  datatype BidOffer = BidOffer(slotId: string, accepts: bool, metrics: BidMetrics, reasonCodes: seq<RejectCode>)

  datatype BidRecord = BidRecord(eventId: string, deviceId: string, offers: seq<BidOffer>)

  datatype RoleSlot = RoleSlot(
    slotId: string, requiredCapabilities: seq<string>, allowedActions: seq<string>, verb: string,
    completesOnReceipt: bool, rest: int)

  datatype CandidateAssignment = CandidateAssignment(slotId: string, deviceId: string, supportingBid: string)

  /** A device that accepted a slot, with the bid that says so. */
  datatype Edge = Edge(device: string, bid: string)

  type Edges = map<string, seq<Edge>>

  // ---------------------------------------------------------------------
  // Who accepted what
  // ---------------------------------------------------------------------

  /** The first offer of a bid for the slot. */
  function OfferFor(offers: seq<BidOffer>, slot: string): (r: Option<BidOffer>)
    ensures r.Some? ==> r.value in offers && r.value.slotId == slot
  {
    if offers == [] then None
    else if offers[0].slotId == slot then Some(offers[0])
    else OfferFor(offers[1..], slot)
  }

  /** No earlier offer of the bid is for the slot. */
  lemma {:induction false} OfferIsFirst(offers: seq<BidOffer>, slot: string) returns (k: nat)
    requires OfferFor(offers, slot).Some?
    ensures k < |offers| && offers[k] == OfferFor(offers, slot).value
    ensures forall m | 0 <= m < k :: offers[m].slotId != slot
  {
    if offers[0].slotId == slot {
      k := 0;
    } else {
      k := OfferIsFirst(offers[1..], slot);
      assert forall m | 0 < m < k + 1 :: offers[m] == offers[1..][m - 1];
      k := k + 1;
    }
  }

  predicate Accepts(record: BidRecord, slot: string) {
    var offer := OfferFor(record.offers, slot);
    offer.Some? && offer.value.accepts && offer.value.metrics.Eligible()
  }

  function EdgeList(bids: seq<BidRecord>, slot: string): seq<Edge> {
    if bids == [] then []
    else
      (if Accepts(bids[0], slot) then [Edge(bids[0].deviceId, bids[0].eventId)] else [])
      + EdgeList(bids[1..], slot)
  }

  predicate EdgeLeq(a: Edge, b: Edge) {
    if a.device == b.device then TextLeq(a.bid, b.bid) else TextLeq(a.device, b.device)
  }

  predicate SlotLeq(a: RoleSlot, b: RoleSlot) {
    TextLeq(a.slotId, b.slotId)
  }

  function SortedEdges(bids: seq<BidRecord>, slot: string): seq<Edge> {
    Sort(Dedup(EdgeList(bids, slot)), EdgeLeq)
  }

  function SlotIds(slots: seq<RoleSlot>): set<string> {
    set s | s in slots :: s.slotId
  }

  function AllEdges(slots: seq<RoleSlot>, bids: seq<BidRecord>): Edges {
    map id | id in SlotIds(slots) :: SortedEdges(bids, id)
  }

  predicate IsEdge(bids: seq<BidRecord>, slot: string, e: Edge) {
    exists record | record in bids ::
      Accepts(record, slot) && record.deviceId == e.device && record.eventId == e.bid
  }

  lemma {:induction false} EdgeListMeaning(bids: seq<BidRecord>, slot: string, e: Edge)
    ensures e in EdgeList(bids, slot) <==> IsEdge(bids, slot, e)
  {
    if bids != [] {
      assert bids == [bids[0]] + bids[1..];
      EdgeListMeaning(bids[1..], slot, e);
    }
  }

  lemma EdgeLeqIsTotal(s: set<Edge>)
    ensures TotalOn(EdgeLeq, s)
  {
    forall x, y | x in s && y in s
      ensures EdgeLeq(x, y) || EdgeLeq(y, x)
      ensures EdgeLeq(x, y) && EdgeLeq(y, x) ==> x == y
    {
      TextLeqTotal(x.device, y.device);
      TextLeqTotal(x.bid, y.bid);
    }
    forall x, y, z | x in s && y in s && z in s && EdgeLeq(x, y) && EdgeLeq(y, z)
      ensures EdgeLeq(x, z)
    {
      TextLeqTotal(x.device, y.device);
      TextLeqTotal(y.device, z.device);
      if x.device == y.device == z.device {
        TextLeqTransitive(x.bid, y.bid, z.bid);
      } else {
        TextLeqTransitive(x.device, y.device, z.device);
        assert x.device != z.device || x.device == y.device;
      }
    }
  }

  lemma SortedEdgesMeaning(bids: seq<BidRecord>, slot: string, e: Edge)
    ensures e in SortedEdges(bids, slot) <==> IsEdge(bids, slot, e)
  {
    EdgeListMeaning(bids, slot, e);
    DedupKeeps(EdgeList(bids, slot));
    SortKeeps(Dedup(EdgeList(bids, slot)), EdgeLeq);
    assert e in SortedEdges(bids, slot) <==> e in Members(SortedEdges(bids, slot));
    assert e in EdgeList(bids, slot) <==> e in Members(EdgeList(bids, slot));
  }

  // ---------------------------------------------------------------------
  // The search, as a function
  // ---------------------------------------------------------------------

  /** The state of the search: which slot each device holds, and the bid chosen
      for every pair that was ever matched. */
  datatype Team = Team(slotOf: map<string, string>, bidOf: map<(string, string), string>)

  datatype Outcome = Outcome(found: bool, team: Team, visited: set<string>)

  function DevicesOf(list: seq<Edge>): set<string> {
    set e | e in list :: e.device
  }

  function AllDevices(edges: Edges): set<string> {
    set s, e | s in edges && e in edges[s] :: e.device
  }

  function Take(team: Team, device: string, slot: string, bid: string): Team {
    Team(team.slotOf[device := slot], team.bidOf[(slot, device) := bid])
  }

  function Neighbours(edges: Edges, slot: string): seq<Edge> {
    if slot in edges then edges[slot] else []
  }

  /** Tries the remaining edges of a slot, re-seating the holders of taken devices. */
  function TryEdges(edges: Edges, slot: string, todo: seq<Edge>, team: Team, visited: set<string>): (r: Outcome)
    requires DevicesOf(todo) <= AllDevices(edges)
    ensures visited <= r.visited <= visited + AllDevices(edges)
    decreases |AllDevices(edges) - visited|, 0, |todo|
  {
    if todo == [] then Outcome(false, team, visited)
    else
      var e := todo[0];
      assert e.device in DevicesOf(todo);
      assert DevicesOf(todo[1..]) <= DevicesOf(todo);
      if e.device in visited then TryEdges(edges, slot, todo[1..], team, visited)
      else
        var now := visited + {e.device};
        VisitShrinks(AllDevices(edges), visited, now, e.device);
        if e.device !in team.slotOf then Outcome(true, Take(team, e.device, slot, e.bid), now)
        else
          var inner := Augment(edges, team.slotOf[e.device], team, now);
          VisitShrinks(AllDevices(edges), visited, inner.visited, e.device);
          if inner.found then Outcome(true, Take(inner.team, e.device, slot, e.bid), inner.visited)
          else TryEdges(edges, slot, todo[1..], inner.team, inner.visited)
  }

  /** Finds a device for the slot along an augmenting path. */
  function Augment(edges: Edges, slot: string, team: Team, visited: set<string>): (r: Outcome)
    ensures visited <= r.visited <= visited + AllDevices(edges)
    decreases |AllDevices(edges) - visited|, 1, 0
  {
    assert DevicesOf(Neighbours(edges, slot)) <= AllDevices(edges);
    TryEdges(edges, slot, Neighbours(edges, slot), team, visited)
  }

  lemma VisitShrinks(all: set<string>, before: set<string>, after: set<string>, device: string)
    requires before <= after && device in all && device !in before && device in after
    ensures |all - after| < |all - before|
  {
    assert all - after <= (all - before) - {device};
    SubsetSize(all - after, (all - before) - {device});
  }

  lemma SubsetSize<T>(a: set<T>, b: set<T>)
    requires a <= b
    ensures |a| <= |b|
  {
    assert b == a + (b - a);
  }

  /** Seats the slots one after another; gives up at the first that fails. */
  function FillSlots(edges: Edges, slots: seq<RoleSlot>, team: Team): Option<Team> {
    if slots == [] then Some(team)
    else
      var r := Augment(edges, slots[0].slotId, team, {});
      if r.found then FillSlots(edges, slots[1..], r.team) else None
  }

  const NOBODY := Team(map[], map[])

  // ---------------------------------------------------------------------
  // The matching invariant
  // ---------------------------------------------------------------------

  /** Every held pair is an edge, with the bid that supports it. */
  ghost predicate Supported(edges: Edges, team: Team) {
    forall d | d in team.slotOf ::
      && (team.slotOf[d], d) in team.bidOf
      && Edge(d, team.bidOf[(team.slotOf[d], d)]) in Neighbours(edges, team.slotOf[d])
  }

  ghost predicate Injective<K(!new)>(m: map<K, string>) {
    forall a, b | a in m && b in m && m[a] == m[b] :: a == b
  }

  /** The devices that hold one of the slots. */
  function HoldersIn(m: map<string, string>, slots: set<string>): set<string> {
    set d | d in m && m[d] in slots
  }

  /** A failed search leaves the team alone, and every device it visited is held
      by a slot whose neighbours were all visited. */
  ghost predicate Exhausted(edges: Edges, team: Team, visited: set<string>, r: Outcome) {
    && r.team == team
    && forall d | d in r.visited - visited ::
         d in team.slotOf && DevicesOf(Neighbours(edges, team.slotOf[d])) <= r.visited
  }

  /** A successful search gives the slot one more holder and every other slot as many
      as before. Within the search a device counts for its former slot, which has
      already found a replacement, until it is moved. */
  ghost predicate Seated(edges: Edges, slot: string, team: Team, visited: set<string>, r: Outcome) {
    && Supported(edges, r.team)
    && KeepsVisited(team.slotOf, r.team.slotOf, visited)
    && OneMoreHolder(team.slotOf, r.team.slotOf, slot)
  }

  ghost predicate KeepsVisited(was: map<string, string>, after: map<string, string>, visited: set<string>) {
    && was.Keys <= after.Keys
    && forall d | d in visited :: (d in after <==> d in was) && (d in was ==> after[d] == was[d])
  }

  ghost predicate OneMoreHolder(was: map<string, string>, after: map<string, string>, slot: string) {
    forall slots: set<string> ::
      |HoldersIn(after, slots)| == |HoldersIn(was, slots)| + (if slot in slots then 1 else 0)
  }

  lemma {:induction false} TryEdgesMeaning(
      edges: Edges, slot: string, todo: seq<Edge>, team: Team, visited: set<string>)
    requires DevicesOf(todo) <= AllDevices(edges)
    requires forall e | e in todo :: e in Neighbours(edges, slot)
    requires Supported(edges, team)
    ensures var r := TryEdges(edges, slot, todo, team, visited);
            if r.found then Seated(edges, slot, team, visited, r)
            else Exhausted(edges, team, visited, r) && DevicesOf(todo) <= r.visited
    decreases |AllDevices(edges) - visited|, 0, |todo|
  {
    if todo != [] {
      var e := todo[0];
      assert todo == [e] + todo[1..];
      assert e.device in DevicesOf(todo);
      assert DevicesOf(todo) == {e.device} + DevicesOf(todo[1..]);
      if e.device in visited {
        TryEdgesMeaning(edges, slot, todo[1..], team, visited);
      } else {
        var now := visited + {e.device};
        VisitShrinks(AllDevices(edges), visited, now, e.device);
        if e.device !in team.slotOf {
          FreeDeviceSeats(edges, slot, e, team, visited);
        } else {
          var previous := team.slotOf[e.device];
          var inner := Augment(edges, previous, team, now);
          VisitShrinks(AllDevices(edges), visited, inner.visited, e.device);
          AugmentMeaning(edges, previous, team, now);
          if inner.found {
            ReseatedDeviceSeats(edges, slot, e, team, visited, inner);
          } else {
            TryEdgesMeaning(edges, slot, todo[1..], team, inner.visited);
            var r := TryEdges(edges, slot, todo[1..], team, inner.visited);
            if r.found {
              SeatedNarrows(edges, slot, team, visited, inner.visited, r);
            } else {
              ExhaustedJoins(edges, team, visited, e.device, inner, r);
            }
          }
        }
      }
    }
  }

  lemma {:induction false} AugmentMeaning(edges: Edges, slot: string, team: Team, visited: set<string>)
    requires Supported(edges, team)
    ensures var r := Augment(edges, slot, team, visited);
            if r.found then Seated(edges, slot, team, visited, r)
            else Exhausted(edges, team, visited, r) && DevicesOf(Neighbours(edges, slot)) <= r.visited
    decreases |AllDevices(edges) - visited|, 1, 0
  {
    assert DevicesOf(Neighbours(edges, slot)) <= AllDevices(edges);
    TryEdgesMeaning(edges, slot, Neighbours(edges, slot), team, visited);
  }

  /** What was seated behind more visited devices was seated behind fewer. */
  lemma SeatedNarrows(edges: Edges, slot: string, team: Team, small: set<string>, big: set<string>, r: Outcome)
    requires small <= big
    requires Seated(edges, slot, team, big, r)
    ensures Seated(edges, slot, team, small, r)
  {
  }

  /** A dead end behind one device joins the dead ends behind the others. */
  lemma ExhaustedJoins(edges: Edges, team: Team, visited: set<string>, device: string, inner: Outcome, r: Outcome)
    requires device in team.slotOf
    requires Exhausted(edges, team, visited + {device}, inner)
    requires DevicesOf(Neighbours(edges, team.slotOf[device])) <= inner.visited
    requires inner.visited <= r.visited
    requires Exhausted(edges, team, inner.visited, r)
    ensures Exhausted(edges, team, visited, r)
  {
    forall d | d in r.visited - visited
      ensures d in team.slotOf && DevicesOf(Neighbours(edges, team.slotOf[d])) <= r.visited
    {
      if d == device {
      } else if d in inner.visited {
        assert d in inner.visited - (visited + {device});
      } else {
        assert d in r.visited - inner.visited;
      }
    }
  }

  lemma MovedHolders(m: map<string, string>, d: string, slot: string, slots: set<string>)
    ensures HoldersIn(m[d := slot], slots) ==
            (HoldersIn(m, slots) - {d}) + (if slot in slots then {d} else {})
  {
  }

  lemma FreeDeviceCounts(m: map<string, string>, d: string, slot: string, slots: set<string>)
    requires d !in m
    ensures |HoldersIn(m[d := slot], slots)| == |HoldersIn(m, slots)| + (if slot in slots then 1 else 0)
  {
    MovedHolders(m, d, slot, slots);
    assert HoldersIn(m, slots) - {d} == HoldersIn(m, slots);
  }

  lemma MovedDeviceCounts(m: map<string, string>, d: string, slot: string, slots: set<string>)
    requires d in m
    ensures |HoldersIn(m[d := slot], slots)| ==
            |HoldersIn(m, slots)| - (if m[d] in slots then 1 else 0) + (if slot in slots then 1 else 0)
  {
    MovedHolders(m, d, slot, slots);
    assert d in HoldersIn(m, slots) <==> m[d] in slots;
    if m[d] !in slots {
      assert HoldersIn(m, slots) - {d} == HoldersIn(m, slots);
    }
  }

  lemma FreeDeviceSeats(edges: Edges, slot: string, e: Edge, team: Team, visited: set<string>)
    requires Supported(edges, team)
    requires e in Neighbours(edges, slot) && e.device !in visited && e.device !in team.slotOf
    ensures Seated(edges, slot, team, visited,
                   Outcome(true, Take(team, e.device, slot, e.bid), visited + {e.device}))
  {
    hide Neighbours, HoldersIn, Supported;
    TakeKeepsSupport(edges, team, e, slot);
    forall slots: set<string> {
      FreeDeviceCounts(team.slotOf, e.device, slot, slots);
    }
  }

  /** The heart of the argument: once the previous slot of a device found another
      device, the device is free to take the slot. */
  lemma ReseatedDeviceSeats(edges: Edges, slot: string, e: Edge, team: Team, visited: set<string>, inner: Outcome)
    requires Supported(edges, team)
    requires e in Neighbours(edges, slot) && e.device !in visited && e.device in team.slotOf
    requires Seated(edges, team.slotOf[e.device], team, visited + {e.device}, inner)
    ensures Seated(edges, slot, team, visited, Outcome(true, Take(inner.team, e.device, slot, e.bid), inner.visited))
  {
    hide Supported, Neighbours, HoldersIn;
    assert e.device in visited + {e.device};
    TakeKeepsSupport(edges, inner.team, e, slot);
    forall slots: set<string> {
      MovedDeviceCounts(inner.team.slotOf, e.device, slot, slots);
    }
  }

  lemma TakeKeepsSupport(edges: Edges, team: Team, e: Edge, slot: string)
    requires Supported(edges, team) && e in Neighbours(edges, slot)
    ensures Supported(edges, Take(team, e.device, slot, e.bid))
  {
  }

  // ---------------------------------------------------------------------
  // Soundness and completeness
  // ---------------------------------------------------------------------

  predicate DistinctSlots(slots: seq<RoleSlot>) {
    forall i, j | 0 <= i < j < |slots| :: slots[i].slotId != slots[j].slotId
  }

  predicate CanFill(bids: seq<BidRecord>, slot: string, device: string) {
    exists record | record in bids :: Accepts(record, slot) && record.deviceId == device
  }

  /** A team: a device for every position of the slot list that accepted its slot, and
      no device for two positions. */
  ghost predicate IsTeam(slots: seq<RoleSlot>, bids: seq<BidRecord>, team: map<int, string>) {
    && (forall i :: i in team <==> 0 <= i < |slots|)
    && Injective(team)
    && forall i | 0 <= i < |slots| :: CanFill(bids, slots[i].slotId, team[i])
  }

  ghost predicate TeamExists(slots: seq<RoleSlot>, bids: seq<BidRecord>) {
    exists team :: IsTeam(slots, bids, team)
  }

  /** How many positions a set of slots takes up in the list. */
  function Demand(slots: seq<RoleSlot>, ids: set<string>): nat {
    if slots == [] then 0 else (if slots[0].slotId in ids then 1 else 0) + Demand(slots[1..], ids)
  }

  /** A set of slots whose acceptable devices are too few for their positions. */
  ghost predicate HallViolator(slots: seq<RoleSlot>, edges: Edges, short: set<string>, devices: set<string>) {
    && short <= SlotIds(slots)
    && (forall s | s in short :: DevicesOf(Neighbours(edges, s)) <= devices)
    && Demand(slots, short) > |devices|
  }

  /** The slots held by a set of devices. */
  function Held(team: Team, devices: set<string>): set<string> {
    set d | d in devices && d in team.slotOf :: team.slotOf[d]
  }

  ghost predicate IsOverbooked(slots: seq<RoleSlot>, edges: Edges) {
    exists short, devices :: HallViolator(slots, edges, short, devices)
  }

  lemma {:induction false} DemandOfJoined(a: seq<RoleSlot>, b: seq<RoleSlot>, ids: set<string>)
    ensures Demand(a + b, ids) == Demand(a, ids) + Demand(b, ids)
  {
    if a == [] {
      assert a + b == b;
    } else {
      assert (a + b)[1..] == a[1..] + b;
      DemandOfJoined(a[1..], b, ids);
    }
  }

  /** What the team looks like when the first slots of the list are seated: every set
      of slots has as many holders as it takes up positions. */
  ghost predicate SeatedSoFar(edges: Edges, done: seq<RoleSlot>, team: Team) {
    && Supported(edges, team)
    && forall ids: set<string> :: |HoldersIn(team.slotOf, ids)| == Demand(done, ids)
  }

  lemma DemandGrows(done: seq<RoleSlot>, slot: RoleSlot, rest: seq<RoleSlot>, ids: set<string>)
    requires slot.slotId in ids
    ensures Demand(done + [slot] + rest, ids) > Demand(done, ids)
  {
    DemandOfJoined(done + [slot], rest, ids);
    DemandOfJoined(done, [slot], ids);
    assert [slot][1..] == [];
  }

  /** A failed search exhibits a Hall violator: the slot itself and the slots held by
      the visited devices. */
  lemma FailureIsHallViolator(edges: Edges, done: seq<RoleSlot>, slot: RoleSlot, rest: seq<RoleSlot>, team: Team)
    requires SeatedSoFar(edges, done, team)
    requires forall d | d in team.slotOf :: team.slotOf[d] in SlotIds(done)
    requires !Augment(edges, slot.slotId, team, {}).found
    ensures var visited := Augment(edges, slot.slotId, team, {}).visited;
            HallViolator(done + [slot] + rest, edges, {slot.slotId} + Held(team, visited), visited)
  {
    hide SlotIds, Neighbours, Supported, Demand, Augment, DevicesOf;
    AugmentMeaning(edges, slot.slotId, team, {});
    var r := Augment(edges, slot.slotId, team, {});
    ExhaustedIsClosed(edges, slot.slotId, team, r);
    var short := {slot.slotId} + Held(team, r.visited);
    assert r.visited <= HoldersIn(team.slotOf, short);
    SubsetSize(r.visited, HoldersIn(team.slotOf, short));
    DemandGrows(done, slot, rest, short);
    IdsOfJoined(done, slot, rest);
  }

  lemma IdsOfJoined(done: seq<RoleSlot>, slot: RoleSlot, rest: seq<RoleSlot>)
    ensures SlotIds(done) <= SlotIds(done + [slot] + rest)
    ensures slot.slotId in SlotIds(done + [slot] + rest)
    ensures SlotIds(done + [slot]) == SlotIds(done) + {slot.slotId}
  {
    var all := done + [slot] + rest;
    forall s | s in done
      ensures s.slotId in SlotIds(all)
    {
      assert s in all;
    }
    assert slot in all;
    forall id
      ensures id in SlotIds(done + [slot]) <==> id in SlotIds(done) + {slot.slotId}
    {
      if id in SlotIds(done) {
        var s :| s in done && s.slotId == id;
        assert s in done + [slot];
      }
      assert slot in done + [slot];
    }
  }

  lemma ExhaustedIsClosed(edges: Edges, slot: string, team: Team, r: Outcome)
    requires Exhausted(edges, team, {}, r) && DevicesOf(Neighbours(edges, slot)) <= r.visited
    ensures r.visited <= team.slotOf.Keys
    ensures forall s | s in {slot} + Held(team, r.visited) :: DevicesOf(Neighbours(edges, s)) <= r.visited
  {
    forall d | d in r.visited
      ensures d in team.slotOf && DevicesOf(Neighbours(edges, team.slotOf[d])) <= r.visited
    {
      assert d in r.visited - {};
    }
  }

  /** The positions of the list that a set of slots takes up. */
  function Positions(slots: seq<RoleSlot>, ids: set<string>): set<int> {
    set i | 0 <= i < |slots| && slots[i].slotId in ids
  }

  lemma {:induction false} DemandIsPositions(slots: seq<RoleSlot>, ids: set<string>)
    ensures |Positions(slots, ids)| == Demand(slots, ids)
    decreases |slots|
  {
    if slots != [] {
      var init, last := slots[..|slots| - 1], slots[|slots| - 1];
      assert slots == init + [last];
      assert [last][1..] == [];
      DemandIsPositions(init, ids);
      DemandOfJoined(init, [last], ids);
      assert Positions(slots, ids) == Positions(init, ids) + (if last.slotId in ids then {|init|} else {});
    }
  }

  function Image<K>(m: map<K, string>, s: set<K>): set<string> {
    set d | d in s && d in m :: m[d]
  }

  lemma {:induction false} InjectiveImageSize<K(!new)>(m: map<K, string>, s: set<K>)
    requires s <= m.Keys && Injective(m)
    ensures |Image(m, s)| == |s|
  {
    if s != {} {
      var x :| x in s;
      var rest := s - {x};
      InjectiveImageSize(m, rest);
      assert Image(m, s) == Image(m, rest) + {m[x]};
      assert m[x] !in Image(m, rest);
    }
  }

  /** Hall's condition is necessary. */
  lemma HallViolatorExcludesTeam(slots: seq<RoleSlot>, bids: seq<BidRecord>, short: set<string>, devices: set<string>)
    requires HallViolator(slots, AllEdges(slots, bids), short, devices)
    ensures !TeamExists(slots, bids)
  {
    hide SortedEdges, CanFill, Demand, Neighbours, DevicesOf, AllEdges;
    if TeamExists(slots, bids) {
      var team :| IsTeam(slots, bids, team);
      var places := Positions(slots, short);
      assert places <= team.Keys;
      InjectiveImageSize(team, places);
      DemandIsPositions(slots, short);
      forall i | i in places
        ensures team[i] in devices
      {
        FillerIsNeighbour(slots, bids, slots[i].slotId, team[i]);
      }
      assert Image(team, places) <= devices;
      SubsetSize(Image(team, places), devices);
      assert false;
    }
  }

  lemma FillerIsNeighbour(slots: seq<RoleSlot>, bids: seq<BidRecord>, slot: string, device: string)
    requires slot in SlotIds(slots) && CanFill(bids, slot, device)
    ensures device in DevicesOf(Neighbours(AllEdges(slots, bids), slot))
  {
    var record :| record in bids && Accepts(record, slot) && record.deviceId == device;
    var e := Edge(record.deviceId, record.eventId);
    SortedEdgesMeaning(bids, slot, e);
    assert e in Neighbours(AllEdges(slots, bids), slot);
  }

  /** One search of the main loop seats its slot or exhibits a Hall violator. */
  lemma SeatOne(edges: Edges, done: seq<RoleSlot>, slot: RoleSlot, rest: seq<RoleSlot>, team: Team)
    requires SeatedSoFar(edges, done, team)
    ensures var r := Augment(edges, slot.slotId, team, {});
            if r.found then SeatedSoFar(edges, done + [slot], r.team)
            else IsOverbooked(done + [slot] + rest, edges)
  {
    hide Supported, SlotIds;
    var r := Augment(edges, slot.slotId, team, {});
    if r.found {
      AugmentMeaning(edges, slot.slotId, team, {});
      forall ids: set<string>
        ensures |HoldersIn(r.team.slotOf, ids)| == Demand(done + [slot], ids)
      {
        DemandOfJoined(done, [slot], ids);
        assert [slot][1..] == [];
      }
    } else {
      HoldersAreDone(edges, done, team);
      FailureIsHallViolator(edges, done, slot, rest, team);
    }
  }

  lemma HoldersAreDone(edges: Edges, done: seq<RoleSlot>, team: Team)
    requires SeatedSoFar(edges, done, team)
    ensures forall d | d in team.slotOf :: team.slotOf[d] in SlotIds(done)
    ensures SlotIds(done) <= team.slotOf.Values
  {
    forall d | d in team.slotOf
      ensures team.slotOf[d] in SlotIds(done)
    {
      assert d in HoldersIn(team.slotOf, {team.slotOf[d]});
      DemandedIsListed(done, team.slotOf[d]);
    }
    forall id | id in SlotIds(done)
      ensures id in team.slotOf.Values
    {
      DemandedIsListed(done, id);
      assert HoldersIn(team.slotOf, {id}) != {};
      var d :| d in HoldersIn(team.slotOf, {id});
    }
  }

  lemma {:induction false} DemandedIsListed(slots: seq<RoleSlot>, id: string)
    ensures Demand(slots, {id}) > 0 <==> id in SlotIds(slots)
  {
    if slots != [] {
      assert slots == [slots[0]] + slots[1..];
      DemandedIsListed(slots[1..], id);
    }
  }

  lemma {:induction false} FillSlotsMeaning(edges: Edges, done: seq<RoleSlot>, slots: seq<RoleSlot>, team: Team)
    requires SeatedSoFar(edges, done, team)
    ensures var r := FillSlots(edges, slots, team);
            if r.Some? then SeatedSoFar(edges, done + slots, r.value)
            else IsOverbooked(done + slots, edges)
    decreases |slots|
  {
    hide SeatedSoFar, IsOverbooked;
    if slots == [] {
      assert done + slots == done;
    } else {
      SeatOne(edges, done, slots[0], slots[1..], team);
      assert done + slots == done + [slots[0]] + slots[1..];
      var r := Augment(edges, slots[0].slotId, team, {});
      if r.found {
        FillSlotsMeaning(edges, done + [slots[0]], slots[1..], r.team);
      }
    }
  }

  /** The slots in the order in which they are seated. */
  function Ordered(slots: seq<RoleSlot>): seq<RoleSlot> {
    Sort(slots, SlotLeq)
  }

  lemma SameSlotId(slots: seq<RoleSlot>, a: RoleSlot, b: RoleSlot)
    requires DistinctSlots(slots) && a in Members(slots) && b in Members(slots) && a != b
    ensures a.slotId != b.slotId
  {
    var i :| 0 <= i < |slots| && slots[i] == a;
    var j :| 0 <= j < |slots| && slots[j] == b;
  }

  lemma {:induction false} DemandOfInserted(x: RoleSlot, xs: seq<RoleSlot>, ids: set<string>)
    ensures Demand(Insert(x, xs, SlotLeq), ids) == Demand([x] + xs, ids)
  {
    assert ([x] + xs)[1..] == xs;
    if xs != [] && !SlotLeq(x, xs[0]) {
      DemandOfInserted(x, xs[1..], ids);
      var rest := Insert(x, xs[1..], SlotLeq);
      assert ([xs[0]] + rest)[1..] == rest && ([x] + xs[1..])[1..] == xs[1..];
    }
  }

  lemma {:induction false} DemandOfOrdered(slots: seq<RoleSlot>, ids: set<string>)
    ensures Demand(Ordered(slots), ids) == Demand(slots, ids)
  {
    if slots != [] {
      DemandOfOrdered(slots[1..], ids);
      DemandOfInserted(slots[0], Ordered(slots[1..]), ids);
      assert ([slots[0]] + Ordered(slots[1..]))[1..] == Ordered(slots[1..]);
    }
  }

  lemma {:induction false} DemandedTwice(slots: seq<RoleSlot>, i: nat, j: nat)
    requires i < j < |slots| && slots[i].slotId == slots[j].slotId
    ensures Demand(slots, {slots[i].slotId}) >= 2
  {
    if i == 0 {
      assert slots[1..][j - 1] in slots[1..];
      DemandedIsListed(slots[1..], slots[i].slotId);
    } else {
      DemandedTwice(slots[1..], i - 1, j - 1);
    }
  }

  lemma {:induction false} DemandedOnce(slots: seq<RoleSlot>, id: string)
    requires DistinctSlots(slots)
    ensures Demand(slots, {id}) <= 1
  {
    if slots != [] {
      DemandedOnce(slots[1..], id);
      DemandedIsListed(slots[1..], id);
    }
  }

  lemma OrderedKeeps(slots: seq<RoleSlot>)
    ensures SlotIds(Ordered(slots)) == SlotIds(slots)
    ensures |Ordered(slots)| == |slots|
    ensures DistinctSlots(slots) <==> DistinctSlots(Ordered(slots))
  {
    SortKeeps(slots, SlotLeq);
    forall id
      ensures id in SlotIds(Ordered(slots)) <==> id in SlotIds(slots)
    {
      assert forall s :: s in Ordered(slots) <==> s in Members(Ordered(slots));
      assert forall s :: s in slots <==> s in Members(slots);
    }
    assert |multiset(Ordered(slots))| == |multiset(slots)|;
    DistinctByDemand(slots, Ordered(slots));
    DistinctByDemand(Ordered(slots), slots);
  }

  lemma DistinctByDemand(a: seq<RoleSlot>, b: seq<RoleSlot>)
    requires b == Ordered(a) || a == Ordered(b)
    ensures DistinctSlots(a) ==> DistinctSlots(b)
  {
    if DistinctSlots(a) {
      forall i, j | 0 <= i < j < |b|
        ensures b[i].slotId != b[j].slotId
      {
        if b[i].slotId == b[j].slotId {
          DemandedTwice(b, i, j);
          DemandedOnce(a, b[i].slotId);
          DemandOfOrdered(a, {b[i].slotId});
          DemandOfOrdered(b, {b[i].slotId});
          assert false;
        }
      }
    }
  }

  /** The team found for a set of slots and bids, if any. */
  function FindTeam(slots: seq<RoleSlot>, bids: seq<BidRecord>): Option<Team> {
    FillSlots(AllEdges(slots, bids), Ordered(slots), NOBODY)
  }

  lemma FindTeamMeaning(slots: seq<RoleSlot>, bids: seq<BidRecord>)
    ensures var edges := AllEdges(slots, bids);
            var r := FindTeam(slots, bids);
            if r.Some? then SeatedSoFar(edges, slots, r.value) else IsOverbooked(slots, edges)
  {
    hide Supported, AllEdges, Ordered, SlotIds;
    var edges := AllEdges(slots, bids);
    assert SeatedSoFar(edges, [], NOBODY) by { NobodyIsSeated(edges); }
    FillSlotsMeaning(edges, [], Ordered(slots), NOBODY);
    assert [] + Ordered(slots) == Ordered(slots);
    OrderedKeeps(slots);
    forall ids {
      DemandOfOrdered(slots, ids);
    }
    if FindTeam(slots, bids).None? {
      var short, devices :| HallViolator(Ordered(slots), edges, short, devices);
      assert HallViolator(slots, edges, short, devices);
    }
  }

  lemma NobodyIsSeated(edges: Edges)
    ensures SeatedSoFar(edges, [], NOBODY)
  {
  }

  lemma OneHolderLess(m: map<string, string>, d: string, ids: set<string>)
    requires d in m
    ensures |HoldersIn(m - {d}, ids)| == |HoldersIn(m, ids)| - (if m[d] in ids then 1 else 0)
  {
    assert HoldersIn(m - {d}, ids) == HoldersIn(m, ids) - {d};
    assert d in HoldersIn(m, ids) <==> m[d] in ids;
  }

  lemma TeamExtends(init: seq<RoleSlot>, last: RoleSlot, bids: seq<BidRecord>, first: map<int, string>, d: string)
    requires IsTeam(init, bids, first) && d !in first.Values && CanFill(bids, last.slotId, d)
    ensures IsTeam(init + [last], bids, first[|init| := d])
    ensures first[|init| := d].Values <= first.Values + {d}
  {
    hide CanFill;
    var team := first[|init| := d];
    forall a, b | a in team && b in team && team[a] == team[b]
      ensures a == b
    {
      assert a != |init| ==> first[a] in first.Values;
      assert b != |init| ==> first[b] in first.Values;
    }
  }

  /** Holders that meet the demand of a list can be given its positions one by one. */
  lemma {:induction false} HoldersFormTeam(slots: seq<RoleSlot>, bids: seq<BidRecord>, m: map<string, string>)
    returns (team: map<int, string>)
    requires forall ids: set<string> :: |HoldersIn(m, ids)| >= Demand(slots, ids)
    requires forall d | d in m :: CanFill(bids, m[d], d)
    ensures IsTeam(slots, bids, team) && team.Values <= m.Keys
    decreases |slots|
  {
    hide CanFill, HoldersIn, Demand, IsTeam;
    if slots == [] {
      team := map[];
      assert IsTeam(slots, bids, team) by { NobodyIsATeam(bids); }
    } else {
      var n := |slots| - 1;
      var init, last := slots[..n], slots[n];
      assert slots == init + [last];
      forall ids {
        DemandOfLast(init, last, ids);
      }
      var d := HolderOf(m, last.slotId);
      forall ids: set<string>
        ensures |HoldersIn(m - {d}, ids)| >= Demand(init, ids)
      {
        OneHolderLess(m, d, ids);
      }
      var first := HoldersFormTeam(init, bids, m - {d});
      TeamExtends(init, last, bids, first, d);
      team := first[n := d];
    }
  }

  lemma NobodyIsATeam(bids: seq<BidRecord>)
    ensures IsTeam([], bids, map[])
  {
  }

  lemma DemandOfLast(init: seq<RoleSlot>, last: RoleSlot, ids: set<string>)
    ensures Demand(init + [last], ids) == Demand(init, ids) + (if last.slotId in ids then 1 else 0)
  {
    DemandOfJoined(init, [last], ids);
    assert [last][1..] == [];
  }

  lemma HolderOf(m: map<string, string>, id: string) returns (d: string)
    requires |HoldersIn(m, {id})| >= 1
    ensures d in m && m[d] == id
  {
    assert HoldersIn(m, {id}) != {};
    d :| d in HoldersIn(m, {id});
  }

  lemma EdgeMeansCanFill(bids: seq<BidRecord>, slot: string, e: Edge)
    requires IsEdge(bids, slot, e)
    ensures CanFill(bids, slot, e.device)
  {
  }

  lemma FoundTeamExists(slots: seq<RoleSlot>, bids: seq<BidRecord>)
    requires FindTeam(slots, bids).Some?
    ensures TeamExists(slots, bids)
  {
    hide FindTeam, CanFill, SortedEdges;
    FindTeamMeaning(slots, bids);
    var found := FindTeam(slots, bids).value;
    forall d | d in found.slotOf
      ensures CanFill(bids, found.slotOf[d], d)
    {
      var e := Edge(d, found.bidOf[(found.slotOf[d], d)]);
      SortedEdgesMeaning(bids, found.slotOf[d], e);
      EdgeMeansCanFill(bids, found.slotOf[d], e);
    }
    var team := HoldersFormTeam(slots, bids, found.slotOf);
  }

  /** Completeness: the search gives up exactly when no team exists. */
  lemma {:induction false} MatchingIsComplete(slots: seq<RoleSlot>, bids: seq<BidRecord>)
    ensures FindTeam(slots, bids).Some? <==> TeamExists(slots, bids)
  {
    hide FindTeam, TeamExists;
    if FindTeam(slots, bids).Some? {
      FoundTeamExists(slots, bids);
    } else {
      FindTeamMeaning(slots, bids);
      var short, devices :| HallViolator(slots, AllEdges(slots, bids), short, devices);
      HallViolatorExcludesTeam(slots, bids, short, devices);
    }
  }

  /** What a plan must be to be committed: every slot once, no device twice, and
      each assignment backed by a bid in which its device accepts its slot. */
  ghost predicate PerfectPlan(slots: seq<RoleSlot>, bids: seq<BidRecord>, plan: seq<CandidateAssignment>) {
    && (forall s | s in SlotIds(slots) :: exists i :: 0 <= i < |plan| && plan[i].slotId == s)
    && (forall i | 0 <= i < |plan| :: plan[i].slotId in SlotIds(slots))
    && (forall i, j | 0 <= i < j < |plan| :: plan[i].slotId != plan[j].slotId && plan[i].deviceId != plan[j].deviceId)
    && (forall i | 0 <= i < |plan| :: IsEdge(bids, plan[i].slotId, Edge(plan[i].deviceId, plan[i].supportingBid)))
  }

  /** The plan lists, slot by slot, a holder and the bid that supports it. */
  predicate IsReading(team: Team, slots: seq<RoleSlot>, plan: seq<CandidateAssignment>) {
    && |plan| == |slots|
    && forall i | 0 <= i < |plan| ::
         && plan[i].slotId == slots[i].slotId
         && plan[i].deviceId in team.slotOf && team.slotOf[plan[i].deviceId] == plan[i].slotId
         && (plan[i].slotId, plan[i].deviceId) in team.bidOf
         && plan[i].supportingBid == team.bidOf[(plan[i].slotId, plan[i].deviceId)]
  }

  /** A plan that the search may propose. Where a slot id repeats, the program reads
      whichever of its holders its dictionary names last, for every position. */
  ghost predicate IsProposed(slots: seq<RoleSlot>, bids: seq<BidRecord>, plan: seq<CandidateAssignment>) {
    FindTeam(slots, bids).Some? && IsReading(FindTeam(slots, bids).value, Ordered(slots), plan)
  }

  lemma ReadingIsBacked(slots: seq<RoleSlot>, bids: seq<BidRecord>, team: Team, plan: seq<CandidateAssignment>, i: nat)
    requires Supported(AllEdges(slots, bids), team) && IsReading(team, Ordered(slots), plan) && i < |plan|
    ensures plan[i].slotId in SlotIds(slots)
    ensures IsEdge(bids, plan[i].slotId, Edge(plan[i].deviceId, plan[i].supportingBid))
  {
    hide IsEdge, Ordered, SortedEdges;
    OrderedKeeps(slots);
    assert Ordered(slots)[i] in Ordered(slots);
    assert plan[i].slotId in SlotIds(Ordered(slots));
    SortedEdgesMeaning(bids, plan[i].slotId, Edge(plan[i].deviceId, plan[i].supportingBid));
  }

  lemma ReadingCovers(slots: seq<RoleSlot>, team: Team, plan: seq<CandidateAssignment>, id: string)
    requires IsReading(team, Ordered(slots), plan) && id in SlotIds(slots)
    ensures exists i :: 0 <= i < |plan| && plan[i].slotId == id
  {
    hide Ordered;
    OrderedKeeps(slots);
    var ordered := Ordered(slots);
    assert id in SlotIds(ordered);
    var slot :| slot in ordered && slot.slotId == id;
    var i :| 0 <= i < |ordered| && ordered[i] == slot;
    assert plan[i].slotId == id;
  }

  /** Soundness: a proposed plan has an assignment for each position, backed by a bid,
      and it is a perfect plan exactly when no slot id repeats. */
  lemma ProposedIsPerfect(slots: seq<RoleSlot>, bids: seq<BidRecord>, plan: seq<CandidateAssignment>)
    requires IsProposed(slots, bids, plan)
    ensures |plan| == |slots|
    ensures forall i | 0 <= i < |plan| ::
              IsEdge(bids, plan[i].slotId, Edge(plan[i].deviceId, plan[i].supportingBid))
    ensures PerfectPlan(slots, bids, plan) <==> DistinctSlots(slots)
  {
    hide FindTeam, IsEdge, Ordered, Supported, SlotIds, HoldersIn, Demand;
    var team := FindTeam(slots, bids).value;
    FindTeamMeaning(slots, bids);
    OrderedKeeps(slots);
    forall i: nat | i < |plan| {
      ReadingIsBacked(slots, bids, team, plan, i);
    }
    forall s | s in SlotIds(slots) {
      ReadingCovers(slots, team, plan, s);
    }
    if !DistinctSlots(slots) {
      var i, j :| 0 <= i < j < |Ordered(slots)| && Ordered(slots)[i].slotId == Ordered(slots)[j].slotId;
      assert plan[i].slotId == plan[j].slotId;
    }
  }

  lemma SeatedIsInjective(edges: Edges, done: seq<RoleSlot>, team: Team)
    requires DistinctSlots(done) && SeatedSoFar(edges, done, team)
    ensures Injective(team.slotOf)
  {
    hide Supported, Demand;
    var m := team.slotOf;
    forall a, b | a in m && b in m && m[a] == m[b]
      ensures a == b
    {
      DemandedOnce(done, m[a]);
      assert {a, b} <= HoldersIn(m, {m[a]});
      SubsetSize({a, b}, HoldersIn(m, {m[a]}));
    }
  }

  /** Where no slot id repeats, each slot has one holder. */
  lemma TeamIsInjective(slots: seq<RoleSlot>, bids: seq<BidRecord>)
    requires DistinctSlots(slots) && FindTeam(slots, bids).Some?
    ensures Injective(FindTeam(slots, bids).value.slotOf)
  {
    hide FindTeam, SeatedSoFar;
    FindTeamMeaning(slots, bids);
    SeatedIsInjective(AllEdges(slots, bids), slots, FindTeam(slots, bids).value);
  }

  lemma ReadingIsUnique(team: Team, slots: seq<RoleSlot>, a: seq<CandidateAssignment>, b: seq<CandidateAssignment>)
    requires Injective(team.slotOf) && IsReading(team, slots, a) && IsReading(team, slots, b)
    ensures a == b
  {
    forall i | 0 <= i < |slots|
      ensures a[i] == b[i]
    {
    }
  }

  lemma {:induction false} ReadingExists(team: Team, slots: seq<RoleSlot>) returns (plan: seq<CandidateAssignment>)
    requires SlotIds(slots) <= team.slotOf.Values
    requires forall d | d in team.slotOf :: (team.slotOf[d], d) in team.bidOf
    ensures IsReading(team, slots, plan)
  {
    if slots == [] {
      plan := [];
    } else {
      var id := slots[0].slotId;
      assert id in SlotIds(slots) && SlotIds(slots[1..]) <= SlotIds(slots);
      var d :| d in team.slotOf && team.slotOf[d] == id;
      var rest := ReadingExists(team, slots[1..]);
      plan := [CandidateAssignment(id, d, team.bidOf[(id, d)])] + rest;
    }
  }

  lemma TeamIsReadable(slots: seq<RoleSlot>, bids: seq<BidRecord>)
    requires FindTeam(slots, bids).Some?
    ensures var team := FindTeam(slots, bids).value;
            && SlotIds(Ordered(slots)) <= team.slotOf.Values
            && forall d | d in team.slotOf :: (team.slotOf[d], d) in team.bidOf
  {
    hide FindTeam, Ordered;
    FindTeamMeaning(slots, bids);
    HoldersAreDone(AllEdges(slots, bids), slots, FindTeam(slots, bids).value);
    OrderedKeeps(slots);
  }

  /** The plan proposed for a list of distinct slots, if there is one. */
  ghost function BestPlan(slots: seq<RoleSlot>, bids: seq<BidRecord>): (plan: Option<seq<CandidateAssignment>>)
    requires DistinctSlots(slots)
  {
    if exists plan :: IsProposed(slots, bids, plan) then
      var plan :| IsProposed(slots, bids, plan);
      Some(plan)
    else None
  }

  /** For distinct slots the search proposes that plan and no other. */
  lemma ProposedIsBest(slots: seq<RoleSlot>, bids: seq<BidRecord>, plan: seq<CandidateAssignment>)
    requires DistinctSlots(slots) && IsProposed(slots, bids, plan)
    ensures BestPlan(slots, bids) == Some(plan)
  {
    hide FindTeam, IsReading;
    TeamIsInjective(slots, bids);
    ReadingIsUnique(FindTeam(slots, bids).value, Ordered(slots), plan, BestPlan(slots, bids).value);
  }

  /** The plan for distinct slots is a perfect one, and there is one exactly when a team
      exists. */
  lemma BestPlanIsPerfect(slots: seq<RoleSlot>, bids: seq<BidRecord>)
    requires DistinctSlots(slots)
    ensures BestPlan(slots, bids).Some? <==> TeamExists(slots, bids)
    ensures BestPlan(slots, bids).Some? ==> PerfectPlan(slots, bids, BestPlan(slots, bids).value)
  {
    hide FindTeam, TeamExists, PerfectPlan, IsReading;
    MatchingIsComplete(slots, bids);
    if FindTeam(slots, bids).Some? {
      TeamIsReadable(slots, bids);
      var plan := ReadingExists(FindTeam(slots, bids).value, Ordered(slots));
      assert IsProposed(slots, bids, plan);
      ProposedIsPerfect(slots, bids, BestPlan(slots, bids).value);
    }
  }

  // ---------------------------------------------------------------------
  // Stability
  // ---------------------------------------------------------------------

  lemma SortedEdgesForgetOrder(a: seq<BidRecord>, b: seq<BidRecord>, slot: string)
    requires Members(a) == Members(b)
    ensures SortedEdges(a, slot) == SortedEdges(b, slot)
  {
    assert forall r :: r in a <==> r in Members(a);
    assert forall r :: r in b <==> r in Members(b);
    forall e
      ensures e in EdgeList(a, slot) <==> e in EdgeList(b, slot)
    {
      EdgeListMeaning(a, slot, e);
      EdgeListMeaning(b, slot, e);
    }
    DedupKeeps(EdgeList(a, slot));
    DedupKeeps(EdgeList(b, slot));
    EdgeLeqIsTotal(Members(EdgeList(a, slot)));
    SortForgetsOrder(Dedup(EdgeList(a, slot)), Dedup(EdgeList(b, slot)), EdgeLeq);
  }

  lemma SlotLeqIsTotal(slots: seq<RoleSlot>)
    requires DistinctSlots(slots)
    ensures TotalOn(SlotLeq, Members(slots))
  {
    forall x, y | x in Members(slots) && y in Members(slots)
      ensures SlotLeq(x, y) || SlotLeq(y, x)
      ensures SlotLeq(x, y) && SlotLeq(y, x) ==> x == y
    {
      TextLeqTotal(x.slotId, y.slotId);
      if x != y {
        SameSlotId(slots, x, y);
      }
    }
    forall x, y, z | x in Members(slots) && y in Members(slots) && z in Members(slots) && SlotLeq(x, y) && SlotLeq(y, z)
      ensures SlotLeq(x, z)
    {
      TextLeqTransitive(x.slotId, y.slotId, z.slotId);
    }
  }

  /** The plan does not depend on the order in which slots and bids arrive, nor
      on repeated bids. */
  lemma PlanIsStable(slots1: seq<RoleSlot>, bids1: seq<BidRecord>, slots2: seq<RoleSlot>, bids2: seq<BidRecord>)
    requires DistinctSlots(slots1) && DistinctSlots(slots2)
    requires Members(slots1) == Members(slots2) && Members(bids1) == Members(bids2)
    ensures BestPlan(slots1, bids1) == BestPlan(slots2, bids2)
  {
    hide IsReading, SortedEdges, FillSlots;
    SlotLeqIsTotal(slots1);
    SortForgetsOrder(slots1, slots2, SlotLeq);
    OrderedKeeps(slots1);
    OrderedKeeps(slots2);
    forall id | id in SlotIds(slots1)
      ensures SortedEdges(bids1, id) == SortedEdges(bids2, id)
    {
      SortedEdgesForgetOrder(bids1, bids2, id);
    }
    assert AllEdges(slots1, bids1) == AllEdges(slots2, bids2);
    assert forall plan :: IsProposed(slots1, bids1, plan) <==> IsProposed(slots2, bids2, plan);
    if BestPlan(slots1, bids1).Some? {
      ProposedIsBest(slots2, bids2, BestPlan(slots1, bids1).value);
    }
  }

  // ---------------------------------------------------------------------
  // The search as it runs
  // ---------------------------------------------------------------------

  class Matcher {
    const edges: Edges
    var deviceToSlot: map<string, string>
    var chosenBid: map<(string, string), string>
    var visited: set<string>

    constructor (edges: Edges)
      ensures this.edges == edges && deviceToSlot == map[] && chosenBid == map[] && visited == {}
    {
      this.edges := edges;
      deviceToSlot := map[];
      chosenBid := map[];
      visited := {};
    }

    /** Seats the slot in place, along an augmenting path that avoids the devices
        visited so far. */
    method AugmentSlot(slot: string) returns (found: bool)
      modifies this
      ensures Outcome(found, Team(deviceToSlot, chosenBid), visited) ==
              Augment(edges, slot, Team(old(deviceToSlot), old(chosenBid)), old(visited))
      decreases |AllDevices(edges) - visited|
    {
      var list := Neighbours(edges, slot);
      ghost var result := Augment(edges, slot, Team(deviceToSlot, chosenBid), visited);
      assert DevicesOf(list) <= AllDevices(edges);
      for n := 0 to |list|
        invariant old(visited) <= visited
        invariant DevicesOf(list[n..]) <= AllDevices(edges)
        invariant result == TryEdges(edges, slot, list[n..], Team(deviceToSlot, chosenBid), visited)
      {
        var e := list[n];
        assert list[n..][0] == e && list[n..][1..] == list[n + 1..];
        assert e.device in DevicesOf(list[n..]);
        assert DevicesOf(list[n + 1..]) <= DevicesOf(list[n..]);
        if e.device in visited {
          continue;
        }
        VisitShrinks(AllDevices(edges), old(visited), visited + {e.device}, e.device);
        visited := visited + {e.device};
        if e.device !in deviceToSlot {
          deviceToSlot := deviceToSlot[e.device := slot];
          chosenBid := chosenBid[(slot, e.device) := e.bid];
          return true;
        }
        var reseated := AugmentSlot(deviceToSlot[e.device]);
        if reseated {
          deviceToSlot := deviceToSlot[e.device := slot];
          chosenBid := chosenBid[(slot, e.device) := e.bid];
          return true;
        }
      }
      assert list[|list|..] == [];
      found := false;
    }
  }

  /** A device of each slot, read off a complete team. */
  method InvertTeam(team: Team) returns (slotToDevice: map<string, string>)
    ensures slotToDevice.Keys == team.slotOf.Values
    ensures forall s | s in slotToDevice :: slotToDevice[s] in team.slotOf && team.slotOf[slotToDevice[s]] == s
  {
    slotToDevice := map[];
    var todo := team.slotOf.Keys;
    while todo != {}
      invariant todo <= team.slotOf.Keys
      invariant slotToDevice.Keys == set d | d in team.slotOf.Keys - todo :: team.slotOf[d]
      invariant forall s | s in slotToDevice :: slotToDevice[s] in team.slotOf && team.slotOf[slotToDevice[s]] == s
      decreases todo
    {
      var d :| d in todo;
      slotToDevice := slotToDevice[team.slotOf[d] := d];
      todo := todo - {d};
    }
  }

  method BuildEdges(slots: seq<RoleSlot>, bids: seq<BidRecord>) returns (edges: Edges)
    ensures edges == AllEdges(slots, bids)
  {
    edges := map[];
    for n := 0 to |slots|
      invariant edges.Keys == SlotIds(slots[..n])
      invariant forall id | id in edges :: edges[id] == SortedEdges(bids, id)
    {
      assert slots[..n + 1] == slots[..n] + [slots[n]];
      edges := edges[slots[n].slotId := SortedEdges(bids, slots[n].slotId)];
    }
    assert slots[..|slots|] == slots;
  }

  /** The main loop: one search per slot, giving up at the first that fails. */
  method SeatAll(edges: Edges, slots: seq<RoleSlot>) returns (team: Option<Team>)
    ensures team == FillSlots(edges, slots, NOBODY)
  {
    var matcher := new Matcher(edges);
    for n := 0 to |slots|
      invariant matcher.edges == edges
      invariant FillSlots(edges, slots, NOBODY) ==
                FillSlots(edges, slots[n..], Team(matcher.deviceToSlot, matcher.chosenBid))
    {
      matcher.visited := {};
      assert slots[n..][0] == slots[n] && slots[n..][1..] == slots[n + 1..];
      var found := matcher.AugmentSlot(slots[n].slotId);
      if !found {
        return None;
      }
    }
    team := Some(Team(matcher.deviceToSlot, matcher.chosenBid));
  }

  /** Reads the assignments off a complete team, in the order of the slots. */
  method ReadAssignments(team: Team, slots: seq<RoleSlot>) returns (plan: seq<CandidateAssignment>)
    requires SlotIds(slots) <= team.slotOf.Values
    requires forall d | d in team.slotOf :: (team.slotOf[d], d) in team.bidOf
    ensures IsReading(team, slots, plan)
  {
    var slotToDevice := InvertTeam(team);
    plan := [];
    for n := 0 to |slots|
      invariant IsReading(team, slots[..n], plan)
    {
      var id := slots[n].slotId;
      assert id in SlotIds(slots);
      var device := slotToDevice[id];
      plan := plan + [CandidateAssignment(id, device, team.bidOf[(id, device)])];
    }
    assert slots[..|slots|] == slots;
  }

  /** Proposes a plan exactly when a team exists; for distinct slots, the best plan. */
  method DeterministicMaximumMatching(slots: seq<RoleSlot>, bids: seq<BidRecord>)
    returns (plan: Option<seq<CandidateAssignment>>)
    ensures plan.Some? <==> TeamExists(slots, bids)
    ensures plan.Some? ==> IsProposed(slots, bids, plan.value)
    ensures DistinctSlots(slots) ==> plan == BestPlan(slots, bids)
  {
    hide TeamExists, FillSlots;
    var ordered := Ordered(slots);
    OrderedKeeps(slots);
    var edges := BuildEdges(ordered, bids);
    assert edges == AllEdges(slots, bids);
    var team := SeatAll(edges, ordered);
    MatchingIsComplete(slots, bids);
    if team.None? {
      return None;
    }
    TeamIsReadable(slots, bids);
    var assignments := ReadAssignments(team.value, ordered);
    if DistinctSlots(slots) {
      ProposedIsBest(slots, bids, assignments);
    }
    plan := Some(assignments);
  }
}
