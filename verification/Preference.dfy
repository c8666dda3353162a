/** Which team the matching chooses, where several would do. */
module Preference {
  import opened Events
  import opened Ordering
  import opened Matching

  /** The texts first differ at a place where the first has the smaller character. */
  predicate DropsAt(a: string, b: string, n: int) {
    0 <= n < |a| && n < |b| && a[..n] == b[..n] && a[n] < b[n]
  }

  lemma DropsLater(a: string, b: string, n: int)
    requires a != [] && b != [] && a[0] == b[0] && n >= 0
    ensures DropsAt(a[1..], b[1..], n) <==> DropsAt(a, b, n + 1)
  {
    if n + 1 < |a| && n + 1 < |b| {
      assert a[..n + 1] == [a[0]] + a[1..][..n] && b[..n + 1] == [b[0]] + b[1..][..n];
      assert a[1..][..n] == a[..n + 1][1..] && b[1..][..n] == b[..n + 1][1..];
    }
  }

  /** The order of texts is the usual one: a prefix comes first, and otherwise the first
      difference decides. */
  lemma {:induction false} TextLeqIsLexicographic(a: string, b: string)
    ensures TextLeq(a, b) <==> a <= b || exists n: int :: DropsAt(a, b, n)
  {
    if a != [] && b != [] {
      if a[0] == b[0] {
        TextLeqIsLexicographic(a[1..], b[1..]);
        assert a == [a[0]] + a[1..] && b == [b[0]] + b[1..];
        if n: int :| DropsAt(a[1..], b[1..], n) {
          DropsLater(a, b, n);
        }
        if n: int :| DropsAt(a, b, n) {
          DropsLater(a, b, n - 1);
        }
      } else {
        assert a[0] < b[0] ==> DropsAt(a, b, 0);
      }
    }
  }

  // ---------------------------------------------------------------------
  // The bid of a device
  // ---------------------------------------------------------------------

  ghost predicate EdgesAreSorted(edges: Edges) {
    forall s | s in edges :: IsSorted(edges[s], EdgeLeq)
  }

  lemma EdgesOfBidsAreSorted(slots: seq<RoleSlot>, bids: seq<BidRecord>)
    ensures EdgesAreSorted(AllEdges(slots, bids))
  {
    forall s | s in SlotIds(slots)
      ensures IsSorted(SortedEdges(bids, s), EdgeLeq)
    {
      EdgeLeqIsTotal(Members(Dedup(EdgeList(bids, s))));
      SortKeeps(Dedup(EdgeList(bids, s)), EdgeLeq);
    }
  }

  /** Every device holds its slot by the first of its bids for it. */
  ghost predicate HoldsByFirstBid(edges: Edges, team: Team) {
    forall d | d in team.slotOf ::
      && (team.slotOf[d], d) in team.bidOf
      && forall e | e in Neighbours(edges, team.slotOf[d]) && e.device == d ::
           TextLeq(team.bidOf[(team.slotOf[d], d)], e.bid)
  }

  lemma TakeKeepsFirstBids(edges: Edges, slot: string, done: seq<Edge>, todo: seq<Edge>, team: Team)
    requires EdgesAreSorted(edges) && HoldsByFirstBid(edges, team)
    requires todo != [] && Neighbours(edges, slot) == done + todo && todo[0].device !in DevicesOf(done)
    ensures HoldsByFirstBid(edges, Take(team, todo[0].device, slot, todo[0].bid))
  {
    var e, list := todo[0], done + todo;
    forall other | other in list && other.device == e.device
      ensures TextLeq(e.bid, other.bid)
    {
      var k :| 0 <= k < |list| && list[k] == other;
      assert forall m | 0 <= m < |done| :: done[m].device in DevicesOf(done);
      TextLeqTotal(e.bid, e.bid);
      assert list[|done|] == e;
      assert k > |done| ==> EdgeLeq(list[|done|], list[k]);
    }
  }

  lemma {:induction false} TryEdgesKeepsFirstBids(
      edges: Edges, slot: string, done: seq<Edge>, todo: seq<Edge>, team: Team, visited: set<string>)
    requires EdgesAreSorted(edges) && HoldsByFirstBid(edges, team)
    requires Neighbours(edges, slot) == done + todo && DevicesOf(done) <= visited
    requires DevicesOf(todo) <= AllDevices(edges)
    ensures HoldsByFirstBid(edges, TryEdges(edges, slot, todo, team, visited).team)
    decreases |AllDevices(edges) - visited|, 0, |todo|
  {
    hide HoldsByFirstBid, EdgesAreSorted;
    if todo != [] {
      var e := todo[0];
      assert todo == [e] + todo[1..] && done + todo == (done + [e]) + todo[1..];
      assert e.device in DevicesOf(todo);
      assert DevicesOf(todo[1..]) <= DevicesOf(todo);
      assert DevicesOf(done + [e]) == DevicesOf(done) + {e.device};
      if e.device in visited {
        TryEdgesKeepsFirstBids(edges, slot, done + [e], todo[1..], team, visited);
      } else {
        var now := visited + {e.device};
        VisitShrinks(AllDevices(edges), visited, now, e.device);
        if e.device !in team.slotOf {
          TakeKeepsFirstBids(edges, slot, done, todo, team);
        } else {
          var inner := Augment(edges, team.slotOf[e.device], team, now);
          VisitShrinks(AllDevices(edges), visited, inner.visited, e.device);
          AugmentKeepsFirstBids(edges, team.slotOf[e.device], team, now);
          if inner.found {
            TakeKeepsFirstBids(edges, slot, done, todo, inner.team);
          } else {
            TryEdgesKeepsFirstBids(edges, slot, done + [e], todo[1..], inner.team, inner.visited);
          }
        }
      }
    }
  }

  lemma {:induction false} AugmentKeepsFirstBids(edges: Edges, slot: string, team: Team, visited: set<string>)
    requires EdgesAreSorted(edges) && HoldsByFirstBid(edges, team)
    ensures HoldsByFirstBid(edges, Augment(edges, slot, team, visited).team)
    decreases |AllDevices(edges) - visited|, 1, 0
  {
    hide HoldsByFirstBid, EdgesAreSorted;
    assert DevicesOf(Neighbours(edges, slot)) <= AllDevices(edges);
    assert [] + Neighbours(edges, slot) == Neighbours(edges, slot);
    TryEdgesKeepsFirstBids(edges, slot, [], Neighbours(edges, slot), team, visited);
  }

  lemma {:induction false} FillKeepsFirstBids(edges: Edges, slots: seq<RoleSlot>, team: Team)
    requires EdgesAreSorted(edges) && HoldsByFirstBid(edges, team)
    ensures FillSlots(edges, slots, team).Some? ==> HoldsByFirstBid(edges, FillSlots(edges, slots, team).value)
  {
    hide HoldsByFirstBid, EdgesAreSorted, Augment;
    if slots != [] {
      AugmentKeepsFirstBids(edges, slots[0].slotId, team, {});
      FillKeepsFirstBids(edges, slots[1..], Augment(edges, slots[0].slotId, team, {}).team);
    }
  }

  /** A proposed plan lists the slots in their order, and backs each assignment by the first
      of the device's bids that accept the slot. */
  lemma ProposedIsOrdered(slots: seq<RoleSlot>, bids: seq<BidRecord>, plan: seq<CandidateAssignment>)
    requires IsProposed(slots, bids, plan)
    ensures DistinctSlots(slots) ==> forall i, j | 0 <= i < j < |plan| :: TextLeq(plan[i].slotId, plan[j].slotId)
    ensures forall i, record | 0 <= i < |plan| && record in bids ::
              Accepts(record, plan[i].slotId) && record.deviceId == plan[i].deviceId ==>
                TextLeq(plan[i].supportingBid, record.eventId)
  {
    hide FillSlots, Accepts, SortedEdges, Ordered, EdgesAreSorted;
    var edges := AllEdges(slots, bids);
    EdgesOfBidsAreSorted(slots, bids);
    FillKeepsFirstBids(edges, Ordered(slots), NOBODY);
    OrderedKeeps(slots);
    forall i, record | 0 <= i < |plan| && record in bids && Accepts(record, plan[i].slotId)
                       && record.deviceId == plan[i].deviceId
      ensures TextLeq(plan[i].supportingBid, record.eventId)
    {
      assert Ordered(slots)[i] in Ordered(slots);
      assert plan[i].slotId in SlotIds(Ordered(slots));
      var e := Edge(record.deviceId, record.eventId);
      SortedEdgesMeaning(bids, plan[i].slotId, e);
      assert e in Neighbours(edges, plan[i].slotId);
    }
    if DistinctSlots(slots) {
      OrderedIsSorted(slots);
    }
  }

  lemma OrderedIsSorted(slots: seq<RoleSlot>)
    requires DistinctSlots(slots)
    ensures IsSorted(Ordered(slots), SlotLeq)
  {
    SlotLeqIsTotal(slots);
    SortKeeps(slots, SlotLeq);
  }

  // ---------------------------------------------------------------------
  // The device of the last slot
  // ---------------------------------------------------------------------

  /** Devices that lead nowhere: each is held, and so are all devices that its holder could
      take instead. */
  ghost predicate IsDeadEnd(edges: Edges, team: Team, dead: set<string>) {
    forall d | d in dead :: d in team.slotOf && DevicesOf(Neighbours(edges, team.slotOf[d])) <= dead
  }

  predicate AllDead(list: seq<Edge>, k: nat, dead: set<string>) {
    k <= |list| && forall m | 0 <= m < k :: list[m].device in dead
  }

  lemma NoneDead(list: seq<Edge>, dead: set<string>)
    ensures AllDead(list, 0, dead)
  {
  }

  lemma OneMoreDead(list: seq<Edge>, k: nat, dead: set<string>)
    requires list != [] && list[0].device in dead && AllDead(list[1..], k, dead)
    ensures AllDead(list, k + 1, dead)
  {
    forall m | 0 <= m < k + 1
      ensures list[m].device in dead
    {
      assert m > 0 ==> list[m] == list[1..][m - 1];
    }
  }

  lemma TailDevices(list: seq<Edge>)
    requires list != []
    ensures list[0].device in DevicesOf(list) && DevicesOf(list[1..]) <= DevicesOf(list)
  {
    assert list == [list[0]] + list[1..];
  }

  /** A search takes the first device of the list that does not lead nowhere. */
  lemma {:induction false} FirstThatSeats(edges: Edges, slot: string, todo: seq<Edge>, team: Team, visited: set<string>)
    returns (k: nat, dead: set<string>)
    requires DevicesOf(todo) <= AllDevices(edges) && Supported(edges, team)
    requires TryEdges(edges, slot, todo, team, visited).found
    requires IsDeadEnd(edges, team, visited)
    ensures visited <= dead && k < |todo| && todo[k].device !in dead
    ensures AllDead(todo, k, dead) && IsDeadEnd(edges, team, dead)
    ensures var after := TryEdges(edges, slot, todo, team, visited).team.slotOf;
            todo[k].device in after && after[todo[k].device] == slot
    decreases |AllDevices(edges) - visited|, |todo|
  {
    hide Supported, IsDeadEnd, Seated, Exhausted, Neighbours, AllDead, AllDevices, DevicesOf, TryEdges, Augment;
    TryStep(edges, slot, todo, team, visited);
    TailDevices(todo);
    var e := todo[0];
    k, dead := 0, visited;
    NoneDead(todo, visited);
    if e.device in visited {
      k, dead := FirstThatSeats(edges, slot, todo[1..], team, visited);
      OneMoreDead(todo, k, dead);
      k := k + 1;
    } else if e.device in team.slotOf {
      var now := visited + {e.device};
      VisitShrinks(AllDevices(edges), visited, now, e.device);
      var inner := Augment(edges, team.slotOf[e.device], team, now);
      VisitShrinks(AllDevices(edges), visited, inner.visited, e.device);
      AugmentMeaning(edges, team.slotOf[e.device], team, now);
      if !inner.found {
        DeadEndGrows(edges, team, visited, e.device, inner);
        k, dead := FirstThatSeats(edges, slot, todo[1..], team, inner.visited);
        OneMoreDead(todo, k, dead);
        k := k + 1;
      }
    }
  }

  lemma TryStep(edges: Edges, slot: string, todo: seq<Edge>, team: Team, visited: set<string>)
    requires DevicesOf(todo) <= AllDevices(edges)
    ensures TryEdges(edges, slot, todo, team, visited).found ==> todo != []
    ensures todo != [] ==>
              var e, r := todo[0], TryEdges(edges, slot, todo, team, visited);
              && DevicesOf(todo[1..]) <= AllDevices(edges)
              && if e.device in visited then r == TryEdges(edges, slot, todo[1..], team, visited)
                 else if e.device !in team.slotOf then
                   r.team == Take(team, e.device, slot, e.bid)
                 else
                   var inner := Augment(edges, team.slotOf[e.device], team, visited + {e.device});
                   if inner.found then r.team == Take(inner.team, e.device, slot, e.bid)
                   else r == TryEdges(edges, slot, todo[1..], inner.team, inner.visited)
  {
    hide Augment, AllDevices;
    if todo != [] {
      TailDevices(todo);
    }
  }

  lemma DeadEndGrows(edges: Edges, team: Team, visited: set<string>, device: string, inner: Outcome)
    requires IsDeadEnd(edges, team, visited) && device in team.slotOf
    requires Exhausted(edges, team, visited + {device}, inner)
    requires visited <= inner.visited && DevicesOf(Neighbours(edges, team.slotOf[device])) <= inner.visited
    ensures IsDeadEnd(edges, team, inner.visited) && inner.team == team
  {
    forall d | d in inner.visited
      ensures d in team.slotOf && DevicesOf(Neighbours(edges, team.slotOf[d])) <= inner.visited
    {
      if d !in visited && d != device {
        assert d in inner.visited - (visited + {device});
      }
    }
  }

  /** The places of a plan that belong to a set of slots. */
  function PlacesOf(plan: seq<CandidateAssignment>, ids: set<string>): set<int> {
    set i | 0 <= i < |plan| && plan[i].slotId in ids
  }

  /** A perfect plan gives a set of slots as many devices. */
  lemma DevicesOfSlots(
      slots: seq<RoleSlot>, bids: seq<BidRecord>, plan: seq<CandidateAssignment>, ids: set<string>,
      devices: set<string>)
    requires PerfectPlan(slots, bids, plan) && ids <= SlotIds(slots)
    requires forall i | 0 <= i < |plan| && plan[i].slotId in ids :: plan[i].deviceId in devices
    ensures |ids| <= |devices|
  {
    hide IsEdge, SlotIds;
    var places := PlacesOf(plan, ids);
    var slotAt := map i | 0 <= i < |plan| :: plan[i].slotId;
    var deviceAt := map i | 0 <= i < |plan| :: plan[i].deviceId;
    InjectiveImageSize(slotAt, places);
    InjectiveImageSize(deviceAt, places);
    forall id | id in ids
      ensures id in Image(slotAt, places)
    {
      var i :| 0 <= i < |plan| && plan[i].slotId == id;
      assert i in places && slotAt[i] == id;
    }
    SubsetSize(ids, Image(slotAt, places));
    SubsetSize(Image(deviceAt, places), devices);
  }

  /** The holders of slots that lead nowhere could not do with one device less: no perfect
      plan gives a device that leads nowhere to a further slot. */
  lemma DeadEndIsTaken(slots: seq<RoleSlot>, bids: seq<BidRecord>, done: seq<RoleSlot>, team: Team, dead: set<string>,
                       other: seq<CandidateAssignment>, j: nat)
    requires DistinctSlots(done) && SlotIds(done) <= SlotIds(slots)
    requires SeatedSoFar(AllEdges(slots, bids), done, team) && IsDeadEnd(AllEdges(slots, bids), team, dead)
    requires PerfectPlan(slots, bids, other) && j < |other| && other[j].slotId !in SlotIds(done)
    ensures other[j].deviceId !in dead
  {
    hide SlotIds, AllEdges, Supported, Demand, IsEdge;
    if other[j].deviceId in dead {
      var held := Held(team, dead);
      HoldersAreDone(AllEdges(slots, bids), done, team);
      SeatedIsInjective(AllEdges(slots, bids), done, team);
      InjectiveImageSize(team.slotOf, dead);
      assert held == Image(team.slotOf, dead);
      var ids := held + {other[j].slotId};
      forall i | 0 <= i < |other| && other[i].slotId in ids
        ensures other[i].deviceId in dead
      {
        if other[i].slotId in held {
          var d :| d in dead && team.slotOf[d] == other[i].slotId;
          PlanIsAlongEdges(slots, bids, other, i);
        } else {
          assert i == j;
        }
      }
      DevicesOfSlots(slots, bids, other, ids, dead);
      assert false;
    }
  }

  lemma PlanIsAlongEdges(slots: seq<RoleSlot>, bids: seq<BidRecord>, plan: seq<CandidateAssignment>, i: nat)
    requires PerfectPlan(slots, bids, plan) && i < |plan|
    ensures Edge(plan[i].deviceId, plan[i].supportingBid) in Neighbours(AllEdges(slots, bids), plan[i].slotId)
    ensures plan[i].deviceId in DevicesOf(Neighbours(AllEdges(slots, bids), plan[i].slotId))
  {
    hide IsEdge, SortedEdges;
    var e := Edge(plan[i].deviceId, plan[i].supportingBid);
    SortedEdgesMeaning(bids, plan[i].slotId, e);
    assert e in Neighbours(AllEdges(slots, bids), plan[i].slotId);
  }

  lemma {:induction false} FillSplits(edges: Edges, init: seq<RoleSlot>, last: RoleSlot, team: Team)
    requires FillSlots(edges, init + [last], team).Some?
    ensures FillSlots(edges, init, team).Some?
    ensures var r := Augment(edges, last.slotId, FillSlots(edges, init, team).value, {});
            r.found && FillSlots(edges, init + [last], team) == Some(r.team)
    decreases |init|
  {
    hide Augment;
    if init == [] {
      assert [] + [last] == [last] && [last][1..] == [];
    } else {
      assert (init + [last])[1..] == init[1..] + [last];
      FillSplits(edges, init[1..], last, Augment(edges, init[0].slotId, team, {}).team);
    }
  }

  lemma SeatedBefore(edges: Edges, done: seq<RoleSlot>)
    requires FillSlots(edges, done, NOBODY).Some?
    ensures SeatedSoFar(edges, done, FillSlots(edges, done, NOBODY).value)
  {
    hide FillSlots, SeatedSoFar;
    NobodyIsSeated(edges);
    FillSlotsMeaning(edges, [], done, NOBODY);
    assert [] + done == done;
  }

  lemma LastIsNew(done: seq<RoleSlot>, last: RoleSlot)
    requires DistinctSlots(done + [last])
    ensures DistinctSlots(done) && last.slotId !in SlotIds(done)
  {
    var all := done + [last];
    assert forall i | 0 <= i < |done| :: all[i] == done[i];
    assert all[|done|] == last;
  }

  lemma SeatOfLast(edges: Edges, slot: string, team: Team) returns (k: nat, dead: set<string>)
    requires Supported(edges, team) && Augment(edges, slot, team, {}).found
    ensures var list, after := Neighbours(edges, slot), Augment(edges, slot, team, {}).team.slotOf;
            && k < |list| && list[k].device !in dead
            && AllDead(list, k, dead) && IsDeadEnd(edges, team, dead)
            && list[k].device in after && after[list[k].device] == slot
  {
    assert DevicesOf(Neighbours(edges, slot)) <= AllDevices(edges);
    k, dead := FirstThatSeats(edges, slot, Neighbours(edges, slot), team, {});
  }

  lemma HolderIsRead(slots: seq<RoleSlot>, bids: seq<BidRecord>, plan: seq<CandidateAssignment>, n: nat, device: string)
    requires DistinctSlots(slots) && IsProposed(slots, bids, plan) && n < |plan|
    requires var m := FindTeam(slots, bids).value.slotOf; device in m && m[device] == Ordered(slots)[n].slotId
    ensures plan[n].deviceId == device
  {
    hide FindTeam, Ordered;
    TeamIsInjective(slots, bids);
  }

  lemma LaterIsGreater(list: seq<Edge>, k: nat, dead: set<string>, e: Edge)
    requires IsSorted(list, EdgeLeq) && k < |list| && AllDead(list, k, dead)
    requires e in list && e.device !in dead
    ensures TextLeq(list[k].device, e.device)
  {
    var m :| 0 <= m < |list| && list[m] == e;
    TextLeqTotal(e.device, e.device);
    assert m > k ==> EdgeLeq(list[k], list[m]);
  }

  /** Of the teams that seat all the slots, the search takes one that gives the last slot its
      first device: no perfect plan gives that slot an earlier one. */
  lemma LastSlotChooses(slots: seq<RoleSlot>, bids: seq<BidRecord>, other: seq<CandidateAssignment>, j: nat)
    requires DistinctSlots(slots) && slots != [] && BestPlan(slots, bids).Some?
    requires PerfectPlan(slots, bids, other) && j < |other|
    ensures var plan := BestPlan(slots, bids).value;
            && |plan| == |slots|
            && (other[j].slotId == plan[|plan| - 1].slotId ==>
                  TextLeq(plan[|plan| - 1].deviceId, other[j].deviceId))
  {
    hide FillSlots, AllEdges, PerfectPlan, SlotIds, Supported, Demand, Augment, Ordered, Neighbours, AllDead, IsDeadEnd,
      IsSorted;
    var plan, ordered, edges := BestPlan(slots, bids).value, Ordered(slots), AllEdges(slots, bids);
    OrderedKeeps(slots);
    var n := |ordered| - 1;
    var done, last := ordered[..n], ordered[n];
    assert ordered == done + [last];
    FillSplits(edges, done, last, NOBODY);
    SeatedBefore(edges, done);
    var before := FillSlots(edges, done, NOBODY).value;
    IdsOfJoined(done, last, []);
    assert done + [last] + [] == ordered;
    LastIsNew(done, last);
    if other[j].slotId == last.slotId {
      var k, dead := SeatOfLast(edges, last.slotId, before);
      var list := Neighbours(edges, last.slotId);
      HolderIsRead(slots, bids, plan, n, list[k].device);
      DeadEndIsTaken(slots, bids, done, before, dead, other, j);
      PlanIsAlongEdges(slots, bids, other, j);
      NeighboursAreSorted(slots, bids, last.slotId);
      LaterIsGreater(list, k, dead, Edge(other[j].deviceId, other[j].supportingBid));
    }
  }

  lemma NeighboursAreSorted(slots: seq<RoleSlot>, bids: seq<BidRecord>, slot: string)
    ensures IsSorted(Neighbours(AllEdges(slots, bids), slot), EdgeLeq)
  {
    EdgesOfBidsAreSorted(slots, bids);
  }

  // ---------------------------------------------------------------------
  // Without contention
  // ---------------------------------------------------------------------

  /** The first device for each slot, when no two slots want the same. */
  ghost predicate AreFirstChoices(slots: seq<RoleSlot>, bids: seq<BidRecord>, first: map<string, string>) {
    && first.Keys == SlotIds(slots) && Injective(first)
    && forall id | id in first ::
         CanFill(bids, id, first[id]) && forall d | CanFill(bids, id, d) :: TextLeq(first[id], d)
  }

  /** The devices seated so far hold the slots they are the first choice of. */
  predicate HoldFirstChoices(first: map<string, string>, done: set<string>, m: map<string, string>) {
    forall d | d in m :: m[d] in done && m[d] in first && first[m[d]] == d
  }

  lemma FirstChoiceLeads(slots: seq<RoleSlot>, bids: seq<BidRecord>, first: map<string, string>, id: string)
    requires AreFirstChoices(slots, bids, first) && id in SlotIds(slots)
    ensures var list := Neighbours(AllEdges(slots, bids), id); list != [] && list[0].device == first[id]
  {
    hide CanFill, SortedEdges, EdgesAreSorted;
    var list := Neighbours(AllEdges(slots, bids), id);
    FillerIsNeighbour(slots, bids, id, first[id]);
    EdgesOfBidsAreSorted(slots, bids);
    NeighboursAreSorted(slots, bids, id);
    var k :| 0 <= k < |list| && list[k].device == first[id];
    SortedEdgesMeaning(bids, id, list[0]);
    EdgeMeansCanFill(bids, id, list[0]);
    TextLeqTotal(first[id], list[0].device);
    assert k > 0 ==> EdgeLeq(list[0], list[k]);
  }

  lemma {:induction false} FillTakesFirstChoices(
      slots: seq<RoleSlot>, bids: seq<BidRecord>, first: map<string, string>, done: set<string>, todo: seq<RoleSlot>,
      team: Team)
    requires AreFirstChoices(slots, bids, first) && DistinctSlots(todo) && SlotIds(todo) <= SlotIds(slots)
    requires done !! SlotIds(todo) && HoldFirstChoices(first, done, team.slotOf)
    ensures var r := FillSlots(AllEdges(slots, bids), todo, team);
            r.Some? && HoldFirstChoices(first, done + SlotIds(todo), r.value.slotOf)
    decreases |todo|
  {
    hide AreFirstChoices, AllEdges;
    var edges := AllEdges(slots, bids);
    if todo != [] {
      assert todo == [todo[0]] + todo[1..];
      var id := todo[0].slotId;
      assert SlotIds(todo) == {id} + SlotIds(todo[1..]) by { IdsOfJoined([], todo[0], todo[1..]); }
      FirstChoiceLeads(slots, bids, first, id);
      var e := Neighbours(edges, id)[0];
      FirstChoiceIsFree(slots, bids, first, done, id, team.slotOf);
      assert Augment(edges, id, team, {}) == Outcome(true, Take(team, e.device, id, e.bid), {e.device});
      FillTakesFirstChoices(slots, bids, first, done + {id}, todo[1..], Take(team, e.device, id, e.bid));
    }
  }

  lemma FirstChoiceIsFree(slots: seq<RoleSlot>, bids: seq<BidRecord>, first: map<string, string>, done: set<string>,
                          id: string, m: map<string, string>)
    requires AreFirstChoices(slots, bids, first) && HoldFirstChoices(first, done, m)
    requires id in SlotIds(slots) && id !in done
    ensures id in first && first[id] !in m
    ensures HoldFirstChoices(first, done + {id}, m[first[id] := id])
  {
    hide CanFill;
  }

  /** Where the first devices of the slots are distinct, every slot gets its first device. */
  lemma FirstChoicesAreMet(slots: seq<RoleSlot>, bids: seq<BidRecord>, first: map<string, string>)
    requires DistinctSlots(slots) && AreFirstChoices(slots, bids, first)
    ensures BestPlan(slots, bids).Some?
    ensures forall a | a in BestPlan(slots, bids).value :: a.slotId in first && a.deviceId == first[a.slotId]
  {
    hide AreFirstChoices, AllEdges, FillSlots, Ordered, CanFill, IsTeam;
    OrderedKeeps(slots);
    FillTakesFirstChoices(slots, bids, first, {}, Ordered(slots), NOBODY);
    MatchingIsComplete(slots, bids);
    BestPlanIsPerfect(slots, bids);
  }
}
