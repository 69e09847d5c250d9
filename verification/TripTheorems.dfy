/** What holds of a trip in every state of every run. */
module TripTheorems {
  import opened Shipments
  import opened Trips
  import opened TripInvariant
  import opened TripSteps

  ghost predicate Reachable(t: Trip, id: Id, assignment: Option<Id>, steps: seq<TripStep>) {
    Follows(NewTrip(id, assignment), steps, t)
  }

  lemma ReachableInv(t: Trip, id: Id, assignment: Option<Id>, steps: seq<TripStep>)
    requires Reachable(t, id, assignment, steps)
    ensures Inv(t)
  {
    NewInv(id, assignment);
    RunKeeps(NewTrip(id, assignment), steps, t);
  }

  /** At most one operation is pending or compensating, and it is the one that holds the lock; until
      it finishes its rows are the ones its payload names, and then it reports exactly those, in row
      order, which is the order of (assignedAt, id): a completed ADD all of them active, a rejected one
      all of them released. */
  lemma SagaOutcome(t: Trip, id: Id, assignment: Option<Id>, steps: seq<TripStep>, o: nat)
    requires Reachable(t, id, assignment, steps) && o < |t.ops|
    ensures t.ops[o].status in {OpPending, Compensating} <==> t.lock == Some(o)
    ensures t.lock == Some(o) ==> RowsOf(t.members, o) == t.ops[o].shipments
    ensures t.lock != Some(o) ==> Reported(t.ops[o].result) == t.ops[o].shipments
    ensures t.ops[o].kind == Add && t.ops[o].status == OpCompleted ==> forall r | r in t.ops[o].result :: r.1 == Active
    ensures t.ops[o].status == OpRejected ==> t.ops[o].kind == Add && forall r | r in t.ops[o].result :: r.1 == Released
  {
    ReachableInv(t, id, assignment, steps);
    hide MembersOk, Unique, StopsOk, PlacesOk, TotalsOk, RouteOk, CapacityOk, ReadsOk, DispatchesOk, DriveOk;
    assert OutcomeOk(t.ops[o]);
    assert t.lock != Some(o) ==> Finished(t.ops[o].status);
    assert t.lock == Some(o) ==> !Finished(t.ops[o].status);
    assert !Finished(t.ops[o].status) <==> t.ops[o].status.OpPending? || t.ops[o].status.Compensating?;
  }

  /** Versions stay safe integers: no transaction raises one above 2^53 - 1. */
  lemma StepSafe(t: Trip, step: TripStep)
    requires Guard(t, step) && t.version < 0x20_0000_0000_0000
    ensures Do(t, step).version < 0x20_0000_0000_0000
  {
    hide IsFirst, NoneLeft, InputReady, CanSelect, LeaveAll, Matches, Permutation, IsNext;
  }

  lemma {:induction false} VersionsSafe(t: Trip, steps: seq<TripStep>, t': Trip)
    requires Follows(t, steps, t') && t.version < 0x20_0000_0000_0000
    ensures t'.version < 0x20_0000_0000_0000
    decreases |steps|
  {
    hide Guard, Do;
    if steps != [] {
      StepSafe(t, steps[0]);
      VersionsSafe(Do(t, steps[0]), steps[1..], t');
    }
  }

  lemma StepKeepsPayload(t: Trip, step: TripStep, o: nat)
    requires Guard(t, step) && OpsOk(t.lock, t.ops, t.status) && o < |t.ops|
    ensures o < |Do(t, step).ops| && Do(t, step).ops[o].kind == t.ops[o].kind
    ensures Do(t, step).ops[o].shipments == t.ops[o].shipments
    ensures Finished(t.ops[o].status) ==> Do(t, step).ops[o] == t.ops[o]
  {
    hide IsFirst, NoneLeft, CanRemove, InputReady, CanSelect, LeaveAll, Matches, Permutation, IsNext, OutcomeOk,
      Results, CanUndo;
  }

  /** An operation keeps its payload for good, and once finished its report. */
  lemma {:induction false} RunKeepsPayload(t: Trip, steps: seq<TripStep>, t': Trip, o: nat)
    requires Inv(t) && Follows(t, steps, t') && o < |t.ops|
    ensures o < |t'.ops| && t'.ops[o].kind == t.ops[o].kind && t'.ops[o].shipments == t.ops[o].shipments
    ensures Finished(t.ops[o].status) ==> t'.ops[o] == t.ops[o]
    decreases |steps|
  {
    hide Inv, Guard, Do;
    if steps != [] {
      assert OpsOk(t.lock, t.ops, t.status) by { OpsOf(t); }
      StepKeepsPayload(t, steps[0], o);
      StepKeeps(t, steps[0]);
      RunKeepsPayload(Do(t, steps[0]), steps[1..], t', o);
    }
  }

  lemma OpsOf(t: Trip)
    requires Inv(t)
    ensures OpsOk(t.lock, t.ops, t.status)
  {
    hide MembersOk, Unique, StopsOk, PlacesOk, TotalsOk, RouteOk, CapacityOk, ReadsOk, DispatchesOk, DriveOk, OpsOk,
      RowsListed;
  }

  lemma ActiveOrGone(t: Trip, i: nat)
    requires Inv(t) && t.lock.None? && i < |t.members|
    ensures t.members[i].state in {Active, Released}
    ensures t.members[i].state == Active ==> t.members[i].shipment in LiveStops(t.stops)
    ensures t.status == TripCanceled ==> t.members[i].state == Released
  {
    hide OpsOk, Unique, StopsOk, PlacesOk, TotalsOk, RouteOk, CapacityOk, ReadsOk, DispatchesOk, DriveOk;
    assert MemberOk(t.id, t.lock, t.ops, t.status, t.stops, t.members[i]);
  }

  lemma StopHasMember(t: Trip, x: Id)
    requires Inv(t) && x in LiveStops(t.stops)
    ensures x in PresentShipments(t.members)
  {
    hide OpsOk, Unique, MembersOk, PlacesOk, TotalsOk, RouteOk, CapacityOk, ReadsOk, DispatchesOk, DriveOk;
    assert Backs(t.members, x);
    var i :| 0 <= i < |t.members| && t.members[i].shipment == x && t.members[i].state in {Active, ReleasePending};
    assert t.members[i] in t.members && Present(t.members[i]);
  }

  /** Whenever no operation holds the lock: the stored totals are the sums over the active rows, the
      live stops are exactly the shipments of those rows, and no two rows share a shipment. */
  lemma ManifestAgrees(t: Trip, id: Id, assignment: Option<Id>, steps: seq<TripStep>)
    requires Reachable(t, id, assignment, steps) && t.lock.None?
    ensures t.weight == ActiveWeight(t.members) && t.volume == ActiveVolume(t.members)
    ensures AllActive(t.members) && LiveStops(t.stops) == PresentShipments(t.members) && Unique(t.members)
  {
    ReachableInv(t, id, assignment, steps);
    ManifestOf(t);
  }

  lemma ManifestOf(t: Trip)
    requires Inv(t) && t.lock.None?
    ensures t.weight == ActiveWeight(t.members) && t.volume == ActiveVolume(t.members)
    ensures AllActive(t.members) && LiveStops(t.stops) == PresentShipments(t.members) && Unique(t.members)
  {
    forall i | 0 <= i < |t.members| && Present(t.members[i])
      ensures t.members[i].state == Active && t.members[i].shipment in LiveStops(t.stops)
    {
      ActiveOrGone(t, i);
    }
    forall x | x in LiveStops(t.stops) ensures x in PresentShipments(t.members) { StopHasMember(t, x); }
    forall x | x in PresentShipments(t.members) ensures x in LiveStops(t.stops) {
      var m :| m in t.members && Present(m) && m.shipment == x;
      var i :| 0 <= i < |t.members| && t.members[i] == m;
    }
  }

  /** A canceled trip carries nothing, so the zero totals it is given are its true sums. */
  lemma CanceledIsEmpty(t: Trip, id: Id, assignment: Option<Id>, steps: seq<TripStep>)
    requires Reachable(t, id, assignment, steps) && t.status == TripCanceled
    ensures PresentShipments(t.members) == {} && LiveStops(t.stops) == {}
    ensures t.weight == 0 && t.volume == 0 && ActiveWeight(t.members) == 0 && ActiveVolume(t.members) == 0
  {
    ReachableInv(t, id, assignment, steps);
    hide Inv, ActiveWeight, ActiveVolume;
    assert t.lock.None? by { CanceledUnlocked(t); }
    forall i | 0 <= i < |t.members| ensures t.members[i].state == Released { ActiveOrGone(t, i); }
    ManifestOf(t);
    NothingActive(t.members);
  }

  lemma CanceledUnlocked(t: Trip)
    requires Inv(t) && t.status == TripCanceled
    ensures t.lock.None?
  {
    hide Unique, StopsOk, MembersOk, PlacesOk, TotalsOk, RouteOk, CapacityOk, ReadsOk, DispatchesOk, DriveOk;
  }

  /** The totals of an approved or running trip fit the capacities of its vehicle snapshot, although
      the check reads the trip outside the approving transaction. */
  lemma CapacityHolds(t: Trip, id: Id, assignment: Option<Id>, steps: seq<TripStep>)
    requires Reachable(t, id, assignment, steps) && t.status in {Approved, InProgress}
    ensures t.capacity.Some? && t.weight <= t.capacity.value.0 && t.volume <= t.capacity.value.1
  {
    ReachableInv(t, id, assignment, steps);
    hide OpsOk, Unique, StopsOk, MembersOk, PlacesOk, TotalsOk, RouteOk, ReadsOk, DispatchesOk, DriveOk;
  }

  /** On the road the places are a bijection of the live stops onto 1..n, the finished stops are the
      first k of them with one attempt each, the version is the one the dispatch reported plus k, and
      the trip is complete exactly when k = n. */
  lemma DriverInOrder(t: Trip, id: Id, assignment: Option<Id>, steps: seq<TripStep>)
    requires Reachable(t, id, assignment, steps) && OnRoad(t.status)
    ensures t.plan.Some? && Routed(t.plan.value.ordered, t.stops) && Driven(t.plan.value.ordered, t.stops, t.attempts)
    ensures t.status == TripCompleted <==> |t.attempts| == |t.plan.value.ordered|
    ensures exists d ::
             0 <= d < |t.dispatches| && t.dispatches[d].stage == DispatchDone
             && t.dispatches[d].result == Some(t.version - |t.attempts|)
  {
    ReachableInv(t, id, assignment, steps);
    hide OpsOk, Unique, StopsOk, MembersOk, PlacesOk, TotalsOk, ReadsOk, DispatchOk, Routed, Driven;
    assert SomeDone(t.dispatches);
    var d :| 0 <= d < |t.dispatches| && t.dispatches[d].stage == DispatchDone;
  }

  /** The completed dispatch of a running trip lists exactly the shipments on board, at the
      versions the trip recorded. */
  lemma DispatchedManifest(t: Trip, d: nat)
    requires Inv(t) && d < |t.dispatches| && t.dispatches[d].stage != DispatchRejected
    ensures Matches(t.members, t.dispatches[d].request) && AllActive(t.members)
  {
    hide OpsOk, Unique, StopsOk, MembersOk, PlacesOk, TotalsOk, ReadsOk, RouteOk, CapacityOk, DriveOk, Matches,
      AllActive;
    assert DispatchOk(t.id, t.status, t.lock, t.version, t.plan, t.members, t.dispatches[d]);
  }

  // ----- Nothing moves under an open dispatch -----

  lemma StepKeepsRequest(t: Trip, step: TripStep, d: nat)
    requires Guard(t, step) && d < |t.dispatches|
    ensures d < |Do(t, step).dispatches| && Do(t, step).dispatches[d].request == t.dispatches[d].request
  {
    hide IsFirst, NoneLeft, CanRemove, InputReady, CanSelect, LeaveAll, Matches, Permutation, IsNext;
  }

  lemma {:induction false} RunKeepsRequest(t: Trip, steps: seq<TripStep>, t': Trip, d: nat)
    requires Follows(t, steps, t') && d < |t.dispatches|
    ensures d < |t'.dispatches| && t'.dispatches[d].request == t.dispatches[d].request
    decreases |steps|
  {
    hide Guard, Do;
    if steps != [] {
      StepKeepsRequest(t, steps[0], d);
      RunKeepsRequest(Do(t, steps[0]), steps[1..], t', d);
    }
  }

  /** From any state in which a dispatch is open to any later state in which it still is, nothing of
      the trip has changed by any path: status, version, plan, rows, stops, totals, operations. */
  lemma FrozenWhileOpen(t: Trip, steps: seq<TripStep>, t': Trip, d: nat)
    requires Inv(t) && Follows(t, steps, t') && d < |t.dispatches| && Open(t.dispatches[d].stage)
    requires d < |t'.dispatches| && Open(t'.dispatches[d].stage)
    ensures SameTrip(t, t') && t'.lock.None?
  {
    hide Inv;
    RunKeeps(t, steps, t');
    OpenDispatchBound(t, d);
    OpenDispatchBound(t', d);
    RunKeepsRequest(t, steps, t', d);
    VersionSound(t, steps, t');
  }
}
