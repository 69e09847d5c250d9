/** One trip as code that updates its rows, each method one transaction. Every method keeps the
    trip's invariant and carries out the transaction of module Trips of the same name, or leaves the
    rows alone. */
module TripDesk {
  import opened Shipments
  import opened Fulfillment
  import opened Trips
  import TI = TripInvariant
  import TS = TripSteps
  import O = TripOutcomes

  // ----- What the transactions mean in a valid state -----

  /** After reopening, no approval read before can still be used. */
  lemma ReopenMeans(t: Trip, expected: nat)
    requires TI.Inv(t) && RouteTrip(t, expected, Approved)
    ensures TI.Inv(Reopen(t)) && forall a | a in t.approvals :: !CanApprove(Reopen(t), a)
  {
    TS.ReopenKeeps(t, expected);
    hide TI.OpsOk, TI.MembersOk, TI.Unique, TI.RowsListed, TI.StopsOk, TI.PlacesOk, TI.TotalsOk, TI.RouteOk,
      TI.CapacityOk;
    hide TI.DispatchesOk, TI.DriveOk, Permutation, AllActive, LiveStops;
    forall a | a in t.approvals ensures !CanApprove(Reopen(t), a) { assert TI.ApprovalOk(t, a); }
  }

  /** A receipted dispatch always finds the trip as it left it: only the version bound can stop it. */
  lemma CommitTripMeans(t: Trip, d: nat)
    requires TI.Inv(t)
    ensures CanCommitTrip(t, d) <==> d < |t.dispatches| && t.dispatches[d].stage == Receipted && t.version < MAX_SAFE
    ensures CanCommitTrip(t, d) ==> TI.Inv(CommitTrip(t, d))
  {
    hide TI.Inv, CommitTrip;
    if d < |t.dispatches| && t.dispatches[d].stage == Receipted { TS.OpenDispatchBound(t, d); }
    if CanCommitTrip(t, d) { TS.CommitTripKeeps(t, d); }
  }

  /** The stop acted on is the next one of the approved order. */
  lemma DriveMeans(t: Trip, x: Id, version: nat, stopVersion: nat, delivered: bool, detail: nat)
    requires TI.Inv(t) && CanDrive(t, x, version, stopVersion)
    ensures TI.Inv(Drive(t, x, delivered, detail))
    ensures t.plan.Some? && |t.attempts| < |t.plan.value.ordered| && t.plan.value.ordered[|t.attempts|] == x
  {
    TS.DriveKeeps(t, x, version, stopVersion, delivered, detail);
    hide TI.OpsOk, TI.MembersOk, TI.Unique, TI.RowsListed, TI.StopsOk, TI.PlacesOk, TI.TotalsOk, TI.CapacityOk,
      TI.ReadsOk;
    hide TI.DispatchesOk, TI.Routed, TI.Driven, IsNext, Drive;
    TS.NextIsNext(t, x);
  }

  /** The totals fit the vehicle although its capacity was read before the transaction. */
  lemma ApproveMeans(t: Trip, a: Approval, plan: Id)
    requires TI.Inv(t) && CanApprove(t, a)
    ensures TI.Inv(Approve(t, a, plan)) && t.weight <= a.capacity.0 && t.volume <= a.capacity.1
  {
    TS.ApproveKeeps(t, a, plan);
    hide TI.OpsOk, TI.MembersOk, TI.Unique, TI.RowsListed, TI.StopsOk, TI.PlacesOk, TI.TotalsOk, TI.RouteOk,
      TI.CapacityOk;
    hide TI.DispatchesOk, TI.DriveOk, TI.ReadsOk, CanApprove, Approve;
    TS.CapacityStillMet(t, a);
  }

  /** What a finished operation reports. */
  lemma FinalizeMeans(t: Trip)
    requires TI.Inv(t) && CanFinalize(t)
    ensures TI.Inv(Finalize(t)) && t.lock.Some? && t.lock.value < |t.ops|
    ensures TI.Reported(Results(t.members, t.lock.value)) == t.ops[t.lock.value].shipments
  {
    TS.FinalizeKeeps(t);
    hide TI.OpsOk, TI.MembersOk, TI.Unique, TI.StopsOk, TI.PlacesOk, TI.TotalsOk, TI.RouteOk, TI.CapacityOk, TI.ReadsOk;
    hide TI.DispatchesOk, TI.DriveOk, Finalize, NoneLeft, TI.Reported, Results;
    TS.ReportedRows(t.members, t.lock.value);
  }

  lemma StoreClaimMeans(t: Trip, i: nat, r: Receipt)
    requires TI.Inv(t) && i < |t.members| && r.Claimed?
    ensures TI.Inv(PersistClaim(t, i, r))
  {
    hide TI.Inv;
    TS.WaitingMeans(t, i);
    if t.members[i].state == ClaimPending { hide PersistClaim; TS.PersistClaimKeeps(t, i, r); }
  }

  lemma StoreReleaseMeans(t: Trip, i: nat)
    requires TI.Inv(t) && i < |t.members|
    ensures TI.Inv(PersistRelease(t, i))
  {
    hide TI.Inv;
    TS.WaitingMeans(t, i);
    if t.members[i].state == ReleasePending { hide PersistRelease; TS.PersistReleaseKeeps(t, i); }
  }

  lemma CompensateMeans(t: Trip, invalid: Option<(nat, Receipt)>, newIds: seq<Id>)
    requires TI.Inv(t) && t.lock.Some? && t.lock.value < |t.ops| && t.ops[t.lock.value].kind == Add
    requires |newIds| == |t.members|
    requires invalid.Some? ==>
               invalid.value.0 < |t.members| && t.members[invalid.value.0].state == ClaimPending
               && invalid.value.1.Claimed?
    ensures TI.Inv(Compensate(t, invalid, newIds))
    ensures forall i | 0 <= i < |t.members| && t.members[i].state == Active :: t.members[i].claim.Some?
  {
    LockPending(t);
    hide TI.Inv, Compensate;
    forall i | 0 <= i < |t.members| && t.members[i].state == Active
      ensures t.members[i].claim.Some?
    {
      TS.WaitingMeans(t, i);
    }
    if invalid.Some? { TS.WaitingMeans(t, invalid.value.0); }
    if Adding(t) { TS.CompensateKeeps(t, invalid, newIds); } else { TS.CompensateAgain(t, newIds); }
  }

  lemma LockPending(t: Trip)
    requires TI.Inv(t) && t.lock.Some? && t.lock.value < |t.ops|
    ensures t.ops[t.lock.value].status in {OpPending, Compensating}
  {
    hide TI.MembersOk, TI.Unique, TI.RowsListed, TI.StopsOk, TI.PlacesOk, TI.TotalsOk, TI.RouteOk, TI.CapacityOk,
      TI.ReadsOk;
    hide TI.DispatchesOk, TI.DriveOk, TI.OutcomeOk;
    var status := t.ops[t.lock.value].status;
    assert !TI.Finished(status) <==> status.OpPending? || status.Compensating?;
  }

  // ----- Loops -----

  lemma SumsGrow(ms: seq<Member>, k: nat)
    requires k < |ms|
    ensures ActiveWeight(ms[..k + 1]) == ActiveWeight(ms[..k]) + if ms[k].state == Active then ms[k].weight else 0
    ensures ActiveVolume(ms[..k + 1]) == ActiveVolume(ms[..k]) + if ms[k].state == Active then ms[k].volume else 0
  {
    assert ms[..k + 1][..k] == ms[..k];
  }

  lemma ResultsGrow(ms: seq<Member>, op: nat, k: nat)
    requires k < |ms|
    ensures Results(ms[..k + 1], op)
            == Results(ms[..k], op) + if ms[k].op == op then [(ms[k].shipment, ms[k].state)] else []
  {
    assert ms[..k + 1][..k] == ms[..k];
  }

  lemma PlacesGrow(stops: map<Id, Stop>, ordered: seq<Id>, k: nat)
    requires k < |ordered|
    ensures var before := Places(stops, ordered[..k]);
            Places(stops, ordered[..k + 1]) ==
            if ordered[k] in before
            then before[ordered[k] := before[ordered[k]].(place := Some(k + 1),
                                                          version := before[ordered[k]].version + 1)]
            else before
  {
    assert ordered[..k + 1][..k] == ordered[..k];
  }

  lemma FinalizeRows(t: Trip)
    requires CanFinalize(t)
    ensures Finalize(t).members == t.members
  {
    hide NoneLeft, Results, ActiveWeight, ActiveVolume;
  }

  lemma FinalizeLocked(t: Trip)
    requires CanFinalize(t)
    ensures t.lock.Some? && t.lock.value < |t.ops|
  {
  }

  lemma NextIsStop(stops: map<Id, Stop>, x: Id)
    requires IsNext(stops, x)
    ensures x in stops
  {
  }

  lemma NamesGrow(ms: seq<Member>, picked: set<Id>, k: nat)
    requires k < |ms|
    ensures Picked(ms[..k + 1], picked)
            == Picked(ms[..k], picked) + if ms[k].state == Active && ms[k].shipment in picked then [ms[k].shipment]
            else []
  {
    assert ms[..k + 1][..k] == ms[..k];
  }

  /** The shipments an operation on the picked active rows will name. */
  method Names(ms: seq<Member>, picked: set<Id>) returns (named: seq<Id>)
    ensures named == Picked(ms, picked)
  {
    named := [];
    for k := 0 to |ms|
      invariant named == Picked(ms[..k], picked)
    {
      NamesGrow(ms, picked, k);
      if ms[k].state == Active && ms[k].shipment in picked { named := named + [ms[k].shipment]; }
    }
    assert ms[..|ms|] == ms;
  }

  /** The totals over the active rows. */
  method Totals(ms: seq<Member>) returns (weight: nat, volume: nat)
    ensures weight == ActiveWeight(ms) && volume == ActiveVolume(ms)
  {
    weight, volume := 0, 0;
    for k := 0 to |ms|
      invariant weight == ActiveWeight(ms[..k]) && volume == ActiveVolume(ms[..k])
    {
      SumsGrow(ms, k);
      if ms[k].state == Active { weight, volume := weight + ms[k].weight, volume + ms[k].volume; }
    }
    assert ms[..|ms|] == ms;
  }

  /** What each row of an operation ended as, in row order. */
  method Report(ms: seq<Member>, op: nat) returns (result: seq<(Id, MemberState)>)
    ensures result == Results(ms, op)
  {
    result := [];
    for k := 0 to |ms|
      invariant result == Results(ms[..k], op)
    {
      ResultsGrow(ms, op, k);
      if ms[k].op == op { result := result + [(ms[k].shipment, ms[k].state)]; }
    }
    assert ms[..|ms|] == ms;
  }

  /** Whether any other live stop is still waiting. */
  method Remaining(stops: map<Id, Stop>, x: Id) returns (last: bool)
    ensures last == LastOne(stops, x)
  {
    last := true;
    var rest := stops.Keys;
    while rest != {}
      invariant rest <= stops.Keys
      invariant last <==> forall y | y in stops && y !in rest && y != x && stops[y].live :: stops[y].state != Waiting
      decreases rest
    {
      var y :| y in rest;
      rest := rest - {y};
      if y != x && stops[y].live && stops[y].state == Waiting { last := false; }
    }
  }

  /** No stop keeps a place, and the shipment's own stop goes. */
  method TakeOff(stops: map<Id, Stop>, x: Id) returns (left: map<Id, Stop>)
    ensures left == Unstop(Cleared(stops), x)
  {
    left := map y | y in stops :: stops[y].(place := None);
    if x in left && left[x].live { left := left[x := left[x].(live := false, version := left[x].version + 1)]; }
  }

  /** Clears every place before the new ones are given, one stop after the other. */
  method GivePlaces(stops: map<Id, Stop>, ordered: seq<Id>) returns (placed: map<Id, Stop>)
    ensures placed == Places(Cleared(stops), ordered)
  {
    placed := Cleared(stops);
    for k := 0 to |ordered|
      invariant placed == Places(Cleared(stops), ordered[..k])
    {
      PlacesGrow(Cleared(stops), ordered, k);
      var x := ordered[k];
      if x in placed { placed := placed[x := placed[x].(place := Some(k + 1), version := placed[x].version + 1)]; }
    }
    assert ordered[..|ordered|] == ordered;
  }

  class Desk {
    const id: Id
    var status: TripStatus
    var version: nat
    var weight: nat
    var volume: nat
    var plan: Option<Plan>
    var capacity: Option<(nat, nat)>
    var assignment: Option<Id>
    var members: seq<Member>
    var stops: map<Id, Stop>
    var ops: seq<Op>
    var lock: Option<nat>
    var dispatches: seq<Dispatch>
    var attempts: seq<Attempt>
    var tokens: set<nat>
    var approvals: set<Approval>
    var selections: set<BatchRequest>

    function View(): (t: Trip)
      reads this
    {
      Trip(id, status, version, weight, volume, plan, capacity, assignment, members, stops, ops, lock, dispatches,
           attempts, tokens, approvals, selections)
    }

    /** The rows are as every transaction of the trip leaves them. */
    ghost predicate Valid()
      reads this
    {
      TI.Inv(View())
    }

    constructor (trip: Id, vehicle: Option<Id>)
      ensures Valid() && View() == NewTrip(trip, vehicle)
    {
      TI.NewInv(trip, vehicle);
      hide TI.Inv;
      id, status, version, weight, volume := trip, Draft, 1, 0, 0;
      plan, capacity, assignment := None, None, vehicle;
      members, stops, ops, lock := [], map[], [], None;
      dispatches, attempts, tokens, approvals, selections := [], [], {}, {}, {};
    }

    method UpdateDetails(expected: nat, vehicle: Option<Id>) returns (ok: bool)
      requires Valid()
      modifies this
      ensures Valid() && ok == CanUpdate(old(View()), expected)
      ensures View() == if ok then UpdateFields(old(View()), vehicle) else old(View())
      ensures O.UpdateResult(old(View()), expected, vehicle, ok, View())
    {
      hide TI.Inv, O.UpdateResult;
      O.UpdateOutcome(View(), expected, vehicle);
      if !CanUpdate(View(), expected) { return false; }
      TS.UpdateKeeps(View(), expected, vehicle);
      assignment, version := vehicle, version + 1;
      return true;
    }

    method AddShipments(expected: nat, actor: Id, lines: seq<Line>) returns (ok: bool)
      requires Valid()
      modifies this
      ensures Valid() && ok == CanAdd(old(View()), expected, lines)
      ensures View() == if ok then BeginAdd(old(View()), actor, lines) else old(View())
      ensures O.AddResult(old(View()), expected, actor, lines, ok, View())
    {
      hide TI.Inv, CanAdd, O.AddResult;
      O.AddOutcome(View(), expected, actor, lines);
      if !CanAdd(View(), expected, lines) { return false; }
      TS.AddKeeps(View(), expected, actor, lines);
      var rows: seq<Member> := [];
      for k := 0 to |lines|
        invariant View() == old(View()) && |rows| == k
        invariant forall i | 0 <= i < k :: rows[i] == NewMember(old(View()), actor, lines[i])
      {
        var request := ClaimRequest(lines[k].request, id, lines[k].shipment, actor, version + 1, lines[k].version);
        rows := rows + [Member(lines[k].shipment, |ops|, ClaimPending, request, None, lines[k].version, 0, 0, None)];
      }
      assert rows == seq(|lines|, i requires 0 <= i < |lines| => NewMember(old(View()), actor, lines[i]));
      members := members + rows;
      TakeLock(Add, actor, LineShipments(lines));
      version := version + 1;
      return true;
    }

    /** Gives every picked active row its release request. */
    method LeaveRows(picked: set<Id>, actor: Id, newIds: seq<Id>) returns (rows: seq<Member>)
      requires |newIds| == |members| && ClaimsKnown(members, picked)
      ensures rows == LeaveAll(View(), picked, actor, newIds)
    {
      rows := [];
      for k := 0 to |members|
        invariant |rows| == k && forall i | 0 <= i < k :: rows[i] == LeaveAll(View(), picked, actor, newIds)[i]
      {
        var m := members[k];
        if m.state == Active && m.shipment in picked {
          var request := ReleaseRequest(newIds[k], m.claim.value, id, m.shipment, actor, version + 1, m.version);
          m := m.(op := |ops|, state := ReleasePending, releaseReq := Some(request));
        }
        rows := rows + [m];
      }
    }

    method RemoveShipments(expected: nat, actor: Id, ids: seq<Id>, newIds: seq<Id>) returns (ok: bool)
      requires Valid() && |newIds| == |members|
      modifies this
      ensures Valid() && ok == CanRemove(old(View()), expected, ids)
      ensures View() == if ok then BeginRemove(old(View()), actor, ids, newIds) else old(View())
      ensures O.RemoveResult(old(View()), expected, actor, ids, newIds, ok, View())
    {
      hide TI.Inv, LeaveAll, Picked, O.RemoveResult;
      O.RemoveOutcome(View(), expected, actor, ids, newIds);
      if !CanRemove(View(), expected, ids) { return false; }
      TS.RemoveKeeps(View(), expected, actor, ids, newIds);
      var named := Names(members, Listing(ids));
      members := LeaveRows(Listing(ids), actor, newIds);
      TakeLock(Remove, actor, named);
      version := version + 1;
      return true;
    }

    method Cancel(expected: nat, actor: Id, newIds: seq<Id>) returns (ok: bool)
      requires Valid() && |newIds| == |members|
      modifies this
      ensures Valid() && ok == CanCancel(old(View()), expected)
      ensures View() == if ok then BeginCancel(old(View()), actor, newIds) else old(View())
      ensures O.CancelResult(old(View()), expected, actor, newIds, ok, View())
    {
      hide TI.Inv, LeaveAll, Picked, PresentShipments, O.CancelResult;
      O.CancelOutcome(View(), expected, actor, newIds);
      if !CanCancel(View(), expected) { return false; }
      TS.CancelKeeps(View(), expected, actor, newIds);
      var picked := PresentShipments(members);
      var named := Names(members, picked);
      members := LeaveRows(picked, actor, newIds);
      TakeLock(CancelTrip, actor, named);
      version := version + 1;
      return true;
    }

    method RecalculateTotals()
      modifies this`weight, this`volume
      ensures weight == ActiveWeight(members) && volume == ActiveVolume(members)
    {
      weight, volume := Totals(members);
    }

    /** A new pending operation takes the lock. */
    method TakeLock(kind: Kind, actor: Id, shipments: seq<Id>)
      modifies this`lock, this`ops
      ensures lock == Some(|old(ops)|) && ops == old(ops) + [Op(kind, OpPending, actor, shipments, [])]
    {
      lock, ops := Some(|ops|), ops + [Op(kind, OpPending, actor, shipments, [])];
    }

    method BackToDraft()
      modifies this`status, this`plan, this`version
      ensures status == Draft && plan == None && version == old(version) + 1
    {
      status, plan, version := Draft, None, version + 1;
    }

    /** The row leaves, and no stop keeps a place. */
    method TakeRowOff(i: nat, shipmentVersion: nat, request: Id)
      requires i < |members| && members[i].claim.Some?
      modifies this`members, this`stops
      ensures stops == Unstop(Cleared(old(stops)), old(members)[i].shipment)
      ensures members == old(members)[i := Leaving(old(View()), old(members)[i].(version := shipmentVersion), |ops|,
                                                   old(members)[i].claimReq.actor, version + 1, request)]
    {
      var m := members[i];
      var release := ReleaseRequest(request, m.claim.value, id, m.shipment, m.claimReq.actor, version + 1,
          shipmentVersion);
      members := members[i := m.(op := |ops|, state := ReleasePending, version := shipmentVersion,
          releaseReq := Some(release))];
      stops := TakeOff(stops, m.shipment);
    }

    /** A canceled shipment takes the trip back to a draft and its row out of the manifest. */
    method TakeBack(i: nat, shipmentVersion: nat, request: Id)
      requires CanConsume(View(), i)
      modifies this
      ensures View() == Consume(old(View()), i, shipmentVersion, request)
    {
      hide ActiveWeight, ActiveVolume, Unstop, Cleared, Leaving, NoPending;
      var actor := members[i].claimReq.actor;
      var shipment := members[i].shipment;
      TakeRowOff(i, shipmentVersion, request);
      TakeLock(ShipmentGone, actor, [shipment]);
      BackToDraft();
      RecalculateTotals();
    }

    method ConsumeCanceled(i: nat, shipmentVersion: nat, request: Id) returns (ok: bool)
      requires Valid()
      modifies this
      ensures Valid() && ok == CanConsume(old(View()), i)
      ensures View() == if ok then Consume(old(View()), i, shipmentVersion, request) else old(View())
      ensures O.ConsumeResult(old(View()), i, shipmentVersion, request, ok, View())
    {
      hide TI.Inv, CanConsume, Consume, O.ConsumeResult;
      O.ConsumeOutcome(View(), i, shipmentVersion, request);
      ok := CanConsume(View(), i);
      if ok { TS.ConsumeKeeps(View(), i, shipmentVersion, request); }
      if ok { TakeBack(i, shipmentVersion, request); }
    }

    method StoreClaim(i: nat, r: Receipt)
      requires Valid() && i < |members| && r.Claimed?
      modifies this
      ensures Valid() && View() == PersistClaim(old(View()), i, r) && O.ClaimStored(old(View()), i, r, View())
    {
      hide TI.Inv, ActiveWeight, ActiveVolume, O.ClaimStored;
      O.StoreClaimOutcome(View(), i, r);
      StoreClaimMeans(View(), i, r);
      var m := members[i];
      if m.state != ClaimPending { return; }
      var x := m.shipment;
      if x in stops {
        stops := stops[x := stops[x].(live := true, state := Waiting, version := stops[x].version + 1)];
      } else {
        stops := stops[x := Stop(true, Waiting, None, 1)];
      }
      members := members[i := m.(state := Active, claim := Some(r.claim), version := r.version, weight := r.weight,
          volume := r.volume)];
      RecalculateTotals();
    }

    /** Turns every row of the operation round: a claimed row asks for its release in the name of the
        operation's actor and at the trip's version, a row still waiting is released. The throw for a row
        without a claim receipt is never reached. */
    method BeginCompensation(invalid: Option<(nat, Receipt)>, newIds: seq<Id>)
      requires Valid() && lock.Some? && lock.value < |ops| && ops[lock.value].kind == Add && |newIds| == |members|
      requires invalid.Some? ==>
               invalid.value.0 < |members| && members[invalid.value.0].state == ClaimPending && invalid.value.1.Claimed?
      modifies this
      ensures Valid() && View() == Compensate(old(View()), invalid, newIds)
      ensures O.CompensateResult(old(View()), invalid, newIds, View())
    {
      hide TI.Inv, O.CompensateResult;
      CompensateMeans(View(), invalid, newIds);
      O.CompensateOutcome(View(), invalid, newIds);
      var op := ops[lock.value];
      var rows := members;
      if invalid.Some? {
        var r := invalid.value.1;
        rows := rows[invalid.value.0 := rows[invalid.value.0].(state := Active, claim := Some(r.claim),
            version := r.version)];
      }
      ghost var t, base := View(), rows;
      assert base == WithClaim(members, invalid);
      for k := 0 to |rows|
        invariant |rows| == |base| == |newIds| && View() == old(View()) == t
        invariant forall i | 0 <= i < k :: rows[i] == Undo(t, base[i], op.actor, newIds[i])
        invariant forall i | 0 <= i < |base| && base[i].state == Active :: base[i].claim.Some?
        invariant forall i | k <= i < |rows| :: rows[i] == base[i]
      {
        var m := rows[k];
        if lock == Some(m.op) {
          if m.state == Active {
            if m.claim.None? { assert false; }
            var release := ReleaseRequest(newIds[k], m.claim.value, id, m.shipment, op.actor, version, m.version);
            rows := rows[k := m.(state := ReleasePending, releaseReq := Some(release))];
          } else if m.state == ClaimPending {
            rows := rows[k := m.(state := Released)];
          }
        }
      }
      assert rows == seq(|base|, i requires 0 <= i < |base| => Undo(t, base[i], op.actor, newIds[i]));
      members := rows;
      ops := ops[lock.value := op.(status := Compensating)];
    }

    method StoreRelease(i: nat)
      requires Valid() && i < |members|
      modifies this
      ensures Valid() && View() == PersistRelease(old(View()), i) && O.ReleaseStored(old(View()), i, View())
    {
      hide TI.Inv, ActiveWeight, ActiveVolume, O.ReleaseStored;
      O.StoreReleaseOutcome(View(), i);
      StoreReleaseMeans(View(), i);
      var m := members[i];
      if m.state != ReleasePending { return; }
      members := members[i := m.(state := Released)];
      var x := m.shipment;
      if x in stops && stops[x].live {
        stops := stops[x := stops[x].(live := false, place := None, version := stops[x].version + 1)];
      }
      RecalculateTotals();
    }

    /** The operation reports its rows and gives up the lock. */
    method CloseOperation(o: nat, outcome: OpStatus)
      requires o < |ops|
      modifies this`ops, this`lock
      ensures ops == old(ops)[o := old(ops)[o].(status := outcome, result := Results(members, o))] && lock == None
    {
      var result := Report(members, o);
      ops, lock := ops[o := ops[o].(status := outcome, result := result)], None;
    }

    /** A canceled trip is emptied; any other gets the totals of its active rows. */
    method CloseTrip(cancel: bool)
      modifies this`weight, this`volume, this`status, this`plan, this`version
      ensures weight == (if cancel then 0 else ActiveWeight(members))
      ensures volume == if cancel then 0 else ActiveVolume(members)
      ensures status == (if cancel then TripCanceled else old(status)) && plan == if cancel then None else old(plan)
      ensures version == old(version) + 1
    {
      hide ActiveWeight, ActiveVolume;
      RecalculateTotals();
      if cancel { weight, volume, status, plan := 0, 0, TripCanceled, None; }
      version := version + 1;
    }

    method Settle()
      requires CanFinalize(View())
      modifies this
      ensures View() == Finalize(old(View()))
    {
      hide CanFinalize, ActiveWeight, ActiveVolume, Results;
      FinalizeLocked(View());
      var o := lock.value;
      var op := ops[o];
      var outcome := if op.status == Compensating then OpRejected else OpCompleted;
      CloseTrip(op.kind == CancelTrip && outcome == OpCompleted);
      CloseOperation(o, outcome);
    }

    /** The operation reports exactly the shipments it was begun for. */
    method FinalizeOperation() returns (ok: bool)
      requires Valid()
      modifies this
      ensures Valid() && ok == CanFinalize(old(View()))
      ensures View() == if ok then Finalize(old(View())) else old(View())
      ensures O.FinalizeResult(old(View()), ok, View())
      ensures ok ==> old(lock).Some? && old(lock).value < |old(ops)|
      ensures ok ==> TI.Reported(Results(members, old(lock).value)) == old(ops)[old(lock).value].shipments
    {
      hide TI.Inv, CanFinalize, Finalize, Results, TI.Reported, O.FinalizeResult;
      O.FinalizeOutcome(View());
      ok := CanFinalize(View());
      if ok {
        FinalizeMeans(View());
        assert Finalize(View()).members == members by { FinalizeRows(View()); }
        Settle();
      }
    }

    /** The stored totals fit the capacity that was read before the transaction. */
    method ApproveRoute(a: Approval, planId: Id) returns (ok: bool)
      requires Valid()
      modifies this
      ensures ok ==> weight <= a.capacity.0 && volume <= a.capacity.1
      ensures Valid() && ok == CanApprove(old(View()), a)
      ensures View() == if ok then Approve(old(View()), a, planId) else old(View())
      ensures O.ApproveResult(old(View()), a, planId, ok, View())
    {
      hide TI.Inv, CanApprove, Places, O.ApproveResult;
      O.ApproveOutcome(View(), a, planId);
      if !CanApprove(View(), a) { return false; }
      ApproveMeans(View(), a, planId);
      stops := GivePlaces(stops, a.ordered);
      status, plan, capacity, version := Approved, Some(Plan(planId, a.ordered)), Some(a.capacity), version + 1;
      return true;
    }

    /** After reopening, no approval read before can still be used. */
    method ReopenRoute(expected: nat) returns (ok: bool)
      requires Valid()
      modifies this
      ensures ok ==> forall a | a in approvals :: !CanApprove(View(), a)
      ensures Valid() && ok == RouteTrip(old(View()), expected, Approved)
      ensures View() == if ok then Reopen(old(View())) else old(View())
      ensures O.ReopenResult(old(View()), expected, ok, View())
    {
      hide TI.Inv, CanApprove, NoPending, O.ReopenResult;
      O.ReopenOutcome(View(), expected);
      if !RouteTrip(View(), expected, Approved) { return false; }
      ReopenMeans(View(), expected);
      stops := map x | x in stops :: stops[x].(place := None, version := stops[x].version + 1);
      status, plan, version := Draft, None, version + 1;
      return true;
    }

    /** A dispatch is accepted for a selection whose version still stands, on a trip at rest. */
    method AcceptDispatch(q: BatchRequest) returns (ok: bool)
      requires Valid()
      modifies this
      ensures Valid() && ok == CanAccept(old(View()), q)
      ensures O.AcceptResult(old(View()), q, ok, View())
    {
      hide TI.Inv, O.AcceptResult, NoPending;
      O.AcceptOutcome(View(), q);
      if !CanAccept(View(), q) { return false; }
      TS.StepKeeps(View(), DoAccept(q));
      dispatches := dispatches + [Dispatch(q, Accepted, None)];
      return true;
    }

    /** A receipt moves a dispatch on to RECEIPTED, or rejects it. */
    method StoreReceipt(d: nat, granted: bool)
      requires Valid() && Guard(View(), DoReceipt(d, granted))
      modifies this
      ensures Valid() && d < |old(dispatches)|
      ensures dispatches == old(dispatches)[d :=
                old(dispatches)[d].(stage := if granted then Receipted else DispatchRejected)]
      ensures View() == old(View()).(dispatches := dispatches)
    {
      hide TI.Inv;
      TS.StepKeeps(View(), DoReceipt(d, granted));
      dispatches := dispatches[d := dispatches[d].(stage := if granted then Receipted else DispatchRejected)];
    }

    /** A receipted dispatch always finds the trip as it left it: the binding check never fails. */
    method CommitDispatch(d: nat) returns (ok: bool)
      requires Valid()
      modifies this
      ensures ok <==> d < |old(dispatches)| && old(dispatches)[d].stage == Receipted && old(version) < MAX_SAFE
      ensures Valid() && ok == CanCommitTrip(old(View()), d)
      ensures View() == if ok then CommitTrip(old(View()), d) else old(View())
      ensures O.DispatchResult(old(View()), d, ok, View())
    {
      hide TI.Inv, O.DispatchResult;
      O.DispatchOutcome(View(), d);
      CommitTripMeans(View(), d);
      if !CanCommitTrip(View(), d) { return false; }
      status, version := InProgress, version + 1;
      dispatches := dispatches[d := dispatches[d].(stage := DispatchDone, result := Some(version))];
      return true;
    }

    /** The stop acted on is the next one of the approved order; it ends as the driver says, and so the
        attempt is recorded. */
    method ApplyDriver(x: Id, tripVersion: nat, stopVersion: nat, delivered: bool, detail: nat) returns (ok: bool)
      requires Valid()
      modifies this
      ensures ok ==> plan.Some? && |old(attempts)| < |plan.value.ordered| && plan.value.ordered[|old(attempts)|] == x
      ensures Valid() && ok == CanDrive(old(View()), x, tripVersion, stopVersion)
      ensures View() == if ok then Drive(old(View()), x, delivered, detail) else old(View())
      ensures O.DriveResult(old(View()), x, tripVersion, stopVersion, delivered, detail, ok, View())
      ensures ok ==>
               x in stops && stops[x].state == (if delivered then DroppedOff else GaveUp)
               && attempts == old(attempts) + [Attempt(x, delivered, detail)]
    {
      hide TI.Inv, IsNext, LastOne, O.DriveResult;
      O.DriveOutcome(View(), x, tripVersion, stopVersion, delivered, detail);
      if !CanDrive(View(), x, tripVersion, stopVersion) { return false; }
      DriveMeans(View(), x, tripVersion, stopVersion, delivered, detail);
      assert x in stops by { NextIsStop(stops, x); }
      var last := Remaining(stops, x);
      stops := stops[x := stops[x].(state := if delivered then DroppedOff else GaveUp,
          version := stops[x].version + 1)];
      if last { status := TripCompleted; }
      version := version + 1;
      attempts := attempts + [Attempt(x, delivered, detail)];
      return true;
    }
  }
}
