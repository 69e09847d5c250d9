/** What each transaction of a trip leaves behind, told by its rows alone: when it goes through, which
    rows change, and to what. */
module TripOutcomes {
  import opened Shipments
  import opened Fulfillment
  import opened Trips
  import TI = TripInvariant
  import TS = TripSteps

  const TOP: nat := 0x1F_FFFF_FFFF_FFFF

  // ----- Rows -----

  /** The row asks for the release of its claim, for this operation, actor and trip version. */
  ghost predicate Asks(trip: Id, m: Member, op: nat, actor: Id, tripVersion: nat, request: Id, m': Member) {
    m.claim.Some?
    && m' == m.(op := op, state := ReleasePending,
                releaseReq := Some(ReleaseRequest(request, m.claim.value, trip, m.shipment, actor, tripVersion,
                                                  m.version)))
  }

  /** A new pending operation holds the lock, and the trip is one version further. */
  ghost predicate Begins(t: Trip, kind: Kind, actor: Id, t': Trip) {
    && t.lock == None && t'.lock == Some(|t.ops|) && |t'.ops| == |t.ops| + 1 && t'.ops[..|t.ops|] == t.ops
    && t'.ops[|t.ops|] == Op(kind, OpPending, actor, t'.ops[|t.ops|].shipments, [])
    && t'.version == t.version + 1
  }

  predicate Resting(t: Trip) {
    t.lock == None && forall d | 0 <= d < |t.dispatches| :: t.dispatches[d].stage == DispatchRejected
  }

  /** The shipment has a row that has not been released. */
  predicate Aboard(ms: seq<Member>, x: Id) {
    exists i | 0 <= i < |ms| :: ms[i].shipment == x && ms[i].state != Released
  }

  // ----- Fields -----

  ghost predicate UpdateResult(t: Trip, expected: nat, assignment: Option<Id>, ok: bool, t': Trip) {
    && (ok <==> t.version == expected && t.version < TOP && t.status == Draft && t.lock == None)
    && t' == if ok then t.(assignment := assignment, version := t.version + 1) else t
  }

  lemma UpdateOutcome(t: Trip, expected: nat, assignment: Option<Id>)
    ensures UpdateResult(t, expected, assignment, CanUpdate(t, expected),
                         if CanUpdate(t, expected) then UpdateFields(t, assignment) else t)
  {
  }

  // ----- Operations that begin -----

  ghost predicate AddResult(t: Trip, expected: nat, actor: Id, lines: seq<Line>, ok: bool, t': Trip) {
    && (ok <==>
          && t.version == expected && t.version < TOP && t.status == Draft && t.lock == None
          && (forall i | 0 <= i < |lines| :: !Aboard(t.members, lines[i].shipment))
          && (forall i, j | 0 <= i < |lines| && 0 <= j < |lines| && i != j :: lines[i].shipment != lines[j].shipment))
    && (!ok ==> t' == t)
    && (ok ==>
          && Begins(t, Add, actor, t') && t' == t.(members := t'.members, ops := t'.ops, lock := t'.lock,
                                                    version := t'.version)
          && |t'.ops[|t.ops|].shipments| == |lines| && |t'.members| == |t.members| + |lines|
          && t'.members[..|t.members|] == t.members
          && (forall i | 0 <= i < |lines| ::
                && t'.ops[|t.ops|].shipments[i] == lines[i].shipment
                && t'.members[|t.members| + i]
                   == Member(lines[i].shipment, |t.ops|, ClaimPending,
                             ClaimRequest(lines[i].request, t.id, lines[i].shipment, actor, t'.version,
                                          lines[i].version),
                             None, lines[i].version, 0, 0, None)))
  }

  lemma AboardIff(ms: seq<Member>, x: Id)
    ensures Aboard(ms, x) <==> x in PresentShipments(ms)
  {
    if Aboard(ms, x) {
      var i :| 0 <= i < |ms| && ms[i].shipment == x && ms[i].state != Released;
      assert ms[i] in ms && Present(ms[i]);
    }
  }

  lemma AddOutcome(t: Trip, expected: nat, actor: Id, lines: seq<Line>)
    ensures AddResult(t, expected, actor, lines, CanAdd(t, expected, lines),
                      if CanAdd(t, expected, lines) then BeginAdd(t, actor, lines) else t)
  {
    forall i | 0 <= i < |lines| { AboardIff(t.members, lines[i].shipment); }
    hide PresentShipments, Aboard;
  }

  /** Every active row among those picked asks for its release, and no other row changes. */
  ghost predicate LeavesPicked(t: Trip, picked: set<Id>, actor: Id, newIds: seq<Id>, t': Trip)
    requires |newIds| == |t.members|
  {
    && |t'.members| == |t.members|
    && (forall i | 0 <= i < |t.members| ::
          if t.members[i].state == Active && t.members[i].shipment in picked
          then Asks(t.id, t.members[i], |t.ops|, actor, t'.version, newIds[i], t'.members[i])
          else t'.members[i] == t.members[i])
    && t' == t.(members := t'.members, ops := t'.ops, lock := t'.lock, version := t'.version)
  }

  lemma LeaveAllAsks(t: Trip, picked: set<Id>, actor: Id, newIds: seq<Id>)
    requires |newIds| == |t.members| && ClaimsKnown(t.members, picked)
    ensures |LeaveAll(t, picked, actor, newIds)| == |t.members|
    ensures forall i | 0 <= i < |t.members| ::
             var m' := LeaveAll(t, picked, actor, newIds)[i];
             if t.members[i].state == Active && t.members[i].shipment in picked
             then Asks(t.id, t.members[i], |t.ops|, actor, t.version + 1, newIds[i], m') else m' == t.members[i]
  {
  }

  predicate ClaimsStored(ms: seq<Member>, picked: set<Id>) {
    forall i | 0 <= i < |ms| && ms[i].state == Active && ms[i].shipment in picked :: ms[i].claim != None
  }

  ghost predicate RemoveResult(t: Trip, expected: nat, actor: Id, ids: seq<Id>, newIds: seq<Id>, ok: bool, t': Trip)
    requires |newIds| == |t.members|
  {
    && (ok <==>
          && t.version == expected && t.version < TOP && t.status == Draft && t.lock == None
          && (forall i, j | 0 <= i < |ids| && 0 <= j < |ids| && i != j :: ids[i] != ids[j])
          && ClaimsStored(t.members, (set x | x in ids))
          && forall x | x in ids ::
               exists i | 0 <= i < |t.members| :: t.members[i].shipment == x && t.members[i].state == Active)
    && (!ok ==> t' == t)
    && (ok ==> Begins(t, Remove, actor, t') && LeavesPicked(t, (set x | x in ids), actor, newIds, t'))
  }

  lemma RemoveOutcome(t: Trip, expected: nat, actor: Id, ids: seq<Id>, newIds: seq<Id>)
    requires |newIds| == |t.members|
    ensures RemoveResult(t, expected, actor, ids, newIds, CanRemove(t, expected, ids),
                         if CanRemove(t, expected, ids) then BeginRemove(t, actor, ids, newIds) else t)
  {
    hide LeaveAll, Picked, Asks;
    if CanRemove(t, expected, ids) {
      LeaveAllAsks(t, Listing(ids), actor, newIds);
    }
  }

  ghost predicate CancelResult(t: Trip, expected: nat, actor: Id, newIds: seq<Id>, ok: bool, t': Trip)
    requires |newIds| == |t.members|
  {
    && (ok <==>
          && t.version == expected && t.version < TOP && (t.status == Draft || t.status == Approved) && Resting(t)
          && (forall i | 0 <= i < |t.members| && t.members[i].state == Active :: t.members[i].claim != None))
    && (!ok ==> t' == t)
    && (ok ==>
          Begins(t, CancelTrip, actor, t')
          && LeavesPicked(t, (set i | 0 <= i < |t.members| :: t.members[i].shipment), actor, newIds, t'))
  }

  lemma CancelOutcome(t: Trip, expected: nat, actor: Id, newIds: seq<Id>)
    requires |newIds| == |t.members|
    ensures CancelResult(t, expected, actor, newIds, CanCancel(t, expected),
                         if CanCancel(t, expected) then BeginCancel(t, actor, newIds) else t)
  {
    hide LeaveAll, Picked, Asks, PresentShipments;
    forall i | 0 <= i < |t.members| && t.members[i].state == Active
      ensures t.members[i].shipment in PresentShipments(t.members)
    {
      ActivePresent(t.members, i);
    }
    if CanCancel(t, expected) {
      LeaveAllAsks(t, PresentShipments(t.members), actor, newIds);
    }
  }

  lemma ActivePresent(ms: seq<Member>, i: nat)
    requires i < |ms| && ms[i].state == Active
    ensures ms[i].shipment in PresentShipments(ms)
  {
    assert ms[i] in ms && Present(ms[i]);
  }

  /** The totals stored are those of the active rows. */
  ghost predicate Counted(t: Trip) { t.weight == ActiveWeight(t.members) && t.volume == ActiveVolume(t.members) }

  ghost predicate ConsumeResult(t: Trip, i: nat, shipmentVersion: nat, request: Id, ok: bool, t': Trip) {
    && (ok <==>
          && i < |t.members| && t.members[i].state == Active && t.members[i].claim != None
          && (t.status == Draft || t.status == Approved) && Resting(t) && t.version < TOP)
    && (!ok ==> t' == t)
    && (ok ==>
          var (m, x) := (t.members[i], t.members[i].shipment);
          && Begins(t, ShipmentGone, m.claimReq.actor, t') && t'.ops[|t.ops|].shipments == [x]
          && t'.status == Draft && t'.plan == None && Counted(t')
          && |t'.members| == |t.members| && t'.members == t.members[i := t'.members[i]]
          && Asks(t.id, m.(version := shipmentVersion), |t.ops|, m.claimReq.actor, t'.version, request, t'.members[i])
          && t'.stops.Keys == t.stops.Keys
          && (forall y | y in t.stops ::
                t'.stops[y] == if y == x && t.stops[y].live
                               then t.stops[y].(live := false, place := None, version := t.stops[y].version + 1)
                               else t.stops[y].(place := None))
          && t' == t.(members := t'.members, ops := t'.ops, lock := t'.lock, stops := t'.stops, plan := None,
                      status := Draft, version := t'.version, weight := t'.weight, volume := t'.volume))
  }

  lemma ConsumeOutcome(t: Trip, i: nat, shipmentVersion: nat, request: Id)
    ensures ConsumeResult(t, i, shipmentVersion, request, CanConsume(t, i),
                          if CanConsume(t, i) then Consume(t, i, shipmentVersion, request) else t)
  {
    hide ActiveWeight, ActiveVolume;
  }

  // ----- Operations under way -----

  ghost predicate ClaimStored(t: Trip, i: nat, r: Receipt, t': Trip)
    requires i < |t.members| && r.Claimed?
  {
    if t.members[i].state != ClaimPending then t' == t
    else
      var x := t.members[i].shipment;
      && t'.members == t.members[i := t.members[i].(state := Active, claim := Some(r.claim), version := r.version,
                                                   weight := r.weight, volume := r.volume)]
      && x in t'.stops && t'.stops[x].live && t'.stops[x].state == Waiting && Counted(t')
      && t'.stops[x] == (if x in t.stops
                         then Stop(true, Waiting, t.stops[x].place, t.stops[x].version + 1)
                         else Stop(true, Waiting, None, 1))
      && t' == t.(members := t'.members, stops := t.stops[x := t'.stops[x]], weight := t'.weight, volume := t'.volume)
  }

  lemma StoreClaimOutcome(t: Trip, i: nat, r: Receipt)
    requires i < |t.members| && r.Claimed?
    ensures ClaimStored(t, i, r, PersistClaim(t, i, r))
  {
    hide ActiveWeight, ActiveVolume;
  }

  /** What compensation does to a row of the operation. A claim that went through although its snapshot
      does not match is taken down before it is given back. */
  ghost predicate TurnsRound(t: Trip, m: Member, invalid: Option<Receipt>, actor: Id, request: Id, m': Member) {
    match m.state
    case Active => Asks(t.id, m, m.op, actor, t.version, request, m')
    case ClaimPending =>
      if invalid.Some? && invalid.value.Claimed?
      then Asks(t.id, m.(claim := Some(invalid.value.claim), version := invalid.value.version), m.op, actor, t.version,
                request, m')
      else m' == m.(state := Released)
    case _ => m' == m
  }

  ghost predicate CompensateResult(t: Trip, invalid: Option<(nat, Receipt)>, newIds: seq<Id>, t': Trip)
    requires t.lock.Some? && t.lock.value < |t.ops| && |newIds| == |t.members|
  {
    var o := t.lock.value;
    && |t'.members| == |t.members|
    && (forall i | 0 <= i < |t.members| ::
          if t.members[i].op == o
          then TurnsRound(t, t.members[i],
                          if invalid.Some? && invalid.value.0 == i then Some(invalid.value.1) else None,
                          t.ops[o].actor, newIds[i], t'.members[i])
          else t'.members[i] == t.members[i])
    && t' == t.(members := t'.members, ops := t.ops[o := t.ops[o].(status := Compensating)])
  }

  lemma CompensateOutcome(t: Trip, invalid: Option<(nat, Receipt)>, newIds: seq<Id>)
    requires TI.Inv(t) && t.lock.Some? && t.lock.value < |t.ops| && |newIds| == |t.members|
    requires invalid.Some? ==>
               invalid.value.0 < |t.members| && t.members[invalid.value.0].state == ClaimPending
               && invalid.value.1.Claimed?
    ensures CompensateResult(t, invalid, newIds, Compensate(t, invalid, newIds))
  {
    forall i | 0 <= i < |t.members| && t.members[i].state in {Active, ClaimPending}
      ensures t.members[i].state == Active ==> t.members[i].claim.Some?
      ensures t.members[i].state == ClaimPending ==> t.members[i].op == t.lock.value
    {
      TS.WaitingMeans(t, i);
    }
    hide TI.Inv;
  }

  ghost predicate ReleaseStored(t: Trip, i: nat, t': Trip)
    requires i < |t.members|
  {
    if t.members[i].state != ReleasePending then t' == t
    else
      var x := t.members[i].shipment;
      && t'.members == t.members[i := t.members[i].(state := Released)] && Counted(t')
      && t'.stops.Keys == t.stops.Keys
      && (forall y | y in t.stops ::
            t'.stops[y] == if y == x && t.stops[y].live
                           then t.stops[y].(live := false, place := None, version := t.stops[y].version + 1)
                           else t.stops[y])
      && t' == t.(members := t'.members, stops := t'.stops, weight := t'.weight, volume := t'.volume)
  }

  lemma StoreReleaseOutcome(t: Trip, i: nat)
    requires i < |t.members|
    ensures ReleaseStored(t, i, PersistRelease(t, i))
  {
    hide ActiveWeight, ActiveVolume;
  }

  /** The operation has come to its end: no row of it still waits for what it is doing. */
  ghost predicate Through(t: Trip) {
    && t.lock.Some? && t.lock.value < |t.ops|
    && var (o, op) := (t.lock.value, t.ops[t.lock.value]);
       && op.status in {OpPending, Compensating}
       && (forall i | 0 <= i < |t.members| && t.members[i].op == o ::
             t.members[i].state != if op.kind == Add && op.status == OpPending then ClaimPending else ReleasePending)
  }

  ghost predicate FinalizeResult(t: Trip, ok: bool, t': Trip) {
    && (ok <==> Through(t) && t.version < TOP)
    && (!ok ==> t' == t)
    && (ok ==>
          var (o, op) := (t.lock.value, t.ops[t.lock.value]);
          var gone := op.kind == CancelTrip && op.status == OpPending;
          && t'.lock == None && t'.version == t.version + 1 && |t'.ops| == |t.ops|
          && t'.ops == t.ops[o := op.(status := if op.status == Compensating then OpRejected else OpCompleted,
                                      result := t'.ops[o].result)]
          && t'.status == (if gone then TripCanceled else t.status) && (gone ==> t'.plan == None)
          && (if gone then t'.weight == 0 && t'.volume == 0 else Counted(t') && t'.plan == t.plan)
          && (forall x, state :: (x, state) in t'.ops[o].result <==>
                exists i | 0 <= i < |t.members| ::
                  t.members[i].op == o && t.members[i].shipment == x && t.members[i].state == state)
          && t' == t.(lock := None, version := t'.version, ops := t'.ops, status := t'.status, plan := t'.plan,
                      weight := t'.weight, volume := t'.volume))
  }

  lemma {:induction false} ResultsIff(ms: seq<Member>, o: nat, x: Id, state: MemberState)
    ensures (x, state) in Results(ms, o) <==>
            exists i | 0 <= i < |ms| :: ms[i].op == o && ms[i].shipment == x && ms[i].state == state
  {
    if ms != [] {
      var n := |ms| - 1;
      ResultsIff(ms[..n], o, x, state);
      assert forall i | 0 <= i < n :: ms[..n][i] == ms[i];
      if exists i | 0 <= i < |ms| :: ms[i].op == o && ms[i].shipment == x && ms[i].state == state {
        var i :| 0 <= i < |ms| && ms[i].op == o && ms[i].shipment == x && ms[i].state == state;
        if i < n { assert ms[..n][i].op == o; }
      }
    }
  }

  lemma FinalizeOutcome(t: Trip)
    ensures FinalizeResult(t, CanFinalize(t), if CanFinalize(t) then Finalize(t) else t)
  {
    hide ActiveWeight, ActiveVolume, Results;
    if t.lock.Some? {
      forall x, state { ResultsIff(t.members, t.lock.value, x, state); }
    }
  }

  // ----- Routes -----

  ghost predicate Placed(stops: map<Id, Stop>, ordered: seq<Id>, stops': map<Id, Stop>) {
    && stops'.Keys == stops.Keys
    && (forall i | 0 <= i < |ordered| && ordered[i] in stops ::
          stops'[ordered[i]] == stops[ordered[i]].(place := Some(i + 1), version := stops[ordered[i]].version + 1))
    && (forall x | x in stops && x !in ordered :: stops'[x] == stops[x].(place := None))
  }

  lemma {:induction false} PlacesEach(stops: map<Id, Stop>, ordered: seq<Id>)
    requires Distinct(ordered)
    ensures Places(stops, ordered).Keys == stops.Keys
    ensures forall i | 0 <= i < |ordered| && ordered[i] in stops ::
              Places(stops, ordered)[ordered[i]]
              == stops[ordered[i]].(place := Some(i + 1), version := stops[ordered[i]].version + 1)
    ensures forall x | x in stops && x !in ordered :: Places(stops, ordered)[x] == stops[x]
  {
    if ordered != [] {
      var n := |ordered| - 1;
      PlacesEach(stops, ordered[..n]);
      assert ordered == ordered[..n] + [ordered[n]];
      assert ordered[n] !in ordered[..n];
    }
  }

  /** Every live stop is listed, once, and nothing else is. */
  ghost predicate ListsLive(stops: map<Id, Stop>, ordered: seq<Id>) {
    && ordered != [] && (forall i, j | 0 <= i < |ordered| && 0 <= j < |ordered| && i != j :: ordered[i] != ordered[j])
    && (forall x :: x in ordered <==> x in stops && stops[x].live)
  }

  lemma ListsIff(stops: map<Id, Stop>, ordered: seq<Id>)
    ensures ListsLive(stops, ordered) <==> |LiveStops(stops)| == |ordered| && Permutation(ordered, LiveStops(stops))
  {
    if Permutation(ordered, LiveStops(stops)) {
      TS.PermutationExact(ordered, LiveStops(stops));
      forall x ensures x in ordered <==> x in stops && stops[x].live {
        assert x in ordered <==> x in Listing(ordered);
      }
    }
    if ListsLive(stops, ordered) {
      TS.Count(ordered);
      assert LiveStops(stops) == Listing(ordered) && ordered[0] in LiveStops(stops);
    }
  }

  ghost predicate ApproveResult(t: Trip, a: Approval, planId: Id, ok: bool, t': Trip) {
    && (ok <==>
          && a in t.approvals && t.version == a.expected && t.version < TOP && t.status == Draft && Resting(t)
          && (forall i | 0 <= i < |t.members| :: t.members[i].state in {Active, Released})
          && ListsLive(t.stops, a.ordered))
    && (ok ==>
          && t'.status == Approved && t'.version == t.version + 1 && t'.plan == Some(Plan(planId, a.ordered))
          && t'.capacity == Some(a.capacity) && Placed(t.stops, a.ordered, t'.stops)
          && t' == t.(status := Approved, version := t'.version, plan := t'.plan, capacity := t'.capacity,
                      stops := t'.stops))
    && (!ok ==> t' == t)
  }

  lemma ApproveOutcome(t: Trip, a: Approval, planId: Id)
    ensures ApproveResult(t, a, planId, CanApprove(t, a), if CanApprove(t, a) then Approve(t, a, planId) else t)
  {
    if CanApprove(t, a) { PlacesEach(Cleared(t.stops), a.ordered); }
    ListsIff(t.stops, a.ordered);
    hide Places, LiveStops, ListsLive, Permutation;
  }

  ghost predicate ReopenResult(t: Trip, expected: nat, ok: bool, t': Trip) {
    && (ok <==> t.version == expected && t.version < TOP && t.status == Approved && Resting(t))
    && (!ok ==> t' == t)
    && (ok ==>
          && t'.stops.Keys == t.stops.Keys
          && (forall x | x in t.stops :: t'.stops[x] == t.stops[x].(place := None, version := t.stops[x].version + 1))
          && t' == t.(status := Draft, plan := None, version := t.version + 1, stops := t'.stops))
  }

  lemma ReopenOutcome(t: Trip, expected: nat)
    ensures ReopenResult(t, expected, RouteTrip(t, expected, Approved),
                         if RouteTrip(t, expected, Approved) then Reopen(t) else t)
  {
  }

  // ----- Dispatch -----

  ghost predicate AcceptResult(t: Trip, q: BatchRequest, ok: bool, t': Trip) {
    && (ok <==>
          q in t.selections && t.version == q.tripVersion && t.version < TOP && t.status == Approved && Resting(t))
    && t' == if ok then t.(dispatches := t.dispatches + [Dispatch(q, Accepted, None)]) else t
  }

  lemma AcceptOutcome(t: Trip, q: BatchRequest)
    ensures AcceptResult(t, q, CanAccept(t, q),
                         if CanAccept(t, q) then t.(dispatches := t.dispatches + [Dispatch(q, Accepted, None)]) else t)
  {
  }

  /** A granted dispatch puts the trip on the road, one version further. */
  ghost predicate DispatchResult(t: Trip, d: nat, ok: bool, t': Trip) {
    && (ok <==>
          && d < |t.dispatches| && t.dispatches[d].stage == Receipted
          && t.version == t.dispatches[d].request.tripVersion && t.plan.Some?
          && t.plan.value.id == t.dispatches[d].request.plan && t.status == Approved && t.version < TOP)
    && (ok ==>
          t' == t.(status := InProgress, version := t.version + 1,
                      dispatches := t.dispatches[d := t.dispatches[d].(stage := DispatchDone,
                                                                       result := Some(t.version + 1))]))
    && (!ok ==> t' == t)
  }

  lemma DispatchOutcome(t: Trip, d: nat)
    ensures DispatchResult(t, d, CanCommitTrip(t, d), if CanCommitTrip(t, d) then CommitTrip(t, d) else t)
  {
  }

  // ----- Driving -----

  predicate Pending(s: Stop) { s.live && s.state == Waiting && s.place != None }

  /** Of the stops still to be driven to, this one has the lowest place. */
  predicate Foremost(stops: map<Id, Stop>, x: Id) {
    && x in stops && Pending(stops[x])
    && forall y | y in stops && Pending(stops[y]) && y != x ::
         stops[y].place.value > stops[x].place.value || (stops[y].place == stops[x].place && y > x)
  }

  /** The stop is what the driver says, the attempt is recorded as made, and the trip ends with its last
      waiting stop. */
  ghost predicate DriveResult(t: Trip, x: Id, version: nat, stopVersion: nat, delivered: bool, detail: nat, ok: bool,
      t': Trip)
  {
    && (ok <==>
          && t.status == InProgress && t.assignment != None && t.version == version && t.version < TOP
          && Foremost(t.stops, x) && t.stops[x].version == stopVersion)
    && (ok ==>
          && t'.stops == t.stops[x := t.stops[x].(state := if delivered then DroppedOff else GaveUp,
                                                  version := t.stops[x].version + 1)]
          && t'.attempts == t.attempts + [Attempt(x, delivered, detail)] && t'.version == t.version + 1
          && (t'.status == TripCompleted <==>
                forall y | y in t'.stops && t'.stops[y].live :: t'.stops[y].state != Waiting)
          && t'.status in {InProgress, TripCompleted}
          && t' == t.(stops := t'.stops, attempts := t'.attempts, version := t'.version, status := t'.status))
    && (!ok ==> t' == t)
  }

  lemma DriveOutcome(t: Trip, x: Id, version: nat, stopVersion: nat, delivered: bool, detail: nat)
    ensures DriveResult(t, x, version, stopVersion, delivered, detail, CanDrive(t, x, version, stopVersion),
                        if CanDrive(t, x, version, stopVersion) then Drive(t, x, delivered, detail) else t)
  {
    if CanDrive(t, x, version, stopVersion) { LastIff(t.stops, x, Drive(t, x, delivered, detail).stops); }
    hide LastOne;
  }

  lemma LastIff(stops: map<Id, Stop>, x: Id, stops': map<Id, Stop>)
    requires x in stops && x in stops' && stops' == stops[x := stops'[x]] && stops'[x].state != Waiting
    ensures LastOne(stops, x) <==> forall y | y in stops' && stops'[y].live :: stops'[y].state != Waiting
  {
    if !LastOne(stops, x) {
      var y :| y in stops && y != x && stops[y].live && stops[y].state == Waiting;
      assert stops'[y] == stops[y];
    }
  }
}
