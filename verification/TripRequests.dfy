/** Whose requests a trip's rows carry: the actor, trip version and shipment version that claims and
    releases name. */
module TripRequests {
  import opened Shipments
  import opened Fulfillment
  import opened Trips
  import opened TripOutcomes
  import TI = TripInvariant

  /** The row's requests name its operation's actor, and while they wait for an answer the trip's present
      version. */
  ghost predicate Named(ops: seq<Op>, version: nat, m: Member) {
    && m.op < |ops|
    && (m.state == ClaimPending ==> m.claimReq.tripVersion == version && m.claimReq.shipmentVersion == m.version)
    && (ops[m.op].kind == Add ==> m.claimReq.actor == ops[m.op].actor)
    && (m.releaseReq.Some? ==>
          m.releaseReq.value.actor == ops[m.op].actor && m.releaseReq.value.shipmentVersion == m.version)
    && (m.state == ReleasePending ==> m.releaseReq.Some? && m.releaseReq.value.tripVersion == version)
  }

  ghost predicate AllNamed(t: Trip) { forall i | 0 <= i < |t.members| :: Named(t.ops, t.version, t.members[i]) }

  ghost predicate SameActors(ops: seq<Op>, ops': seq<Op>) {
    |ops| <= |ops'| && forall i | 0 <= i < |ops| :: ops'[i].kind == ops[i].kind && ops'[i].actor == ops[i].actor
  }

  /** A row that waits belongs to the operation holding the lock. */
  lemma RowFacts(t: Trip, i: nat)
    requires TI.Inv(t) && i < |t.members|
    ensures t.members[i].state in {ClaimPending, ReleasePending} ==> t.lock == Some(t.members[i].op)
    ensures t.members[i].state in {ClaimPending, Active} ==> t.members[i].releaseReq == None
    ensures t.lock.None? ==> t.members[i].state in {Active, Released}
    ensures t.members[i].op < |t.ops|
  {
    hide TI.OpsOk, TI.Unique, TI.StopsOk, TI.PlacesOk, TI.TotalsOk, TI.RouteOk, TI.CapacityOk, TI.ReadsOk,
      TI.DispatchesOk, TI.DriveOk, TI.RowsListed;
    assert TI.MemberOk(t.id, t.lock, t.ops, t.status, t.stops, t.members[i]);
  }

  /** A row nobody waits for may stay as it is whatever the version. */
  lemma RestingRow(ops: seq<Op>, version: nat, ops': seq<Op>, version': nat, m: Member)
    requires Named(ops, version, m) && SameActors(ops, ops')
    requires version' == version || m.state in {Active, Released}
    ensures Named(ops', version', m)
  {
  }

  lemma RowsStay(t: Trip, t': Trip)
    requires TI.Inv(t) && AllNamed(t) && t'.members == t.members && SameActors(t.ops, t'.ops)
    requires t'.version == t.version || forall i | 0 <= i < |t.members| :: t.members[i].state in {Active, Released}
    ensures AllNamed(t')
  {
    hide TI.Inv, Named;
    forall i | 0 <= i < |t.members| ensures Named(t'.ops, t'.version, t'.members[i]) {
      assert Named(t.ops, t.version, t.members[i]);
      RestingRow(t.ops, t.version, t'.ops, t'.version, t.members[i]);
    }
  }

  lemma Unlocked(t: Trip)
    requires TI.Inv(t) && t.lock.None?
    ensures forall i | 0 <= i < |t.members| :: t.members[i].state in {Active, Released}
  {
    hide TI.Inv;
    forall i | 0 <= i < |t.members| ensures t.members[i].state in {Active, Released} { RowFacts(t, i); }
  }

  lemma AddNames(t: Trip, expected: nat, actor: Id, lines: seq<Line>, t': Trip)
    requires TI.Inv(t) && AllNamed(t) && AddResult(t, expected, actor, lines, true, t')
    ensures AllNamed(t')
  {
    hide TI.Inv;
    Unlocked(t);
    forall i | 0 <= i < |t'.members| ensures Named(t'.ops, t'.version, t'.members[i]) {
      if i < |t.members| {
        assert t'.members[i] == t'.members[..|t.members|][i];
        assert Named(t.ops, t.version, t.members[i]);
        OpsGrow(t.ops, t'.ops);
        RestingRow(t.ops, t.version, t'.ops, t'.version, t.members[i]);
      } else {
        var k := i - |t.members|;
        assert t'.ops[|t.ops|].shipments[k] == lines[k].shipment && |t.members| + k == i;
        assert t'.members[i].claimReq.actor == actor && t'.members[i].op == |t.ops|;
      }
    }
  }

  lemma OpsGrow(ops: seq<Op>, ops': seq<Op>)
    requires |ops| <= |ops'| && ops'[..|ops|] == ops
    ensures SameActors(ops, ops')
  {
    forall i | 0 <= i < |ops| ensures ops'[i] == ops[i] { assert ops'[..|ops|][i] == ops'[i]; }
  }

  lemma LeaveNames(t: Trip, kind: Kind, picked: set<Id>, actor: Id, newIds: seq<Id>, t': Trip)
    requires TI.Inv(t) && AllNamed(t) && |newIds| == |t.members| && kind != Add
    requires Begins(t, kind, actor, t') && LeavesPicked(t, picked, actor, newIds, t')
    ensures AllNamed(t')
  {
    hide TI.Inv;
    Unlocked(t);
    OpsGrow(t.ops, t'.ops);
    forall i | 0 <= i < |t'.members| ensures Named(t'.ops, t'.version, t'.members[i]) {
      assert Named(t.ops, t.version, t.members[i]);
      RowFacts(t, i);
    }
  }

  lemma ConsumeNames(t: Trip, i: nat, shipmentVersion: nat, request: Id, t': Trip)
    requires TI.Inv(t) && AllNamed(t) && ConsumeResult(t, i, shipmentVersion, request, true, t')
    ensures AllNamed(t')
  {
    hide TI.Inv, Counted;
    Unlocked(t);
    OpsGrow(t.ops, t'.ops);
    forall j | 0 <= j < |t'.members| ensures Named(t'.ops, t'.version, t'.members[j]) {
      assert Named(t.ops, t.version, t.members[j]);
      RowFacts(t, j);
    }
  }

  lemma ClaimNames(t: Trip, i: nat, r: Receipt, t': Trip)
    requires TI.Inv(t) && AllNamed(t) && i < |t.members| && r.Claimed? && ClaimStored(t, i, r, t')
    ensures AllNamed(t')
  {
    hide TI.Inv, Counted;
    RowFacts(t, i);
    forall j | 0 <= j < |t'.members| ensures Named(t'.ops, t'.version, t'.members[j]) {
      assert Named(t.ops, t.version, t.members[j]);
    }
  }

  lemma ReleaseNames(t: Trip, i: nat, t': Trip)
    requires AllNamed(t) && i < |t.members| && ReleaseStored(t, i, t')
    ensures AllNamed(t')
  {
    hide Counted;
    forall j | 0 <= j < |t'.members| ensures Named(t'.ops, t'.version, t'.members[j]) {
      assert Named(t.ops, t.version, t.members[j]);
    }
  }

  lemma CompensateNames(t: Trip, invalid: Option<(nat, Receipt)>, newIds: seq<Id>, t': Trip)
    requires TI.Inv(t) && AllNamed(t) && t.lock.Some? && t.lock.value < |t.ops| && |newIds| == |t.members|
    requires CompensateResult(t, invalid, newIds, t')
    ensures AllNamed(t')
  {
    hide TI.Inv;
    forall j | 0 <= j < |t'.members| ensures Named(t'.ops, t'.version, t'.members[j]) {
      assert Named(t.ops, t.version, t.members[j]);
      RowFacts(t, j);
    }
  }

  lemma FinalizeNames(t: Trip, t': Trip)
    requires TI.Inv(t) && AllNamed(t) && FinalizeResult(t, true, t')
    ensures AllNamed(t')
  {
    assert t.ops[t.lock.value].kind == Add && t.ops[t.lock.value].status == OpPending ==>
        forall i | 0 <= i < |t.members| && t.members[i].op == t.lock.value ::
          t.members[i].state in {ClaimPending, Active}
      by { ClaimingRows(t); }
    assert !(t.ops[t.lock.value].kind == Add && t.ops[t.lock.value].status == OpPending) ==>
        forall i | 0 <= i < |t.members| && t.members[i].op == t.lock.value ::
          t.members[i].state in {ReleasePending, Released}
      by { ClaimingRows(t); }
    hide TI.Inv, Counted;
    forall i | 0 <= i < |t.members| ensures t.members[i].state in {Active, Released} { RowFacts(t, i); }
    RowsStay(t, t');
  }

  /** The rows of the operation holding the lock are at its stage. */
  lemma ClaimingRows(t: Trip)
    requires TI.Inv(t) && t.lock.Some? && t.lock.value < |t.ops|
    ensures forall i | 0 <= i < |t.members| && t.members[i].op == t.lock.value ::
             TI.InStep(t.ops[t.lock.value], t.members[i].state)
  {
    hide TI.OpsOk, TI.Unique, TI.StopsOk, TI.PlacesOk, TI.TotalsOk, TI.RouteOk, TI.CapacityOk, TI.ReadsOk,
      TI.DispatchesOk, TI.DriveOk, TI.RowsListed;
    forall i | 0 <= i < |t.members| && t.members[i].op == t.lock.value
      ensures TI.InStep(t.ops[t.lock.value], t.members[i].state)
    {
      assert TI.MemberOk(t.id, t.lock, t.ops, t.status, t.stops, t.members[i]);
    }
  }

  /** A step that leaves rows and operations alone, and the version too unless no operation is under way. */
  lemma QuietNames(t: Trip, step: TripStep)
    requires TI.Inv(t) && AllNamed(t) && Guard(t, step) && Restful(step)
    ensures AllNamed(Do(t, step))
  {
    hide TI.Inv, AllNamed, Guard, Do, Restful;
    QuietRows(t, step);
    if Do(t, step).version != t.version { Unlocked(t); }
    RowsStay(t, Do(t, step));
  }

  predicate Restful(step: TripStep) {
    !step.DoAdd? && !step.DoRemove? && !step.DoCancel? && !step.DoConsume? && !step.DoPersistClaim?
    && !step.DoCompensate? && !step.DoPersistRelease? && !step.DoFinalize?
  }

  lemma QuietRows(t: Trip, step: TripStep)
    requires TI.Inv(t) && Guard(t, step) && Restful(step)
    ensures Do(t, step).members == t.members && Do(t, step).ops == t.ops
    ensures Do(t, step).version != t.version ==> t.lock.None?
  {
    if step.DoCommitTrip? || step.DoDrive? { LockFree(t); }
    hide TI.Inv, IsFirst, NoneLeft, InputReady, CanSelect, Permutation, Places, Results, ActiveWeight, ActiveVolume;
  }

  lemma LockFree(t: Trip)
    requires TI.Inv(t)
    ensures t.status == InProgress ==> t.lock.None?
    ensures forall d | 0 <= d < |t.dispatches| && Open(t.dispatches[d].stage) :: t.lock.None?
  {
    hide TI.MembersOk, TI.Unique, TI.StopsOk, TI.PlacesOk, TI.TotalsOk, TI.RouteOk, TI.CapacityOk, TI.ReadsOk,
      TI.DriveOk, TI.RowsListed;
    forall d | 0 <= d < |t.dispatches| && Open(t.dispatches[d].stage) ensures t.lock.None? {
      assert TI.DispatchOk(t.id, t.status, t.lock, t.version, t.plan, t.members, t.dispatches[d]);
    }
  }

  /** Every transaction of a trip keeps it so. */
  lemma StepNames(t: Trip, step: TripStep)
    requires TI.Inv(t) && AllNamed(t) && Guard(t, step)
    ensures AllNamed(Do(t, step))
  {
    hide TI.Inv, AllNamed, AddResult, Begins, LeavesPicked, ConsumeResult, ClaimStored, ReleaseStored,
      CompensateResult, FinalizeResult, BeginAdd, BeginRemove, BeginCancel, Consume, PersistClaim, PersistRelease,
      Compensate, Finalize, CanAdd, CanConsume;
    match step
    case DoAdd(expected, actor, lines) =>
      AddOutcome(t, expected, actor, lines);
      AddNames(t, expected, actor, lines, Do(t, step));
    case DoRemove(expected, actor, ids, newIds) =>
      RemoveOutcome(t, expected, actor, ids, newIds);
      LeaveNames(t, Remove, (set x | x in ids), actor, newIds, Do(t, step));
    case DoCancel(expected, actor, newIds) =>
      CancelOutcome(t, expected, actor, newIds);
      LeaveNames(t, CancelTrip, (set i | 0 <= i < |t.members| :: t.members[i].shipment), actor, newIds, Do(t, step));
    case DoConsume(i, version, request) =>
      ConsumeOutcome(t, i, version, request);
      ConsumeNames(t, i, version, request, Do(t, step));
    case DoPersistClaim(i, r) =>
      StoreClaimOutcome(t, i, r);
      ClaimNames(t, i, r, Do(t, step));
    case DoCompensate(invalid, newIds) =>
      FirstWaits(t, invalid);
      CompensateOutcome(t, invalid, newIds);
      CompensateNames(t, invalid, newIds, Do(t, step));
    case DoPersistRelease(i) =>
      StoreReleaseOutcome(t, i);
      ReleaseNames(t, i, Do(t, step));
    case DoFinalize =>
      FinalizeOutcome(t);
      FinalizeNames(t, Do(t, step));
    case _ => QuietNames(t, step);
  }

  lemma FirstWaits(t: Trip, invalid: Option<(nat, Receipt)>)
    requires Adding(t) && (invalid.Some? ==> IsFirst(t, invalid.value.0, ClaimPending))
    ensures t.lock.Some? && t.lock.value < |t.ops|
    ensures invalid.Some? ==>
             invalid.value.0 < |t.members| && t.members[invalid.value.0].state == ClaimPending
  {
  }
}
