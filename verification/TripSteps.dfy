/** Each transaction keeps the invariant of its trip. */
module TripSteps {
  import opened Shipments
  import opened Fulfillment
  import opened Trips
  import opened TripInvariant

  // ----- Dispatch rows that are all settled as rejected -----

  ghost predicate AllRejected(ds: seq<Dispatch>) { forall d | 0 <= d < |ds| :: ds[d].stage == DispatchRejected }

  lemma Idle(t: Trip)
    requires Inv(t) && (t.lock.Some? || t.status == Draft || NoPending(t))
    ensures AllRejected(t.dispatches) && t.attempts == [] && !OnRoad(t.status)
  {
    hide MembersOk, Unique, StopsOk, PlacesOk, TotalsOk, RouteOk, CapacityOk, ReadsOk, AllActive, Matches,
      DistinctItems, OutcomeOk;
    forall d | 0 <= d < |t.dispatches| ensures t.dispatches[d].stage == DispatchRejected {
      assert DispatchOk(t.id, t.status, t.lock, t.version, t.plan, t.members, t.dispatches[d]);
    }
  }

  lemma Quiet(t: Trip, t': Trip)
    requires DispatchesOk(t.id, t.status, t.lock, t.version, t.plan, t.members, t.dispatches)
    requires AllRejected(t.dispatches) && t.attempts == []
    requires t'.id == t.id && t'.dispatches == t.dispatches && t'.attempts == t.attempts && !OnRoad(t'.status)
    ensures DispatchesOk(t'.id, t'.status, t'.lock, t'.version, t'.plan, t'.members, t'.dispatches)
    ensures DriveOk(t'.status, t'.version, t'.plan, t'.stops, t'.attempts, t'.dispatches)
  {
    hide AllActive, Matches, DistinctItems;
    forall d | 0 <= d < |t.dispatches|
      ensures DispatchOk(t'.id, t'.status, t'.lock, t'.version, t'.plan, t'.members, t'.dispatches[d])
    {
      assert DispatchOk(t.id, t.status, t.lock, t.version, t.plan, t.members, t.dispatches[d]);
    }
  }

  /** A new pending operation takes the free lock. */
  lemma LockTaken(t: Trip, kind: Kind, actor: Id, shipments: seq<Id>, status: TripStatus)
    requires OpsOk(t.lock, t.ops, t.status) && t.lock.None?
    requires status == Draft || (status == Approved && kind == CancelTrip)
    ensures OpsOk(Some(|t.ops|), t.ops + [Op(kind, OpPending, actor, shipments, [])], status)
  {
    hide OutcomeOk;
    var ops := t.ops + [Op(kind, OpPending, actor, shipments, [])];
    assert OutcomeOk(Op(kind, OpPending, actor, shipments, [])) by { Unfinished(kind, actor, shipments); }
    assert forall i | 0 <= i < |ops| :: OutcomeOk(ops[i]);
  }

  lemma Unfinished(kind: Kind, actor: Id, shipments: seq<Id>)
    ensures OutcomeOk(Op(kind, OpPending, actor, shipments, []))
  {
  }

  lemma UpdateKeeps(t: Trip, expected: nat, assignment: Option<Id>)
    requires Inv(t) && CanUpdate(t, expected)
    ensures Inv(UpdateFields(t, assignment))
  {
    hide OpsOk, MembersOk, Unique, StopsOk, PlacesOk, TotalsOk, RouteOk, CapacityOk, ReadsOk, DispatchesOk, DriveOk,
      Stable;
    Idle(t);
    Quiet(t, UpdateFields(t, assignment));
    StepStable(t, DoUpdate(expected, assignment));
    ReadsKept(t, UpdateFields(t, assignment));
  }

  // ----- Adding -----

  lemma NewMemberOk(t: Trip, actor: Id, line: Line, shipments: seq<Id>, ops: seq<Op>)
    requires t.status == Draft && ops == t.ops + [Op(Add, OpPending, actor, shipments, [])]
    ensures MemberOk(t.id, Some(|t.ops|), ops, t.status, t.stops, NewMember(t, actor, line))
  {
  }

  lemma OldMemberOk(t: Trip, m: Member, kind: Kind, actor: Id, shipments: seq<Id>, status: TripStatus)
    requires MemberOk(t.id, t.lock, t.ops, t.status, t.stops, m) && t.lock.None? && status in {t.status, Draft}
    requires kind == CancelTrip ==> m.state != Active
    ensures MemberOk(t.id, Some(|t.ops|), t.ops + [Op(kind, OpPending, actor, shipments, [])], status, t.stops, m)
  {
  }

  lemma AddMembers(t: Trip, expected: nat, actor: Id, lines: seq<Line>, t': Trip)
    requires MembersOk(t.id, t.lock, t.ops, t.status, t.stops, t.members) && CanAdd(t, expected, lines)
    requires t' == BeginAdd(t, actor, lines)
    ensures MembersOk(t'.id, t'.lock, t'.ops, t'.status, t'.stops, t'.members)
  {
    hide MemberOk;
    forall i | 0 <= i < |t'.members| ensures MemberOk(t'.id, t'.lock, t'.ops, t'.status, t'.stops, t'.members[i]) {
      if i < |t.members| {
        OldMemberOk(t, t.members[i], Add, actor, LineShipments(lines), t.status);
      } else {
        NewMemberOk(t, actor, lines[i - |t.members|], LineShipments(lines), t'.ops);
      }
    }
  }

  lemma AddUnique(t: Trip, expected: nat, actor: Id, lines: seq<Line>, t': Trip)
    requires Unique(t.members) && CanAdd(t, expected, lines) && t' == BeginAdd(t, actor, lines)
    ensures Unique(t'.members)
  {
    var n := |t.members|;
    forall i, j | 0 <= i < j < |t'.members| && Present(t'.members[i]) && Present(t'.members[j])
      ensures t'.members[i].shipment != t'.members[j].shipment
    {
      if i < n <= j {
        assert t.members[i].shipment in PresentShipments(t.members);
        assert t'.members[j].shipment == lines[j - n].shipment;
      }
    }
  }

  lemma MoreMembersBack(ms: seq<Member>, more: seq<Member>, stops: map<Id, Stop>)
    requires StopsOk(ms, stops)
    ensures StopsOk(ms + more, stops)
  {
    forall x | x in stops && stops[x].live ensures Backs(ms + more, x) {
      var i :| 0 <= i < |ms| && ms[i].shipment == x && ms[i].state in {Active, ReleasePending};
      assert (ms + more)[i] == ms[i];
    }
  }

  lemma AddKeeps(t: Trip, expected: nat, actor: Id, lines: seq<Line>)
    requires Inv(t) && CanAdd(t, expected, lines)
    ensures Inv(BeginAdd(t, actor, lines))
  {
    hide OpsOk, MembersOk, Unique, StopsOk, PlacesOk, RouteOk, CapacityOk, ReadsOk, DispatchesOk, DriveOk, Stable,
      CanAdd;
    var t' := BeginAdd(t, actor, lines);
    assert t.lock.None? && t.status == Draft by { AddGuard(t, expected, lines); }
    Idle(t);
    Quiet(t, t');
    StepStable(t, DoAdd(expected, actor, lines));
    ReadsKept(t, t');
    LockTaken(t, Add, actor, LineShipments(lines), t.status);
    AddMembers(t, expected, actor, lines, t');
    AddUnique(t, expected, actor, lines, t');
    OldOps(t);
    AddListed(t.members, t'.members[|t.members|..], |t.ops|, LineShipments(lines));
    MoreMembersBack(t.members, t'.members[|t.members|..], t.stops);
    assert t'.members == t.members + t'.members[|t.members|..];
    LockedRoute(t.status, t'.lock, t.plan, t.stops);
  }

  lemma {:induction false} OthersUnlisted(ms: seq<Member>, op: nat)
    requires forall i | 0 <= i < |ms| :: ms[i].op != op
    ensures RowsOf(ms, op) == []
  {
    if ms != [] { OthersUnlisted(ms[..|ms| - 1], op); }
  }

  /** The new rows of an ADD are listed as the command named them. */
  lemma {:induction false} AddListed(ms: seq<Member>, rows: seq<Member>, op: nat, ids: seq<Id>)
    requires |rows| == |ids| && (forall i | 0 <= i < |ms| :: ms[i].op != op)
    requires forall i | 0 <= i < |rows| :: rows[i].op == op && rows[i].shipment == ids[i]
    ensures RowsOf(ms + rows, op) == ids
  {
    if rows == [] {
      assert ms + rows == ms;
      OthersUnlisted(ms, op);
    } else {
      var n := |rows| - 1;
      AddListed(ms, rows[..n], op, ids[..n]);
      assert (ms + rows)[..|ms| + n] == ms + rows[..n];
    }
  }

  lemma OldOps(t: Trip)
    requires MembersOk(t.id, t.lock, t.ops, t.status, t.stops, t.members)
    ensures forall i | 0 <= i < |t.members| :: t.members[i].op < |t.ops|
  {
    forall i | 0 <= i < |t.members| ensures t.members[i].op < |t.ops| {
      assert MemberOk(t.id, t.lock, t.ops, t.status, t.stops, t.members[i]);
    }
  }

  /** The rows that leave are listed in row order. */
  lemma {:induction false} PickedListed(ms: seq<Member>, ms': seq<Member>, op: nat, picked: set<Id>)
    requires |ms'| == |ms| && forall i | 0 <= i < |ms| :: ms'[i].shipment == ms[i].shipment
    requires forall i | 0 <= i < |ms| :: ms'[i].op == op <==> ms[i].state == Active && ms[i].shipment in picked
    ensures RowsOf(ms', op) == Picked(ms, picked)
  {
    if ms != [] { PickedListed(ms[..|ms| - 1], ms'[..|ms| - 1], op, picked); }
  }

  lemma LeaveListed(t: Trip, picked: set<Id>, kind: Kind, actor: Id, newIds: seq<Id>, ms: seq<Member>)
    requires Inv(t) && |newIds| == |t.members| && ms == LeaveAll(t, picked, actor, newIds)
    ensures RowsListed(Some(|t.ops|), t.ops + [Op(kind, OpPending, actor, Picked(t.members, picked), [])], ms)
  {
    hide OpsOk, Unique, StopsOk, PlacesOk, TotalsOk, RouteOk, CapacityOk, ReadsOk, DispatchesOk, DriveOk;
    OldOps(t);
    forall i | 0 <= i < |t.members|
      ensures ms[i].shipment == t.members[i].shipment
      ensures ms[i].op == |t.ops| <==> t.members[i].state == Active && t.members[i].shipment in picked
    {
      assert MemberOk(t.id, t.lock, t.ops, t.status, t.stops, t.members[i]);
    }
    PickedListed(t.members, ms, |t.ops|, picked);
  }

  /** Rows keep their shipment and their operation. */
  ghost predicate SameOps(ms: seq<Member>, ms': seq<Member>) {
    |ms'| == |ms| && forall i | 0 <= i < |ms| :: ms'[i].shipment == ms[i].shipment && ms'[i].op == ms[i].op
  }

  lemma {:induction false} RowsOfKept(ms: seq<Member>, ms': seq<Member>, op: nat)
    requires SameOps(ms, ms')
    ensures RowsOf(ms', op) == RowsOf(ms, op)
  {
    if ms != [] { RowsOfKept(ms[..|ms| - 1], ms'[..|ms| - 1], op); }
  }

  lemma ListedKept(lock: Option<nat>, ops: seq<Op>, ops': seq<Op>, ms: seq<Member>, ms': seq<Member>)
    requires RowsListed(lock, ops, ms) && SameOps(ms, ms') && |ops'| == |ops|
    requires forall i | 0 <= i < |ops| :: ops'[i].shipments == ops[i].shipments
    ensures RowsListed(lock, ops', ms')
  {
    if lock.Some? { RowsOfKept(ms, ms', lock.value); }
  }

  /** A removal lists exactly the shipments that were asked for. */
  lemma {:induction false} PickedExact(ms: seq<Member>, picked: set<Id>, x: Id)
    ensures x in Picked(ms, picked) <==>
             x in picked && exists i :: 0 <= i < |ms| && ms[i].shipment == x && ms[i].state == Active
  {
    if ms != [] {
      var n := |ms| - 1;
      PickedExact(ms[..n], picked, x);
      assert forall i | 0 <= i < n :: ms[..n][i] == ms[i];
    }
  }

  lemma RemoveLists(t: Trip, expected: nat, actor: Id, ids: seq<Id>, newIds: seq<Id>)
    requires Guard(t, DoRemove(expected, actor, ids, newIds))
    ensures forall x :: x in BeginRemove(t, actor, ids, newIds).ops[|t.ops|].shipments <==> x in ids
  {
    hide LeaveAll, Picked;
    forall x: Id ensures x in Picked(t.members, Listing(ids)) <==> x in ids { PickedExact(t.members, Listing(ids), x); }
  }

  lemma AddGuard(t: Trip, expected: nat, lines: seq<Line>)
    requires CanAdd(t, expected, lines)
    ensures t.lock.None? && t.status == Draft
  {
  }

  lemma LockedRoute(status: TripStatus, lock: Option<nat>, plan: Option<Plan>, stops: map<Id, Stop>)
    requires lock.Some? && !OnRoad(status)
    ensures RouteOk(status, lock, plan, stops)
  {
  }

  // ----- Leaving -----

  /** Rows keep their shipments, and none that was released comes back. */
  ghost predicate SameRows(ms: seq<Member>, ms': seq<Member>) {
    |ms'| == |ms| && forall i | 0 <= i < |ms| ::
      ms'[i].shipment == ms[i].shipment && (Present(ms'[i]) ==> Present(ms[i]))
  }

  lemma UniqueKept(ms: seq<Member>, ms': seq<Member>)
    requires Unique(ms) && SameRows(ms, ms')
    ensures Unique(ms')
  {
    assert forall i | 0 <= i < |ms'| :: ms'[i].shipment == ms[i].shipment && (Present(ms'[i]) ==> Present(ms[i]));
  }

  ghost predicate BacksKept(ms: seq<Member>, ms': seq<Member>) {
    |ms'| == |ms| && forall i | 0 <= i < |ms| ::
      ms'[i].shipment == ms[i].shipment
      && (ms[i].state in {Active, ReleasePending} ==> ms'[i].state in {Active, ReleasePending})
  }

  lemma StopsKept(ms: seq<Member>, ms': seq<Member>, stops: map<Id, Stop>, stops': map<Id, Stop>)
    requires StopsOk(ms, stops) && BacksKept(ms, ms')
    requires forall x | x in stops' && stops'[x].live :: x in stops && stops[x].live
    ensures StopsOk(ms', stops')
  {
    forall x | x in stops' && stops'[x].live ensures Backs(ms', x) {
      assert Backs(ms, x);
      var i :| 0 <= i < |ms| && ms[i].shipment == x && ms[i].state in {Active, ReleasePending};
      assert ms'[i].shipment == x;
    }
  }

  /** A row leaves: its release names its claim, its trip and its shipment. */
  lemma LeavingOk(t: Trip, m: Member, op: nat, actor: Id, tripVersion: nat, request: Id, ops: seq<Op>,
      status: TripStatus, stops: map<Id, Stop>)
    requires m.claim.Some? && m.claimReq.trip == t.id && m.claimReq.shipment == m.shipment && op < |ops|
    requires status != TripCanceled
    requires !(ops[op].kind == Add && ops[op].status == OpPending)
    ensures MemberOk(t.id, Some(op), ops, status, stops, Leaving(t, m, op, actor, tripVersion, request))
  {
  }

  /** REMOVE and CANCEL: the picked active rows leave, the others stay. */
  lemma LeaveMembers(t: Trip, picked: set<Id>, kind: Kind, actor: Id, newIds: seq<Id>, shipments: seq<Id>,
      ms: seq<Member>)
    requires MembersOk(t.id, t.lock, t.ops, t.status, t.stops, t.members) && t.lock.None?
    requires t.status in {Draft, Approved}
    requires |newIds| == |t.members| && ms == LeaveAll(t, picked, actor, newIds) && kind in {Remove, CancelTrip}
    requires kind == CancelTrip ==> picked == PresentShipments(t.members)
    ensures MembersOk(t.id, Some(|t.ops|), t.ops + [Op(kind, OpPending, actor, shipments, [])], t.status, t.stops, ms)
  {
    hide MemberOk, Leaving;
    var ops := t.ops + [Op(kind, OpPending, actor, shipments, [])];
    forall i | 0 <= i < |ms| ensures MemberOk(t.id, Some(|t.ops|), ops, t.status, t.stops, ms[i]) {
      var m := t.members[i];
      LeaverOk(t, m);
      assert kind == CancelTrip && m.state == Active ==> m.shipment in picked;
      if m.state == Active && m.shipment in picked {
        LeavingOk(t, m, |t.ops|, actor, t.version + 1, newIds[i], ops, t.status, t.stops);
      } else {
        OldMemberOk(t, m, kind, actor, shipments, t.status);
      }
    }
  }

  lemma LeaverOk(t: Trip, m: Member)
    requires MemberOk(t.id, t.lock, t.ops, t.status, t.stops, m)
    ensures m.state == Active ==> m.claim.Some?
    ensures m.claimReq.trip == t.id && m.claimReq.shipment == m.shipment
  {
  }

  lemma LeaveRows(t: Trip, picked: set<Id>, actor: Id, newIds: seq<Id>, ms: seq<Member>)
    requires |newIds| == |t.members| && ms == LeaveAll(t, picked, actor, newIds)
    ensures SameRows(t.members, ms) && BacksKept(t.members, ms)
  {
  }

  lemma LeaveKeeps(t: Trip, step: TripStep, t': Trip, picked: set<Id>, kind: Kind, actor: Id, newIds: seq<Id>)
    requires Inv(t) && Guard(t, step) && t' == Do(t, step) && t.lock.None? && t.status in {Draft, Approved}
    requires |newIds| == |t.members| && AllRejected(t.dispatches) && kind in {Remove, CancelTrip}
    requires (kind == Remove ==> t.status == Draft)
    requires kind == CancelTrip ==> picked == PresentShipments(t.members)
    requires t' ==
             t.(members := LeaveAll(t, picked, actor, newIds),
                 ops := t.ops + [Op(kind, OpPending, actor, Picked(t.members, picked), [])],
                      lock := Some(|t.ops|), version := t.version + 1)
    ensures Inv(t')
  {
    hide OpsOk, MembersOk, Unique, StopsOk, PlacesOk, RouteOk, CapacityOk, ReadsOk, DispatchesOk, DriveOk, Stable,
      Guard, Do, LeaveAll, SameRows, BacksKept, AllRejected, RowsListed, Picked;
    var shipments := Picked(t.members, picked);
    LeaveListed(t, picked, kind, actor, newIds, t'.members);
    assert t.attempts == [] by { RestingAttempts(t); }
    Quiet(t, t');
    StepStable(t, step);
    ReadsKept(t, t');
    LockTaken(t, kind, actor, shipments, t.status);
    LeaveMembers(t, picked, kind, actor, newIds, shipments, t'.members);
    LeaveRows(t, picked, actor, newIds, t'.members);
    UniqueKept(t.members, t'.members);
    StopsKept(t.members, t'.members, t.stops, t.stops);
    LockedRoute(t.status, t'.lock, t.plan, t.stops);
  }

  lemma RestingAttempts(t: Trip)
    requires Inv(t) && t.status in {Draft, Approved}
    ensures t.attempts == []
  {
    hide OpsOk, MembersOk, Unique, StopsOk, PlacesOk, TotalsOk, RouteOk, CapacityOk, ReadsOk, DispatchesOk, Driven;
  }

  lemma RemoveKeeps(t: Trip, expected: nat, actor: Id, ids: seq<Id>, newIds: seq<Id>)
    requires Inv(t) && Guard(t, DoRemove(expected, actor, ids, newIds))
    ensures Inv(BeginRemove(t, actor, ids, newIds))
  {
    hide Inv, LeaveAll;
    Idle(t);
    LeaveKeeps(t, DoRemove(expected, actor, ids, newIds), BeginRemove(t, actor, ids, newIds), Listing(ids), Remove,
               actor, newIds);
  }

  lemma CancelKeeps(t: Trip, expected: nat, actor: Id, newIds: seq<Id>)
    requires Inv(t) && Guard(t, DoCancel(expected, actor, newIds))
    ensures Inv(BeginCancel(t, actor, newIds))
  {
    hide Inv, LeaveAll;
    Idle(t);
    LeaveKeeps(t, DoCancel(expected, actor, newIds), BeginCancel(t, actor, newIds), PresentShipments(t.members),
               CancelTrip, actor, newIds);
  }

  // ----- A shipment canceled elsewhere -----

  lemma StopsLess(stops: map<Id, Stop>, x: Id)
    ensures var s := Unstop(Cleared(stops), x);
            (forall y | y in s && s[y].live :: y in stops && stops[y].live && y != x)
            && (forall y | y in stops && stops[y].live && y != x :: y in s && s[y].live)
            && (forall y | y in s :: y in stops && s[y].place == None && s[y].state == stops[y].state)
  {
  }

  /** The only row whose stop goes is the one that leaves. */
  lemma StopGoneOk(t: Trip, m: Member, stops: map<Id, Stop>, ops: seq<Op>, status: TripStatus, lock: Option<nat>, x: Id)
    requires MemberOk(t.id, lock, ops, status, t.stops, m) && (m.state == Active ==> m.shipment != x)
    requires forall y | y in t.stops && t.stops[y].live && y != x :: y in stops && stops[y].live
    ensures MemberOk(t.id, lock, ops, status, stops, m)
  {
  }

  lemma ConsumeMembers(t: Trip, i: nat, version: nat, request: Id, t': Trip)
    requires MembersOk(t.id, t.lock, t.ops, t.status, t.stops, t.members) && Unique(t.members)
    requires CanConsume(t, i) && t' == Consume(t, i, version, request)
    ensures MembersOk(t'.id, t'.lock, t'.ops, t'.status, t'.stops, t'.members)
  {
    hide MemberOk, ActiveWeight, ActiveVolume, Unstop, Leaving;
    var x := t.members[i].shipment;
    StopsLess(t.stops, x);
    forall j | 0 <= j < |t'.members| ensures MemberOk(t'.id, t'.lock, t'.ops, t'.status, t'.stops, t'.members[j]) {
      LeaverOk(t, t.members[j]);
      if j == i {
        LeavingOk(t, t.members[i].(version := version), |t.ops|, t.members[i].claimReq.actor, t.version + 1, request,
                  t'.ops, Draft, t'.stops);
      } else {
        OldMemberOk(t, t.members[j], ShipmentGone, t.members[i].claimReq.actor, [x], Draft);
        assert t.members[j].state == Active ==> t.members[j].shipment != x;
        StopGoneOk(t, t.members[j], t'.stops, t'.ops, Draft, t'.lock, x);
      }
    }
  }

  lemma {:induction false} OneListed(ms: seq<Member>, i: nat, m: Member)
    requires i < |ms| && forall j | 0 <= j < |ms| :: ms[j].op != m.op
    ensures RowsOf(ms[i := m], m.op) == [m.shipment]
  {
    var n := |ms| - 1;
    if i == n {
      assert ms[i := m][..n] == ms[..n];
      OthersUnlisted(ms[..n], m.op);
    } else {
      OneListed(ms[..n], i, m);
      assert ms[i := m][..n] == ms[..n][i := m];
    }
  }

  lemma ConsumeListed(t: Trip, i: nat, version: nat, request: Id, t': Trip)
    requires MembersOk(t.id, t.lock, t.ops, t.status, t.stops, t.members) && CanConsume(t, i)
    requires t' == Consume(t, i, version, request)
    ensures RowsListed(t'.lock, t'.ops, t'.members)
  {
    hide ActiveWeight, ActiveVolume, Unstop, Cleared;
    OldOps(t);
    OneListed(t.members, i, t'.members[i]);
    assert t'.members == t.members[i := t'.members[i]];
  }

  lemma ConsumeRows(t: Trip, i: nat, version: nat, request: Id, t': Trip)
    requires CanConsume(t, i) && t' == Consume(t, i, version, request) && PlacesOk(t.status, t.stops)
    ensures SameRows(t.members, t'.members) && BacksKept(t.members, t'.members)
    ensures forall x | x in t'.stops && t'.stops[x].live :: x in t.stops && t.stops[x].live
    ensures PlacesOk(t'.status, t'.stops)
  {
    hide ActiveWeight, ActiveVolume, Unstop, Cleared;
    StopsLess(t.stops, t.members[i].shipment);
  }

  lemma ConsumeKeeps(t: Trip, i: nat, version: nat, request: Id)
    requires Inv(t) && CanConsume(t, i)
    ensures Inv(Consume(t, i, version, request))
  {
    hide OpsOk, MembersOk, Unique, StopsOk, PlacesOk, RouteOk, ReadsOk, DispatchesOk, DriveOk, Stable, SameRows,
      BacksKept, AllRejected, Unstop, Cleared, Leaving, RowsListed;
    hide ActiveWeight, ActiveVolume;
    var t' := Consume(t, i, version, request);
    Idle(t);
    Quiet(t, t');
    StepStable(t, DoConsume(i, version, request));
    ReadsKept(t, t');
    LockTaken(t, ShipmentGone, t.members[i].claimReq.actor, [t.members[i].shipment], Draft);
    ConsumeMembers(t, i, version, request, t');
    ConsumeRows(t, i, version, request, t');
    ConsumeListed(t, i, version, request, t');
    UniqueKept(t.members, t'.members);
    StopsKept(t.members, t'.members, t.stops, t'.stops);
    LockedRoute(Draft, t'.lock, None, t'.stops);
  }

  // ----- Claims arrive -----

  lemma ArriveStops(stops: map<Id, Stop>, x: Id)
    ensures var s := Arrive(stops, x);
            x in s && s[x].live && s[x].state == Waiting && s[x].place == (if x in stops then stops[x].place else None)
            && (forall y | y != x :: y in s <==> y in stops) && (forall y | y in stops && y != x :: s[y] == stops[y])
  {
  }

  lemma ClaimedMemberOk(t: Trip, m: Member, r: Receipt, stops: map<Id, Stop>)
    requires MemberOk(t.id, t.lock, t.ops, t.status, t.stops, m) && m.state == ClaimPending && r.Claimed? && Adding(t)
    requires m.shipment in stops && stops[m.shipment].live
    ensures MemberOk(t.id, t.lock, t.ops, t.status, stops,
                     m.(state := Active, claim := Some(r.claim), version := r.version, weight := r.weight,
                         volume := r.volume))
  {
  }

  lemma MoreStopsOk(t: Trip, m: Member, stops: map<Id, Stop>)
    requires MemberOk(t.id, t.lock, t.ops, t.status, t.stops, m)
    requires forall y | y in t.stops && t.stops[y].live :: y in stops && stops[y].live
    ensures MemberOk(t.id, t.lock, t.ops, t.status, stops, m)
  {
  }

  lemma PersistClaimMembers(t: Trip, i: nat, r: Receipt, t': Trip)
    requires MembersOk(t.id, t.lock, t.ops, t.status, t.stops, t.members) && i < |t.members|
    requires t.members[i].state == ClaimPending
    requires r.Claimed? && Adding(t) && t' == PersistClaim(t, i, r)
    ensures MembersOk(t'.id, t'.lock, t'.ops, t'.status, t'.stops, t'.members) && SameRows(t.members, t'.members)
  {
    hide MemberOk, ActiveWeight, ActiveVolume, Arrive;
    ArriveStops(t.stops, t.members[i].shipment);
    forall j | 0 <= j < |t'.members| ensures MemberOk(t'.id, t'.lock, t'.ops, t'.status, t'.stops, t'.members[j]) {
      if j == i { ClaimedMemberOk(t, t.members[i], r, t'.stops); } else { MoreStopsOk(t, t.members[j], t'.stops); }
    }
  }

  lemma PersistClaimStops(t: Trip, i: nat, r: Receipt, t': Trip)
    requires StopsOk(t.members, t.stops) && PlacesOk(t.status, t.stops) && i < |t.members|
    requires t.members[i].state == ClaimPending
    requires r.Claimed? && t.status == Draft && t' == PersistClaim(t, i, r)
    ensures StopsOk(t'.members, t'.stops) && PlacesOk(t'.status, t'.stops)
  {
    hide ActiveWeight, ActiveVolume, Arrive;
    ArriveStops(t.stops, t.members[i].shipment);
    forall x | x in t'.stops && t'.stops[x].live ensures Backs(t'.members, x) {
      if x == t.members[i].shipment {
        assert t'.members[i].shipment == x;
      } else {
        assert Backs(t.members, x);
        var j :| 0 <= j < |t.members| && t.members[j].shipment == x && t.members[j].state in {Active, ReleasePending};
        assert t'.members[j] == t.members[j];
      }
    }
  }

  lemma AddingDraft(t: Trip)
    requires OpsOk(t.lock, t.ops, t.status) && Adding(t)
    ensures t.status == Draft
  {
  }

  lemma LockedStable(t: Trip, t': Trip)
    requires t'.version == t.version && t'.lock == t.lock && t.lock.Some?
    ensures Stable(t, t')
  {
  }

  lemma PersistClaimKeeps(t: Trip, i: nat, r: Receipt)
    requires Inv(t) && Adding(t) && i < |t.members| && t.members[i].state == ClaimPending && r.Claimed?
    ensures Inv(PersistClaim(t, i, r))
  {
    hide OpsOk, MembersOk, Unique, StopsOk, PlacesOk, RouteOk, ReadsOk, DispatchesOk, DriveOk, Stable, SameRows,
      AllRejected, Arrive, RowsListed;
    hide ActiveWeight, ActiveVolume;
    var t' := PersistClaim(t, i, r);
    AddingDraft(t);
    Idle(t);
    Quiet(t, t');
    assert Stable(t, t') by { LockedStable(t, t'); }
    ReadsKept(t, t');
    PersistClaimMembers(t, i, r, t');
    PersistClaimStops(t, i, r, t');
    ListedKept(t.lock, t.ops, t'.ops, t.members, t'.members);
    UniqueKept(t.members, t'.members);
    LockedRoute(t'.status, t'.lock, t'.plan, t'.stops);
  }

  // ----- Compensation -----

  /** An ADD that is still pending, and a waiting row whose claim went through, if there is one. */
  predicate Undoable(t: Trip, invalid: Option<(nat, Receipt)>, newIds: seq<Id>) {
    && Adding(t) && |newIds| == |t.members|
    && (invalid.Some? ==>
          invalid.value.0 < |t.members| && t.members[invalid.value.0].state == ClaimPending && invalid.value.1.Claimed?)
  }

  lemma UndoneOk(t: Trip, m: Member, actor: Id, request: Id, ops: seq<Op>)
    requires MemberOk(t.id, t.lock, t.ops, t.status, t.stops, m) && Adding(t) && |ops| == |t.ops|
    requires t.status != TripCanceled
    requires forall i | 0 <= i < |ops| ::
             ops[i] == if t.lock == Some(i) then t.ops[i].(status := Compensating) else t.ops[i]
    ensures MemberOk(t.id, t.lock, ops, t.status, t.stops, Undo(t, m, actor, request))
  {
  }

  /** The row whose claim went through is undone like an active one, although it has no stop. */
  lemma InvalidUndone(t: Trip, m: Member, r: Receipt, actor: Id, request: Id, ops: seq<Op>)
    requires MemberOk(t.id, t.lock, t.ops, t.status, t.stops, m) && Adding(t) && m.state == ClaimPending
    requires |ops| == |t.ops| && t.status != TripCanceled
    requires forall i | 0 <= i < |ops| ::
             ops[i] == if t.lock == Some(i) then t.ops[i].(status := Compensating) else t.ops[i]
    requires r.Claimed?
    ensures MemberOk(t.id, t.lock, ops, t.status, t.stops,
             Undo(t, m.(state := Active, claim := Some(r.claim), version := r.version), actor, request))
  {
  }

  lemma CompensateMembers(t: Trip, invalid: Option<(nat, Receipt)>, newIds: seq<Id>, t': Trip)
    requires MembersOk(t.id, t.lock, t.ops, t.status, t.stops, t.members) && Undoable(t, invalid, newIds)
    requires t.status != TripCanceled
    requires t' == Compensate(t, invalid, newIds)
    ensures MembersOk(t'.id, t'.lock, t'.ops, t'.status, t'.stops, t'.members)
  {
    hide MemberOk, Undo;
    var actor := t.ops[t.lock.value].actor;
    forall j | 0 <= j < |t'.members| ensures MemberOk(t'.id, t'.lock, t'.ops, t'.status, t'.stops, t'.members[j]) {
      if invalid.Some? && invalid.value.0 == j {
        InvalidUndone(t, t.members[j], invalid.value.1, actor, newIds[j], t'.ops);
      } else {
        UndoneOk(t, t.members[j], actor, newIds[j], t'.ops);
      }
    }
  }

  lemma CompensateRows(t: Trip, invalid: Option<(nat, Receipt)>, newIds: seq<Id>, t': Trip)
    requires Undoable(t, invalid, newIds) && t' == Compensate(t, invalid, newIds)
    ensures SameRows(t.members, t'.members) && BacksKept(t.members, t'.members) && SameOps(t.members, t'.members)
  {
  }

  lemma CompensateOps(t: Trip)
    requires OpsOk(t.lock, t.ops, t.status) && Adding(t)
    ensures OpsOk(t.lock, t.ops[t.lock.value := t.ops[t.lock.value].(status := Compensating)], t.status)
  {
  }

  lemma CompensateKeeps(t: Trip, invalid: Option<(nat, Receipt)>, newIds: seq<Id>)
    requires Inv(t) && Undoable(t, invalid, newIds)
    ensures Inv(Compensate(t, invalid, newIds))
  {
    hide OpsOk, MembersOk, Unique, StopsOk, PlacesOk, RouteOk, ReadsOk, DispatchesOk, DriveOk, Stable, SameRows,
      BacksKept, SameOps, AllRejected, Undo, WithClaim, RowsListed;
    var t' := Compensate(t, invalid, newIds);
    AddingDraft(t);
    Idle(t);
    Quiet(t, t');
    assert Stable(t, t') by { LockedStable(t, t'); }
    ReadsKept(t, t');
    CompensateOps(t);
    CompensateMembers(t, invalid, newIds, t');
    CompensateRows(t, invalid, newIds, t');
    ListedKept(t.lock, t.ops, t'.ops, t.members, t'.members);
    UniqueKept(t.members, t'.members);
    StopsKept(t.members, t'.members, t.stops, t.stops);
    LockedRoute(t'.status, t'.lock, t'.plan, t'.stops);
  }

  /** The outer handler compensates once more after the inner one did; that changes no row. */
  lemma CompensateTwice(t: Trip, invalid: Option<(nat, Receipt)>, newIds: seq<Id>, otherIds: seq<Id>)
    requires Inv(t) && Undoable(t, invalid, newIds) && |otherIds| == |t.members|
    ensures Compensate(Compensate(t, invalid, newIds), None, otherIds) == Compensate(t, invalid, newIds)
  {
    hide OpsOk, Unique, StopsOk, PlacesOk, TotalsOk, RouteOk, CapacityOk, ReadsOk, DispatchesOk, DriveOk;
    var t1 := Compensate(t, invalid, newIds);
    var t2 := Compensate(t1, None, otherIds);
    forall j | 0 <= j < |t1.members| ensures t2.members[j] == t1.members[j] {
      assert MemberOk(t.id, t.lock, t.ops, t.status, t.stops, t.members[j]);
    }
    assert t2.ops == t1.ops;
  }

  /** Compensating an operation that is being compensated changes nothing. */
  lemma CompensateAgain(t: Trip, newIds: seq<Id>)
    requires Inv(t) && t.lock.Some? && t.lock.value < |t.ops| && t.ops[t.lock.value].status == Compensating
    requires |newIds| == |t.members|
    ensures Compensate(t, None, newIds) == t
  {
    hide OpsOk, Unique, StopsOk, PlacesOk, TotalsOk, RouteOk, CapacityOk, ReadsOk, DispatchesOk, DriveOk, RowsListed;
    var t' := Compensate(t, None, newIds);
    forall j | 0 <= j < |t.members| ensures t'.members[j] == t.members[j] {
      assert MemberOk(t.id, t.lock, t.ops, t.status, t.stops, t.members[j]);
    }
    assert t'.members == t.members && t'.ops == t.ops;
  }

  /** Waiting rows belong to a pending ADD, rows being released to an operation that holds the lock. */
  lemma WaitingMeans(t: Trip, i: nat)
    requires Inv(t) && i < |t.members|
    ensures t.members[i].state == ClaimPending ==> Adding(t)
    ensures t.members[i].state in {ClaimPending, ReleasePending} ==> t.lock == Some(t.members[i].op)
    ensures t.members[i].state == Active ==> t.members[i].claim.Some?
  {
    hide OpsOk, Unique, StopsOk, PlacesOk, TotalsOk, RouteOk, CapacityOk, ReadsOk, DispatchesOk, DriveOk, RowsListed;
    assert MemberOk(t.id, t.lock, t.ops, t.status, t.stops, t.members[i]);
  }

  // ----- Releases arrive -----

  lemma GoneStops(stops: map<Id, Stop>, x: Id)
    ensures var s := Gone(stops, x);
            (forall y | y in s && s[y].live :: y in stops && stops[y].live && y != x)
            && (forall y | y in stops && stops[y].live && y != x :: y in s && s[y].live)
            && (forall y | y in s ::
                  y in stops && (s[y] == stops[y] || s[y].place == None) && s[y].state == stops[y].state)
  {
  }

  lemma ReleasedOk(t: Trip, m: Member, stops: map<Id, Stop>)
    requires MemberOk(t.id, t.lock, t.ops, t.status, t.stops, m) && m.state == ReleasePending
    ensures MemberOk(t.id, t.lock, t.ops, t.status, stops, m.(state := Released))
  {
  }

  lemma PersistReleaseMembers(t: Trip, i: nat, t': Trip)
    requires MembersOk(t.id, t.lock, t.ops, t.status, t.stops, t.members) && Unique(t.members) && i < |t.members|
    requires t.members[i].state == ReleasePending && t' == PersistRelease(t, i)
    ensures MembersOk(t'.id, t'.lock, t'.ops, t'.status, t'.stops, t'.members) && SameRows(t.members, t'.members)
  {
    hide MemberOk, ActiveWeight, ActiveVolume, Gone;
    var x := t.members[i].shipment;
    GoneStops(t.stops, x);
    forall j | 0 <= j < |t'.members| ensures MemberOk(t'.id, t'.lock, t'.ops, t'.status, t'.stops, t'.members[j]) {
      if j == i { ReleasedOk(t, t.members[i], t'.stops); } else {
        assert t.members[j].state == Active ==> t.members[j].shipment != x;
        StopGoneOk(t, t.members[j], t'.stops, t.ops, t.status, t.lock, x);
      }
    }
  }

  lemma PersistReleaseStops(t: Trip, i: nat, t': Trip)
    requires StopsOk(t.members, t.stops) && PlacesOk(t.status, t.stops) && i < |t.members|
    requires t.members[i].state == ReleasePending && t' == PersistRelease(t, i)
    ensures StopsOk(t'.members, t'.stops) && PlacesOk(t'.status, t'.stops)
  {
    hide ActiveWeight, ActiveVolume, Gone;
    GoneStops(t.stops, t.members[i].shipment);
    forall x | x in t'.stops && t'.stops[x].live ensures Backs(t'.members, x) {
      assert Backs(t.members, x);
      var j :| 0 <= j < |t.members| && t.members[j].shipment == x && t.members[j].state in {Active, ReleasePending};
      assert t'.members[j] == t.members[j];
    }
  }

  /** While a trip is being canceled no row is active, so its totals fall to zero. */
  lemma CancelingEmpty(t: Trip)
    requires Inv(t) && t.lock.Some? && t.ops[t.lock.value].kind == CancelTrip
    ensures forall i | 0 <= i < |t.members| :: t.members[i].state != Active
  {
    hide OpsOk, Unique, StopsOk, PlacesOk, TotalsOk, RouteOk, CapacityOk, ReadsOk, DispatchesOk, DriveOk, InStep,
      ReleaseFits;
    LockedApproved(t);
    forall i | 0 <= i < |t.members| ensures t.members[i].state != Active {
      assert MemberOk(t.id, t.lock, t.ops, t.status, t.stops, t.members[i]);
    }
  }

  lemma LockedApproved(t: Trip)
    requires OpsOk(t.lock, t.ops, t.status) && t.lock.Some?
    ensures t.lock.value < |t.ops|
    ensures (t.status == Draft || (t.status == Approved && t.ops[t.lock.value].kind == CancelTrip))
    ensures t.ops[t.lock.value].status == Compensating ==> t.ops[t.lock.value].kind == Add
  {
  }

  lemma PersistReleaseKeeps(t: Trip, i: nat)
    requires Inv(t) && t.lock.Some? && i < |t.members| && t.members[i].state == ReleasePending
    ensures Inv(PersistRelease(t, i))
  {
    hide OpsOk, MembersOk, Unique, StopsOk, PlacesOk, RouteOk, ReadsOk, DispatchesOk, DriveOk, Stable, SameRows,
      AllRejected, Gone, RowsListed;
    hide ActiveWeight, ActiveVolume;
    var t' := PersistRelease(t, i);
    Idle(t);
    Quiet(t, t');
    assert Stable(t, t') by { LockedStable(t, t'); }
    ReadsKept(t, t');
    PersistReleaseMembers(t, i, t');
    PersistReleaseStops(t, i, t');
    ListedKept(t.lock, t.ops, t'.ops, t.members, t'.members);
    UniqueKept(t.members, t'.members);
    LockedRoute(t'.status, t'.lock, t'.plan, t'.stops);
    LockedApproved(t);
    if t.status == Approved {
      CancelingEmpty(t);
      NothingActive(t'.members);
    }
  }

  // ----- Finishing an operation -----

  lemma {:induction false} ResultsAll(ms: seq<Member>, op: nat, state: MemberState)
    requires forall i | 0 <= i < |ms| && ms[i].op == op :: ms[i].state == state
    ensures forall r | r in Results(ms, op) :: r.1 == state
  {
    if ms != [] { ResultsAll(ms[..|ms| - 1], op, state); }
  }

  /** When an operation is done, its rows are all active, or all released. */
  lemma FinalStates(t: Trip)
    requires MembersOk(t.id, t.lock, t.ops, t.status, t.stops, t.members) && CanFinalize(t)
    ensures forall i | 0 <= i < |t.members| && InOp(t, t.members[i]) ::
             t.members[i].state == if Adding(t) then Active else Released
    ensures forall i | 0 <= i < |t.members| :: t.members[i].state in {Active, Released}
  {
    forall i | 0 <= i < |t.members|
      ensures InOp(t, t.members[i]) ==> t.members[i].state == if Adding(t) then Active else Released
      ensures t.members[i].state in {Active, Released}
    {
      assert MemberOk(t.id, t.lock, t.ops, t.status, t.stops, t.members[i]);
    }
  }

  lemma {:induction false} ReportedRows(ms: seq<Member>, op: nat)
    ensures Reported(Results(ms, op)) == RowsOf(ms, op)
  {
    if ms != [] { ReportedRows(ms[..|ms| - 1], op); }
  }

  lemma FinalizeOps(t: Trip, t': Trip)
    requires RowsListed(t.lock, t.ops, t.members)
    requires OpsOk(t.lock, t.ops, t.status) && MembersOk(t.id, t.lock, t.ops, t.status, t.stops, t.members)
    requires CanFinalize(t) && t' == Finalize(t)
    ensures OpsOk(t'.lock, t'.ops, t'.status)
  {
    hide MemberOk, NoneLeft, ActiveWeight, ActiveVolume;
    var o := t.lock.value;
    FinalStates(t);
    ResultsAll(t.members, o, if Adding(t) then Active else Released);
    ReportedRows(t.members, o);
    hide Results, RowsOf, Reported;
    assert OutcomeOk(t'.ops[o]);
    assert forall i | 0 <= i < |t.ops| && i != o :: t'.ops[i] == t.ops[i];
  }

  lemma FinalMemberOk(t: Trip, m: Member, ops: seq<Op>, status: TripStatus)
    requires MemberOk(t.id, t.lock, t.ops, t.status, t.stops, m) && m.state in {Active, Released} && |ops| == |t.ops|
    requires status == TripCanceled ==> m.state == Released
    ensures MemberOk(t.id, None, ops, status, t.stops, m)
  {
  }

  lemma FinalizeMembers(t: Trip, t': Trip)
    requires Inv(t) && CanFinalize(t) && t' == Finalize(t)
    ensures MembersOk(t'.id, t'.lock, t'.ops, t'.status, t'.stops, t'.members)
    ensures t'.status == TripCanceled ==> forall i | 0 <= i < |t.members| :: t.members[i].state != Active
  {
    hide MemberOk, NoneLeft, ActiveWeight, ActiveVolume, OpsOk, Unique, StopsOk, PlacesOk, TotalsOk, RouteOk,
      CapacityOk, ReadsOk, DispatchesOk, DriveOk, Results;
    FinalStates(t);
    LockedApproved(t);
    if t'.status == TripCanceled { CancelingEmpty(t); }
    forall i | 0 <= i < |t.members| ensures MemberOk(t'.id, t'.lock, t'.ops, t'.status, t'.stops, t'.members[i]) {
      FinalMemberOk(t, t.members[i], t'.ops, t'.status);
    }
  }

  lemma CanceledPlaces(t: Trip)
    requires PlacesOk(t.status, t.stops)
    ensures PlacesOk(TripCanceled, t.stops)
  {
  }

  lemma FinalizeKeeps(t: Trip)
    requires Inv(t) && CanFinalize(t)
    ensures Inv(Finalize(t))
  {
    hide OpsOk, MembersOk, Unique, StopsOk, PlacesOk, ReadsOk, DispatchesOk, DriveOk, Stable, AllRejected, Results,
      NoneLeft;
    hide ActiveWeight, ActiveVolume, Routed;
    var t' := Finalize(t);
    Idle(t);
    Quiet(t, t');
    StepStable(t, DoFinalize);
    ReadsKept(t, t');
    FinalizeOps(t, t');
    FinalizeMembers(t, t');
    LockedApproved(t);
    CanceledPlaces(t);
    if t'.status == TripCanceled { NothingActive(t.members); }
  }

  // ----- Reads outside a transaction -----

  lemma PreviewKeeps(t: Trip, expected: nat)
    requires Inv(t) && RouteTrip(t, expected, Draft)
    ensures Inv(t.(tokens := t.tokens + {expected}))
  {
    hide OpsOk, MembersOk, Unique, StopsOk, PlacesOk, TotalsOk, RouteOk, CapacityOk, DispatchesOk, DriveOk, Matches,
      AllActive, DistinctItems;
    var t' := t.(tokens := t.tokens + {expected});
    forall a | a in t'.approvals ensures ApprovalOk(t', a) { assert ApprovalOk(t, a); }
    forall q | q in t'.selections ensures SelectionOk(t', q) { assert SelectionOk(t, q); }
  }

  /** A token was issued at the version it binds, so a later read cannot be older than that. */
  lemma ReadKeeps(t: Trip, expected: nat, capacity: (nat, nat), ordered: seq<Id>)
    requires Inv(t) && CanRead(t, expected, capacity, ordered)
    ensures Inv(t.(approvals := t.approvals + {Approval(expected, t.version, capacity, ordered)}))
  {
    hide OpsOk, MembersOk, Unique, StopsOk, PlacesOk, TotalsOk, RouteOk, CapacityOk, DispatchesOk, DriveOk, Matches,
      AllActive, DistinctItems, Permutation;
    hide ActiveWeight, ActiveVolume, LiveStops, PresentShipments;
    var t' := t.(approvals := t.approvals + {Approval(expected, t.version, capacity, ordered)});
    forall a | a in t'.approvals ensures ApprovalOk(t', a) {
      if a in t.approvals { assert ApprovalOk(t, a); }
    }
    forall q | q in t'.selections ensures SelectionOk(t', q) { assert SelectionOk(t, q); }
  }

  lemma SelectKeeps(t: Trip, q: BatchRequest)
    requires Inv(t) && CanSelect(t, q)
    ensures Inv(t.(selections := t.selections + {q}))
  {
    hide OpsOk, MembersOk, Unique, StopsOk, PlacesOk, TotalsOk, RouteOk, CapacityOk, DispatchesOk, DriveOk, Matches,
      AllActive, DistinctItems;
    var t' := t.(selections := t.selections + {q});
    forall a | a in t'.approvals ensures ApprovalOk(t', a) { assert ApprovalOk(t, a); }
    forall p | p in t'.selections ensures SelectionOk(t', p) {
      if p in t.selections { assert SelectionOk(t, p); }
    }
  }

  // ----- Approval -----

  lemma {:induction false} Count(ids: seq<Id>)
    requires Distinct(ids)
    ensures |Listing(ids)| == |ids|
  {
    if ids != [] {
      var n := |ids| - 1;
      Count(ids[..n]);
      assert Listing(ids) == Listing(ids[..n]) + {ids[n]};
    }
  }

  lemma SubsetSize(a: set<Id>, b: set<Id>)
    requires a <= b && |a| == |b|
    ensures a == b
  {
    assert |b - a| == |b| - |a|;
  }

  /** The size comparison and the search together make a permutation: nothing else is listed. */
  lemma PermutationExact(ordered: seq<Id>, stops: set<Id>)
    requires Permutation(ordered, stops)
    ensures Listing(ordered) == stops && ordered != []
  {
    Count(ordered);
    assert stops <= Listing(ordered);
    SubsetSize(stops, Listing(ordered));
  }

  lemma {:induction false} PlacesElse(stops: map<Id, Stop>, ordered: seq<Id>, x: Id)
    requires x !in ordered
    ensures x in Places(stops, ordered) <==> x in stops
    ensures x in stops ==> Places(stops, ordered)[x] == stops[x]
  {
    if ordered != [] { PlacesElse(stops, ordered[..|ordered| - 1], x); }
  }

  lemma {:induction false} PlacesItem(stops: map<Id, Stop>, ordered: seq<Id>, i: nat)
    requires Distinct(ordered) && i < |ordered| && ordered[i] in stops
    ensures ordered[i] in Places(stops, ordered)
    ensures Places(stops, ordered)[ordered[i]]
             == stops[ordered[i]].(place := Some(i + 1), version := stops[ordered[i]].version + 1)
  {
    var n := |ordered| - 1;
    if i < n { PlacesItem(stops, ordered[..n], i); } else { PlacesElse(stops, ordered[..n], ordered[n]); }
  }

  lemma PlacesAt(stops: map<Id, Stop>, ordered: seq<Id>)
    requires Distinct(ordered) && forall i | 0 <= i < |ordered| :: ordered[i] in stops
    ensures Places(stops, ordered).Keys == stops.Keys
    ensures forall i | 0 <= i < |ordered| :: Places(stops, ordered)[ordered[i]].place == Some(i + 1)
    ensures forall x | x in stops ::
             var s := Places(stops, ordered)[x]; s.live == stops[x].live && s.state == stops[x].state
    ensures forall x | x in stops && x !in ordered :: Places(stops, ordered)[x] == stops[x]
  {
    hide Places;
    forall i | 0 <= i < |ordered| { PlacesItem(stops, ordered, i); }
    forall x: Id | x !in ordered { PlacesElse(stops, ordered, x); }
    forall x: Id
      ensures x in Places(stops, ordered) <==> x in stops
      ensures x in stops ==> var s := Places(stops, ordered)[x]; s.live == stops[x].live && s.state == stops[x].state
    {
      if x in ordered { var i :| 0 <= i < |ordered| && ordered[i] == x; }
    }
  }

  lemma ApprovedStops(t: Trip, a: Approval, plan: Id, t': Trip)
    requires CanApprove(t, a) && PlacesOk(t.status, t.stops) && t' == Approve(t, a, plan)
    ensures Routed(a.ordered, t'.stops) && PlacesOk(Approved, t'.stops)
    ensures t'.stops.Keys == t.stops.Keys && forall x | x in t.stops :: t'.stops[x].live == t.stops[x].live
  {
    PermutationExact(a.ordered, LiveStops(t.stops));
    forall i | 0 <= i < |a.ordered| ensures a.ordered[i] in t.stops && t.stops[a.ordered[i]].live {
      assert a.ordered[i] in Listing(a.ordered);
    }
    forall x | x in t.stops && t.stops[x].live ensures x in a.ordered {
      assert x in LiveStops(t.stops);
    }
    PlacesAt(Cleared(t.stops), a.ordered);
  }

  lemma SameLiveMembers(t: Trip, stops: map<Id, Stop>, status: TripStatus)
    requires MembersOk(t.id, t.lock, t.ops, t.status, t.stops, t.members) && t.lock.None? && status != TripCanceled
    requires stops.Keys == t.stops.Keys && forall x | x in t.stops :: stops[x].live == t.stops[x].live
    ensures MembersOk(t.id, t.lock, t.ops, status, stops, t.members)
  {
    forall i | 0 <= i < |t.members| ensures MemberOk(t.id, t.lock, t.ops, status, stops, t.members[i]) {
      assert MemberOk(t.id, t.lock, t.ops, t.status, t.stops, t.members[i]);
    }
  }

  lemma SameLiveStops(t: Trip, stops: map<Id, Stop>)
    requires StopsOk(t.members, t.stops)
    requires stops.Keys == t.stops.Keys && forall x | x in t.stops :: stops[x].live == t.stops[x].live
    ensures StopsOk(t.members, stops)
  {
    hide Backs;
  }

  lemma UnlockedOps(t: Trip, status: TripStatus)
    requires OpsOk(t.lock, t.ops, t.status) && t.lock.None?
    ensures OpsOk(t.lock, t.ops, status)
  {
    hide OutcomeOk;
  }

  /** The capacity was checked against rows read earlier; the token ties that read to this version,
      and at one version the rows are the same. */
  lemma CapacityStillMet(t: Trip, a: Approval)
    requires ReadsOk(t) && CanApprove(t, a)
    ensures t.weight <= a.capacity.0 && t.volume <= a.capacity.1
  {
    hide Permutation, AllActive, LiveStops, SelectionOk;
    assert ApprovalOk(t, a);
  }

  lemma ApproveKeeps(t: Trip, a: Approval, plan: Id)
    requires Inv(t) && CanApprove(t, a)
    ensures Inv(Approve(t, a, plan))
  {
    hide OpsOk, MembersOk, Unique, StopsOk, PlacesOk, ReadsOk, DispatchesOk, DriveOk, Stable, AllRejected, Places,
      Cleared, CanApprove, Routed;
    var t' := Approve(t, a, plan);
    assert RouteTrip(t, a.expected, Draft) by { ApproveGuard(t, a); }
    Idle(t);
    Quiet(t, t');
    StepStable(t, DoApprove(a, plan));
    ReadsKept(t, t');
    ApprovedStops(t, a, plan, t');
    SameLiveMembers(t, t'.stops, Approved);
    SameLiveStops(t, t'.stops);
    UnlockedOps(t, Approved);
    CapacityStillMet(t, a);
  }

  lemma ApproveGuard(t: Trip, a: Approval)
    requires CanApprove(t, a)
    ensures RouteTrip(t, a.expected, Draft)
  {
  }

  lemma ReopenKeeps(t: Trip, expected: nat)
    requires Inv(t) && RouteTrip(t, expected, Approved)
    ensures Inv(Reopen(t))
  {
    hide OpsOk, MembersOk, Unique, StopsOk, ReadsOk, DispatchesOk, DriveOk, Stable, AllRejected, TotalsOk, Routed;
    var t' := Reopen(t);
    Idle(t);
    Quiet(t, t');
    StepStable(t, DoReopen(expected));
    ReadsKept(t, t');
    SameLiveMembers(t, t'.stops, Draft);
    SameLiveStops(t, t'.stops);
    UnlockedOps(t, Draft);
  }

  // ----- Dispatch -----

  /** Changes of dispatch rows alone. */
  lemma RowsAside(t: Trip, ds: seq<Dispatch>)
    requires Inv(t)
    requires DispatchesOk(t.id, t.status, t.lock, t.version, t.plan, t.members, ds)
    requires DriveOk(t.status, t.version, t.plan, t.stops, t.attempts, ds)
    ensures Inv(t.(dispatches := ds))
  {
    hide OpsOk, MembersOk, Unique, StopsOk, PlacesOk, TotalsOk, RouteOk, CapacityOk, DispatchesOk, DriveOk, ReadsOk,
      SameTrip;
    ReadsAside(t, ds);
  }

  lemma ReadsAside(t: Trip, ds: seq<Dispatch>)
    requires ReadsOk(t)
    ensures ReadsOk(t.(dispatches := ds))
  {
    ReadsKept(t, t.(dispatches := ds));
  }

  lemma AcceptedOk(t: Trip, q: BatchRequest)
    requires Inv(t) && CanAccept(t, q)
    ensures DispatchOk(t.id, t.status, t.lock, t.version, t.plan, t.members, Dispatch(q, Accepted, None))
  {
    hide OpsOk, MembersOk, Unique, StopsOk, PlacesOk, TotalsOk, RouteOk, CapacityOk, DispatchesOk, DriveOk, Matches,
      AllActive, DistinctItems;
    assert SelectionOk(t, q);
  }

  lemma AcceptKeeps(t: Trip, q: BatchRequest)
    requires Inv(t) && CanAccept(t, q)
    ensures Inv(t.(dispatches := t.dispatches + [Dispatch(q, Accepted, None)]))
  {
    hide OpsOk, MembersOk, Unique, StopsOk, PlacesOk, TotalsOk, RouteOk, CapacityOk, ReadsOk, DispatchOk, Driven;
    Idle(t);
    AcceptedOk(t, q);
    RowsAside(t, t.dispatches + [Dispatch(q, Accepted, None)]);
  }

  lemma StageKeeps(t: Trip, d: nat, stage: Stage)
    requires Inv(t) && d < |t.dispatches| && Open(t.dispatches[d].stage)
    requires stage in {Submitted, Receipted, DispatchRejected}
    ensures Inv(SetStage(t, d, stage))
  {
    hide OpsOk, MembersOk, Unique, StopsOk, PlacesOk, TotalsOk, RouteOk, CapacityOk, ReadsOk, Driven, Matches,
      AllActive, DistinctItems;
    var ds := SetStage(t, d, stage).dispatches;
    assert DispatchOk(t.id, t.status, t.lock, t.version, t.plan, t.members, t.dispatches[d]);
    forall e | 0 <= e < |ds| ensures DispatchOk(t.id, t.status, t.lock, t.version, t.plan, t.members, ds[e]) {
      assert DispatchOk(t.id, t.status, t.lock, t.version, t.plan, t.members, t.dispatches[e]);
    }
    RowsAside(t, ds);
  }

  /** While a dispatch is open no operation holds the lock, and status, version and plan are the ones
      it named: "Granted trip binding changed" cannot happen. */
  lemma OpenDispatchBound(t: Trip, d: nat)
    requires Inv(t) && d < |t.dispatches| && Open(t.dispatches[d].stage)
    ensures Bound(t, t.dispatches[d].request) && t.lock.None?
  {
    hide OpsOk, MembersOk, Unique, StopsOk, PlacesOk, TotalsOk, RouteOk, CapacityOk, ReadsOk, DriveOk, Matches,
      AllActive, DistinctItems;
    assert DispatchOk(t.id, t.status, t.lock, t.version, t.plan, t.members, t.dispatches[d]);
  }

  lemma CommitRows(t: Trip, d: nat, t': Trip)
    requires Inv(t) && CanCommitTrip(t, d) && t' == CommitTrip(t, d)
    ensures DispatchesOk(t'.id, t'.status, t'.lock, t'.version, t'.plan, t'.members, t'.dispatches)
  {
    hide OpsOk, MembersOk, Unique, StopsOk, PlacesOk, TotalsOk, RouteOk, CapacityOk, ReadsOk, DriveOk, Matches,
      AllActive, DistinctItems;
    forall e | 0 <= e < |t.dispatches|
      ensures DispatchOk(t'.id, t'.status, t'.lock, t'.version, t'.plan, t'.members, t'.dispatches[e])
      ensures e != d ==> t'.dispatches[e].stage == DispatchRejected
    {
      assert DispatchOk(t.id, t.status, t.lock, t.version, t.plan, t.members, t.dispatches[e]);
    }
    assert t'.dispatches[d].stage == DispatchDone;
  }

  lemma CommitDrive(t: Trip, d: nat, t': Trip)
    requires Inv(t) && CanCommitTrip(t, d) && t' == CommitTrip(t, d) && t.plan.Some?
    requires Routed(t.plan.value.ordered, t.stops)
    ensures DriveOk(t'.status, t'.version, t'.plan, t'.stops, t'.attempts, t'.dispatches)
  {
    hide OpsOk, MembersOk, Unique, StopsOk, TotalsOk, RouteOk, CapacityOk, ReadsOk, DispatchOk, OutcomeOk;
    assert forall i | 0 <= i < |t.plan.value.ordered| :: t.stops[t.plan.value.ordered[i]].state == Waiting;
  }

  lemma OnRoadMembers(t: Trip, status: TripStatus)
    requires MembersOk(t.id, t.lock, t.ops, t.status, t.stops, t.members) && t.lock.None? && status != TripCanceled
    ensures MembersOk(t.id, t.lock, t.ops, status, t.stops, t.members)
  {
    SameLiveMembers(t, t.stops, status);
  }

  lemma RoadPlaces(status: TripStatus, stops: map<Id, Stop>, status': TripStatus)
    requires PlacesOk(status, stops) && OnRoad(status')
    ensures PlacesOk(status', stops)
  {
  }

  lemma CommitTripKeeps(t: Trip, d: nat)
    requires Inv(t) && CanCommitTrip(t, d)
    ensures Inv(CommitTrip(t, d))
  {
    hide OpsOk, MembersOk, Unique, StopsOk, PlacesOk, ReadsOk, DispatchesOk, DriveOk, Stable, Routed;
    var t' := CommitTrip(t, d);
    OpenDispatchBound(t, d);
    StepStable(t, DoCommitTrip(d));
    ReadsKept(t, t');
    CommitRows(t, d, t');
    CommitDrive(t, d, t');
    OnRoadMembers(t, InProgress);
    UnlockedOps(t, InProgress);
    RoadPlaces(t.status, t.stops, InProgress);
  }

  // ----- Driving -----

  /** The next stop is the one the attempts so far lead up to. */
  lemma NextIsNext(t: Trip, x: Id)
    requires t.plan.Some? && Routed(t.plan.value.ordered, t.stops)
    requires Driven(t.plan.value.ordered, t.stops, t.attempts) && IsNext(t.stops, x)
    ensures |t.attempts| < |t.plan.value.ordered| && t.plan.value.ordered[|t.attempts|] == x
  {
    var ordered := t.plan.value.ordered;
    var k := |t.attempts|;
    assert x in ordered;
    var i :| 0 <= i < |ordered| && ordered[i] == x;
    assert i >= k;
    assert t.stops[ordered[k]].live && t.stops[ordered[k]].state == Waiting && t.stops[ordered[k]].place == Some(k + 1);
  }

  /** It is the last one exactly when the attempts now cover the whole order. */
  lemma LastIsLast(ordered: seq<Id>, stops: map<Id, Stop>, attempts: seq<Attempt>, x: Id)
    requires Routed(ordered, stops) && Driven(ordered, stops, attempts) && |attempts| < |ordered|
    requires ordered[|attempts|] == x
    ensures LastOne(stops, x) <==> |attempts| + 1 == |ordered|
  {
    var k := |attempts|;
    if k + 1 < |ordered| {
      assert stops[ordered[k + 1]].state == Waiting && ordered[k + 1] != x;
    } else {
      forall y | y in stops && y != x && stops[y].live ensures stops[y].state != Waiting {
        assert y in ordered;
      }
    }
  }

  lemma NextRouted(ordered: seq<Id>, stops: map<Id, Stop>, x: Id, s: Stop)
    requires Routed(ordered, stops) && x in stops && s.live == stops[x].live && s.place == stops[x].place
    ensures Routed(ordered, stops[x := s])
  {
    hide Distinct;
  }

  lemma NextDriven(ordered: seq<Id>, stops: map<Id, Stop>, attempts: seq<Attempt>, x: Id, s: Stop, delivered: bool,
      detail: nat)
    requires Driven(ordered, stops, attempts) && Distinct(ordered) && |attempts| < |ordered| && ordered[|attempts|] == x
    requires s.state == if delivered then DroppedOff else GaveUp
    ensures Driven(ordered, stops[x := s], attempts + [Attempt(x, delivered, detail)])
  {
    var k := |attempts|;
    assert forall i | 0 <= i < |ordered| && i != k :: ordered[i] != x;
  }

  lemma DriveStops(t: Trip, x: Id, delivered: bool, detail: nat, t': Trip)
    requires t.plan.Some? && Routed(t.plan.value.ordered, t.stops)
    requires Driven(t.plan.value.ordered, t.stops, t.attempts) && IsNext(t.stops, x)
    requires t' == Drive(t, x, delivered, detail)
    ensures Routed(t.plan.value.ordered, t'.stops) && Driven(t.plan.value.ordered, t'.stops, t'.attempts)
    ensures LastOne(t.stops, x) <==> |t'.attempts| == |t.plan.value.ordered|
  {
    NextIsNext(t, x);
    assert Distinct(t.plan.value.ordered);
    hide Routed, Driven, LastOne, Distinct;
    LastIsLast(t.plan.value.ordered, t.stops, t.attempts, x);
    NextRouted(t.plan.value.ordered, t.stops, x, t'.stops[x]);
    NextDriven(t.plan.value.ordered, t.stops, t.attempts, x, t'.stops[x], delivered, detail);
  }

  lemma DriveRows(t: Trip, x: Id, delivered: bool, detail: nat, t': Trip)
    requires Inv(t) && OnRoad(t.status) && x in t.stops && t' == Drive(t, x, delivered, detail)
    ensures DispatchesOk(t'.id, t'.status, t'.lock, t'.version, t'.plan, t'.members, t'.dispatches)
  {
    hide OpsOk, MembersOk, Unique, StopsOk, PlacesOk, TotalsOk, RouteOk, CapacityOk, ReadsOk, DriveOk, Matches,
      AllActive, DistinctItems, LastOne;
    forall e | 0 <= e < |t.dispatches|
      ensures DispatchOk(t'.id, t'.status, t'.lock, t'.version, t'.plan, t'.members, t'.dispatches[e])
    {
      assert DispatchOk(t.id, t.status, t.lock, t.version, t.plan, t.members, t.dispatches[e]);
    }
  }

  lemma DriveDrive(t: Trip, x: Id, version: nat, stopVersion: nat, delivered: bool, detail: nat, t': Trip)
    requires Inv(t) && CanDrive(t, x, version, stopVersion) && t' == Drive(t, x, delivered, detail)
    ensures DriveOk(t'.status, t'.version, t'.plan, t'.stops, t'.attempts, t'.dispatches)
    ensures RouteOk(t'.status, t'.lock, t'.plan, t'.stops)
  {
    hide OpsOk, MembersOk, Unique, StopsOk, PlacesOk, TotalsOk, CapacityOk, ReadsOk, DispatchesOk, Routed, Driven,
      LastOne, IsNext;
    DriveStops(t, x, delivered, detail, t');
  }

  lemma RoadUnlocked(t: Trip)
    requires OpsOk(t.lock, t.ops, t.status) && OnRoad(t.status)
    ensures t.lock.None?
  {
  }

  lemma DrivePlaces(t: Trip, x: Id, delivered: bool, detail: nat, t': Trip)
    requires PlacesOk(t.status, t.stops) && x in t.stops && OnRoad(t.status) && t' == Drive(t, x, delivered, detail)
    ensures PlacesOk(t'.status, t'.stops)
    ensures t'.stops.Keys == t.stops.Keys && forall y | y in t.stops :: t'.stops[y].live == t.stops[y].live
  {
    hide LastOne;
  }

  lemma DriveKeeps(t: Trip, x: Id, version: nat, stopVersion: nat, delivered: bool, detail: nat)
    requires Inv(t) && CanDrive(t, x, version, stopVersion)
    ensures Inv(Drive(t, x, delivered, detail))
  {
    hide OpsOk, MembersOk, Unique, StopsOk, PlacesOk, ReadsOk, DispatchesOk, DriveOk, Stable, TotalsOk, RouteOk,
      LastOne;
    var t' := Drive(t, x, delivered, detail);
    RoadUnlocked(t);
    StepStable(t, DoDrive(x, version, stopVersion, delivered, detail));
    ReadsKept(t, t');
    DriveRows(t, x, delivered, detail, t');
    DriveDrive(t, x, version, stopVersion, delivered, detail, t');
    DrivePlaces(t, x, delivered, detail, t');
    SameLiveMembers(t, t'.stops, t'.status);
    SameLiveStops(t, t'.stops);
    UnlockedOps(t, t'.status);
  }

  // ----- Every step -----

  lemma StepKeeps(t: Trip, step: TripStep)
    requires Inv(t) && Guard(t, step)
    ensures Inv(Do(t, step))
  {
    hide Inv, UpdateFields, BeginAdd, BeginRemove, BeginCancel, Consume, PersistClaim, Compensate, PersistRelease,
      Finalize, Approve, Reopen, SetStage, CommitTrip, Drive;
    hide CanRead, CanSelect, CanAccept, CanApprove, CanCommitTrip, CanDrive, CanFinalize, CanConsume, RouteTrip,
      CanAdd, CanUpdate;
    match step
    case DoUpdate(expected, assignment) => UpdateKeeps(t, expected, assignment);
    case DoAdd(expected, actor, lines) => AddKeeps(t, expected, actor, lines);
    case DoRemove(expected, actor, ids, newIds) => RemoveKeeps(t, expected, actor, ids, newIds);
    case DoCancel(expected, actor, newIds) => CancelKeeps(t, expected, actor, newIds);
    case DoConsume(i, version, request) => ConsumeKeeps(t, i, version, request);
    case DoPersistClaim(i, r) => PersistClaimKeeps(t, i, r);
    case DoCompensate(invalid, newIds) => CompensateKeeps(t, invalid, newIds);
    case DoPersistRelease(i) => PersistReleaseKeeps(t, i);
    case DoFinalize => FinalizeKeeps(t);
    case DoPreview(expected) => PreviewKeeps(t, expected);
    case DoRead(expected, capacity, ordered) => ReadKeeps(t, expected, capacity, ordered);
    case DoApprove(a, plan) => ApproveKeeps(t, a, plan);
    case DoReopen(expected) => ReopenKeeps(t, expected);
    case DoSelect(q) => SelectKeeps(t, q);
    case DoAccept(q) => AcceptKeeps(t, q);
    case DoSubmit(d) => StageKeeps(t, d, Submitted);
    case DoRejectEarly(d) => StageKeeps(t, d, DispatchRejected);
    case DoReceipt(d, granted) => StageKeeps(t, d, if granted then Receipted else DispatchRejected);
    case DoCommitTrip(d) => CommitTripKeeps(t, d);
    case DoDrive(x, version, stopVersion, delivered, detail) =>
      DriveKeeps(t, x, version, stopVersion, delivered, detail);
  }

  lemma {:induction false} RunKeeps(t: Trip, steps: seq<TripStep>, t': Trip)
    requires Inv(t) && Follows(t, steps, t')
    ensures Inv(t')
    decreases |steps|
  {
    hide Inv;
    if steps != [] {
      StepKeeps(t, steps[0]);
      RunKeeps(Do(t, steps[0]), steps[1..], t');
    }
  }
}
