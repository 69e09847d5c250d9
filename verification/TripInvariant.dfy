/** What every transaction of one trip keeps. */
module TripInvariant {
  import opened Shipments
  import opened Fulfillment
  import opened Trips

  // ----- Components -----

  predicate Finished(status: OpStatus) { status in {OpCompleted, OpRejected} }

  function Reported(result: seq<(Id, MemberState)>): seq<Id> {
    seq(|result|, i requires 0 <= i < |result| => result[i].0)
  }

  /** What a finished operation reported: its own shipments, in row order. An ADD that completed has all
      its rows active, one that was rejected has all of them released, and the other kinds complete
      with all rows released. */
  ghost predicate OutcomeOk(op: Op) {
    && (op.status in {Compensating, OpRejected} ==> op.kind == Add)
    && (Finished(op.status) ==>
          && Reported(op.result) == op.shipments
          && forall r | r in op.result ::
                r.1 == if op.kind == Add && op.status == OpCompleted then Active else Released)
  }

  /** The shipments of an operation's rows, in row order. */
  function RowsOf(ms: seq<Member>, op: nat): seq<Id> {
    if ms == [] then []
    else RowsOf(ms[..|ms| - 1], op) + if ms[|ms| - 1].op == op then [ms[|ms| - 1].shipment] else []
  }

  /** The rows of the operation that holds the lock are the ones its payload names. */
  ghost predicate RowsListed(lock: Option<nat>, ops: seq<Op>, ms: seq<Member>) {
    lock.Some? && lock.value < |ops| ==> RowsOf(ms, lock.value) == ops[lock.value].shipments
  }

  /** The operation holding the lock, if any, is the only one that is pending or compensating. */
  ghost predicate OpsOk(lock: Option<nat>, ops: seq<Op>, status: TripStatus) {
    && (lock.Some? ==> lock.value < |ops| && !Finished(ops[lock.value].status))
    && (forall i | 0 <= i < |ops| && lock != Some(i) :: Finished(ops[i].status))
    && (forall i | 0 <= i < |ops| :: OutcomeOk(ops[i]))
    && (lock.Some? ==> status == Draft || (status == Approved && ops[lock.value].kind == CancelTrip))
  }

  ghost predicate ReleaseFits(id: Id, m: Member) {
    && m.claim.Some? && m.releaseReq.Some?
    && m.releaseReq.value.claim == m.claim.value && m.releaseReq.value.trip == id
    && m.releaseReq.value.shipment == m.shipment
  }

  /** The rows of the operation holding the lock: claims first, then releases. */
  ghost predicate InStep(op: Op, state: MemberState) {
    if op.kind == Add && op.status == OpPending then state in {ClaimPending, Active}
    else state in {ReleasePending, Released}
  }

  ghost predicate MemberOk(id: Id, lock: Option<nat>, ops: seq<Op>, status: TripStatus, stops: map<Id, Stop>,
      m: Member) {
    && m.claimReq.trip == id && m.claimReq.shipment == m.shipment && m.op < |ops|
    && (m.state in {ClaimPending, ReleasePending} ==> lock == Some(m.op))
    && (lock == Some(m.op) ==> InStep(ops[m.op], m.state))
    && (lock.Some? && lock.value < |ops| && ops[lock.value].kind == CancelTrip ==> m.state != Active)
    && (status == TripCanceled ==> m.state == Released)
    && (m.state == ClaimPending ==> m.claim == None)
    && (m.state in {ClaimPending, Active} ==> m.releaseReq == None)
    && (m.state == ReleasePending ==> ReleaseFits(id, m))
    && (m.state == Active ==> m.claim.Some? && m.shipment in stops && stops[m.shipment].live)
  }

  ghost predicate MembersOk(id: Id, lock: Option<nat>, ops: seq<Op>, status: TripStatus, stops: map<Id, Stop>,
      ms: seq<Member>) {
    forall i | 0 <= i < |ms| :: MemberOk(id, lock, ops, status, stops, ms[i])
  }

  ghost predicate Unique(ms: seq<Member>) {
    forall i, j | 0 <= i < j < |ms| && Present(ms[i]) && Present(ms[j]) :: ms[i].shipment != ms[j].shipment
  }

  ghost predicate Backs(ms: seq<Member>, x: Id) {
    exists i :: 0 <= i < |ms| && ms[i].shipment == x && ms[i].state in {Active, ReleasePending}
  }

  ghost predicate StopsOk(ms: seq<Member>, stops: map<Id, Stop>) {
    forall x | x in stops && stops[x].live :: Backs(ms, x)
  }

  ghost predicate PlacesOk(status: TripStatus, stops: map<Id, Stop>) {
    forall x | x in stops ::
      && (!stops[x].live || status == Draft ==> stops[x].place == None)
      && (stops[x].live && status in {Draft, Approved} ==> stops[x].state == Waiting)
  }

  ghost predicate TotalsOk(lock: Option<nat>, ms: seq<Member>, weight: nat, volume: nat) {
    lock.None? ==> weight == ActiveWeight(ms) && volume == ActiveVolume(ms)
  }

  predicate OnRoad(status: TripStatus) { status in {InProgress, TripCompleted} }

  /** The approved order is a bijection of the live stops onto 1..n. */
  ghost predicate Routed(ordered: seq<Id>, stops: map<Id, Stop>) {
    && ordered != [] && Distinct(ordered)
    && (forall i | 0 <= i < |ordered| ::
          ordered[i] in stops && stops[ordered[i]].live && stops[ordered[i]].place == Some(i + 1))
    && (forall x | x in stops && stops[x].live :: x in ordered)
  }

  ghost predicate RouteOk(status: TripStatus, lock: Option<nat>, plan: Option<Plan>, stops: map<Id, Stop>) {
    OnRoad(status) || (status == Approved && lock.None?) ==> plan.Some? && Routed(plan.value.ordered, stops)
  }

  ghost predicate CapacityOk(status: TripStatus, capacity: Option<(nat, nat)>, weight: nat, volume: nat) {
    OnRoad(status) || status == Approved ==> capacity.Some? && weight <= capacity.value.0 && volume <= capacity.value.1
  }

  /** An open dispatch pins the trip: no operation, APPROVED, and the version and plan it named. */
  ghost predicate Pinned(status: TripStatus, lock: Option<nat>, version: nat, plan: Option<Plan>, q: BatchRequest) {
    lock.None? && status == Approved && version == q.tripVersion && plan.Some? && plan.value.id == q.plan
  }

  ghost predicate DispatchOk(id: Id, status: TripStatus, lock: Option<nat>, version: nat, plan: Option<Plan>,
      ms: seq<Member>, d: Dispatch) {
    && d.request.trip == id && DistinctItems(d.request.items) && d.request.items != []
    && (Open(d.stage) ==> Pinned(status, lock, version, plan, d.request))
    && (d.stage == DispatchDone ==> OnRoad(status))
    && (d.stage != DispatchRejected ==> AllActive(ms) && Matches(ms, d.request))
  }

  ghost predicate SomeDone(ds: seq<Dispatch>) { exists d :: 0 <= d < |ds| && ds[d].stage == DispatchDone }

  ghost predicate DispatchesOk(id: Id, status: TripStatus, lock: Option<nat>, version: nat, plan: Option<Plan>,
      ms: seq<Member>, ds: seq<Dispatch>) {
    && (forall d | 0 <= d < |ds| :: DispatchOk(id, status, lock, version, plan, ms, ds[d]))
    && (forall d, e | 0 <= d < e < |ds| :: ds[d].stage == DispatchRejected || ds[e].stage == DispatchRejected)
    && (OnRoad(status) ==> SomeDone(ds))
  }

  /** The finished stops are the first ones of the approved order, one attempt each. */
  ghost predicate Driven(ordered: seq<Id>, stops: map<Id, Stop>, attempts: seq<Attempt>) {
    && |attempts| <= |ordered|
    && (forall i | 0 <= i < |ordered| ::
          ordered[i] in stops && (stops[ordered[i]].state == Waiting <==> i >= |attempts|))
    && (forall i | 0 <= i < |attempts| ::
          attempts[i].stop == ordered[i] && (attempts[i].delivered <==> stops[ordered[i]].state == DroppedOff))
  }

  ghost predicate DriveOk(status: TripStatus, version: nat, plan: Option<Plan>, stops: map<Id, Stop>,
      attempts: seq<Attempt>, ds: seq<Dispatch>) {
    && (!OnRoad(status) ==> attempts == [])
    && (OnRoad(status) && plan.Some? ==>
          Driven(plan.value.ordered, stops, attempts)
          && (status == TripCompleted <==> |attempts| == |plan.value.ordered|))
    && (forall d | 0 <= d < |ds| && ds[d].stage == DispatchDone ::
          ds[d].result.Some? && version == ds[d].result.value + |attempts|)
  }

  ghost predicate ApprovalOk(t: Trip, a: Approval) {
    && a.expected <= a.readAt <= t.version
    && (a.readAt == t.version && t.lock.None? ==> t.weight <= a.capacity.0 && t.volume <= a.capacity.1)
  }

  ghost predicate SelectionOk(t: Trip, q: BatchRequest) {
    && q.tripVersion <= t.version && q.trip == t.id && DistinctItems(q.items) && q.items != []
    && (q.tripVersion == t.version && t.lock.None? ==>
          t.status == Approved && t.plan.Some? && t.plan.value.id == q.plan && AllActive(t.members)
          && Matches(t.members, q))
  }

  /** What was read outside a transaction still holds as long as the version has not moved. */
  ghost predicate ReadsOk(t: Trip) {
    && (forall e | e in t.tokens :: e <= t.version)
    && (forall a | a in t.approvals :: ApprovalOk(t, a))
    && (forall q | q in t.selections :: SelectionOk(t, q))
  }

  ghost predicate Inv(t: Trip) {
    && OpsOk(t.lock, t.ops, t.status)
    && MembersOk(t.id, t.lock, t.ops, t.status, t.stops, t.members) && Unique(t.members)
    && RowsListed(t.lock, t.ops, t.members)
    && StopsOk(t.members, t.stops) && PlacesOk(t.status, t.stops)
    && TotalsOk(t.lock, t.members, t.weight, t.volume)
    && RouteOk(t.status, t.lock, t.plan, t.stops)
    && CapacityOk(t.status, t.capacity, t.weight, t.volume)
    && DispatchesOk(t.id, t.status, t.lock, t.version, t.plan, t.members, t.dispatches)
    && DriveOk(t.status, t.version, t.plan, t.stops, t.attempts, t.dispatches)
    && ReadsOk(t)
  }

  lemma NewInv(id: Id, assignment: Option<Id>)
    ensures Inv(NewTrip(id, assignment))
  {
  }

  // ----- Versions -----

  /** The trip apart from its dispatch rows and outstanding reads. */
  ghost predicate SameTrip(t: Trip, t': Trip) {
    t' == t.(dispatches := t'.dispatches, tokens := t'.tokens, approvals := t'.approvals, selections := t'.selections)
  }

  /** The version never drops; while it stands still the lock does too, and without a lock nothing
      of the trip changes. */
  ghost predicate Stable(t: Trip, t': Trip) {
    && t.version <= t'.version
    && (t.version == t'.version ==> t'.lock == t.lock && (t.lock.None? ==> SameTrip(t, t')))
  }

  lemma StepStable(t: Trip, step: TripStep)
    requires Guard(t, step)
    ensures Stable(t, Do(t, step))
  {
    hide IsFirst, NoneLeft, CanRemove, InputReady, CanSelect, LeaveAll, Matches, Permutation, IsNext;
  }

  lemma DoKeepsId(t: Trip, step: TripStep)
    requires Guard(t, step)
    ensures Do(t, step).id == t.id
  {
    hide IsFirst, NoneLeft, CanRemove, InputReady, CanSelect, LeaveAll, Matches, Permutation, IsNext;
  }

  lemma StableTrans(a: Trip, b: Trip, c: Trip)
    requires Stable(a, b) && Stable(b, c)
    ensures Stable(a, c)
  {
  }

  /** Optimistic versions are sound: two states of one run with the same version and no operation
      holding the lock have the same rows, totals, stops, assignment, status and plan. */
  lemma {:induction false} VersionSound(t: Trip, steps: seq<TripStep>, t': Trip)
    requires Follows(t, steps, t')
    ensures Stable(t, t')
    decreases |steps|
  {
    if steps != [] {
      StepStable(t, steps[0]);
      VersionSound(Do(t, steps[0]), steps[1..], t');
      StableTrans(t, Do(t, steps[0]), t');
    }
  }

  lemma ReadsKept(t: Trip, t': Trip)
    requires ReadsOk(t) && Stable(t, t') && t'.id == t.id
    requires t'.tokens == t.tokens && t'.approvals == t.approvals && t'.selections == t.selections
    ensures ReadsOk(t')
  {
    hide Matches, AllActive, DistinctItems;
    forall a | a in t'.approvals ensures ApprovalOk(t', a) { assert ApprovalOk(t, a); }
    forall q | q in t'.selections ensures SelectionOk(t', q) { assert SelectionOk(t, q); }
  }

  // ----- Sums -----

  lemma {:induction false} NothingActive(ms: seq<Member>)
    requires forall i | 0 <= i < |ms| :: ms[i].state != Active
    ensures ActiveWeight(ms) == 0 && ActiveVolume(ms) == 0
  {
    if ms != [] { NothingActive(ms[..|ms| - 1]); }
  }
}
