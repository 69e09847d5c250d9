/** One delivery trip of the transport service: its rows and the transactions that change them.
    A transaction whose guards fail throws, and leaves the rows as they were. */
module Trips {
  import opened Shipments
  import opened Fulfillment

  /** The largest version a command may still raise. */
  const MAX_SAFE: nat := 9007199254740991

  datatype TripStatus = Draft | Approved | InProgress | TripCompleted | TripCanceled

  datatype MemberState = ClaimPending | Active | ReleasePending | Released

  /** A membership row. A row leaves the trip exactly when it becomes Released. Rows stand in the order of
      (assignedAt, id); rows of one ADD share the time, and their ids are random. */
  datatype Member = Member(
    shipment: Id, op: nat, state: MemberState, claimReq: ClaimRequest,
    claim: Option<Id>, version: nat, weight: nat, volume: nat, releaseReq: Option<ReleaseRequest>)

  datatype StopState = Waiting | DroppedOff | GaveUp

  /** A stop belongs to one shipment; `place` is its approved sequence. */
  datatype Stop = Stop(live: bool, state: StopState, place: Option<nat>, version: nat)

  datatype Kind = Add | Remove | CancelTrip | ShipmentGone
  datatype OpStatus = OpPending | Compensating | OpCompleted | OpRejected
  /** `shipments` are those of the payload, in the order of their rows. */
  datatype Op = Op(kind: Kind, status: OpStatus, actor: Id, shipments: seq<Id>, result: seq<(Id, MemberState)>)

  datatype Stage = Accepted | Submitted | Receipted | DispatchDone | DispatchRejected
  /** `result` is the trip version the completed dispatch reported. */
  datatype Dispatch = Dispatch(request: BatchRequest, stage: Stage, result: Option<nat>)

  datatype Plan = Plan(id: Id, ordered: seq<Id>)
  /** One driver action; `detail` stands for its time, reason and driver. */
  datatype Attempt = Attempt(stop: Id, delivered: bool, detail: nat)

  /** What an approval holds when its transaction starts: the version its preview token binds, and
      the vehicle capacity and stop order it read outside any transaction. */
  datatype Approval = Approval(expected: nat, readAt: nat, capacity: (nat, nat), ordered: seq<Id>)

  /** `lock` is the operation that holds the trip's unique active lock. `tokens`, `approvals` and
      `selections` are preview tokens issued and reads made outside a transaction so far. */
  datatype Trip = Trip(
    id: Id, status: TripStatus, version: nat, weight: nat, volume: nat,
    plan: Option<Plan>, capacity: Option<(nat, nat)>, assignment: Option<Id>,
    members: seq<Member>, stops: map<Id, Stop>, ops: seq<Op>, lock: Option<nat>,
    dispatches: seq<Dispatch>, attempts: seq<Attempt>,
    tokens: set<nat>, approvals: set<Approval>, selections: set<BatchRequest>)

  function NewTrip(id: Id, assignment: Option<Id>): Trip {
    Trip(id, Draft, 1, 0, 0, None, None, assignment, [], map[], [], None, [], [], {}, {}, {})
  }

  // ----- Reading -----

  function ActiveWeight(ms: seq<Member>): nat {
    if ms == [] then 0
    else ActiveWeight(ms[..|ms| - 1]) + if ms[|ms| - 1].state == Active then ms[|ms| - 1].weight else 0
  }

  function ActiveVolume(ms: seq<Member>): nat {
    if ms == [] then 0
    else ActiveVolume(ms[..|ms| - 1]) + if ms[|ms| - 1].state == Active then ms[|ms| - 1].volume else 0
  }

  function Recount(t: Trip): Trip { t.(weight := ActiveWeight(t.members), volume := ActiveVolume(t.members)) }

  function LiveStops(stops: map<Id, Stop>): set<Id> { set x | x in stops && stops[x].live }

  predicate Present(m: Member) { m.state != Released }

  function PresentShipments(ms: seq<Member>): set<Id> { set m | m in ms && Present(m) :: m.shipment }

  predicate AllActive(ms: seq<Member>) { forall i | 0 <= i < |ms| && Present(ms[i]) :: ms[i].state == Active }

  predicate Distinct(ids: seq<Id>) { forall i, j | 0 <= i < j < |ids| :: ids[i] != ids[j] }

  function Listing(ids: seq<Id>): set<Id> { set x | x in ids }

  /** `assertPermutation`, which compares sizes and looks for each stop. */
  predicate Permutation(ordered: seq<Id>, stops: set<Id>) {
    stops != {} && Distinct(ordered) && |ordered| == |stops| && forall x | x in stops :: x in ordered
  }

  predicate NoPending(t: Trip) {
    t.lock.None? && forall d | 0 <= d < |t.dispatches| :: t.dispatches[d].stage == DispatchRejected
  }

  predicate RouteTrip(t: Trip, expected: nat, status: TripStatus) {
    t.version == expected && t.version < MAX_SAFE && t.status == status && NoPending(t)
  }

  /** The checks of the route input, read in one go outside any transaction. Each stop has a member
      and there are as many of the one as of the other, so they cover the same shipments. */
  predicate InputReady(t: Trip, capacity: (nat, nat)) {
    && t.assignment.Some? && PresentShipments(t.members) != {} && AllActive(t.members)
    && LiveStops(t.stops) == PresentShipments(t.members)
    && (forall x | x in LiveStops(t.stops) :: t.stops[x].state == Waiting)
    && ActiveWeight(t.members) <= capacity.0 && ActiveVolume(t.members) <= capacity.1
    && t.weight == ActiveWeight(t.members) && t.volume == ActiveVolume(t.members)
  }

  // ----- Fields -----

  predicate CanUpdate(t: Trip, expected: nat) {
    t.version == expected && t.status == Draft && t.lock.None? && t.version < MAX_SAFE
  }

  function UpdateFields(t: Trip, assignment: Option<Id>): Trip {
    t.(assignment := assignment, version := t.version + 1)
  }

  // ----- Membership operations -----

  /** A line of an ADD command, with the request id generated for its claim. Lines are listed in the order
      of the rows they become, not in the order of the command. */
  datatype Line = Line(shipment: Id, version: nat, request: Id)

  predicate CanAdd(t: Trip, expected: nat, lines: seq<Line>) {
    && t.version == expected && t.status == Draft && t.version < MAX_SAFE && t.lock.None?
    && (forall i | 0 <= i < |lines| :: lines[i].shipment !in PresentShipments(t.members))
    && (forall i, j | 0 <= i < j < |lines| :: lines[i].shipment != lines[j].shipment)
  }

  function NewMember(t: Trip, actor: Id, line: Line): Member {
    Member(line.shipment, |t.ops|, ClaimPending,
           ClaimRequest(line.request, t.id, line.shipment, actor, t.version + 1, line.version),
           None, line.version, 0, 0, None)
  }

  function LineShipments(lines: seq<Line>): seq<Id> { seq(|lines|, i requires 0 <= i < |lines| => lines[i].shipment) }

  function BeginAdd(t: Trip, actor: Id, lines: seq<Line>): Trip {
    t.(members := t.members + seq(|lines|, i requires 0 <= i < |lines| => NewMember(t, actor, lines[i])),
       ops := t.ops + [Op(Add, OpPending, actor, LineShipments(lines), [])], lock := Some(|t.ops|),
       version := t.version + 1)
  }

  /** The release a membership asks for, with a generated request id. */
  function ReleaseFor(t: Trip, m: Member, actor: Id, tripVersion: nat, request: Id): ReleaseRequest
    requires m.claim.Some?
  {
    ReleaseRequest(request, m.claim.value, t.id, m.shipment, actor, tripVersion, m.version)
  }

  function Leaving(t: Trip, m: Member, op: nat, actor: Id, tripVersion: nat, request: Id): Member {
    if m.claim.None? then m
    else m.(op := op, state := ReleasePending, releaseReq := Some(ReleaseFor(t, m, actor, tripVersion, request)))
  }

  /** A release cannot be prepared for a row without a claim receipt. */
  predicate ClaimsKnown(ms: seq<Member>, picked: set<Id>) {
    forall i | 0 <= i < |ms| && ms[i].state == Active && ms[i].shipment in picked :: ms[i].claim.Some?
  }

  /** `newIds[i]` is the request id generated for row `i`. */
  function LeaveAll(t: Trip, picked: set<Id>, actor: Id, newIds: seq<Id>): seq<Member>
    requires |newIds| == |t.members|
  {
    seq(|t.members|, i requires 0 <= i < |t.members| =>
      if t.members[i].state == Active && t.members[i].shipment in picked
      then Leaving(t, t.members[i], |t.ops|, actor, t.version + 1, newIds[i]) else t.members[i])
  }

  /** The shipments of the active rows among those picked, in row order. */
  function Picked(ms: seq<Member>, picked: set<Id>): seq<Id> {
    if ms == [] then []
    else
      var m := ms[|ms| - 1];
      Picked(ms[..|ms| - 1], picked) + if m.state == Active && m.shipment in picked then [m.shipment] else []
  }

  predicate CanRemove(t: Trip, expected: nat, ids: seq<Id>) {
    && t.version == expected && t.status == Draft && t.version < MAX_SAFE && t.lock.None? && Distinct(ids)
    && ClaimsKnown(t.members, Listing(ids))
    && forall x | x in ids ::
          exists i | 0 <= i < |t.members| :: t.members[i].shipment == x && t.members[i].state == Active
  }

  function BeginRemove(t: Trip, actor: Id, ids: seq<Id>, newIds: seq<Id>): Trip
    requires |newIds| == |t.members|
  {
    t.(members := LeaveAll(t, Listing(ids), actor, newIds),
       ops := t.ops + [Op(Remove, OpPending, actor, Picked(t.members, Listing(ids)), [])], lock := Some(|t.ops|),
       version := t.version + 1)
  }

  predicate CanCancel(t: Trip, expected: nat) {
    NoPending(t) && t.version == expected && t.status in {Draft, Approved} && t.version < MAX_SAFE
    && ClaimsKnown(t.members, PresentShipments(t.members))
  }

  function BeginCancel(t: Trip, actor: Id, newIds: seq<Id>): Trip
    requires |newIds| == |t.members|
  {
    t.(members := LeaveAll(t, PresentShipments(t.members), actor, newIds),
       ops := t.ops + [Op(CancelTrip, OpPending, actor, Picked(t.members, PresentShipments(t.members)), [])],
       lock := Some(|t.ops|), version := t.version + 1)
  }

  function Cleared(stops: map<Id, Stop>): map<Id, Stop> { map x | x in stops :: stops[x].(place := None) }

  function Unstop(stops: map<Id, Stop>, x: Id): map<Id, Stop> {
    if x in stops && stops[x].live then stops[x := stops[x].(live := false, version := stops[x].version + 1)] else stops
  }

  predicate CanConsume(t: Trip, i: nat) {
    i < |t.members| && t.members[i].state == Active && t.status in {Draft, Approved} && NoPending(t)
    && t.members[i].claim.Some? && t.version < MAX_SAFE
  }

  /** The ShipmentCanceled event of row `i`, whose aggregate version is `version`. */
  function Consume(t: Trip, i: nat, version: nat, request: Id): Trip
    requires CanConsume(t, i)
  {
    var m := t.members[i].(version := version);
    var actor := m.claimReq.actor;
    var t' := t.(members := t.members[i := Leaving(t, m, |t.ops|, actor, t.version + 1, request)],
                 ops := t.ops + [Op(ShipmentGone, OpPending, actor, [m.shipment], [])], lock := Some(|t.ops|),
                 stops := Unstop(Cleared(t.stops), m.shipment), plan := None, status := Draft,
                     version := t.version + 1);
    Recount(t')
  }

  // ----- Processing an operation -----

  predicate InOp(t: Trip, m: Member) { t.lock == Some(m.op) }

  /** The row the processor works on: the first of its operation that is in the given state. */
  predicate IsFirst(t: Trip, i: nat, state: MemberState) {
    i < |t.members| && t.members[i].state == state && InOp(t, t.members[i])
    && forall j | 0 <= j < i :: !(t.members[j].state == state && InOp(t, t.members[j]))
  }

  predicate NoneLeft(t: Trip, state: MemberState) {
    forall i | 0 <= i < |t.members| && InOp(t, t.members[i]) :: t.members[i].state != state
  }

  predicate Adding(t: Trip) {
    t.lock.Some? && t.lock.value < |t.ops| && t.ops[t.lock.value].kind == Add && t.ops[t.lock.value].status == OpPending
  }

  predicate Releasing(t: Trip) {
    t.lock.Some? && t.lock.value < |t.ops| && (t.ops[t.lock.value].status == Compensating
      || (t.ops[t.lock.value].status == OpPending && t.ops[t.lock.value].kind != Add))
  }

  function Arrive(stops: map<Id, Stop>, x: Id): map<Id, Stop> {
    if x in stops then stops[x := stops[x].(live := true, state := Waiting, version := stops[x].version + 1)]
    else stops[x := Stop(true, Waiting, None, 1)]
  }

  function PersistClaim(t: Trip, i: nat, r: Receipt): Trip
    requires i < |t.members| && r.Claimed?
  {
    if t.members[i].state != ClaimPending then t
    else
      var m := t.members[i].(state := Active, claim := Some(r.claim), version := r.version, weight := r.weight,
          volume := r.volume);
      Recount(t.(members := t.members[i := m], stops := Arrive(t.stops, m.shipment)))
  }

  /** `invalid`: the row whose claim went through but whose snapshot does not match, and its receipt. */
  function WithClaim(ms: seq<Member>, invalid: Option<(nat, Receipt)>): seq<Member>
    requires invalid.Some? ==> invalid.value.0 < |ms| && invalid.value.1.Claimed?
  {
    if invalid.None? then ms
    else
      var (i, r) := invalid.value;
      ms[i := ms[i].(state := Active, claim := Some(r.claim), version := r.version)]
  }

  function Undo(t: Trip, m: Member, actor: Id, request: Id): Member {
    if !InOp(t, m) then m
    else match m.state
      case Active => Leaving(t, m, m.op, actor, t.version, request)
      case ClaimPending => m.(state := Released)
      case _ => m
  }

  predicate CanUndo(t: Trip) {
    forall i | 0 <= i < |t.members| && InOp(t, t.members[i]) && t.members[i].state == Active :: t.members[i].claim.Some?
  }

  function Compensate(t: Trip, invalid: Option<(nat, Receipt)>, newIds: seq<Id>): Trip
    requires t.lock.Some? && t.lock.value < |t.ops| && |newIds| == |t.members|
    requires invalid.Some? ==> invalid.value.0 < |t.members| && invalid.value.1.Claimed?
  {
    var ms := WithClaim(t.members, invalid);
    var op := t.ops[t.lock.value];
    t.(members := seq(|ms|, i requires 0 <= i < |ms| => Undo(t, ms[i], op.actor, newIds[i])),
       ops := t.ops[t.lock.value := op.(status := Compensating)])
  }

  function Gone(stops: map<Id, Stop>, x: Id): map<Id, Stop> {
    if x in stops && stops[x].live
    then stops[x := stops[x].(live := false, place := None, version := stops[x].version + 1)] else stops
  }

  function PersistRelease(t: Trip, i: nat): Trip
    requires i < |t.members|
  {
    if t.members[i].state != ReleasePending then t
    else
      Recount(t.(members := t.members[i := t.members[i].(state := Released)],
          stops := Gone(t.stops, t.members[i].shipment)))
  }

  function Results(ms: seq<Member>, op: nat): seq<(Id, MemberState)> {
    if ms == [] then []
    else
      var m := ms[|ms| - 1];
      Results(ms[..|ms| - 1], op) + if m.op == op then [(m.shipment, m.state)] else []
  }

  predicate CanFinalize(t: Trip) {
    t.version < MAX_SAFE && ((Adding(t) && NoneLeft(t, ClaimPending)) || (Releasing(t) && NoneLeft(t, ReleasePending)))
  }

  function Finalize(t: Trip): Trip
    requires CanFinalize(t)
  {
    var o := t.lock.value;
    var op := t.ops[o];
    var outcome := if op.status == Compensating then OpRejected else OpCompleted;
    var cancel := op.kind == CancelTrip && outcome == OpCompleted;
    t.(weight := if cancel then 0 else ActiveWeight(t.members), volume := if cancel then 0 else ActiveVolume(t.members),
       version := t.version + 1, status := if cancel then TripCanceled else t.status,
       plan := if cancel then None else t.plan,
       ops := t.ops[o := op.(status := outcome, result := Results(t.members, o))], lock := None)
  }

  // ----- Route approval -----

  /** The first steps give each listed stop its place, counting from one. */
  function Places(stops: map<Id, Stop>, ordered: seq<Id>): map<Id, Stop> {
    if ordered == [] then stops
    else
      var n := |ordered| - 1;
      var before := Places(stops, ordered[..n]);
      if ordered[n] in before
      then before[ordered[n] := before[ordered[n]].(place := Some(n + 1), version := before[ordered[n]].version + 1)]
      else before
  }

  predicate CanRead(t: Trip, expected: nat, capacity: (nat, nat), ordered: seq<Id>) {
    expected in t.tokens && InputReady(t, capacity) && Permutation(ordered, LiveStops(t.stops))
  }

  predicate CanApprove(t: Trip, a: Approval) {
    && a in t.approvals && RouteTrip(t, a.expected, Draft) && |LiveStops(t.stops)| == |a.ordered|
    && AllActive(t.members)
    && Permutation(a.ordered, LiveStops(t.stops))
  }

  function Approve(t: Trip, a: Approval, plan: Id): Trip {
    t.(stops := Places(Cleared(t.stops), a.ordered), status := Approved, plan := Some(Plan(plan, a.ordered)),
       capacity := Some(a.capacity), version := t.version + 1)
  }

  function Reopen(t: Trip): Trip {
    t.(stops := map x | x in t.stops :: t.stops[x].(place := None, version := t.stops[x].version + 1),
       status := Draft, plan := None, version := t.version + 1)
  }

  // ----- Dispatch -----

  predicate Carries(ms: seq<Member>, item: Item) {
    exists j | 0 <= j < |ms| :: Present(ms[j]) && ms[j].shipment == item.shipment && ms[j].version == item.version
  }

  predicate Lists(items: seq<Item>, x: Id) { exists i | 0 <= i < |items| :: items[i].shipment == x }

  /** The payload lists the rows that are present, each at its version, and no others. */
  predicate Matches(ms: seq<Member>, q: BatchRequest) {
    && (forall i | 0 <= i < |q.items| :: Carries(ms, q.items[i]))
    && (forall j | 0 <= j < |ms| && Present(ms[j]) :: Lists(q.items, ms[j].shipment))
  }

  /** What a dispatch reads outside its transaction: the payload lists the trip's shipments. */
  predicate CanSelect(t: Trip, q: BatchRequest) {
    && t.status == Approved && t.version == q.tripVersion && t.plan.Some? && t.plan.value.id == q.plan && q.trip == t.id
    && AllActive(t.members) && Matches(t.members, q) && DistinctItems(q.items) && q.items != []
  }

  predicate CanAccept(t: Trip, q: BatchRequest) { q in t.selections && RouteTrip(t, q.tripVersion, Approved) }

  predicate Open(stage: Stage) { stage in {Accepted, Submitted, Receipted} }

  function SetStage(t: Trip, d: nat, stage: Stage): Trip
    requires d < |t.dispatches|
  {
    t.(dispatches := t.dispatches[d := t.dispatches[d].(stage := stage)])
  }

  /** The binding the dispatch was made for still stands. */
  predicate Bound(t: Trip, q: BatchRequest) {
    t.status == Approved && t.version == q.tripVersion && t.plan.Some? && t.plan.value.id == q.plan
  }

  predicate CanCommitTrip(t: Trip, d: nat) {
    d < |t.dispatches| && t.dispatches[d].stage == Receipted && Bound(t, t.dispatches[d].request)
    && t.version < MAX_SAFE
  }

  function CommitTrip(t: Trip, d: nat): Trip
    requires d < |t.dispatches|
  {
    t.(status := InProgress, version := t.version + 1,
       dispatches := t.dispatches[d := t.dispatches[d].(stage := DispatchDone, result := Some(t.version + 1))])
  }

  // ----- Driving -----

  /** No live waiting stop comes before `x` in the approved order; unplaced stops sort last. */
  predicate IsNext(stops: map<Id, Stop>, x: Id) {
    && x in stops && stops[x].live && stops[x].state == Waiting && stops[x].place.Some?
    && forall y | y in stops && y != x && stops[y].live && stops[y].state == Waiting && stops[y].place.Some? ::
         stops[x].place.value < stops[y].place.value || (stops[x].place.value == stops[y].place.value && x < y)
  }

  predicate CanDrive(t: Trip, x: Id, version: nat, stopVersion: nat) {
    t.status == InProgress && t.assignment.Some? && IsNext(t.stops, x) && t.version == version
    && t.stops[x].version == stopVersion
    && t.version < MAX_SAFE
  }

  predicate LastOne(stops: map<Id, Stop>, x: Id) {
    forall y | y in stops && y != x && stops[y].live :: stops[y].state != Waiting
  }

  function Drive(t: Trip, x: Id, delivered: bool, detail: nat): Trip
    requires x in t.stops
  {
    var s := t.stops[x];
    t.(stops := t.stops[x := s.(state := if delivered then DroppedOff else GaveUp, version := s.version + 1)],
       status := if LastOne(t.stops, x) then TripCompleted else t.status,
       version := t.version + 1, attempts := t.attempts + [Attempt(x, delivered, detail)])
  }

  // ----- Steps -----

  datatype TripStep =
    | DoUpdate(expected: nat, assignment: Option<Id>)
    | DoAdd(expected: nat, actor: Id, lines: seq<Line>)
    | DoRemove(expected: nat, actor: Id, ids: seq<Id>, newIds: seq<Id>)
    | DoCancel(expected: nat, actor: Id, newIds: seq<Id>)
    | DoConsume(i: nat, version: nat, request: Id)
    | DoPersistClaim(i: nat, receipt: Receipt)
    | DoCompensate(invalid: Option<(nat, Receipt)>, newIds: seq<Id>)
    | DoPersistRelease(i: nat)
    | DoFinalize
    | DoPreview(expected: nat)
    | DoRead(expected: nat, capacity: (nat, nat), ordered: seq<Id>)
    | DoApprove(approval: Approval, plan: Id)
    | DoReopen(expected: nat)
    | DoSelect(batch: BatchRequest)
    | DoAccept(batch: BatchRequest)
    | DoSubmit(d: nat)
    | DoRejectEarly(d: nat)
    | DoReceipt(d: nat, granted: bool)
    | DoCommitTrip(d: nat)
    | DoDrive(x: Id, version: nat, stopVersion: nat, delivered: bool, detail: nat)

  predicate Guard(t: Trip, step: TripStep) {
    match step
    case DoUpdate(expected, _) => CanUpdate(t, expected)
    case DoAdd(expected, _, lines) => CanAdd(t, expected, lines)
    case DoRemove(expected, _, ids, newIds) => CanRemove(t, expected, ids) && |newIds| == |t.members|
    case DoCancel(expected, _, newIds) => CanCancel(t, expected) && |newIds| == |t.members|
    case DoConsume(i, _, _) => CanConsume(t, i)
    case DoPersistClaim(i, r) => Adding(t) && IsFirst(t, i, ClaimPending) && r.Claimed?
    case DoCompensate(invalid, newIds) =>
      Adding(t) && CanUndo(t) && |newIds| == |t.members|
      && (invalid.Some? ==> IsFirst(t, invalid.value.0, ClaimPending) && invalid.value.1.Claimed?)
    case DoPersistRelease(i) => Releasing(t) && IsFirst(t, i, ReleasePending)
    case DoFinalize => CanFinalize(t)
    case DoPreview(expected) => RouteTrip(t, expected, Draft)
    case DoRead(expected, capacity, ordered) => CanRead(t, expected, capacity, ordered)
    case DoApprove(a, _) => CanApprove(t, a)
    case DoReopen(expected) => RouteTrip(t, expected, Approved)
    case DoSelect(q) => CanSelect(t, q)
    case DoAccept(q) => CanAccept(t, q)
    case DoSubmit(d) => d < |t.dispatches| && t.dispatches[d].stage == Accepted && Bound(t, t.dispatches[d].request)
    case DoRejectEarly(d) => d < |t.dispatches| && t.dispatches[d].stage == Accepted
    case DoReceipt(d, granted) =>
      d < |t.dispatches| && (t.dispatches[d].stage == Submitted || (granted && t.dispatches[d].stage == Receipted))
    case DoCommitTrip(d) => CanCommitTrip(t, d)
    case DoDrive(x, version, stopVersion, _, _) => CanDrive(t, x, version, stopVersion)
  }

  function Do(t: Trip, step: TripStep): Trip
    requires Guard(t, step)
  {
    match step
    case DoUpdate(_, assignment) => UpdateFields(t, assignment)
    case DoAdd(_, actor, lines) => BeginAdd(t, actor, lines)
    case DoRemove(_, actor, ids, newIds) => BeginRemove(t, actor, ids, newIds)
    case DoCancel(_, actor, newIds) => BeginCancel(t, actor, newIds)
    case DoConsume(i, version, request) => Consume(t, i, version, request)
    case DoPersistClaim(i, r) => PersistClaim(t, i, r)
    case DoCompensate(invalid, newIds) => Compensate(t, invalid, newIds)
    case DoPersistRelease(i) => PersistRelease(t, i)
    case DoFinalize => Finalize(t)
    case DoPreview(expected) => t.(tokens := t.tokens + {expected})
    case DoRead(expected, capacity, ordered) =>
      t.(approvals := t.approvals + {Approval(expected, t.version, capacity, ordered)})
    case DoApprove(a, plan) => Approve(t, a, plan)
    case DoReopen(_) => Reopen(t)
    case DoSelect(q) => t.(selections := t.selections + {q})
    case DoAccept(q) => t.(dispatches := t.dispatches + [Dispatch(q, Accepted, None)])
    case DoSubmit(d) => SetStage(t, d, Submitted)
    case DoRejectEarly(d) => SetStage(t, d, DispatchRejected)
    case DoReceipt(d, granted) => SetStage(t, d, if granted then Receipted else DispatchRejected)
    case DoCommitTrip(d) => CommitTrip(t, d)
    case DoDrive(x, _, _, delivered, detail) => Drive(t, x, delivered, detail)
  }

  ghost predicate Follows(t: Trip, steps: seq<TripStep>, t': Trip)
    decreases |steps|
  {
    if steps == [] then t == t' else Guard(t, steps[0]) && Follows(Do(t, steps[0]), steps[1..], t')
  }
}
