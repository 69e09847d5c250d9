/** Transport and fulfillment together. Their databases share no transaction: what one knows of the
    other comes from replies, which may be lost, and from events. One processor works on an
    operation at a time; any number of resumes may work on a dispatch. Each may crash between any two
    steps. */
module World {
  import opened Shipments
  import F = Fulfillment
  import T = Trips

  /** Which row a generated request id was generated for. */
  datatype Slot = Slot(trip: Id, row: nat, release: bool)

  /** A resume of dispatch row `d`, which holds the row's payload. It is cleared once it need not, or
      no longer, pass the transaction that marks the row SUBMITTED. */
  datatype Flight = Flight(trip: Id, d: nat, cleared: bool)

  /** `mem` is what a processor remembers between a reply and the transaction that stores it.
      `flights` are the resumes at work. `requests`, `batchIds` and `intentIds` (the batch each generated
      dispatch request id is meant for) record the ids in use, so that a generated id can be a new one;
      `seen` is the consumer's highest version per canceled shipment; `leaked` names the claim requests
      that were compensated without the receipt of their grant. */
  datatype World = World(
    trips: map<Id, T.Trip>,
    f: F.State,
    mem: map<Id, (nat, F.Reply<F.Receipt>)>,
    requests: map<Id, Slot>,
    batchIds: map<Id, (Id, nat)>,
    intentIds: map<Id, Id>,
    flights: map<Id, Flight>,
    seen: map<Id, nat>,
    leaked: set<Id>)

  const START: World := World(map[], F.INIT, map[], map[], map[], map[], map[], map[], {})

  datatype Step =
    | Create(trip: Id, assignment: Option<Id>)
    | Local(trip: Id, local: T.TripStep)
    | Notice(trip: Id, row: nat, entry: nat, request: Id)
    | Miss(shipment: Id, entry: nat)
    | CallClaim(trip: Id, row: nat, newId: Id, replied: bool)
    | CallRelease(trip: Id, row: nat, replied: bool)
    | KeepClaim(trip: Id)
    | KeepMismatch(trip: Id, newIds: seq<Id>)
    | KeepRefusal(trip: Id, newIds: seq<Id>)
    | Botch(trip: Id, newIds: seq<Id>)
    | KeepRelease(trip: Id)
    | Crash(trip: Id)
    | Fulfil(step: F.Step)
    | Resume(resume: Id, trip: Id, d: nat)
    | Clear(resume: Id)
    | Send(resume: Id)
    | Receive(resume: Id)
    | Reject(resume: Id)
    | Drop(resume: Id)

  // ----- Generated ids -----

  predicate NewIds(w: World, ids: seq<Id>) { T.Distinct(ids) && forall i | 0 <= i < |ids| :: ids[i] !in w.requests }

  /** The payload's dispatch request ids are not in use. */
  predicate NewIntents(w: World, q: F.BatchRequest) {
    forall i | 0 <= i < |q.items| :: q.items[i].dispatch !in w.intentIds && F.FreshIntent(w.f, q.items[i].dispatch)
  }

  function Intents(items: seq<F.Item>): set<Id> { set i | 0 <= i < |items| :: items[i].dispatch }

  function Reserved(intentIds: map<Id, Id>, q: F.BatchRequest): map<Id, Id> {
    map id | id in intentIds.Keys + Intents(q.items) :: if id in intentIds then intentIds[id] else q.id
  }

  /** Rows of a trip that were given a release request by a step, and their new ids. */
  function Registered(requests: map<Id, Slot>, trip: Id, ms: seq<T.Member>): map<Id, Slot> {
    if ms == [] then requests
    else
      var n := |ms| - 1;
      var before := Registered(requests, trip, ms[..n]);
      var withClaim := before[ms[n].claimReq.id := Slot(trip, n, false)];
      if ms[n].releaseReq.Some? then withClaim[ms[n].releaseReq.value.id := Slot(trip, n, true)] else withClaim
  }

  /** The trip's rows after a step, with their request ids on record. */
  function Put(w: World, t: T.Trip): World {
    w.(trips := w.trips[t.id := t], requests := Registered(w.requests, t.id, t.members))
  }

  // ----- Guards -----

  /** No other trip has the shipment: the unique index over rows that have not left. */
  predicate Elsewhere(w: World, trip: Id, x: Id) {
    exists k | k in w.trips :: k != trip && x in T.PresentShipments(w.trips[k].members)
  }

  /** Trip transactions that need nothing from fulfillment; generated ids are new. */
  predicate CanLocal(w: World, k: Id, step: T.TripStep)
    requires k in w.trips
  {
    T.Guard(w.trips[k], step) &&
    match step
    case DoAdd(_, _, lines) =>
      && NewIds(w, seq(|lines|, i requires 0 <= i < |lines| => lines[i].request))
      && forall i | 0 <= i < |lines| :: !Elsewhere(w, k, lines[i].shipment)
    case DoRemove(_, _, _, newIds) => NewIds(w, newIds)
    case DoCancel(_, _, newIds) => NewIds(w, newIds)
    case DoAccept(q) => q.id !in w.batchIds && NewIntents(w, q)
    case DoSubmit(_) => false
    case DoRejectEarly(_) => false
    case DoConsume(_, _, _) => false
    case DoPersistClaim(_, _) => false
    case DoCompensate(_, _) => false
    case DoPersistRelease(_) => false
    case DoReceipt(_, _) => false
    case _ => true
  }

  function Accepting(w: World, k: Id, step: T.TripStep): map<Id, (Id, nat)>
    requires k in w.trips
  {
    if step.DoAccept? then w.batchIds[step.batch.id := (k, |w.trips[k].dispatches|)] else w.batchIds
  }

  function Reserving(w: World, step: T.TripStep): map<Id, Id> {
    if step.DoAccept? then Reserved(w.intentIds, step.batch) else w.intentIds
  }

  /** The `entry`-th history row of the shipment announced its cancellation. */
  predicate Announced(w: World, x: Id, entry: nat) {
    x in w.f.shipments && entry < |w.f.shipments[x].history| && w.f.shipments[x].history[entry].event == WasCanceled
    && (x in w.seen ==> w.seen[x] < w.f.shipments[x].history[entry].version)
  }

  predicate CanNotice(w: World, k: Id, i: nat, entry: nat, request: Id)
    requires k in w.trips
  {
    T.CanConsume(w.trips[k], i) && Announced(w, w.trips[k].members[i].shipment, entry) && request !in w.requests
  }

  predicate CanCallClaim(w: World, k: Id, i: nat, newId: Id)
    requires k in w.trips
  {
    k !in w.mem && T.Adding(w.trips[k]) && T.IsFirst(w.trips[k], i, T.ClaimPending) && F.FreshClaim(w.f, newId)
  }

  predicate CanCallRelease(w: World, k: Id, i: nat)
    requires k in w.trips
  {
    k !in w.mem && T.Releasing(w.trips[k]) && T.IsFirst(w.trips[k], i, T.ReleasePending)
    && w.trips[k].members[i].releaseReq.Some?
  }

  /** Fulfillment's own transactions, and the later stages of a batch it has taken on. */
  predicate Own(step: F.Step) { !step.DoClaim? && !step.DoRelease? && !step.DoPrepare? }

  /** A stand-alone dispatch does not use an id generated for a batch. */
  predicate Unreserved(w: World, step: F.Step) { step.DoIntend? ==> step.id !in w.intentIds }

  // ----- Resumes -----

  predicate InFlight(w: World, r: Id) {
    r in w.flights && w.flights[r].trip in w.trips && w.flights[r].d < |w.trips[w.flights[r].trip].dispatches|
  }

  /** The dispatch row a resume works on. */
  function RowHeld(w: World, r: Id): T.Dispatch
    requires InFlight(w, r)
  {
    w.trips[w.flights[r].trip].dispatches[w.flights[r].d]
  }

  function TripHeld(w: World, r: Id): T.Trip
    requires InFlight(w, r)
  {
    w.trips[w.flights[r].trip]
  }

  predicate SameRow(a: Flight, b: Flight) { a.trip == b.trip && a.d == b.d }

  /** No other resume works on the same row. */
  predicate Alone(w: World, r: Id)
    requires r in w.flights
  {
    forall s | s in w.flights && s != r :: !SameRow(w.flights[s], w.flights[r])
  }

  predicate CanReceive(w: World, r: Id) {
    InFlight(w, r) && w.flights[r].cleared &&
    var q := RowHeld(w, r).request;
    && q.id in w.f.batches && w.f.batches[q.id].status != F.BatchPending
    && (Granted(w, q) ==> Complete(w.f.batches[q.id], q))
    && T.Guard(TripHeld(w, r), T.DoReceipt(w.flights[r].d, Granted(w, q)))
  }

  predicate HasClaim(w: World, k: Id) { k in w.trips && k in w.mem && w.mem[k].1.Ok? && w.mem[k].1.value.Claimed? }

  predicate Enabled(w: World, step: Step) {
    match step
    case Create(k, _) => k !in w.trips
    case Local(k, s) => k in w.trips && CanLocal(w, k, s)
    case Notice(k, i, entry, request) => k in w.trips && CanNotice(w, k, i, entry, request)
    case Miss(x, entry) =>
      Announced(w, x, entry) && forall k | k in w.trips :: x !in T.PresentShipments(w.trips[k].members)
    case CallClaim(k, i, newId, _) => k in w.trips && CanCallClaim(w, k, i, newId)
    case CallRelease(k, i, _) => k in w.trips && CanCallRelease(w, k, i)
    case KeepClaim(k) => HasClaim(w, k) && T.Guard(w.trips[k], T.DoPersistClaim(w.mem[k].0, w.mem[k].1.value))
    case KeepMismatch(k, newIds) =>
      HasClaim(w, k) && NewIds(w, newIds)
      && T.Guard(w.trips[k], T.DoCompensate(Some((w.mem[k].0, w.mem[k].1.value)), newIds))
    case KeepRefusal(k, newIds) =>
      k in w.trips && k in w.mem && w.mem[k].1.Refused? && NewIds(w, newIds)
      && T.Guard(w.trips[k], T.DoCompensate(None, newIds))
    case Botch(k, newIds) => HasClaim(w, k) && NewIds(w, newIds) && T.Guard(w.trips[k], T.DoCompensate(None, newIds))
    case KeepRelease(k) =>
      k in w.trips && k in w.mem && w.mem[k].1.Ok? && w.mem[k].1.value.Freed?
      && T.Guard(w.trips[k], T.DoPersistRelease(w.mem[k].0))
    case Crash(k) => true
    case Fulfil(s) => Own(s) && F.Enabled(w.f, s) && Unreserved(w, s)
    case Resume(r, k, d) =>
      r !in w.flights && k in w.trips && d < |w.trips[k].dispatches| && T.Open(w.trips[k].dispatches[d].stage)
    case Clear(r) => InFlight(w, r) && !w.flights[r].cleared && T.Bound(TripHeld(w, r), RowHeld(w, r).request)
    case Send(r) => InFlight(w, r) && w.flights[r].cleared && F.Enabled(w.f, F.DoPrepare(RowHeld(w, r).request))
    case Receive(r) => CanReceive(w, r)
    case Reject(r) => InFlight(w, r) && !w.flights[r].cleared && RowHeld(w, r).stage == T.Accepted && Alone(w, r)
    case Drop(r) => true
  }

  /** How transport reads a settled batch receipt. */
  predicate Granted(w: World, q: F.BatchRequest) {
    q.id in w.f.batches && w.f.batches[q.id].status == F.BatchCompleted
  }

  /** What transport demands of a granted receipt: as many shipments as asked for, and each of them
      one version further than asked for. */
  predicate Complete(batch: F.Batch, q: F.BatchRequest) {
    && batch.request == q && batch.decision == Some(true) && |batch.receipts| == |q.items|
    && forall i | 0 <= i < |q.items| :: Confirms(batch.receipts, q.items[i])
  }

  predicate Confirms(receipts: seq<F.ItemReceipt>, item: F.Item) {
    exists j | 0 <= j < |receipts| :: receipts[j] == F.ItemReceipt(item.shipment, item.dispatch, item.version + 1)
  }

  // ----- Steps -----

  function Remember(w: World, k: Id, i: nat, reply: F.Reply<F.Receipt>, replied: bool): map<Id, (nat,
      F.Reply<F.Receipt>)> {
    if replied then w.mem[k := (i, reply)] else w.mem
  }

  /** A transaction stores what the processor of the trip remembered. */
  function Stored(w: World, t: T.Trip): World { Put(w, t).(mem := w.mem - {t.id}) }

  function ClaimCalled(w: World, k: Id, i: nat, newId: Id, replied: bool): World
    requires k in w.trips && i < |w.trips[k].members|
  {
    var q := w.trips[k].members[i].claimReq;
    w.(f := F.Claim(w.f, q, newId), mem := Remember(w, k, i, F.ClaimReply(w.f, q, newId), replied))
  }

  /** A refused release is retried later; only an acceptance is worth remembering. */
  function ReleaseCalled(w: World, k: Id, i: nat, replied: bool): World
    requires k in w.trips && i < |w.trips[k].members| && w.trips[k].members[i].releaseReq.Some?
  {
    var q := w.trips[k].members[i].releaseReq.value;
    w.(f := F.Release(w.f, q), mem := Remember(w, k, i, F.ReleaseReply(w.f, q), replied && F.ReleaseReply(w.f, q).Ok?))
  }

  /** The reply carries a grant, but its snapshot does not pass the schema: the operation is
      compensated as if it had been refused, and nobody keeps the claim. */
  function Botched(w: World, k: Id, newIds: seq<Id>): World
    requires HasClaim(w, k) && T.Guard(w.trips[k], T.DoCompensate(None, newIds))
  {
    var i := w.mem[k].0;
    var lost := if i < |w.trips[k].members| then {w.trips[k].members[i].claimReq.id} else {};
    Stored(w, T.Do(w.trips[k], T.DoCompensate(None, newIds))).(leaked := w.leaked + lost)
  }

  function Noticed(w: World, k: Id, i: nat, entry: nat, request: Id): World
    requires k in w.trips && CanNotice(w, k, i, entry, request)
  {
    var x := w.trips[k].members[i].shipment;
    var version := w.f.shipments[x].history[entry].version;
    Put(w, T.Consume(w.trips[k], i, version, request)).(seen := w.seen[x := version])
  }

  /** A resume that is not cleared gives its dispatch up. */
  function Rejected(w: World, r: Id): World
    requires InFlight(w, r) && RowHeld(w, r).stage == T.Accepted
  {
    Put(w, T.Do(TripHeld(w, r), T.DoRejectEarly(w.flights[r].d))).(flights := w.flights - {r})
  }

  /** The transaction that marks the row SUBMITTED does not look at the number of rows it updated: a
      resume that finds the stage moved on is cleared all the same. */
  function Passed(w: World, r: Id): World
    requires InFlight(w, r) && T.Bound(TripHeld(w, r), RowHeld(w, r).request)
  {
    var flights' := w.flights[r := w.flights[r].(cleared := true)];
    if RowHeld(w, r).stage == T.Accepted
    then Put(w, T.Do(TripHeld(w, r), T.DoSubmit(w.flights[r].d))).(flights := flights') else w.(flights := flights')
  }

  function Apply(w: World, step: Step): World
    requires Enabled(w, step)
  {
    hide T.Guard, F.Enabled, T.Do, F.Apply, T.Adding, T.Releasing, Elsewhere;
    match step
    case Create(k, assignment) => w.(trips := w.trips[k := T.NewTrip(k, assignment)])
    case Local(k, s) =>
      Put(w, T.Do(w.trips[k], s)).(batchIds := Accepting(w, k, s), intentIds := Reserving(w, s))
    case Notice(k, i, entry, request) => Noticed(w, k, i, entry, request)
    case Miss(x, entry) => w.(seen := w.seen[x := w.f.shipments[x].history[entry].version])
    case CallClaim(k, i, newId, replied) => ClaimCalled(w, k, i, newId, replied)
    case CallRelease(k, i, replied) => ReleaseCalled(w, k, i, replied)
    case KeepClaim(k) => Stored(w, T.Do(w.trips[k], T.DoPersistClaim(w.mem[k].0, w.mem[k].1.value)))
    case KeepMismatch(k, newIds) =>
      Stored(w, T.Do(w.trips[k], T.DoCompensate(Some((w.mem[k].0, w.mem[k].1.value)), newIds)))
    case KeepRefusal(k, newIds) => Stored(w, T.Do(w.trips[k], T.DoCompensate(None, newIds)))
    case Botch(k, newIds) => Botched(w, k, newIds)
    case KeepRelease(k) => Stored(w, T.Do(w.trips[k], T.DoPersistRelease(w.mem[k].0)))
    case Crash(k) => w.(mem := w.mem - {k})
    case Fulfil(s) => w.(f := F.Apply(w.f, s))
    case Resume(r, k, d) =>
      w.(flights := w.flights[r := Flight(k, d, w.trips[k].dispatches[d].stage != T.Accepted)])
    case Clear(r) => Passed(w, r)
    case Send(r) => w.(f := F.Prepare(w.f, RowHeld(w, r).request))
    case Receive(r) => Put(w, T.Do(TripHeld(w, r), T.DoReceipt(w.flights[r].d, Granted(w, RowHeld(w, r).request))))
    case Reject(r) => Rejected(w, r)
    case Drop(r) => w.(flights := w.flights - {r})
  }

  ghost predicate Runs(w: World, steps: seq<Step>, w': World)
    decreases |steps|
  {
    if steps == [] then w == w' else Enabled(w, steps[0]) && Runs(Apply(w, steps[0]), steps[1..], w')
  }
}
