/** What ties the two services together in every state of every run. */
module WorldInvariant {
  import opened Shipments
  import F = Fulfillment
  import FI = FulfillmentInvariant
  import L = ClaimLedger
  import T = Trips
  import TI = TripInvariant
  import opened World

  // ----- Request ids -----

  ghost predicate RowKnown(requests: map<Id, Slot>, k: Id, i: nat, m: T.Member) {
    && m.claimReq.id in requests && requests[m.claimReq.id] == Slot(k, i, false)
    && (m.releaseReq.Some? ==> m.releaseReq.value.id in requests && requests[m.releaseReq.value.id] == Slot(k, i, true))
  }

  ghost predicate Known(requests: map<Id, Slot>, t: T.Trip) {
    forall i | 0 <= i < |t.members| :: RowKnown(requests, t.id, i, t.members[i])
  }

  /** Every receipt answers a request some row sent, and a claim receipt names that row's request. */
  ghost predicate Owned(trips: map<Id, T.Trip>, requests: map<Id, Slot>, r: F.Receipt) {
    F.RequestId(r) in requests &&
    (r.Claimed? ==>
      var slot := requests[F.RequestId(r)];
      slot.trip in trips && slot.row < |trips[slot.trip].members|
      && trips[slot.trip].members[slot.row].claimReq == r.claimReq)
  }

  ghost predicate LedgerOwned(trips: map<Id, T.Trip>, requests: map<Id, Slot>, ledger: seq<F.Receipt>) {
    forall r | r in ledger :: Owned(trips, requests, r)
  }

  // ----- Claims -----

  /** The row's claim request was granted, with this claim id. */
  ghost predicate GrantedAs(ledger: seq<F.Receipt>, m: T.Member, claim: Id) {
    var r := F.Find(ledger, m.claimReq.id);
    r.Some? && r.value.Claimed? && r.value.claimReq == m.claimReq && r.value.claim == claim
  }

  /** The row carries the weight and volume of its grant. */
  ghost predicate MeasuredAs(ledger: seq<F.Receipt>, m: T.Member) {
    var r := F.Find(ledger, m.claimReq.id);
    r.Some? && r.value.Claimed? && r.value.weight == m.weight && r.value.volume == m.volume
  }

  ghost predicate Unsent(ledger: seq<F.Receipt>, request: Id) { F.Find(ledger, request).None? }

  /** What a row says of its claim is what the ledger says. Only the first row still to be claimed
      may have been granted without knowing. */
  ghost predicate RowAgrees(ledger: seq<F.Receipt>, t: T.Trip, i: nat)
    requires i < |t.members|
  {
    var m := t.members[i];
    match m.state
    case ClaimPending =>
      Unsent(ledger, m.claimReq.id) || (T.IsFirst(t, i, T.ClaimPending) && InDoubt(ledger, m))
    case Active =>
      m.claim.Some? && GrantedAs(ledger, m, m.claim.value) && !L.ReleasedIn(ledger, m.claim.value)
      && MeasuredAs(ledger, m)
    case ReleasePending =>
      && m.claim.Some? && m.releaseReq.Some? && GrantedAs(ledger, m, m.claim.value)
      && (L.ReleasedIn(ledger, m.claim.value) <==> !Unsent(ledger, m.releaseReq.value.id))
      && (Unsent(ledger, m.releaseReq.value.id) || F.Find(ledger, m.releaseReq.value.id).value.Freed?)
    case Released =>
      if m.claim.Some? then GrantedAs(ledger, m, m.claim.value) && L.ReleasedIn(ledger, m.claim.value)
      else Unsent(ledger, m.claimReq.id)
  }

  ghost predicate InDoubt(ledger: seq<F.Receipt>, m: T.Member) {
    var r := F.Find(ledger, m.claimReq.id);
    r.Some? && r.value.Claimed? && r.value.claimReq == m.claimReq && !L.ReleasedIn(ledger, r.value.claim)
  }

  /** The row was released although its grant stands. */
  ghost predicate Lost(ledger: seq<F.Receipt>, m: T.Member) {
    m.state == T.Released && m.claim.None? && InDoubt(ledger, m)
  }

  /** Every row agrees with the ledger, but for those whose grant was dropped. */
  ghost predicate RowTold(ledger: seq<F.Receipt>, leaked: set<Id>, t: T.Trip, i: nat)
    requires i < |t.members|
  {
    if t.members[i].claimReq.id in leaked then Lost(ledger, t.members[i]) else RowAgrees(ledger, t, i)
  }

  ghost predicate Agrees(ledger: seq<F.Receipt>, leaked: set<Id>, t: T.Trip) {
    forall i | 0 <= i < |t.members| :: RowTold(ledger, leaked, t, i)
  }

  /** A row names a version its shipment has reached, and its release names the same. */
  ghost predicate Dated(f: F.State, m: T.Member) {
    m.state in {T.Active, T.ReleasePending} ==>
      && m.shipment in f.shipments && m.version <= f.shipments[m.shipment].version
      && (m.state == T.ReleasePending ==> m.releaseReq.Some? && m.releaseReq.value.shipmentVersion == m.version)
  }

  ghost predicate DatedAll(f: F.State, ms: seq<T.Member>) { forall i | 0 <= i < |ms| :: Dated(f, ms[i]) }

  // ----- What a processor remembers -----

  ghost predicate MemoOk(ledger: seq<F.Receipt>, t: T.Trip, i: nat, reply: F.Reply<F.Receipt>) {
    i < |t.members| &&
    match reply
    case Refused(_) => T.Adding(t) && T.IsFirst(t, i, T.ClaimPending) && Unsent(ledger, t.members[i].claimReq.id)
    case Ok(r) =>
      if r.Claimed? then
        T.Adding(t) && T.IsFirst(t, i, T.ClaimPending) && F.Find(ledger, t.members[i].claimReq.id) == Some(r)
        && r.claimReq == t.members[i].claimReq
      else
        T.Releasing(t) && T.IsFirst(t, i, T.ReleasePending) && t.members[i].claim.Some?
        && L.ReleasedIn(ledger, t.members[i].claim.value)
  }

  ghost predicate MemoriesOk(trips: map<Id, T.Trip>, ledger: seq<F.Receipt>, mem: map<Id, (nat, F.Reply<F.Receipt>)>) {
    forall k | k in mem :: k in trips && MemoOk(ledger, trips[k], mem[k].0, mem[k].1)
  }

  // ----- Releases of canceled shipments -----

  ghost predicate ForCanceled(t: T.Trip, m: T.Member) {
    m.state == T.ReleasePending && m.op < |t.ops| && t.ops[m.op].kind == T.ShipmentGone && m.releaseReq.Some?
  }

  /** The shipment is canceled for good, and until the release has been applied it stays at the
      version the release names. */
  ghost predicate GoneOk(f: F.State, t: T.Trip, m: T.Member) {
    ForCanceled(t, m) ==>
      && m.shipment in f.shipments && f.shipments[m.shipment].status == Canceled
      && m.releaseReq.value.actor == m.claimReq.actor
      && (Unsent(f.ledger, m.releaseReq.value.id) ==>
            f.shipments[m.shipment].version == m.releaseReq.value.shipmentVersion)
  }

  ghost predicate GoneAll(f: F.State, t: T.Trip) { forall i | 0 <= i < |t.members| :: GoneOk(f, t, t.members[i]) }

  // ----- Batches -----

  /** How far a dispatch row may be, seen from fulfillment's batch of the same id. */
  ghost predicate StageOk(batches: map<Id, F.Batch>, d: T.Dispatch) {
    var b := d.request.id;
    && (b in batches ==> batches[b].request == d.request)
    && (d.stage == T.Accepted ==> b !in batches)
    && (d.stage in {T.Receipted, T.DispatchDone} ==> b in batches && batches[b].status == F.BatchCompleted)
    && (d.stage == T.DispatchRejected ==> b !in batches || batches[b].status == F.BatchRejected)
  }

  ghost predicate TripBatches(batches: map<Id, F.Batch>, batchIds: map<Id, (Id, nat)>, t: T.Trip) {
    forall d | 0 <= d < |t.dispatches| ::
      && StageOk(batches, t.dispatches[d])
      && t.dispatches[d].request.id in batchIds && batchIds[t.dispatches[d].request.id] == (t.id, d)
  }

  ghost predicate BatchesKnown(batches: map<Id, F.Batch>, batchIds: map<Id, (Id, nat)>) {
    forall b | b in batches :: b in batchIds
  }

  /** Every batch id in use belongs to a dispatch row. */
  ghost predicate IdsOwned(trips: map<Id, T.Trip>, batchIds: map<Id, (Id, nat)>) {
    forall b | b in batchIds ::
      && batchIds[b].0 in trips && batchIds[b].1 < |trips[batchIds[b].0].dispatches|
      && trips[batchIds[b].0].dispatches[batchIds[b].1].request.id == b
  }

  // ----- Resumes -----

  /** A cleared resume's row is past ACCEPTED, and a rejected row that a resume still holds was
      rejected by fulfillment. */
  ghost predicate FlightOk(t: T.Trip, batches: map<Id, F.Batch>, flight: Flight) {
    && flight.d < |t.dispatches|
    && (flight.cleared ==> t.dispatches[flight.d].stage != T.Accepted)
    && (t.dispatches[flight.d].stage == T.DispatchRejected ==> t.dispatches[flight.d].request.id in batches)
  }

  ghost predicate FlightsOk(trips: map<Id, T.Trip>, batches: map<Id, F.Batch>, flights: map<Id, Flight>) {
    forall r | r in flights :: flights[r].trip in trips && FlightOk(trips[flights[r].trip], batches, flights[r])
  }

  /** Every dispatch request id of a payload is on record for its batch. */
  ghost predicate PayloadOwned(intentIds: map<Id, Id>, q: F.BatchRequest) {
    forall i | 0 <= i < |q.items| :: q.items[i].dispatch in intentIds && intentIds[q.items[i].dispatch] == q.id
  }

  ghost predicate PayloadsOwned(trips: map<Id, T.Trip>, intentIds: map<Id, Id>) {
    forall k, d | k in trips && 0 <= d < |trips[k].dispatches| ::
      PayloadOwned(intentIds, trips[k].dispatches[d].request)
  }

  /** An id generated for a batch is a shipment's intent only once fulfillment knows the batch. */
  ghost predicate ReservedOk(f: F.State, intentIds: map<Id, Id>) {
    forall x | x in f.shipments && f.shipments[x].intent.Some? && f.shipments[x].intent.value.id in intentIds ::
      intentIds[f.shipments[x].intent.value.id] in f.batches
  }

  /** What holds of resumes and of the ids their payloads carry. */
  ghost predicate ResumesOk(w: World) {
    && FlightsOk(w.trips, w.f.batches, w.flights) && PayloadsOwned(w.trips, w.intentIds)
    && ReservedOk(w.f, w.intentIds)
  }

  // ----- Everything -----

  ghost predicate TripOk(w: World, t: T.Trip) {
    && TI.Inv(t) && Known(w.requests, t) && Agrees(w.f.ledger, w.leaked, t) && GoneAll(w.f, t)
    && DatedAll(w.f, t.members)
    && TripBatches(w.f.batches, w.batchIds, t)
  }

  ghost predicate TripsOk(w: World) { forall k | k in w.trips :: w.trips[k].id == k && TripOk(w, w.trips[k]) }

  ghost predicate Inv(w: World) {
    && FI.Inv(w.f) && TripsOk(w) && LedgerOwned(w.trips, w.requests, w.f.ledger)
    && MemoriesOk(w.trips, w.f.ledger, w.mem) && BatchesKnown(w.f.batches, w.batchIds) && IdsOwned(w.trips, w.batchIds)
    && w.leaked <= w.requests.Keys && ResumesOk(w)
  }

  lemma StartInv()
    ensures Inv(START)
  {
    FI.InitInv();
  }

  // ----- Looking up a growing ledger -----

  lemma FindGrows(ledger: seq<F.Receipt>, r: F.Receipt, id: Id)
    ensures F.Find(ledger + [r], id) == if F.RequestId(r) == id then Some(r) else F.Find(ledger, id)
  {
    assert (ledger + [r])[..|ledger|] == ledger;
  }

  // ----- Recording ids -----

  ghost predicate HasId(ms: seq<T.Member>, id: Id) {
    exists i ::
        0 <= i < |ms| && (ms[i].claimReq.id == id || (ms[i].releaseReq.Some? && ms[i].releaseReq.value.id == id))
  }

  /** No two requests of these rows share an id. */
  ghost predicate Apart(ms: seq<T.Member>) {
    forall i, j | 0 <= i < |ms| && 0 <= j < |ms| :: RowsApart(ms, i, j)
  }

  ghost predicate RowsApart(ms: seq<T.Member>, i: nat, j: nat)
    requires i < |ms| && j < |ms|
  {
    && (i != j ==> ms[i].claimReq.id != ms[j].claimReq.id)
    && (ms[j].releaseReq.Some? ==> ms[i].claimReq.id != ms[j].releaseReq.value.id)
    && (i != j && ms[i].releaseReq.Some? && ms[j].releaseReq.Some? ==>
          ms[i].releaseReq.value.id != ms[j].releaseReq.value.id)
  }

  lemma ApartFront(ms: seq<T.Member>)
    requires Apart(ms) && ms != []
    ensures Apart(ms[..|ms| - 1])
  {
    var n := |ms| - 1;
    forall i, j | 0 <= i < n && 0 <= j < n ensures RowsApart(ms[..n], i, j) { assert RowsApart(ms, i, j); }
  }

  lemma NewIdsLast(ms: seq<T.Member>, id: Id)
    requires ms != [] && !HasId(ms, id)
    ensures !HasId(ms[..|ms| - 1], id) && ms[|ms| - 1].claimReq.id != id
    ensures ms[|ms| - 1].releaseReq.Some? ==> ms[|ms| - 1].releaseReq.value.id != id
  {
    var n := |ms| - 1;
    assert forall i | 0 <= i < n :: ms[..n][i] == ms[i];
  }

  lemma {:induction false} RegisteredElse(requests: map<Id, Slot>, k: Id, ms: seq<T.Member>, id: Id)
    requires !HasId(ms, id)
    ensures id in Registered(requests, k, ms) <==> id in requests
    ensures id in requests ==> Registered(requests, k, ms)[id] == requests[id]
  {
    if ms != [] {
      NewIdsLast(ms, id);
      RegisteredElse(requests, k, ms[..|ms| - 1], id);
    }
  }

  lemma LastDiffers(ms: seq<T.Member>, i: nat)
    requires Apart(ms) && i + 1 < |ms|
    ensures var n := |ms| - 1;
            ms[n].claimReq.id != ms[i].claimReq.id
            && (ms[n].releaseReq.Some? ==> ms[n].releaseReq.value.id != ms[i].claimReq.id)
            && (ms[i].releaseReq.Some? ==> ms[n].claimReq.id != ms[i].releaseReq.value.id)
            && (ms[i].releaseReq.Some? && ms[n].releaseReq.Some? ==>
                  ms[n].releaseReq.value.id != ms[i].releaseReq.value.id)
  {
    assert RowsApart(ms, |ms| - 1, i) && RowsApart(ms, i, |ms| - 1);
  }

  lemma {:induction false} RegisteredRow(requests: map<Id, Slot>, k: Id, ms: seq<T.Member>, i: nat)
    requires Apart(ms) && i < |ms|
    ensures RowKnown(Registered(requests, k, ms), k, i, ms[i])
  {
    var n := |ms| - 1;
    if i < n {
      ApartFront(ms);
      RegisteredRow(requests, k, ms[..n], i);
      LastDiffers(ms, i);
    } else {
      assert RowsApart(ms, n, n);
    }
  }
}
