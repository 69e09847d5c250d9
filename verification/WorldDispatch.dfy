/** Dispatch across the two services: what a trip on the road and a rejected dispatch mean, and when
    a rejection that is written late does harm. */
module WorldDispatch {
  import opened Shipments
  import F = Fulfillment
  import FI = FulfillmentInvariant
  import FP = FulfillmentProgress
  import FR = FulfillmentRuns
  import L = ClaimLedger
  import T = Trips
  import TI = TripInvariant
  import TT = TripTheorems
  import opened World
  import opened WorldInvariant
  import opened WorldSteps
  import opened WorldCalls
  import opened WorldTheorems

  /** The batch completed, and every shipment it lists has left under it. */
  ghost predicate DispatchedBy(f: F.State, q: F.BatchRequest) {
    && q.id in f.batches && f.batches[q.id].request == q && f.batches[q.id].status == F.BatchCompleted
    && (forall i | 0 <= i < |q.items| ::
          q.items[i].shipment in f.shipments && FI.IssuedFor(f.shipments[q.items[i].shipment], q.id, q.items[i]))
  }

  lemma CompletedBatch(f: F.State, q: F.BatchRequest)
    requires FI.Inv(f) && q.id in f.batches && f.batches[q.id].request == q
    requires f.batches[q.id].status == F.BatchCompleted
    ensures DispatchedBy(f, q)
  {
    hide FI.Rows, FI.Indexed, FI.IntentIdsUnique, FI.LedgerAgrees, FI.OrdersOk, FI.InboxOk, FI.IssuedFor;
    assert FI.BatchOk(f.shipments, q.id, f.batches[q.id]);
  }

  lemma StageOf(w: World, k: Id, d: nat)
    requires Inv(w) && k in w.trips && d < |w.trips[k].dispatches|
    ensures StageOk(w.f.batches, w.trips[k].dispatches[d])
  {
    hide Inv, FI.Inv, TI.Inv, Known, Agrees, GoneAll, DatedAll, StageOk;
    TripOf(w, k);
  }

  /** A trip on the road: some dispatch of it completed, fulfillment dispatched every shipment in its
      payload under that batch, and the payload is exactly what the trip carries. */
  lemma RoadMeansDispatched(steps: seq<Step>, w: World, k: Id) returns (d: nat)
    requires Runs(START, steps, w) && k in w.trips && TI.OnRoad(w.trips[k].status)
    ensures d < |w.trips[k].dispatches| && w.trips[k].dispatches[d].stage == T.DispatchDone
    ensures DispatchedBy(w.f, w.trips[k].dispatches[d].request)
    ensures T.AllActive(w.trips[k].members) && T.Matches(w.trips[k].members, w.trips[k].dispatches[d].request)
  {
    hide Inv, Runs, DispatchedBy, T.Matches, T.AllActive;
    ReachableInv(steps, w);
    d := RoadDispatched(w, k);
  }

  lemma RoadDispatched(w: World, k: Id) returns (d: nat)
    requires Inv(w) && k in w.trips && TI.OnRoad(w.trips[k].status)
    ensures d < |w.trips[k].dispatches| && w.trips[k].dispatches[d].stage == T.DispatchDone
    ensures DispatchedBy(w.f, w.trips[k].dispatches[d].request)
    ensures T.AllActive(w.trips[k].members) && T.Matches(w.trips[k].members, w.trips[k].dispatches[d].request)
  {
    hide Inv, FI.Inv, TI.Inv, Known, Agrees, GoneAll, DatedAll, TripBatches, DispatchedBy, T.Matches, T.AllActive;
    TripOf(w, k);
    var t := w.trips[k];
    d := DoneRow(t);
    StageOf(w, k, d);
    TT.DispatchedManifest(t, d);
    CompletedBatch(w.f, t.dispatches[d].request);
  }

  lemma DoneRow(t: T.Trip) returns (d: nat)
    requires TI.Inv(t) && TI.OnRoad(t.status)
    ensures d < |t.dispatches| && t.dispatches[d].stage == T.DispatchDone
  {
    hide TI.OpsOk, TI.MembersOk, TI.Unique, TI.StopsOk, TI.PlacesOk, TI.TotalsOk, TI.RouteOk, TI.CapacityOk,
      TI.ReadsOk, TI.DriveOk, TI.DispatchOk;
    assert TI.SomeDone(t.dispatches);
    d :| 0 <= d < |t.dispatches| && t.dispatches[d].stage == T.DispatchDone;
  }

  /** A dispatch marked rejected dispatched nothing: no shipment left under its batch. */
  lemma RejectedMeansNone(steps: seq<Step>, w: World, k: Id, d: nat, x: Id)
    requires Runs(START, steps, w) && k in w.trips && d < |w.trips[k].dispatches|
    requires w.trips[k].dispatches[d].stage == T.DispatchRejected
    requires x in w.f.shipments && w.f.shipments[x].issued
    ensures w.f.shipments[x].intent.Some?
    ensures w.f.shipments[x].intent.value.batch != Some(w.trips[k].dispatches[d].request.id)
  {
    hide Inv, FI.Inv, TripOk, Runs;
    ReachableInv(steps, w);
    StateOf(w);
    StageOf(w, k, d);
    FP.IssuedUnder(w.f, x);
  }

  /** A granted receipt always passes transport's check: one entry per shipment of the payload, each
      exactly one version further than requested. */
  lemma ReceiptComplete(steps: seq<Step>, w: World, k: Id, d: nat)
    requires Runs(START, steps, w) && k in w.trips && d < |w.trips[k].dispatches|
    requires Granted(w, w.trips[k].dispatches[d].request)
    ensures Complete(w.f.batches[w.trips[k].dispatches[d].request.id], w.trips[k].dispatches[d].request)
    ensures var (q, batch) := (w.trips[k].dispatches[d].request, w.f.batches[w.trips[k].dispatches[d].request.id]);
            && batch.request == q && batch.decision == Some(true) && |batch.receipts| == |q.items|
            && forall i | 0 <= i < |q.items| ::
                 batch.receipts[i] == F.ItemReceipt(q.items[i].shipment, q.items[i].dispatch, q.items[i].version + 1)
  {
    hide Inv, FI.Inv, TripOk, Runs, Complete;
    ReachableInv(steps, w);
    StateOf(w);
    StageOf(w, k, d);
    CompletedReceipts(w.f, w.trips[k].dispatches[d].request);
  }

  /** Transport takes a grant only with as many entries as shipments asked for, and for each of them one
      that names it, its dispatch id and the version after the one asked for. */
  lemma ReceiptChecked(w: World, r: Id)
    requires CanReceive(w, r) && Granted(w, RowHeld(w, r).request)
    ensures var (q, batch) := (RowHeld(w, r).request, w.f.batches[RowHeld(w, r).request.id]);
            && batch.request == q && batch.status == F.BatchCompleted && |batch.receipts| == |q.items|
            && forall item | item in q.items ::
                 F.ItemReceipt(item.shipment, item.dispatch, item.version + 1) in batch.receipts
  {
    hide T.Guard;
    var (q, batch) := (RowHeld(w, r).request, w.f.batches[RowHeld(w, r).request.id]);
    forall item | item in q.items ensures F.ItemReceipt(item.shipment, item.dispatch, item.version + 1) in batch.receipts {
      var i :| 0 <= i < |q.items| && q.items[i] == item;
      assert Confirms(batch.receipts, q.items[i]);
    }
  }

  lemma CompletedReceipts(f: F.State, q: F.BatchRequest)
    requires FI.Inv(f) && q.id in f.batches && f.batches[q.id].request == q
    requires f.batches[q.id].status == F.BatchCompleted
    ensures Complete(f.batches[q.id], q) && f.batches[q.id].decision == Some(true)
    ensures |f.batches[q.id].receipts| == |q.items|
    ensures forall i | 0 <= i < |q.items| ::
             f.batches[q.id].receipts[i]
             == F.ItemReceipt(q.items[i].shipment, q.items[i].dispatch, q.items[i].version + 1)
  {
    hide FI.Rows, FI.Indexed, FI.IntentIdsUnique, FI.LedgerAgrees, FI.OrdersOk, FI.InboxOk, FI.IssuedFor;
    assert FI.BatchOk(f.shipments, q.id, f.batches[q.id]);
    forall i | 0 <= i < |q.items| ensures Confirms(f.batches[q.id].receipts, q.items[i]) {
      assert f.batches[q.id].receipts[i]
          == F.ItemReceipt(q.items[i].shipment, q.items[i].dispatch, q.items[i].version + 1);
    }
  }

  lemma StageMeans(batches: map<Id, F.Batch>, d: T.Dispatch)
    requires StageOk(batches, d) && d.request.id in batches
    requires batches[d.request.id].status in {F.BatchPending, F.BatchCompleted}
    ensures batches[d.request.id].request == d.request && d.stage !in {T.Accepted, T.DispatchRejected}
  {
  }

  lemma DispatchUnlocked(t: T.Trip, d: nat)
    requires TI.Inv(t) && d < |t.dispatches| && t.dispatches[d].stage != T.DispatchRejected
    ensures t.lock.None? && t.dispatches[d].request.trip == t.id
  {
    hide TI.MembersOk, TI.Unique, TI.StopsOk, TI.PlacesOk, TI.TotalsOk, TI.RouteOk, TI.CapacityOk, TI.ReadsOk,
      TI.DriveOk, TI.RowsListed;
    hide T.AllActive, T.Matches, TI.OutcomeOk;
    assert TI.DispatchOk(t.id, t.status, t.lock, t.version, t.plan, t.members, t.dispatches[d]);
  }

  /** A busy or issued shipment that a trip holds is in a batch of that trip. */
  lemma BusyBatch(f: F.State, x: Id)
    requires FI.Inv(f) && x in f.shipments && f.shipments[x].trip.Some?
    requires (Busy(f.shipments[x].intent) || f.shipments[x].issued)
    ensures f.shipments[x].intent.Some? && f.shipments[x].intent.value.batch.Some?
    ensures var b := f.shipments[x].intent.value.batch.value;
            b in f.batches && f.batches[b].status in {F.BatchPending, F.BatchCompleted}
            && f.shipments[x].trip == Some(f.batches[b].request.trip)
  {
    hide FI.Indexed, FI.IntentIdsUnique, FI.LedgerAgrees, FI.OrdersOk, FI.InboxOk, HistoryOk;
    FI.RowAt(f, x);
    assert Busy(f.shipments[x].intent) && f.shipments[x].intent.value.batch.Some?;
    var b := f.shipments[x].intent.value.batch.value;
    assert b in f.batches && FI.BatchOk(f.shipments, b, f.batches[b]);
    assert FI.BusyForBatch(f.shipments[x]);
  }

  lemma HeldStatus(f: F.State, x: Id)
    requires FI.Inv(f) && x in f.shipments && f.shipments[x].claim.Some?
    ensures f.shipments[x].status in {Ready, Canceled} || f.shipments[x].issued
  {
    hide FI.Indexed, FI.IntentIdsUnique, FI.LedgerAgrees, FI.OrdersOk, FI.InboxOk, FI.BatchesOk, HistoryOk;
    FI.RowAt(f, x);
  }

  // ----- A rejection written late -----

  /** No shipment has left under this batch. */
  ghost predicate NoneUnder(f: F.State, b: Id) {
    forall x | x in f.shipments && f.shipments[x].issued ::
        f.shipments[x].intent.Some? && f.shipments[x].intent.value.batch != Some(b)
  }

  /** Fulfillment has rejected the batch, or holds the authority's refusal. */
  ghost predicate TurnedDown(batches: map<Id, F.Batch>, b: Id) {
    && b in batches
    && (|| batches[b].status == F.BatchRejected
        || (batches[b].status == F.BatchPending && batches[b].decision == Some(false)))
  }

  /** The write of a resume that gives its dispatch up does not look at the stage again. */
  function LateRejected(w: World, r: Id): World
    requires InFlight(w, r)
  {
    w.(trips := w.trips[w.flights[r].trip := T.SetStage(TripHeld(w, r), w.flights[r].d, T.DispatchRejected)],
       flights := w.flights - {r})
  }

  /** What decides whether that write does harm: fulfillment turned the batch down; or it does not
      know the batch, and no other resume holds the payload or the payload cannot be dispatched. */
  ghost predicate Harmless(w: World, r: Id)
    requires InFlight(w, r)
  {
    var q := RowHeld(w, r).request;
    if q.id in w.f.batches then TurnedDown(w.f.batches, q.id) else Alone(w, r) || !F.AllDispatchable(w.f, q)
  }

  lemma DownNone(f: F.State, b: Id)
    requires FI.Inv(f) && (b in f.batches ==> TurnedDown(f.batches, b))
    ensures NoneUnder(f, b)
  {
    hide FI.Inv;
    forall x | x in f.shipments && f.shipments[x].issued
      ensures f.shipments[x].intent.Some? && f.shipments[x].intent.value.batch != Some(b)
    {
      FP.IssuedUnder(f, x);
    }
  }

  lemma DownStays(f: F.State, f': F.State, b: Id)
    requires TurnedDown(f.batches, b) && FP.BatchesAdvance(f.batches, f'.batches) && FI.Inv(f')
    ensures TurnedDown(f'.batches, b)
  {
    hide FI.Rows, FI.Indexed, FI.IntentIdsUnique, FI.LedgerAgrees, FI.OrdersOk, FI.InboxOk;
    assert FP.BatchAdvances(f.batches[b], f'.batches[b]) && FI.BatchOk(f'.shipments, b, f'.batches[b]);
  }

  // ----- Payloads that can never be dispatched -----

  /** No later state makes the item dispatchable. */
  ghost predicate Hopeless(f: F.State, item: F.Item) {
    item.shipment in f.shipments
    && var sh := f.shipments[item.shipment];
       || sh.order != item.order || sh.reservation != item.reservation
       || sh.version > item.version || sh.status == Canceled
  }

  ghost predicate Doomed(f: F.State, q: F.BatchRequest) { exists i :: 0 <= i < |q.items| && Hopeless(f, q.items[i]) }

  lemma DoomedStays(f: F.State, f': F.State, q: F.BatchRequest)
    requires Doomed(f, q) && FP.Onward(f, f')
    ensures Doomed(f', q)
  {
    hide FP.CursorsAdvance, FP.BatchesAdvance, FP.InboxAdvances;
    var i :| 0 <= i < |q.items| && Hopeless(f, q.items[i]);
    assert Advances(f.shipments[q.items[i].shipment], f'.shipments[q.items[i].shipment]);
    assert Hopeless(f', q.items[i]);
  }

  lemma DoomedFails(f: F.State, q: F.BatchRequest)
    requires Doomed(f, q)
    ensures !F.AllDispatchable(f, q)
  {
    var i :| 0 <= i < |q.items| && Hopeless(f, q.items[i]);
    assert !F.Dispatchable(f, q.trip, q.items[i]);
  }

  /** A trip has one dispatch that is not rejected, at most. */
  lemma OneUnrejected(t: T.Trip, d: nat, e: nat)
    requires TI.Inv(t) && d < |t.dispatches| && e < |t.dispatches|
    requires t.dispatches[d].stage != T.DispatchRejected && t.dispatches[e].stage != T.DispatchRejected
    ensures d == e
  {
    hide TI.OpsOk, TI.MembersOk, TI.Unique, TI.StopsOk, TI.PlacesOk, TI.TotalsOk, TI.RouteOk, TI.CapacityOk,
      TI.ReadsOk, TI.DriveOk, TI.DispatchOk;
  }

  /** While a dispatch is open and fulfillment does not know it, no batch holds the trip's shipments. */
  lemma Unbatched(w: World, k: Id, d: nat, x: Id)
    requires Inv(w) && k in w.trips && d < |w.trips[k].dispatches| && T.Open(w.trips[k].dispatches[d].stage)
    requires w.trips[k].dispatches[d].request.id !in w.f.batches
    requires x in w.f.shipments && w.f.shipments[x].trip == Some(k)
    ensures !Busy(w.f.shipments[x].intent) && !w.f.shipments[x].issued
  {
    hide Inv, FI.Inv, TI.Inv, Known, Agrees, GoneAll, DatedAll, TripBatches, StageOk;
    if Busy(w.f.shipments[x].intent) || w.f.shipments[x].issued {
      StateOf(w);
      BusyBatch(w.f, x);
      var b := w.f.shipments[x].intent.value.batch.value;
      var l, e := RowOfBatch(w, b);
      StageOf(w, l, e);
      StageMeans(w.f.batches, w.trips[l].dispatches[e]);
      TripOf(w, l);
      DispatchUnlocked(w.trips[l], e);
      OneUnrejected(w.trips[k], d, e);
      assert false;
    }
  }

  lemma RowOfBatch(w: World, b: Id) returns (k: Id, d: nat)
    requires Inv(w) && b in w.f.batches
    ensures k in w.trips && d < |w.trips[k].dispatches| && w.trips[k].dispatches[d].request.id == b
  {
    hide FI.Inv, ResumesOk, TripsOk, LedgerOwned, MemoriesOk;
    assert b in w.batchIds;
    k, d := w.batchIds[b].0, w.batchIds[b].1;
  }

  lemma ItemRow(t: T.Trip, d: nat, i: nat) returns (j: nat)
    requires TI.Inv(t) && d < |t.dispatches| && t.dispatches[d].stage != T.DispatchRejected
    requires i < |t.dispatches[d].request.items|
    ensures j < |t.members| && t.members[j].state == T.Active && t.dispatches[d].request.trip == t.id
    ensures t.members[j].shipment == t.dispatches[d].request.items[i].shipment
    ensures t.members[j].version == t.dispatches[d].request.items[i].version
  {
    hide TI.OpsOk, TI.MembersOk, TI.Unique, TI.StopsOk, TI.PlacesOk, TI.TotalsOk, TI.RouteOk, TI.CapacityOk,
      TI.ReadsOk, TI.DriveOk, F.DistinctItems;
    assert TI.DispatchOk(t.id, t.status, t.lock, t.version, t.plan, t.members, t.dispatches[d]);
    var q := t.dispatches[d].request;
    j := MatchedRow(t.members, q, i);
  }

  lemma MatchedRow(ms: seq<T.Member>, q: F.BatchRequest, i: nat) returns (j: nat)
    requires T.Matches(ms, q) && i < |q.items|
    ensures j < |ms| && T.Present(ms[j]) && ms[j].shipment == q.items[i].shipment && ms[j].version == q.items[i].version
  {
    assert T.Carries(ms, q.items[i]);
    var item := q.items[i];
    j :| 0 <= j < |ms| && T.Present(ms[j]) && ms[j].shipment == item.shipment && ms[j].version == item.version;
  }

  /** An item of such a dispatch either can be dispatched or never will. */
  lemma ItemFate(w: World, k: Id, d: nat, i: nat)
    requires Inv(w) && k in w.trips && d < |w.trips[k].dispatches| && T.Open(w.trips[k].dispatches[d].stage)
    requires w.trips[k].dispatches[d].request.id !in w.f.batches && i < |w.trips[k].dispatches[d].request.items|
    ensures var q := w.trips[k].dispatches[d].request;
            F.Dispatchable(w.f, q.trip, q.items[i]) || Hopeless(w.f, q.items[i])
  {
    hide Inv, FI.Inv, TI.Inv, Known, GoneAll, TripBatches, Agrees, L.ReleasedIn, GrantedAs;
    TripOf(w, k);
    StateOf(w);
    var j := ItemRow(w.trips[k], d, i);
    MembersOf(w.trips[k]);
    ActiveHeld(w, w.trips[k], j);
    RowOf(w, k, j);
    HeldStatus(w.f, w.trips[k].members[j].shipment);
    Unbatched(w, k, d, w.trips[k].members[j].shipment);
  }

  lemma UndispatchableDoomed(w: World, k: Id, d: nat)
    requires Inv(w) && k in w.trips && d < |w.trips[k].dispatches| && T.Open(w.trips[k].dispatches[d].stage)
    requires w.trips[k].dispatches[d].request.id !in w.f.batches
    requires !F.AllDispatchable(w.f, w.trips[k].dispatches[d].request)
    ensures Doomed(w.f, w.trips[k].dispatches[d].request)
  {
    hide Inv, Hopeless, F.Dispatchable;
    var q := w.trips[k].dispatches[d].request;
    var i :| 0 <= i < |q.items| && !F.Dispatchable(w.f, q.trip, q.items[i]);
    ItemFate(w, k, d, i);
  }

  // ----- A rejected row stays rejected -----

  /** The dispatch row is rejected, and no other row has its batch id. */
  ghost predicate Sealed(w: World, k: Id, d: nat, q: F.BatchRequest) {
    && k in w.trips && d < |w.trips[k].dispatches| && w.trips[k].dispatches[d].stage == T.DispatchRejected
    && w.trips[k].dispatches[d].request == q && q.id in w.batchIds
    && (forall l | l in w.trips :: w.trips[l].id == l)
    && (forall l, e | l in w.trips && 0 <= e < |w.trips[l].dispatches| && w.trips[l].dispatches[e].request.id == q.id ::
          l == k && e == d)
  }

  /** What a trip transaction does to dispatch rows: a rejected one stays, requests stay, and a new
      one comes from an acceptance only. */
  lemma DispatchRows(t: T.Trip, step: T.TripStep, t': T.Trip)
    requires T.Guard(t, step) && t' == T.Do(t, step)
    ensures t'.id == t.id && |t.dispatches| <= |t'.dispatches|
    ensures forall e | 0 <= e < |t.dispatches| :: t'.dispatches[e].request == t.dispatches[e].request
    ensures forall e | 0 <= e < |t.dispatches| && t.dispatches[e].stage == T.DispatchRejected ::
             t'.dispatches[e].stage == T.DispatchRejected
    ensures forall e | |t.dispatches| <= e < |t'.dispatches| :: step.DoAccept? && t'.dispatches[e].request == step.batch
  {
    hide T.IsFirst, T.NoneLeft, T.CanRemove, T.InputReady, T.CanSelect, T.LeaveAll, T.Matches, T.Permutation,
      T.IsNext, T.Results;
    hide T.ActiveWeight, T.ActiveVolume, T.Places, T.Picked, T.CanUndo;
  }

  lemma SealedTrip(w: World, k: Id, d: nat, q: F.BatchRequest, l: Id, step: T.TripStep, w': World)
    requires Sealed(w, k, d, q) && l in w.trips && T.Guard(w.trips[l], step)
    requires step.DoAccept? ==> step.batch.id != q.id
    requires w'.trips == w.trips[T.Do(w.trips[l], step).id := T.Do(w.trips[l], step)] && q.id in w'.batchIds
    ensures Sealed(w', k, d, q)
  {
    hide T.Guard, T.Do;
    DispatchRows(w.trips[l], step, T.Do(w.trips[l], step));
  }

  lemma SealedAside(w: World, w': World, k: Id, d: nat, q: F.BatchRequest, step: Step)
    requires Sealed(w, k, d, q) && q.id in w'.batchIds && (step.Create? ==> step.trip !in w.trips)
    requires w'.trips == if step.Create? then w.trips[step.trip := T.NewTrip(step.trip, step.assignment)] else w.trips
    ensures Sealed(w', k, d, q)
  {
  }

  /** Batch ids in use stay in use, and an accepted dispatch brings a new one. */
  lemma BatchIdsKept(w: World, step: Step, b: Id)
    requires Enabled(w, step) && b in w.batchIds
    ensures b in Apply(w, step).batchIds
    ensures TripWrite(w, step).Some? && TripWrite(w, step).value.1.DoAccept? ==>
             TripWrite(w, step).value.1.batch.id != b
  {
    hide T.Guard, T.Do, F.Enabled, F.Apply, Registered, F.Claim, F.Release, F.Prepare, NewIds, Own, Announced,
      CanNotice, Complete, Elsewhere, NewIntents, Alone, CanCallClaim, CanCallRelease, T.Bound;
  }

  lemma SealedStep(w: World, step: Step, k: Id, d: nat, q: F.BatchRequest)
    requires Enabled(w, step) && Sealed(w, k, d, q)
    ensures Sealed(Apply(w, step), k, d, q)
  {
    assert q.id in w.batchIds;
    hide Enabled, Apply, Sealed, T.Guard, T.Do;
    TripWrites(w, step);
    BatchIdsKept(w, step, q.id);
    if TripWrite(w, step).Some? {
      SealedTrip(w, k, d, q, TripWrite(w, step).value.0, TripWrite(w, step).value.1, Apply(w, step));
    } else {
      SealedAside(w, Apply(w, step), k, d, q, step);
    }
  }

  // ----- Along every run after the write -----

  /** A resume holds this row. */
  ghost predicate Held(w: World, k: Id, d: nat) {
    exists r :: r in w.flights && w.flights[r].trip == k && w.flights[r].d == d
  }

  /** Only a resume takes a row on, and only while it is open. */
  lemma FlightsFrom(w: World, step: Step, r: Id)
    requires Enabled(w, step) && r in Apply(w, step).flights
    ensures || (r in w.flights && SameRow(Apply(w, step).flights[r], w.flights[r]))
            || (step.Resume? && step.trip in w.trips && step.d < |w.trips[step.trip].dispatches|
                && T.Open(w.trips[step.trip].dispatches[step.d].stage)
                && Apply(w, step).flights[r].trip == step.trip && Apply(w, step).flights[r].d == step.d)
  {
    hide T.Guard, T.Do, F.Enabled, F.Apply, Registered, F.Claim, F.Release, F.Prepare, NewIds, Own, Announced,
      CanNotice, Complete, Elsewhere, NewIntents, CanCallClaim, CanCallRelease, T.Bound, CanLocal, Alone;
  }

  lemma HeldFrom(w: World, step: Step, k: Id, d: nat)
    requires Enabled(w, step) && !Held(w, k, d) && k in w.trips && d < |w.trips[k].dispatches|
    requires !T.Open(w.trips[k].dispatches[d].stage)
    ensures !Held(Apply(w, step), k, d)
  {
    hide Enabled, Apply, T.Open;
    var w' := Apply(w, step);
    forall r | r in w'.flights ensures !(w'.flights[r].trip == k && w'.flights[r].d == d) {
      FlightsFrom(w, step, r);
    }
  }

  lemma PreparedFrom(f: F.State, s: F.Step, b: Id)
    requires F.Enabled(f, s) && b in F.Apply(f, s).batches && b !in f.batches
    ensures s.DoPrepare? && s.batchReq.id == b
  {
    hide F.Enabled, F.Apply;
    match s
    case DoPrepare(q) => PreparedAs(f, q); PrepareShape(f, q);
    case DoClaim(q, newId) => ClaimedAs(f, q, newId); ClaimShape(f, q, newId);
    case DoRelease(q) => ReleasedAs(f, q); ReleaseShape(f, q);
    case _ => OwnLedger(f, s);
  }

  lemma PreparedAs(f: F.State, q: F.BatchRequest)
    requires F.Enabled(f, F.DoPrepare(q))
    ensures F.Apply(f, F.DoPrepare(q)) == F.Prepare(f, q)
  {
  }

  lemma ClaimedAs(f: F.State, q: F.ClaimRequest, newId: Id)
    requires F.Enabled(f, F.DoClaim(q, newId))
    ensures F.Apply(f, F.DoClaim(q, newId)) == F.Claim(f, q, newId)
  {
  }

  lemma ReleasedAs(f: F.State, q: F.ReleaseRequest)
    requires F.Enabled(f, F.DoRelease(q))
    ensures F.Apply(f, F.DoRelease(q)) == F.Release(f, q)
  {
  }

  /** Only a resume's call makes fulfillment take a batch on. */
  lemma BatchesFrom(w: World, step: Step, b: Id)
    requires Enabled(w, step) && b in Apply(w, step).f.batches && b !in w.f.batches
    ensures step.Send? && InFlight(w, step.resume) && RowHeld(w, step.resume).request.id == b
    ensures Apply(w, step).f == F.Prepare(w.f, RowHeld(w, step.resume).request)
  {
    hide Apply, F.Enabled, F.Apply, F.Prepare;
    FulfillmentWrites(w, step);
    PreparedFrom(w.f, FulfillmentWrite(w, step).value, b);
    PrepareFrom(w, step);
    PreparedAs(w.f, RowHeld(w, step.resume).request);
  }

  lemma PrepareFrom(w: World, step: Step)
    requires Enabled(w, step) && FulfillmentWrite(w, step).Some? && FulfillmentWrite(w, step).value.DoPrepare?
    ensures step.Send? && InFlight(w, step.resume)
    ensures FulfillmentWrite(w, step).value.batchReq == RowHeld(w, step.resume).request
  {
    hide F.Enabled, T.Guard, CanLocal, NewIds, Complete, Elsewhere, Announced, F.FreshClaim, T.IsFirst;
  }

  /** The rejected row's batch can do no more: it was turned down, or is unknown and either nobody can
      send it or it cannot be dispatched. */
  ghost predicate Spent(w: World, k: Id, d: nat, q: F.BatchRequest) {
    && FI.Inv(w.f) && Sealed(w, k, d, q)
    && if q.id in w.f.batches then TurnedDown(w.f.batches, q.id) else !Held(w, k, d) || Doomed(w.f, q)
  }

  lemma TurnedDownAtOnce(f: F.State, q: F.BatchRequest)
    requires q.id !in f.batches && !F.AllDispatchable(f, q)
    ensures TurnedDown(F.Prepare(f, q).batches, q.id)
  {
    hide F.AllDispatchable;
  }

  lemma SentBy(w: World, step: Step, k: Id, d: nat, q: F.BatchRequest)
    requires Sealed(w, k, d, q) && step.Send? && InFlight(w, step.resume) && RowHeld(w, step.resume).request.id == q.id
    ensures Held(w, k, d) && RowHeld(w, step.resume).request == q
  {
  }

  lemma SealedRow(w: World, k: Id, d: nat, q: F.BatchRequest)
    requires Sealed(w, k, d, q)
    ensures k in w.trips && d < |w.trips[k].dispatches| && !T.Open(w.trips[k].dispatches[d].stage)
  {
  }

  lemma SpentStep(w: World, step: Step, k: Id, d: nat, q: F.BatchRequest)
    requires Enabled(w, step) && Spent(w, k, d, q)
    ensures Spent(Apply(w, step), k, d, q)
  {
    hide FI.Inv, Apply, Enabled, Sealed, TurnedDown, Held, Doomed, FP.Onward, T.Open, FP.BatchesAdvance, F.Prepare;
    var w' := Apply(w, step);
    SealedRow(w, k, d, q);
    FulfillmentKept(w, step);
    LedgerOnward(w.f, w'.f);
    SealedStep(w, step, k, d, q);
    if q.id in w.f.batches {
      DownStays(w.f, w'.f, q.id);
      BatchKept(w.f, w'.f, q.id);
    } else if q.id in w'.f.batches {
      BatchesFrom(w, step, q.id);
      SentBy(w, step, k, d, q);
      DoomedFails(w.f, q);
      TurnedDownAtOnce(w.f, q);
    } else if Held(w, k, d) {
      DoomedStays(w.f, w'.f, q);
    } else {
      HeldFrom(w, step, k, d);
    }
  }

  lemma BatchKept(f: F.State, f': F.State, b: Id)
    requires FP.BatchesAdvance(f.batches, f'.batches) && b in f.batches
    ensures b in f'.batches
  {
  }

  lemma {:induction false} SpentRun(w: World, steps: seq<Step>, w': World, k: Id, d: nat, q: F.BatchRequest)
    requires Runs(w, steps, w') && Spent(w, k, d, q)
    ensures NoneUnder(w'.f, q.id)
    decreases |steps|
  {
    hide FI.Inv, Enabled, Apply, Sealed, NoneUnder, TurnedDown, Held, Doomed;
    if steps == [] {
      DownNone(w.f, q.id);
    } else {
      SpentStep(w, steps[0], k, d, q);
      SpentRun(Apply(w, steps[0]), steps[1..], w', k, d, q);
    }
  }

  // ----- The other direction: a run that dispatches after all -----

  lemma CompletedSome(f: F.State, b: Id)
    requires FI.Inv(f) && b in f.batches && f.batches[b].status == F.BatchCompleted && f.batches[b].request.items != []
    ensures !NoneUnder(f, b)
  {
    hide FI.Rows, FI.Indexed, FI.IntentIdsUnique, FI.LedgerAgrees, FI.OrdersOk, FI.InboxOk;
    assert FI.BatchOk(f.shipments, b, f.batches[b]);
    var item := f.batches[b].request.items[0];
    assert item.shipment in f.shipments && FI.IssuedFor(f.shipments[item.shipment], b, item);
  }

  lemma CommitCompletes(f: F.State, b: Id, f': F.State)
    requires FI.Inv(f) && b in f.batches && f.batches[b].status == F.BatchPending && f.batches[b].decision == Some(true)
    requires f' == F.Commit(f, b)
    ensures b in f'.batches && f'.batches[b].status == F.BatchCompleted
    ensures f'.batches[b].request == f.batches[b].request && FI.Inv(f')
  {
    hide FI.Inv, ResumesOk, F.IssueAll, F.ReceiptsOf, F.DropAll, F.CommitReply;
    FR.BindingNeverChanges(f, b);
    FR.CommitKeeps(f, b);
  }

  lemma DecideGrants(f: F.State, b: Id, f': F.State)
    requires FI.Inv(f) && b in f.batches && f.batches[b].status == F.BatchPending
    requires f.batches[b].decision != Some(false)
    requires f' == F.Decide(f, b, true)
    ensures b in f'.batches && f'.batches[b].status == F.BatchPending && f'.batches[b].decision == Some(true)
    ensures f'.batches[b].request == f.batches[b].request && FI.Inv(f')
  {
    hide FI.Inv, ResumesOk, F.Grant;
    FR.DecideKeeps(f, b, true);
  }

  /** The authority grants and fulfillment commits. */
  lemma GrantRun(w: World, b: Id) returns (steps: seq<Step>, w': World)
    requires FI.Inv(w.f) && b in w.f.batches && w.f.batches[b].status == F.BatchPending
    requires w.f.batches[b].decision != Some(false)
    requires w.f.batches[b].request.items != []
    ensures Runs(w, steps, w') && !NoneUnder(w'.f, b)
  {
    hide FI.Inv, ResumesOk, F.Decide, F.Commit, NoneUnder, Runs;
    var f1 := F.Decide(w.f, b, true);
    DecideGrants(w.f, b, f1);
    var f2 := F.Commit(f1, b);
    CommitCompletes(f1, b, f2);
    CompletedSome(f2, b);
    w' := w.(f := f2);
    FulfilStep(w, F.DoDecide(b, true), f1);
    FulfilStep(w.(f := f1), F.DoCommit(b), f2);
    steps := [Fulfil(F.DoDecide(b, true)), Fulfil(F.DoCommit(b))];
    TwoSteps(w, w.(f := f1), w', steps[0], steps[1]);
  }

  lemma FulfilStep(w: World, s: F.Step, f': F.State)
    requires Own(s) && F.Enabled(w.f, s) && Unreserved(w, s) && F.Apply(w.f, s) == f'
    ensures Enabled(w, Fulfil(s)) && Apply(w, Fulfil(s)) == w.(f := f')
  {
    hide F.Enabled, F.Apply, Own, Unreserved;
  }

  lemma TwoSteps(w: World, v: World, w': World, a: Step, b: Step)
    requires Enabled(w, a) && Apply(w, a) == v && Enabled(v, b) && Apply(v, b) == w'
    ensures Runs(w, [a, b], w')
  {
    hide Enabled, Apply;
    assert [a, b][1..] == [b] && [b][1..] == [];
    assert Runs(w', [], w');
    assert Runs(v, [b], w');
  }

  lemma OneStep(w: World, a: Step, steps: seq<Step>, w': World)
    requires Enabled(w, a) && Runs(Apply(w, a), steps, w')
    ensures Runs(w, [a] + steps, w')
  {
    hide Enabled, Apply;
    assert ([a] + steps)[1..] == steps;
  }

  /** A batch that is neither unknown nor turned down dispatches in some run. */
  lemma LaterDispatch(w: World, b: Id) returns (steps: seq<Step>, w': World)
    requires FI.Inv(w.f) && b in w.f.batches && !TurnedDown(w.f.batches, b) && w.f.batches[b].request.items != []
    ensures Runs(w, steps, w') && !NoneUnder(w'.f, b)
  {
    hide FI.Inv, Runs, NoneUnder;
    if w.f.batches[b].status == F.BatchPending {
      steps, w' := GrantRun(w, b);
    } else {
      steps, w' := [], w;
      CompletedSome(w.f, b);
      StayRun(w);
    }
  }

  lemma StayRun(w: World)
    ensures Runs(w, [], w)
  {
  }

  lemma PrepareHolds(f: F.State, q: F.BatchRequest, f': F.State)
    requires FI.Inv(f) && F.Enabled(f, F.DoPrepare(q)) && q.id !in f.batches && F.AllDispatchable(f, q)
    requires f' == F.Prepare(f, q) && q.items != []
    ensures FI.Inv(f') && q.id in f'.batches && f'.batches[q.id] == F.Batch(q, F.BatchPending, None, [])
  {
    hide FI.Inv, F.AllDispatchable, F.Hold, F.Enabled;
    FI.PrepareKeeps(f, q);
  }

  /** A cleared resume sends the payload whatever its row says by now. */
  lemma SendRun(w: World, s: Id) returns (steps: seq<Step>, w': World)
    requires FI.Inv(w.f) && InFlight(w, s) && w.flights[s].cleared
    requires var q := RowHeld(w, s).request;
             && q.id !in w.f.batches && F.AllDispatchable(w.f, q) && F.Enabled(w.f, F.DoPrepare(q)) && q.items != []
    ensures Runs(w, steps, w') && !NoneUnder(w'.f, RowHeld(w, s).request.id)
  {
    hide FI.Inv, F.Prepare, NoneUnder, Runs, F.Enabled, F.AllDispatchable;
    var q := RowHeld(w, s).request;
    var v := w.(f := F.Prepare(w.f, q));
    PrepareHolds(w.f, q, v.f);
    var rest, w2 := GrantRun(v, q.id);
    OneStep(w, Send(s), rest, w2);
    steps, w' := [Send(s)] + rest, w2;
  }

  /** So does one that is not cleared yet: the transaction in its way does not notice the rejection. */
  lemma ClearRun(w: World, s: Id) returns (steps: seq<Step>, w': World)
    requires FI.Inv(w.f) && InFlight(w, s) && RowHeld(w, s).stage == T.DispatchRejected
    requires T.Bound(TripHeld(w, s), RowHeld(w, s).request)
    requires var q := RowHeld(w, s).request;
             && q.id !in w.f.batches && F.AllDispatchable(w.f, q) && F.Enabled(w.f, F.DoPrepare(q)) && q.items != []
    ensures Runs(w, steps, w') && !NoneUnder(w'.f, RowHeld(w, s).request.id)
  {
    hide FI.Inv, F.Prepare, NoneUnder, Runs, F.Enabled, F.AllDispatchable, T.Bound;
    if w.flights[s].cleared {
      steps, w' := SendRun(w, s);
    } else {
      var v := Passed(w, s);
      var rest, w2 := SendRun(v, s);
      OneStep(w, Clear(s), rest, w2);
      steps, w' := [Clear(s)] + rest, w2;
    }
  }

  lemma LateSealed(w: World, r: Id)
    requires Inv(w) && InFlight(w, r)
    ensures Sealed(LateRejected(w, r), w.flights[r].trip, w.flights[r].d, RowHeld(w, r).request)
  {
    hide FI.Inv, ResumesOk, TI.Inv, Known, Agrees, GoneAll, DatedAll, LedgerOwned, MemoriesOk, BatchesKnown, IdsOwned,
      StageOk;
    var (k, d, w') := (w.flights[r].trip, w.flights[r].d, LateRejected(w, r));
    var b := RowHeld(w, r).request.id;
    assert w.trips[k].id == k && TripOk(w, w.trips[k]);
    forall l, e | l in w'.trips && 0 <= e < |w'.trips[l].dispatches| && w'.trips[l].dispatches[e].request.id == b
      ensures l == k && e == d
    {
      assert w.trips[l].id == l && TripOk(w, w.trips[l]);
      assert w.trips[l].dispatches[e].request.id == b;
    }
    forall l | l in w'.trips ensures w'.trips[l].id == l { assert TripOk(w, w.trips[l]); }
  }

  lemma AloneUnheld(w: World, r: Id)
    requires InFlight(w, r) && Alone(w, r)
    ensures !Held(LateRejected(w, r), w.flights[r].trip, w.flights[r].d)
  {
    forall s | s in w.flights && s != r ensures !SameRow(w.flights[s], w.flights[r]) {}
  }

  lemma LateSpent(w: World, r: Id)
    requires Inv(w) && InFlight(w, r) && T.Open(RowHeld(w, r).stage) && Harmless(w, r)
    ensures Spent(LateRejected(w, r), w.flights[r].trip, w.flights[r].d, RowHeld(w, r).request)
  {
    hide Inv, FI.Inv, Sealed, TurnedDown, Held, Doomed, Alone, F.AllDispatchable;
    StateOf(w);
    LateSealed(w, r);
    if RowHeld(w, r).request.id !in w.f.batches {
      if Alone(w, r) { AloneUnheld(w, r); } else { UndispatchableDoomed(w, w.flights[r].trip, w.flights[r].d); }
    }
  }

  lemma SameRequest(w: World, r: Id)
    requires Inv(w) && InFlight(w, r)
    ensures var q := RowHeld(w, r).request; q.id in w.f.batches ==> w.f.batches[q.id].request == q
  {
    hide Inv;
    StageOf(w, w.flights[r].trip, w.flights[r].d);
  }

  lemma HarmRun(w: World, r: Id) returns (steps: seq<Step>, w': World)
    requires Inv(w) && InFlight(w, r) && T.Open(RowHeld(w, r).stage) && !Harmless(w, r)
    ensures Runs(LateRejected(w, r), steps, w') && !NoneUnder(w'.f, RowHeld(w, r).request.id)
  {
    hide Inv, FI.Inv, TripOk, TurnedDown, F.AllDispatchable, NoneUnder, Runs, F.Enabled, T.Bound, F.DistinctItems;
    var (k, d) := (w.flights[r].trip, w.flights[r].d);
    StateOf(w);
    PayloadOf(w, r);
    if RowHeld(w, r).request.id in w.f.batches {
      SameRequest(w, r);
      steps, w' := LaterDispatch(LateRejected(w, r), RowHeld(w, r).request.id);
    } else {
      var s :| s in w.flights && s != r && SameRow(w.flights[s], w.flights[r]);
      PayloadReady(w, k, d);
      StillBound(TripHeld(w, r), d);
      steps, w' := ClearRun(LateRejected(w, r), s);
    }
  }

  lemma StillBound(t: T.Trip, d: nat)
    requires d < |t.dispatches| && T.Bound(t, t.dispatches[d].request)
    ensures T.Bound(T.SetStage(t, d, T.DispatchRejected), t.dispatches[d].request)
  {
  }

  lemma PayloadOf(w: World, r: Id)
    requires Inv(w) && InFlight(w, r) && T.Open(RowHeld(w, r).stage)
    ensures RowHeld(w, r).request.items != [] && T.Bound(TripHeld(w, r), RowHeld(w, r).request)
  {
    hide Inv, FI.Inv, TI.Inv, Known, Agrees, GoneAll, DatedAll, TripBatches, T.Bound, F.DistinctItems;
    TripOf(w, w.flights[r].trip);
    PayloadDistinct(TripHeld(w, r), w.flights[r].d);
  }

  /** The write by which resume `r` rejects its dispatch looks neither at the stage nor at other
      resumes again. Afterwards no shipment ever leaves under the batch, along every run, if and only
      if fulfillment turned the batch down, or does not know it and either no other resume holds the
      payload or fulfillment could not dispatch it. */
  lemma LateRejectIff(w: World, r: Id)
    requires Inv(w) && InFlight(w, r) && T.Open(RowHeld(w, r).stage)
    ensures (forall steps, w' :: Runs(LateRejected(w, r), steps, w') ==> NoneUnder(w'.f, RowHeld(w, r).request.id)) <==>
            Harmless(w, r)
  {
    hide Inv, Runs, NoneUnder, Harmless, Spent, T.Open, LateRejected;
    var (k, d, q) := (w.flights[r].trip, w.flights[r].d, RowHeld(w, r).request);
    if Harmless(w, r) {
      LateSpent(w, r);
      forall steps, w' | Runs(LateRejected(w, r), steps, w') ensures NoneUnder(w'.f, q.id) {
        SpentRun(LateRejected(w, r), steps, w', k, d, q);
      }
    } else {
      var steps, w' := HarmRun(w, r);
      assert Runs(LateRejected(w, r), steps, w') && !NoneUnder(w'.f, q.id);
    }
  }

  /** While the stage is still ACCEPTED the write is harmless as long as no other resume holds the row. */
  lemma AcceptedHarmless(w: World, r: Id)
    requires Inv(w) && InFlight(w, r) && RowHeld(w, r).stage == T.Accepted && Alone(w, r)
    ensures Harmless(w, r)
  {
    hide Inv, Alone;
    StageOf(w, w.flights[r].trip, w.flights[r].d);
  }
}
