/** Calls between the services, fulfillment's own transactions, and every step together. */
module WorldCalls {
  import opened Shipments
  import F = Fulfillment
  import FI = FulfillmentInvariant
  import FR = FulfillmentRuns
  import FP = FulfillmentProgress
  import FN = FulfillmentIntents
  import L = ClaimLedger
  import T = Trips
  import TI = TripInvariant
  import opened World
  import opened WorldInvariant
  import opened WorldSteps

  // ----- A longer ledger -----

  lemma ReleasedGrows(ledger: seq<F.Receipt>, r: F.Receipt, claim: Id)
    ensures L.ReleasedIn(ledger + [r], claim) <==> L.ReleasedIn(ledger, claim) || (r.Freed? && r.freeReq.claim == claim)
  {
    L.ReleasedGrows(ledger, r, claim);
  }

  /** A claim receipt for row `i` of trip `k` changes what the ledger says of that row alone. */
  lemma ClaimAppendRow(ledger: seq<F.Receipt>, r: F.Receipt, requests: map<Id, Slot>, t: T.Trip, j: nat, k: Id, i: nat)
    requires r.Claimed? && (forall x | x in ledger :: F.ClaimOf(x) != r.claim) && j < |t.members|
    requires r.claimReq.id in requests && requests[r.claimReq.id] == Slot(k, i, false)
    requires RowKnown(requests, t.id, j, t.members[j]) && RowAgrees(ledger, t, j)
    requires t.id == k && j == i ==>
             T.IsFirst(t, j, T.ClaimPending) && t.members[j].state == T.ClaimPending
             && t.members[j].claimReq == r.claimReq
    ensures RowAgrees(ledger + [r], t, j)
  {
    hide L.ReleasedIn, T.IsFirst;
    var m := t.members[j];
    FindGrows(ledger, r, m.claimReq.id);
    if m.releaseReq.Some? { FindGrows(ledger, r, m.releaseReq.value.id); }
    if m.claim.Some? { ReleasedGrows(ledger, r, m.claim.value); }
    if F.Find(ledger, m.claimReq.id).Some? && F.Find(ledger, m.claimReq.id).value.Claimed? {
      ReleasedGrows(ledger, r, F.Find(ledger, m.claimReq.id).value.claim);
    }
    ReleasedGrows(ledger, r, r.claim);
    assert !L.ReleasedIn(ledger, r.claim) by { FreshUnreleased(ledger, r.claim); }
  }

  lemma FreshUnreleased(ledger: seq<F.Receipt>, claim: Id)
    requires forall x | x in ledger :: F.ClaimOf(x) != claim
    ensures !L.ReleasedIn(ledger, claim)
  {
  }

  /** Two rows granted the same claim are one row. */
  lemma SameGrant(ledger: seq<F.Receipt>, requests: map<Id, Slot>, m: T.Member, k: Id, i: nat, n: T.Member, l: Id,
      j: nat)
    requires FI.LedgerOk(ledger) && RowKnown(requests, k, i, m) && RowKnown(requests, l, j, n)
    requires var a, b := F.Find(ledger, m.claimReq.id), F.Find(ledger, n.claimReq.id);
             a.Some? && b.Some? && a.value.Claimed? && b.value.Claimed? && a.value.claim == b.value.claim
    ensures k == l && i == j
  {
    L.ClaimIdsUnique(ledger, F.Find(ledger, m.claimReq.id).value, F.Find(ledger, n.claimReq.id).value);
  }

  /** A release receipt for row `i` of trip `k` changes what the ledger says of that row alone. */
  lemma ReleaseAppendRow(ledger: seq<F.Receipt>, r: F.Receipt, requests: map<Id, Slot>, t: T.Trip, j: nat, k: Id,
      i: nat, n: T.Member)
    requires FI.LedgerOk(ledger) && r.Freed? && j < |t.members|
    requires RowKnown(requests, k, i, n) && n.releaseReq == Some(r.freeReq) && n.claim == Some(r.freeReq.claim)
    requires GrantedAs(ledger, n, r.freeReq.claim)
    requires RowKnown(requests, t.id, j, t.members[j]) && RowAgrees(ledger, t, j)
    requires t.id == k && j == i ==> t.members[j] == n && n.state == T.ReleasePending
    ensures RowAgrees(ledger + [r], t, j)
  {
    hide L.ReleasedIn, T.IsFirst, FI.LedgerOk;
    var m := t.members[j];
    FindGrows(ledger, r, m.claimReq.id);
    if m.releaseReq.Some? { FindGrows(ledger, r, m.releaseReq.value.id); }
    if m.claim.Some? { ReleasedGrows(ledger, r, m.claim.value); }
    var g := F.Find(ledger, m.claimReq.id);
    if g.Some? && g.value.Claimed? {
      ReleasedGrows(ledger, r, g.value.claim);
      assert (t.id == k && j == i) || g.value.claim != r.freeReq.claim by {
        if g.value.claim == r.freeReq.claim { SameGrant(ledger, requests, m, t.id, j, n, k, i); }
      }
    }
  }

  /** A dropped grant stays in doubt: no row asks for its release. */
  lemma LostAppend(ledger: seq<F.Receipt>, r: F.Receipt, requests: map<Id, Slot>, m: T.Member, l: Id, j: nat, k: Id,
      i: nat, n: T.Member)
    requires FI.LedgerOk(ledger) && Lost(ledger, m) && RowKnown(requests, l, j, m) && RowKnown(requests, k, i, n)
    requires (l != k || j != i)
    requires r.Claimed? ==> r.claimReq == n.claimReq
    requires r.Freed? ==> n.releaseReq == Some(r.freeReq) && GrantedAs(ledger, n, r.freeReq.claim)
    ensures Lost(ledger + [r], m)
  {
    hide L.ReleasedIn, FI.LedgerOk;
    FindGrows(ledger, r, m.claimReq.id);
    var g := F.Find(ledger, m.claimReq.id).value;
    ReleasedGrows(ledger, r, g.claim);
    if r.Freed? && g.claim == r.freeReq.claim { SameGrant(ledger, requests, m, l, j, n, k, i); }
  }

  lemma MemoAppend(ledger: seq<F.Receipt>, r: F.Receipt, requests: map<Id, Slot>, t: T.Trip, i: nat,
      reply: F.Reply<F.Receipt>)
    requires MemoOk(ledger, t, i, reply) && Known(requests, t) && F.RequestId(r) in requests
    requires requests[F.RequestId(r)] != Slot(t.id, i, false)
    ensures MemoOk(ledger + [r], t, i, reply)
  {
    hide L.ReleasedIn, T.IsFirst;
    assert RowKnown(requests, t.id, i, t.members[i]);
    FindGrows(ledger, r, t.members[i].claimReq.id);
    if t.members[i].claim.Some? { ReleasedGrows(ledger, r, t.members[i].claim.value); }
  }

  // ----- The state of fulfillment changes -----

  /** A release prepared for a canceled shipment stays fitting. */
  lemma GoneKept(f: F.State, f': F.State, t: T.Trip, j: nat)
    requires FI.Inv(f) && FI.Inv(f') && FP.Onward(f, f') && j < |t.members|
    requires RowAgrees(f.ledger, t, j) && RowAgrees(f'.ledger, t, j) && GoneOk(f, t, t.members[j])
    requires t.members[j].claimReq.shipment == t.members[j].shipment
    requires F.Find(f'.ledger, RequestOf(t.members[j])).None? ==> F.Find(f.ledger, RequestOf(t.members[j])).None?
    ensures GoneOk(f', t, t.members[j])
  {
    hide FI.Inv, ResumesOk, L.ReleasedIn, FP.CursorsAdvance, FP.BatchesAdvance, FP.InboxAdvances, T.IsFirst;
    var m := t.members[j];
    if ForCanceled(t, m) {
      assert Advances(f.shipments[m.shipment], f'.shipments[m.shipment]);
      if Unsent(f'.ledger, m.releaseReq.value.id) {
        HeldHere(f, m, m.claim.value);
        HeldHere(f', m, m.claim.value);
      }
    }
  }

  function RequestOf(m: T.Member): Id { if m.releaseReq.Some? then m.releaseReq.value.id else 0 }

  lemma FindLater(a: seq<F.Receipt>, b: seq<F.Receipt>, id: Id)
    requires a <= b && F.Find(b, id).None?
    ensures F.Find(a, id).None?
  {
    forall r | r in a ensures F.RequestId(r) != id {
      var i :| 0 <= i < |a| && a[i] == r;
      assert b[i] == r;
    }
  }

  lemma GoneAllKept(f: F.State, f': F.State, leaked: set<Id>, t: T.Trip)
    requires FI.Inv(f) && FI.Inv(f') && FP.Onward(f, f') && TI.Inv(t)
    requires Agrees(f.ledger, leaked, t) && Agrees(f'.ledger, leaked, t) && GoneAll(f, t)
    ensures GoneAll(f', t)
  {
    hide FI.Inv, ResumesOk, TI.Inv, RowAgrees, GoneOk, F.Find, Lost, FP.Onward;
    MembersOf(t);
    assert f.ledger <= f'.ledger by { LedgerOnward(f, f'); }
    forall j | 0 <= j < |t.members| ensures GoneOk(f', t, t.members[j]) {
      assert RowTold(f.ledger, leaked, t, j) && RowTold(f'.ledger, leaked, t, j) && GoneOk(f, t, t.members[j]);
      assert TI.MemberOk(t.id, t.lock, t.ops, t.status, t.stops, t.members[j]);
      if F.Find(f'.ledger, RequestOf(t.members[j])).None? { FindLater(f.ledger, f'.ledger, RequestOf(t.members[j])); }
      if t.members[j].claimReq.id in leaked {
        LostNotGone(f'.ledger, f', t, t.members[j]);
      } else {
        GoneKept(f, f', t, j);
      }
    }
  }

  lemma LostNotGone(ledger: seq<F.Receipt>, f: F.State, t: T.Trip, m: T.Member)
    requires Lost(ledger, m)
    ensures GoneOk(f, t, m)
  {
  }

  lemma DatedKept(f: F.State, f': F.State, ms: seq<T.Member>)
    requires DatedAll(f, ms) && FP.Onward(f, f')
    ensures DatedAll(f', ms)
  {
    hide FP.CursorsAdvance, FP.BatchesAdvance, FP.InboxAdvances;
    forall i | 0 <= i < |ms| ensures Dated(f', ms[i]) {
      assert Dated(f, ms[i]);
      if ms[i].shipment in f.shipments { assert Advances(f.shipments[ms[i].shipment], f'.shipments[ms[i].shipment]); }
    }
  }

  lemma LedgerOnward(f: F.State, f': F.State)
    requires FP.Onward(f, f')
    ensures f.ledger <= f'.ledger && FP.BatchesAdvance(f.batches, f'.batches)
  {
    hide FP.ShipmentsAdvance, FP.CursorsAdvance, FP.InboxAdvances;
  }

  /** A settled batch stays; a pending one keeps its request. New batches are the dispatch's own. */
  lemma StagesKept(batches: map<Id, F.Batch>, batches': map<Id, F.Batch>, batchIds: map<Id, (Id, nat)>, t: T.Trip)
    requires TripBatches(batches, batchIds, t) && FP.BatchesAdvance(batches, batches')
    requires forall d | 0 <= d < |t.dispatches| && t.dispatches[d].request.id in batches'
                        && t.dispatches[d].request.id !in batches ::
               t.dispatches[d].stage == T.Submitted
               && batches'[t.dispatches[d].request.id].request == t.dispatches[d].request
    ensures TripBatches(batches', batchIds, t)
  {
    forall d | 0 <= d < |t.dispatches| ensures StageOk(batches', t.dispatches[d]) {
      assert StageOk(batches, t.dispatches[d]);
    }
  }

  /** What is to be shown when fulfillment's tables change. */
  lemma FulfillmentChanged(w: World, f': F.State)
    requires Inv(w) && FI.Inv(f') && FP.Onward(w.f, f') && LedgerOwned(w.trips, w.requests, f'.ledger)
    requires MemoriesOk(w.trips, f'.ledger, w.mem) && BatchesKnown(f'.batches, w.batchIds) && ResumesOk(w.(f := f'))
    requires forall k | k in w.trips ::
             Agrees(f'.ledger, w.leaked, w.trips[k]) && TripBatches(f'.batches, w.batchIds, w.trips[k])
    ensures Inv(w.(f := f'))
  {
    hide FI.Inv, ResumesOk, TI.Inv, Known, Agrees, GoneAll, DatedAll, TripBatches, LedgerOwned, BatchesKnown,
      MemoriesOk, FP.Onward, IdsOwned;
    var w' := w.(f := f');
    forall k | k in w'.trips ensures w'.trips[k].id == k && TripOk(w', w'.trips[k]) {
      assert TripOk(w, w.trips[k]);
      GoneAllKept(w.f, f', w.leaked, w.trips[k]);
      DatedKept(w.f, f', w.trips[k].members);
    }
  }

  /** Resumes stay in order as long as new intents with reserved ids belong to known batches. */
  lemma ResumesLater(w: World, f': F.State, brought: set<Id>)
    requires ResumesOk(w) && FP.BatchesAdvance(w.f.batches, f'.batches)
    requires FN.IdsFrom(w.f.shipments, f'.shipments, brought)
    requires forall id | id in brought && id in w.intentIds :: w.intentIds[id] in f'.batches
    ensures ResumesOk(w.(f := f'))
  {
    hide PayloadsOwned;
    forall r | r in w.flights ensures FlightOk(w.trips[w.flights[r].trip], f'.batches, w.flights[r]) {
      assert FlightOk(w.trips[w.flights[r].trip], w.f.batches, w.flights[r]);
    }
    forall x | x in f'.shipments && f'.shipments[x].intent.Some? && f'.shipments[x].intent.value.id in w.intentIds
      ensures w.intentIds[f'.shipments[x].intent.value.id] in f'.batches
    {
      if f'.shipments[x].intent.value.id !in brought {
        assert x in w.f.shipments && FN.SameIntent(w.f.shipments[x], f'.shipments[x]);
      }
    }
  }

  // ----- Fulfillment's own transactions -----

  ghost predicate LeavesLedger(f: F.State, f': F.State) { f'.ledger == f.ledger && f'.batches.Keys == f.batches.Keys }

  lemma OwnDeliver(f: F.State, ev: F.DeliveryEvent, pick: Option<Id>)
    requires F.CanPick(f, ev, pick)
    ensures LeavesLedger(f, F.Deliver(f, ev, pick))
  {
    hide F.CanPick, F.Deliver;
    FP.DeliverShape(f, ev, pick);
  }

  lemma OwnLand(f: F.State, e: Id)
    requires e in f.landing
    ensures LeavesLedger(f, F.LandResult(f, e))
  {
    hide F.Save, F.Land;
    var ev, x, m := f.landing[e], f.landing[e].result.shipment, f.(landing := f.landing - {e});
    FP.SaveShape(m, ev, F.Applied);
    if x in f.shipments { FP.SaveShape(F.Put(m, x, F.Land(f.shipments[x], ev.result)), ev, F.Applied); }
  }

  lemma OwnOrder(f: F.State, e: Id, newId: Id)
    requires F.Enabled(f, F.DoOrderTx(e, newId))
    ensures LeavesLedger(f, F.Apply(f, F.DoOrderTx(e, newId)))
  {
    hide F.OrderTx;
    FP.OrderShaped(f, f.handling[e].0, f.handling[e].1, newId);
  }

  lemma OwnBatch(f: F.State, b: Id, granted: bool)
    ensures F.CanDecide(f, b, granted) ==> LeavesLedger(f, F.Decide(f, b, granted))
    ensures F.CanCommit(f, b) ==> LeavesLedger(f, F.Commit(f, b))
  {
    hide F.IssueAll, F.DropAll, F.Grant, F.CommitReply, F.ReceiptsOf;
  }

  lemma OwnCommand(f: F.State, x: Id, version: nat, c: F.Command)
    ensures LeavesLedger(f, F.Transition(f, x, version, c))
  {
    hide F.TransitionReply, Record;
  }

  lemma OwnIntend(f: F.State, x: Id, id: Id, version: nat)
    ensures LeavesLedger(f, F.Intend(f, x, id, version))
  {
    hide F.IntendReply;
  }

  lemma OwnIntent(f: F.State, x: Id, id: Id, verdict: bool)
    ensures F.CanAsk(f, x) ==> LeavesLedger(f, F.Ask(f, x, verdict))
    ensures F.Answered(f, x, id, false) ==> LeavesLedger(f, F.RejectIntent(f, x, id))
    ensures F.Answered(f, x, id, true) ==> LeavesLedger(f, F.CompleteIntent(f, x, id))
  {
    hide F.CompleteReply, F.Issue;
  }

  lemma OwnRead(f: F.State, ev: F.OrderEvent)
    ensures LeavesLedger(f, F.OrderRead(f, ev))
  {
  }

  lemma OwnAbandon(f: F.State, e: Id)
    ensures LeavesLedger(f, f.(landing := f.landing - {e}))
  {
  }

  lemma OwnLedger(f: F.State, s: F.Step)
    requires Own(s) && F.Enabled(f, s)
    ensures LeavesLedger(f, F.Apply(f, s))
  {
    hide LeavesLedger, F.OrderTx, F.Deliver, F.Decide, F.Commit, F.Transition, F.Intend, F.Ask, F.RejectIntent,
      F.CompleteIntent, F.LandResult, F.StopFree;
    match s
    case DoDeliver(ev, pick) => OwnDeliver(f, ev, pick);
    case DoLand(e) => OwnLand(f, e);
    case DoAbandon(e) => assert LeavesLedger(f, f.(landing := f.landing - {e})) by { OwnAbandon(f, e); }
    case DoOrderTx(e, newId) => OwnOrder(f, e, newId);
    case DoDecide(b, granted) => OwnBatch(f, b, granted);
    case DoCommit(b) => OwnBatch(f, b, true);
    case DoCommand(x, version, c) => OwnCommand(f, x, version, c);
    case DoIntend(x, id, version) => OwnIntend(f, x, id, version);
    case DoAsk(x, verdict) => OwnIntent(f, x, 0, verdict);
    case DoReject(x, id) => OwnIntent(f, x, id, false);
    case DoComplete(x, id) => OwnIntent(f, x, id, true);
    case DoOrderRead(ev) => assert LeavesLedger(f, F.OrderRead(f, ev)) by { OwnRead(f, ev); }
  }

  lemma OwnBrings(w: World, s: F.Step)
    requires Own(s) && Unreserved(w, s)
    ensures forall id | id in FN.Brought(s) :: id !in w.intentIds
  {
  }

  lemma FulfilKeeps(w: World, s: F.Step)
    requires Inv(w) && Own(s) && F.Enabled(w.f, s) && Unreserved(w, s)
    ensures Inv(w.(f := F.Apply(w.f, s)))
  {
    hide FI.Inv, ResumesOk, TI.Inv, Known, Agrees, GoneAll, DatedAll, TripBatches, LedgerOwned, MemoriesOk, IdsOwned,
      FP.Onward, F.Enabled, F.Apply, Own;
    var f' := F.Apply(w.f, s);
    FR.StepKeeps(w.f, s);
    FP.StepOnward(w.f, s);
    OwnLedger(w.f, s);
    LedgerOnward(w.f, f');
    FN.StepIds(w.f, s);
    assert forall id | id in FN.Brought(s) :: id !in w.intentIds by { OwnBrings(w, s); }
    ResumesLater(w, f', FN.Brought(s));
    forall k | k in w.trips
      ensures Agrees(f'.ledger, w.leaked, w.trips[k]) && TripBatches(f'.batches, w.batchIds, w.trips[k])
    {
      assert TripOk(w, w.trips[k]);
      StagesKept(w.f.batches, f'.batches, w.batchIds, w.trips[k]);
    }
    FulfillmentChanged(w, f');
  }

  // ----- The batch call -----

  lemma PrepareShape(f: F.State, q: F.BatchRequest)
    ensures F.Prepare(f, q).ledger == f.ledger && q.id in F.Prepare(f, q).batches
    ensures forall b | b in F.Prepare(f, q).batches && b !in f.batches ::
             b == q.id && F.Prepare(f, q).batches[b].request == q
  {
    hide F.AllDispatchable, F.Hold;
    if F.PrepareReply(f, q) != F.Ok(true) {
    } else if F.AllDispatchable(f, q) {
    } else {
    }
  }

  /** The ids of a payload fulfillment does not know are in no shipment's intent. */
  lemma PayloadFresh(f: F.State, intentIds: map<Id, Id>, q: F.BatchRequest)
    requires ReservedOk(f, intentIds) && PayloadOwned(intentIds, q) && F.DistinctItems(q.items)
    ensures F.Enabled(f, F.DoPrepare(q))
  {
    hide F.DistinctItems;
    if q.id !in f.batches {
      forall i | 0 <= i < |q.items| ensures F.FreshIntent(f, q.items[i].dispatch) {
        assert intentIds[q.items[i].dispatch] == q.id;
      }
    }
  }

  lemma PayloadDistinct(t: T.Trip, d: nat)
    requires TI.Inv(t) && d < |t.dispatches|
    ensures F.DistinctItems(t.dispatches[d].request.items) && t.dispatches[d].request.items != []
    ensures t.dispatches[d].request.trip == t.id
    ensures T.Open(t.dispatches[d].stage) ==> T.Bound(t, t.dispatches[d].request)
  {
    hide TI.OpsOk, TI.MembersOk, TI.Unique, TI.StopsOk, TI.PlacesOk, TI.TotalsOk, TI.RouteOk, TI.CapacityOk,
      TI.ReadsOk, TI.DriveOk, F.DistinctItems;
    assert TI.DispatchOk(t.id, t.status, t.lock, t.version, t.plan, t.members, t.dispatches[d]);
  }

  /** Fulfillment can always take a payload that a resume holds: its ids are new, or it knows them. */
  lemma PayloadReady(w: World, k: Id, d: nat)
    requires Inv(w) && k in w.trips && d < |w.trips[k].dispatches|
    ensures F.Enabled(w.f, F.DoPrepare(w.trips[k].dispatches[d].request))
    ensures PayloadOwned(w.intentIds, w.trips[k].dispatches[d].request)
  {
    hide FI.Inv, TI.Inv, Known, Agrees, GoneAll, DatedAll, LedgerOwned, MemoriesOk, BatchesKnown, IdsOwned, F.Enabled,
      TripBatches, PayloadOwned, ReservedOk, FlightsOk, F.DistinctItems;
    assert TripOk(w, w.trips[k]);
    PayloadDistinct(w.trips[k], d);
    PayloadFresh(w.f, w.intentIds, w.trips[k].dispatches[d].request);
  }

  /** A row whose batch is unknown although a cleared resume holds it is SUBMITTED. */
  lemma SendStage(w: World, r: Id)
    requires Inv(w) && InFlight(w, r) && w.flights[r].cleared && RowHeld(w, r).request.id !in w.f.batches
    ensures RowHeld(w, r).stage == T.Submitted
  {
    hide FI.Inv, TI.Inv, Known, Agrees, GoneAll, DatedAll, LedgerOwned, MemoriesOk, BatchesKnown, IdsOwned,
      PayloadsOwned, ReservedOk;
    assert TripOk(w, TripHeld(w, r)) && FlightOk(TripHeld(w, r), w.f.batches, w.flights[r]);
    assert StageOk(w.f.batches, RowHeld(w, r));
  }

  lemma SendResumes(w: World, q: F.BatchRequest, f': F.State)
    requires ResumesOk(w) && PayloadOwned(w.intentIds, q) && F.Enabled(w.f, F.DoPrepare(q)) && f' == F.Prepare(w.f, q)
    requires FP.BatchesAdvance(w.f.batches, f'.batches) && q.id in f'.batches
    ensures ResumesOk(w.(f := f'))
  {
    hide ResumesOk, F.Prepare, FP.BatchesAdvance;
    FN.PrepareIds(w.f, q);
    ResumesLater(w, f', FN.Brought(F.DoPrepare(q)));
  }

  lemma SendKeeps(w: World, r: Id)
    requires Inv(w) && InFlight(w, r) && w.flights[r].cleared
    ensures Inv(w.(f := F.Prepare(w.f, RowHeld(w, r).request)))
  {
    hide Inv, F.Prepare, F.Enabled, StageOk;
    var (k, d) := (w.flights[r].trip, w.flights[r].d);
    var q := w.trips[k].dispatches[d].request;
    PayloadReady(w, k, d);
    if q.id !in w.f.batches { SendStage(w, r); }
    PreparedKeeps(w, k, d, q);
  }

  lemma PreparedKeeps(w: World, k: Id, d: nat, q: F.BatchRequest)
    requires Inv(w) && k in w.trips && d < |w.trips[k].dispatches| && PayloadOwned(w.intentIds, q)
    requires q.id !in w.f.batches ==> w.trips[k].dispatches[d].stage == T.Submitted
    requires q == w.trips[k].dispatches[d].request && F.Enabled(w.f, F.DoPrepare(q))
    ensures Inv(w.(f := F.Prepare(w.f, q)))
  {
    hide FI.Inv, ResumesOk, TI.Inv, Known, Agrees, GoneAll, DatedAll, LedgerOwned, MemoriesOk, IdsOwned, FP.Onward,
      F.Prepare, StageOk;
    var f' := F.Prepare(w.f, q);
    FI.PrepareKeeps(w.f, q);
    FP.PrepareOnward(w.f, q);
    PrepareShape(w.f, q);
    LedgerOnward(w.f, f');
    SendResumes(w, q, f');
    assert w.trips[k].id == k && TripOk(w, w.trips[k]);
    assert q.id in w.batchIds && w.batchIds[q.id] == (k, d);
    forall l | l in w.trips
      ensures Agrees(f'.ledger, w.leaked, w.trips[l]) && TripBatches(f'.batches, w.batchIds, w.trips[l])
    {
      assert w.trips[l].id == l && TripOk(w, w.trips[l]);
      StagesKept(w.f.batches, f'.batches, w.batchIds, w.trips[l]);
    }
    FulfillmentChanged(w, f');
  }

  // ----- The claim call -----

  /** A receipt is stored for row `i` of trip `k`: a claim, or the release the row asked for. */
  ghost predicate Answers(w: World, k: Id, i: nat, r: F.Receipt) {
    && k in w.trips && i < |w.trips[k].members| && F.Find(w.f.ledger, F.RequestId(r)).None?
    && (r.Claimed? ==>
          && r.claimReq == w.trips[k].members[i].claimReq && T.IsFirst(w.trips[k], i, T.ClaimPending)
          && forall x | x in w.f.ledger :: F.ClaimOf(x) != r.claim)
    && (r.Freed? ==>
          && w.trips[k].members[i].state == T.ReleasePending && w.trips[k].members[i].releaseReq == Some(r.freeReq)
          && w.trips[k].members[i].claim == Some(r.freeReq.claim))
  }

  lemma AnswerAgrees(w: World, k: Id, i: nat, r: F.Receipt, l: Id)
    requires Inv(w) && Answers(w, k, i, r) && l in w.trips
    ensures Agrees(w.f.ledger + [r], w.leaked, w.trips[l])
  {
    hide FI.Inv, ResumesOk, TI.Inv, GoneAll, DatedAll, TripBatches, LedgerOwned, MemoriesOk, BatchesKnown, IdsOwned,
      RowAgrees, RowKnown, T.IsFirst;
    hide GrantedAs, Lost;
    var t, s := w.trips[l], w.trips[k];
    assert TripOk(w, t) && t.id == l && TripOk(w, s) && s.id == k;
    assert FI.LedgerOk(w.f.ledger) by { LedgerOf(w.f); }
    assert RowTold(w.f.ledger, w.leaked, s, i) && RowKnown(w.requests, k, i, s.members[i]);
    SlotOf(w.requests, k, i, s.members[i]);
    if r.Claimed? { FirstState(s, i, T.ClaimPending); }
    assert s.members[i].claimReq.id !in w.leaked by {
      if s.members[i].claimReq.id in w.leaked { LostState(w.f.ledger, s.members[i]); assert false; }
    }
    assert r.Freed? ==> GrantedAs(w.f.ledger, s.members[i], r.freeReq.claim) by {
      if r.Freed? { PendingGranted(w.f.ledger, s, i); }
    }
    forall j | 0 <= j < |t.members| ensures RowTold(w.f.ledger + [r], w.leaked, t, j) {
      assert RowTold(w.f.ledger, w.leaked, t, j) && RowKnown(w.requests, l, j, t.members[j]);
      if t.members[j].claimReq.id in w.leaked {
        LostAppend(w.f.ledger, r, w.requests, t.members[j], l, j, k, i, s.members[i]);
      } else if r.Claimed? {
        ClaimAppendRow(w.f.ledger, r, w.requests, t, j, k, i);
      } else {
        ReleaseAppendRow(w.f.ledger, r, w.requests, t, j, k, i, s.members[i]);
      }
    }
  }

  lemma LostState(ledger: seq<F.Receipt>, m: T.Member)
    requires Lost(ledger, m)
    ensures m.state == T.Released
  {
  }

  lemma FirstState(t: T.Trip, i: nat, state: T.MemberState)
    requires T.IsFirst(t, i, state)
    ensures t.members[i].state == state
  {
  }

  lemma PendingGranted(ledger: seq<F.Receipt>, t: T.Trip, i: nat)
    requires i < |t.members| && t.members[i].state == T.ReleasePending && RowAgrees(ledger, t, i)
    ensures t.members[i].claim.Some? && GrantedAs(ledger, t.members[i], t.members[i].claim.value)
  {
    hide GrantedAs, L.ReleasedIn;
  }

  lemma SlotOf(requests: map<Id, Slot>, k: Id, i: nat, m: T.Member)
    requires RowKnown(requests, k, i, m)
    ensures m.claimReq.id in requests && requests[m.claimReq.id] == Slot(k, i, false)
    ensures m.releaseReq.Some? ==>
             m.releaseReq.value.id in requests && requests[m.releaseReq.value.id] == Slot(k, i, true)
  {
  }

  lemma LedgerOf(f: F.State)
    requires FI.Inv(f)
    ensures FI.LedgerOk(f.ledger)
  {
    hide FI.Rows, FI.Indexed, FI.IntentIdsUnique, FI.BatchesOk, FI.OrdersOk, FI.InboxOk, FI.LedgerOk;
  }

  lemma AnswerOwned(w: World, k: Id, i: nat, r: F.Receipt)
    requires Inv(w) && Answers(w, k, i, r)
    ensures LedgerOwned(w.trips, w.requests, w.f.ledger + [r]) && F.RequestId(r) in w.requests
    ensures w.requests[F.RequestId(r)] == Slot(k, i, r.Freed?)
  {
    hide FI.Inv, ResumesOk, TI.Inv, GoneAll, DatedAll, TripBatches, MemoriesOk, BatchesKnown, IdsOwned, Agrees,
      T.IsFirst;
    assert w.trips[k].id == k && TripOk(w, w.trips[k]);
    assert RowKnown(w.requests, k, i, w.trips[k].members[i]);
    forall x | x in w.f.ledger + [r] ensures Owned(w.trips, w.requests, x) {
      if x in w.f.ledger { assert Owned(w.trips, w.requests, x); }
    }
  }

  lemma AnswerMemories(w: World, k: Id, i: nat, r: F.Receipt)
    requires Inv(w) && Answers(w, k, i, r) && k !in w.mem
    ensures MemoriesOk(w.trips, w.f.ledger + [r], w.mem)
  {
    hide FI.Inv, ResumesOk, TI.Inv, GoneAll, DatedAll, TripBatches, BatchesKnown, IdsOwned, Agrees, MemoOk,
      LedgerOwned, Known;
    AnswerOwned(w, k, i, r);
    forall l | l in w.mem ensures l in w.trips && MemoOk(w.f.ledger + [r], w.trips[l], w.mem[l].0, w.mem[l].1) {
      assert TripOk(w, w.trips[l]) && w.trips[l].id == l && MemoOk(w.f.ledger, w.trips[l], w.mem[l].0, w.mem[l].1);
      MemoAppend(w.f.ledger, r, w.requests, w.trips[l], w.mem[l].0, w.mem[l].1);
    }
  }

  /** One more receipt in the ledger, and what the processor now remembers. */
  lemma Answered(w: World, k: Id, i: nat, r: F.Receipt, f': F.State)
    requires Inv(w) && k !in w.mem && Answers(w, k, i, r) && FI.Inv(f') && FP.Onward(w.f, f')
    requires f'.ledger == w.f.ledger + [r] && f'.batches == w.f.batches
    requires FN.IdsFrom(w.f.shipments, f'.shipments, {})
    ensures Inv(w.(f := f'))
  {
    hide FI.Inv, ResumesOk, TI.Inv, Known, Agrees, GoneAll, DatedAll, TripBatches, LedgerOwned, MemoriesOk, FP.Onward,
      Answers, BatchesKnown, IdsOwned;
    AnswerOwned(w, k, i, r);
    AnswerMemories(w, k, i, r);
    LedgerOnward(w.f, f');
    ResumesLater(w, f', {});
    forall l | l in w.trips
      ensures Agrees(f'.ledger, w.leaked, w.trips[l]) && TripBatches(f'.batches, w.batchIds, w.trips[l])
    {
      AnswerAgrees(w, k, i, r, l);
      assert TripOk(w, w.trips[l]);
    }
    FulfillmentChanged(w, f');
  }

  lemma Remembered(w: World, k: Id, i: nat, reply: F.Reply<F.Receipt>, replied: bool)
    requires Inv(w) && k in w.trips && (replied ==> MemoOk(w.f.ledger, w.trips[k], i, reply))
    ensures Inv(w.(mem := Remember(w, k, i, reply, replied)))
  {
    hide FI.Inv, ResumesOk, TI.Inv, Known, Agrees, GoneAll, DatedAll, TripBatches, LedgerOwned, BatchesKnown,
      IdsOwned, MemoOk;
    var w' := w.(mem := Remember(w, k, i, reply, replied));
    ResumesAside(w, w');
    forall l | l in w'.trips ensures w'.trips[l].id == l && TripOk(w', w'.trips[l]) { assert TripOk(w, w.trips[l]); }
  }

  lemma ClaimShape(f: F.State, q: F.ClaimRequest, newId: Id)
    ensures F.Claim(f, q, newId).batches == f.batches
    ensures F.Claim(f, q, newId) != f ==> F.Find(f.ledger, q.id).None? && F.ClaimReply(f, q, newId).Ok?
    ensures F.Find(f.ledger, q.id).None? && F.ClaimReply(f, q, newId).Ok? ==>
              F.Claim(f, q, newId).ledger == f.ledger + [F.ClaimReply(f, q, newId).value]
    ensures F.ClaimReply(f, q, newId).Ok? ==>
             F.ClaimReply(f, q, newId).value.Claimed? && F.ClaimReply(f, q, newId).value.claimReq == q
    ensures F.Find(f.ledger, q.id).None? && F.ClaimReply(f, q, newId).Ok? ==>
             F.ClaimReply(f, q, newId).value.claim == newId
    ensures F.Find(f.ledger, q.id).Some? ==> F.Claim(f, q, newId) == f
  {
  }

  /** A refusal of the first waiting row's request means that it was never granted. */
  lemma ClaimAnswer(f: F.State, t: T.Trip, i: nat, newId: Id, f': F.State)
    requires T.Adding(t) && T.IsFirst(t, i, T.ClaimPending) && RowAgrees(f.ledger, t, i)
    requires f' == F.Claim(f, t.members[i].claimReq, newId)
    ensures MemoOk(f'.ledger, t, i, F.ClaimReply(f, t.members[i].claimReq, newId))
  {
    hide L.ReleasedIn;
    var q := t.members[i].claimReq;
    ClaimShape(f, q, newId);
    if F.Find(f.ledger, q.id).None? && F.ClaimReply(f, q, newId).Ok? {
      FindGrows(f.ledger, F.ClaimReply(f, q, newId).value, q.id);
    }
  }

  lemma WaitingTold(w: World, t: T.Trip, i: nat)
    requires Agrees(w.f.ledger, w.leaked, t) && T.IsFirst(t, i, T.ClaimPending)
    ensures RowTold(w.f.ledger, w.leaked, t, i) && t.members[i].claimReq.id !in w.leaked
  {
    hide RowAgrees, InDoubt;
    assert RowTold(w.f.ledger, w.leaked, t, i);
  }

  lemma CallClaimKeeps(w: World, k: Id, i: nat, newId: Id, replied: bool)
    requires Inv(w) && k in w.trips && CanCallClaim(w, k, i, newId)
    ensures Inv(ClaimCalled(w, k, i, newId, replied))
  {
    hide FI.Inv, ResumesOk, TI.Inv, Known, GoneAll, DatedAll, TripBatches, LedgerOwned, MemoriesOk, FP.Onward,
      BatchesKnown, IdsOwned, Lost, F.Claim, F.ClaimReply, RowAgrees, MemoOk;
    var t := w.trips[k];
    var q := t.members[i].claimReq;
    var f' := F.Claim(w.f, q, newId);
    assert t.id == k && TripOk(w, t);
    ClaimShape(w.f, q, newId);
    if f' != w.f {
      FI.ClaimKeeps(w.f, q, newId);
      FP.ClaimOnward(w.f, q, newId);
      FN.ClaimIds(w.f, q, newId);
      Answered(w, k, i, F.ClaimReply(w.f, q, newId).value, f');
    }
    assert RowTold(w.f.ledger, w.leaked, t, i) && q.id !in w.leaked by { WaitingTold(w, t, i); }
    ClaimAnswer(w.f, t, i, newId, f');
    Remembered(w.(f := f'), k, i, F.ClaimReply(w.f, q, newId), replied);
  }

  // ----- The release call -----

  lemma ReleaseShape(f: F.State, q: F.ReleaseRequest)
    ensures F.Release(f, q).batches == f.batches
    ensures F.Release(f, q) != f ==> F.Find(f.ledger, q.id).None? && F.ReleaseReply(f, q).Ok?
    ensures F.Find(f.ledger, q.id).None? && F.ReleaseReply(f, q).Ok? ==>
             F.Release(f, q).ledger == f.ledger + [F.ReleaseReply(f, q).value]
    ensures F.ReleaseReply(f, q).Ok? ==> F.ReleaseReply(f, q).value.Freed? && F.ReleaseReply(f, q).value.freeReq == q
    ensures F.ReleaseReply(f, q).Ok? && F.Find(f.ledger, q.id).Some? ==> F.ReleaseReply(f, q).value in f.ledger
  {
  }

  lemma FreedMeans(ledger: seq<F.Receipt>, r: F.Receipt)
    requires r in ledger && r.Freed?
    ensures L.ReleasedIn(ledger, r.freeReq.claim)
  {
  }

  lemma ReleaseAnswer(f: F.State, t: T.Trip, i: nat, q: F.ReleaseRequest, f': F.State)
    requires T.Releasing(t) && T.IsFirst(t, i, T.ReleasePending) && t.members[i].claim == Some(q.claim)
    requires f' == F.Release(f, q) && F.ReleaseReply(f, q).Ok?
    ensures MemoOk(f'.ledger, t, i, F.ReleaseReply(f, q))
  {
    hide L.ReleasedIn, F.Release, F.ReleaseReply;
    ReleaseShape(f, q);
    var r := F.ReleaseReply(f, q).value;
    assert r in f'.ledger;
    FreedMeans(f'.ledger, r);
  }

  lemma ReleaseNames(t: T.Trip, i: nat)
    requires TI.Inv(t) && T.IsFirst(t, i, T.ReleasePending)
    ensures t.members[i].releaseReq.Some? && t.members[i].claim == Some(t.members[i].releaseReq.value.claim)
  {
    hide TI.OpsOk, TI.Unique, TI.StopsOk, TI.PlacesOk, TI.TotalsOk, TI.RouteOk, TI.CapacityOk, TI.ReadsOk,
      TI.DispatchesOk, TI.DriveOk;
    assert TI.MemberOk(t.id, t.lock, t.ops, t.status, t.stops, t.members[i]);
  }

  lemma CallReleaseKeeps(w: World, k: Id, i: nat, replied: bool)
    requires Inv(w) && k in w.trips && CanCallRelease(w, k, i)
    ensures Inv(ReleaseCalled(w, k, i, replied))
  {
    hide FI.Inv, ResumesOk, TI.Inv, Known, GoneAll, DatedAll, TripBatches, LedgerOwned, MemoriesOk, FP.Onward,
      BatchesKnown, IdsOwned, F.Release, F.ReleaseReply, Agrees, MemoOk;
    var t := w.trips[k];
    var q := t.members[i].releaseReq.value;
    var f' := F.Release(w.f, q);
    assert t.id == k && TripOk(w, t);
    ReleaseNames(t, i);
    ReleaseShape(w.f, q);
    if f' != w.f {
      FI.ReleaseKeeps(w.f, q);
      FP.ReleaseOnward(w.f, q);
      FN.ReleaseIds(w.f, q);
      Answered(w, k, i, F.ReleaseReply(w.f, q).value, f');
    }
    if F.ReleaseReply(w.f, q).Ok? { ReleaseAnswer(w.f, t, i, q, f'); }
    Remembered(w.(f := f'), k, i, F.ReleaseReply(w.f, q), replied && F.ReleaseReply(w.f, q).Ok?);
  }

  // ----- Every step, every run -----

  lemma ResumesAside(w: World, w': World)
    requires ResumesOk(w) && w'.trips == w.trips && w'.f == w.f && w'.flights == w.flights
    requires w'.intentIds == w.intentIds
    ensures ResumesOk(w')
  {
  }

  lemma ResumesCreate(w: World, k: Id, assignment: Option<Id>)
    requires ResumesOk(w) && k !in w.trips
    ensures ResumesOk(w.(trips := w.trips[k := T.NewTrip(k, assignment)]))
  {
    hide FlightOk, PayloadOwned, ReservedOk;
  }

  lemma CreateKeeps(w: World, k: Id, assignment: Option<Id>)
    requires Inv(w) && k !in w.trips
    ensures Inv(w.(trips := w.trips[k := T.NewTrip(k, assignment)]))
  {
    hide FI.Inv, ResumesOk, TI.Inv, MemoOk, BatchesKnown, StageOk, RowTold, Dated;
    TI.NewInv(k, assignment);
    ResumesCreate(w, k, assignment);
    var w' := w.(trips := w.trips[k := T.NewTrip(k, assignment)]);
    forall l | l in w'.trips ensures w'.trips[l].id == l && TripOk(w', w'.trips[l]) {
      if l != k { assert TripOk(w, w.trips[l]); }
    }
    forall r | r in w.f.ledger ensures Owned(w'.trips, w'.requests, r) { assert Owned(w.trips, w.requests, r); }
  }

  lemma AsideKeeps(w: World, mem': map<Id, (nat, F.Reply<F.Receipt>)>, seen': map<Id, nat>)
    requires Inv(w) && forall k | k in mem' :: k in w.mem && mem'[k] == w.mem[k]
    ensures Inv(w.(mem := mem', seen := seen'))
  {
    hide FI.Inv, ResumesOk, TI.Inv, Known, Agrees, GoneAll, DatedAll, TripBatches, LedgerOwned, BatchesKnown,
      IdsOwned, MemoOk;
    var w' := w.(mem := mem', seen := seen');
    ResumesAside(w, w');
    forall l | l in w'.trips ensures w'.trips[l].id == l && TripOk(w', w'.trips[l]) { assert TripOk(w, w.trips[l]); }
  }

  lemma LocalKeeps(w: World, k: Id, s: T.TripStep)
    requires Inv(w) && k in w.trips && CanLocal(w, k, s)
    ensures Inv(Put(w, T.Do(w.trips[k], s)).(batchIds := Accepting(w, k, s), intentIds := Reserving(w, s)))
  {
    hide Inv, Put, T.Do, T.Guard, NewIds, Elsewhere;
    PutShape(w, T.Do(w.trips[k], s));
    if s.DoAdd? {
      AddKeeps(w, k, s);
    } else if s.DoRemove? || s.DoCancel? {
      LocalLeaveKeeps(w, k, s);
    } else {
      LocalQuietKeeps(w, k, s);
    }
  }

  lemma MemoOf(w: World, k: Id)
    requires Inv(w) && k in w.mem
    ensures k in w.trips && MemoOk(w.f.ledger, w.trips[k], w.mem[k].0, w.mem[k].1)
  {
    hide FI.Inv, ResumesOk, TripsOk, LedgerOwned, BatchesKnown, IdsOwned, MemoOk;
  }

  lemma BotchKeeps(w: World, k: Id, newIds: seq<Id>)
    requires Inv(w) && HasClaim(w, k) && NewIds(w, newIds) && T.Guard(w.trips[k], T.DoCompensate(None, newIds))
    ensures Inv(Botched(w, k, newIds))
  {
    hide Inv, Stored, T.Do, T.Guard, NewIds;
    MemoOf(w, k);
    KeepCompensationKeeps(w, k, w.mem[k].0, w.mem[k].1, None, newIds, Botched(w, k, newIds).leaked);
  }

  lemma StepKeeps(w: World, step: Step)
    requires Inv(w) && Enabled(w, step)
    ensures Inv(Apply(w, step))
  {
    hide Inv, Put, Stored, T.Do, T.Guard, NewIds, F.Enabled, F.Apply, CanLocal, CanNotice, Noticed, Botched,
      ClaimCalled, ReleaseCalled, MemoOk, Accepting, F.Prepare, CanCallClaim, CanCallRelease, Own, Passed, Rejected,
      Alone, Unreserved, Reserving, Complete;
    match step
    case Create(k, assignment) => CreateKeeps(w, k, assignment);
    case Local(k, s) => LocalKeeps(w, k, s);
    case Notice(k, i, entry, request) => NoticeKeeps(w, k, i, entry, request);
    case Miss(x, entry) => AsideKeeps(w, w.mem, w.seen[x := w.f.shipments[x].history[entry].version]);
    case CallClaim(k, i, newId, replied) => CallClaimKeeps(w, k, i, newId, replied);
    case CallRelease(k, i, replied) => CallReleaseKeeps(w, k, i, replied);
    case KeepClaim(k) => KeepClaimKeeps(w, k, w.mem[k].0, w.mem[k].1.value);
    case KeepMismatch(k, newIds) =>
      MemoOf(w, k);
      KeepCompensationKeeps(w, k, w.mem[k].0, w.mem[k].1, Some((w.mem[k].0, w.mem[k].1.value)), newIds, w.leaked);
      StoredLeaks(w, T.Do(w.trips[k], T.DoCompensate(Some((w.mem[k].0, w.mem[k].1.value)), newIds)));
    case KeepRefusal(k, newIds) =>
      MemoOf(w, k);
      KeepCompensationKeeps(w, k, w.mem[k].0, w.mem[k].1, None, newIds, w.leaked);
      StoredLeaks(w, T.Do(w.trips[k], T.DoCompensate(None, newIds)));
    case Botch(k, newIds) => BotchKeeps(w, k, newIds);
    case KeepRelease(k) => KeepReleaseKeeps(w, k, w.mem[k].0, w.mem[k].1);
    case Crash(k) => AsideKeeps(w, w.mem - {k}, w.seen);
    case Fulfil(s) => FulfilKeeps(w, s);
    case Resume(r, k, d) => ResumeKeeps(w, r, k, d);
    case Clear(r) => ClearKeeps(w, r);
    case Send(r) => SendKeeps(w, r);
    case Receive(r) => ReceiveKeeps(w, w.flights[r].trip, w.flights[r].d, Granted(w, RowHeld(w, r).request));
    case Reject(r) => RejectKeeps(w, r);
    case Drop(r) => DropKeeps(w, r);
  }

  lemma {:induction false} RunKeeps(w: World, steps: seq<Step>, w': World)
    requires Inv(w) && Runs(w, steps, w')
    ensures Inv(w')
    decreases |steps|
  {
    hide Inv, Enabled, Apply;
    if steps != [] {
      StepKeeps(w, steps[0]);
      RunKeeps(Apply(w, steps[0]), steps[1..], w');
    }
  }
}
