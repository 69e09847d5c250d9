/** Delivery results across the two services: what becomes of the result a driver action announced. */
module WorldDelivery {
  import opened Shipments
  import F = Fulfillment
  import FI = FulfillmentInvariant
  import FP = FulfillmentProgress
  import T = Trips
  import TI = TripInvariant
  import opened World
  import opened WorldInvariant
  import opened WorldSteps
  import opened WorldCalls
  import opened WorldTheorems
  import opened WorldDispatch

  /** A driver action of the trip announced this result. */
  predicate Emitted(trips: map<Id, T.Trip>, r: F.Result) {
    r.trip in trips && r.stop == r.shipment && T.Attempt(r.stop, r.delivered, r.detail) in trips[r.trip].attempts
  }

  /** Every delivery event handled along the run carries a result that had been announced. */
  ghost predicate Genuine(w: World, steps: seq<Step>)
    decreases |steps|
  {
    steps == [] || !Enabled(w, steps[0]) || (Authentic(w, steps[0]) && Genuine(Apply(w, steps[0]), steps[1..]))
  }

  predicate Authentic(w: World, step: Step) {
    step.Fulfil? && step.step.DoDeliver? ==> Emitted(w.trips, step.step.delivery.result)
  }

  // ----- Attempts -----

  lemma AttemptsGrow(t: T.Trip, step: T.TripStep)
    requires T.Guard(t, step)
    ensures t.attempts <= T.Do(t, step).attempts
  {
    hide T.IsFirst, T.NoneLeft, T.CanRemove, T.InputReady, T.CanSelect, T.LeaveAll, T.Matches, T.Permutation, T.IsNext,
      T.Results, T.ActiveWeight, T.ActiveVolume, T.Places, T.Picked, T.CanUndo;
  }

  lemma EmittedStays(w: World, step: Step, r: F.Result)
    requires Inv(w) && Enabled(w, step) && Emitted(w.trips, r)
    ensures Emitted(Apply(w, step).trips, r)
  {
    hide Inv, Enabled, Apply, T.Guard, T.Do;
    TripWrites(w, step);
    if TripWrite(w, step).Some? {
      var (k, s) := TripWrite(w, step).value;
      TripIds(w, k);
      TI.DoKeepsId(w.trips[k], s);
      AttemptsGrow(w.trips[k], s);
      if k == r.trip { StillThere(w.trips[k].attempts, T.Do(w.trips[k], s).attempts, r); }
    }
  }

  lemma StillThere(a: seq<T.Attempt>, b: seq<T.Attempt>, r: F.Result)
    requires a <= b && T.Attempt(r.stop, r.delivered, r.detail) in a
    ensures T.Attempt(r.stop, r.delivered, r.detail) in b
  {
    var i :| 0 <= i < |a| && a[i] == T.Attempt(r.stop, r.delivered, r.detail);
    assert b[i] == a[i];
  }

  /** A trip that has been driven is on the road, and its attempts are those of the first stops. */
  lemma DrivenStops(t: T.Trip)
    requires TI.Inv(t) && t.attempts != []
    ensures TI.OnRoad(t.status) && t.plan.Some? && T.Distinct(t.plan.value.ordered)
    ensures |t.attempts| <= |t.plan.value.ordered|
    ensures forall i | 0 <= i < |t.attempts| :: t.attempts[i].stop == t.plan.value.ordered[i]
    ensures forall i | 0 <= i < |t.attempts| :: t.attempts[i].stop in t.stops && t.stops[t.attempts[i].stop].live
  {
    hide TI.OpsOk, TI.MembersOk, TI.Unique, TI.StopsOk, TI.PlacesOk, TI.TotalsOk, TI.CapacityOk, TI.ReadsOk,
      TI.DispatchesOk, TI.RowsListed;
  }

  lemma TripInv(w: World, k: Id)
    requires Inv(w) && k in w.trips
    ensures w.trips[k].id == k && TI.Inv(w.trips[k])
  {
    hide Inv, FI.Inv, TI.Inv, Known, Agrees, GoneAll, DatedAll, TripBatches;
    TripOf(w, k);
  }

  /** One result per stop. */
  lemma OneResult(w: World, a: F.Result, b: F.Result)
    requires Inv(w) && Emitted(w.trips, a) && Emitted(w.trips, b) && F.SameKey(a, b)
    ensures a == b
  {
    hide Inv, TI.Inv;
    var t := w.trips[a.trip];
    TripInv(w, a.trip);
    DrivenStops(t);
    var i :| 0 <= i < |t.attempts| && t.attempts[i] == T.Attempt(a.stop, a.delivered, a.detail);
    var j :| 0 <= j < |t.attempts| && t.attempts[j] == T.Attempt(b.stop, b.delivered, b.detail);
    assert t.plan.value.ordered[i] == t.plan.value.ordered[j];
  }

  /** The row behind a live stop of a trip on the road. */
  lemma BackedRow(t: T.Trip, x: Id) returns (j: nat)
    requires TI.Inv(t) && x in t.stops && t.stops[x].live && T.AllActive(t.members)
    ensures j < |t.members| && t.members[j].shipment == x && t.members[j].state == T.Active
  {
    hide TI.OpsOk, TI.MembersOk, TI.Unique, TI.PlacesOk, TI.TotalsOk, TI.CapacityOk, TI.ReadsOk, TI.RouteOk,
      TI.DispatchesOk, TI.RowsListed, TI.DriveOk;
    assert TI.Backs(t.members, x);
    j :| 0 <= j < |t.members| && t.members[j].shipment == x && t.members[j].state in {T.Active, T.ReleasePending};
    assert T.Present(t.members[j]);
  }

  lemma IssuedStatus(f: F.State, x: Id)
    requires FI.Inv(f) && x in f.shipments && f.shipments[x].issued
    ensures DispatchedEver(f.shipments[x].status)
  {
    hide FI.Indexed, FI.IntentIdsUnique, FI.LedgerAgrees, FI.OrdersOk, FI.InboxOk, FI.BatchesOk, HistoryOk;
    FI.RowAt(f, x);
  }

  /** The shipment an announced result names is held by that trip, and has left. */
  lemma EmittedRow(w: World, r: F.Result)
    requires Inv(w) && Emitted(w.trips, r)
    ensures r.shipment in w.f.shipments && w.f.shipments[r.shipment].trip == Some(r.trip)
    ensures DispatchedEver(w.f.shipments[r.shipment].status)
  {
    hide Inv, FI.Inv, TI.Inv, TripOk, T.Matches, T.AllActive, DispatchedBy;
    var t := w.trips[r.trip];
    TripInv(w, r.trip);
    StateOf(w);
    DrivenStops(t);
    var d := RoadDispatched(w, r.trip);
    var j := BackedRow(t, r.shipment);
    ActiveRow(w, r.trip, j);
    IssuedItem(w.f, t, d, j);
    IssuedStatus(w.f, r.shipment);
  }

  lemma ActiveRow(w: World, k: Id, j: nat)
    requires Inv(w) && k in w.trips && j < |w.trips[k].members| && w.trips[k].members[j].state == T.Active
    ensures w.trips[k].members[j].shipment in w.f.shipments
    ensures w.f.shipments[w.trips[k].members[j].shipment].trip == Some(k)
  {
    hide Inv, FI.Inv, TI.Inv, Known, GoneAll, TripBatches, Agrees, DatedAll;
    TripOf(w, k);
    MembersOf(w.trips[k]);
    ActiveHeld(w, w.trips[k], j);
  }

  lemma IssuedItem(f: F.State, t: T.Trip, d: nat, j: nat)
    requires d < |t.dispatches| && DispatchedBy(f, t.dispatches[d].request)
    requires T.Matches(t.members, t.dispatches[d].request) && j < |t.members| && t.members[j].state == T.Active
    ensures t.members[j].shipment in f.shipments && f.shipments[t.members[j].shipment].issued
  {
    hide T.Carries;
    var q := t.dispatches[d].request;
    assert T.Present(t.members[j]) && T.Lists(q.items, t.members[j].shipment);
    var i :| 0 <= i < |q.items| && q.items[i].shipment == t.members[j].shipment;
  }

  // ----- What the inbox holds -----

  /** A receipt of an announced result: never deferred, applied or a duplicate only if it is the
      shipment's status, a conflict only if the shipment has reached its end. */
  ghost predicate RowTrue(trips: map<Id, T.Trip>, shipments: map<Id, Shipment>, row: F.InboxRow) {
    var r := row.event.result;
    && Emitted(trips, r) && row.outcome != F.Deferred && r.shipment in shipments
    && (F.Live(row.outcome) ==> shipments[r.shipment].status == F.Landed(r))
    && Terminal(shipments[r.shipment].status)
  }

  ghost predicate InboxTrue(w: World) {
    && (forall e | e in w.f.landing :: Emitted(w.trips, w.f.landing[e].result))
    && (forall e | e in w.f.inbox :: RowTrue(w.trips, w.f.shipments, w.f.inbox[e]))
  }

  /** What the inbox knows of the event's stop when all its receipts are of announced results. */
  ghost predicate StopTrue(s: F.State, ev: F.DeliveryEvent) {
    && ev.result.shipment in s.shipments && s.shipments[ev.result.shipment].trip == Some(ev.result.trip)
    && DispatchedEver(s.shipments[ev.result.shipment].status)
    && (forall e | e in s.inbox :: s.inbox[e].outcome != F.Deferred)
    && (forall e | e in s.inbox && F.SameKey(s.inbox[e].event.result, ev.result) && F.Live(s.inbox[e].outcome) ::
          s.inbox[e].event.result == ev.result && s.shipments[ev.result.shipment].status == F.Landed(ev.result))
  }

  ghost predicate AnyLive(s: F.State, ev: F.DeliveryEvent) { exists e :: F.Candidate(s, ev, e) }

  /** What handling the event does then. */
  ghost function Handled(s: F.State, ev: F.DeliveryEvent): F.State
    requires ev.result.shipment in s.shipments
  {
    if ev.id in s.inbox then s
    else if s.shipments[ev.result.shipment].status == Dispatched then s.(landing := s.landing[ev.id := ev])
    else F.Save(s, ev, if AnyLive(s, ev) then F.Duplicate else F.Conflict)
  }

  lemma DeliverFate(s: F.State, ev: F.DeliveryEvent, pick: Option<Id>)
    requires F.CanPick(s, ev, pick) && StopTrue(s, ev)
    ensures F.Deliver(s, ev, pick) == Handled(s, ev)
  {
    hide F.SameKey, F.Save;
    if pick.Some? {
      assert F.Candidate(s, ev, pick.value);
      assert AnyLive(s, ev);
    } else {
      assert !AnyLive(s, ev);
    }
  }

  lemma StopIsTrue(w: World, ev: F.DeliveryEvent)
    requires Inv(w) && InboxTrue(w) && Emitted(w.trips, ev.result)
    ensures StopTrue(w.f, ev)
  {
    hide Inv, Emitted, Terminal;
    EmittedRow(w, ev.result);
    forall e | e in w.f.inbox && F.SameKey(w.f.inbox[e].event.result, ev.result) && F.Live(w.f.inbox[e].outcome)
      ensures w.f.inbox[e].event.result == ev.result
      ensures w.f.shipments[ev.result.shipment].status == F.Landed(ev.result)
    {
      assert RowTrue(w.trips, w.f.shipments, w.f.inbox[e]);
      OneResult(w, w.f.inbox[e].event.result, ev.result);
    }
  }

  // ----- Along every genuine run -----

  ghost predicate SameResults(s: F.State, s': F.State) { s'.inbox == s.inbox && s'.landing == s.landing }

  lemma PutKeepsResults(s: F.State, x: Id, sh: Shipment)
    ensures SameResults(s, F.Put(s, x, sh))
  {
  }

  lemma ClaimKeepsResults(s: F.State, q: F.ClaimRequest, newId: Id)
    ensures SameResults(s, F.Claim(s, q, newId))
  {
    hide F.ClaimReply, F.Find, F.Put;
    if F.Find(s.ledger, q.id).None? && F.ClaimReply(s, q, newId).Ok? {
      assert q.shipment in s.shipments by { GrantOnShipment(s, q, newId); }
      var sh := s.shipments[q.shipment];
      PutKeepsResults(s, q.shipment, sh.(trip := Some(q.trip), claim := Some(newId), version := sh.version + 1));
    }
  }

  lemma GrantOnShipment(s: F.State, q: F.ClaimRequest, newId: Id)
    requires F.Find(s.ledger, q.id).None? && F.ClaimReply(s, q, newId).Ok?
    ensures q.shipment in s.shipments
  {
  }

  lemma ReleaseKeepsResults(s: F.State, q: F.ReleaseRequest)
    ensures SameResults(s, F.Release(s, q))
  {
    hide F.ReleaseReply, F.Find, F.Put;
    if F.Find(s.ledger, q.id).None? && F.ReleaseReply(s, q).Ok? {
      assert q.shipment in s.shipments by { FreedShipment(s, q); }
      var sh := s.shipments[q.shipment];
      PutKeepsResults(s, q.shipment, sh.(trip := None, claim := None, version := sh.version + 1));
    }
  }

  lemma FreedShipment(s: F.State, q: F.ReleaseRequest)
    requires F.Find(s.ledger, q.id).None? && F.ReleaseReply(s, q).Ok?
    ensures q.shipment in s.shipments
  {
  }

  lemma CommandKeepsResults(s: F.State, x: Id, n: nat, c: F.Command)
    ensures SameResults(s, F.Transition(s, x, n, c))
  {
    hide F.Put, Record;
    if F.TransitionReply(s, x, n, c).Ok? {
      PutKeepsResults(s, x, Record(s.shipments[x], F.Target(c), TransitionTo(F.Target(c)).value.1));
    }
  }

  lemma IntendKeepsResults(s: F.State, x: Id, id: Id, n: nat)
    ensures SameResults(s, F.Intend(s, x, id, n))
  {
    hide F.Put;
    if F.IntendReply(s, x, id, n) == F.Ok(true) {
      PutKeepsResults(s, x, s.shipments[x].(intent := Some(Intent(id, None, IntentPending, false, None))));
    }
  }

  lemma AskKeepsResults(s: F.State, x: Id, verdict: bool)
    requires F.CanAsk(s, x)
    ensures SameResults(s, F.Ask(s, x, verdict))
  {
    hide F.Put;
    var i := s.shipments[x].intent.value;
    PutKeepsResults(s, x, s.shipments[x].(intent := Some(i.(verdict := Some(verdict)))));
  }

  lemma RejectKeepsResults(s: F.State, x: Id, id: Id)
    requires F.Answered(s, x, id, false)
    ensures SameResults(s, F.RejectIntent(s, x, id))
  {
    hide F.Put;
    var sh := s.shipments[x];
    PutKeepsResults(s, x, sh.(intent := Some(sh.intent.value.(status := IntentRejected))));
  }

  lemma CompleteKeepsResults(s: F.State, x: Id, id: Id)
    requires F.Answered(s, x, id, true)
    ensures SameResults(s, F.CompleteIntent(s, x, id))
  {
    hide F.Put, F.CompleteReply, F.Issue;
    PutKeepsResults(s, x, F.Issue(s.shipments[x]));
  }

  lemma PrepareKeepsResults(s: F.State, q: F.BatchRequest)
    ensures SameResults(s, F.Prepare(s, q))
  {
    hide F.AllDispatchable, F.Hold;
    if F.PrepareReply(s, q) == F.Ok(true) && F.AllDispatchable(s, q) { ItemsExist(s, q); }
  }

  lemma DecideKeepsResults(s: F.State, b: Id, granted: bool)
    requires F.CanDecide(s, b, granted)
    ensures SameResults(s, F.Decide(s, b, granted))
  {
    hide F.Grant;
  }

  lemma CommitKeepsResults(s: F.State, b: Id)
    requires F.CanCommit(s, b)
    ensures SameResults(s, F.Commit(s, b))
  {
    hide F.IssueAll, F.DropAll, F.CommitReply, F.ReceiptsOf;
  }

  lemma ItemsExist(s: F.State, q: F.BatchRequest)
    requires F.AllDispatchable(s, q)
    ensures forall i | 0 <= i < |q.items| :: q.items[i].shipment in s.shipments
  {
    forall i | 0 <= i < |q.items| ensures q.items[i].shipment in s.shipments {
      assert F.Dispatchable(s, q.trip, q.items[i]);
    }
  }

  /** What a fulfillment transaction does to results that are filed or on their way. */
  lemma InboxKept(s: F.State, step: F.Step)
    requires F.Enabled(s, step) && !step.DoDeliver? && !step.DoLand? && !step.DoAbandon?
    ensures SameResults(s, F.Apply(s, step))
  {
    hide F.OrderTx, F.Claim, F.Release, F.Transition, F.Intend, F.Ask, F.RejectIntent, F.CompleteIntent, F.Prepare,
      F.Decide, F.Commit, F.FreshIntent, F.FreshClaim, F.StopFree;
    match step
    case DoClaim(q, newId) => ClaimKeepsResults(s, q, newId);
    case DoRelease(q) => ReleaseKeepsResults(s, q);
    case DoOrderTx(e, newId) => FP.OrderShaped(s, s.handling[e].0, s.handling[e].1, newId);
    case DoCommand(x, version, c) => CommandKeepsResults(s, x, version, c);
    case DoIntend(x, id, version) => IntendKeepsResults(s, x, id, version);
    case DoAsk(x, verdict) => AskKeepsResults(s, x, verdict);
    case DoReject(x, id) => RejectKeepsResults(s, x, id);
    case DoComplete(x, id) => CompleteKeepsResults(s, x, id);
    case DoPrepare(q) => PrepareKeepsResults(s, q);
    case DoDecide(b, granted) => DecideKeepsResults(s, b, granted);
    case DoCommit(b) => CommitKeepsResults(s, b);
    case _ =>
  }

  lemma RowStays(w: World, step: Step, row: F.InboxRow)
    requires Inv(w) && Enabled(w, step) && RowTrue(w.trips, w.f.shipments, row)
    ensures RowTrue(Apply(w, step).trips, Apply(w, step).f.shipments, row)
  {
    hide Inv, FI.Inv, Enabled, Apply, Emitted, FP.Onward;
    EmittedStays(w, step, row.event.result);
    StateOf(w);
    FulfillmentKept(w, step);
    FP.StatusKept(w.f, Apply(w, step).f, row.event.result.shipment);
  }

  /** The rows that were there stay true; what a step adds has to be shown. */
  lemma TrueAfter(w: World, step: Step, w': World)
    requires Inv(w) && InboxTrue(w) && Enabled(w, step) && w' == Apply(w, step)
    requires forall e | e in w'.f.landing && !(e in w.f.landing && w'.f.landing[e] == w.f.landing[e]) ::
               Emitted(w.trips, w'.f.landing[e].result)
    requires forall e | e in w'.f.inbox && !(e in w.f.inbox && w'.f.inbox[e] == w.f.inbox[e]) ::
               RowTrue(w'.trips, w'.f.shipments, w'.f.inbox[e])
    ensures InboxTrue(w')
  {
    hide Inv, Enabled, Apply, Emitted, RowTrue;
    forall e | e in w'.f.landing ensures Emitted(w'.trips, w'.f.landing[e].result) {
      EmittedStays(w, step, w'.f.landing[e].result);
    }
    forall e | e in w'.f.inbox ensures RowTrue(w'.trips, w'.f.shipments, w'.f.inbox[e]) {
      if e in w.f.inbox && w'.f.inbox[e] == w.f.inbox[e] { RowStays(w, step, w.f.inbox[e]); }
    }
  }

  lemma HandledRow(s: F.State, ev: F.DeliveryEvent, trips: map<Id, T.Trip>)
    requires StopTrue(s, ev) && Emitted(trips, ev.result) && ev.id !in s.inbox
    requires s.shipments[ev.result.shipment].status != Dispatched
    ensures RowTrue(trips, s.shipments, F.InboxRow(ev, if AnyLive(s, ev) then F.Duplicate else F.Conflict))
  {
    hide Emitted;
    if AnyLive(s, ev) { var e :| F.Candidate(s, ev, e); }
  }

  lemma DeliverTrue(w: World, step: Step, ev: F.DeliveryEvent, w': World)
    requires Inv(w) && InboxTrue(w) && Enabled(w, step) && w' == Apply(w, step) && Emitted(w.trips, ev.result)
    requires StopTrue(w.f, ev) && w'.f == Handled(w.f, ev)
    ensures InboxTrue(w')
  {
    hide Inv, Enabled, Apply, Emitted, RowTrue, InboxTrue, StopTrue, F.Save, AnyLive;
    EmittedStays(w, step, ev.result);
    HandledRows(w, ev, w'.f, w'.trips);
    TrueAfter(w, step, w');
  }

  lemma HandledRows(w: World, ev: F.DeliveryEvent, f': F.State, trips: map<Id, T.Trip>)
    requires StopTrue(w.f, ev) && Emitted(w.trips, ev.result) && f' == Handled(w.f, ev)
    ensures forall e | e in f'.landing && !(e in w.f.landing && f'.landing[e] == w.f.landing[e]) ::
             Emitted(w.trips, f'.landing[e].result)
    ensures Emitted(trips, ev.result) ==>
             forall e | e in f'.inbox && !(e in w.f.inbox && f'.inbox[e] == w.f.inbox[e]) ::
              RowTrue(trips, f'.shipments, f'.inbox[e])
  {
    hide Emitted, RowTrue, F.Save, AnyLive;
    FP.SaveShape(w.f, ev, F.Duplicate);
    FP.SaveShape(w.f, ev, F.Conflict);
    if Emitted(trips, ev.result) && ev.id !in w.f.inbox && w.f.shipments[ev.result.shipment].status != Dispatched {
      HandledRow(w.f, ev, trips);
    }
  }

  lemma LandTrue(w: World, step: Step, e: Id, w': World)
    requires Inv(w) && InboxTrue(w) && Enabled(w, step) && w' == Apply(w, step) && F.StillDispatched(w.f, e)
    requires w'.f == F.LandResult(w.f, e)
    ensures InboxTrue(w')
  {
    hide Inv, Enabled, Apply, Emitted, RowTrue, F.LandResult;
    var ev := w.f.landing[e];
    LandShape(w.f, e);
    EmittedStays(w, step, ev.result);
    AppliedTrue(w'.trips, w'.f.shipments, ev);
    hide InboxTrue;
    TrueAfter(w, step, w');
  }

  lemma AppliedTrue(trips: map<Id, T.Trip>, shipments: map<Id, Shipment>, ev: F.DeliveryEvent)
    requires Emitted(trips, ev.result) && ev.result.shipment in shipments
    requires shipments[ev.result.shipment].status == F.Landed(ev.result)
    ensures RowTrue(trips, shipments, F.InboxRow(ev, F.Applied))
  {
    hide Emitted;
  }

  lemma LandShape(s: F.State, e: Id)
    requires F.StillDispatched(s, e)
    ensures var s', ev := F.LandResult(s, e), s.landing[e];
            && s'.inbox == s.inbox[ev.id := F.InboxRow(ev, F.Applied)] && s'.landing == s.landing - {e}
            && ev.result.shipment in s'.shipments
            && s'.shipments[ev.result.shipment].status == F.Landed(ev.result)
  {
    hide F.Save;
    var ev, x := s.landing[e], s.landing[e].result.shipment;
    FP.SaveShape(F.Put(s.(landing := s.landing - {e}), x, F.Land(s.shipments[x], ev.result)), ev, F.Applied);
  }

  /** The delivery event of a step, if it handles one. */
  lemma DeliverFrom(w: World, step: Step)
    requires Enabled(w, step) && FulfillmentWrite(w, step).Some? && FulfillmentWrite(w, step).value.DoDeliver?
    ensures step == Fulfil(FulfillmentWrite(w, step).value)
  {
    hide F.Enabled, T.Guard, CanLocal, NewIds, Complete, Elsewhere, Announced, F.FreshClaim, T.IsFirst;
  }

  lemma DeliveredAs(s: F.State, ev: F.DeliveryEvent, pick: Option<Id>)
    requires F.Enabled(s, F.DoDeliver(ev, pick))
    ensures F.CanPick(s, ev, pick) && F.Apply(s, F.DoDeliver(ev, pick)) == F.Deliver(s, ev, pick)
  {
  }

  lemma LandedAs(s: F.State, e: Id)
    ensures F.Enabled(s, F.DoLand(e)) ==> F.StillDispatched(s, e) && F.Apply(s, F.DoLand(e)) == F.LandResult(s, e)
    ensures F.Enabled(s, F.DoAbandon(e)) ==> F.Apply(s, F.DoAbandon(e)) == s.(landing := s.landing - {e})
  {
  }

  lemma TrueStep(w: World, step: Step)
    requires Inv(w) && InboxTrue(w) && Enabled(w, step) && Authentic(w, step)
    ensures InboxTrue(Apply(w, step))
  {
    hide Inv, Enabled, Apply, F.Enabled, F.Apply, InboxTrue, F.Deliver, F.LandResult, F.CanPick, F.StillDispatched,
      Emitted, StopTrue, Handled, RowTrue;
    var w' := Apply(w, step);
    FulfillmentWrites(w, step);
    if FulfillmentWrite(w, step).None? {
      TrueAfter(w, step, w');
    } else {
      var s := FulfillmentWrite(w, step).value;
      match s
      case DoDeliver(ev, pick) =>
        DeliverFrom(w, step);
        DeliveredAs(w.f, ev, pick);
        StopIsTrue(w, ev);
        ShipmentOfStop(w.f, ev);
        DeliverFate(w.f, ev, pick);
        DeliverTrue(w, step, ev, w');
      case DoLand(e) =>
        LandedAs(w.f, e);
        LandTrue(w, step, e, w');
      case DoAbandon(e) =>
        LandedAs(w.f, e);
        TrueAfter(w, step, w');
      case _ =>
        InboxKept(w.f, s);
        TrueAfter(w, step, w');
    }
  }

  lemma ShipmentOfStop(s: F.State, ev: F.DeliveryEvent)
    requires StopTrue(s, ev)
    ensures ev.result.shipment in s.shipments
  {
  }

  lemma {:induction false} TrueRun(w: World, steps: seq<Step>, w': World)
    requires Inv(w) && InboxTrue(w) && Runs(w, steps, w') && Genuine(w, steps)
    ensures InboxTrue(w')
    decreases |steps|
  {
    hide Inv, Enabled, Apply, InboxTrue, Authentic;
    if steps != [] {
      StepKeeps(w, steps[0]);
      TrueStep(w, steps[0]);
      TrueRun(Apply(w, steps[0]), steps[1..], w');
    }
  }

  /** In every state of a genuine run no receipt is deferred, every applied or duplicate one is its
      shipment's status, and a conflict is filed only of a shipment that has reached its end. */
  lemma GenuineInbox(steps: seq<Step>, w: World, e: Id)
    requires Runs(START, steps, w) && Genuine(START, steps) && e in w.f.inbox
    ensures w.f.inbox[e].outcome != F.Deferred
    ensures var r := w.f.inbox[e].event.result;
            && Emitted(w.trips, r) && r.shipment in w.f.shipments && Terminal(w.f.shipments[r.shipment].status)
            && (F.Live(w.f.inbox[e].outcome) ==>
                  w.f.shipments[r.shipment].status == if r.delivered then Delivered else Failed)
  {
    hide Inv, Runs, Genuine, Emitted;
    StartInv();
    TrueRun(START, steps, w);
    assert RowTrue(w.trips, w.f.shipments, w.f.inbox[e]);
  }

  /** A result that a driver action announced, handled in any later state of a genuine run: the shipment
      is known and held by that trip, so the event is neither deferred nor a binding mismatch. A new event
      is on its way to be applied if the shipment is DISPATCHED, a duplicate if the stop already has a
      receipt, and a conflict only if the shipment reached its end by other means. */
  lemma AnnouncedResult(steps: seq<Step>, w: World, ev: F.DeliveryEvent, pick: Option<Id>)
    requires Runs(START, steps, w) && Genuine(START, steps) && Emitted(w.trips, ev.result)
    requires F.CanPick(w.f, ev, pick)
    ensures ev.result.shipment in w.f.shipments && w.f.shipments[ev.result.shipment].trip == Some(ev.result.trip)
    ensures DispatchedEver(w.f.shipments[ev.result.shipment].status)
    ensures ev.id in w.f.inbox ==> F.Deliver(w.f, ev, pick) == w.f
    ensures ev.id !in w.f.inbox ==>
              F.Deliver(w.f, ev, pick) ==
              if w.f.shipments[ev.result.shipment].status == Dispatched then w.f.(landing := w.f.landing[ev.id := ev])
              else F.Save(w.f, ev, if AnyLive(w.f, ev) then F.Duplicate else F.Conflict)
  {
    hide Inv, Runs, Genuine, Emitted, InboxTrue, F.CanPick, F.Deliver, F.Save, AnyLive;
    StartInv();
    StartTrue();
    TrueRun(START, steps, w);
    ReachableInv(steps, w);
    StopIsTrue(w, ev);
    DeliverFate(w.f, ev, pick);
  }

  lemma StartTrue()
    ensures InboxTrue(START)
  {
  }
}
