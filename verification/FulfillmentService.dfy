/** The fulfillment service as code that updates its tables, each method one transaction. Every
    method keeps the service's invariant, carries out the transaction of module Fulfillment of the
    same name, and promises its caller what the invariant makes of it. */
module FulfillmentService {
  import opened Shipments
  import opened Fulfillment
  import FI = FulfillmentInvariant
  import FR = FulfillmentRuns
  import FP = FulfillmentProgress
  import O = FulfillmentOutcomes
  import L = ClaimLedger

  // ----- What the transactions mean in a valid state -----

  lemma ClaimMeans(s: State, q: ClaimRequest, newId: Id)
    requires FI.Inv(s) && FreshClaim(s, newId)
    ensures FI.Inv(Claim(s, q, newId))
    ensures ClaimReply(s, q, newId).Ok? ==>
             ClaimReply(s, q, newId).value.Claimed? && ClaimReply(s, q, newId).value.claimReq == q
    ensures ClaimReply(s, q, newId).Ok? ==> ClaimStatus(Claim(s, q, newId), ClaimReply(s, q, newId).value.claim).Ok?
    ensures ClaimReply(s, q, newId).Ok? ==> forall other: Id ::
              ClaimReply(Claim(s, q, newId), q, other) == ClaimReply(s, q, newId)
              && Claim(Claim(s, q, newId), q, other) == Claim(s, q, newId)
  {
    hide FI.Inv, Claim, ClaimReply, ClaimStatus;
    FI.ClaimKeeps(s, q, newId);
    var s' := Claim(s, q, newId);
    if ClaimReply(s, q, newId).Ok? {
      L.ClaimStored(s, q, newId);
      L.ClaimStatusDecided(s', ClaimReply(s, q, newId).value.claim);
      forall other: Id { L.ClaimReplayed(s, q, newId, s', other); }
    }
  }

  lemma ReleaseMeans(s: State, q: ReleaseRequest)
    requires FI.Inv(s)
    ensures FI.Inv(Release(s, q))
    ensures ReleaseReply(s, q).Ok? ==> ClaimStatus(Release(s, q), q.claim) == Ok(WasReleased)
    ensures ReleaseReply(s, q).Ok? ==>
             ReleaseReply(Release(s, q), q) == ReleaseReply(s, q) && Release(Release(s, q), q) == Release(s, q)
  {
    hide FI.Inv, Release, ReleaseReply, ClaimStatus;
    FI.ReleaseKeeps(s, q);
    var s' := Release(s, q);
    if ReleaseReply(s, q).Ok? {
      L.ReleaseStored(s, q);
      L.ReleaseReplayed(s, q, s');
      var r := ReleaseReply(s, q).value;
      assert L.ReleasedIn(s'.ledger, q.claim);
      ReleasedWasClaimed(s', r);
      L.ClaimStatusDecided(s', q.claim);
    }
  }

  /** A release is stored only after the claim it releases. */
  lemma ReleasedWasClaimed(s: State, r: Receipt)
    requires FI.Inv(s) && r in s.ledger && r.Freed?
    ensures FindClaim(s.ledger, r.freeReq.claim).Some?
  {
    hide FI.Rows, FI.Indexed, FI.IntentIdsUnique, FI.BatchesOk, FI.OrdersOk, FI.InboxOk, FindClaim;
    var k :| 0 <= k < |s.ledger| && s.ledger[k] == r;
    L.FitsAt(s.ledger, k);
    var o :| o in s.ledger[..k] && o.Claimed? && o.claim == r.freeReq.claim;
    assert o in s.ledger;
  }

  /** Once an intent is stored no trip can claim the shipment. */
  lemma IntendMeans(s: State, x: Id, id: Id, version: nat)
    requires FI.Inv(s) && Enabled(s, DoIntend(x, id, version))
    ensures FI.Inv(Intend(s, x, id, version))
    ensures IntendReply(s, x, id, version).Ok? ==>
             forall q: ClaimRequest, n: Id | q.shipment == x && Find(s.ledger, q.id).None? ::
              ClaimReply(Intend(s, x, id, version), q, n).Refused?
  {
    hide FI.Inv;
    FI.IntendKeeps(s, x, id, version);
    if IntendReply(s, x, id, version).Ok? { IntendShutsOut(s, x, id, version); }
  }

  lemma IntendShutsOut(s: State, x: Id, id: Id, version: nat)
    requires IntendReply(s, x, id, version).Ok?
    ensures forall q: ClaimRequest, n: Id | q.shipment == x && Find(s.ledger, q.id).None? ::
              ClaimReply(Intend(s, x, id, version), q, n).Refused?
  {
    var s' := Intend(s, x, id, version);
    assert s'.ledger == s.ledger && x in s'.shipments && Busy(s'.shipments[x].intent);
    hide Intend, IntendReply;
  }

  /** A granted single dispatch goes through unless the shipment was canceled meanwhile. */
  lemma CompleteMeans(s: State, x: Id, id: Id)
    requires FI.Inv(s) && Answered(s, x, id, true)
    ensures FI.Inv(CompleteIntent(s, x, id))
    ensures CompleteReply(s, x, id).Ok? <==> s.shipments[x].status != Canceled
    ensures CompleteReply(s, x, id).Ok? ==> CompleteIntent(s, x, id).shipments[x].issued
  {
    hide FI.Inv;
    FI.CompleteKeeps(s, x, id);
    FP.InvRows(s);
    FI.RowAt(s, x);
    hide FI.Rows, HistoryOk;
    CompleteOutcome(s, x, id);
  }

  lemma CompleteOutcome(s: State, x: Id, id: Id)
    requires Answered(s, x, id, true) && RowOk(s.shipments[x])
    ensures CompleteReply(s, x, id).Ok? <==> s.shipments[x].status != Canceled
    ensures CompleteReply(s, x, id).Ok? ==> CompleteIntent(s, x, id).shipments[x].issued
  {
  }

  lemma TransitionMeans(s: State, x: Id, version: nat, c: Command)
    requires FI.Inv(s)
    ensures FI.Inv(Transition(s, x, version, c))
    ensures TransitionReply(s, x, version, c).Ok? ==> !Terminal(s.shipments[x].status) && !HeldByBatch(s.shipments[x])
  {
    hide FI.Inv;
    FI.CommandKeeps(s, x, version, c);
  }

  lemma CommitMeans(s: State, b: Id)
    requires FI.Inv(s) && CanCommit(s, b)
    ensures FI.Inv(Commit(s, b)) && CommitReply(s, b) == Ok(true) && DistinctItems(s.batches[b].request.items)
    ensures b in Commit(s, b).batches && Commit(s, b).batches[b].status != BatchPending
    ensures s.batches[b].status == BatchPending ==>
             (Commit(s, b).batches[b].status == BatchCompleted <==> s.batches[b].decision == Some(true))
  {
    hide FI.Inv, IssueAll, DropAll, ReceiptsOf, CommitReply;
    FR.CommitKeeps(s, b);
    FR.BindingNeverChanges(s, b);
    FP.InvBatches(s);
    assert FI.BatchOk(s.shipments, b, s.batches[b]);
  }

  /** A handled event is on record and covered by its order's cursor; a canceled order has no
      shipment left that could still be dispatched. */
  lemma OrderMeans(s: State, ev: OrderEvent, parsed: bool, newId: Id)
    requires FI.Inv(s) && newId !in s.shipments && (parsed ==> ev.confirms)
    requires (ev.confirms && !parsed ==> Stale(s.cursors, ev))
    ensures var s' := OrderTx(s, ev, parsed, newId);
            && FI.Inv(s')
            && (OrderReply(s, ev, parsed).Ok? ==> ev.id in s'.orderInbox && FI.Covered(s'.cursors, s'.orderInbox))
            && (forall x | x in s'.shipments && s'.shipments[x].order in s'.cursors
                          && s'.cursors[s'.shipments[x].order].canceled ::
                  FI.Over(s'.shipments[x].status))
  {
    FI.OrderTxKeeps(s, ev, parsed, newId);
    var s' := OrderTx(s, ev, parsed, newId);
    assert OrderReply(s, ev, parsed).Ok? ==> ev.id in s'.orderInbox;
    hide OrderTx, OrderReply;
    CoveredOf(s');
    forall x | x in s'.shipments && s'.shipments[x].order in s'.cursors && s'.cursors[s'.shipments[x].order].canceled
      ensures FI.Over(s'.shipments[x].status)
    {
      FP.CanceledShipments(s', x);
    }
  }

  lemma CoveredOf(s: State)
    requires FI.Inv(s)
    ensures FI.Covered(s.cursors, s.orderInbox)
  {
    hide FI.Rows, FI.Indexed, FI.IntentIdsUnique, FI.BatchesOk, FI.InboxOk, FI.LedgerAgrees, FI.Covered;
  }

  /** Filed receipts stay as they are, and an applied one keeps naming its shipment's status. */
  lemma DeliverMeans(s: State, ev: DeliveryEvent, pick: Option<Id>)
    requires FI.Inv(s) && CanPick(s, ev, pick) && StopFree(s, ev)
    ensures var s' := Deliver(s, ev, pick);
            && FI.Inv(s') && FP.InboxAdvances(s.inbox, s'.inbox)
            && (forall e | e in s'.inbox && s'.inbox[e].outcome == Applied ::
                  var r := s'.inbox[e].event.result;
                  && r.shipment in s'.shipments
                  && s'.shipments[r.shipment].status == if r.delivered then Delivered else Failed)
  {
    hide FI.Inv, Deliver, CanPick, FP.Onward;
    FR.DeliverKeeps(s, ev, pick);
    FP.DeliverOnward(s, ev, pick);
    InboxOf(s, Deliver(s, ev, pick));
  }

  lemma DecideTells(s: State, b: Id, granted: bool, s': State)
    requires b in s.batches && O.DecideResult(s, b, granted, s') && FI.Inv(s')
    ensures b in s'.batches && (!granted ==> s'.shipments == s.shipments)
    ensures s.batches[b].status == BatchPending ==> s'.batches[b] == s.batches[b].(decision := Some(granted))
    ensures s.batches[b].status == BatchPending && granted ==>
             O.AllGranted(s'.shipments, s.batches[b].request.items)
  {
    hide FI.Inv;
    if s.batches[b].status == BatchPending && granted {
      FP.InvBatches(s');
      var items := s.batches[b].request.items;
      forall i | 0 <= i < |items|
        ensures items[i].shipment in s'.shipments && s'.shipments[items[i].shipment].intent.Some?
        ensures s'.shipments[items[i].shipment].intent.value.granted
      {
        assert FI.Listed(items, items[i].shipment);
        var j := FR.ListedHeld(s', b, items[i].shipment);
      }
    }
  }

  lemma ApplyTells(s: State, e: Id, s': State)
    requires StillDispatched(s, e) && O.ApplyResult(s, e, s')
    ensures O.Shows(s'.shipments, s.landing[e].result)
  {
  }

  lemma LandMeans(s: State, e: Id)
    requires FI.Inv(s) && StillDispatched(s, e)
    ensures var s', r := LandResult(s, e), s.landing[e].result;
            && FI.Inv(s') && FP.InboxAdvances(s.inbox, s'.inbox)
            && e in s'.inbox && s'.inbox[e] == InboxRow(s.landing[e], Applied)
  {
    hide FI.Inv, FP.Onward;
    FR.LandResultKeeps(s, e);
    FP.LandOnward(s, e);
    InboxOf(s, LandResult(s, e));
    LandedEvent(s, e);
  }

  lemma LandedEvent(s: State, e: Id)
    requires FI.Inv(s) && e in s.landing
    ensures s.landing[e].id == e
  {
    hide FI.Rows, FI.Indexed, FI.IntentIdsUnique, FI.BatchesOk, FI.OrdersOk, FI.LedgerAgrees;
  }

  lemma InboxOf(s: State, s': State)
    requires FI.Inv(s') && FP.Onward(s, s')
    ensures FP.InboxAdvances(s.inbox, s'.inbox)
    ensures forall e | e in s'.inbox && s'.inbox[e].outcome == Applied ::
              var r := s'.inbox[e].event.result;
              r.shipment in s'.shipments && s'.shipments[r.shipment].status == if r.delivered then Delivered else Failed
  {
    hide FI.Rows, FI.Indexed, FI.IntentIdsUnique, FI.BatchesOk, FI.OrdersOk, FI.LedgerAgrees, FP.ShipmentsAdvance,
      FP.CursorsAdvance;
    hide FP.BatchesAdvance, FP.InboxAdvances;
  }

  // ----- Loops -----

  lemma HoldGrows(shipments: map<Id, Shipment>, batch: Id, items: seq<Item>, k: nat)
    requires k < |items| && forall i | 0 <= i < |items| :: items[i].shipment in shipments
    ensures forall j | j in {k, k + 1} :: forall i | 0 <= i < j :: items[..j][i].shipment in shipments
    ensures Hold(shipments, batch, items[..k]).Keys == shipments.Keys
    ensures var before := Hold(shipments, batch, items[..k]);
            items[k].shipment in before
            && Hold(shipments, batch, items[..k + 1])
               == before[items[k].shipment := before[items[k].shipment].(intent := Some(BatchIntent(batch, items[k])))]
  {
    HoldKeys(shipments, batch, items[..k]);
    assert items[..k + 1][..k] == items[..k];
  }

  lemma {:induction false} HoldKeys(shipments: map<Id, Shipment>, batch: Id, items: seq<Item>)
    requires forall i | 0 <= i < |items| :: items[i].shipment in shipments
    ensures Hold(shipments, batch, items).Keys == shipments.Keys
  {
    if items != [] { HoldKeys(shipments, batch, items[..|items| - 1]); }
  }

  /** Marking one intent more. */
  function GrantOne(shipments: map<Id, Shipment>, id: Id): map<Id, Shipment> {
    map x | x in shipments ::
      var sh := shipments[x];
      if sh.intent.Some? && sh.intent.value.id == id then sh.(intent := Some(sh.intent.value.(granted := true))) else sh
  }

  ghost predicate NamedBy(items: seq<Item>, id: Id) { exists i | 0 <= i < |items| :: items[i].dispatch == id }

  lemma NamedGrows(items: seq<Item>, k: nat, id: Id)
    requires k < |items|
    ensures NamedBy(items[..k + 1], id) <==> NamedBy(items[..k], id) || items[k].dispatch == id
  {
    if NamedBy(items[..k], id) {
      var i :| 0 <= i < k && items[..k][i].dispatch == id;
      assert items[..k + 1][i].dispatch == id;
    }
    assert items[..k + 1][k] == items[k];
  }

  lemma GrantGrows(shipments: map<Id, Shipment>, items: seq<Item>, k: nat)
    requires k < |items|
    ensures Grant(shipments, items[..k + 1]) == GrantOne(Grant(shipments, items[..k]), items[k].dispatch)
  {
    forall x | x in shipments
      ensures Grant(shipments, items[..k + 1])[x] == GrantOne(Grant(shipments, items[..k]), items[k].dispatch)[x]
    {
      if shipments[x].intent.Some? { NamedGrows(items, k, shipments[x].intent.value.id); }
    }
  }

  function DropOne(shipments: map<Id, Shipment>, id: Id): map<Id, Shipment> {
    map x | x in shipments ::
      var sh := shipments[x];
      if Pending(sh.intent) && sh.intent.value.id == id
      then sh.(intent := Some(sh.intent.value.(status := IntentRejected))) else sh
  }

  lemma DropGrows(shipments: map<Id, Shipment>, items: seq<Item>, k: nat)
    requires k < |items|
    ensures DropAll(shipments, items[..k + 1]) == DropOne(DropAll(shipments, items[..k]), items[k].dispatch)
  {
    forall x | x in shipments
      ensures DropAll(shipments, items[..k + 1])[x] == DropOne(DropAll(shipments, items[..k]), items[k].dispatch)[x]
    {
      if shipments[x].intent.Some? { NamedGrows(items, k, shipments[x].intent.value.id); }
    }
  }

  /** A partial commit: the first `k` items are out, the others are as they were. */
  lemma {:induction false} IssueGrows(shipments: map<Id, Shipment>, items: seq<Item>, k: nat)
    requires k <= |items| && DistinctItems(items)
    ensures IssueAll(shipments, items[..k]).Keys == shipments.Keys
    ensures forall i | k <= i < |items| && items[i].shipment in shipments ::
             IssueAll(shipments, items[..k])[items[i].shipment] == shipments[items[i].shipment]
    ensures forall i | 0 <= i < k && items[i].shipment in shipments && shipments[items[i].shipment].intent.Some? ::
              IssueAll(shipments, items[..k])[items[i].shipment].version == shipments[items[i].shipment].version + 1
  {
    hide Issue;
    if k > 0 {
      IssueGrows(shipments, items, k - 1);
      assert items[..k][..k - 1] == items[..k - 1];
      assert forall sh: Shipment | sh.intent.Some? :: Issue(sh).version == sh.version + 1 by { IssueVersion(); }
    }
  }

  lemma IssueVersion()
    ensures forall sh: Shipment | sh.intent.Some? :: Issue(sh).version == sh.version + 1
  {
  }

  /** The loop of a granted commit; it stops at the first item whose binding is not intact. */
  method IssueItems(shipments: map<Id, Shipment>, trip: Id, items: seq<Item>)
      returns (ok: bool, rows: map<Id, Shipment>, receipts: seq<ItemReceipt>)
    requires DistinctItems(items)
    ensures ok <==> forall i | 0 <= i < |items| :: BindingIntact(shipments, trip, items[i])
    ensures ok ==> rows == IssueAll(shipments, items) && receipts == ReceiptsOf(rows, items)
  {
    rows, receipts := shipments, [];
    for k := 0 to |items|
      invariant |receipts| == k && rows == IssueAll(shipments, items[..k])
      invariant forall i | 0 <= i < k :: BindingIntact(shipments, trip, items[i])
      invariant forall i | 0 <= i < k ::
               receipts[i] == ItemReceipt(items[i].shipment, items[i].dispatch,
                   shipments[items[i].shipment].version + 1)
    {
      IssueGrows(shipments, items, k);
      if !BindingIntact(rows, trip, items[k]) { return false, rows, receipts; }
      var updated := Issue(rows[items[k].shipment]);
      assert items[..k + 1][..k] == items[..k];
      rows := rows[items[k].shipment := updated];
      receipts := receipts + [ItemReceipt(items[k].shipment, items[k].dispatch, updated.version)];
    }
    IssueGrows(shipments, items, |items|);
    assert items[..|items|] == items;
    ok := true;
  }

  /** The loop of a rejected commit. */
  method DropItems(shipments: map<Id, Shipment>, items: seq<Item>) returns (rows: map<Id, Shipment>)
    ensures rows == DropAll(shipments, items)
  {
    rows := shipments;
    assert DropAll(shipments, items[..0]) == shipments;
    for k := 0 to |items|
      invariant rows == DropAll(shipments, items[..k])
    {
      DropGrows(shipments, items, k);
      rows := DropOne(rows, items[k].dispatch);
    }
    assert items[..|items|] == items;
  }

  class Service {
    var shipments: map<Id, Shipment>
    var byOrder: map<Id, Id>
    var ledger: seq<Receipt>
    var batches: map<Id, Batch>
    var cursors: map<Id, Cursor>
    var orderInbox: map<Id, OrderEvent>
    var handling: map<Id, (OrderEvent, bool)>
    var inbox: map<Id, InboxRow>
    var landing: map<Id, DeliveryEvent>

    ghost function View(): (s: State)
      reads this
    {
      State(shipments, byOrder, ledger, batches, cursors, orderInbox, handling, inbox, landing)
    }

    /** The tables are as every transaction of the service leaves them. */
    ghost predicate Valid()
      reads this
    {
      FI.Inv(View())
    }

    constructor ()
      ensures Valid() && View() == INIT
    {
      FI.InitInv();
      hide FI.Inv;
      shipments, byOrder, ledger, batches := map[], map[], [], map[];
      cursors, orderInbox, handling, inbox, landing := map[], map[], map[], map[], map[];
    }

    /** A granted claim is on record for good: repeating the request gets the same answer and changes
        nothing, whatever id it would have been given. */
    method ClaimShipment(q: ClaimRequest, newId: Id) returns (reply: Reply<Receipt>)
      requires Valid() && FreshClaim(View(), newId)
      modifies this
      ensures Valid() && reply == ClaimReply(old(View()), q, newId) && View() == Claim(old(View()), q, newId)
      ensures O.ClaimResult(old(View()), q, newId, reply, View())
      ensures reply.Refused? ==> View() == old(View())
      ensures reply.Ok? ==>
               reply.value.Claimed? && reply.value.claimReq == q && ClaimStatus(View(), reply.value.claim).Ok?
      ensures reply.Ok? ==>
               forall other: Id :: ClaimReply(View(), q, other) == reply && Claim(View(), q, other) == View()
    {
      hide FI.Inv, ClaimStatus, O.ClaimResult;
      ClaimMeans(View(), q, newId);
      O.ClaimOutcome(View(), q, newId);
      var prior := Find(ledger, q.id);
      if prior.Some? {
        return if prior.value.Claimed? && prior.value.claimReq == q then Ok(prior.value) else Refused(RequestConflict);
      }
      if q.shipment !in shipments { return Refused(Missing); }
      var sh := shipments[q.shipment];
      if sh.version != q.shipmentVersion { return Refused(VersionConflict); }
      if sh.status != Ready || sh.trip.Some? || sh.claim.Some? || Busy(sh.intent) { return Refused(ClaimConflict); }
      if !sh.snapshotOk { return Refused(SnapshotInvalid); }
      var updated := sh.(trip := Some(q.trip), claim := Some(newId), version := sh.version + 1);
      var receipt := Claimed(q, newId, updated.version, sh.weight, sh.volume);
      shipments := shipments[q.shipment := updated];
      ledger := ledger + [receipt];
      return Ok(receipt);
    }

    /** An accepted release is on record for good, and the claim then counts as released. */
    method ReleaseShipment(q: ReleaseRequest) returns (reply: Reply<Receipt>)
      requires Valid()
      modifies this
      ensures Valid() && reply == ReleaseReply(old(View()), q) && View() == Release(old(View()), q)
      ensures O.ReleaseResult(old(View()), q, reply, View())
      ensures reply.Refused? ==> View() == old(View())
      ensures reply.Ok? ==> ClaimStatus(View(), q.claim) == Ok(WasReleased)
      ensures reply.Ok? ==> ReleaseReply(View(), q) == reply && Release(View(), q) == View()
    {
      hide FI.Inv, ClaimStatus, O.ReleaseResult;
      ReleaseMeans(View(), q);
      O.ReleaseOutcome(View(), q);
      var prior := Find(ledger, q.id);
      if prior.Some? {
        return if prior.value.Freed? && prior.value.freeReq == q then Ok(prior.value) else Refused(RequestConflict);
      }
      if q.shipment !in shipments { return Refused(Missing); }
      var original := FindClaim(ledger, q.claim);
      if original.None? { return Refused(ClaimConflict); }
      var made := original.value.claimReq;
      if made.shipment != q.shipment || made.trip != q.trip || made.actor != q.actor { return Refused(ClaimConflict); }
      var sh := shipments[q.shipment];
      if sh.version != q.shipmentVersion { return Refused(VersionConflict); }
      if sh.claim != Some(q.claim) || sh.trip != Some(q.trip) || Busy(sh.intent) || sh.issued
        || sh.status !in {Ready, Canceled}
      {
        return Refused(ClaimConflict);
      }
      var updated := sh.(trip := None, claim := None, version := sh.version + 1);
      shipments := shipments[q.shipment := updated];
      ledger := ledger + [Freed(q, updated.version)];
      return Ok(Freed(q, updated.version));
    }

    /** A transition never leaves an absorbing status or a shipment that a batch holds, and writes
        exactly one history row. */
    method TransitionShipment(x: Id, version: nat, c: Command) returns (reply: Reply<bool>)
      requires Valid()
      modifies this
      ensures Valid() && reply == TransitionReply(old(View()), x, version, c)
      ensures View() == Transition(old(View()), x, version, c)
      ensures O.CommandResult(old(View()), x, version, c, reply, View())
      ensures reply.Refused? ==> View() == old(View())
      ensures reply.Ok? ==> !Terminal(old(shipments)[x].status) && !HeldByBatch(old(shipments)[x]) && x in shipments
      ensures reply.Ok? ==>
               |shipments[x].history| == |old(shipments)[x].history| + 1 && shipments[x].status == Target(c)
    {
      hide FI.Inv, O.CommandResult;
      TransitionMeans(View(), x, version, c);
      O.CommandOutcome(View(), x, version, c);
      if x !in shipments { return Refused(Missing); }
      var sh := shipments[x];
      if sh.version != version { return Refused(VersionConflict); }
      if Pending(sh.intent) { return Refused(DispatchPending); }
      var to := Target(c);
      if !MayTransition(sh.status, to) { return Refused(InvalidTransition); }
      shipments := shipments[x := Record(sh, to, TransitionTo(to).value.1)];
      return Ok(true);
    }

    /** The first transaction of a stand-alone dispatch: the intent replaces a rejected one, and shuts
        every trip out of the shipment. */
    method IntendDispatch(x: Id, intentId: Id, version: nat) returns (reply: Reply<bool>)
      requires Valid() && Enabled(View(), DoIntend(x, intentId, version))
      modifies this
      ensures Valid() && reply == IntendReply(old(View()), x, intentId, version)
      ensures View() == Intend(old(View()), x, intentId, version)
      ensures O.IntendResult(old(View()), x, intentId, version, reply, View())
      ensures reply.Refused? ==> View() == old(View())
      ensures reply.Ok? ==>
               forall q: ClaimRequest, n: Id | q.shipment == x && Find(ledger, q.id).None? ::
                   ClaimReply(View(), q, n).Refused?
    {
      hide FI.Inv, ClaimReply, O.IntendResult;
      IntendMeans(View(), x, intentId, version);
      O.IntendOutcome(View(), x, intentId, version);
      if x !in shipments { return Refused(Missing); }
      var sh := shipments[x];
      if sh.trip.Some? || sh.claim.Some? { return Refused(ClaimConflict); }
      if sh.intent.Some? && sh.intent.value.id == intentId {
        return if sh.intent.value.status.IntentRejected? then Refused(InvalidTransition) else Ok(false);
      }
      if Busy(sh.intent) { return Refused(DispatchPending); }
      if sh.version != version { return Refused(VersionConflict); }
      if !MayTransition(sh.status, Dispatched) { return Refused(InvalidTransition); }
      shipments := shipments[x := sh.(intent := Some(Intent(intentId, None, IntentPending, false, None)))];
      return Ok(true);
    }

    /** The second transaction, once the authority granted the intent: it goes through unless the
        shipment was canceled meanwhile. */
    method CompleteDispatch(x: Id, intentId: Id) returns (reply: Reply<bool>)
      requires Valid() && Answered(View(), x, intentId, true)
      modifies this
      ensures Valid() && reply == CompleteReply(old(View()), x, intentId)
      ensures View() == CompleteIntent(old(View()), x, intentId)
      ensures O.CompleteResult(old(View()), x, reply, View())
      ensures reply.Ok? <==> old(shipments)[x].status != Canceled
      ensures reply.Ok? ==> x in shipments && shipments[x].issued
    {
      hide FI.Inv, O.CompleteResult;
      CompleteMeans(View(), x, intentId);
      O.CompleteOutcome(View(), x, intentId);
      var sh := shipments[x];
      if sh.intent.value.status.IntentCompleted? { return Ok(false); }
      if !MayTransition(sh.status, Dispatched) { return Refused(InvalidTransition); }
      shipments := shipments[x := Issue(sh)];
      return Ok(true);
    }

    /** The authority's definite refusal gives the intent up, if it is still waiting. */
    method RejectDispatch(x: Id, intentId: Id)
      requires Valid() && Answered(View(), x, intentId, false)
      modifies this
      ensures Valid() && View() == RejectIntent(old(View()), x, intentId) && O.RejectResult(old(View()), x, View())
    {
      hide FI.Inv, O.RejectResult;
      FI.RejectKeeps(View(), x, intentId);
      O.RejectOutcome(View(), x, intentId);
      var sh := shipments[x];
      if !Pending(sh.intent) { return; }
      shipments := shipments[x := sh.(intent := Some(sh.intent.value.(status := IntentRejected)))];
    }

    /** A batch is stored with all its shipments held, or rejected with none. */
    method PrepareBatch(q: BatchRequest) returns (reply: Reply<bool>)
      requires Valid() && Enabled(View(), DoPrepare(q))
      modifies this
      ensures Valid() && reply == PrepareReply(old(View()), q) && View() == Prepare(old(View()), q)
      ensures O.PrepareResult(old(View()), q, reply, View())
    {
      hide FI.Inv, Prepare, PrepareReply, O.PrepareResult;
      FI.PrepareKeeps(View(), q);
      O.PrepareOutcome(View(), q);
      hide Enabled;
      reply := StoreBatch(q);
    }

    /** The first loop looks for an item that cannot be dispatched; only when there is none does the
        second give every shipment its intent. */
    method StoreBatch(q: BatchRequest) returns (reply: Reply<bool>)
      modifies this
      ensures reply == PrepareReply(old(View()), q) && View() == Prepare(old(View()), q)
    {
      if q.id in batches { return if batches[q.id].request != q then Refused(RequestConflict) else Ok(false); }
      for k := 0 to |q.items|
        invariant View() == old(View())
        invariant forall i | 0 <= i < k :: Dispatchable(View(), q.trip, q.items[i])
      {
        var item := q.items[k];
        if item.shipment !in shipments {
          batches := batches[q.id := Batch(q, BatchRejected, None, [])];
          return Ok(true);
        }
        var sh := shipments[item.shipment];
        if sh.order != item.order || sh.reservation != item.reservation || sh.trip != Some(q.trip) || sh.claim.None?
          || sh.status != Ready || sh.version != item.version || Busy(sh.intent)
        {
          batches := batches[q.id := Batch(q, BatchRejected, None, [])];
          return Ok(true);
        }
      }
      ghost var before := shipments;
      assert forall i | 0 <= i < |q.items| :: Dispatchable(View(), q.trip, q.items[i]) && q.items[i].shipment in before;
      assert AllDispatchable(old(View()), q);
      var rows := shipments;
      for k := 0 to |q.items|
        invariant View() == old(View())
        invariant forall i | 0 <= i < k :: q.items[..k][i].shipment in before
        invariant rows == Hold(before, q.id, q.items[..k])
      {
        var item := q.items[k];
        HoldGrows(before, q.id, q.items, k);
        rows := rows[item.shipment := rows[item.shipment].(intent := Some(BatchIntent(q.id, item)))];
      }
      assert q.items[..|q.items|] == q.items;
      shipments := rows;
      batches := batches[q.id := Batch(q, BatchPending, None, [])];
      return Ok(true);
    }

    /** Stores the authority's answer, and marks every listed intent when it is a grant; a refusal leaves
        the shipments alone. */
    method DecideBatch(b: Id, granted: bool)
      requires Valid() && CanDecide(View(), b, granted)
      modifies this
      ensures Valid() && View() == Decide(old(View()), b, granted) && O.DecideResult(old(View()), b, granted, View())
      ensures b in batches
      ensures old(batches)[b].status == BatchPending ==> batches[b] == old(batches)[b].(decision := Some(granted))
      ensures !granted ==> shipments == old(shipments)
      ensures old(batches)[b].status == BatchPending && granted ==> O.AllGranted(shipments, batches[b].request.items)
    {
      hide FI.Inv, Decide, O.DecideResult;
      FR.DecideKeeps(View(), b, granted);
      O.DecideOutcome(View(), b, granted);
      DecideTells(View(), b, granted, Decide(View(), b, granted));
      StoreDecision(b, granted);
    }

    method StoreDecision(b: Id, granted: bool)
      requires CanDecide(View(), b, granted)
      modifies this
      ensures View() == Decide(old(View()), b, granted)
    {
      if batches[b].status != BatchPending { return; }
      var batch := batches[b];
      batches := batches[b := batch.(decision := Some(granted))];
      if granted {
        ghost var before := shipments;
        var items := batch.request.items;
        assert Grant(before, items[..0]) == before;
        for k := 0 to |items|
          invariant View() == old(View()).(shipments := shipments, batches := batches)
          invariant batches == old(batches)[b := batch.(decision := Some(granted))]
          invariant shipments == Grant(before, items[..k])
        {
          GrantGrows(before, items, k);
          shipments := GrantOne(shipments, items[k].dispatch);
        }
        assert items[..|items|] == items;
      }
    }

    /** The local lifecycle change of a decided batch. The throw for a broken binding is never
        reached, and afterwards the batch is settled as it was decided. */
    method CommitBatch(b: Id) returns (reply: Reply<bool>)
      requires Valid() && CanCommit(View(), b)
      modifies this
      ensures Valid() && reply == Ok(true) && View() == Commit(old(View()), b) && b in batches
      ensures O.CommitResult(old(View()), b, View())
      ensures batches[b].status != BatchPending
      ensures old(batches)[b].status == BatchPending ==>
               (batches[b].status == BatchCompleted <==> old(batches)[b].decision == Some(true))
    {
      hide FI.Inv, Commit, CommitReply, O.CommitResult;
      CommitMeans(View(), b);
      O.CommitOutcome(View(), b);
      reply := WriteCommit(b);
    }

    method WriteCommit(b: Id) returns (reply: Reply<bool>)
      requires CanCommit(View(), b) && CommitReply(View(), b) == Ok(true)
      requires DistinctItems(batches[b].request.items)
      modifies this
      ensures reply == Ok(true) && View() == Commit(old(View()), b)
    {
      hide IssueAll, DropAll, ReceiptsOf, DistinctItems;
      if batches[b].status != BatchPending { return Ok(true); }
      var batch := batches[b];
      var items := batch.request.items;
      if batch.decision == Some(true) {
        var ok, rows, receipts := IssueItems(shipments, batch.request.trip, items);
        if !ok { assert false; }
        shipments := rows;
        batches := batches[b := batch.(status := BatchCompleted, receipts := receipts)];
      } else {
        var rows := DropItems(shipments, items);
        shipments := rows;
        batches := batches[b := batch.(status := BatchRejected)];
      }
      return Ok(true);
    }

    /** The transaction of an order event, in the order the handler writes. Every handled event is on
        record and covered by its order's cursor, and a canceled order has no shipment left that could
        still be dispatched. */
    method HandleOrder(ev: OrderEvent, parsed: bool, newId: Id) returns (reply: Reply<bool>)
      requires Valid() && newId !in shipments && (parsed ==> ev.confirms)
      requires (ev.confirms && !parsed ==> Stale(cursors, ev))
      modifies this
      ensures Valid() && reply == OrderReply(old(View()), ev, parsed)
      ensures View() == OrderTx(old(View()), ev, parsed, newId)
      ensures O.OrderResult(old(View()), ev, parsed, newId, reply, View())
      ensures reply.Ok? ==> ev.id in orderInbox && FI.Covered(cursors, orderInbox)
      ensures forall x | x in shipments && shipments[x].order in cursors && cursors[shipments[x].order].canceled ::
               FI.Over(shipments[x].status)
    {
      hide FI.Inv, FI.Covered, FI.Over, OrderTx, OrderReply, Stale, O.OrderResult;
      OrderMeans(View(), ev, parsed, newId);
      O.OrderOutcome(View(), ev, parsed, newId);
      reply := WriteOrder(ev, parsed, newId);
    }

    method WriteOrder(ev: OrderEvent, parsed: bool, newId: Id) returns (reply: Reply<bool>)
      modifies this
      ensures reply == OrderReply(old(View()), ev, parsed) && View() == OrderTx(old(View()), ev, parsed, newId)
    {
      if ev.id in orderInbox { return Ok(true); }
      if ev.order in cursors && (cursors[ev.order].canceled || cursors[ev.order].version >= ev.version) {
        orderInbox := orderInbox[ev.id := ev];
        return Ok(true);
      }
      if ev.order in byOrder {
        var x := byOrder[ev.order];
        if x !in shipments { return Refused(Missing); }
        if parsed && shipments[x].reservation != ev.reservation { return Refused(ReservationConflict); }
        if !parsed && HeldByBatch(shipments[x]) { return Refused(DispatchPending); }
        if !parsed { shipments := shipments[x := CancelOne(shipments[x])]; }
      } else if parsed {
        shipments := shipments[newId := NewShipment(ev.order, ev.reservation, ev.weight, ev.volume, ev.snapshotOk)];
        byOrder := byOrder[ev.order := newId];
      }
      cursors := cursors[ev.order := Cursor(ev.version, !parsed)];
      orderInbox := orderInbox[ev.id := ev];
      return Ok(true);
    }

    /** A delivery result is found applicable, deferred, or filed as a duplicate or a conflict. What was
        filed stays, and every applied result is its shipment's status. */
    method PersistOrApply(ev: DeliveryEvent, pick: Option<Id>) returns (reply: Reply<bool>)
      requires Valid() && CanPick(View(), ev, pick) && StopFree(View(), ev)
      modifies this
      ensures Valid() && reply == DeliverReply(old(View()), ev) && View() == Deliver(old(View()), ev, pick)
      ensures O.DeliverResult(old(View()), ev, pick, reply, View())
      ensures forall e | e in old(inbox) ::
               e in inbox && (old(inbox)[e].outcome != Deferred ==> inbox[e] == old(inbox)[e])
      ensures forall e | e in inbox && inbox[e].outcome == Applied ::
                var r := inbox[e].event.result;
                r.shipment in shipments && shipments[r.shipment].status == if r.delivered then Delivered else Failed
    {
      hide FI.Inv, Deliver, DeliverReply, CanPick, O.DeliverResult;
      DeliverMeans(View(), ev, pick);
      O.DeliverOutcome(View(), ev, pick);
      reply := FileResult(ev, pick);
    }

    method FileResult(ev: DeliveryEvent, pick: Option<Id>) returns (reply: Reply<bool>)
      requires CanPick(View(), ev, pick)
      modifies this
      ensures reply == DeliverReply(old(View()), ev) && View() == Deliver(old(View()), ev, pick)
    {
      if ev.id in inbox {
        if inbox[ev.id].event != ev { return Refused(PayloadConflict); }
        if inbox[ev.id].outcome != Deferred { return Ok(true); }
      }
      if pick.Some? {
        var other := inbox[pick.value];
        var same := other.event.result == ev.result;
        if same && other.outcome in {Applied, Duplicate} {
          inbox := inbox[ev.id := InboxRow(ev, Duplicate)];
          return Ok(true);
        }
        if !same {
          if other.outcome == Deferred { inbox := inbox[pick.value := other.(outcome := Conflict)]; }
          inbox := inbox[ev.id := InboxRow(ev, Conflict)];
          return Ok(true);
        }
      }
      var x := ev.result.shipment;
      if x !in shipments { inbox := inbox[ev.id := InboxRow(ev, Deferred)]; return Ok(true); }
      var sh := shipments[x];
      if sh.trip != Some(ev.result.trip) { inbox := inbox[ev.id := InboxRow(ev, Conflict)]; return Ok(true); }
      if sh.status != Dispatched {
        inbox := inbox[ev.id := InboxRow(ev, if Terminal(sh.status) then Conflict else Deferred)];
        return Ok(true);
      }
      landing := landing[ev.id := ev];
      return Ok(true);
    }

    /** The write of a result that was found applicable, provided nothing else was recorded of the
        shipment since: the result is filed as applied and becomes the shipment's status for good. */
    method ApplyResult(e: Id)
      requires Valid() && StillDispatched(View(), e)
      modifies this
      ensures Valid() && View() == LandResult(old(View()), e) && O.ApplyResult(old(View()), e, View())
      ensures e in inbox && inbox[e] == InboxRow(old(landing)[e], Applied)
      ensures O.Shows(shipments, old(landing)[e].result)
      ensures forall f | f in old(inbox) ::
               f in inbox && (old(inbox)[f].outcome != Deferred ==> inbox[f] == old(inbox)[f])
    {
      hide FI.Inv, LandResult, O.ApplyResult;
      LandMeans(View(), e);
      O.ApplyOutcome(View(), e);
      ApplyTells(View(), e, LandResult(View(), e));
      WriteResult(e);
    }

    method WriteResult(e: Id)
      requires e in landing && landing[e].result.shipment in shipments
      modifies this
      ensures View() == LandResult(old(View()), e)
    {
      hide Land;
      var ev := landing[e];
      var x := ev.result.shipment;
      shipments := shipments[x := Land(shipments[x], ev.result)];
      inbox := inbox[ev.id := InboxRow(ev, Applied)];
      landing := landing - {e};
    }
  }
}
