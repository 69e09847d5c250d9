/** What every transaction of the fulfillment service keeps, and what follows over whole runs. */
module FulfillmentInvariant {
  import opened Shipments
  import opened Fulfillment

  // ----- Component invariants -----

  ghost predicate Rows(s: State) { forall x | x in s.shipments :: ShipmentOk(s.shipments[x]) }

  /** One shipment per order, and the unique index agrees. */
  ghost predicate Indexed(s: State) {
    && (forall o | o in s.byOrder :: s.byOrder[o] in s.shipments && s.shipments[s.byOrder[o]].order == o)
    && (forall x | x in s.shipments :: s.shipments[x].order in s.byOrder && s.byOrder[s.shipments[x].order] == x)
  }

  ghost predicate IntentIdsUnique(shipments: map<Id, Shipment>) {
    forall x, y | x in shipments && y in shipments && x != y
                  && shipments[x].intent.Some? && shipments[y].intent.Some? ::
      shipments[x].intent.value.id != shipments[y].intent.value.id
  }

  /** Who holds a shipment after these receipts: the last receipt of the shipment says. */
  function Holder(ledger: seq<Receipt>, x: Id): Option<(Id, Id)> {
    if ledger == [] then None
    else
      var last := ledger[|ledger| - 1];
      if ShipmentOf(last) != x then Holder(ledger[..|ledger| - 1], x)
      else match last case Claimed(q, c, _, _, _) => Some((c, q.trip)) case Freed(_, _) => None
  }

  function HeldBy(sh: Shipment): Option<(Id, Id)> {
    if sh.claim.Some? && sh.trip.Some? then Some((sh.claim.value, sh.trip.value)) else None
  }

  /** A receipt fits what came before it: a claim only of a free shipment, a release only of the
      claim that is held, by the trip and the actor that made it. */
  ghost predicate Fits(before: seq<Receipt>, r: Receipt) {
    && (forall x | x in before :: RequestId(x) != RequestId(r))
    && match r
       case Claimed(q, c, _, _, _) => Holder(before, q.shipment) == None && (forall x | x in before :: ClaimOf(x) != c)
       case Freed(q, _) =>
         && Holder(before, q.shipment) == Some((q.claim, q.trip))
         && exists o :: o in before && o.Claimed? && o.claim == q.claim && o.claimReq.shipment == q.shipment
                        && o.claimReq.trip == q.trip && o.claimReq.actor == q.actor
  }

  ghost predicate LedgerOk(ledger: seq<Receipt>) {
    forall k | 0 <= k < |ledger| :: Fits(ledger[..k], ledger[k])
  }

  /** A claim receipt reports the shipment's own weight and volume, and a version it has reached. */
  ghost predicate Weighed(sh: Shipment, r: Receipt) {
    r.Claimed? ==> r.weight == sh.weight && r.volume == sh.volume && r.version <= sh.version
  }

  ghost predicate LedgerAgrees(s: State) {
    && LedgerOk(s.ledger)
    && (forall r | r in s.ledger :: ShipmentOf(r) in s.shipments && Weighed(s.shipments[ShipmentOf(r)], r))
    && (forall x | x in s.shipments :: Holder(s.ledger, x) == HeldBy(s.shipments[x]))
  }

  /** A shipment held by a pending batch, exactly as its request described it. */
  ghost predicate HeldFor(sh: Shipment, b: Id, batch: Batch, item: Item) {
    && sh.intent == Some(Intent(item.dispatch, Some(b), IntentPending, batch.decision == Some(true), None))
    && sh.status == Ready && sh.trip == Some(batch.request.trip) && sh.version == item.version
  }

  ghost predicate IssuedFor(sh: Shipment, b: Id, item: Item) {
    && sh.issued && sh.intent.Some? && sh.intent.value.id == item.dispatch && sh.intent.value.batch == Some(b)
    && sh.intent.value.status.IntentCompleted?
  }

  ghost predicate BatchOk(shipments: map<Id, Shipment>, b: Id, batch: Batch) {
    && batch.request.id == b && DistinctItems(batch.request.items)
    && (batch.status == BatchPending ==>
          forall i | 0 <= i < |batch.request.items| ::
            var item := batch.request.items[i];
            item.shipment in shipments && HeldFor(shipments[item.shipment], b, batch, item))
    && (batch.status == BatchCompleted ==>
          batch.decision == Some(true) && |batch.receipts| == |batch.request.items|
          && forall i | 0 <= i < |batch.request.items| ::
               var item := batch.request.items[i];
               item.shipment in shipments && IssuedFor(shipments[item.shipment], b, item)
               && batch.receipts[i] == ItemReceipt(item.shipment, item.dispatch, item.version + 1))
    && (batch.status == BatchRejected ==> batch.decision != Some(true))
    && (batch.status != BatchCompleted ==>
          forall x | x in shipments && shipments[x].intent.Some? && shipments[x].intent.value.batch == Some(b) ::
            !shipments[x].intent.value.status.IntentCompleted?)
  }

  /** A batch holds this shipment or has dispatched it. */
  predicate BusyForBatch(sh: Shipment) { Busy(sh.intent) && sh.intent.value.batch.Some? }

  ghost predicate BatchTrips(shipments: map<Id, Shipment>, batches: map<Id, Batch>) {
    forall x | x in shipments && BusyForBatch(shipments[x]) && shipments[x].intent.value.batch.value in batches ::
      shipments[x].trip == Some(batches[shipments[x].intent.value.batch.value].request.trip)
  }

  ghost predicate BatchesOk(shipments: map<Id, Shipment>, batches: map<Id, Batch>) {
    && (forall b | b in batches :: BatchOk(shipments, b, batches[b]))
    && (forall x | x in shipments && shipments[x].intent.Some? && shipments[x].intent.value.batch.Some? ::
          shipments[x].intent.value.batch.value in batches)
    && BatchTrips(shipments, batches)
    && (forall x | x in shipments && HeldByBatch(shipments[x]) ::
          var batch := batches[shipments[x].intent.value.batch.value];
          batch.status == BatchPending
          && exists i :: 0 <= i < |batch.request.items| && batch.request.items[i].shipment == x)
  }

  /** Every handled event is covered by its order's cursor. */
  ghost predicate Covered(cursors: map<Id, Cursor>, box: map<Id, OrderEvent>) {
    forall e | e in box ::
      box[e].order in cursors && (cursors[box[e].order].canceled || cursors[box[e].order].version >= box[e].version)
  }

  /** A cursor that is not canceled stands at a confirmation. */
  ghost predicate Backed(cursors: map<Id, Cursor>, box: map<Id, OrderEvent>) {
    forall o | o in cursors && !cursors[o].canceled :: ConfirmedAt(box, o, cursors[o].version)
  }

  ghost predicate ConfirmedAt(box: map<Id, OrderEvent>, o: Id, version: nat) {
    exists e :: e in box && box[e].order == o && box[e].confirms && box[e].version == version
  }

  /** A canceled order has no shipment left before dispatch. */
  ghost predicate CancelFinal(s: State) {
    forall o | o in s.cursors && s.cursors[o].canceled && o in s.byOrder && s.byOrder[o] in s.shipments ::
      Over(s.shipments[s.byOrder[o]].status)
  }

  predicate Over(status: Status) { status == Canceled || DispatchedEver(status) }

  ghost predicate HandlingOk(cursors: map<Id, Cursor>, handling: map<Id, (OrderEvent, bool)>) {
    forall e | e in handling ::
      && handling[e].0.id == e && (handling[e].1 ==> handling[e].0.confirms)
      && (!handling[e].1 && handling[e].0.confirms ==> Stale(cursors, handling[e].0))
  }

  ghost predicate OrdersOk(s: State) {
    Covered(s.cursors, s.orderInbox) && Backed(s.cursors, s.orderInbox) && CancelFinal(s)
    && HandlingOk(s.cursors, s.handling)
  }

  /** All live receipts of the event's trip stop, its own included, carry the event's result. */
  ghost predicate Agreeing(s: State, ev: DeliveryEvent) {
    forall e | e in s.inbox && SameKey(s.inbox[e].event.result, ev.result) && Live(s.inbox[e].outcome) ::
        s.inbox[e].event.result == ev.result
  }

  /** The event is new, or was deferred before. */
  ghost predicate FirstOrRetry(s: State, ev: DeliveryEvent) {
    ev.id in s.inbox ==> s.inbox[ev.id].outcome == Deferred && s.inbox[ev.id].event == ev
  }

  /** What was read of a result on its way still holds, and each belongs to a stop of its own. */
  ghost predicate LandingOk(s: State) {
    && (forall e | e in s.landing ::
          && s.landing[e].id == e && FirstOrRetry(s, s.landing[e]) && Agreeing(s, s.landing[e])
          && s.landing[e].result.shipment in s.shipments)
    && (forall e, f | e in s.landing && f in s.landing && e != f :: !SameKey(s.landing[e].result, s.landing[f].result))
  }

  ghost predicate InboxOk(s: State) {
    && LandingOk(s)
    && (forall e | e in s.inbox :: s.inbox[e].event.id == e)
    && (forall e, f | e in s.inbox && f in s.inbox && SameKey(s.inbox[e].event.result, s.inbox[f].event.result)
                      && Live(s.inbox[e].outcome) && Live(s.inbox[f].outcome) ::
          s.inbox[e].event.result == s.inbox[f].event.result)
    && (forall e, f | e in s.inbox && f in s.inbox && SameKey(s.inbox[e].event.result, s.inbox[f].event.result)
                      && s.inbox[e].outcome == Applied && s.inbox[f].outcome == Applied :: e == f)
    && (forall e | e in s.inbox && s.inbox[e].outcome == Applied ::
          var r := s.inbox[e].event.result;
          r.shipment in s.shipments && s.shipments[r.shipment].status == Landed(r))
  }

  ghost predicate Inv(s: State) {
    Rows(s) && Indexed(s) && IntentIdsUnique(s.shipments) && LedgerAgrees(s) && BatchesOk(s.shipments, s.batches)
    && OrdersOk(s) && InboxOk(s)
  }

  lemma InitInv()
    ensures Inv(INIT)
  {
  }

  // ----- One shipment changes -----

  /** The new intent is the old one, or carries an id no shipment has. */
  ghost predicate IntentKept(s: State, sh: Shipment, sh': Shipment) {
    sh'.intent.Some? ==>
      (sh.intent.Some? && sh'.intent.value.id == sh.intent.value.id) || FreshIntent(s, sh'.intent.value.id)
  }

  lemma PutBatches(s: State, x: Id, sh': Shipment)
    requires x in s.shipments && BatchesOk(s.shipments, s.batches) && Evolves(s.shipments[x], sh')
    requires ShipmentOk(s.shipments[x]) && !(HeldByBatch(sh') && !HeldByBatch(s.shipments[x]))
    ensures BatchesOk(s.shipments[x := sh'], s.batches)
  {
    hide BatchTrips, BatchOk, HistoryOk;
    var t := s.shipments[x := sh'];
    forall b | b in s.batches ensures BatchOk(t, b, s.batches[b]) { PutBatch(s.shipments, x, sh', b, s.batches[b]); }
    PutTrips(s, x, sh');
  }

  lemma PutBatch(shipments: map<Id, Shipment>, x: Id, sh': Shipment, b: Id, batch: Batch)
    requires x in shipments && BatchOk(shipments, b, batch) && Evolves(shipments[x], sh') && ShipmentOk(shipments[x])
    requires !(HeldByBatch(sh') && !HeldByBatch(shipments[x]))
    ensures BatchOk(shipments[x := sh'], b, batch)
  {
    hide HistoryOk, DistinctItems;
  }

  lemma PutTrips(s: State, x: Id, sh': Shipment)
    requires x in s.shipments && BatchTrips(s.shipments, s.batches) && Evolves(s.shipments[x], sh')
    requires ShipmentOk(s.shipments[x]) && !(HeldByBatch(sh') && !HeldByBatch(s.shipments[x]))
    ensures BatchTrips(s.shipments[x := sh'], s.batches)
  {
    hide HistoryOk;
  }

  lemma PutOrders(s: State, x: Id, sh': Shipment)
    requires x in s.shipments && OrdersOk(s) && Indexed(s) && ShipmentOk(s.shipments[x]) && ShipmentOk(sh')
    requires Evolves(s.shipments[x], sh')
    ensures OrdersOk(Put(s, x, sh'))
  {
  }

  lemma PutInbox(s: State, x: Id, sh': Shipment)
    requires x in s.shipments && InboxOk(s) && Evolves(s.shipments[x], sh')
    ensures InboxOk(Put(s, x, sh'))
  {
  }

  lemma PutRows(s: State, x: Id, sh': Shipment)
    requires Rows(s) && Indexed(s) && x in s.shipments && ShipmentOk(sh') && sh'.order == s.shipments[x].order
    ensures Rows(Put(s, x, sh')) && Indexed(Put(s, x, sh'))
  {
    hide ShipmentOk;
  }

  lemma PutIntents(s: State, x: Id, sh': Shipment)
    requires IntentIdsUnique(s.shipments) && x in s.shipments && IntentKept(s, s.shipments[x], sh')
    ensures IntentIdsUnique(Put(s, x, sh').shipments)
  {
  }

  /** Everything but the ledger survives a change of one shipment. */
  ghost predicate InvButLedger(s: State) {
    Rows(s) && Indexed(s) && IntentIdsUnique(s.shipments) && BatchesOk(s.shipments, s.batches) && OrdersOk(s)
    && InboxOk(s)
  }

  ghost predicate Fair(s: State, x: Id, sh': Shipment) {
    && x in s.shipments && ShipmentOk(sh') && Evolves(s.shipments[x], sh') && IntentKept(s, s.shipments[x], sh')
    && !(HeldByBatch(sh') && !HeldByBatch(s.shipments[x]))
  }

  lemma RowAt(s: State, x: Id)
    requires Rows(s) && x in s.shipments
    ensures ShipmentOk(s.shipments[x])
  {
  }

  lemma PutKeepsButLedger(s: State, x: Id, sh': Shipment)
    requires InvButLedger(s) && Fair(s, x, sh')
    ensures InvButLedger(Put(s, x, sh'))
  {
    hide Rows, Indexed, IntentIdsUnique, BatchesOk, OrdersOk, InboxOk;
    assert ShipmentOk(s.shipments[x]) by { RowAt(s, x); }
    PutRows(s, x, sh');
    PutIntents(s, x, sh');
    PutBatches(s, x, sh');
    PutOrders(s, x, sh');
    PutInbox(s, x, sh');
  }

  lemma PutLedger(s: State, x: Id, sh': Shipment)
    requires LedgerAgrees(s) && x in s.shipments && HeldBy(sh') == HeldBy(s.shipments[x])
    requires sh'.weight == s.shipments[x].weight && sh'.volume == s.shipments[x].volume
    requires sh'.version >= s.shipments[x].version
    ensures LedgerAgrees(Put(s, x, sh'))
  {
  }

  lemma FairWeight(s: State, x: Id, sh': Shipment)
    requires Fair(s, x, sh')
    ensures x in s.shipments && sh'.weight == s.shipments[x].weight && sh'.volume == s.shipments[x].volume
    ensures sh'.version >= s.shipments[x].version
  {
  }

  /** Any change of one shipment that keeps its claim keeps the whole invariant. */
  lemma PutKeeps(s: State, x: Id, sh': Shipment)
    requires Inv(s) && x in s.shipments && Fair(s, x, sh') && HeldBy(sh') == HeldBy(s.shipments[x])
    ensures Inv(Put(s, x, sh'))
  {
    hide Rows, Indexed, IntentIdsUnique, BatchesOk, OrdersOk, InboxOk, LedgerAgrees, Fair, Evolves, ShipmentOk,
      HeldBy, Fits;
    PutKeepsButLedger(s, x, sh');
    FairWeight(s, x, sh');
    PutLedger(s, x, sh');
  }

  // ----- Claims -----

  lemma LedgerGrows(ledger: seq<Receipt>, r: Receipt)
    requires LedgerOk(ledger) && Fits(ledger, r)
    ensures LedgerOk(ledger + [r])
  {
    var l := ledger + [r];
    forall k | 0 <= k < |l| ensures Fits(l[..k], l[k]) {
      assert l[..k] == ledger[..k];
      if k == |ledger| { assert ledger[..k] == ledger; }
    }
  }

  lemma HolderGrows(ledger: seq<Receipt>, r: Receipt, x: Id)
    ensures Holder(ledger + [r], x) ==
            if ShipmentOf(r) != x then Holder(ledger, x)
            else match r case Claimed(q, c, _, _, _) => Some((c, q.trip)) case Freed(_, _) => None
  {
    assert (ledger + [r])[..|ledger|] == ledger;
  }

  lemma ReceiptAgrees(s: State, x: Id, sh': Shipment, r: Receipt)
    requires LedgerAgrees(s) && x in s.shipments && ShipmentOf(r) == x && Fits(s.ledger, r) && Weighed(sh', r)
    requires sh'.weight == s.shipments[x].weight && sh'.volume == s.shipments[x].volume
    requires sh'.version >= s.shipments[x].version
    requires HeldBy(sh') == match r case Claimed(q, c, _, _, _) => Some((c, q.trip)) case Freed(_, _) => None
    ensures LedgerAgrees(Put(s, x, sh').(ledger := s.ledger + [r]))
  {
    hide LedgerOk, Fits, Holder, HeldBy;
    var l := s.ledger + [r];
    LedgerGrows(s.ledger, r);
    forall y | y in s.shipments { HolderGrows(s.ledger, r, y); }
    forall e | e in l ensures ShipmentOf(e) in s.shipments && Weighed(s.shipments[x := sh'][ShipmentOf(e)], e) {
      assert e in s.ledger || e == r;
    }
  }

  lemma ClaimFits(s: State, q: ClaimRequest, newId: Id)
    requires LedgerAgrees(s) && FreshClaim(s, newId) && Find(s.ledger, q.id).None? && ClaimReply(s, q, newId).Ok?
    ensures Fits(s.ledger, ClaimReply(s, q, newId).value)
  {
    assert Holder(s.ledger, q.shipment) == HeldBy(s.shipments[q.shipment]);
  }

  lemma ClaimFair(s: State, q: ClaimRequest, newId: Id, sh': Shipment)
    requires Rows(s) && Find(s.ledger, q.id).None? && ClaimReply(s, q, newId).Ok?
    requires var sh := s.shipments[q.shipment];
             sh' == sh.(trip := Some(q.trip), claim := Some(newId), version := sh.version + 1)
    ensures Fair(s, q.shipment, sh') && HeldBy(sh') == Some((newId, q.trip))
  {
  }

  lemma ClaimKeeps(s: State, q: ClaimRequest, newId: Id)
    requires Inv(s) && FreshClaim(s, newId)
    ensures Inv(Claim(s, q, newId))
  {
    hide Rows, Indexed, IntentIdsUnique, BatchesOk, OrdersOk, InboxOk, LedgerAgrees, Fair, Evolves, ShipmentOk,
      HeldBy, Fits;
    if Find(s.ledger, q.id).None? && ClaimReply(s, q, newId).Ok? {
      var sh := s.shipments[q.shipment];
      var sh' := sh.(trip := Some(q.trip), claim := Some(newId), version := sh.version + 1);
      ClaimFair(s, q, newId, sh');
      ClaimFits(s, q, newId);
      PutKeepsButLedger(s, q.shipment, sh');
      ReceiptAgrees(s, q.shipment, sh', ClaimReply(s, q, newId).value);
      LedgerAside(Put(s, q.shipment, sh'), s.ledger + [ClaimReply(s, q, newId).value]);
    }
  }

  lemma LedgerAside(s: State, ledger: seq<Receipt>)
    requires InvButLedger(s)
    ensures InvButLedger(s.(ledger := ledger))
  {
    hide ShipmentOk, BatchesOk, IntentIdsUnique, Covered, Backed, HandlingOk, SameKey, Live;
  }

  lemma ReleaseFits(s: State, q: ReleaseRequest)
    requires LedgerAgrees(s) && Find(s.ledger, q.id).None? && ReleaseReply(s, q).Ok?
    ensures Fits(s.ledger, ReleaseReply(s, q).value)
  {
    assert Holder(s.ledger, q.shipment) == HeldBy(s.shipments[q.shipment]);
    assert FindClaim(s.ledger, q.claim).value in s.ledger;
  }

  lemma ReleaseFair(s: State, q: ReleaseRequest, sh': Shipment)
    requires Rows(s) && Find(s.ledger, q.id).None? && ReleaseReply(s, q).Ok?
    requires var sh := s.shipments[q.shipment]; sh' == sh.(trip := None, claim := None, version := sh.version + 1)
    ensures Fair(s, q.shipment, sh') && HeldBy(sh') == None
  {
  }

  lemma ReleaseKeeps(s: State, q: ReleaseRequest)
    requires Inv(s)
    ensures Inv(Release(s, q))
  {
    hide Rows, Indexed, IntentIdsUnique, BatchesOk, OrdersOk, InboxOk, LedgerAgrees, Fair, Evolves, ShipmentOk,
      HeldBy, Fits;
    if Find(s.ledger, q.id).None? && ReleaseReply(s, q).Ok? {
      var sh := s.shipments[q.shipment];
      var sh' := sh.(trip := None, claim := None, version := sh.version + 1);
      ReleaseFair(s, q, sh');
      ReleaseFits(s, q);
      PutKeepsButLedger(s, q.shipment, sh');
      ReceiptAgrees(s, q.shipment, sh', ReleaseReply(s, q).value);
      LedgerAside(Put(s, q.shipment, sh'), s.ledger + [ReleaseReply(s, q).value]);
    }
  }

  // ----- Commands and single dispatch -----

  lemma RecordFair(s: State, x: Id, base: Shipment, to: Status, event: Event)
    requires Rows(s) && x in s.shipments && !HeldByBatch(s.shipments[x])
    requires Edge(s.shipments[x].status, to, event) && base == s.shipments[x]
    requires to != Dispatched || DispatchedEver(base.status)
    requires to == Canceled ==> !Pending(base.intent)
    ensures Fair(s, x, Record(base, to, event)) && HeldBy(Record(base, to, event)) == HeldBy(base)
  {
    RecordKeepsHistory(base, to, event);
  }

  lemma CommandKeeps(s: State, x: Id, version: nat, c: Command)
    requires Inv(s)
    ensures Inv(Transition(s, x, version, c))
  {
    hide Rows, Indexed, IntentIdsUnique, BatchesOk, OrdersOk, InboxOk, LedgerAgrees, Fair, Evolves, ShipmentOk,
      HeldBy, Fits;
    if TransitionReply(s, x, version, c).Ok? {
      var to := Target(c);
      RecordFair(s, x, s.shipments[x], to, TransitionTo(to).value.1);
      PutKeeps(s, x, Record(s.shipments[x], to, TransitionTo(to).value.1));
    }
  }

  /** A change of the intent alone that neither starts nor ends a batch hold. */
  lemma IntentFair(s: State, x: Id, i: Intent, sh': Shipment)
    requires Rows(s) && x in s.shipments && sh' == s.shipments[x].(intent := Some(i))
    requires IntentKept(s, s.shipments[x], sh') && !HeldByBatch(s.shipments[x]) && i.batch.None?
    requires s.shipments[x].status == Ready && !i.status.IntentCompleted?
    requires i.status.IntentPending? ==> s.shipments[x].trip.None?
    requires i.status.IntentRejected? ==> i.verdict != Some(true)
    ensures Fair(s, x, sh') && HeldBy(sh') == HeldBy(s.shipments[x])
  {
  }

  lemma IntendKeeps(s: State, x: Id, id: Id, version: nat)
    requires Inv(s) && Enabled(s, DoIntend(x, id, version))
    ensures Inv(Intend(s, x, id, version))
  {
    hide Rows, Indexed, IntentIdsUnique, BatchesOk, OrdersOk, InboxOk, LedgerAgrees, Fair, Evolves, ShipmentOk,
      HeldBy, Fits;
    if IntendReply(s, x, id, version) == Ok(true) {
      var i := Intent(id, None, IntentPending, false, None);
      IntentFair(s, x, i, s.shipments[x].(intent := Some(i)));
      PutKeeps(s, x, s.shipments[x].(intent := Some(i)));
    }
  }

  lemma AskKeeps(s: State, x: Id, verdict: bool)
    requires Inv(s) && CanAsk(s, x)
    ensures Inv(Ask(s, x, verdict))
  {
    hide Indexed, IntentIdsUnique, BatchesOk, OrdersOk, InboxOk, LedgerAgrees, Fair, Evolves, HistoryOk, HeldBy;
    var i := s.shipments[x].intent.value;
    if i.verdict.None? {
      var i' := i.(verdict := Some(verdict));
      IntentFair(s, x, i', s.shipments[x].(intent := Some(i')));
      PutKeeps(s, x, s.shipments[x].(intent := Some(i')));
    }
  }

  lemma RejectKeeps(s: State, x: Id, id: Id)
    requires Inv(s) && Answered(s, x, id, false)
    ensures Inv(RejectIntent(s, x, id))
  {
    hide Indexed, IntentIdsUnique, BatchesOk, OrdersOk, InboxOk, LedgerAgrees, Fair, Evolves, HistoryOk, HeldBy;
    var sh := s.shipments[x];
    if Pending(sh.intent) {
      var i := sh.intent.value.(status := IntentRejected);
      IntentFair(s, x, i, sh.(intent := Some(i)));
      PutKeeps(s, x, sh.(intent := Some(i)));
    }
  }

  lemma IssueOk(sh: Shipment)
    requires ShipmentOk(sh) && sh.status == Ready && sh.intent.Some? && (sh.intent.value.batch.None? ==> sh.trip.None?)
    ensures ShipmentOk(Issue(sh)) && HeldBy(Issue(sh)) == HeldBy(sh) && sh.history <= Issue(sh).history
  {
    RecordKeepsHistory(sh, Dispatched, WasDispatched);
  }

  lemma CompleteFair(s: State, x: Id, id: Id)
    requires Rows(s) && Answered(s, x, id, true) && CompleteReply(s, x, id) == Ok(true)
    ensures Fair(s, x, Issue(s.shipments[x])) && HeldBy(Issue(s.shipments[x])) == HeldBy(s.shipments[x])
  {
    IssueOk(s.shipments[x]);
  }

  lemma CompleteKeeps(s: State, x: Id, id: Id)
    requires Inv(s) && Answered(s, x, id, true)
    ensures Inv(CompleteIntent(s, x, id))
  {
    hide Rows, Indexed, IntentIdsUnique, BatchesOk, OrdersOk, InboxOk, LedgerAgrees, Fair, Evolves, ShipmentOk,
      HeldBy, Fits;
    if CompleteReply(s, x, id) == Ok(true) {
      CompleteFair(s, x, id);
      PutKeeps(s, x, Issue(s.shipments[x]));
    }
  }

  // ----- Order events -----

  /** A shipment that has not left is canceled, and a stand-alone intent of it is dropped. */
  lemma CancelRow(sh: Shipment, sh': Shipment)
    requires ShipmentOk(sh) && !DispatchedEver(sh.status) && sh.status != Canceled && sh' == CancelOne(sh)
    requires !HeldByBatch(sh)
    ensures ShipmentOk(sh') && Evolves(sh, sh') && sh'.status == Canceled && !Pending(sh'.intent)
    ensures HeldBy(sh') == HeldBy(sh)
    ensures sh'.intent.Some? ==> sh.intent.Some? && sh'.intent.value.id == sh.intent.value.id
  {
    var intent := if Pending(sh.intent) then Some(sh.intent.value.(status := IntentRejected)) else sh.intent;
    RecordKeepsHistory(sh.(intent := intent), Canceled, WasCanceled);
  }

  lemma UnchangedFair(s: State, x: Id)
    requires Rows(s) && x in s.shipments
    ensures Fair(s, x, s.shipments[x])
  {
    hide HistoryOk, RowOk;
  }

  lemma CancelFair(s: State, x: Id)
    requires Rows(s) && x in s.shipments && !HeldByBatch(s.shipments[x])
    ensures Fair(s, x, CancelOne(s.shipments[x])) && HeldBy(CancelOne(s.shipments[x])) == HeldBy(s.shipments[x])
    ensures Over(CancelOne(s.shipments[x]).status)
  {
    hide ShipmentOk, Evolves, HeldBy, FreshIntent;
    var sh := s.shipments[x];
    RowAt(s, x);
    if DispatchedEver(sh.status) {
      RecordFair(s, x, sh, sh.status, CancelRejected);
    } else if sh.status == Canceled {
      UnchangedFair(s, x);
    } else {
      CancelRow(sh, CancelOne(sh));
    }
  }

  lemma OrderReadKeeps(s: State, ev: OrderEvent)
    requires Inv(s)
    ensures Inv(OrderRead(s, ev))
  {
    hide ShipmentOk, BatchOk, LedgerOk, Holder, Covered, Backed;
    HandlingGrows(s.cursors, s.handling, ev);
  }

  lemma HandlingGrows(cursors: map<Id, Cursor>, handling: map<Id, (OrderEvent, bool)>, ev: OrderEvent)
    requires HandlingOk(cursors, handling)
    ensures HandlingOk(cursors, handling[ev.id := (ev, ev.confirms && !Stale(cursors, ev))])
  {
  }

  /** Moving a cursor forward keeps every handled event covered. */
  lemma CursorMoves(s: State, m: State, ev: OrderEvent, parsed: bool)
    requires OrdersOk(m) && !Stale(s.cursors, ev) && ev.id !in s.orderInbox && (parsed ==> ev.confirms)
    requires m.cursors == s.cursors && m.orderInbox == s.orderInbox
    requires !parsed && ev.order in m.byOrder && m.byOrder[ev.order] in m.shipments ==>
             Over(m.shipments[m.byOrder[ev.order]].status)
    ensures OrdersOk(m.(cursors := s.cursors[ev.order := Cursor(ev.version, !parsed)],
             orderInbox := s.orderInbox[ev.id := ev]))
  {
    var cursors, box := s.cursors[ev.order := Cursor(ev.version, !parsed)], s.orderInbox[ev.id := ev];
    hide Covered, Backed, HandlingOk, Stale;
    CursorCovers(s.cursors, s.orderInbox, ev, parsed);
    CursorBacked(s.cursors, s.orderInbox, ev, parsed);
    CursorHandling(s.cursors, m.handling, ev, parsed);
  }

  lemma CursorCovers(cursors: map<Id, Cursor>, box: map<Id, OrderEvent>, ev: OrderEvent, parsed: bool)
    requires Covered(cursors, box) && !Stale(cursors, ev)
    ensures Covered(cursors[ev.order := Cursor(ev.version, !parsed)], box[ev.id := ev])
  {
  }

  lemma CursorHandling(cursors: map<Id, Cursor>, handling: map<Id, (OrderEvent, bool)>, ev: OrderEvent, parsed: bool)
    requires HandlingOk(cursors, handling) && !Stale(cursors, ev)
    ensures HandlingOk(cursors[ev.order := Cursor(ev.version, !parsed)], handling)
  {
  }

  lemma BoxGrows(box: map<Id, OrderEvent>, ev: OrderEvent, o: Id, version: nat)
    requires ev.id !in box && ConfirmedAt(box, o, version)
    ensures ConfirmedAt(box[ev.id := ev], o, version)
  {
    var e :| e in box && box[e].order == o && box[e].confirms && box[e].version == version;
    assert box[ev.id := ev][e] == box[e];
  }

  lemma CursorBacked(cursors: map<Id, Cursor>, box: map<Id, OrderEvent>, ev: OrderEvent, parsed: bool)
    requires Backed(cursors, box) && ev.id !in box && (parsed ==> ev.confirms)
    ensures Backed(cursors[ev.order := Cursor(ev.version, !parsed)], box[ev.id := ev])
  {
    var cursors' := cursors[ev.order := Cursor(ev.version, !parsed)];
    forall o | o in cursors' && !cursors'[o].canceled ensures ConfirmedAt(box[ev.id := ev], o, cursors'[o].version) {
      if o == ev.order {
        assert box[ev.id := ev][ev.id] == ev;
      } else {
        BoxGrows(box, ev, o, cursors[o].version);
      }
    }
  }

  lemma CreateBatches(s: State, x: Id, sh: Shipment)
    requires BatchesOk(s.shipments, s.batches) && x !in s.shipments && sh.intent == None
    ensures BatchesOk(s.shipments[x := sh], s.batches)
  {
    forall b | b in s.batches ensures BatchOk(s.shipments[x := sh], b, s.batches[b]) {
      assert BatchOk(s.shipments, b, s.batches[b]);
    }
  }

  lemma CreateRows(s: State, x: Id, sh: Shipment)
    requires Rows(s) && Indexed(s) && IntentIdsUnique(s.shipments) && LedgerAgrees(s)
    requires x !in s.shipments && sh.order !in s.byOrder && ShipmentOk(sh) && sh.intent == None && HeldBy(sh) == None
    ensures var t := Put(s, x, sh).(byOrder := s.byOrder[sh.order := x]);
            Rows(t) && Indexed(t) && IntentIdsUnique(t.shipments) && LedgerAgrees(t)
  {
    hide ShipmentOk, LedgerOk;
    HolderUnlisted(s.ledger, x);
  }

  lemma CreateEvents(s: State, x: Id, sh: Shipment)
    requires OrdersOk(s) && Indexed(s) && x !in s.shipments && sh.order !in s.byOrder
    requires sh.order in s.cursors ==> !s.cursors[sh.order].canceled
    ensures OrdersOk(Put(s, x, sh).(byOrder := s.byOrder[sh.order := x]))
  {
    hide Covered, Backed, HandlingOk;
  }

  lemma CreateInbox(s: State, x: Id, sh: Shipment)
    requires InboxOk(s) && x !in s.shipments
    ensures InboxOk(Put(s, x, sh).(byOrder := s.byOrder[sh.order := x]))
  {
  }

  lemma CreateKeeps(s: State, x: Id, sh: Shipment)
    requires Inv(s) && x !in s.shipments && sh.order !in s.byOrder
    requires ShipmentOk(sh) && sh.intent == None && HeldBy(sh) == None
    requires sh.order in s.cursors ==> !s.cursors[sh.order].canceled
    ensures Inv(Put(s, x, sh).(byOrder := s.byOrder[sh.order := x]))
  {
    hide Rows, Indexed, IntentIdsUnique, BatchesOk, OrdersOk, InboxOk, LedgerAgrees, Fair, Evolves, ShipmentOk,
      HeldBy, Fits;
    CreateBatches(s, x, sh);
    CreateRows(s, x, sh);
    CreateEvents(s, x, sh);
    CreateInbox(s, x, sh);
  }

  lemma {:induction false} HolderUnlisted(ledger: seq<Receipt>, x: Id)
    requires forall r | r in ledger :: ShipmentOf(r) != x
    ensures Holder(ledger, x) == None
  {
    if ledger != [] { HolderUnlisted(ledger[..|ledger| - 1], x); }
  }

  /** A confirmation is never carried out as a cancellation: one that was not parsed is stale. */
  lemma UnparsedIsStale(s: State, e: Id)
    requires Inv(s) && e in s.handling && s.handling[e].0.confirms && !s.handling[e].1
    ensures Stale(s.cursors, s.handling[e].0)
  {
  }

  /** Bookkeeping of a handled order event touches neither shipments nor claims nor batches. */
  lemma Handled(m: State, cursors: map<Id, Cursor>, orderInbox: map<Id, OrderEvent>)
    requires Inv(m) && OrdersOk(m.(cursors := cursors, orderInbox := orderInbox))
    ensures Inv(m.(cursors := cursors, orderInbox := orderInbox))
  {
    hide ShipmentOk, BatchOk, LedgerOk, Holder, OrdersOk;
  }

  lemma OrderTxKeeps(s: State, ev: OrderEvent, parsed: bool, newId: Id)
    requires Inv(s) && newId !in s.shipments
    requires (parsed ==> ev.confirms) && (ev.confirms && !parsed ==> Stale(s.cursors, ev))
    ensures Inv(OrderTx(s, ev, parsed, newId)) && OrderTx(s, ev, parsed, newId).handling == s.handling
  {
    hide Rows, Indexed, IntentIdsUnique, BatchesOk, OrdersOk, InboxOk, LedgerAgrees, Fair, Evolves, ShipmentOk,
      HeldBy, Fits;
    hide Record, CancelOne, HistoryOk, RowOk, Stale;
    if OrderReply(s, ev, parsed).Refused? || ev.id in s.orderInbox {
    } else {
      var cursors, box := s.cursors[ev.order := Cursor(ev.version, !parsed)], s.orderInbox[ev.id := ev];
      if Stale(s.cursors, ev) {
        StaleRecorded(s, ev);
        Handled(s, s.cursors, box);
      } else if ev.order in s.byOrder && !parsed {
        var x := s.byOrder[ev.order];
        CancelFair(s, x);
        var m := Put(s, x, CancelOne(s.shipments[x]));
        PutKeeps(s, x, CancelOne(s.shipments[x]));
        CursorMoves(s, m, ev, parsed);
        Handled(m, cursors, box);
      } else if ev.order !in s.byOrder && parsed {
        var sh := NewShipment(ev.order, ev.reservation, ev.weight, ev.volume, ev.snapshotOk);
        var m := Put(s, newId, sh).(byOrder := s.byOrder[sh.order := newId]);
        NewOk(s, ev);
        CreateKeeps(s, newId, sh);
        CursorMoves(s, m, ev, parsed);
        Handled(m, cursors, box);
      } else {
        CursorMoves(s, s, ev, parsed);
        Handled(s, cursors, box);
      }
    }
  }

  lemma NewOk(s: State, ev: OrderEvent)
    requires !Stale(s.cursors, ev)
    ensures var sh := NewShipment(ev.order, ev.reservation, ev.weight, ev.volume, ev.snapshotOk);
            ShipmentOk(sh) && HeldBy(sh) == None && sh.order == ev.order && sh.intent == None
    ensures ev.order in s.cursors ==> !s.cursors[ev.order].canceled
  {
  }

  lemma StaleRecorded(s: State, ev: OrderEvent)
    requires OrdersOk(s) && Stale(s.cursors, ev) && ev.id !in s.orderInbox
    ensures OrdersOk(s.(orderInbox := s.orderInbox[ev.id := ev]))
  {
    hide HandlingOk;
    forall o | o in s.cursors && !s.cursors[o].canceled
      ensures ConfirmedAt(s.orderInbox[ev.id := ev], o, s.cursors[o].version)
    {
      BoxGrows(s.orderInbox, ev, o, s.cursors[o].version);
    }
  }

  // ----- Batches -----

  ghost predicate Listed(items: seq<Item>, x: Id) { exists i :: 0 <= i < |items| && items[i].shipment == x }

  lemma ListedFront(items: seq<Item>, x: Id)
    requires items != []
    ensures Listed(items, x) <==> Listed(items[..|items| - 1], x) || items[|items| - 1].shipment == x
  {
    var n := |items| - 1;
    assert forall i | 0 <= i < n :: items[..n][i] == items[i];
  }

  lemma {:induction false} HoldElse(shipments: map<Id, Shipment>, b: Id, items: seq<Item>, x: Id)
    requires !Listed(items, x) && forall i | 0 <= i < |items| :: items[i].shipment in shipments
    ensures x in Hold(shipments, b, items) <==> x in shipments
    ensures x in shipments ==> Hold(shipments, b, items)[x] == shipments[x]
  {
    if items != [] {
      ListedFront(items, x);
      HoldElse(shipments, b, items[..|items| - 1], x);
    }
  }

  lemma {:induction false} HoldItem(shipments: map<Id, Shipment>, b: Id, items: seq<Item>, i: nat)
    requires DistinctItems(items) && i < |items| && forall j | 0 <= j < |items| :: items[j].shipment in shipments
    ensures items[i].shipment in Hold(shipments, b, items)
    ensures Hold(shipments, b, items)[items[i].shipment]
             == shipments[items[i].shipment].(intent := Some(BatchIntent(b, items[i])))
  {
    hide Listed, BatchIntent;
    var n := |items| - 1;
    if i < n {
      HoldItem(shipments, b, items[..n], i);
    } else {
      FrontApart(items);
      HoldElse(shipments, b, items[..n], items[n].shipment);
    }
  }

  lemma HoldAt(shipments: map<Id, Shipment>, b: Id, items: seq<Item>)
    requires DistinctItems(items) && forall i | 0 <= i < |items| :: items[i].shipment in shipments
    ensures Hold(shipments, b, items).Keys == shipments.Keys
    ensures forall i | 0 <= i < |items| ::
              Hold(shipments, b, items)[items[i].shipment]
              == shipments[items[i].shipment].(intent := Some(BatchIntent(b, items[i])))
    ensures forall x | x in shipments && !Listed(items, x) :: Hold(shipments, b, items)[x] == shipments[x]
  {
    hide Hold, BatchIntent;
    forall i | 0 <= i < |items| { HoldItem(shipments, b, items, i); }
    forall x | !Listed(items, x) { HoldElse(shipments, b, items, x); }
    forall x: Id ensures x in Hold(shipments, b, items) <==> x in shipments {
      if Listed(items, x) { var i :| 0 <= i < |items| && items[i].shipment == x; }
    }
  }

  lemma FrontApart(items: seq<Item>)
    requires DistinctItems(items) && items != []
    ensures !Listed(items[..|items| - 1], items[|items| - 1].shipment)
  {
  }

  lemma {:induction false} IssueElse(shipments: map<Id, Shipment>, items: seq<Item>, x: Id)
    requires !Listed(items, x)
    ensures x in IssueAll(shipments, items) <==> x in shipments
    ensures x in shipments ==> IssueAll(shipments, items)[x] == shipments[x]
  {
    hide Issue;
    if items != [] {
      ListedFront(items, x);
      IssueElse(shipments, items[..|items| - 1], x);
    }
  }

  lemma {:induction false} IssueItem(shipments: map<Id, Shipment>, items: seq<Item>, i: nat)
    requires DistinctItems(items) && i < |items| && items[i].shipment in shipments
    requires shipments[items[i].shipment].intent.Some?
    ensures items[i].shipment in IssueAll(shipments, items)
    ensures IssueAll(shipments, items)[items[i].shipment] == Issue(shipments[items[i].shipment])
  {
    hide Listed, Issue;
    var n := |items| - 1;
    if i < n {
      IssueItem(shipments, items[..n], i);
    } else {
      FrontApart(items);
      IssueElse(shipments, items[..n], items[n].shipment);
    }
  }

  lemma IssueAllAt(shipments: map<Id, Shipment>, items: seq<Item>)
    requires DistinctItems(items)
    requires forall i | 0 <= i < |items| :: items[i].shipment in shipments && shipments[items[i].shipment].intent.Some?
    ensures IssueAll(shipments, items).Keys == shipments.Keys
    ensures forall i | 0 <= i < |items| ::
             IssueAll(shipments, items)[items[i].shipment] == Issue(shipments[items[i].shipment])
    ensures forall x | x in shipments && !Listed(items, x) :: IssueAll(shipments, items)[x] == shipments[x]
  {
    hide IssueAll, Issue;
    forall i | 0 <= i < |items| { IssueItem(shipments, items, i); }
    forall x | !Listed(items, x) { IssueElse(shipments, items, x); }
    forall x: Id ensures x in IssueAll(shipments, items) <==> x in shipments {
      if Listed(items, x) { var i :| 0 <= i < |items| && items[i].shipment == x; }
    }
  }

  /** How a batch step may change the shipments: only the listed ones, and each in the same way. */
  ghost predicate Holds(s: State, t: map<Id, Shipment>, q: BatchRequest) {
    && t.Keys == s.shipments.Keys
    && (forall i | 0 <= i < |q.items| :: q.items[i].shipment in s.shipments
          && t[q.items[i].shipment] == s.shipments[q.items[i].shipment].(intent := Some(BatchIntent(q.id, q.items[i]))))
    && (forall x | x in s.shipments && !Listed(q.items, x) :: t[x] == s.shipments[x])
  }

  lemma PrepareOld(s: State, t: map<Id, Shipment>, q: BatchRequest, b: Id)
    requires Rows(s) && BatchesOk(s.shipments, s.batches) && b in s.batches && q.id !in s.batches
    requires AllDispatchable(s, q) && Holds(s, t, q)
    ensures BatchOk(t, b, s.batches[b])
  {
    hide HistoryOk, DistinctItems;
    assert BatchOk(s.shipments, b, s.batches[b]);
    BusyUntouched(s, t, q);
    assert forall x | x in s.shipments && Listed(q.items, x) ::
        t[x].intent.Some? && t[x].intent.value.batch == Some(q.id);
    assert forall x | x in s.shipments && !Listed(q.items, x) :: t[x] == s.shipments[x];
    OldBatchOk(s.shipments, t, b, s.batches[b]);
  }

  lemma BusyUntouched(s: State, t: map<Id, Shipment>, q: BatchRequest)
    requires AllDispatchable(s, q) && Holds(s, t, q)
    ensures forall x | x in s.shipments && Busy(s.shipments[x].intent) :: t[x] == s.shipments[x]
  {
    forall x | x in s.shipments && Busy(s.shipments[x].intent) ensures t[x] == s.shipments[x] {
      forall i | 0 <= i < |q.items| ensures q.items[i].shipment != x {
        assert Dispatchable(s, q.trip, q.items[i]);
      }
    }
  }

  lemma OldBatchOk(a: map<Id, Shipment>, t: map<Id, Shipment>, b: Id, batch: Batch)
    requires BatchOk(a, b, batch) && t.Keys == a.Keys
    requires forall x | x in a && Busy(a[x].intent) :: t[x] == a[x]
    requires forall x | x in t && t[x].intent.Some? && t[x].intent.value.batch == Some(b) :: t[x] == a[x]
    ensures BatchOk(t, b, batch)
  {
    hide DistinctItems;
  }

  lemma PrepareNew(s: State, t: map<Id, Shipment>, q: BatchRequest)
    requires DistinctItems(q.items) && AllDispatchable(s, q) && Holds(s, t, q)
    requires BatchesOk(s.shipments, s.batches) && q.id !in s.batches
    ensures BatchOk(t, q.id, Batch(q, BatchPending, None, []))
  {
    hide BatchOk;
    forall x | x in t ensures t[x] == s.shipments[x] || (t[x].intent.Some? && t[x].intent.value.status.IntentPending?) {
      if Listed(q.items, x) { var i :| 0 <= i < |q.items| && q.items[i].shipment == x; }
    }
    NewBatchOk(s, t, q);
  }

  lemma NewBatchOk(s: State, t: map<Id, Shipment>, q: BatchRequest)
    requires DistinctItems(q.items) && AllDispatchable(s, q) && Holds(s, t, q)
    requires BatchesOk(s.shipments, s.batches) && q.id !in s.batches
    requires forall x | x in t ::
             t[x] == s.shipments[x] || (t[x].intent.Some? && t[x].intent.value.status.IntentPending?)
    ensures BatchOk(t, q.id, Batch(q, BatchPending, None, []))
  {
    forall i | 0 <= i < |q.items|
      ensures HeldFor(t[q.items[i].shipment], q.id, Batch(q, BatchPending, None, []), q.items[i])
    {
      assert Dispatchable(s, q.trip, q.items[i]);
    }
  }

  lemma PrepareTrips(s: State, t: map<Id, Shipment>, q: BatchRequest)
    requires BatchesOk(s.shipments, s.batches) && q.id !in s.batches && AllDispatchable(s, q) && Holds(s, t, q)
    ensures BatchTrips(t, s.batches[q.id := Batch(q, BatchPending, None, [])])
  {
    hide BatchOk;
    var batches := s.batches[q.id := Batch(q, BatchPending, None, [])];
    forall x | x in t && BusyForBatch(t[x]) && t[x].intent.value.batch.value in batches
      ensures t[x].trip == Some(batches[t[x].intent.value.batch.value].request.trip)
    {
      if Listed(q.items, x) {
        var i :| 0 <= i < |q.items| && q.items[i].shipment == x;
        assert Dispatchable(s, q.trip, q.items[i]);
      }
    }
  }

  lemma PrepareBatches(s: State, t: map<Id, Shipment>, q: BatchRequest)
    requires Rows(s) && BatchesOk(s.shipments, s.batches) && q.id !in s.batches
    requires DistinctItems(q.items) && AllDispatchable(s, q) && Holds(s, t, q)
    ensures BatchesOk(t, s.batches[q.id := Batch(q, BatchPending, None, [])])
  {
    hide BatchOk, HistoryOk, ShipmentOk, BatchTrips;
    var batches := s.batches[q.id := Batch(q, BatchPending, None, [])];
    PrepareTrips(s, t, q);
    forall b | b in batches ensures BatchOk(t, b, batches[b]) {
      if b == q.id { PrepareNew(s, t, q); } else { PrepareOld(s, t, q, b); }
    }
    forall x | x in t && HeldByBatch(t[x])
      ensures t[x].intent.value.batch.value in batches
      ensures var batch := batches[t[x].intent.value.batch.value];
              batch.status == BatchPending
              && exists i :: 0 <= i < |batch.request.items| && batch.request.items[i].shipment == x
    {
      assert Listed(q.items, x) || t[x] == s.shipments[x];
    }
  }

  ghost predicate Intended(q: BatchRequest, x: Id, sh: Shipment) {
    exists i :: 0 <= i < |q.items| && q.items[i].shipment == x && sh.intent == Some(BatchIntent(q.id, q.items[i]))
  }

  lemma PrepareIntents(s: State, t: map<Id, Shipment>, q: BatchRequest)
    requires IntentIdsUnique(s.shipments) && Holds(s, t, q) && DistinctItems(q.items)
    requires forall i | 0 <= i < |q.items| :: FreshIntent(s, q.items[i].dispatch)
    ensures IntentIdsUnique(t)
  {
    forall x | x in s.shipments ensures t[x] == s.shipments[x] || Intended(q, x, t[x]) {
      if Listed(q.items, x) { var i :| 0 <= i < |q.items| && q.items[i].shipment == x; }
    }
  }

  lemma HoldOk(s: State, q: BatchRequest, i: nat)
    requires Rows(s) && AllDispatchable(s, q) && i < |q.items|
    ensures var sh := s.shipments[q.items[i].shipment];
            ShipmentOk(sh.(intent := Some(BatchIntent(q.id, q.items[i])))) && !Terminal(sh.status) && !sh.issued
  {
    assert Dispatchable(s, q.trip, q.items[i]);
  }

  /** Shipments keep everything but their intents. */
  ghost predicate OnlyIntents(a: map<Id, Shipment>, t: map<Id, Shipment>) {
    t.Keys == a.Keys && forall x | x in a :: t[x] == a[x].(intent := t[x].intent)
  }

  lemma IntentsAside(s: State, t: map<Id, Shipment>, batches: map<Id, Batch>)
    requires Indexed(s) && LedgerAgrees(s) && OrdersOk(s) && InboxOk(s) && OnlyIntents(s.shipments, t)
    ensures var u := s.(shipments := t, batches := batches); Indexed(u) && LedgerAgrees(u) && OrdersOk(u) && InboxOk(u)
  {
    hide LedgerOk, Holder, Covered, Backed, HandlingOk, InboxOk;
    IntentsInbox(s, t, batches);
  }

  lemma IntentsInbox(s: State, t: map<Id, Shipment>, batches: map<Id, Batch>)
    requires InboxOk(s) && OnlyIntents(s.shipments, t)
    ensures InboxOk(s.(shipments := t, batches := batches))
  {
    hide SameKey, Live;
  }

  lemma PrepareRows(s: State, t: map<Id, Shipment>, q: BatchRequest)
    requires Rows(s) && AllDispatchable(s, q) && Holds(s, t, q)
    ensures OnlyIntents(s.shipments, t) && forall x | x in t :: ShipmentOk(t[x])
  {
    hide ShipmentOk;
    forall x | x in t ensures ShipmentOk(t[x]) && t[x] == s.shipments[x].(intent := t[x].intent) {
      if Listed(q.items, x) {
        var i :| 0 <= i < |q.items| && q.items[i].shipment == x;
        HoldOk(s, q, i);
      }
    }
  }

  lemma PrepareKeeps(s: State, q: BatchRequest)
    requires Inv(s) && Enabled(s, DoPrepare(q))
    ensures Inv(Prepare(s, q))
  {
    hide Rows, Indexed, IntentIdsUnique, BatchesOk, OrdersOk, InboxOk, LedgerAgrees, ShipmentOk;
    if PrepareReply(s, q) == Ok(true) {
      if AllDispatchable(s, q) {
        var t := Hold(s.shipments, q.id, q.items);
        forall i | 0 <= i < |q.items| ensures q.items[i].shipment in s.shipments {
          assert Dispatchable(s, q.trip, q.items[i]);
        }
        HoldAt(s.shipments, q.id, q.items);
        PrepareRows(s, t, q);
        PrepareIntents(s, t, q);
        PrepareBatches(s, t, q);
        IntentsAside(s, t, Prepare(s, q).batches);
        RowsAre(Prepare(s, q));
      } else {
        RejectedOutright(s, q);
      }
    }
  }

  lemma RowsAre(s: State)
    requires forall x | x in s.shipments :: ShipmentOk(s.shipments[x])
    ensures Rows(s)
  {
  }

  lemma RejectedOutright(s: State, q: BatchRequest)
    requires Inv(s) && q.id !in s.batches && DistinctItems(q.items)
    ensures Inv(s.(batches := s.batches[q.id := Batch(q, BatchRejected, None, [])]))
  {
    hide Rows, Indexed, IntentIdsUnique, OrdersOk, InboxOk, LedgerAgrees;
    var t := s.(batches := s.batches[q.id := Batch(q, BatchRejected, None, [])]);
    assert BatchesOk(t.shipments, t.batches);
    BatchesAside(s, t.batches);
  }

  lemma BatchesAside(s: State, batches: map<Id, Batch>)
    requires Rows(s) && Indexed(s) && LedgerAgrees(s) && OrdersOk(s) && InboxOk(s)
    ensures var u := s.(batches := batches); Rows(u) && Indexed(u) && LedgerAgrees(u) && OrdersOk(u) && InboxOk(u)
  {
    hide ShipmentOk, LedgerOk, Holder, Covered, Backed, HandlingOk;
  }
}
