/** What changes and what never changes along every run of the fulfillment service. */
module FulfillmentProgress {
  import opened Shipments
  import opened Fulfillment
  import opened FulfillmentInvariant
  import opened FulfillmentRuns
  import opened ClaimLedger

  // ----- One step -----

  /** The batch whose own shipments a step may move. */
  function Mover(step: Step): Option<Id> {
    match step case DoDecide(b, _) => Some(b) case DoCommit(b) => Some(b) case _ => None
  }

  /** A shipment held by a batch that the step does not belong to is left exactly as it was. */
  ghost predicate HeldKept(a: map<Id, Shipment>, t: map<Id, Shipment>, mover: Option<Id>) {
    forall x | x in a && x in t && HeldByBatch(a[x]) && a[x].intent.value.batch != mover :: t[x] == a[x]
  }

  ghost predicate ShipmentsAdvance(a: map<Id, Shipment>, t: map<Id, Shipment>) {
    forall x | x in a :: x in t && Advances(a[x], t[x])
  }

  ghost predicate CursorAdvances(c: Cursor, c': Cursor) { c' == c || (!c.canceled && c.version < c'.version) }

  ghost predicate CursorsAdvance(a: map<Id, Cursor>, t: map<Id, Cursor>) {
    forall o | o in a :: o in t && CursorAdvances(a[o], t[o])
  }

  ghost predicate BatchAdvances(a: Batch, t: Batch) {
    && t.request == a.request && (a.decision.Some? ==> t.decision == a.decision)
    && (a.status != BatchPending ==> t == a)
  }

  ghost predicate BatchesAdvance(a: map<Id, Batch>, t: map<Id, Batch>) {
    forall b | b in a :: b in t && BatchAdvances(a[b], t[b])
  }

  ghost predicate RowAdvances(a: InboxRow, t: InboxRow) { t.event == a.event && (a.outcome != Deferred ==> t == a) }

  ghost predicate InboxAdvances(a: map<Id, InboxRow>, t: map<Id, InboxRow>) {
    forall e | e in a :: e in t && RowAdvances(a[e], t[e])
  }

  /** Every table only moves forward. */
  ghost predicate Onward(s: State, s': State) {
    && ShipmentsAdvance(s.shipments, s'.shipments) && s.ledger <= s'.ledger
    && (forall o | o in s.byOrder :: o in s'.byOrder && s'.byOrder[o] == s.byOrder[o])
    && (forall e | e in s.orderInbox :: e in s'.orderInbox && s'.orderInbox[e] == s.orderInbox[e])
    && CursorsAdvance(s.cursors, s'.cursors) && BatchesAdvance(s.batches, s'.batches)
    && InboxAdvances(s.inbox, s'.inbox)
  }

  ghost predicate Stays(s: State, s': State) {
    && s.ledger <= s'.ledger && s'.byOrder == s.byOrder && s'.orderInbox == s.orderInbox && s'.cursors == s.cursors
    && s'.batches == s.batches && s'.inbox == s.inbox
  }

  lemma FairOnward(s: State, x: Id, sh': Shipment, s': State)
    requires Fair(s, x, sh') && s'.shipments == s.shipments[x := sh']
    ensures ShipmentsAdvance(s.shipments, s'.shipments) && HeldKept(s.shipments, s'.shipments, None)
  {
    hide ShipmentOk, HistoryOk;
  }

  lemma SameOnward(s: State, s': State)
    requires s'.shipments == s.shipments
    ensures ShipmentsAdvance(s.shipments, s'.shipments) && HeldKept(s.shipments, s'.shipments, None)
  {
  }

  lemma StaysOnward(s: State, s': State)
    requires Stays(s, s') && ShipmentsAdvance(s.shipments, s'.shipments)
    ensures Onward(s, s')
  {
    hide ShipmentsAdvance;
  }

  lemma ClaimOnward(s: State, q: ClaimRequest, newId: Id)
    requires Inv(s)
    ensures Onward(s, Claim(s, q, newId)) && HeldKept(s.shipments, Claim(s, q, newId).shipments, None)
  {
    hide Inv, Fair, Onward, ShipmentsAdvance, HeldKept;
    var s' := Claim(s, q, newId);
    if Find(s.ledger, q.id).None? && ClaimReply(s, q, newId).Ok? {
      var sh := s.shipments[q.shipment];
      var sh' := sh.(trip := Some(q.trip), claim := Some(newId), version := sh.version + 1);
      InvRows(s);
      ClaimFair(s, q, newId, sh');
      FairOnward(s, q.shipment, sh', s');
    } else {
      SameOnward(s, s');
    }
    StaysOnward(s, s');
  }

  lemma InvRows(s: State)
    requires Inv(s)
    ensures Rows(s)
  {
    hide Rows, Indexed, IntentIdsUnique, BatchesOk, OrdersOk, InboxOk, LedgerAgrees;
  }

  lemma ReleaseOnward(s: State, q: ReleaseRequest)
    requires Inv(s)
    ensures Onward(s, Release(s, q)) && HeldKept(s.shipments, Release(s, q).shipments, None)
  {
    hide Inv, Fair, Onward, ShipmentsAdvance, HeldKept;
    var s' := Release(s, q);
    if Find(s.ledger, q.id).None? && ReleaseReply(s, q).Ok? {
      var sh := s.shipments[q.shipment];
      var sh' := sh.(trip := None, claim := None, version := sh.version + 1);
      InvRows(s);
      ReleaseFair(s, q, sh');
      FairOnward(s, q.shipment, sh', s');
    } else {
      SameOnward(s, s');
    }
    StaysOnward(s, s');
  }

  lemma CommandOnward(s: State, x: Id, version: nat, c: Command)
    requires Inv(s)
    ensures Onward(s, Transition(s, x, version, c))
    ensures HeldKept(s.shipments, Transition(s, x, version, c).shipments, None)
  {
    hide Inv, Fair, Onward, ShipmentsAdvance, HeldKept;
    var s' := Transition(s, x, version, c);
    if TransitionReply(s, x, version, c).Ok? {
      var to := Target(c);
      InvRows(s);
      RecordFair(s, x, s.shipments[x], to, TransitionTo(to).value.1);
      FairOnward(s, x, Record(s.shipments[x], to, TransitionTo(to).value.1), s');
    } else {
      SameOnward(s, s');
    }
    StaysOnward(s, s');
  }

  /** The steps of a stand-alone dispatch. */
  lemma SingleOnward(s: State, x: Id, i: Intent, s': State)
    requires Inv(s) && x in s.shipments && s' == Put(s, x, s.shipments[x].(intent := Some(i)))
    requires IntentKept(s, s.shipments[x], s.shipments[x].(intent := Some(i))) && !HeldByBatch(s.shipments[x])
    requires i.batch.None?
    requires s.shipments[x].status == Ready && !i.status.IntentCompleted?
    requires i.status.IntentPending? ==> s.shipments[x].trip.None?
    requires i.status.IntentRejected? ==> i.verdict != Some(true)
    ensures Onward(s, s') && HeldKept(s.shipments, s'.shipments, None)
  {
    hide Inv, Fair, Onward, ShipmentsAdvance, HeldKept;
    InvRows(s);
    IntentFair(s, x, i, s.shipments[x].(intent := Some(i)));
    FairOnward(s, x, s.shipments[x].(intent := Some(i)), s');
    StaysOnward(s, s');
  }

  lemma PendingRow(s: State, x: Id)
    requires Inv(s) && x in s.shipments && Pending(s.shipments[x].intent)
    ensures s.shipments[x].status == Ready
    ensures s.shipments[x].intent.value.batch.None? ==> s.shipments[x].trip.None?
  {
    hide Indexed, IntentIdsUnique, BatchesOk, OrdersOk, InboxOk, LedgerAgrees, HistoryOk;
  }

  lemma IntendOnward(s: State, x: Id, id: Id, version: nat)
    requires Inv(s) && Enabled(s, DoIntend(x, id, version))
    ensures Onward(s, Intend(s, x, id, version)) && HeldKept(s.shipments, Intend(s, x, id, version).shipments, None)
  {
    hide Inv, Onward, ShipmentsAdvance, HeldKept;
    var s' := Intend(s, x, id, version);
    if IntendReply(s, x, id, version) == Ok(true) {
      SingleOnward(s, x, Intent(id, None, IntentPending, false, None), s');
    } else {
      SameOnward(s, s');
      StaysOnward(s, s');
    }
  }

  lemma AskOnward(s: State, x: Id, verdict: bool)
    requires Inv(s) && CanAsk(s, x)
    ensures Onward(s, Ask(s, x, verdict)) && HeldKept(s.shipments, Ask(s, x, verdict).shipments, None)
  {
    hide Inv, Onward, ShipmentsAdvance, HeldKept;
    var s' := Ask(s, x, verdict);
    if s.shipments[x].intent.value.verdict.None? {
      PendingRow(s, x);
      SingleOnward(s, x, s.shipments[x].intent.value.(verdict := Some(verdict)), s');
    } else {
      SameOnward(s, s');
      StaysOnward(s, s');
    }
  }

  lemma RejectOnward(s: State, x: Id, id: Id)
    requires Inv(s) && Answered(s, x, id, false)
    ensures Onward(s, RejectIntent(s, x, id)) && HeldKept(s.shipments, RejectIntent(s, x, id).shipments, None)
  {
    hide Inv, Onward, ShipmentsAdvance, HeldKept;
    var s' := RejectIntent(s, x, id);
    if Pending(s.shipments[x].intent) {
      PendingRow(s, x);
      SingleOnward(s, x, s.shipments[x].intent.value.(status := IntentRejected), s');
    } else {
      SameOnward(s, s');
      StaysOnward(s, s');
    }
  }

  lemma CompleteOnward(s: State, x: Id, id: Id)
    requires Inv(s) && Answered(s, x, id, true)
    ensures Onward(s, CompleteIntent(s, x, id)) && HeldKept(s.shipments, CompleteIntent(s, x, id).shipments, None)
  {
    hide Inv, Fair, Onward, ShipmentsAdvance, HeldKept;
    var s' := CompleteIntent(s, x, id);
    if CompleteReply(s, x, id) == Ok(true) {
      InvRows(s);
      CompleteFair(s, x, id);
      FairOnward(s, x, Issue(s.shipments[x]), s');
    } else {
      SameOnward(s, s');
    }
    StaysOnward(s, s');
  }

  /** How the bookkeeping of an order event moves. */
  ghost predicate OrderShape(s: State, ev: OrderEvent, parsed: bool, newId: Id, s': State) {
    && s'.ledger == s.ledger && s'.batches == s.batches && s'.inbox == s.inbox && s'.landing == s.landing
    && (s'.byOrder == s.byOrder || (ev.order !in s.byOrder && s'.byOrder == s.byOrder[ev.order := newId]))
    && (s'.orderInbox == s.orderInbox || (ev.id !in s.orderInbox && s'.orderInbox == s.orderInbox[ev.id := ev]))
    && (|| s'.cursors == s.cursors
        || (!Stale(s.cursors, ev) && s'.cursors == s.cursors[ev.order := Cursor(ev.version, !parsed)]))
  }

  lemma OrderShaped(s: State, ev: OrderEvent, parsed: bool, newId: Id)
    ensures OrderShape(s, ev, parsed, newId, OrderTx(s, ev, parsed, newId))
  {
    hide CancelOne, Stale, NewShipment;
    if OrderReply(s, ev, parsed).Refused? || ev.id in s.orderInbox {
    } else if Stale(s.cursors, ev) {
    } else if ev.order in s.byOrder {
      if parsed {} else {}
    } else {
      if parsed {} else {}
    }
  }

  lemma OrderRest(s: State, ev: OrderEvent, parsed: bool, newId: Id, s': State)
    requires OrderShape(s, ev, parsed, newId, s') && ShipmentsAdvance(s.shipments, s'.shipments)
    ensures Onward(s, s')
  {
    hide ShipmentsAdvance;
  }

  lemma CreateOnward(s: State, x: Id, sh: Shipment, s': State)
    requires x !in s.shipments && s'.shipments == s.shipments[x := sh]
    ensures ShipmentsAdvance(s.shipments, s'.shipments) && HeldKept(s.shipments, s'.shipments, None)
  {
  }

  lemma OrderOnward(s: State, ev: OrderEvent, parsed: bool, newId: Id)
    requires Inv(s) && newId !in s.shipments
    ensures Onward(s, OrderTx(s, ev, parsed, newId))
    ensures HeldKept(s.shipments, OrderTx(s, ev, parsed, newId).shipments, None)
  {
    hide Inv, Fair, Onward, ShipmentsAdvance, HeldKept, CancelOne, Rows, OrderShape;
    var s' := OrderTx(s, ev, parsed, newId);
    if OrderReply(s, ev, parsed).Refused? || ev.id in s.orderInbox || Stale(s.cursors, ev)
      || (parsed <==> ev.order in s.byOrder)
    {
      SameOnward(s, s');
    } else if parsed {
      CreateOnward(s, newId, NewShipment(ev.order, ev.reservation, ev.weight, ev.volume, ev.snapshotOk), s');
    } else {
      var x := s.byOrder[ev.order];
      InvRows(s);
      CancelFair(s, x);
      FairOnward(s, x, CancelOne(s.shipments[x]), s');
    }
    OrderShaped(s, ev, parsed, newId);
    OrderRest(s, ev, parsed, newId, s');
  }

  // ----- Batch steps -----

  ghost predicate MovedOn(b: Id, sh: Shipment, sh': Shipment) {
    Advances(sh, sh') && HeldByBatch(sh) && sh.intent.value.batch == Some(b)
  }

  /** A batch step that advances its own held shipments and leaves the rest alone. */
  lemma ListedOnward(a: map<Id, Shipment>, t: map<Id, Shipment>, b: Id, items: seq<Item>)
    requires t.Keys == a.Keys
    requires forall x | x in a && !Listed(items, x) :: t[x] == a[x]
    requires forall x | x in a && Listed(items, x) :: MovedOn(b, a[x], t[x])
    ensures ShipmentsAdvance(a, t) && HeldKept(a, t, Some(b))
  {
    hide Advances;
    forall x | x in a
      ensures Advances(a[x], t[x]) && (HeldByBatch(a[x]) && a[x].intent.value.batch != Some(b) ==> t[x] == a[x])
    {
      if Listed(items, x) { assert MovedOn(b, a[x], t[x]); } else { AdvancesSelf(a[x]); }
    }
  }

  lemma AdvancesSelf(sh: Shipment)
    ensures Advances(sh, sh)
  {
  }

  lemma HeldForAdvances(sh: Shipment, b: Id, batch: Batch, item: Item, sh': Shipment)
    requires ShipmentOk(sh) && HeldFor(sh, b, batch, item)
    requires (sh' == Marked(sh, true) || sh' == Marked(sh, false) || sh' == Issue(sh) || sh' == sh)
    ensures MovedOn(b, sh, sh')
  {
    if sh' == Issue(sh) { RecordKeepsHistory(sh, Dispatched, WasDispatched); }
  }

  lemma PrepareAdvances(s: State, q: BatchRequest, t: map<Id, Shipment>)
    requires Rows(s) && AllDispatchable(s, q) && Holds(s, t, q)
    ensures ShipmentsAdvance(s.shipments, t) && HeldKept(s.shipments, t, None)
  {
    forall x | x in s.shipments
      ensures Advances(s.shipments[x], t[x]) && (HeldByBatch(s.shipments[x]) ==> t[x] == s.shipments[x])
    {
      if Listed(q.items, x) {
        var i :| 0 <= i < |q.items| && q.items[i].shipment == x;
        assert Dispatchable(s, q.trip, q.items[i]);
        RowAt(s, x);
      }
    }
  }

  lemma BatchStored(s: State, s': State, b: Id, batch': Batch, t: map<Id, Shipment>)
    requires s' == s.(shipments := t, batches := s.batches[b := batch']) && ShipmentsAdvance(s.shipments, t)
    requires b in s.batches ==> BatchAdvances(s.batches[b], batch')
    ensures Onward(s, s')
  {
    hide ShipmentsAdvance;
  }

  lemma PrepareOnward(s: State, q: BatchRequest)
    requires Inv(s) && Enabled(s, DoPrepare(q))
    ensures Onward(s, Prepare(s, q)) && HeldKept(s.shipments, Prepare(s, q).shipments, None)
  {
    hide Inv, Onward, ShipmentsAdvance, HeldKept, Hold, Rows;
    var s' := Prepare(s, q);
    if PrepareReply(s, q) == Ok(true) && AllDispatchable(s, q) {
      forall i | 0 <= i < |q.items|
        ensures q.items[i].shipment in s.shipments
      {
        assert Dispatchable(s, q.trip, q.items[i]);
      }
      HoldAt(s.shipments, q.id, q.items);
      InvRows(s);
      PrepareAdvances(s, q, s'.shipments);
      BatchStored(s, s', q.id, s'.batches[q.id], s'.shipments);
    } else {
      SameOnward(s, s');
      if PrepareReply(s, q) == Ok(true) { BatchStored(s, s', q.id, s'.batches[q.id], s'.shipments); }
      else { StaysOnward(s, s'); }
    }
  }

  /** What a step of batch `b` does to each shipment it lists. */
  lemma OwnOnward(s: State, b: Id, t: map<Id, Shipment>)
    requires Inv(s) && b in s.batches && s.batches[b].status == BatchPending && t.Keys == s.shipments.Keys
    requires forall x | x in s.shipments && !Listed(s.batches[b].request.items, x) :: t[x] == s.shipments[x]
    requires forall x | x in s.shipments && Listed(s.batches[b].request.items, x) && s.shipments[x].intent.Some? ::
               t[x] in {Marked(s.shipments[x], true), Marked(s.shipments[x], false), Issue(s.shipments[x]),
                   s.shipments[x]}
    ensures ShipmentsAdvance(s.shipments, t) && HeldKept(s.shipments, t, Some(b))
  {
    hide Inv, ShipmentsAdvance, HeldKept, Rows, BatchesOk, ShipmentOk, Marked, Issue;
    var items := s.batches[b].request.items;
    forall x | x in s.shipments && Listed(items, x) ensures MovedOn(b, s.shipments[x], t[x]) {
      InvRows(s);
      InvBatches(s);
      RowAt(s, x);
      var i := ListedHeld(s, b, x);
      HeldForAdvances(s.shipments[x], b, s.batches[b], items[i], t[x]);
    }
    ListedOnward(s.shipments, t, b, items);
  }

  lemma InvBatches(s: State)
    requires Inv(s)
    ensures BatchesOk(s.shipments, s.batches)
  {
    hide Rows, Indexed, IntentIdsUnique, BatchesOk, OrdersOk, InboxOk, LedgerAgrees;
  }

  lemma MovedKeys(a: map<Id, Shipment>, t: map<Id, Shipment>, b: Id, items: seq<Item>)
    requires BatchMove(a, t, b, items)
    ensures t.Keys == a.Keys && forall x | x in a && !Listed(items, x) :: t[x] == a[x]
  {
  }

  lemma DecideOnward(s: State, b: Id, granted: bool)
    requires Inv(s) && CanDecide(s, b, granted)
    ensures Onward(s, Decide(s, b, granted)) && HeldKept(s.shipments, Decide(s, b, granted).shipments, Some(b))
  {
    hide Inv, Onward, ShipmentsAdvance, HeldKept, Grant, BatchMove, Marked;
    var s' := Decide(s, b, granted);
    var batch := s.batches[b];
    if batch.status == BatchPending {
      if granted {
        GrantMoves(s, b);
        MovedKeys(s.shipments, s'.shipments, b, batch.request.items);
      }
      OwnOnward(s, b, s'.shipments);
      BatchStored(s, s', b, s'.batches[b], s'.shipments);
    } else {
      SameOnward(s, s');
      StaysOnward(s, s');
      KeptByAny(s.shipments, s'.shipments, Some(b));
    }
  }

  lemma KeptByAny(a: map<Id, Shipment>, t: map<Id, Shipment>, mover: Option<Id>)
    requires HeldKept(a, t, None)
    ensures HeldKept(a, t, mover)
  {
  }

  lemma CommitOnward(s: State, b: Id)
    requires Inv(s) && CanCommit(s, b)
    ensures Onward(s, Commit(s, b)) && HeldKept(s.shipments, Commit(s, b).shipments, Some(b))
  {
    hide Inv, Onward, ShipmentsAdvance, HeldKept, DropAll, IssueAll, BatchMove, Marked, Issue, CommitReply, BatchesOk;
    var s' := Commit(s, b);
    var batch := s.batches[b];
    if batch.status == BatchPending {
      BindingNeverChanges(s, b);
      InvBatches(s);
      if batch.decision == Some(true) {
        var t := CommitIssues(s, b);
        assert forall x | x in s.shipments && Listed(batch.request.items, x) && s.shipments[x].intent.Some? ::
            t[x] == Issue(s.shipments[x]);
      } else {
        DropMoves(s, b);
        MovedKeys(s.shipments, s'.shipments, b, batch.request.items);
      }
      OwnOnward(s, b, s'.shipments);
      BatchStored(s, s', b, s'.batches[b], s'.shipments);
    } else {
      SameOnward(s, s');
      StaysOnward(s, s');
      KeptByAny(s.shipments, s'.shipments, Some(b));
    }
  }

  lemma SaveAdvances(a: map<Id, InboxRow>, ev: DeliveryEvent, outcome: Outcome)
    requires ev.id in a ==> a[ev.id].outcome == Deferred && a[ev.id].event == ev
    ensures InboxAdvances(a, a[ev.id := InboxRow(ev, outcome)])
  {
  }

  ghost predicate InboxStep(s: State, s': State) {
    && s'.ledger == s.ledger && s'.byOrder == s.byOrder && s'.orderInbox == s.orderInbox && s'.cursors == s.cursors
    && s'.batches == s.batches && InboxAdvances(s.inbox, s'.inbox)
  }

  lemma InboxStepOnward(s: State, s': State)
    requires InboxStep(s, s') && ShipmentsAdvance(s.shipments, s'.shipments)
    ensures Onward(s, s')
  {
    hide ShipmentsAdvance, InboxAdvances;
  }

  /** Filing touches the inbox alone. */
  lemma SaveShape(s: State, ev: DeliveryEvent, outcome: Outcome)
    ensures var s' := Save(s, ev, outcome);
            && s'.shipments == s.shipments && s'.ledger == s.ledger && s'.byOrder == s.byOrder
            && s'.orderInbox == s.orderInbox && s'.cursors == s.cursors && s'.batches == s.batches
            && s'.landing == s.landing && s'.inbox == s.inbox[ev.id := InboxRow(ev, outcome)]
  {
  }

  /** So does finding out what to do with an event. */
  lemma SettleShape(s: State, ev: DeliveryEvent)
    ensures var s' := Settle(s, ev);
            && s'.shipments == s.shipments && s'.ledger == s.ledger && s'.batches == s.batches
            && (|| s' == Save(s, ev, Deferred) || s' == Save(s, ev, Conflict)
                || s' == s.(landing := s.landing[ev.id := ev]))
  {
    SaveShape(s, ev, Deferred);
    SaveShape(s, ev, Conflict);
    hide Save, Terminal;
  }

  /** Handling an event leaves shipments, ledger and batches alone. */
  lemma DeliverShape(s: State, ev: DeliveryEvent, pick: Option<Id>)
    requires CanPick(s, ev, pick)
    ensures var s' := Deliver(s, ev, pick);
            s'.shipments == s.shipments && s'.ledger == s.ledger && s'.batches == s.batches
  {
    hide SameKey, Live, Settle, Save;
    SettleShape(s, ev);
    SaveShape(s, ev, Duplicate);
    SaveShape(s, ev, Conflict);
    if pick.Some? {
      var other := s.inbox[pick.value];
      SaveShape(s.(inbox := s.inbox[pick.value := other.(outcome := Conflict)]), ev, Conflict);
    }
  }

  lemma SaveStep(s: State, ev: DeliveryEvent, outcome: Outcome, m: State)
    requires (ev.id in s.inbox ==> s.inbox[ev.id].outcome == Deferred && s.inbox[ev.id].event == ev)
    requires m == s.(shipments := m.shipments)
    ensures InboxStep(s, Save(m, ev, outcome))
  {
    hide InboxAdvances;
    SaveAdvances(s.inbox, ev, outcome);
  }

  lemma SettleStep(s: State, ev: DeliveryEvent, s': State)
    requires s' == Settle(s, ev) && FirstOrRetry(s, ev)
    ensures InboxStep(s, s') && s'.shipments == s.shipments
  {
    hide InboxAdvances, Terminal;
    SaveStep(s, ev, Deferred, s);
    SaveStep(s, ev, Conflict, s);
    InboxSame(s.inbox);
  }

  lemma LandStep(s: State, e: Id, s': State)
    requires e in s.landing && s' == LandResult(s, e) && FirstOrRetry(s, s.landing[e])
    ensures InboxStep(s, s')
  {
    hide InboxAdvances, Land, FirstOrRetry, Save;
    var ev := s.landing[e];
    var x := ev.result.shipment;
    var m := s.(landing := s.landing - {e});
    LandInbox(s, ev);
    SaveShape(if x in s.shipments then Put(m, x, Land(s.shipments[x], ev.result)) else m, ev, Applied);
  }

  lemma LandInbox(s: State, ev: DeliveryEvent)
    requires FirstOrRetry(s, ev)
    ensures InboxAdvances(s.inbox, s.inbox[ev.id := InboxRow(ev, Applied)])
  {
    hide InboxAdvances;
    SaveAdvances(s.inbox, ev, Applied);
  }

  lemma LandOnward(s: State, e: Id)
    requires Inv(s) && StillDispatched(s, e)
    ensures Onward(s, LandResult(s, e)) && HeldKept(s.shipments, LandResult(s, e).shipments, None)
  {
    hide Rows, Indexed, IntentIdsUnique, BatchesOk, OrdersOk, InboxOk, LedgerAgrees, Fair, ShipmentsAdvance, HeldKept,
      InboxStep, Onward, HeldBy, Land, FirstOrRetry, Agreeing, StopFree;
    var s', x := LandResult(s, e), s.landing[e].result.shipment;
    LandingRow(s, e);
    LandStep(s, e, s');
    LandFair(s, x, s.landing[e].result);
    FairOnward(s, x, Land(s.shipments[x], s.landing[e].result), s');
    InboxStepOnward(s, s');
  }

  /** The two receipts of a contradiction. */
  lemma ContradictAdvances(a: map<Id, InboxRow>, ev: DeliveryEvent, e: Id)
    requires (ev.id in a ==> a[ev.id].outcome == Deferred && a[ev.id].event == ev) && e in a
    requires a[e].outcome == Deferred && e != ev.id
    ensures InboxAdvances(a, a[e := a[e].(outcome := Conflict)][ev.id := InboxRow(ev, Conflict)])
  {
  }

  lemma DeliverCases(s: State, ev: DeliveryEvent, pick: Option<Id>, s': State)
    requires CanPick(s, ev, pick) && s' == Deliver(s, ev, pick)
    ensures || s' == s
            || (&& FirstOrRetry(s, ev)
                && (s' == Settle(s, ev) || s' == Save(s, ev, Duplicate) || s' == Save(s, ev, Conflict)))
            || (&& FirstOrRetry(s, ev) && pick.Some? && pick.value in s.inbox && pick.value != ev.id
                && s.inbox[pick.value].outcome == Deferred
                && s' == s.(inbox := s.inbox[pick.value := s.inbox[pick.value].(outcome := Conflict)]
                                            [ev.id := InboxRow(ev, Conflict)]))
  {
    hide Settle, SameKey, Live;
  }

  lemma DeliverOnward(s: State, ev: DeliveryEvent, pick: Option<Id>)
    requires Inv(s) && CanPick(s, ev, pick)
    ensures Onward(s, Deliver(s, ev, pick)) && HeldKept(s.shipments, Deliver(s, ev, pick).shipments, None)
  {
    hide Inv, Onward, ShipmentsAdvance, HeldKept, Settle, Deliver, InboxAdvances, CanPick, Save;
    var s' := Deliver(s, ev, pick);
    DeliverCases(s, ev, pick, s');
    SaveShape(s, ev, Duplicate);
    SaveShape(s, ev, Conflict);
    InboxSame(s.inbox);
    if s' == Settle(s, ev) && FirstOrRetry(s, ev) {
      SettleStep(s, ev, s');
      SameOnward(s, s');
    } else {
      SameOnward(s, s');
      if FirstOrRetry(s, ev) {
        SaveAdvances(s.inbox, ev, Duplicate);
        SaveAdvances(s.inbox, ev, Conflict);
        if pick.Some? && pick.value in s.inbox && pick.value != ev.id && s.inbox[pick.value].outcome == Deferred {
          ContradictAdvances(s.inbox, ev, pick.value);
        }
      }
    }
    InboxStepOnward(s, s');
  }

  lemma InboxSame(a: map<Id, InboxRow>)
    ensures InboxAdvances(a, a)
  {
  }

  lemma HandlingOnward(s: State, m: State, handling: map<Id, (OrderEvent, bool)>)
    requires Onward(s, m)
    ensures Onward(s, m.(handling := handling))
  {
    hide ShipmentsAdvance, CursorsAdvance, BatchesAdvance, InboxAdvances;
  }

  lemma StepOnward(s: State, step: Step)
    requires Inv(s) && Enabled(s, step)
    ensures Onward(s, Apply(s, step)) && HeldKept(s.shipments, Apply(s, step).shipments, Mover(step))
  {
    hide Inv, Onward, HeldKept, Claim, Release, OrderRead, OrderTx, Transition, Intend, Ask, RejectIntent,
      CompleteIntent, Prepare, Decide, Commit, Deliver, LandResult;
    match step
    case DoClaim(q, newId) => ClaimOnward(s, q, newId);
    case DoRelease(q) => ReleaseOnward(s, q);
    case DoOrderRead(ev) => ReadOnward(s, ev);
    case DoOrderTx(e, newId) =>
      OrderOnward(s, s.handling[e].0, s.handling[e].1, newId);
      HandlingOnward(s, OrderTx(s, s.handling[e].0, s.handling[e].1, newId), s.handling - {e});
    case DoCommand(x, version, c) => CommandOnward(s, x, version, c);
    case DoIntend(x, id, version) => IntendOnward(s, x, id, version);
    case DoAsk(x, verdict) => AskOnward(s, x, verdict);
    case DoReject(x, id) => RejectOnward(s, x, id);
    case DoComplete(x, id) => CompleteOnward(s, x, id);
    case DoPrepare(q) => PrepareOnward(s, q);
    case DoDecide(b, granted) => DecideOnward(s, b, granted);
    case DoCommit(b) => CommitOnward(s, b);
    case DoDeliver(ev, pick) => DeliverOnward(s, ev, pick);
    case DoLand(e) => LandOnward(s, e);
    case DoAbandon(e) => AbandonOnward(s, e);
  }

  lemma AbandonOnward(s: State, e: Id)
    ensures var s' := s.(landing := s.landing - {e}); Onward(s, s') && HeldKept(s.shipments, s'.shipments, None)
  {
    hide Onward;
    SameOnward(s, s.(landing := s.landing - {e}));
    StaysOnward(s, s.(landing := s.landing - {e}));
  }

  lemma ReadOnward(s: State, ev: OrderEvent)
    ensures Onward(s, OrderRead(s, ev)) && HeldKept(s.shipments, OrderRead(s, ev).shipments, None)
  {
    hide Onward;
    SameOnward(s, OrderRead(s, ev));
    StaysOnward(s, OrderRead(s, ev));
  }

  // ----- Whole runs -----

  lemma AdvancesTrans(a: Shipment, b: Shipment, c: Shipment)
    requires Advances(a, b) && Advances(b, c)
    ensures Advances(a, c)
  {
    assert a.history <= c.history;
  }

  lemma OnwardTrans(s: State, m: State, s': State)
    requires Onward(s, m) && Onward(m, s')
    ensures Onward(s, s')
  {
    hide Advances;
    forall x | x in s.shipments ensures x in s'.shipments && Advances(s.shipments[x], s'.shipments[x]) {
      AdvancesTrans(s.shipments[x], m.shipments[x], s'.shipments[x]);
    }
  }

  /** Along every run history rows are only appended, versions never drop, absorbing statuses stay,
      the ledger only grows, a settled batch or delivery receipt never changes, and an order's cursor
      moves strictly upward until it is canceled and then stops. */
  lemma {:induction false} RunOnward(s: State, steps: seq<Step>, s': State)
    requires Inv(s) && Runs(s, steps, s')
    ensures Inv(s') && Onward(s, s')
    decreases |steps|
  {
    hide Inv, Onward;
    if steps == [] {
      OnwardSelf(s);
    } else {
      var m := Apply(s, steps[0]);
      StepKeeps(s, steps[0]);
      StepOnward(s, steps[0]);
      RunOnward(m, steps[1..], s');
      OnwardTrans(s, m, s');
    }
  }

  lemma OnwardSelf(s: State)
    ensures Onward(s, s)
  {
  }

  /** A shipment held by a batch stays exactly as it is (status, trip, version, intent) along any run
      in which that batch is neither decided nor committed. */
  lemma {:induction false} HeldIsFrozen(s: State, steps: seq<Step>, s': State, x: Id)
    requires Inv(s) && Runs(s, steps, s') && x in s.shipments && HeldByBatch(s.shipments[x])
    requires forall i | 0 <= i < |steps| :: Mover(steps[i]) != s.shipments[x].intent.value.batch
    ensures x in s'.shipments && s'.shipments[x] == s.shipments[x]
    decreases |steps|
  {
    hide Inv;
    if steps != [] {
      StepKeeps(s, steps[0]);
      StepOnward(s, steps[0]);
      HeldIsFrozen(Apply(s, steps[0]), steps[1..], s', x);
    }
  }

  /** A replayed claim gets its first response in every later state and changes nothing. */
  lemma ClaimIdempotent(s: State, q: ClaimRequest, newId: Id, steps: seq<Step>, s': State, otherId: Id)
    requires Inv(s) && FreshClaim(s, newId) && ClaimReply(s, q, newId).Ok? && Runs(Claim(s, q, newId), steps, s')
    ensures ClaimReply(s', q, otherId) == ClaimReply(s, q, newId) && Claim(s', q, otherId) == s'
  {
    hide Inv, ClaimReply, Claim;
    ClaimKeeps(s, q, newId);
    RunOnward(Claim(s, q, newId), steps, s');
    ClaimReplayed(s, q, newId, s', otherId);
  }

  lemma ReleaseIdempotent(s: State, q: ReleaseRequest, steps: seq<Step>, s': State)
    requires Inv(s) && ReleaseReply(s, q).Ok? && Runs(Release(s, q), steps, s')
    ensures ReleaseReply(s', q) == ReleaseReply(s, q) && Release(s', q) == s'
  {
    hide Inv, ReleaseReply, Release;
    ReleaseKeeps(s, q);
    RunOnward(Release(s, q), steps, s');
    ReleaseReplayed(s, q, s');
  }

  /** A granted batch, once complete, reports exactly the requested versions plus one. */
  lemma GrantedReceipts(steps: seq<Step>, s: State, b: Id, i: nat)
    requires Runs(INIT, steps, s) && b in s.batches && s.batches[b].status == BatchCompleted
    requires i < |s.batches[b].request.items|
    ensures s.batches[b].decision == Some(true) && |s.batches[b].receipts| == |s.batches[b].request.items|
    ensures var item := s.batches[b].request.items[i];
            s.batches[b].receipts[i] == ItemReceipt(item.shipment, item.dispatch, item.version + 1)
  {
    hide Inv, BatchesOk;
    InitInv();
    RunKeeps(INIT, steps, s);
    InvBatches(s);
    BatchAt(s, b);
  }

  /** A shipment that left under a batch left under one that completed. */
  lemma IssuedUnder(s: State, x: Id)
    requires Inv(s) && x in s.shipments && s.shipments[x].issued
    ensures s.shipments[x].intent.Some?
    ensures s.shipments[x].intent.value.batch.Some? ==>
              s.shipments[x].intent.value.batch.value in s.batches
              && s.batches[s.shipments[x].intent.value.batch.value].status == BatchCompleted
  {
    hide Indexed, IntentIdsUnique, LedgerAgrees, OrdersOk, InboxOk, HistoryOk;
    RowAt(s, x);
    var b := s.shipments[x].intent.value.batch;
    if b.Some? { assert b.value in s.batches && BatchOk(s.shipments, b.value, s.batches[b.value]); }
  }

  lemma BatchAt(s: State, b: Id)
    requires BatchesOk(s.shipments, s.batches) && b in s.batches
    ensures BatchOk(s.shipments, b, s.batches[b])
  {
    hide BatchOk;
  }

  /** Delivery results: receipts of one trip stop that are not conflicts agree, one at most is
      applied, and its outcome is the shipment's status there and in every later state. */
  lemma DeliveryResults(steps: seq<Step>, s: State, more: seq<Step>, s': State, e: Id, f: Id)
    requires Runs(INIT, steps, s) && Runs(s, more, s') && e in s.inbox && f in s.inbox
    requires SameKey(s.inbox[e].event.result, s.inbox[f].event.result) && Live(s.inbox[e].outcome)
    requires Live(s.inbox[f].outcome)
    ensures s.inbox[e].event.result == s.inbox[f].event.result
    ensures s.inbox[e].outcome == Applied && s.inbox[f].outcome == Applied ==> e == f
    ensures s.inbox[e].outcome == Applied ==>
              var r := s.inbox[e].event.result;
              r.shipment in s'.shipments && s'.shipments[r.shipment].status == if r.delivered then Delivered else Failed
  {
    hide Rows, Indexed, IntentIdsUnique, BatchesOk, OrdersOk, LedgerAgrees, Onward;
    InitInv();
    RunKeeps(INIT, steps, s);
    RunOnward(s, more, s');
    if s.inbox[e].outcome == Applied { StatusKept(s, s', s.inbox[e].event.result.shipment); }
  }

  lemma StatusKept(s: State, s': State, x: Id)
    requires Onward(s, s') && x in s.shipments && Terminal(s.shipments[x].status)
    ensures x in s'.shipments && s'.shipments[x].status == s.shipments[x].status
  {
    assert Advances(s.shipments[x], s'.shipments[x]);
  }

  /** Every shipment of a reachable state has an unbroken history along the lifecycle graph that
      ends at its status, and every later state extends it. */
  lemma Histories(steps: seq<Step>, s: State, more: seq<Step>, s': State, x: Id)
    requires Runs(INIT, steps, s) && Runs(s, more, s') && x in s.shipments
    ensures HistoryOk(s.shipments[x]) && x in s'.shipments && s.shipments[x].history <= s'.shipments[x].history
    ensures Terminal(s.shipments[x].status) ==> s'.shipments[x].status == s.shipments[x].status
  {
    hide Indexed, IntentIdsUnique, BatchesOk, OrdersOk, LedgerAgrees, InboxOk, HistoryOk, RowOk;
    InitInv();
    RunKeeps(INIT, steps, s);
    RunOnward(s, more, s');
    assert Advances(s.shipments[x], s'.shipments[x]);
  }

  /** One shipment per order at most, in every reachable state. */
  lemma OneShipmentPerOrder(steps: seq<Step>, s: State, x: Id, y: Id)
    requires Runs(INIT, steps, s) && x in s.shipments && y in s.shipments
    requires s.shipments[x].order == s.shipments[y].order
    ensures x == y
  {
    hide Rows, IntentIdsUnique, BatchesOk, OrdersOk, InboxOk, LedgerAgrees;
    InitInv();
    RunKeeps(INIT, steps, s);
  }

  /** A handled cancellation that is later than every handled confirmation, in whatever order and
      however often they arrived, leaves no shipment of the order that is neither canceled nor gone:
      at once and in every later state. */
  lemma CancellationWins(steps: seq<Step>, s: State, more: seq<Step>, s': State, e: Id, x: Id)
    requires Runs(INIT, steps, s) && Runs(s, more, s') && e in s.orderInbox && !s.orderInbox[e].confirms
    requires forall c | c in s.orderInbox && s.orderInbox[c].order == s.orderInbox[e].order
                        && s.orderInbox[c].confirms ::
               s.orderInbox[c].version < s.orderInbox[e].version
    requires x in s'.shipments && s'.shipments[x].order == s.orderInbox[e].order
    ensures s'.shipments[x].status == Canceled || DispatchedEver(s'.shipments[x].status)
  {
    hide Inv, Onward;
    InitInv();
    RunKeeps(INIT, steps, s);
    RunOnward(s, more, s');
    CanceledCursor(s, e);
    CursorKept(s, s', s.orderInbox[e].order);
    CanceledShipments(s', x);
  }

  lemma CanceledCursor(s: State, e: Id)
    requires Inv(s) && e in s.orderInbox && !s.orderInbox[e].confirms
    requires forall c | c in s.orderInbox && s.orderInbox[c].order == s.orderInbox[e].order
                        && s.orderInbox[c].confirms ::
               s.orderInbox[c].version < s.orderInbox[e].version
    ensures s.orderInbox[e].order in s.cursors && s.cursors[s.orderInbox[e].order].canceled
  {
    hide Rows, Indexed, IntentIdsUnique, BatchesOk, InboxOk, LedgerAgrees, CancelFinal, HandlingOk;
    var o := s.orderInbox[e].order;
    assert o in s.cursors && (s.cursors[o].canceled || s.cursors[o].version >= s.orderInbox[e].version);
    assert s.cursors[o].canceled || ConfirmedAt(s.orderInbox, o, s.cursors[o].version);
  }

  lemma CursorKept(s: State, s': State, o: Id)
    requires Onward(s, s') && o in s.cursors && s.cursors[o].canceled
    ensures o in s'.cursors && s'.cursors[o] == s.cursors[o]
  {
    hide ShipmentsAdvance;
    assert CursorAdvances(s.cursors[o], s'.cursors[o]);
  }

  lemma CanceledShipments(s: State, x: Id)
    requires Inv(s) && x in s.shipments && s.shipments[x].order in s.cursors && s.cursors[s.shipments[x].order].canceled
    ensures Over(s.shipments[x].status)
  {
    hide Rows, IntentIdsUnique, BatchesOk, InboxOk, LedgerAgrees;
  }
}
