/** Batch decisions and commits, delivery results, and what holds over every run of the service. */
module FulfillmentRuns {
  import opened Shipments
  import opened Fulfillment
  import opened FulfillmentInvariant

  // ----- Steps of a pending batch -----

  /** Every listed shipment has an intent, and the step marks just that intent granted, or rejected. */
  ghost predicate MarkedAll(a: map<Id, Shipment>, t: map<Id, Shipment>, items: seq<Item>, grant: bool) {
    t.Keys == a.Keys && forall x | x in a && Listed(items, x) :: a[x].intent.Some? && t[x] == Marked(a[x], grant)
  }

  function Marked(sh: Shipment, grant: bool): Shipment
    requires sh.intent.Some?
  {
    sh.(intent := Some(if grant then sh.intent.value.(granted := true) else sh.intent.value.(status := IntentRejected)))
  }

  ghost predicate Moved(b: Id, sh: Shipment, sh': Shipment) {
    && ShipmentOk(sh') && sh'.order == sh.order && HeldBy(sh') == HeldBy(sh) && sh'.weight == sh.weight
    && sh'.volume == sh.volume
    && sh'.version >= sh.version && sh'.trip == sh.trip && Busy(sh.intent)
    && sh.intent.Some? && sh'.intent.Some? && sh'.intent.value.id == sh.intent.value.id
    && sh.intent.value.batch == Some(b) && sh'.intent.value.batch == Some(b)
    && sh.status == Ready && sh'.status in {Ready, Dispatched}
  }

  /** A batch step touches the listed shipments only. */
  ghost predicate BatchMove(a: map<Id, Shipment>, t: map<Id, Shipment>, b: Id, items: seq<Item>) {
    && t.Keys == a.Keys
    && (forall x | x in a && !Listed(items, x) :: t[x] == a[x])
    && (forall x | x in a && Listed(items, x) :: Moved(b, a[x], t[x]))
  }

  lemma OtherBatch(a: map<Id, Shipment>, t: map<Id, Shipment>, b: Id, items: seq<Item>, c: Id, other: Batch)
    requires BatchMove(a, t, b, items) && c != b && BatchOk(a, c, other)
    ensures BatchOk(t, c, other)
  {
    hide ShipmentOk, HeldBy;
    assert forall x | x in a && Listed(items, x) :: Moved(b, a[x], t[x]) && t[x].intent.value.batch != Some(c);
    assert forall x | x in a && !Listed(items, x) :: t[x] == a[x];
  }

  lemma MoveTrips(s: State, t: map<Id, Shipment>, b: Id, batch': Batch)
    requires BatchTrips(s.shipments, s.batches) && b in s.batches && s.batches[b].request == batch'.request
    requires BatchMove(s.shipments, t, b, batch'.request.items)
    ensures BatchTrips(t, s.batches[b := batch'])
  {
    hide ShipmentOk, HeldBy;
    forall x | x in t ensures t[x] == s.shipments[x] || Moved(b, s.shipments[x], t[x]) {}
  }

  lemma MoveBatches(s: State, t: map<Id, Shipment>, b: Id, batch': Batch)
    requires BatchesOk(s.shipments, s.batches) && b in s.batches && s.batches[b].request == batch'.request
    requires BatchMove(s.shipments, t, b, batch'.request.items) && BatchOk(t, b, batch')
    requires forall x | x in t && HeldByBatch(t[x]) :: HeldByBatch(s.shipments[x])
    requires batch'.status != BatchPending ==>
             forall x | x in t && Listed(batch'.request.items, x) :: !HeldByBatch(t[x])
    ensures BatchesOk(t, s.batches[b := batch'])
  {
    hide ShipmentOk, HeldBy, BatchOk, BatchTrips;
    var batches := s.batches[b := batch'];
    MoveTrips(s, t, b, batch');
    forall c | c in batches ensures BatchOk(t, c, batches[c]) {
      if c != b { OtherBatch(s.shipments, t, b, batch'.request.items, c, s.batches[c]); }
    }
    forall x | x in t ensures Listed(batch'.request.items, x) || t[x] == s.shipments[x] {}
    forall x | x in t && HeldByBatch(t[x])
      ensures t[x].intent.value.batch.value in batches
      ensures var batch := batches[t[x].intent.value.batch.value];
              batch.status == BatchPending
              && exists i :: 0 <= i < |batch.request.items| && batch.request.items[i].shipment == x
    {
      assert HeldByBatch(s.shipments[x]);
      assert s.shipments[x].intent.value.batch == t[x].intent.value.batch;
    }
  }

  lemma MoveRows(s: State, t: map<Id, Shipment>, b: Id, items: seq<Item>, batches: map<Id, Batch>)
    requires Rows(s) && Indexed(s) && IntentIdsUnique(s.shipments) && BatchMove(s.shipments, t, b, items)
    ensures var u := s.(shipments := t, batches := batches); Rows(u) && Indexed(u) && IntentIdsUnique(u.shipments)
  {
    hide ShipmentOk, HeldBy;
    forall x | x in t ensures t[x].order == s.shipments[x].order && ShipmentOk(t[x]) &&
        (t[x].intent.Some? ==> s.shipments[x].intent.Some? && s.shipments[x].intent.value.id == t[x].intent.value.id)
    {
      assert Listed(items, x) ==> Moved(b, s.shipments[x], t[x]);
    }
  }

  lemma MoveOthers(s: State, t: map<Id, Shipment>, b: Id, items: seq<Item>, batches: map<Id, Batch>)
    requires LedgerAgrees(s) && OrdersOk(s) && InboxOk(s) && BatchMove(s.shipments, t, b, items)
    ensures var u := s.(shipments := t, batches := batches); LedgerAgrees(u) && OrdersOk(u) && InboxOk(u)
  {
    hide ShipmentOk, HeldBy, LedgerOk, Holder, Covered, Backed, HandlingOk;
    forall x | x in t ensures HeldBy(t[x]) == HeldBy(s.shipments[x])
      ensures t[x].weight == s.shipments[x].weight && t[x].volume == s.shipments[x].volume
      ensures t[x].version >= s.shipments[x].version
      ensures t[x].status == s.shipments[x].status || (s.shipments[x].status == Ready && t[x].status == Dispatched)
    {
      assert Listed(items, x) ==> Moved(b, s.shipments[x], t[x]);
    }
  }

  lemma MoveKeeps(s: State, t: map<Id, Shipment>, b: Id, batch': Batch)
    requires Inv(s) && b in s.batches && s.batches[b].request == batch'.request
    requires BatchMove(s.shipments, t, b, batch'.request.items) && BatchOk(t, b, batch')
    requires forall x | x in t && HeldByBatch(t[x]) :: HeldByBatch(s.shipments[x])
    requires batch'.status != BatchPending ==>
             forall x | x in t && Listed(batch'.request.items, x) :: !HeldByBatch(t[x])
    ensures Inv(s.(shipments := t, batches := s.batches[b := batch']))
  {
    hide Rows, Indexed, IntentIdsUnique, BatchesOk, OrdersOk, InboxOk, LedgerAgrees, BatchMove, BatchOk, HeldByBatch;
    MoveBatches(s, t, b, batch');
    MoveRows(s, t, b, batch'.request.items, s.batches[b := batch']);
    MoveOthers(s, t, b, batch'.request.items, s.batches[b := batch']);
  }

  // ----- The authority's decision -----

  /** Intent ids belong to one shipment each, so a step that matches on them touches exactly the listed shipments. */
  lemma ListedById(s: State, b: Id, x: Id)
    requires Inv(s) && b in s.batches && s.batches[b].status == BatchPending && x in s.shipments
    requires s.shipments[x].intent.Some?
    ensures Listed(s.batches[b].request.items, x) <==>
            exists i ::
                0 <= i < |s.batches[b].request.items|
                && s.batches[b].request.items[i].dispatch == s.shipments[x].intent.value.id
  {
    hide Rows, Indexed, OrdersOk, InboxOk, LedgerAgrees;
    var items := s.batches[b].request.items;
    assert BatchOk(s.shipments, b, s.batches[b]);
    forall i | 0 <= i < |items|
      ensures items[i].shipment == x <==> items[i].dispatch == s.shipments[x].intent.value.id
    {
      assert HeldFor(s.shipments[items[i].shipment], b, s.batches[b], items[i]);
    }
  }

  lemma ListedHeld(s: State, b: Id, x: Id) returns (i: nat)
    requires BatchesOk(s.shipments, s.batches) && b in s.batches && s.batches[b].status == BatchPending
    requires Listed(s.batches[b].request.items, x)
    ensures i < |s.batches[b].request.items| && s.batches[b].request.items[i].shipment == x
    ensures x in s.shipments && HeldFor(s.shipments[x], b, s.batches[b], s.batches[b].request.items[i])
  {
    i :| 0 <= i < |s.batches[b].request.items| && s.batches[b].request.items[i].shipment == x;
    assert BatchOk(s.shipments, b, s.batches[b]);
  }

  lemma RowSetGranted(sh: Shipment, b: Id, granted: bool)
    requires ShipmentOk(sh) && HeldByBatch(sh) && sh.intent.value.batch == Some(b)
    ensures Moved(b, sh, sh.(intent := Some(sh.intent.value.(granted := granted))))
  {
  }

  lemma GrantMoves(s: State, b: Id)
    requires Inv(s) && b in s.batches && s.batches[b].status == BatchPending
    ensures BatchMove(s.shipments, Grant(s.shipments, s.batches[b].request.items), b, s.batches[b].request.items)
    ensures MarkedAll(s.shipments, Grant(s.shipments, s.batches[b].request.items), s.batches[b].request.items, true)
  {
    hide Rows, Indexed, OrdersOk, InboxOk, LedgerAgrees, IntentIdsUnique, BatchesOk, ShipmentOk, Moved;
    var batch := s.batches[b];
    var t := Grant(s.shipments, batch.request.items);
    forall x | x in s.shipments
      ensures Listed(batch.request.items, x) ==> s.shipments[x].intent.Some? && t[x] == Marked(s.shipments[x], true)
      ensures Listed(batch.request.items, x) ==> Moved(b, s.shipments[x], t[x])
      ensures !Listed(batch.request.items, x) ==> t[x] == s.shipments[x]
    {
      if s.shipments[x].intent.Some? { ListedById(s, b, x); }
      if Listed(batch.request.items, x) {
        var i := ListedHeld(s, b, x);
        RowAt(s, x);
        RowSetGranted(s.shipments[x], b, true);
      }
    }
  }

  lemma SameMoves(s: State, b: Id)
    requires Inv(s) && b in s.batches && s.batches[b].status == BatchPending
    ensures BatchMove(s.shipments, s.shipments, b, s.batches[b].request.items)
  {
    hide Rows, Indexed, OrdersOk, InboxOk, LedgerAgrees, IntentIdsUnique, BatchesOk, ShipmentOk, HeldBy;
    forall x | x in s.shipments && Listed(s.batches[b].request.items, x)
      ensures Moved(b, s.shipments[x], s.shipments[x])
    {
      var i := ListedHeld(s, b, x);
      RowAt(s, x);
    }
  }

  lemma DecidedOk(s: State, b: Id, granted: bool, t: map<Id, Shipment>)
    requires BatchesOk(s.shipments, s.batches) && CanDecide(s, b, granted) && s.batches[b].status == BatchPending
    requires BatchMove(s.shipments, t, b, s.batches[b].request.items)
    requires if granted then MarkedAll(s.shipments, t, s.batches[b].request.items, true) else t == s.shipments
    ensures BatchOk(t, b, s.batches[b].(decision := Some(granted)))
  {
    var items := s.batches[b].request.items;
    assert BatchOk(s.shipments, b, s.batches[b]);
    forall i | 0 <= i < |items|
      ensures items[i].shipment in t
      ensures HeldFor(t[items[i].shipment], b, s.batches[b].(decision := Some(granted)), items[i])
    {
      assert Listed(items, items[i].shipment);
      assert HeldFor(s.shipments[items[i].shipment], b, s.batches[b], items[i]);
    }
  }

  lemma GrantHeld(shipments: map<Id, Shipment>, items: seq<Item>)
    ensures forall x | x in Grant(shipments, items) && HeldByBatch(Grant(shipments, items)[x]) ::
             HeldByBatch(shipments[x])
  {
  }

  lemma DecideKeeps(s: State, b: Id, granted: bool)
    requires Inv(s) && CanDecide(s, b, granted)
    ensures Inv(Decide(s, b, granted))
  {
    hide Rows, Indexed, IntentIdsUnique, BatchesOk, OrdersOk, InboxOk, LedgerAgrees, BatchMove, BatchOk, HeldByBatch,
      Grant;
    var batch := s.batches[b];
    if batch.status == BatchPending {
      var t := if granted then Grant(s.shipments, batch.request.items) else s.shipments;
      if granted { GrantMoves(s, b); GrantHeld(s.shipments, batch.request.items); } else { SameMoves(s, b); }
      DecidedOk(s, b, granted, t);
      MoveKeeps(s, t, b, batch.(decision := Some(granted)));
    }
  }

  // ----- The commit -----

  /** The BATCH_GRANTED_SHIPMENT_BINDING_CHANGED branch cannot be reached. */
  lemma BindingNeverChanges(s: State, b: Id)
    requires Inv(s) && b in s.batches
    ensures CommitReply(s, b) == Ok(true)
  {
    hide Rows, Indexed, OrdersOk, InboxOk, LedgerAgrees, IntentIdsUnique;
    var batch := s.batches[b];
    assert BatchOk(s.shipments, b, batch);
    if batch.status == BatchPending && batch.decision == Some(true) {
      forall i | 0 <= i < |batch.request.items|
        ensures BindingIntact(s.shipments, batch.request.trip, batch.request.items[i])
      {
        assert HeldFor(s.shipments[batch.request.items[i].shipment], b, batch, batch.request.items[i]);
      }
    }
  }

  lemma IssueMoved(sh: Shipment, b: Id, batch: Batch, item: Item)
    requires ShipmentOk(sh) && HeldFor(sh, b, batch, item)
    ensures Moved(b, sh, Issue(sh)) && IssuedFor(Issue(sh), b, item) && Issue(sh).version == item.version + 1
    ensures !HeldByBatch(Issue(sh))
  {
    IssueOk(sh);
  }

  ghost predicate IssuedAll(a: map<Id, Shipment>, t: map<Id, Shipment>, items: seq<Item>) {
    && t.Keys == a.Keys
    && (forall i | 0 <= i < |items| :: items[i].shipment in a && a[items[i].shipment].intent.Some?
          && t[items[i].shipment] == Issue(a[items[i].shipment]))
    && (forall x | x in a && !Listed(items, x) :: t[x] == a[x])
  }

  lemma CommitIssues(s: State, b: Id) returns (t: map<Id, Shipment>)
    requires BatchesOk(s.shipments, s.batches) && b in s.batches && s.batches[b].status == BatchPending
    ensures t == IssueAll(s.shipments, s.batches[b].request.items)
    ensures IssuedAll(s.shipments, t, s.batches[b].request.items)
  {
    hide Issue, IssueAll;
    assert BatchOk(s.shipments, b, s.batches[b]);
    IssueAllAt(s.shipments, s.batches[b].request.items);
    t := IssueAll(s.shipments, s.batches[b].request.items);
  }

  lemma CommitMoves(s: State, b: Id, t: map<Id, Shipment>)
    requires Inv(s) && b in s.batches && s.batches[b].status == BatchPending
    requires IssuedAll(s.shipments, t, s.batches[b].request.items)
    ensures BatchMove(s.shipments, t, b, s.batches[b].request.items)
    ensures forall x | x in t && Listed(s.batches[b].request.items, x) :: !HeldByBatch(t[x])
    ensures forall x | x in t && HeldByBatch(t[x]) :: HeldByBatch(s.shipments[x])
  {
    hide Rows, Indexed, OrdersOk, InboxOk, LedgerAgrees, IntentIdsUnique, BatchesOk, ShipmentOk, Moved, Issue,
      HeldFor, IssuedFor, HeldByBatch;
    forall x | x in s.shipments && Listed(s.batches[b].request.items, x)
      ensures Moved(b, s.shipments[x], t[x]) && !HeldByBatch(t[x])
    {
      var i := ListedHeld(s, b, x);
      RowAt(s, x);
      IssueMoved(s.shipments[x], b, s.batches[b], s.batches[b].request.items[i]);
    }
  }

  lemma CommittedOk(s: State, b: Id, t: map<Id, Shipment>)
    requires Rows(s) && BatchesOk(s.shipments, s.batches) && b in s.batches && s.batches[b].status == BatchPending
    requires s.batches[b].decision == Some(true) && IssuedAll(s.shipments, t, s.batches[b].request.items)
    ensures BatchOk(t, b,
             s.batches[b].(status := BatchCompleted, receipts := ReceiptsOf(t, s.batches[b].request.items)))
  {
    hide ShipmentOk, Moved, Issue;
    var items := s.batches[b].request.items;
    assert BatchOk(s.shipments, b, s.batches[b]);
    forall i | 0 <= i < |items|
      ensures items[i].shipment in t && IssuedFor(t[items[i].shipment], b, items[i])
      ensures ReceiptsOf(t, items)[i] == ItemReceipt(items[i].shipment, items[i].dispatch, items[i].version + 1)
    {
      RowAt(s, items[i].shipment);
      IssueMoved(s.shipments[items[i].shipment], b, s.batches[b], items[i]);
    }
  }

  lemma DropMoved(sh: Shipment, b: Id)
    requires ShipmentOk(sh) && HeldByBatch(sh) && sh.intent.value.batch == Some(b)
    ensures Moved(b, sh, sh.(intent := Some(sh.intent.value.(status := IntentRejected))))
  {
  }

  lemma DropMoves(s: State, b: Id)
    requires Inv(s) && b in s.batches && s.batches[b].status == BatchPending
    ensures BatchMove(s.shipments, DropAll(s.shipments, s.batches[b].request.items), b, s.batches[b].request.items)
    ensures MarkedAll(s.shipments, DropAll(s.shipments, s.batches[b].request.items), s.batches[b].request.items, false)
  {
    hide Rows, Indexed, OrdersOk, InboxOk, LedgerAgrees, IntentIdsUnique, BatchesOk, ShipmentOk, Moved;
    var items := s.batches[b].request.items;
    var t := DropAll(s.shipments, items);
    forall x | x in s.shipments
      ensures Listed(items, x) ==> s.shipments[x].intent.Some? && t[x] == Marked(s.shipments[x], false)
      ensures Listed(items, x) ==> Moved(b, s.shipments[x], t[x])
      ensures !Listed(items, x) ==> t[x] == s.shipments[x]
    {
      if s.shipments[x].intent.Some? { ListedById(s, b, x); }
      if Listed(items, x) {
        var i := ListedHeld(s, b, x);
        RowAt(s, x);
        DropMoved(s.shipments[x], b);
      }
    }
  }

  lemma DroppedOk(s: State, b: Id, t: map<Id, Shipment>)
    requires BatchesOk(s.shipments, s.batches) && b in s.batches && s.batches[b].status == BatchPending
    requires s.batches[b].decision != Some(true) && BatchMove(s.shipments, t, b, s.batches[b].request.items)
    requires MarkedAll(s.shipments, t, s.batches[b].request.items, false)
    ensures BatchOk(t, b, s.batches[b].(status := BatchRejected))
  {
    hide Moved;
    assert BatchOk(s.shipments, b, s.batches[b]);
    forall x | x in t && t[x].intent.Some? && t[x].intent.value.batch == Some(b)
      ensures !t[x].intent.value.status.IntentCompleted?
    {
      assert Listed(s.batches[b].request.items, x) || t[x] == s.shipments[x];
    }
  }

  lemma DroppedHeld(s: State, t: map<Id, Shipment>, b: Id, items: seq<Item>)
    requires BatchMove(s.shipments, t, b, items) && MarkedAll(s.shipments, t, items, false)
    ensures forall x | x in t && Listed(items, x) :: !HeldByBatch(t[x])
    ensures forall x | x in t && HeldByBatch(t[x]) :: HeldByBatch(s.shipments[x])
  {
    hide Moved;
    forall x | x in t ensures Listed(items, x) || t[x] == s.shipments[x] {}
  }

  lemma CommitKeeps(s: State, b: Id)
    requires Inv(s) && CanCommit(s, b)
    ensures Inv(Commit(s, b))
  {
    hide Rows, Indexed, IntentIdsUnique, BatchesOk, OrdersOk, InboxOk, LedgerAgrees, BatchMove, BatchOk, HeldByBatch;
    hide DropAll, IssueAll, CommitReply;
    var batch := s.batches[b];
    if batch.status == BatchPending {
      BindingNeverChanges(s, b);
      if batch.decision == Some(true) {
        var t := CommitIssues(s, b);
        CommitMoves(s, b, t);
        CommittedOk(s, b, t);
        MoveKeeps(s, t, b, batch.(status := BatchCompleted, receipts := ReceiptsOf(t, batch.request.items)));
      } else {
        var t := DropAll(s.shipments, batch.request.items);
        DropMoves(s, b);
        DroppedOk(s, b, t);
        DroppedHeld(s, t, b, batch.request.items);
        MoveKeeps(s, t, b, batch.(status := BatchRejected));
      }
    }
  }

  // ----- Delivery results -----

  lemma LandFair(s: State, x: Id, result: Result)
    requires Rows(s) && x in s.shipments && s.shipments[x].status == Dispatched
    ensures Fair(s, x, Land(s.shipments[x], result)) && HeldBy(Land(s.shipments[x], result)) == HeldBy(s.shipments[x])
  {
    hide HeldBy, Fair;
    RowAt(s, x);
    assert s.shipments[x].(status := Dispatched) == s.shipments[x];
    RecordFair(s, x, s.shipments[x], Landed(result), TransitionTo(Landed(result)).value.1);
  }

  lemma InboxAside(s: State, inbox: map<Id, InboxRow>, landing: map<Id, DeliveryEvent>)
    requires Inv(s) && InboxOk(s.(inbox := inbox, landing := landing))
    ensures Inv(s.(inbox := inbox, landing := landing))
  {
    hide InboxOk, ShipmentOk, BatchOk, LedgerOk, Holder, Covered, Backed, HandlingOk;
  }

  ghost predicate Unapplied(s: State, ev: DeliveryEvent) {
    forall e | e in s.inbox && SameKey(s.inbox[e].event.result, ev.result) :: s.inbox[e].outcome != Applied
  }

  /** The event may be filed with this outcome. */
  ghost predicate Fileable(s: State, ev: DeliveryEvent, outcome: Outcome) {
    && FirstOrRetry(s, ev) && StopFree(s, ev)
    && (Live(outcome) ==> Agreeing(s, ev)) && (outcome == Applied ==> Unapplied(s, ev))
    && (outcome == Applied ==>
          ev.result.shipment in s.shipments && s.shipments[ev.result.shipment].status == Landed(ev.result))
  }

  lemma SaveAgrees(s: State, ev: DeliveryEvent, outcome: Outcome, s': State, e: Id, f: Id)
    requires InboxOk(s) && Fileable(s, ev, outcome) && s' == Save(s, ev, outcome) && e in s'.inbox && f in s'.inbox
    requires SameKey(s'.inbox[e].event.result, s'.inbox[f].event.result) && Live(s'.inbox[e].outcome)
    requires Live(s'.inbox[f].outcome)
    ensures s'.inbox[e].event.result == s'.inbox[f].event.result
    ensures s'.inbox[e].outcome == Applied && s'.inbox[f].outcome == Applied ==> e == f
  {
    hide LandingOk;
    if e != ev.id { assert s'.inbox[e] == s.inbox[e]; }
    if f != ev.id { assert s'.inbox[f] == s.inbox[f]; }
  }

  /** Filing an event of a free stop leaves what is on its way at other stops alone. */
  lemma SaveLanding(s: State, ev: DeliveryEvent, outcome: Outcome)
    requires LandingOk(s) && StopFree(s, ev)
    ensures LandingOk(Save(s, ev, outcome))
  {
    var s' := Save(s, ev, outcome);
    forall e | e in s'.landing ensures FirstOrRetry(s', s'.landing[e]) && Agreeing(s', s'.landing[e]) {
      assert FirstOrRetry(s, s.landing[e]) && Agreeing(s, s.landing[e]);
    }
  }

  lemma SaveOk(s: State, ev: DeliveryEvent, outcome: Outcome)
    requires InboxOk(s) && Fileable(s, ev, outcome)
    ensures InboxOk(Save(s, ev, outcome))
  {
    SaveLanding(s, ev, outcome);
    hide SameKey, Agreeing, Unapplied, LandingOk;
    var s' := Save(s, ev, outcome);
    forall e, f | e in s'.inbox && f in s'.inbox && SameKey(s'.inbox[e].event.result, s'.inbox[f].event.result)
                  && Live(s'.inbox[e].outcome) && Live(s'.inbox[f].outcome)
      ensures s'.inbox[e].event.result == s'.inbox[f].event.result
      ensures s'.inbox[e].outcome == Applied && s'.inbox[f].outcome == Applied ==> e == f
    {
      SaveAgrees(s, ev, outcome, s', e, f);
    }
  }

  /** Whichever row is picked, it speaks for all live receipts of the stop. */
  lemma PickSpeaks(s: State, ev: DeliveryEvent, pick: Option<Id>)
    requires InboxOk(s) && CanPick(s, ev, pick) && (ev.id in s.inbox ==> s.inbox[ev.id].event == ev)
    requires pick.Some? ==> s.inbox[pick.value].event.result == ev.result
    ensures Agreeing(s, ev)
  {
    hide LandingOk;
    forall e | e in s.inbox && SameKey(s.inbox[e].event.result, ev.result) && Live(s.inbox[e].outcome)
      ensures s.inbox[e].event.result == ev.result
    {
      assert e == ev.id || Candidate(s, ev, e);
    }
  }

  lemma DispatchedUnapplied(s: State, ev: DeliveryEvent)
    requires InboxOk(s) && Agreeing(s, ev) && ev.result.shipment in s.shipments
    requires s.shipments[ev.result.shipment].status == Dispatched
    ensures Unapplied(s, ev)
  {
    hide LandingOk;
  }

  lemma SaveKeeps(s: State, ev: DeliveryEvent, outcome: Outcome)
    requires Inv(s) && Fileable(s, ev, outcome)
    ensures Inv(Save(s, ev, outcome))
  {
    hide Rows, Indexed, IntentIdsUnique, BatchesOk, OrdersOk, InboxOk, LedgerAgrees, Fileable;
    SaveOk(s, ev, outcome);
    InboxAside(s, Save(s, ev, outcome).inbox, s.landing);
  }

  lemma OnItsWay(s: State, ev: DeliveryEvent)
    requires InboxOk(s) && Agreeing(s, ev) && FirstOrRetry(s, ev) && StopFree(s, ev)
    requires ev.result.shipment in s.shipments
    ensures InboxOk(s.(landing := s.landing[ev.id := ev]))
  {
    var s' := s.(landing := s.landing[ev.id := ev]);
    forall e | e in s'.landing ensures FirstOrRetry(s', s'.landing[e]) && Agreeing(s', s'.landing[e]) {
      if e != ev.id { assert FirstOrRetry(s, s.landing[e]) && Agreeing(s, s.landing[e]); }
    }
  }

  lemma SettleKeeps(s: State, ev: DeliveryEvent)
    requires Inv(s) && Agreeing(s, ev) && FirstOrRetry(s, ev) && StopFree(s, ev)
    ensures Inv(Settle(s, ev))
  {
    hide Rows, Indexed, IntentIdsUnique, BatchesOk, OrdersOk, InboxOk, LedgerAgrees, Agreeing, Unapplied, Save,
      Terminal, FirstOrRetry, StopFree;
    SaveKeeps(s, ev, Deferred);
    SaveKeeps(s, ev, Conflict);
    if ev.result.shipment in s.shipments {
      OnItsWay(s, ev);
      InboxAside(s, s.inbox, s.landing[ev.id := ev]);
    }
  }

  lemma ContradictOk(s: State, ev: DeliveryEvent, e: Id)
    requires InboxOk(s) && e in s.inbox && s.inbox[e].outcome == Deferred && StopFree(s, ev)
    requires SameKey(s.inbox[e].event.result, ev.result)
    ensures InboxOk(s.(inbox := s.inbox[e := s.inbox[e].(outcome := Conflict)]))
  {
    var s' := s.(inbox := s.inbox[e := s.inbox[e].(outcome := Conflict)]);
    forall f | f in s'.landing ensures FirstOrRetry(s', s'.landing[f]) && Agreeing(s', s'.landing[f]) {
      assert FirstOrRetry(s, s.landing[f]) && Agreeing(s, s.landing[f]);
    }
  }

  lemma ContradictKeeps(s: State, ev: DeliveryEvent, e: Id)
    requires Inv(s) && FirstOrRetry(s, ev) && StopFree(s, ev)
    requires e in s.inbox && e != ev.id && s.inbox[e].outcome == Deferred && SameKey(s.inbox[e].event.result, ev.result)
    ensures Inv(Save(s.(inbox := s.inbox[e := s.inbox[e].(outcome := Conflict)]), ev, Conflict))
  {
    hide Rows, Indexed, IntentIdsUnique, BatchesOk, OrdersOk, InboxOk, LedgerAgrees, Save, SameKey;
    var m := s.(inbox := s.inbox[e := s.inbox[e].(outcome := Conflict)]);
    ContradictOk(s, ev, e);
    InboxAside(s, m.inbox, m.landing);
    ConflictKeeps(m, ev);
  }

  lemma DeliverKeeps(s: State, ev: DeliveryEvent, pick: Option<Id>)
    requires Inv(s) && CanPick(s, ev, pick) && StopFree(s, ev)
    ensures Inv(Deliver(s, ev, pick))
  {
    hide Rows, Indexed, IntentIdsUnique, BatchesOk, OrdersOk, LedgerAgrees, InboxOk, SameKey, Settle, Agreeing, Save,
      Live, StopFree;
    if DeliverReply(s, ev).Ok? && (ev.id in s.inbox ==> s.inbox[ev.id].outcome == Deferred) {
      if pick.None? || s.inbox[pick.value].event.result == ev.result {
        PickSpeaks(s, ev, pick);
        SettleKeeps(s, ev);
        SaveKeeps(s, ev, Duplicate);
      } else if s.inbox[pick.value].outcome == Deferred {
        ContradictKeeps(s, ev, pick.value);
      } else {
        ConflictKeeps(s, ev);
      }
    }
  }

  lemma ConflictKeeps(s: State, ev: DeliveryEvent)
    requires Inv(s) && FirstOrRetry(s, ev) && StopFree(s, ev)
    ensures Inv(Save(s, ev, Conflict))
  {
    hide Inv, Save, FirstOrRetry, StopFree;
    SaveKeeps(s, ev, Conflict);
  }

  // ----- The write of a result on its way -----

  lemma LandingRow(s: State, e: Id)
    requires InboxOk(s) && e in s.landing
    ensures s.landing[e].id == e && s.landing[e].result.shipment in s.shipments
    ensures FirstOrRetry(s, s.landing[e]) && Agreeing(s, s.landing[e])
    ensures InboxOk(s.(landing := s.landing - {e})) && StopFree(s.(landing := s.landing - {e}), s.landing[e])
  {
    var m := s.(landing := s.landing - {e});
    forall f | f in m.landing ensures FirstOrRetry(m, m.landing[f]) && Agreeing(m, m.landing[f]) {
      assert FirstOrRetry(s, s.landing[f]) && Agreeing(s, s.landing[f]);
    }
  }

  lemma LandKeeps(s: State, ev: DeliveryEvent, m: State)
    requires Inv(s) && Agreeing(s, ev) && FirstOrRetry(s, ev) && StopFree(s, ev) && ev.result.shipment in s.shipments
    requires s.shipments[ev.result.shipment].status == Dispatched
    requires m == Put(s, ev.result.shipment, Land(s.shipments[ev.result.shipment], ev.result))
    ensures Inv(m) && Fileable(m, ev, Applied)
  {
    hide Rows, Indexed, IntentIdsUnique, BatchesOk, OrdersOk, InboxOk, LedgerAgrees, Fair, HeldBy, SameKey;
    var x := ev.result.shipment;
    LandFair(s, x, ev.result);
    PutKeeps(s, x, Land(s.shipments[x], ev.result));
    DispatchedUnapplied(s, ev);
  }

  lemma LandResultKeeps(s: State, e: Id)
    requires Inv(s) && StillDispatched(s, e)
    ensures Inv(LandResult(s, e))
  {
    hide Rows, Indexed, IntentIdsUnique, BatchesOk, OrdersOk, InboxOk, LedgerAgrees, Save, Agreeing, FirstOrRetry,
      StopFree, Land, Fileable;
    var ev := s.landing[e];
    LandingRow(s, e);
    var m := s.(landing := s.landing - {e});
    InboxAside(s, s.inbox, s.landing - {e});
    SameInbox(s, m, ev);
    var m' := Put(m, ev.result.shipment, Land(m.shipments[ev.result.shipment], ev.result));
    LandKeeps(m, ev, m');
    SaveKeeps(m', ev, Applied);
  }

  lemma SameInbox(s: State, m: State, ev: DeliveryEvent)
    requires m.inbox == s.inbox && FirstOrRetry(s, ev) && Agreeing(s, ev)
    ensures FirstOrRetry(m, ev) && Agreeing(m, ev)
  {
  }

  /** The write keeps the service's invariant, and with it the chain of history rows and the absorbing
      statuses, exactly when no other result of the shipment was recorded since the row was read. */
  lemma LandResultIff(s: State, e: Id)
    requires Inv(s) && e in s.landing
    ensures Inv(LandResult(s, e)) <==> StillDispatched(s, e)
    ensures !StillDispatched(s, e) ==>
             !HistoryOk(LandResult(s, e).shipments[s.landing[e].result.shipment])
  {
    var x := s.landing[e].result.shipment;
    assert x in s.shipments && HistoryOk(s.shipments[x]) by {
      hide Indexed, IntentIdsUnique, BatchesOk, OrdersOk, LedgerAgrees;
      LandingRow(s, e);
      RowAt(s, x);
    }
    hide Inv;
    if StillDispatched(s, e) {
      LandResultKeeps(s, e);
    } else {
      BrokenChain(s.shipments[x], s.landing[e].result);
      if Inv(LandResult(s, e)) { ChainOf(LandResult(s, e), x); assert false; }
    }
  }

  lemma BrokenChain(sh: Shipment, result: Result)
    requires HistoryOk(sh) && sh.status != Dispatched
    ensures !HistoryOk(Land(sh, result))
  {
    var h := Land(sh, result).history;
    assert h[|sh.history| - 1] == sh.history[|sh.history| - 1];
    assert h[|sh.history|].from == Some(Dispatched);
  }

  lemma ChainOf(s: State, x: Id)
    requires Inv(s) && x in s.shipments
    ensures HistoryOk(s.shipments[x])
  {
    hide Indexed, IntentIdsUnique, BatchesOk, OrdersOk, LedgerAgrees, InboxOk;
    RowAt(s, x);
  }

  // ----- Every step, every run -----

  lemma HandledOnce(s: State, e: Id)
    requires Inv(s)
    ensures Inv(s.(handling := s.handling - {e}))
  {
    hide ShipmentOk, BatchOk, LedgerOk, Holder, Covered, Backed, SameKey, Live;
  }

  lemma OrderStepKeeps(s: State, e: Id, newId: Id)
    requires Inv(s) && e in s.handling && newId !in s.shipments
    ensures Inv(OrderTx(s, s.handling[e].0, s.handling[e].1, newId).(handling := s.handling - {e}))
  {
    hide Rows, Indexed, IntentIdsUnique, BatchesOk, InboxOk, LedgerAgrees, OrderTx, Covered, Backed, CancelFinal;
    var (ev, parsed) := s.handling[e];
    assert HandlingOk(s.cursors, s.handling);
    OrderTxKeeps(s, ev, parsed, newId);
    HandledOnce(OrderTx(s, ev, parsed, newId), e);
  }

  /** The transaction of a result on its way is rolled back. */
  lemma AbandonKeeps(s: State, e: Id)
    requires Inv(s) && e in s.landing
    ensures Inv(s.(landing := s.landing - {e}))
  {
    hide Rows, Indexed, IntentIdsUnique, BatchesOk, OrdersOk, InboxOk, LedgerAgrees, FirstOrRetry, Agreeing, StopFree;
    LandingRow(s, e);
    InboxAside(s, s.inbox, s.landing - {e});
  }

  lemma StepKeeps(s: State, step: Step)
    requires Inv(s) && Enabled(s, step)
    ensures Inv(Apply(s, step))
  {
    hide Inv, Claim, Release, OrderRead, OrderTx, Transition, Intend, Ask, RejectIntent, CompleteIntent, Prepare,
      Decide, Commit, Deliver, LandResult;
    match step
    case DoClaim(q, newId) => ClaimKeeps(s, q, newId);
    case DoRelease(q) => ReleaseKeeps(s, q);
    case DoOrderRead(ev) => OrderReadKeeps(s, ev);
    case DoOrderTx(e, newId) => OrderStepKeeps(s, e, newId);
    case DoCommand(x, version, c) => CommandKeeps(s, x, version, c);
    case DoIntend(x, id, version) => IntendKeeps(s, x, id, version);
    case DoAsk(x, verdict) => AskKeeps(s, x, verdict);
    case DoReject(x, id) => RejectKeeps(s, x, id);
    case DoComplete(x, id) => CompleteKeeps(s, x, id);
    case DoPrepare(q) => PrepareKeeps(s, q);
    case DoDecide(b, granted) => DecideKeeps(s, b, granted);
    case DoCommit(b) => CommitKeeps(s, b);
    case DoDeliver(ev, pick) => DeliverKeeps(s, ev, pick);
    case DoLand(e) => LandResultKeeps(s, e);
    case DoAbandon(e) => AbandonKeeps(s, e);
  }

  lemma {:induction false} RunKeeps(s: State, steps: seq<Step>, s': State)
    requires Inv(s) && Runs(s, steps, s')
    ensures Inv(s')
    decreases |steps|
  {
    hide Inv;
    if steps != [] {
      StepKeeps(s, steps[0]);
      RunKeeps(Apply(s, steps[0]), steps[1..], s');
    }
  }
}
