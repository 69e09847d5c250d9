/** Where the ids of stored dispatch intents come from. */
module FulfillmentIntents {
  import opened Shipments
  import opened Fulfillment
  import opened FulfillmentInvariant
  import opened FulfillmentProgress

  /** Every intent id in `t` was that shipment's before, or is one of the new ones. */
  ghost predicate IdsFrom(a: map<Id, Shipment>, t: map<Id, Shipment>, brought: set<Id>) {
    forall x | x in t && t[x].intent.Some? && t[x].intent.value.id !in brought :: x in a && SameIntent(a[x], t[x])
  }

  ghost predicate SameIntent(sh: Shipment, sh': Shipment) {
    sh'.intent.Some? ==> sh.intent.Some? && sh.intent.value.id == sh'.intent.value.id
  }

  function Brought(step: Step): set<Id> {
    match step
    case DoIntend(_, id, _) => {id}
    case DoPrepare(q) => set i | 0 <= i < |q.items| :: q.items[i].dispatch
    case _ => {}
  }

  lemma IdsPut(a: map<Id, Shipment>, x: Id, sh: Shipment)
    requires x in a && SameIntent(a[x], sh)
    ensures IdsFrom(a, a[x := sh], {})
  {
  }

  lemma IdsSame(a: map<Id, Shipment>, brought: set<Id>)
    ensures IdsFrom(a, a, brought)
  {
  }

  lemma ClaimIds(s: State, q: ClaimRequest, newId: Id)
    ensures IdsFrom(s.shipments, Claim(s, q, newId).shipments, {})
  {
    hide IdsFrom, Find;
    IdsSame(s.shipments, {});
    if Find(s.ledger, q.id).None? && ClaimReply(s, q, newId).Ok? {
      var sh := s.shipments[q.shipment];
      IdsPut(s.shipments, q.shipment, sh.(trip := Some(q.trip), claim := Some(newId), version := sh.version + 1));
    }
  }

  lemma ReleaseIds(s: State, q: ReleaseRequest)
    ensures IdsFrom(s.shipments, Release(s, q).shipments, {})
  {
    hide IdsFrom, Find, FindClaim;
    IdsSame(s.shipments, {});
    if Find(s.ledger, q.id).None? && ReleaseReply(s, q).Ok? {
      var sh := s.shipments[q.shipment];
      IdsPut(s.shipments, q.shipment, sh.(trip := None, claim := None, version := sh.version + 1));
    }
  }

  lemma NewShipmentIds(a: map<Id, Shipment>, x: Id, sh: Shipment)
    requires sh.intent.None?
    ensures IdsFrom(a, a[x := sh], {})
  {
  }

  lemma CancelIds(sh: Shipment)
    ensures SameIntent(sh, CancelOne(sh))
  {
  }

  lemma OrderIds(s: State, ev: OrderEvent, parsed: bool, newId: Id)
    ensures IdsFrom(s.shipments, OrderTx(s, ev, parsed, newId).shipments, {})
  {
    hide IdsFrom, Stale, CancelOne;
    IdsSame(s.shipments, {});
    NewShipmentIds(s.shipments, newId, NewShipment(ev.order, ev.reservation, ev.weight, ev.volume, ev.snapshotOk));
    hide NewShipment;
    if ev.order in s.byOrder && s.byOrder[ev.order] in s.shipments {
      var x := s.byOrder[ev.order];
      CancelIds(s.shipments[x]);
      IdsPut(s.shipments, x, CancelOne(s.shipments[x]));
    }
    if OrderReply(s, ev, parsed).Refused? || ev.id in s.orderInbox {
    } else if Stale(s.cursors, ev) {
    } else if ev.order in s.byOrder {
      if parsed {} else {}
    } else {
      if parsed {} else {}
    }
  }

  lemma CommandIds(s: State, x: Id, version: nat, c: Command)
    ensures IdsFrom(s.shipments, Transition(s, x, version, c).shipments, {})
  {
    hide IdsFrom;
    IdsSame(s.shipments, {});
    if TransitionReply(s, x, version, c).Ok? {
      IdsPut(s.shipments, x, Record(s.shipments[x], Target(c), TransitionTo(Target(c)).value.1));
    }
  }

  lemma IntendIds(s: State, x: Id, id: Id, version: nat)
    ensures IdsFrom(s.shipments, Intend(s, x, id, version).shipments, {id})
  {
    hide IntendReply;
    IdsSame(s.shipments, {id});
  }

  lemma AskIds(s: State, x: Id, verdict: bool)
    requires CanAsk(s, x)
    ensures IdsFrom(s.shipments, Ask(s, x, verdict).shipments, {})
  {
    hide IdsFrom;
    IdsSame(s.shipments, {});
    var i := s.shipments[x].intent.value;
    IdsPut(s.shipments, x, s.shipments[x].(intent := Some(i.(verdict := Some(verdict)))));
  }

  lemma RejectIds(s: State, x: Id, id: Id)
    requires Answered(s, x, id, false)
    ensures IdsFrom(s.shipments, RejectIntent(s, x, id).shipments, {})
  {
    hide IdsFrom;
    IdsSame(s.shipments, {});
    IdsPut(s.shipments, x, s.shipments[x].(intent := Some(s.shipments[x].intent.value.(status := IntentRejected))));
  }

  lemma CompleteIds(s: State, x: Id, id: Id)
    requires Answered(s, x, id, true)
    ensures IdsFrom(s.shipments, CompleteIntent(s, x, id).shipments, {})
  {
    hide IdsFrom, CompleteReply;
    IdsSame(s.shipments, {});
    IdsPut(s.shipments, x, Issue(s.shipments[x]));
  }

  lemma PrepareIds(s: State, q: BatchRequest)
    requires DistinctItems(q.items)
    ensures IdsFrom(s.shipments, Prepare(s, q).shipments, Brought(DoPrepare(q)))
  {
    hide Hold;
    if PrepareReply(s, q) == Ok(true) && AllDispatchable(s, q) {
      forall i | 0 <= i < |q.items| ensures q.items[i].shipment in s.shipments {
        assert Dispatchable(s, q.trip, q.items[i]);
      }
      HoldAt(s.shipments, q.id, q.items);
      HeldIds(s, q, Hold(s.shipments, q.id, q.items));
    }
  }

  lemma HeldIds(s: State, q: BatchRequest, t: map<Id, Shipment>)
    requires Holds(s, t, q)
    ensures IdsFrom(s.shipments, t, Brought(DoPrepare(q)))
  {
    forall x | x in t && Listed(q.items, x)
      ensures t[x].intent.Some? && t[x].intent.value.id in Brought(DoPrepare(q))
    {
      var i :| 0 <= i < |q.items| && q.items[i].shipment == x;
      assert q.items[i].dispatch in Brought(DoPrepare(q));
    }
    assert forall x | x in t && !Listed(q.items, x) :: t[x] == s.shipments[x];
  }

  lemma {:induction false} IssueIds(a: map<Id, Shipment>, items: seq<Item>, x: Id)
    requires x in IssueAll(a, items)
    ensures x in a && SameIntent(a[x], IssueAll(a, items)[x])
  {
    if items != [] { IssueIds(a, items[..|items| - 1], x); }
  }

  lemma MarkIds(a: map<Id, Shipment>, items: seq<Item>)
    ensures IdsFrom(a, Grant(a, items), {}) && IdsFrom(a, DropAll(a, items), {}) && IdsFrom(a, IssueAll(a, items), {})
  {
    forall x | x in IssueAll(a, items) { IssueIds(a, items, x); }
  }

  lemma BatchIds(s: State, b: Id, granted: bool)
    ensures CanDecide(s, b, granted) ==> IdsFrom(s.shipments, Decide(s, b, granted).shipments, {})
    ensures CanCommit(s, b) ==> IdsFrom(s.shipments, Commit(s, b).shipments, {})
  {
    hide IdsFrom, Grant, DropAll, IssueAll, CommitReply, ReceiptsOf;
    IdsSame(s.shipments, {});
    if b in s.batches { MarkIds(s.shipments, s.batches[b].request.items); }
  }

  lemma LandIds(s: State, e: Id)
    requires e in s.landing
    ensures IdsFrom(s.shipments, LandResult(s, e).shipments, {})
  {
    hide IdsFrom, Save;
    IdsSame(s.shipments, {});
    var ev, x, m := s.landing[e], s.landing[e].result.shipment, s.(landing := s.landing - {e});
    SaveShape(m, ev, Applied);
    if x in s.shipments {
      IdsPut(s.shipments, x, Land(s.shipments[x], ev.result));
      SaveShape(Put(m, x, Land(s.shipments[x], ev.result)), ev, Applied);
    }
  }

  /** Only a stand-alone intent and the first transaction of a batch bring new intent ids, and they
      are those of the request. */
  lemma StepIds(s: State, step: Step)
    requires Enabled(s, step)
    ensures IdsFrom(s.shipments, Apply(s, step).shipments, Brought(step))
  {
    hide IdsFrom, OrderTx, Prepare, Deliver, LandResult, StopFree, Claim, Release, Transition, Intend, Ask,
      RejectIntent, CompleteIntent, Decide, Commit, FreshIntent, FreshClaim;
    IdsSame(s.shipments, {});
    match step
    case DoClaim(q, newId) => ClaimIds(s, q, newId);
    case DoRelease(q) => ReleaseIds(s, q);
    case DoOrderRead(_) =>
    case DoOrderTx(e, newId) => OrderIds(s, s.handling[e].0, s.handling[e].1, newId);
    case DoCommand(x, version, c) => CommandIds(s, x, version, c);
    case DoIntend(x, id, version) => IntendIds(s, x, id, version);
    case DoAsk(x, verdict) => AskIds(s, x, verdict);
    case DoReject(x, id) => RejectIds(s, x, id);
    case DoComplete(x, id) => CompleteIds(s, x, id);
    case DoPrepare(q) => PrepareIds(s, q);
    case DoDecide(b, granted) => BatchIds(s, b, granted);
    case DoCommit(b) => BatchIds(s, b, true);
    case DoDeliver(ev, pick) => DeliverShape(s, ev, pick);
    case DoLand(e) => LandIds(s, e);
    case DoAbandon(_) =>
  }
}
