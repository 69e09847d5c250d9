/** How old a claim is: as long as a claimed shipment is ready it stands at the version its claim was
    given, and once it is canceled it has moved past it. */
module ClaimVersions {
  import opened Shipments
  import opened Fulfillment
  import opened FulfillmentInvariant
  import opened FulfillmentOutcomes
  import FR = FulfillmentRuns
  import FP = FulfillmentProgress

  ghost predicate Aged(sh: Shipment, r: Receipt) {
    r.Claimed? && sh.claim == Some(r.claim) ==>
      && (sh.status == Ready ==> r.version == sh.version)
      && (sh.status == Canceled ==> r.version < sh.version)
  }

  ghost predicate AllAged(shipments: map<Id, Shipment>, ledger: seq<Receipt>) {
    forall x, r | x in shipments && r in ledger :: Aged(shipments[x], r)
  }

  /** The shipment's claim says nothing new: it is none, or the old one, and if it counts now then the
      version it counts against is the old one too, or has moved on with a cancellation. */
  ghost predicate AgesWell(sh: Shipment, sh': Shipment) {
    sh'.claim.Some? ==>
      && sh'.claim == sh.claim
      && (sh'.status == Ready ==> sh.status == Ready && sh'.version == sh.version)
      && (sh'.status == Canceled ==>
            (sh.status == Ready && sh.version < sh'.version) || (sh.status == Canceled && sh'.version == sh.version))
  }

  ghost predicate EachAgesWell(a: map<Id, Shipment>, t: map<Id, Shipment>) {
    forall x | x in t && t[x].claim.Some? :: x in a && AgesWell(a[x], t[x])
  }

  ghost predicate SameLedger(s: State, s': State) { s'.ledger == s.ledger && EachAgesWell(s.shipments, s'.shipments) }

  lemma AgedStays(a: map<Id, Shipment>, t: map<Id, Shipment>, ledger: seq<Receipt>)
    requires AllAged(a, ledger) && EachAgesWell(a, t)
    ensures AllAged(t, ledger)
  {
    forall x, r | x in t && r in ledger ensures Aged(t[x], r) {
      if t[x].claim.Some? { assert Aged(a[x], r); }
    }
  }

  lemma PutAges(a: map<Id, Shipment>, x: Id, sh: Shipment)
    requires x in a && AgesWell(a[x], sh)
    ensures EachAgesWell(a, a[x := sh])
  {
  }

  lemma SameAges(a: map<Id, Shipment>)
    ensures EachAgesWell(a, a)
  {
  }

  lemma NewAges(a: map<Id, Shipment>, x: Id, sh: Shipment)
    requires sh.claim.None?
    ensures EachAgesWell(a, a[x := sh])
  {
  }

  lemma RowFacts(s: State, x: Id)
    requires Inv(s) && x in s.shipments
    ensures s.shipments[x].claim.Some? ==> s.shipments[x].status !in {PendingPick, Picking}
  {
    hide Indexed, IntentIdsUnique, LedgerAgrees, BatchesOk, OrdersOk, InboxOk, HistoryOk;
    RowAt(s, x);
  }

  lemma CommandAges(s: State, x: Id, version: nat, c: Command)
    requires Inv(s)
    ensures SameLedger(s, Transition(s, x, version, c))
  {
    hide Inv, EachAgesWell, TransitionReply, Transition;
    CommandOutcome(s, x, version, c);
    SameAges(s.shipments);
    if TransitionReply(s, x, version, c).Ok? {
      RowFacts(s, x);
      PutAges(s.shipments, x, Transition(s, x, version, c).shipments[x]);
    }
  }

  lemma IntendAges(s: State, x: Id, id: Id, version: nat)
    ensures SameLedger(s, Intend(s, x, id, version))
  {
    hide EachAgesWell, Intend, IntendReply;
    SameAges(s.shipments);
    IntendOutcome(s, x, id, version);
    if x in s.shipments {
      PutAges(s.shipments, x, s.shipments[x].(intent := Some(Intent(id, None, IntentPending, false, None))));
    }
  }

  lemma AskAges(s: State, x: Id, verdict: bool)
    requires CanAsk(s, x)
    ensures SameLedger(s, Ask(s, x, verdict))
  {
    hide EachAgesWell, Ask;
    SameAges(s.shipments);
    AskOutcome(s, x, verdict);
    var sh := s.shipments[x];
    PutAges(s.shipments, x, sh.(intent := Some(sh.intent.value.(verdict := Some(verdict)))));
  }

  lemma RejectAges(s: State, x: Id, id: Id)
    requires Answered(s, x, id, false)
    ensures SameLedger(s, RejectIntent(s, x, id))
  {
    hide EachAgesWell, RejectIntent;
    SameAges(s.shipments);
    RejectOutcome(s, x, id);
    var sh := s.shipments[x];
    PutAges(s.shipments, x, sh.(intent := Some(sh.intent.value.(status := IntentRejected))));
  }

  lemma CompleteAges(s: State, x: Id, id: Id)
    requires Answered(s, x, id, true)
    ensures SameLedger(s, CompleteIntent(s, x, id))
  {
    hide EachAgesWell, CompleteIntent, CompleteReply;
    SameAges(s.shipments);
    CompleteOutcome(s, x, id);
    if CompleteReply(s, x, id) == Ok(true) { PutAges(s.shipments, x, CompleteIntent(s, x, id).shipments[x]); }
  }

  lemma OrderAges(s: State, ev: OrderEvent, parsed: bool, newId: Id)
    requires Inv(s)
    ensures SameLedger(s, OrderTx(s, ev, parsed, newId))
  {
    hide Inv, EachAgesWell, OrderTx, OrderReply;
    OrderOutcome(s, ev, parsed, newId);
    SameAges(s.shipments);
    IndexOf(s, ev.order);
    if NoShipment(s, ev.order) {
      NewAges(s.shipments, newId, NewShipment(ev.order, ev.reservation, ev.weight, ev.volume, ev.snapshotOk));
    } else {
      var x := s.byOrder[ev.order];
      assert OrderOf(s, ev.order, x);
      RowFacts(s, x);
      var reply, s' := OrderReply(s, ev, parsed), OrderTx(s, ev, parsed, newId);
      if ev.id !in s.orderInbox && !Outdated(s.cursors, ev) && reply.Ok? && !parsed {
        CancelAges(s.shipments[x], s'.shipments[x]);
        PutAges(s.shipments, x, s'.shipments[x]);
      }
    }
  }

  lemma CancelAges(sh: Shipment, sh': Shipment)
    requires Cancels(sh, sh') && (sh.claim.Some? ==> sh.status !in {PendingPick, Picking})
    ensures AgesWell(sh, sh')
  {
  }

  lemma PrepareAges(s: State, q: BatchRequest)
    requires DistinctItems(q.items)
    ensures SameLedger(s, Prepare(s, q))
  {
    hide EachAgesWell, Prepare, PrepareReply, ReadyFor, DistinctItems;
    PrepareOutcome(s, q);
    SameAges(s.shipments);
    var t := Prepare(s, q).shipments;
    if t != s.shipments {
      forall x | x in t ensures x in s.shipments && AgesWell(s.shipments[x], t[x]) {
        if Listed(q.items, x) { var i :| 0 <= i < |q.items| && q.items[i].shipment == x; }
      }
      EachOf(s.shipments, t);
    }
  }

  lemma EachOf(a: map<Id, Shipment>, t: map<Id, Shipment>)
    requires forall x | x in t :: x in a && AgesWell(a[x], t[x])
    ensures EachAgesWell(a, t)
  {
  }

  lemma BatchAges(s: State, b: Id, granted: bool)
    requires Inv(s)
    ensures CanDecide(s, b, granted) ==> SameLedger(s, Decide(s, b, granted))
    ensures CanCommit(s, b) ==> SameLedger(s, Commit(s, b))
  {
    hide Inv, EachAgesWell, Decide, Commit, Listed;
    SameAges(s.shipments);
    if CanDecide(s, b, granted) {
      DecideOutcome(s, b, granted);
      if s.batches[b].status == BatchPending && granted { EachOf(s.shipments, Decide(s, b, granted).shipments); }
    }
    if CanCommit(s, b) {
      CommitOutcome(s, b);
      if s.batches[b].status == BatchPending { EachOf(s.shipments, Commit(s, b).shipments); }
    }
  }

  lemma LandAges(s: State, e: Id)
    requires StillDispatched(s, e)
    ensures SameLedger(s, LandResult(s, e))
  {
    hide EachAgesWell, LandResult;
    ApplyOutcome(s, e);
    PutAges(s.shipments, s.landing[e].result.shipment, LandResult(s, e).shipments[s.landing[e].result.shipment]);
  }

  // ----- The ledger grows -----

  /** A claim that is held was granted. */
  lemma HeldIsStored(s: State, x: Id)
    requires Inv(s) && x in s.shipments && s.shipments[x].claim.Some?
    ensures exists r :: r in s.ledger && ClaimOf(r) == s.shipments[x].claim.value
  {
    hide Indexed, IntentIdsUnique, BatchesOk, OrdersOk, InboxOk, LedgerOk, HistoryOk;
    RowAt(s, x);
    assert Holder(s.ledger, x) == HeldBy(s.shipments[x]);
    HolderStored(s.ledger, x);
  }

  lemma {:induction false} HolderStored(ledger: seq<Receipt>, x: Id)
    requires Holder(ledger, x).Some?
    ensures exists r :: r in ledger && ClaimOf(r) == Holder(ledger, x).value.0
  {
    var n := |ledger| - 1;
    if ShipmentOf(ledger[n]) == x {
      assert ledger[n] in ledger;
    } else {
      HolderStored(ledger[..n], x);
      var r :| r in ledger[..n] && ClaimOf(r) == Holder(ledger, x).value.0;
      assert r in ledger;
    }
  }

  lemma ClaimAges(s: State, q: ClaimRequest, newId: Id)
    requires Inv(s) && AllAged(s.shipments, s.ledger) && FreshClaim(s, newId)
    ensures AllAged(Claim(s, q, newId).shipments, Claim(s, q, newId).ledger)
  {
    hide Inv, Claim, ClaimReply;
    ClaimOutcome(s, q, newId);
    var s' := Claim(s, q, newId);
    if s' != s {
      if exists r :: r in s.ledger && RequestId(r) == q.id { assert false; }
      forall x, r | x in s'.shipments && r in s'.ledger ensures Aged(s'.shipments[x], r) {
        if x != q.shipment {
          if r in s.ledger { assert Aged(s.shipments[x], r); }
          else if s.shipments[x].claim == Some(newId) { HeldIsStored(s, x); assert false; }
        }
      }
    }
  }

  lemma ReleaseAges(s: State, q: ReleaseRequest)
    requires Inv(s) && AllAged(s.shipments, s.ledger)
    ensures AllAged(Release(s, q).shipments, Release(s, q).ledger)
  {
    hide Inv, Release, ReleaseReply, Releasable;
    ReleaseOutcome(s, q);
    var s' := Release(s, q);
    if s' != s {
      if exists r :: r in s.ledger && RequestId(r) == q.id { assert false; }
      forall x, r | x in s'.shipments && r in s'.ledger ensures Aged(s'.shipments[x], r) {
        if x != q.shipment && r in s.ledger { assert Aged(s.shipments[x], r); }
      }
    }
  }

  lemma StepAges(s: State, step: Step)
    requires Inv(s) && AllAged(s.shipments, s.ledger) && Enabled(s, step)
    ensures AllAged(Apply(s, step).shipments, Apply(s, step).ledger)
  {
    if step.DoClaim? {
      hide Inv, AllAged, Claim;
      ClaimAges(s, step.claimReq, step.newId);
    } else if step.DoRelease? {
      hide Inv, AllAged, Release;
      ReleaseAges(s, step.releaseReq);
    } else {
      OtherAges(s, step);
      hide Inv, Enabled, Apply;
      AgedStays(s.shipments, Apply(s, step).shipments, s.ledger);
    }
  }

  lemma OtherAges(s: State, step: Step)
    requires Inv(s) && Enabled(s, step) && !step.DoClaim? && !step.DoRelease?
    ensures SameLedger(s, Apply(s, step))
  {
    hide Inv, EachAgesWell, OrderTx, Prepare, Deliver, LandResult, StopFree, Transition, Intend, Ask, RejectIntent,
      CompleteIntent, Decide, Commit, FreshIntent, StillDispatched;
    SameAges(s.shipments);
    match step
    case DoOrderRead(_) =>
    case DoOrderTx(e, newId) => OrderAges(s, s.handling[e].0, s.handling[e].1, newId);
    case DoCommand(x, version, c) => CommandAges(s, x, version, c);
    case DoIntend(x, id, version) => IntendAges(s, x, id, version);
    case DoAsk(x, verdict) => AskAges(s, x, verdict);
    case DoReject(x, id) => RejectAges(s, x, id);
    case DoComplete(x, id) => CompleteAges(s, x, id);
    case DoPrepare(q) => PrepareAges(s, q);
    case DoDecide(b, granted) => BatchAges(s, b, granted);
    case DoCommit(b) => BatchAges(s, b, true);
    case DoDeliver(ev, pick) => FP.DeliverShape(s, ev, pick);
    case DoLand(e) => LandAges(s, e);
    case DoAbandon(_) =>
  }

  /** Along every run of the service a claimed shipment that is ready stands at its claim's version, and a
      canceled one past it. */
  lemma {:induction false} RunAges(s: State, steps: seq<Step>, s': State)
    requires Inv(s) && AllAged(s.shipments, s.ledger) && Runs(s, steps, s')
    ensures AllAged(s'.shipments, s'.ledger)
    decreases |steps|
  {
    hide Inv, AllAged, Enabled, Apply;
    if steps != [] {
      StepAges(s, steps[0]);
      FR.StepKeeps(s, steps[0]);
      RunAges(Apply(s, steps[0]), steps[1..], s');
    }
  }
}
