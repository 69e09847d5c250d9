/** Delivery results without the hypothesis that nothing else is recorded of the shipment between the
    read and the write of a result. Histories stay unbroken exactly along the runs in which that never
    happens. */
module DeliveryRace {
  import opened Shipments
  import opened Fulfillment
  import opened FulfillmentInvariant
  import opened FulfillmentRuns
  import opened FulfillmentProgress

  // ----- Runs in which a result may be written whatever happened since it was read -----

  predicate LooselyEnabled(s: State, step: Step) { if step.DoLand? then step.event in s.landing else Enabled(s, step) }

  function LooselyApply(s: State, step: Step): State
    requires LooselyEnabled(s, step)
  {
    if step.DoLand? then LandResult(s, step.event) else Apply(s, step)
  }

  ghost predicate LooseRuns(s: State, steps: seq<Step>, s': State)
    decreases |steps|
  {
    if steps == [] then s == s' else LooselyEnabled(s, steps[0]) && LooseRuns(LooselyApply(s, steps[0]), steps[1..], s')
  }

  /** No write of the run finds that another result was recorded since its read. */
  ghost predicate RaceFree(s: State, steps: seq<Step>)
    decreases |steps|
  {
    steps == [] || !LooselyEnabled(s, steps[0])
    || (&& (steps[0].DoLand? ==> StillDispatched(s, steps[0].event))
        && RaceFree(LooselyApply(s, steps[0]), steps[1..]))
  }

  lemma {:induction false} RaceFreeRuns(s: State, steps: seq<Step>, s': State)
    requires LooseRuns(s, steps, s') && RaceFree(s, steps)
    ensures Runs(s, steps, s')
    decreases |steps|
  {
    hide Enabled, Apply, LandResult;
    if steps != [] {
      assert Enabled(s, steps[0]) && LooselyApply(s, steps[0]) == Apply(s, steps[0]) by { SameStep(s, steps[0]); }
      RaceFreeRuns(LooselyApply(s, steps[0]), steps[1..], s');
    }
  }

  lemma SameStep(s: State, step: Step)
    requires LooselyEnabled(s, step) && (step.DoLand? ==> StillDispatched(s, step.event))
    ensures Enabled(s, step) && LooselyApply(s, step) == Apply(s, step)
  {
    hide LandResult;
  }

  // ----- Histories only grow, whatever happens -----

  ghost predicate Grown(a: map<Id, Shipment>, t: map<Id, Shipment>) {
    forall x | x in a :: x in t && a[x].history <= t[x].history
  }

  lemma GrownPut(a: map<Id, Shipment>, x: Id, sh: Shipment)
    requires x in a ==> a[x].history <= sh.history
    ensures Grown(a, a[x := sh])
  {
  }

  lemma GrownTrans(a: map<Id, Shipment>, b: map<Id, Shipment>, c: map<Id, Shipment>)
    requires Grown(a, b) && Grown(b, c)
    ensures Grown(a, c)
  {
    forall x | x in a ensures x in c && a[x].history <= c[x].history {
      assert a[x].history <= b[x].history && b[x].history <= c[x].history;
    }
  }

  lemma {:induction false} HoldGrown(a: map<Id, Shipment>, b: Id, items: seq<Item>)
    requires forall i | 0 <= i < |items| :: items[i].shipment in a
    ensures Grown(a, Hold(a, b, items))
  {
    if items != [] {
      var n := |items| - 1;
      var before := Hold(a, b, items[..n]);
      HoldGrown(a, b, items[..n]);
      hide Grown;
      if items[n].shipment in before {
        var sh := before[items[n].shipment].(intent := Some(BatchIntent(b, items[n])));
        GrownPut(before, items[n].shipment, sh);
        GrownTrans(a, before, before[items[n].shipment := sh]);
      }
    }
  }

  lemma {:induction false} IssueGrown(a: map<Id, Shipment>, items: seq<Item>)
    ensures Grown(a, IssueAll(a, items))
  {
    if items != [] {
      var n := |items| - 1;
      var before := IssueAll(a, items[..n]);
      IssueGrown(a, items[..n]);
      hide Grown;
      var x := items[n].shipment;
      if x in before && before[x].intent.Some? {
        GrownPut(before, x, Issue(before[x]));
        GrownTrans(a, before, before[x := Issue(before[x])]);
      }
    }
  }

  lemma GrownSame(a: map<Id, Shipment>)
    ensures Grown(a, a)
  {
  }

  lemma DropGrown(a: map<Id, Shipment>, items: seq<Item>)
    ensures Grown(a, DropAll(a, items)) && Grown(a, Grant(a, items))
  {
  }

  lemma DecideGrown(s: State, b: Id, granted: bool)
    requires CanDecide(s, b, granted)
    ensures Grown(s.shipments, Decide(s, b, granted).shipments)
  {
    hide Grown, Grant;
    DropGrown(s.shipments, s.batches[b].request.items);
    GrownSame(s.shipments);
  }

  lemma CommitGrown(s: State, b: Id)
    requires CanCommit(s, b)
    ensures Grown(s.shipments, Commit(s, b).shipments)
  {
    hide Grown, IssueAll, DropAll, CommitReply, ReceiptsOf;
    IssueGrown(s.shipments, s.batches[b].request.items);
    DropGrown(s.shipments, s.batches[b].request.items);
    GrownSame(s.shipments);
  }

  lemma PrepareGrown(s: State, q: BatchRequest)
    ensures Grown(s.shipments, Prepare(s, q).shipments)
  {
    hide Grown, Hold;
    GrownSame(s.shipments);
    if PrepareReply(s, q) == Ok(true) && AllDispatchable(s, q) {
      forall i | 0 <= i < |q.items| ensures q.items[i].shipment in s.shipments {
        assert Dispatchable(s, q.trip, q.items[i]);
      }
      HoldGrown(s.shipments, q.id, q.items);
    }
  }

  lemma CancelGrows(sh: Shipment)
    ensures sh.history <= CancelOne(sh).history
  {
  }

  lemma OrderGrown(s: State, ev: OrderEvent, parsed: bool, newId: Id)
    requires newId !in s.shipments
    ensures Grown(s.shipments, OrderTx(s, ev, parsed, newId).shipments)
  {
    hide Grown, Stale, NewShipment, CancelOne;
    GrownSame(s.shipments);
    GrownPut(s.shipments, newId, NewShipment(ev.order, ev.reservation, ev.weight, ev.volume, ev.snapshotOk));
    if ev.order in s.byOrder && s.byOrder[ev.order] in s.shipments {
      var x := s.byOrder[ev.order];
      CancelGrows(s.shipments[x]);
      GrownPut(s.shipments, x, CancelOne(s.shipments[x]));
    }
    if OrderReply(s, ev, parsed).Refused? || ev.id in s.orderInbox {
    } else if Stale(s.cursors, ev) {
    } else if ev.order in s.byOrder {
      if parsed {} else {}
    } else {
      if parsed {} else {}
    }
  }

  lemma ClaimGrown(s: State, q: ClaimRequest, newId: Id)
    ensures Grown(s.shipments, Claim(s, q, newId).shipments)
  {
    hide Grown, Find;
    GrownSame(s.shipments);
    if Find(s.ledger, q.id).None? && ClaimReply(s, q, newId).Ok? {
      var sh := s.shipments[q.shipment];
      GrownPut(s.shipments, q.shipment, sh.(trip := Some(q.trip), claim := Some(newId), version := sh.version + 1));
    }
  }

  lemma ReleaseGrown(s: State, q: ReleaseRequest)
    ensures Grown(s.shipments, Release(s, q).shipments)
  {
    hide Grown, Find, FindClaim;
    GrownSame(s.shipments);
    if Find(s.ledger, q.id).None? && ReleaseReply(s, q).Ok? {
      var sh := s.shipments[q.shipment];
      GrownPut(s.shipments, q.shipment, sh.(trip := None, claim := None, version := sh.version + 1));
    }
  }

  lemma CommandGrown(s: State, x: Id, version: nat, c: Command)
    ensures Grown(s.shipments, Transition(s, x, version, c).shipments)
  {
    hide Grown;
    GrownSame(s.shipments);
    if TransitionReply(s, x, version, c).Ok? {
      GrownPut(s.shipments, x, Record(s.shipments[x], Target(c), TransitionTo(Target(c)).value.1));
    }
  }

  /** A change of one shipment's intent. */
  lemma IntentGrown(a: map<Id, Shipment>, x: Id, intent: Option<Intent>)
    requires x in a
    ensures Grown(a, a) && Grown(a, a[x := a[x].(intent := intent)])
  {
  }

  lemma IntendGrown(s: State, x: Id, id: Id, version: nat)
    ensures Grown(s.shipments, Intend(s, x, id, version).shipments)
  {
    hide Grown;
    GrownSame(s.shipments);
    if IntendReply(s, x, id, version) == Ok(true) {
      IntentGrown(s.shipments, x, Some(Intent(id, None, IntentPending, false, None)));
    }
  }

  lemma AskGrown(s: State, x: Id, verdict: bool)
    requires CanAsk(s, x)
    ensures Grown(s.shipments, Ask(s, x, verdict).shipments)
  {
    hide Grown;
    IntentGrown(s.shipments, x, Some(s.shipments[x].intent.value.(verdict := Some(verdict))));
  }

  lemma RejectGrown(s: State, x: Id, id: Id)
    requires Answered(s, x, id, false)
    ensures Grown(s.shipments, RejectIntent(s, x, id).shipments)
  {
    hide Grown;
    IntentGrown(s.shipments, x, Some(s.shipments[x].intent.value.(status := IntentRejected)));
  }

  lemma CompleteGrown(s: State, x: Id, id: Id)
    requires Answered(s, x, id, true)
    ensures Grown(s.shipments, CompleteIntent(s, x, id).shipments)
  {
    hide Grown, CompleteReply;
    GrownSame(s.shipments);
    GrownPut(s.shipments, x, Issue(s.shipments[x]));
  }

  lemma LandGrows(sh: Shipment, result: Result)
    ensures sh.history <= Land(sh, result).history
  {
  }

  lemma LandGrown(s: State, e: Id)
    requires e in s.landing
    ensures Grown(s.shipments, LandResult(s, e).shipments)
  {
    hide Grown, Land;
    var x := s.landing[e].result.shipment;
    GrownSame(s.shipments);
    if x in s.shipments {
      LandGrows(s.shipments[x], s.landing[e].result);
      GrownPut(s.shipments, x, Land(s.shipments[x], s.landing[e].result));
    }
  }

  lemma StepGrown(s: State, step: Step)
    requires LooselyEnabled(s, step)
    ensures Grown(s.shipments, LooselyApply(s, step).shipments)
  {
    hide Grown, OrderTx, Prepare, Deliver, LandResult, StopFree, Claim, Release, Transition, Intend, Ask, RejectIntent,
      CompleteIntent, Decide, Commit;
    GrownSame(s.shipments);
    match step
    case DoClaim(q, newId) => ClaimGrown(s, q, newId);
    case DoRelease(q) => ReleaseGrown(s, q);
    case DoOrderRead(_) =>
    case DoOrderTx(e, newId) => OrderGrown(s, s.handling[e].0, s.handling[e].1, newId);
    case DoCommand(x, version, c) => CommandGrown(s, x, version, c);
    case DoIntend(x, id, version) => IntendGrown(s, x, id, version);
    case DoAsk(x, verdict) => AskGrown(s, x, verdict);
    case DoReject(x, id) => RejectGrown(s, x, id);
    case DoComplete(x, id) => CompleteGrown(s, x, id);
    case DoPrepare(q) => PrepareGrown(s, q);
    case DoDecide(b, granted) => DecideGrown(s, b, granted);
    case DoCommit(b) => CommitGrown(s, b);
    case DoDeliver(ev, pick) => DeliverShape(s, ev, pick);
    case DoLand(e) => LandGrown(s, e);
    case DoAbandon(_) =>
  }

  // ----- The exact condition -----

  /** Every history row starts where the one before it ended. */
  ghost predicate Linked(h: seq<Entry>) { forall i | 0 < i < |h| :: h[i].from == Some(h[i - 1].to) }

  ghost predicate AllLinked(s: State) { forall x | x in s.shipments :: Linked(s.shipments[x].history) }

  lemma BrokenStays(a: seq<Entry>, b: seq<Entry>)
    requires a <= b && !Linked(a)
    ensures !Linked(b)
  {
    var i :| 0 < i < |a| && a[i].from != Some(a[i - 1].to);
    assert b[i] == a[i] && b[i - 1] == a[i - 1];
  }

  lemma {:induction false} BrokenForGood(s: State, steps: seq<Step>, s': State, x: Id)
    requires LooseRuns(s, steps, s') && x in s.shipments && !Linked(s.shipments[x].history)
    ensures !AllLinked(s')
    decreases |steps|
  {
    hide LooselyEnabled, LooselyApply, Linked;
    if steps != [] {
      var m := LooselyApply(s, steps[0]);
      StepGrown(s, steps[0]);
      BrokenStays(s.shipments[x].history, m.shipments[x].history);
      BrokenForGood(m, steps[1..], s', x);
    }
  }

  lemma RaceBreaks(s: State, e: Id)
    requires Inv(s) && e in s.landing && !StillDispatched(s, e)
    ensures var x := s.landing[e].result.shipment;
            x in LandResult(s, e).shipments && !Linked(LandResult(s, e).shipments[x].history)
  {
    hide Inv, Linked;
    var x := s.landing[e].result.shipment;
    assert x in s.shipments && HistoryOk(s.shipments[x]) by { ReadRow(s, e); }
    BrokenLink(s.shipments[x], s.landing[e].result);
  }

  lemma ReadRow(s: State, e: Id)
    requires Inv(s) && e in s.landing
    ensures s.landing[e].result.shipment in s.shipments && HistoryOk(s.shipments[s.landing[e].result.shipment])
  {
    hide Rows, Indexed, IntentIdsUnique, BatchesOk, OrdersOk, LedgerAgrees, HistoryOk;
    LandingRow(s, e);
    hide InboxOk;
    ChainOf(s, s.landing[e].result.shipment);
  }

  lemma BrokenLink(sh: Shipment, result: Result)
    requires HistoryOk(sh) && sh.status != Dispatched
    ensures !Linked(Land(sh, result).history)
  {
    var h := Land(sh, result).history;
    assert h[|sh.history| - 1] == sh.history[|sh.history| - 1];
    assert h[|sh.history|].from == Some(Dispatched);
  }

  lemma {:induction false} RaceShows(s: State, steps: seq<Step>, s': State)
    requires Inv(s) && LooseRuns(s, steps, s') && !RaceFree(s, steps)
    ensures !AllLinked(s')
    decreases |steps|
  {
    hide Inv, Enabled, Apply, LandResult, Linked, AllLinked;
    if steps[0].DoLand? && !StillDispatched(s, steps[0].event) {
      RaceBreaks(s, steps[0].event);
      BrokenForGood(LandResult(s, steps[0].event), steps[1..], s', s.landing[steps[0].event].result.shipment);
    } else {
      SameStep(s, steps[0]);
      StepKeeps(s, steps[0]);
      RaceShows(LooselyApply(s, steps[0]), steps[1..], s');
    }
  }

  lemma LinkedOf(s: State)
    requires Inv(s)
    ensures AllLinked(s)
  {
    hide Indexed, IntentIdsUnique, BatchesOk, OrdersOk, LedgerAgrees, InboxOk, RowOk;
    forall x | x in s.shipments ensures Linked(s.shipments[x].history) { RowAt(s, x); }
  }

  /** In a run from the start every shipment's history is an unbroken chain if and only if no result was
      written after another one of the same shipment had been recorded since its read. */
  lemma HistoriesIff(steps: seq<Step>, s: State)
    requires LooseRuns(INIT, steps, s)
    ensures AllLinked(s) <==> RaceFree(INIT, steps)
  {
    hide Inv, LooseRuns, RaceFree, AllLinked;
    InitInv();
    if RaceFree(INIT, steps) {
      RaceFreeRuns(INIT, steps, s);
      RunKeeps(INIT, steps, s);
      LinkedOf(s);
    } else {
      RaceShows(INIT, steps, s);
    }
  }

  // ----- What the write can find -----

  lemma {:induction false} OnlyDispatched(sh: Shipment, n: nat, i: nat)
    requires HistoryOk(sh) && sh.status == Dispatched && 0 < n <= i < |sh.history| && sh.history[n - 1].to == Dispatched
    ensures sh.history[i].to == Dispatched
    decreases i
  {
    if i > n { OnlyDispatched(sh, n, i - 1); }
    assert Edge(sh.history[i - 1].to, sh.history[i].to, sh.history[i].event);
    if Terminal(sh.history[i].to) { AbsorbingStatuses(sh, i); }
  }

  /** Between read and write the shipment is still dispatched exactly when only refused cancellations
      were recorded of it. */
  lemma RaceMeans(s: State, steps: seq<Step>, s': State, e: Id)
    requires Inv(s) && Runs(s, steps, s') && StillDispatched(s, e) && e in s'.landing && s'.landing[e] == s.landing[e]
    ensures var x := s.landing[e].result.shipment;
            && x in s'.shipments && s.shipments[x].history <= s'.shipments[x].history
            && (StillDispatched(s', e) <==>
                  forall i | |s.shipments[x].history| <= i < |s'.shipments[x].history| ::
                    s'.shipments[x].history[i].to == Dispatched)
  {
    hide Inv;
    var x := s.landing[e].result.shipment;
    RunOnward(s, steps, s');
    assert Advances(s.shipments[x], s'.shipments[x]);
    ChainOf(s, x);
    ChainOf(s', x);
    var n, h' := |s.shipments[x].history|, s'.shipments[x].history;
    assert h'[n - 1] == s.shipments[x].history[n - 1];
    if StillDispatched(s', e) {
      forall i | n <= i < |h'| ensures h'[i].to == Dispatched { OnlyDispatched(s'.shipments[x], n, i); }
    }
  }
}
