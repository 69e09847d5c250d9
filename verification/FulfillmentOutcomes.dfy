/** What each transaction of the fulfillment service leaves behind, told by its tables alone: which rows
    change, to what, and when it is refused. */
module FulfillmentOutcomes {
  import opened Shipments
  import opened Fulfillment
  import opened FulfillmentInvariant
  import FR = FulfillmentRuns
  import FP = FulfillmentProgress
  import L = ClaimLedger

  // ----- Rows -----

  /** The shipment enters `to`: one version and one history row more, and nothing else changes. */
  ghost predicate Enters(sh: Shipment, to: Status, event: Event, sh': Shipment) {
    sh' == sh.(status := to, version := sh.version + 1,
               history := sh.history + [Entry(Some(sh.status), to, sh.version + 1, event)])
  }

  predicate Idle(intent: Option<Intent>) { intent.None? || intent.value.status == IntentRejected }

  /** Every listed shipment changes like this, and no other does. */
  ghost predicate EachListed(a: map<Id, Shipment>, t: map<Id, Shipment>, items: seq<Item>,
      change: (Shipment, Shipment) -> bool) {
    && t.Keys == a.Keys
    && (forall x | x in a && Listed(items, x) :: change(a[x], t[x]))
    && (forall x | x in a && !Listed(items, x) :: t[x] == a[x])
  }

  // ----- Claims and releases -----

  predicate Claimable(sh: Shipment, q: ClaimRequest) {
    sh.version == q.shipmentVersion && sh.status == Ready && sh.trip == None && sh.claim == None && Idle(sh.intent)
    && sh.snapshotOk
  }

  ghost predicate ClaimResult(s: State, q: ClaimRequest, newId: Id, reply: Reply<Receipt>, s': State) {
    && (forall r | r in s.ledger && RequestId(r) == q.id ::
          s' == s && reply == if r.Claimed? && r.claimReq == q then Ok(r) else Refused(RequestConflict))
    && ((forall r | r in s.ledger :: RequestId(r) != q.id) ==>
          && (reply.Ok? <==> q.shipment in s.shipments && Claimable(s.shipments[q.shipment], q))
          && (reply == Refused(Missing) <==> q.shipment !in s.shipments)
          && (reply == Refused(VersionConflict) <==>
                q.shipment in s.shipments && s.shipments[q.shipment].version != q.shipmentVersion)
          && (reply.Refused? ==> s' == s)
          && (reply.Ok? ==>
                var sh := s.shipments[q.shipment];
                && reply.value == Claimed(q, newId, sh.version + 1, sh.weight, sh.volume)
                && s' == s.(ledger := s.ledger + [reply.value],
                            shipments := s.shipments[q.shipment :=
                              sh.(trip := Some(q.trip), claim := Some(newId), version := sh.version + 1)])))
  }

  lemma ClaimOutcome(s: State, q: ClaimRequest, newId: Id)
    requires Inv(s)
    ensures ClaimResult(s, q, newId, ClaimReply(s, q, newId), Claim(s, q, newId))
  {
    hide Rows, Indexed, IntentIdsUnique, BatchesOk, OrdersOk, InboxOk, LedgerOk;
    OneAnswer(s, q.id);
  }

  /** A request id has one answer at most. */
  lemma OneAnswer(s: State, id: Id)
    requires Inv(s)
    ensures forall r | r in s.ledger && RequestId(r) == id :: Find(s.ledger, id) == Some(r)
  {
    hide Rows, Indexed, IntentIdsUnique, BatchesOk, OrdersOk, InboxOk, LedgerOk;
    forall r | r in s.ledger && RequestId(r) == id ensures Find(s.ledger, id) == Some(r) { L.FindStable(s.ledger, r); }
  }

  /** The release names a claim that was made by this trip and actor of this shipment and is still held,
      at the shipment's present version, with no dispatch under way or done. */
  ghost predicate Releasable(s: State, q: ReleaseRequest) {
    && q.shipment in s.shipments
    && (exists r :: r in s.ledger && r.Claimed? && r.claim == q.claim && r.claimReq.shipment == q.shipment
                    && r.claimReq.trip == q.trip && r.claimReq.actor == q.actor)
    && var sh := s.shipments[q.shipment];
       sh.version == q.shipmentVersion && sh.claim == Some(q.claim) && sh.trip == Some(q.trip) && Idle(sh.intent)
       && !sh.issued && (sh.status == Ready || sh.status == Canceled)
  }

  ghost predicate ReleaseResult(s: State, q: ReleaseRequest, reply: Reply<Receipt>, s': State) {
    && (forall r | r in s.ledger && RequestId(r) == q.id ::
          s' == s && reply == if r.Freed? && r.freeReq == q then Ok(r) else Refused(RequestConflict))
    && ((forall r | r in s.ledger :: RequestId(r) != q.id) ==>
          && (reply.Ok? <==> Releasable(s, q))
          && (reply == Refused(Missing) <==> q.shipment !in s.shipments)
          && (reply.Refused? ==> s' == s)
          && (reply.Ok? ==>
                var sh := s.shipments[q.shipment];
                && reply.value == Freed(q, sh.version + 1)
                && s' == s.(ledger := s.ledger + [reply.value],
                            shipments := s.shipments[q.shipment :=
                              sh.(trip := None, claim := None, version := sh.version + 1)])))
  }

  lemma ReleaseOutcome(s: State, q: ReleaseRequest)
    requires Inv(s)
    ensures ReleaseResult(s, q, ReleaseReply(s, q), Release(s, q))
  {
    hide Inv, Rows, Indexed, IntentIdsUnique, BatchesOk, OrdersOk, InboxOk, LedgerOk;
    OneAnswer(s, q.id);
    OneClaim(s, q.claim);
  }

  lemma OneClaim(s: State, claim: Id)
    requires Inv(s)
    ensures forall r | r in s.ledger && r.Claimed? && r.claim == claim :: FindClaim(s.ledger, claim) == Some(r)
  {
    hide Rows, Indexed, IntentIdsUnique, BatchesOk, OrdersOk, InboxOk, LedgerOk;
    forall r | r in s.ledger && r.Claimed? && r.claim == claim ensures FindClaim(s.ledger, claim) == Some(r) {
      L.ClaimIdsUnique(s.ledger, r, FindClaim(s.ledger, claim).value);
    }
  }

  // ----- Warehouse commands -----

  /** Where a command starts, where it leads, and what it announces. */
  function Course(c: Command): (Status, Status, Event) {
    match c
    case StartPicking => (PendingPick, Picking, StartedPicking)
    case MarkReady => (Picking, Ready, MadeReady)
    case MarkDelivered => (Dispatched, Delivered, WasDelivered)
    case MarkFailed => (Dispatched, Failed, DeliveryFailed)
  }

  ghost predicate CommandResult(s: State, x: Id, version: nat, c: Command, reply: Reply<bool>, s': State) {
    && (reply.Ok? <==>
          x in s.shipments && s.shipments[x].version == version && s.shipments[x].status == Course(c).0
          && !(s.shipments[x].intent.Some? && s.shipments[x].intent.value.status == IntentPending))
    && (reply == Refused(Missing) <==> x !in s.shipments)
    && (reply == Refused(VersionConflict) <==> x in s.shipments && s.shipments[x].version != version)
    && (reply.Refused? ==> s' == s)
    && (reply.Ok? ==>
          && x in s'.shipments && s' == s.(shipments := s.shipments[x := s'.shipments[x]])
          && Enters(s.shipments[x], Course(c).1, Course(c).2, s'.shipments[x]))
  }

  lemma CommandOutcome(s: State, x: Id, version: nat, c: Command)
    ensures CommandResult(s, x, version, c, TransitionReply(s, x, version, c), Transition(s, x, version, c))
  {
  }

  // ----- A single dispatch -----

  ghost predicate IntendResult(s: State, x: Id, id: Id, version: nat, reply: Reply<bool>, s': State) {
    && (reply == Ok(true) <==>
          x in s.shipments
          && var sh := s.shipments[x];
             sh.trip == None && sh.claim == None && Idle(sh.intent) && !(sh.intent.Some? && sh.intent.value.id == id)
             && sh.version == version && sh.status == Ready)
    && (reply == Ok(false) <==>
          x in s.shipments
          && var sh := s.shipments[x];
             sh.trip == None && sh.claim == None && !Idle(sh.intent) && sh.intent.value.id == id)
    && (reply == Refused(Missing) <==> x !in s.shipments)
    && (s' == if reply == Ok(true) then
                s.(shipments := s.shipments[x :=
                  s.shipments[x].(intent := Some(Intent(id, None, IntentPending, false, None)))])
              else s)
  }

  lemma IntendOutcome(s: State, x: Id, id: Id, version: nat)
    ensures IntendResult(s, x, id, version, IntendReply(s, x, id, version), Intend(s, x, id, version))
  {
  }

  /** The authority's first answer stands. */
  lemma AskOutcome(s: State, x: Id, verdict: bool)
    requires CanAsk(s, x)
    ensures var (i, s') := (s.shipments[x].intent.value, Ask(s, x, verdict));
            s' == if i.verdict.Some? then s
                  else s.(shipments := s.shipments[x := s.shipments[x].(intent := Some(i.(verdict := Some(verdict))))])
  {
  }

  /** A refused intent is given up, and nothing else changes. */
  ghost predicate RejectResult(s: State, x: Id, s': State)
    requires x in s.shipments && s.shipments[x].intent.Some?
  {
    var (sh, i) := (s.shipments[x], s.shipments[x].intent.value);
    s' == if i.status != IntentPending then s
          else s.(shipments := s.shipments[x := sh.(intent := Some(i.(status := IntentRejected)))])
  }

  lemma RejectOutcome(s: State, x: Id, id: Id)
    requires Answered(s, x, id, false)
    ensures RejectResult(s, x, RejectIntent(s, x, id))
  {
  }

  /** The shipment leaves the warehouse under its intent. */
  ghost predicate Leaves(sh: Shipment, sh': Shipment) {
    && sh.intent.Some? && sh'.issued && sh'.intent == Some(sh.intent.value.(status := IntentCompleted))
    && Enters(sh, Dispatched, WasDispatched, sh'.(issued := sh.issued, intent := sh.intent))
  }

  ghost predicate CompleteResult(s: State, x: Id, reply: Reply<bool>, s': State)
    requires x in s.shipments && s.shipments[x].intent.Some?
  {
    var (sh, i) := (s.shipments[x], s.shipments[x].intent.value);
    && reply == (if i.status == IntentCompleted then Ok(false)
                 else if sh.status == Ready then Ok(true) else Refused(InvalidTransition))
    && (reply != Ok(true) ==> s' == s)
    && (reply == Ok(true) ==>
          x in s'.shipments && s' == s.(shipments := s.shipments[x := s'.shipments[x]]) && Leaves(sh, s'.shipments[x]))
  }

  lemma CompleteOutcome(s: State, x: Id, id: Id)
    requires Answered(s, x, id, true)
    ensures CompleteResult(s, x, CompleteReply(s, x, id), CompleteIntent(s, x, id))
  {
  }

  // ----- Batches -----

  predicate ReadyFor(shipments: map<Id, Shipment>, trip: Id, item: Item) {
    item.shipment in shipments
    && var sh := shipments[item.shipment];
       sh.order == item.order && sh.reservation == item.reservation && sh.trip == Some(trip) && sh.claim.Some?
       && sh.status == Ready && sh.version == item.version && Idle(sh.intent)
  }

  /** A new batch is stored with every listed shipment held under its own dispatch id, or rejected with
      none when one of them is not ready. */
  ghost predicate PrepareResult(s: State, q: BatchRequest, reply: Reply<bool>, s': State) {
    if q.id in s.batches then
      s' == s && reply == if s.batches[q.id].request == q then Ok(false) else Refused(RequestConflict)
    else
      && reply == Ok(true) && q.id in s'.batches
      && s' == s.(shipments := s'.shipments, batches := s.batches[q.id := s'.batches[q.id]])
      && if forall i | 0 <= i < |q.items| :: ReadyFor(s.shipments, q.trip, q.items[i]) then
           && s'.batches[q.id] == Batch(q, BatchPending, None, []) && s'.shipments.Keys == s.shipments.Keys
           && (forall i | 0 <= i < |q.items| ::
                 q.items[i].shipment in s.shipments
                 && s'.shipments[q.items[i].shipment] == s.shipments[q.items[i].shipment].(intent :=
                      Some(Intent(q.items[i].dispatch, Some(q.id), IntentPending, false, None))))
           && (forall x | x in s.shipments && !Listed(q.items, x) :: s'.shipments[x] == s.shipments[x])
         else s'.batches[q.id] == Batch(q, BatchRejected, None, []) && s'.shipments == s.shipments
  }

  lemma ReadyIff(s: State, q: BatchRequest)
    ensures AllDispatchable(s, q) <==> forall i | 0 <= i < |q.items| :: ReadyFor(s.shipments, q.trip, q.items[i])
  {
    assert forall i | 0 <= i < |q.items| ::
        ReadyFor(s.shipments, q.trip, q.items[i]) <==> Dispatchable(s, q.trip, q.items[i]);
  }

  lemma ReadyExist(s: State, q: BatchRequest)
    requires forall i | 0 <= i < |q.items| :: ReadyFor(s.shipments, q.trip, q.items[i])
    ensures forall i | 0 <= i < |q.items| :: q.items[i].shipment in s.shipments
  {
  }

  lemma PrepareOutcome(s: State, q: BatchRequest)
    requires DistinctItems(q.items)
    ensures PrepareResult(s, q, PrepareReply(s, q), Prepare(s, q))
  {
    hide Hold, AllDispatchable, ReadyFor, DistinctItems, Listed;
    ReadyIff(s, q);
    if q.id !in s.batches && AllDispatchable(s, q) {
      ReadyExist(s, q);
      HoldAt(s.shipments, q.id, q.items);
    }
  }

  ghost predicate DecideResult(s: State, b: Id, granted: bool, s': State)
    requires b in s.batches
  {
    if s.batches[b].status != BatchPending then s' == s
    else
      && s' == s.(shipments := s'.shipments, batches := s.batches[b := s.batches[b].(decision := Some(granted))])
      && (!granted ==> s'.shipments == s.shipments)
      && (granted ==>
            EachListed(s.shipments, s'.shipments, s.batches[b].request.items, (sh: Shipment, sh': Shipment) =>
              sh.intent.Some? && sh' == sh.(intent := Some(sh.intent.value.(granted := true)))))
  }

  /** Every listed shipment's intent is marked granted. */
  ghost predicate AllGranted(shipments: map<Id, Shipment>, items: seq<Item>) {
    forall i | 0 <= i < |items| ::
      && items[i].shipment in shipments && shipments[items[i].shipment].intent.Some?
      && shipments[items[i].shipment].intent.value.granted
  }

  /** The first answer of the authority is stored as it is; a grant marks exactly the listed shipments. */
  lemma DecideOutcome(s: State, b: Id, granted: bool)
    requires Inv(s) && CanDecide(s, b, granted)
    ensures DecideResult(s, b, granted, Decide(s, b, granted))
  {
    hide Inv, Grant;
    if s.batches[b].status == BatchPending && granted {
      FR.GrantMoves(s, b);
      FP.MovedKeys(s.shipments, Grant(s.shipments, s.batches[b].request.items), b, s.batches[b].request.items);
    }
  }

  ghost predicate CommitResult(s: State, b: Id, s': State)
    requires b in s.batches
  {
    var batch := s.batches[b];
    var items := batch.request.items;
    if batch.status != BatchPending then s' == s
    else
      && b in s'.batches && s' == s.(shipments := s'.shipments, batches := s.batches[b := s'.batches[b]])
      && if batch.decision == Some(true) then
           && s'.batches[b] == batch.(status := BatchCompleted, receipts := s'.batches[b].receipts)
           && |s'.batches[b].receipts| == |items|
           && (forall i | 0 <= i < |items| ::
                 s'.batches[b].receipts[i] == ItemReceipt(items[i].shipment, items[i].dispatch, items[i].version + 1))
           && EachListed(s.shipments, s'.shipments, items, (sh: Shipment, sh': Shipment) => Leaves(sh, sh'))
         else
           && s'.batches[b] == batch.(status := BatchRejected)
           && EachListed(s.shipments, s'.shipments, items, (sh: Shipment, sh': Shipment) =>
                sh.intent.Some? && sh' == sh.(intent := Some(sh.intent.value.(status := IntentRejected))))
  }

  lemma LeavesIssue(sh: Shipment)
    requires sh.intent.Some?
    ensures Leaves(sh, Issue(sh))
  {
  }

  /** A granted batch dispatches every listed shipment, a refused one lets every one of them go. */
  lemma CommitOutcome(s: State, b: Id)
    requires Inv(s) && CanCommit(s, b)
    ensures CommitResult(s, b, Commit(s, b))
  {
    hide Inv, IssueAll, DropAll, ReceiptsOf, CommitReply, EachListed;
    FR.BindingNeverChanges(s, b);
    if s.batches[b].status == BatchPending {
      if s.batches[b].decision == Some(true) { IssueOutcome(s, b); } else { DropOutcome(s, b); }
    }
  }

  lemma IssueOutcome(s: State, b: Id)
    requires Inv(s) && b in s.batches && s.batches[b].status == BatchPending && s.batches[b].decision == Some(true)
    ensures var items := s.batches[b].request.items;
            var t := IssueAll(s.shipments, items);
            && EachListed(s.shipments, t, items, (sh: Shipment, sh': Shipment) => Leaves(sh, sh'))
            && |ReceiptsOf(t, items)| == |items|
            && forall i | 0 <= i < |items| ::
                 ReceiptsOf(t, items)[i] == ItemReceipt(items[i].shipment, items[i].dispatch, items[i].version + 1)
  {
    hide Inv, IssueAll, Issue, Leaves, ReceiptsOf, BatchesOk;
    FP.InvBatches(s);
    FP.InvRows(s);
    var t := FR.CommitIssues(s, b);
    IssueReceipts(s, b, t);
    forall x | x in s.shipments && Listed(s.batches[b].request.items, x) ensures Leaves(s.shipments[x], t[x]) {
      LeavesIssue(s.shipments[x]);
    }
  }

  lemma IssueReceipts(s: State, b: Id, t: map<Id, Shipment>)
    requires Rows(s) && BatchesOk(s.shipments, s.batches) && b in s.batches && s.batches[b].status == BatchPending
    requires s.batches[b].decision == Some(true) && FR.IssuedAll(s.shipments, t, s.batches[b].request.items)
    ensures var items := s.batches[b].request.items;
            forall i | 0 <= i < |items| ::
              ReceiptsOf(t, items)[i] == ItemReceipt(items[i].shipment, items[i].dispatch, items[i].version + 1)
    ensures |ReceiptsOf(t, s.batches[b].request.items)| == |s.batches[b].request.items|
  {
    hide BatchesOk, FR.IssuedAll, IssuedFor, HeldFor;
    FR.CommittedOk(s, b, t);
  }

  lemma DropOutcome(s: State, b: Id)
    requires Inv(s) && b in s.batches && s.batches[b].status == BatchPending
    ensures var items := s.batches[b].request.items;
            EachListed(s.shipments, DropAll(s.shipments, items), items, (sh: Shipment, sh': Shipment) =>
              sh.intent.Some? && sh' == sh.(intent := Some(sh.intent.value.(status := IntentRejected))))
  {
    hide Inv, DropAll;
    FR.DropMoves(s, b);
    FP.MovedKeys(s.shipments, DropAll(s.shipments, s.batches[b].request.items), b, s.batches[b].request.items);
  }

  /** The authority's answer to a batch is final: it is what every later state has on record, a refused
      batch never dispatches a shipment, and a granted one is never rejected. */
  lemma DecisionIsFinal(s: State, b: Id, granted: bool, steps: seq<Step>, s': State)
    requires Inv(s) && CanDecide(s, b, granted) && s.batches[b].status == BatchPending
    requires Runs(Decide(s, b, granted), steps, s')
    ensures b in s'.batches && s'.batches[b].decision == Some(granted)
    ensures granted ==> s'.batches[b].status != BatchRejected
    ensures !granted ==> s'.batches[b].status != BatchCompleted
    ensures !granted ==>
             forall x | x in s'.shipments && s'.shipments[x].issued ::
               s'.shipments[x].intent.Some? && s'.shipments[x].intent.value.batch != Some(b)
  {
    hide Inv, Grant, FP.Onward, EachListed, Runs;
    DecideOutcome(s, b, granted);
    var m := Decide(s, b, granted);
    FR.DecideKeeps(s, b, granted);
    FP.RunOnward(m, steps, s');
    BatchOnward(m, s', b);
    FP.InvBatches(s');
    BatchDecision(s', b);
    if !granted {
      forall x | x in s'.shipments && s'.shipments[x].issued
        ensures s'.shipments[x].intent.Some? && s'.shipments[x].intent.value.batch != Some(b)
      {
        FP.IssuedUnder(s', x);
      }
    }
  }

  lemma BatchOnward(s: State, s': State, b: Id)
    requires FP.Onward(s, s') && b in s.batches && s.batches[b].decision.Some?
    ensures b in s'.batches && s'.batches[b].decision == s.batches[b].decision
  {
    hide FP.ShipmentsAdvance, FP.CursorsAdvance, FP.InboxAdvances;
    assert FP.BatchAdvances(s.batches[b], s'.batches[b]);
  }

  lemma BatchDecision(s: State, b: Id)
    requires BatchesOk(s.shipments, s.batches) && b in s.batches
    ensures s.batches[b].status == BatchCompleted ==> s.batches[b].decision == Some(true)
    ensures s.batches[b].status == BatchRejected ==> s.batches[b].decision != Some(true)
  {
    hide DistinctItems, HeldFor, IssuedFor;
    assert BatchOk(s.shipments, b, s.batches[b]);
  }

  // ----- Order events -----

  predicate Outdated(cursors: map<Id, Cursor>, ev: OrderEvent) {
    ev.order in cursors && (cursors[ev.order].canceled || ev.version <= cursors[ev.order].version)
  }

  /** A cancellation: refused on record once the shipment has left, and otherwise final; a stand-alone
      intent still waiting for the authority is given up with it. */
  ghost predicate Cancels(sh: Shipment, sh': Shipment) {
    match sh.status
    case Canceled => sh' == sh
    case Dispatched => Enters(sh, Dispatched, CancelRejected, sh')
    case Delivered => Enters(sh, Delivered, CancelRejected, sh')
    case Failed => Enters(sh, Failed, CancelRejected, sh')
    case _ =>
      if sh.intent.Some? && sh.intent.value.status == IntentPending
      then Enters(sh.(intent := Some(sh.intent.value.(status := IntentRejected))), Canceled, WasCanceled, sh')
      else Enters(sh, Canceled, WasCanceled, sh')
  }

  /** The one shipment of the order. */
  ghost predicate OrderOf(s: State, o: Id, x: Id) { x in s.shipments && s.shipments[x].order == o }

  ghost predicate NoShipment(s: State, o: Id) { forall x | x in s.shipments :: s.shipments[x].order != o }

  ghost predicate OrderResult(s: State, ev: OrderEvent, parsed: bool, newId: Id, reply: Reply<bool>, s': State) {
    if ev.id in s.orderInbox then s' == s && reply == Ok(true)
    else if Outdated(s.cursors, ev) then s' == s.(orderInbox := s.orderInbox[ev.id := ev]) && reply == Ok(true)
    else
      && (reply.Refused? ==> s' == s)
      && (reply.Ok? ==>
            && s'.cursors == s.cursors[ev.order := Cursor(ev.version, !parsed)]
            && s'.orderInbox == s.orderInbox[ev.id := ev]
            && s' == s.(shipments := s'.shipments, byOrder := s'.byOrder, cursors := s'.cursors,
                        orderInbox := s'.orderInbox))
      && (forall x | OrderOf(s, ev.order, x) ::
            && (reply == Refused(ReservationConflict) <==> parsed && s.shipments[x].reservation != ev.reservation)
            && (reply == Refused(DispatchPending) <==>
                  !parsed && s.shipments[x].intent.Some? && s.shipments[x].intent.value.status == IntentPending
                  && s.shipments[x].intent.value.batch.Some?)
            && (reply.Refused? ==> reply.error in {ReservationConflict, DispatchPending})
            && (reply.Ok? && parsed ==> s'.shipments == s.shipments)
            && (reply.Ok? && !parsed ==>
                  x in s'.shipments && s'.shipments == s.shipments[x := s'.shipments[x]]
                  && Cancels(s.shipments[x], s'.shipments[x])))
      && (NoShipment(s, ev.order) ==>
            reply.Ok?
            && s'.shipments == if parsed then
                 s.shipments[newId :=
                   Shipment(ev.order, ev.reservation, ev.weight, ev.volume, ev.snapshotOk, PendingPick, 1, None,
                            None, None, false, [Entry(None, PendingPick, 1, Created)])]
               else s.shipments)
  }

  lemma CancelsOne(sh: Shipment)
    ensures Cancels(sh, CancelOne(sh))
  {
  }

  lemma IndexOf(s: State, o: Id)
    requires Inv(s)
    ensures forall x :: OrderOf(s, o, x) <==> o in s.byOrder && s.byOrder[o] == x
    ensures o in s.byOrder ==> s.byOrder[o] in s.shipments
    ensures NoShipment(s, o) <==> o !in s.byOrder
  {
    hide Rows, IntentIdsUnique, BatchesOk, OrdersOk, InboxOk, LedgerAgrees;
    if o in s.byOrder { assert OrderOf(s, o, s.byOrder[o]); }
  }

  lemma KnownOrder(s: State, ev: OrderEvent, parsed: bool, newId: Id)
    requires ev.id !in s.orderInbox && !Stale(s.cursors, ev)
    requires ev.order in s.byOrder && s.byOrder[ev.order] in s.shipments
    ensures var (x, reply, s') := (s.byOrder[ev.order], OrderReply(s, ev, parsed), OrderTx(s, ev, parsed, newId));
            && (reply == Refused(ReservationConflict) <==> parsed && s.shipments[x].reservation != ev.reservation)
            && (reply == Refused(DispatchPending) <==> !parsed && HeldByBatch(s.shipments[x]))
            && (reply.Refused? ==> reply.error in {ReservationConflict, DispatchPending} && s' == s)
            && (reply.Ok? ==>
                  s' == s.(shipments := if parsed then s.shipments else s.shipments[x := CancelOne(s.shipments[x])],
                           cursors := s.cursors[ev.order := Cursor(ev.version, !parsed)],
                           orderInbox := s.orderInbox[ev.id := ev]))
  {
    hide CancelOne, Stale;
    if parsed {} else {}
  }

  lemma NewOrder(s: State, ev: OrderEvent, parsed: bool, newId: Id)
    requires ev.id !in s.orderInbox && !Stale(s.cursors, ev) && ev.order !in s.byOrder
    ensures OrderReply(s, ev, parsed) == Ok(true)
    ensures var s' := OrderTx(s, ev, parsed, newId);
            s' == s.(shipments := if parsed then s.shipments[newId :=
                       Shipment(ev.order, ev.reservation, ev.weight, ev.volume, ev.snapshotOk, PendingPick, 1,
                         None, None, None, false, [Entry(None, PendingPick, 1, Created)])] else s.shipments,
                     byOrder := s'.byOrder, cursors := s.cursors[ev.order := Cursor(ev.version, !parsed)],
                     orderInbox := s.orderInbox[ev.id := ev])
  {
    hide Stale;
    if parsed {} else {}
  }

  lemma OldOrder(s: State, ev: OrderEvent, parsed: bool, newId: Id)
    requires ev.id in s.orderInbox || Stale(s.cursors, ev)
    ensures OrderReply(s, ev, parsed) == Ok(true)
    ensures OrderTx(s, ev, parsed, newId)
            == if ev.id in s.orderInbox then s else s.(orderInbox := s.orderInbox[ev.id := ev])
  {
    hide Stale, CancelOne, NewShipment;
  }

  /** A new event moves its order's cursor; a confirmation makes the order's one shipment or leaves it, a
      cancellation cancels it; and only a foreign reservation or a batch that holds it stand in the way. */
  lemma OrderOutcome(s: State, ev: OrderEvent, parsed: bool, newId: Id)
    requires Inv(s)
    ensures OrderResult(s, ev, parsed, newId, OrderReply(s, ev, parsed), OrderTx(s, ev, parsed, newId))
  {
    hide Inv, CancelOne, Cancels, OrderTx, OrderReply, NoShipment, OrderOf;
    IndexOf(s, ev.order);
    assert Outdated(s.cursors, ev) <==> Stale(s.cursors, ev);
    if ev.id in s.orderInbox || Stale(s.cursors, ev) {
      OldOrder(s, ev, parsed, newId);
    } else if ev.order in s.byOrder {
      KnownOrder(s, ev, parsed, newId);
      OfOrder(s, ev.order);
      CancelsOne(s.shipments[s.byOrder[ev.order]]);
    } else {
      NewOrder(s, ev, parsed, newId);
    }
  }

  lemma OfOrder(s: State, o: Id)
    requires Inv(s) && o in s.byOrder
    ensures OrderOf(s, o, s.byOrder[o]) && s.byOrder[o] in s.shipments
    ensures forall x | OrderOf(s, o, x) :: x == s.byOrder[o]
  {
    hide Inv;
    IndexOf(s, o);
  }

  // ----- Delivery results -----

  /** What becomes of an event that no earlier receipt settles: `None` if it is on its way to be applied. */
  function Verdict(s: State, r: Result): Option<Outcome> {
    if r.shipment !in s.shipments then Some(Deferred)
    else if s.shipments[r.shipment].trip != Some(r.trip) then Some(Conflict)
    else
      match s.shipments[r.shipment].status
      case Dispatched => None
      case Delivered => Some(Conflict)
      case Failed => Some(Conflict)
      case Canceled => Some(Conflict)
      case _ => Some(Deferred)
  }

  ghost predicate Files(s: State, ev: DeliveryEvent, outcome: Outcome, s': State) {
    s' == s.(inbox := s.inbox[ev.id := InboxRow(ev, outcome)])
  }

  ghost predicate DeliverResult(s: State, ev: DeliveryEvent, pick: Option<Id>, reply: Reply<bool>, s': State)
    requires CanPick(s, ev, pick)
  {
    && (reply == Refused(PayloadConflict) <==> ev.id in s.inbox && s.inbox[ev.id].event != ev)
    && (reply.Refused? ==> reply.error == PayloadConflict)
    && (reply.Refused? || (ev.id in s.inbox && s.inbox[ev.id].outcome != Deferred) ==> s' == s)
    && (reply.Ok? && (ev.id in s.inbox ==> s.inbox[ev.id].outcome == Deferred) ==>
          && (pick.Some? && s.inbox[pick.value].event.result != ev.result ==>
                var other := s.inbox[pick.value];
                Files(if other.outcome == Deferred
                      then s.(inbox := s.inbox[pick.value := InboxRow(other.event, Conflict)]) else s,
                      ev, Conflict, s'))
          && (pick.Some? && s.inbox[pick.value].event.result == ev.result && s.inbox[pick.value].outcome != Deferred ==>
                Files(s, ev, Duplicate, s'))
          && (pick.None?
              || (s.inbox[pick.value].event.result == ev.result && s.inbox[pick.value].outcome == Deferred) ==>
                match Verdict(s, ev.result)
                case Some(outcome) => Files(s, ev, outcome, s')
                case None => s' == s.(landing := s.landing[ev.id := ev])))
  }

  lemma DeliverOutcome(s: State, ev: DeliveryEvent, pick: Option<Id>)
    requires CanPick(s, ev, pick)
    ensures DeliverResult(s, ev, pick, DeliverReply(s, ev), Deliver(s, ev, pick))
  {
    hide SameKey, Settle;
    SettleVerdict(s, ev);
  }

  lemma SettleVerdict(s: State, ev: DeliveryEvent)
    ensures match Verdict(s, ev.result)
            case Some(outcome) => Files(s, ev, outcome, Settle(s, ev))
            case None => Settle(s, ev) == s.(landing := s.landing[ev.id := ev])
  {
  }

  /** The result says delivered: the shipment is DELIVERED, and FAILED otherwise. */
  ghost predicate Reports(sh: Shipment, delivered: bool, sh': Shipment) {
    if delivered then Enters(sh, Delivered, WasDelivered, sh') else Enters(sh, Failed, DeliveryFailed, sh')
  }

  /** The shipment's status and last history row say how the delivery ended. */
  predicate Shows(shipments: map<Id, Shipment>, r: Result) {
    r.shipment in shipments
    && var sh := shipments[r.shipment];
       && sh.history != []
       && sh.history[|sh.history| - 1]
          == (if r.delivered then Entry(Some(Dispatched), Delivered, sh.version, WasDelivered)
              else Entry(Some(Dispatched), Failed, sh.version, DeliveryFailed))
       && sh.status == if r.delivered then Delivered else Failed
  }

  ghost predicate ApplyResult(s: State, e: Id, s': State)
    requires e in s.landing
  {
    var (ev, x) := (s.landing[e], s.landing[e].result.shipment);
    && x in s.shipments && x in s'.shipments && Reports(s.shipments[x], ev.result.delivered, s'.shipments[x])
    && s' == s.(shipments := s.shipments[x := s'.shipments[x]], inbox := s.inbox[ev.id := InboxRow(ev, Applied)],
                landing := s.landing - {e})
  }

  lemma ApplyOutcome(s: State, e: Id)
    requires StillDispatched(s, e)
    ensures ApplyResult(s, e, LandResult(s, e))
  {
    var (ev, x) := (s.landing[e], s.landing[e].result.shipment);
    LandReports(s.shipments[x], ev.result);
    hide Land, Reports;
  }

  lemma LandReports(sh: Shipment, r: Result)
    requires sh.status == Dispatched
    ensures Reports(sh, r.delivered, Land(sh, r))
  {
    assert sh.(status := Dispatched) == sh;
  }
}
