/** The fulfillment service's tables and the transactions that change them, each one atomic step.
    A refused transaction leaves the tables as they were. */
module Fulfillment {
  import opened Shipments

  // ----- Contracts -----

  datatype ClaimRequest = ClaimRequest(id: Id, trip: Id, shipment: Id, actor: Id, tripVersion: nat,
      shipmentVersion: nat)
  datatype ReleaseRequest = ReleaseRequest(id: Id, claim: Id, trip: Id, shipment: Id, actor: Id,
                                           tripVersion: nat, shipmentVersion: nat)

  /** A stored receipt: the request and the response first given to it. */
  datatype Receipt =
    | Claimed(claimReq: ClaimRequest, claim: Id, version: nat, weight: nat, volume: nat)
    | Freed(freeReq: ReleaseRequest, version: nat)

  datatype Item = Item(shipment: Id, order: Id, reservation: Id, version: nat, dispatch: Id)
  datatype BatchRequest = BatchRequest(id: Id, trip: Id, actor: Id, tripVersion: nat, plan: Id, dispatchVersion: nat,
      items: seq<Item>)

  datatype ItemReceipt = ItemReceipt(shipment: Id, dispatch: Id, version: nat)
  datatype BatchStatus = BatchPending | BatchCompleted | BatchRejected
  datatype Batch = Batch(request: BatchRequest, status: BatchStatus, decision: Option<bool>, receipts: seq<ItemReceipt>)

  datatype OrderEvent = OrderEvent(id: Id, order: Id, version: nat, confirms: bool, reservation: Id,
                                   weight: nat, volume: nat, snapshotOk: bool)
  datatype Cursor = Cursor(version: nat, canceled: bool)

  /** What a delivery result says; `detail` stands for the remaining semantic fields. */
  datatype Result = Result(trip: Id, stop: Id, shipment: Id, delivered: bool, detail: nat)
  /** An event carries a result; `envelope` stands for the fields outside the semantic hash. */
  datatype DeliveryEvent = DeliveryEvent(id: Id, result: Result, envelope: nat)
  datatype Outcome = Applied | Duplicate | Deferred | Conflict
  datatype InboxRow = InboxRow(event: DeliveryEvent, outcome: Outcome)

  datatype Error = Missing | VersionConflict | InvalidTransition | DispatchPending | ClaimConflict
                 | RequestConflict | SnapshotInvalid | ReservationConflict | PayloadConflict | BindingChanged

  datatype Reply<+T> = Ok(value: T) | Refused(error: Error)

  datatype State = State(
    shipments: map<Id, Shipment>,
    byOrder: map<Id, Id>,
    ledger: seq<Receipt>,
    batches: map<Id, Batch>,
    cursors: map<Id, Cursor>,
    orderInbox: map<Id, OrderEvent>,
    handling: map<Id, (OrderEvent, bool)>,
    inbox: map<Id, InboxRow>,
    landing: map<Id, DeliveryEvent>)

  const INIT: State := State(map[], map[], [], map[], map[], map[], map[], map[], map[])

  function RequestId(r: Receipt): Id {
    match r case Claimed(q, _, _, _, _) => q.id case Freed(q, _) => q.id
  }
  function ShipmentOf(r: Receipt): Id {
    match r case Claimed(q, _, _, _, _) => q.shipment case Freed(q, _) => q.shipment
  }
  function ClaimOf(r: Receipt): Id {
    match r case Claimed(_, c, _, _, _) => c case Freed(q, _) => q.claim
  }

  /** The receipt stored for a request id. */
  function Find(ledger: seq<Receipt>, id: Id): (r: Option<Receipt>)
    ensures r.Some? ==> r.value in ledger && RequestId(r.value) == id
    ensures r.None? ==> forall x | x in ledger :: RequestId(x) != id
  {
    if ledger == [] then None
    else if RequestId(ledger[|ledger| - 1]) == id then Some(ledger[|ledger| - 1])
    else Find(ledger[..|ledger| - 1], id)
  }

  /** The CLAIM receipt that issued a claim id. */
  function FindClaim(ledger: seq<Receipt>, claim: Id): (r: Option<Receipt>)
    ensures r.Some? ==> r.value in ledger && r.value.Claimed? && r.value.claim == claim
    ensures r.None? ==> forall x | x in ledger && x.Claimed? :: x.claim != claim
  {
    if ledger == [] then None
    else
      var last := ledger[|ledger| - 1];
      if last.Claimed? && last.claim == claim then Some(last) else FindClaim(ledger[..|ledger| - 1], claim)
  }

  function Put(s: State, x: Id, sh: Shipment): State { s.(shipments := s.shipments[x := sh]) }

  // ----- Trip claims -----

  function ClaimReply(s: State, q: ClaimRequest, newId: Id): Reply<Receipt> {
    match Find(s.ledger, q.id)
    case Some(r) => if r.Claimed? && r.claimReq == q then Ok(r) else Refused(RequestConflict)
    case None =>
      if q.shipment !in s.shipments then Refused(Missing)
      else
        var sh := s.shipments[q.shipment];
        if sh.version != q.shipmentVersion then Refused(VersionConflict)
        else if sh.status != Ready || sh.trip.Some? || sh.claim.Some? || Busy(sh.intent) then Refused(ClaimConflict)
        else if !sh.snapshotOk then Refused(SnapshotInvalid)
        else Ok(Claimed(q, newId, sh.version + 1, sh.weight, sh.volume))
  }

  /** `newId` is the claim id the transaction would issue. */
  function Claim(s: State, q: ClaimRequest, newId: Id): State {
    if Find(s.ledger, q.id).None? && ClaimReply(s, q, newId).Ok? then
      var sh := s.shipments[q.shipment];
      Put(s, q.shipment, sh.(trip := Some(q.trip), claim := Some(newId), version := sh.version + 1))
        .(ledger := s.ledger + [ClaimReply(s, q, newId).value])
    else s
  }

  function ReleaseReply(s: State, q: ReleaseRequest): Reply<Receipt> {
    match Find(s.ledger, q.id)
    case Some(r) => if r.Freed? && r.freeReq == q then Ok(r) else Refused(RequestConflict)
    case None =>
      if q.shipment !in s.shipments then Refused(Missing)
      else
        match FindClaim(s.ledger, q.claim)
        case None => Refused(ClaimConflict)
        case Some(original) =>
          var sh := s.shipments[q.shipment];
          if original.claimReq.shipment != q.shipment || original.claimReq.trip != q.trip
             || original.claimReq.actor != q.actor then Refused(ClaimConflict)
          else if sh.version != q.shipmentVersion then Refused(VersionConflict)
          else if sh.claim != Some(q.claim) || sh.trip != Some(q.trip) || Busy(sh.intent) || sh.issued
             || sh.status !in {Ready, Canceled} then Refused(ClaimConflict)
          else Ok(Freed(q, sh.version + 1))
  }

  function Release(s: State, q: ReleaseRequest): State {
    if Find(s.ledger, q.id).None? && ReleaseReply(s, q).Ok? then
      var sh := s.shipments[q.shipment];
      Put(s, q.shipment, sh.(trip := None, claim := None, version := sh.version + 1))
        .(ledger := s.ledger + [ReleaseReply(s, q).value])
    else s
  }

  datatype ClaimState = Held | WasReleased

  /** `claimStatus`; the last branch is a claim neither held nor released. */
  function ClaimStatus(s: State, claim: Id): Reply<ClaimState> {
    match FindClaim(s.ledger, claim)
    case None => Refused(Missing)
    case Some(r) =>
      if r.claimReq.shipment !in s.shipments then Refused(Missing)
      else
        var sh := s.shipments[r.claimReq.shipment];
        if sh.claim == Some(claim) && sh.trip == Some(r.claimReq.trip) then Ok(Held)
        else if exists f | f in s.ledger ::
          f.Freed? && f.freeReq.claim == claim && f.freeReq.shipment == r.claimReq.shipment
        then Ok(WasReleased) else Refused(ClaimConflict)
  }

  // ----- Order events -----

  predicate Stale(cursors: map<Id, Cursor>, ev: OrderEvent) {
    ev.order in cursors && (cursors[ev.order].canceled || cursors[ev.order].version >= ev.version)
  }

  /** Before the transaction the handler reads the cursor; only a confirmation that is not already
      stale is parsed, so `parsed` says whether the transaction will see a confirmation. */
  function OrderRead(s: State, ev: OrderEvent): State {
    s.(handling := s.handling[ev.id := (ev, ev.confirms && !Stale(s.cursors, ev))])
  }

  function CancelOne(sh: Shipment): Shipment {
    if DispatchedEver(sh.status) then Record(sh, sh.status, CancelRejected)
    else if sh.status == Canceled then sh
    else
      var intent := if Pending(sh.intent) then Some(sh.intent.value.(status := IntentRejected)) else sh.intent;
      Record(sh.(intent := intent), Canceled, WasCanceled)
  }

  function OrderReply(s: State, ev: OrderEvent, parsed: bool): Reply<bool> {
    if ev.id in s.orderInbox || Stale(s.cursors, ev) || ev.order !in s.byOrder then Ok(true)
    else if s.byOrder[ev.order] !in s.shipments then Refused(Missing)
    else
      var sh := s.shipments[s.byOrder[ev.order]];
      if parsed && sh.reservation != ev.reservation then Refused(ReservationConflict)
      else if !parsed && HeldByBatch(sh) then Refused(DispatchPending)
      else Ok(true)
  }

  /** `newId` is the id of the shipment the transaction may create. */
  function OrderTx(s: State, ev: OrderEvent, parsed: bool, newId: Id): State {
    if OrderReply(s, ev, parsed).Refused? || ev.id in s.orderInbox then s
    else if Stale(s.cursors, ev) then s.(orderInbox := s.orderInbox[ev.id := ev])
    else
      var moved :=
        if ev.order in s.byOrder then
          var x := s.byOrder[ev.order];
          if parsed then s else Put(s, x, CancelOne(s.shipments[x]))
        else if parsed then
          Put(s, newId, NewShipment(ev.order, ev.reservation, ev.weight, ev.volume, ev.snapshotOk))
            .(byOrder := s.byOrder[ev.order := newId])
        else s;
      moved.(cursors := s.cursors[ev.order := Cursor(ev.version, !parsed)], orderInbox := s.orderInbox[ev.id := ev])
  }

  // ----- Warehouse commands -----

  /** The four routes that call `transition`. */
  datatype Command = StartPicking | MarkReady | MarkDelivered | MarkFailed

  function Target(c: Command): Status {
    match c
    case StartPicking => Picking
    case MarkReady => Ready
    case MarkDelivered => Delivered
    case MarkFailed => Failed
  }

  function TransitionReply(s: State, x: Id, version: nat, c: Command): Reply<bool> {
    if x !in s.shipments then Refused(Missing)
    else if s.shipments[x].version != version then Refused(VersionConflict)
    else if Pending(s.shipments[x].intent) then Refused(DispatchPending)
    else if !MayTransition(s.shipments[x].status, Target(c)) then Refused(InvalidTransition)
    else Ok(true)
  }

  function Transition(s: State, x: Id, version: nat, c: Command): State {
    if TransitionReply(s, x, version, c).Ok? then
      Put(s, x, Record(s.shipments[x], Target(c), TransitionTo(Target(c)).value.1))
    else s
  }

  // ----- Dispatch of a single shipment -----

  function IntendReply(s: State, x: Id, id: Id, version: nat): Reply<bool> {
    if x !in s.shipments then Refused(Missing)
    else
      var sh := s.shipments[x];
      if sh.trip.Some? || sh.claim.Some? then Refused(ClaimConflict)
      else if sh.intent.Some? && sh.intent.value.id == id then
        if sh.intent.value.status.IntentRejected? then Refused(InvalidTransition) else Ok(false)
      else if Busy(sh.intent) then Refused(DispatchPending)
      else if sh.version != version then Refused(VersionConflict)
      else if !MayTransition(sh.status, Dispatched) then Refused(InvalidTransition)
      else Ok(true)
  }

  /** Ok(true): the intent is stored; Ok(false): it already was. */
  function Intend(s: State, x: Id, id: Id, version: nat): State {
    if IntendReply(s, x, id, version) == Ok(true) then
      Put(s, x, s.shipments[x].(intent := Some(Intent(id, None, IntentPending, false, None))))
    else s
  }

  predicate CanAsk(s: State, x: Id) {
    x in s.shipments && Pending(s.shipments[x].intent) && s.shipments[x].intent.value.batch.None?
  }

  /** The Order authority fixes its answer to a pending stand-alone intent. */
  function Ask(s: State, x: Id, verdict: bool): State
    requires CanAsk(s, x)
  {
    var i := s.shipments[x].intent.value;
    if i.verdict.Some? then s else Put(s, x, s.shipments[x].(intent := Some(i.(verdict := Some(verdict)))))
  }

  predicate Answered(s: State, x: Id, id: Id, verdict: bool) {
    x in s.shipments && s.shipments[x].intent.Some?
    && var i := s.shipments[x].intent.value; i.id == id && i.batch.None? && i.verdict == Some(verdict)
  }

  /** A definite refusal releases the intent. */
  function RejectIntent(s: State, x: Id, id: Id): State
    requires Answered(s, x, id, false)
  {
    var sh := s.shipments[x];
    if Pending(sh.intent) then Put(s, x, sh.(intent := Some(sh.intent.value.(status := IntentRejected)))) else s
  }

  function CompleteReply(s: State, x: Id, id: Id): Reply<bool>
    requires Answered(s, x, id, true)
  {
    var sh := s.shipments[x];
    if sh.intent.value.status.IntentCompleted? then Ok(false)
    else if !MayTransition(sh.status, Dispatched) then Refused(InvalidTransition)
    else Ok(true)
  }

  function CompleteIntent(s: State, x: Id, id: Id): State
    requires Answered(s, x, id, true)
  {
    if CompleteReply(s, x, id) == Ok(true) then Put(s, x, Issue(s.shipments[x])) else s
  }

  /** The shipment leaves the warehouse and its intent is done. */
  function Issue(sh: Shipment): Shipment
    requires sh.intent.Some?
  {
    Record(sh, Dispatched, WasDispatched).(issued := true, intent := Some(sh.intent.value.(status := IntentCompleted)))
  }

  // ----- Batch dispatch -----

  predicate Dispatchable(s: State, trip: Id, item: Item) {
    item.shipment in s.shipments
    && var sh := s.shipments[item.shipment];
       sh.order == item.order && sh.reservation == item.reservation && sh.trip == Some(trip) && sh.claim.Some?
       && sh.status == Ready && sh.version == item.version && !Busy(sh.intent)
  }

  predicate AllDispatchable(s: State, q: BatchRequest) {
    forall i | 0 <= i < |q.items| :: Dispatchable(s, q.trip, q.items[i])
  }

  function BatchIntent(batch: Id, item: Item): Intent { Intent(item.dispatch, Some(batch), IntentPending, false, None) }

  /** Gives each listed shipment its batch intent, in order. */
  function Hold(shipments: map<Id, Shipment>, batch: Id, items: seq<Item>): map<Id, Shipment>
    requires forall i | 0 <= i < |items| :: items[i].shipment in shipments
  {
    if items == [] then shipments
    else
      var n := |items| - 1;
      var before := Hold(shipments, batch, items[..n]);
      if items[n].shipment in before
      then before[items[n].shipment := before[items[n].shipment].(intent := Some(BatchIntent(batch, items[n])))]
      else before
  }

  function PrepareReply(s: State, q: BatchRequest): Reply<bool> {
    if q.id in s.batches then (if s.batches[q.id].request != q then Refused(RequestConflict) else Ok(false))
    else Ok(true)
  }

  /** First transaction of a batch: all shipments are held, or the batch is rejected outright. */
  function Prepare(s: State, q: BatchRequest): State {
    if PrepareReply(s, q) != Ok(true) then s
    else if AllDispatchable(s, q) then
      s.(shipments := Hold(s.shipments, q.id, q.items), batches := s.batches[q.id := Batch(q, BatchPending, None, [])])
    else s.(batches := s.batches[q.id := Batch(q, BatchRejected, None, [])])
  }

  /** The authority's answer is stored before any lifecycle change; a grant marks every intent. */
  predicate CanDecide(s: State, b: Id, granted: bool) {
    b in s.batches && (s.batches[b].decision.Some? ==> s.batches[b].decision.value == granted)
  }

  function Grant(shipments: map<Id, Shipment>, items: seq<Item>): map<Id, Shipment> {
    map x | x in shipments ::
      var sh := shipments[x];
      if sh.intent.Some? && exists i | 0 <= i < |items| :: items[i].dispatch == sh.intent.value.id
      then sh.(intent := Some(sh.intent.value.(granted := true))) else sh
  }

  function Decide(s: State, b: Id, granted: bool): State
    requires CanDecide(s, b, granted)
  {
    var batch := s.batches[b];
    if batch.status != BatchPending then s
    else
      s.(batches := s.batches[b := batch.(decision := Some(granted))],
         shipments := if granted then Grant(s.shipments, batch.request.items) else s.shipments)
  }

  /** The guard of the granted commit for one item; where it fails the source throws
      BATCH_GRANTED_SHIPMENT_BINDING_CHANGED. */
  predicate BindingIntact(shipments: map<Id, Shipment>, trip: Id, item: Item) {
    item.shipment in shipments
    && var sh := shipments[item.shipment];
       sh.status == Ready && sh.trip == Some(trip) && sh.intent.Some? && sh.intent.value.id == item.dispatch
       && sh.intent.value.granted
  }

  function CommitReply(s: State, b: Id): Reply<bool>
    requires b in s.batches
  {
    var batch := s.batches[b];
    if batch.status != BatchPending || batch.decision != Some(true) then Ok(true)
    else if forall i | 0 <= i < |batch.request.items| ::
      BindingIntact(s.shipments, batch.request.trip, batch.request.items[i])
    then Ok(true) else Refused(BindingChanged)
  }

  function IssueAll(shipments: map<Id, Shipment>, items: seq<Item>): map<Id, Shipment> {
    if items == [] then shipments
    else
      var n := |items| - 1;
      var before := IssueAll(shipments, items[..n]);
      if items[n].shipment in before && before[items[n].shipment].intent.Some?
      then before[items[n].shipment := Issue(before[items[n].shipment])] else before
  }

  function DropAll(shipments: map<Id, Shipment>, items: seq<Item>): map<Id, Shipment> {
    map x | x in shipments ::
      var sh := shipments[x];
      if Pending(sh.intent) && exists i | 0 <= i < |items| :: items[i].dispatch == sh.intent.value.id
      then sh.(intent := Some(sh.intent.value.(status := IntentRejected))) else sh
  }

  function ReceiptsOf(shipments: map<Id, Shipment>, items: seq<Item>): seq<ItemReceipt> {
    seq(|items|, i requires 0 <= i < |items| =>
      ItemReceipt(items[i].shipment, items[i].dispatch,
                  if items[i].shipment in shipments then shipments[items[i].shipment].version else 0))
  }

  predicate CanCommit(s: State, b: Id) { b in s.batches && s.batches[b].decision.Some? }

  function Commit(s: State, b: Id): State
    requires CanCommit(s, b)
  {
    var batch := s.batches[b];
    var items := batch.request.items;
    if batch.status != BatchPending || CommitReply(s, b).Refused? then s
    else if batch.decision == Some(true) then
      var issued := IssueAll(s.shipments, items);
      s.(shipments := issued,
          batches := s.batches[b := batch.(status := BatchCompleted, receipts := ReceiptsOf(issued, items))])
    else
      s.(shipments := DropAll(s.shipments, items), batches := s.batches[b := batch.(status := BatchRejected)])
  }

  // ----- Delivery results -----

  predicate SameKey(a: Result, b: Result) { a.trip == b.trip && a.stop == b.stop }

  predicate Live(outcome: Outcome) { outcome in {Applied, Duplicate, Deferred} }

  /** Rows `findFirst` may pick as the earlier receipt of this trip stop. */
  predicate Candidate(s: State, ev: DeliveryEvent, e: Id) {
    e in s.inbox && e != ev.id && SameKey(s.inbox[e].event.result, ev.result) && Live(s.inbox[e].outcome)
  }

  /** `pick` is the row the database happens to return first, if there is any. */
  predicate CanPick(s: State, ev: DeliveryEvent, pick: Option<Id>) {
    match pick
    case Some(e) => Candidate(s, ev, e)
    case None => forall e | e in s.inbox :: !Candidate(s, ev, e)
  }

  function Save(s: State, ev: DeliveryEvent, outcome: Outcome): State {
    s.(inbox := s.inbox[ev.id := InboxRow(ev, outcome)])
  }

  function Landed(result: Result): Status { if result.delivered then Delivered else Failed }

  /** The write does not look at the row again: it records a change from DISPATCHED, as it was read. */
  function Land(sh: Shipment, result: Result): Shipment {
    Record(sh.(status := Dispatched), Landed(result), TransitionTo(Landed(result)).value.1)
  }

  /** The part of `persistOrApply` reached when no earlier receipt settles the event. Where it finds the
      shipment dispatched the result is only on its way: the row was read without a lock, and other
      changes of the shipment may commit before it is written. */
  function Settle(s: State, ev: DeliveryEvent): State {
    var x := ev.result.shipment;
    if x !in s.shipments then Save(s, ev, Deferred)
    else
      var sh := s.shipments[x];
      if sh.trip != Some(ev.result.trip) then Save(s, ev, Conflict)
      else if sh.status != Dispatched then Save(s, ev, if Terminal(sh.status) then Conflict else Deferred)
      else
        s.(landing := s.landing[ev.id := ev])
  }

  /** The write of a result that was found applicable. */
  function LandResult(s: State, e: Id): State
    requires e in s.landing
  {
    var ev := s.landing[e];
    var x := ev.result.shipment;
    var m := s.(landing := s.landing - {e});
    Save(if x in s.shipments then Put(m, x, Land(s.shipments[x], ev.result)) else m, ev, Applied)
  }

  /** The advisory lock of the trip stop: no result of it is on its way. */
  predicate StopFree(s: State, ev: DeliveryEvent) {
    ev.id !in s.landing && forall e | e in s.landing :: !SameKey(s.landing[e].result, ev.result)
  }

  /** No other result of the shipment was recorded since this one was found applicable. */
  predicate StillDispatched(s: State, e: Id) {
    e in s.landing && s.landing[e].result.shipment in s.shipments
    && s.shipments[s.landing[e].result.shipment].status == Dispatched
  }

  function DeliverReply(s: State, ev: DeliveryEvent): Reply<bool> {
    if ev.id in s.inbox && s.inbox[ev.id].event != ev then Refused(PayloadConflict) else Ok(true)
  }

  function Deliver(s: State, ev: DeliveryEvent, pick: Option<Id>): State
    requires CanPick(s, ev, pick)
  {
    if DeliverReply(s, ev).Refused? then s
    else if ev.id in s.inbox && s.inbox[ev.id].outcome != Deferred then s
    else if pick.None? then Settle(s, ev)
    else
      var other := s.inbox[pick.value];
      if other.event.result != ev.result then
        var s' := if other.outcome == Deferred then s.(inbox := s.inbox[pick.value := other.(outcome := Conflict)])
        else s;
        Save(s', ev, Conflict)
      else if other.outcome == Deferred then Settle(s, ev)
      else Save(s, ev, Duplicate)
  }

  // ----- Steps -----

  datatype Step =
    | DoClaim(claimReq: ClaimRequest, newId: Id)
    | DoRelease(releaseReq: ReleaseRequest)
    | DoOrderRead(order: OrderEvent)
    | DoOrderTx(event: Id, newId: Id)
    | DoCommand(x: Id, version: nat, command: Command)
    | DoIntend(x: Id, id: Id, version: nat)
    | DoAsk(x: Id, verdict: bool)
    | DoReject(x: Id, id: Id)
    | DoComplete(x: Id, id: Id)
    | DoPrepare(batchReq: BatchRequest)
    | DoDecide(batch: Id, verdict: bool)
    | DoCommit(batch: Id)
    | DoDeliver(delivery: DeliveryEvent, pick: Option<Id>)
    | DoLand(event: Id)
    | DoAbandon(event: Id)

  predicate FreshClaim(s: State, claim: Id) { forall r | r in s.ledger :: ClaimOf(r) != claim }

  /** Intent ids are generated for each dispatch, so no stored intent has one already. */
  predicate FreshIntent(s: State, id: Id) {
    forall x | x in s.shipments :: s.shipments[x].intent.Some? ==> s.shipments[x].intent.value.id != id
  }

  predicate DistinctItems(items: seq<Item>) {
    forall i, j | 0 <= i < j < |items| ::
        items[i].shipment != items[j].shipment && items[i].dispatch != items[j].dispatch
  }

  predicate Enabled(s: State, step: Step) {
    match step
    case DoClaim(_, newId) => FreshClaim(s, newId)
    case DoRelease(_) => true
    case DoOrderRead(ev) => ev.id !in s.handling
    case DoOrderTx(e, newId) => e in s.handling && newId !in s.shipments
    case DoCommand(_, _, _) => true
    case DoIntend(x, id, _) =>
      FreshIntent(s, id) || (x in s.shipments && s.shipments[x].intent.Some? && s.shipments[x].intent.value.id == id)
    case DoAsk(x, _) => CanAsk(s, x)
    case DoReject(x, id) => Answered(s, x, id, false)
    case DoComplete(x, id) => Answered(s, x, id, true)
    case DoPrepare(q) =>
      DistinctItems(q.items)
      && (forall i | 0 <= i < |q.items| :: FreshIntent(s, q.items[i].dispatch) || q.id in s.batches)
    case DoDecide(b, granted) => CanDecide(s, b, granted)
    case DoCommit(b) => CanCommit(s, b)
    case DoDeliver(ev, pick) => CanPick(s, ev, pick) && StopFree(s, ev)
    case DoLand(e) => StillDispatched(s, e)
    case DoAbandon(e) => e in s.landing
  }

  function Apply(s: State, step: Step): State
    requires Enabled(s, step)
  {
    match step
    case DoClaim(q, newId) => Claim(s, q, newId)
    case DoRelease(q) => Release(s, q)
    case DoOrderRead(ev) => OrderRead(s, ev)
    case DoOrderTx(e, newId) =>
      OrderTx(s, s.handling[e].0, s.handling[e].1, newId).(handling := s.handling - {e})
    case DoCommand(x, version, c) => Transition(s, x, version, c)
    case DoIntend(x, id, version) => Intend(s, x, id, version)
    case DoAsk(x, verdict) => Ask(s, x, verdict)
    case DoReject(x, id) => RejectIntent(s, x, id)
    case DoComplete(x, id) => CompleteIntent(s, x, id)
    case DoPrepare(q) => Prepare(s, q)
    case DoDecide(b, granted) => Decide(s, b, granted)
    case DoCommit(b) => Commit(s, b)
    case DoDeliver(ev, pick) => Deliver(s, ev, pick)
    case DoLand(e) => LandResult(s, e)
    case DoAbandon(e) => s.(landing := s.landing - {e})
  }

  ghost predicate Runs(s: State, steps: seq<Step>, s': State)
    decreases |steps|
  {
    if steps == [] then s == s' else Enabled(s, steps[0]) && Runs(Apply(s, steps[0]), steps[1..], s')
  }
}
