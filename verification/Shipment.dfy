/** One shipment row: its lifecycle table, its status history, and what each kind of change may do
    to it. Every history row is written together with an outbox row of the same version. */
module Shipments {

  type Id = nat

  datatype Option<+T> = None | Some(value: T)

  datatype Status = PendingPick | Picking | Ready | Dispatched | Delivered | Failed | Canceled

  datatype Event = Created | StartedPicking | MadeReady | WasDispatched | WasDelivered | DeliveryFailed
                 | WasCanceled | CancelRejected

  datatype IntentStatus = IntentPending | IntentCompleted | IntentRejected

  /** The single dispatch intent of a shipment. `batch` names the trip batch that created it; a
      stand-alone intent keeps the Order authority's fixed answer in `verdict` once it was asked. */
  datatype Intent = Intent(id: Id, batch: Option<Id>, status: IntentStatus, granted: bool, verdict: Option<bool>)

  datatype Entry = Entry(from: Option<Status>, to: Status, version: nat, event: Event)

  datatype Shipment = Shipment(
    order: Id, reservation: Id, weight: nat, volume: nat, snapshotOk: bool,
    status: Status, version: nat,
    trip: Option<Id>, claim: Option<Id>,
    intent: Option<Intent>, issued: bool,
    history: seq<Entry>)

  // ----- The lifecycle table -----

  /** Where a target status may be entered from, and the event that announces it. */
  function TransitionTo(to: Status): Option<(Status, Event)> {
    match to
    case Picking => Some((PendingPick, StartedPicking))
    case Ready => Some((Picking, MadeReady))
    case Dispatched => Some((Ready, WasDispatched))
    case Delivered => Some((Dispatched, WasDelivered))
    case Failed => Some((Dispatched, DeliveryFailed))
    case _ => None
  }

  predicate MayTransition(from: Status, to: Status) {
    TransitionTo(to).Some? && TransitionTo(to).value.0 == from
  }

  predicate Terminal(status: Status) { status in {Delivered, Failed, Canceled} }

  predicate DispatchedEver(status: Status) { status in {Dispatched, Delivered, Failed} }

  /** One edge of the lifecycle graph, as a history row may record it. */
  predicate Edge(from: Status, to: Status, event: Event) {
    || (MayTransition(from, to) && event == TransitionTo(to).value.1)
    || (to == Canceled && from in {PendingPick, Picking, Ready} && event == WasCanceled)
    || (to == from && DispatchedEver(from) && event == CancelRejected)
  }

  /** The lifecycle, edge by edge. */
  lemma Lifecycle(from: Status, to: Status, event: Event)
    ensures Edge(from, to, event) <==> (from, to, event) in {
              (PendingPick, Picking, StartedPicking), (Picking, Ready, MadeReady), (Ready, Dispatched, WasDispatched),
              (Dispatched, Delivered, WasDelivered), (Dispatched, Failed, DeliveryFailed),
              (PendingPick, Canceled, WasCanceled), (Picking, Canceled, WasCanceled), (Ready, Canceled, WasCanceled),
              (Dispatched, Dispatched, CancelRejected), (Delivered, Delivered, CancelRejected),
              (Failed, Failed, CancelRejected)}
  {
  }

  // ----- Changes -----

  /** Bumps the version, enters `to` and records the change (history row and outbox row). */
  function Record(sh: Shipment, to: Status, event: Event): Shipment {
    sh.(status := to, version := sh.version + 1,
        history := sh.history + [Entry(Some(sh.status), to, sh.version + 1, event)])
  }

  function NewShipment(order: Id, reservation: Id, weight: nat, volume: nat, snapshotOk: bool): Shipment {
    Shipment(order, reservation, weight, volume, snapshotOk, PendingPick, 1, None, None, None, false,
             [Entry(None, PendingPick, 1, Created)])
  }

  predicate Busy(intent: Option<Intent>) { intent.Some? && !intent.value.status.IntentRejected? }

  predicate Pending(intent: Option<Intent>) { intent.Some? && intent.value.status.IntentPending? }

  /** A trip batch holds this shipment. */
  predicate HeldByBatch(sh: Shipment) { Pending(sh.intent) && sh.intent.value.batch.Some? }

  // ----- What holds of every shipment -----

  ghost predicate HistoryOk(sh: Shipment) {
    && sh.history != [] && sh.history[0].from == None && sh.history[0].to == PendingPick
    && sh.history[0].event == Created
    && sh.history[|sh.history| - 1].to == sh.status
    && sh.history[|sh.history| - 1].version <= sh.version
    && (forall i | 0 < i < |sh.history| ::
          && sh.history[i].from == Some(sh.history[i - 1].to)
          && sh.history[i - 1].version < sh.history[i].version
          && Edge(sh.history[i - 1].to, sh.history[i].to, sh.history[i].event))
  }

  ghost predicate RowOk(sh: Shipment) {
    && (sh.trip.Some? <==> sh.claim.Some?)
    && (sh.issued <==> DispatchedEver(sh.status))
    && (sh.issued ==> sh.intent.Some? && sh.intent.value.status.IntentCompleted?)
    && (Pending(sh.intent) ==> sh.status == Ready)
    && (sh.intent.Some? && sh.intent.value.status.IntentCompleted? ==> sh.issued)
    && (Pending(sh.intent) && sh.intent.value.batch.Some? ==> sh.trip.Some?)
    && (Pending(sh.intent) && sh.intent.value.batch.None? ==> sh.trip.None?)
    && (sh.intent.Some? && sh.intent.value.batch.None? && sh.intent.value.verdict == Some(true) ==>
          !sh.intent.value.status.IntentRejected? || sh.status == Canceled)
    && (sh.claim.Some? ==> sh.status !in {PendingPick, Picking})
    && (sh.issued && sh.intent.Some? && sh.intent.value.batch.None? ==> sh.trip.None?)
    && (sh.status == Canceled && sh.claim.Some? ==>
          sh.history != [] && sh.history[|sh.history| - 1].version == sh.version)
  }

  ghost predicate ShipmentOk(sh: Shipment) { RowOk(sh) && HistoryOk(sh) }

  /** What any change of one shipment respects, other than the steps of the batch that holds it. */
  ghost predicate Evolves(sh: Shipment, sh': Shipment) {
    && sh'.order == sh.order && sh'.reservation == sh.reservation
    && sh'.weight == sh.weight && sh'.volume == sh.volume
    && sh.version <= sh'.version && sh.history <= sh'.history
    && (HeldByBatch(sh) ==> sh' == sh)
    && (Terminal(sh.status) ==> sh'.status == sh.status)
    && (sh.issued ==> sh'.issued && sh'.intent == sh.intent && sh'.trip == sh.trip && sh'.claim == sh.claim)
    && (sh.status == Canceled ==> sh'.intent == sh.intent)
    && (sh.status == Canceled ==>
          (sh'.claim == sh.claim && sh'.trip == sh.trip && sh'.version == sh.version) || sh'.claim == None)
    && (sh'.intent == sh.intent || (sh'.intent.Some? && sh'.intent.value.batch == None)
        || (sh.intent.Some? && sh'.intent == Some(sh.intent.value.(status := IntentRejected))))
  }

  /** What any change of one shipment respects, batch steps included. */
  ghost predicate Advances(sh: Shipment, sh': Shipment) {
    && sh'.order == sh.order && sh'.reservation == sh.reservation
    && sh'.weight == sh.weight && sh'.volume == sh.volume
    && sh.version <= sh'.version && sh.history <= sh'.history
    && (Terminal(sh.status) ==> sh'.status == sh.status)
    && (sh.issued ==> sh'.issued && sh'.intent == sh.intent && sh'.trip == sh.trip && sh'.claim == sh.claim)
    && (sh.status == Canceled ==> sh'.intent == sh.intent)
    && (sh.status == Canceled ==>
          (sh'.claim == sh.claim && sh'.trip == sh.trip && sh'.version == sh.version) || sh'.claim == None)
  }

  lemma RecordKeepsHistory(sh: Shipment, to: Status, event: Event)
    requires HistoryOk(sh) && Edge(sh.status, to, event)
    ensures HistoryOk(Record(sh, to, event))
    ensures sh.history <= Record(sh, to, event).history
  {
    var h, h' := sh.history, Record(sh, to, event).history;
    forall i | 0 < i < |h'|
      ensures h'[i].from == Some(h'[i - 1].to) && h'[i - 1].version < h'[i].version
      ensures Edge(h'[i - 1].to, h'[i].to, h'[i].event)
    {
      assert h'[i - 1] == h[i - 1];
      if i < |h| { assert h'[i] == h[i]; }
    }
  }

  /** Versions of a shipment's history (and so of its outbox events) strictly increase. */
  lemma {:induction false} VersionsIncrease(sh: Shipment, i: nat, j: nat)
    requires HistoryOk(sh) && i < j < |sh.history|
    ensures sh.history[i].version < sh.history[j].version
  {
    if i + 1 < j { VersionsIncrease(sh, i, j - 1); }
  }

  /** Once an absorbing status has been entered, every later history row keeps it. */
  lemma {:induction false} AbsorbingStatuses(sh: Shipment, i: nat)
    requires HistoryOk(sh) && i < |sh.history| && Terminal(sh.history[i].to)
    ensures sh.status == sh.history[i].to
    decreases |sh.history| - i
  {
    if i + 1 < |sh.history| { AbsorbingStatuses(sh, i + 1); }
  }
}
