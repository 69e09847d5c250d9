/** Every step of the two services keeps what ties them together. */
module WorldSteps {
  import opened Shipments
  import F = Fulfillment
  import FI = FulfillmentInvariant
  import L = ClaimLedger
  import T = Trips
  import TI = TripInvariant
  import TS = TripSteps
  import opened World
  import opened WorldInvariant

  // ----- Request ids of a changed trip -----

  lemma KnownApart(requests: map<Id, Slot>, t: T.Trip)
    requires Known(requests, t)
    ensures Apart(t.members)
  {
    forall i, j | 0 <= i < |t.members| && 0 <= j < |t.members| ensures RowsApart(t.members, i, j) {
      assert RowKnown(requests, t.id, i, t.members[i]) && RowKnown(requests, t.id, j, t.members[j]);
    }
  }

  /** The row keeps its requests, or is given a release with a new id. */
  ghost predicate RowGrows(requests: map<Id, Slot>, m: T.Member, m': T.Member) {
    && m'.claimReq == m.claimReq
    && (|| m'.releaseReq == m.releaseReq
        || (m.releaseReq.None? && m'.releaseReq.Some? && m'.releaseReq.value.id !in requests))
  }

  /** What a trip transaction may do to the request ids of its rows. */
  ghost predicate Extends(requests: map<Id, Slot>, ms: seq<T.Member>, ms': seq<T.Member>) {
    && |ms| <= |ms'| && Apart(ms')
    && (forall i | 0 <= i < |ms| :: RowGrows(requests, ms[i], ms'[i]))
    && (forall i | |ms| <= i < |ms'| :: ms'[i].claimReq.id !in requests && ms'[i].releaseReq.None?)
  }

  /** Ids on record keep their slots. */
  lemma RegisteredExtends(requests: map<Id, Slot>, t: T.Trip, ms': seq<T.Member>, id: Id)
    requires Known(requests, t) && Extends(requests, t.members, ms') && id in requests
    ensures id in Registered(requests, t.id, ms') && Registered(requests, t.id, ms')[id] == requests[id]
  {
    hide Apart;
    if HasId(ms', id) {
      var i :| 0 <= i < |ms'|
      && (ms'[i].claimReq.id == id || (ms'[i].releaseReq.Some? && ms'[i].releaseReq.value.id == id));
      RegisteredRow(requests, t.id, ms', i);
      assert i < |t.members| && RowKnown(requests, t.id, i, t.members[i]);
    } else {
      RegisteredElse(requests, t.id, ms', id);
    }
  }

  lemma KnownKept(requests: map<Id, Slot>, requests': map<Id, Slot>, t: T.Trip)
    requires Known(requests, t) && forall id | id in requests :: id in requests' && requests'[id] == requests[id]
    ensures Known(requests', t)
  {
    forall i | 0 <= i < |t.members| ensures RowKnown(requests', t.id, i, t.members[i]) {
      assert RowKnown(requests, t.id, i, t.members[i]);
    }
  }

  lemma OwnedKept(trips: map<Id, T.Trip>, requests: map<Id, Slot>, requests': map<Id, Slot>, t': T.Trip,
      ledger: seq<F.Receipt>)
    requires LedgerOwned(trips, requests, ledger) && t'.id in trips && |trips[t'.id].members| <= |t'.members|
    requires forall id | id in requests :: id in requests' && requests'[id] == requests[id]
    requires forall i | 0 <= i < |trips[t'.id].members| :: t'.members[i].claimReq == trips[t'.id].members[i].claimReq
    ensures LedgerOwned(trips[t'.id := t'], requests', ledger)
  {
    forall r | r in ledger ensures Owned(trips[t'.id := t'], requests', r) {
      assert Owned(trips, requests, r);
    }
  }

  lemma NewlyKnown(requests: map<Id, Slot>, t': T.Trip)
    requires Apart(t'.members)
    ensures Known(Registered(requests, t'.id, t'.members), t')
  {
    hide Apart, RowKnown;
    forall i | 0 <= i < |t'.members|
      ensures RowKnown(Registered(requests, t'.id, t'.members), t'.id, i, t'.members[i])
    {
      RegisteredRow(requests, t'.id, t'.members, i);
    }
  }

  // ----- A changed trip -----

  /** What a step must show about the trip it changed. */
  ghost predicate Changed(w: World, t': T.Trip, w': World) {
    && w' == w.(trips := w.trips[t'.id := t'], requests := Registered(w.requests, t'.id, t'.members), mem := w'.mem,
                batchIds := w'.batchIds, intentIds := w'.intentIds, flights := w'.flights, seen := w'.seen,
                leaked := w'.leaked)
    && t'.id in w.trips && TI.Inv(t') && Extends(w.requests, w.trips[t'.id].members, t'.members)
    && Agrees(w.f.ledger, w'.leaked, t') && GoneAll(w.f, t') && DatedAll(w.f, t'.members)
    && TripBatches(w.f.batches, w'.batchIds, t')
    && (forall k | k in w'.mem :: k in w.mem && w'.mem[k] == w.mem[k])
    && (t'.id in w'.mem ==> MemoOk(w.f.ledger, t', w'.mem[t'.id].0, w'.mem[t'.id].1))
    && IdsGrow(w, t', w'.batchIds) && LeaksHere(w, t'.id, w'.leaked) && ResumesOk(w')
  }

  /** New batch ids are those of new dispatch rows. */
  ghost predicate IdsGrow(w: World, t': T.Trip, batchIds': map<Id, (Id, nat)>)
    requires t'.id in w.trips
  {
    var t := w.trips[t'.id];
    && |t.dispatches| <= |t'.dispatches|
    && (forall d | 0 <= d < |t.dispatches| :: t'.dispatches[d].request == t.dispatches[d].request)
    && (forall b | b in w.batchIds :: b in batchIds' && batchIds'[b] == w.batchIds[b])
    && (forall b | b in batchIds' && b !in w.batchIds ::
          batchIds'[b].0 == t'.id && batchIds'[b].1 < |t'.dispatches| && t'.dispatches[batchIds'[b].1].request.id == b)
  }

  /** What a step drops belongs to the trip it changed. */
  ghost predicate LeaksHere(w: World, k: Id, leaked': set<Id>) {
    w.leaked <= leaked' && forall id | id in leaked' && id !in w.leaked :: id in w.requests && w.requests[id].trip == k
  }

  lemma ElsewhereKept(w: World, t: T.Trip, k: Id, leaked': set<Id>)
    requires Agrees(w.f.ledger, w.leaked, t) && Known(w.requests, t) && t.id != k && LeaksHere(w, k, leaked')
    ensures Agrees(w.f.ledger, leaked', t)
  {
    hide RowAgrees, Lost;
    forall i | 0 <= i < |t.members| ensures RowTold(w.f.ledger, leaked', t, i) {
      assert RowTold(w.f.ledger, w.leaked, t, i) && RowKnown(w.requests, t.id, i, t.members[i]);
    }
  }

  lemma BatchesStay(batches: map<Id, F.Batch>, batchIds: map<Id, (Id, nat)>, batchIds': map<Id, (Id, nat)>, t: T.Trip)
    requires TripBatches(batches, batchIds, t)
    requires forall b | b in batchIds :: b in batchIds' && batchIds'[b] == batchIds[b]
    ensures TripBatches(batches, batchIds', t)
  {
    hide StageOk;
  }

  lemma ChangedTrips(w: World, t': T.Trip, w': World)
    requires TripsOk(w) && Changed(w, t', w')
    requires forall id | id in w.requests :: id in w'.requests && w'.requests[id] == w.requests[id]
    ensures TripsOk(w')
  {
    hide TI.Inv, Known, Agrees, GoneAll, DatedAll, TripBatches, Extends, MemoOk, Registered, LeaksHere;
    forall k | k in w'.trips ensures w'.trips[k].id == k && TripOk(w', w'.trips[k]) {
      if k == t'.id {
        ExtendsApart(w.requests, w.trips[k].members, t'.members);
        NewlyKnown(w.requests, t');
      } else {
        assert w.trips[k].id == k && TripOk(w, w.trips[k]);
        KnownKept(w.requests, w'.requests, w.trips[k]);
        BatchesStay(w.f.batches, w.batchIds, w'.batchIds, w.trips[k]);
        ElsewhereKept(w, w.trips[k], t'.id, w'.leaked);
      }
    }
  }

  lemma ExtendsApart(requests: map<Id, Slot>, ms: seq<T.Member>, ms': seq<T.Member>)
    requires Extends(requests, ms, ms')
    ensures Apart(ms') && |ms| <= |ms'| && forall i | 0 <= i < |ms| :: ms'[i].claimReq == ms[i].claimReq
  {
  }

  lemma ChangedKeeps(w: World, t': T.Trip, w': World)
    requires Inv(w) && Changed(w, t', w')
    ensures Inv(w')
  {
    hide FI.Inv, ResumesOk, TI.Inv, Known, Agrees, GoneAll, DatedAll, TripBatches, Extends, MemoOk, Registered,
      LedgerOwned, IdsGrow;
    hide IdsOwned, BatchesKnown;
    var t := w.trips[t'.id];
    assert t.id == t'.id && TripOk(w, t);
    forall id | id in w.requests ensures id in w'.requests && w'.requests[id] == w.requests[id] {
      RegisteredExtends(w.requests, t, t'.members, id);
    }
    ChangedTrips(w, t', w');
    ExtendsApart(w.requests, t.members, t'.members);
    OwnedKept(w.trips, w.requests, w'.requests, t', w.f.ledger);
    IdsKept(w, t', w'.batchIds);
  }

  lemma IdsKept(w: World, t': T.Trip, batchIds': map<Id, (Id, nat)>)
    requires IdsOwned(w.trips, w.batchIds) && BatchesKnown(w.f.batches, w.batchIds) && t'.id in w.trips
    requires IdsGrow(w, t', batchIds')
    ensures IdsOwned(w.trips[t'.id := t'], batchIds') && BatchesKnown(w.f.batches, batchIds')
  {
  }

  // ----- Resumes -----

  /** How a dispatch row may move while resumes hold it. */
  ghost predicate RowMoves(batches: map<Id, F.Batch>, a: T.Dispatch, b: T.Dispatch) {
    && b.request == a.request && (b.stage == T.Accepted ==> a.stage == T.Accepted)
    && (b.stage == T.DispatchRejected ==> a.stage == T.DispatchRejected || a.request.id in batches)
  }

  ghost predicate RowsMove(batches: map<Id, F.Batch>, t: T.Trip, t': T.Trip) {
    && |t'.dispatches| == |t.dispatches|
    && forall d | 0 <= d < |t.dispatches| :: RowMoves(batches, t.dispatches[d], t'.dispatches[d])
  }

  lemma ResumesMove(w: World, t': T.Trip, w': World)
    requires ResumesOk(w) && t'.id in w.trips && RowsMove(w.f.batches, w.trips[t'.id], t')
    requires w'.trips == w.trips[t'.id := t'] && w'.f == w.f && w'.flights == w.flights && w'.intentIds == w.intentIds
    ensures ResumesOk(w')
  {
    forall r | r in w'.flights ensures FlightOk(w'.trips[w'.flights[r].trip], w'.f.batches, w'.flights[r]) {
      assert FlightOk(w.trips[w.flights[r].trip], w.f.batches, w.flights[r]);
    }
    forall k, d | k in w'.trips && 0 <= d < |w'.trips[k].dispatches|
      ensures PayloadOwned(w'.intentIds, w'.trips[k].dispatches[d].request)
    {
      assert PayloadOwned(w.intentIds, w.trips[k].dispatches[d].request);
    }
  }

  lemma ResumesSame(w: World, t': T.Trip, w': World)
    requires ResumesOk(w) && t'.id in w.trips && t'.dispatches == w.trips[t'.id].dispatches
    requires w'.trips == w.trips[t'.id := t'] && w'.f == w.f && w'.flights == w.flights && w'.intentIds == w.intentIds
    ensures ResumesOk(w')
  {
    hide ResumesOk;
    ResumesMove(w, t', w');
  }

  lemma StageResumes(w: World, t': T.Trip, d: nat, row: T.Dispatch, w': World)
    requires ResumesOk(w) && t'.id in w.trips && d < |w.trips[t'.id].dispatches|
    requires t'.dispatches == w.trips[t'.id].dispatches[d := row]
    requires RowMoves(w.f.batches, w.trips[t'.id].dispatches[d], row)
    requires w'.trips == w.trips[t'.id := t'] && w'.f == w.f && w'.flights == w.flights && w'.intentIds == w.intentIds
    ensures ResumesOk(w')
  {
    hide ResumesOk;
    ResumesMove(w, t', w');
  }

  /** Ids on record keep their batches, and the payload's are new. */
  lemma ReservedIds(w: World, q: F.BatchRequest)
    requires NewIntents(w, q)
    ensures PayloadOwned(Reserved(w.intentIds, q), q)
    ensures forall id | id in w.intentIds ::
             id in Reserved(w.intentIds, q) && Reserved(w.intentIds, q)[id] == w.intentIds[id]
    ensures forall id | id in Reserved(w.intentIds, q) && id !in w.intentIds :: F.FreshIntent(w.f, id)
  {
    hide F.FreshIntent;
    var ids := Reserved(w.intentIds, q);
    forall i | 0 <= i < |q.items| ensures q.items[i].dispatch in ids && ids[q.items[i].dispatch] == q.id {
      assert q.items[i].dispatch in Intents(q.items);
    }
  }

  lemma AcceptResumes(w: World, q: F.BatchRequest, t': T.Trip, w': World)
    requires ResumesOk(w) && t'.id in w.trips && NewIntents(w, q)
    requires t'.dispatches == w.trips[t'.id].dispatches + [T.Dispatch(q, T.Accepted, None)]
    requires w'.trips == w.trips[t'.id := t'] && w'.f == w.f && w'.flights == w.flights
    requires w'.intentIds == Reserved(w.intentIds, q)
    ensures ResumesOk(w')
  {
    hide NewIntents, Reserved;
    ReservedIds(w, q);
    forall r | r in w'.flights ensures FlightOk(w'.trips[w'.flights[r].trip], w'.f.batches, w'.flights[r]) {
      assert FlightOk(w.trips[w.flights[r].trip], w.f.batches, w.flights[r]);
    }
    forall k, d | k in w'.trips && 0 <= d < |w'.trips[k].dispatches|
      ensures PayloadOwned(w'.intentIds, w'.trips[k].dispatches[d].request)
    {
      if k != t'.id || d < |w.trips[k].dispatches| {
        assert PayloadOwned(w.intentIds, w.trips[k].dispatches[d].request);
      }
    }
  }

  // ----- Steps that leave the rows alone -----

  lemma SameRowsExtend(requests: map<Id, Slot>, t: T.Trip, ms': seq<T.Member>)
    requires Known(requests, t) && |ms'| == |t.members|
    requires forall i | 0 <= i < |ms'| ::
             ms'[i].claimReq == t.members[i].claimReq && ms'[i].releaseReq == t.members[i].releaseReq
    ensures Extends(requests, t.members, ms')
  {
    KnownApart(requests, t);
    forall i, j | 0 <= i < |ms'| && 0 <= j < |ms'| ensures RowsApart(ms', i, j) {
      assert RowsApart(t.members, i, j);
    }
  }

  lemma SameRowsAgree(ledger: seq<F.Receipt>, leaked: set<Id>, t: T.Trip, t': T.Trip)
    requires Agrees(ledger, leaked, t) && t'.members == t.members
    requires t'.lock == t.lock || forall i | 0 <= i < |t'.members| :: t'.members[i].state != T.ClaimPending
    ensures Agrees(ledger, leaked, t')
  {
    hide GrantedAs, Unsent, InDoubt, L.ReleasedIn;
    forall i | 0 <= i < |t'.members| ensures RowTold(ledger, leaked, t', i) {
      assert RowTold(ledger, leaked, t, i);
    }
  }

  ghost predicate KindsKept(ops: seq<T.Op>, ops': seq<T.Op>) {
    |ops| <= |ops'| && forall i | 0 <= i < |ops| :: ops'[i].kind == ops[i].kind
  }

  lemma SameRowsGone(f: F.State, t: T.Trip, t': T.Trip)
    requires GoneAll(f, t) && TI.MembersOk(t.id, t.lock, t.ops, t.status, t.stops, t.members)
    requires t'.members == t.members && KindsKept(t.ops, t'.ops)
    ensures GoneAll(f, t')
  {
    hide Unsent;
    forall i | 0 <= i < |t'.members| ensures GoneOk(f, t', t'.members[i]) {
      assert GoneOk(f, t, t.members[i]) && TI.MemberOk(t.id, t.lock, t.ops, t.status, t.stops, t.members[i]);
    }
  }

  /** Without a lock no row waits for a claim or a release. */
  lemma UnlockedRows(t: T.Trip)
    requires TI.Inv(t) && t.lock.None?
    ensures forall i | 0 <= i < |t.members| :: t.members[i].state in {T.Active, T.Released}
  {
    hide TI.OpsOk, TI.Unique, TI.StopsOk, TI.PlacesOk, TI.TotalsOk, TI.RouteOk, TI.CapacityOk, TI.ReadsOk,
      TI.DispatchesOk, TI.DriveOk;
    forall i | 0 <= i < |t.members| ensures t.members[i].state in {T.Active, T.Released} {
      assert TI.MemberOk(t.id, t.lock, t.ops, t.status, t.stops, t.members[i]);
    }
  }

  /** Trip transactions that touch neither rows nor, while a processor remembers something, the lock. */
  predicate Quiet(step: T.TripStep) {
    match step
    case DoUpdate(_, _) => true
    case DoFinalize => true
    case DoPreview(_) => true
    case DoRead(_, _, _) => true
    case DoApprove(_, _) => true
    case DoReopen(_) => true
    case DoSelect(_) => true
    case DoAccept(_) => true
    case DoSubmit(_) => true
    case DoRejectEarly(_) => true
    case DoReceipt(_, _) => true
    case DoCommitTrip(_) => true
    case DoDrive(_, _, _, _, _) => true
    case _ => false
  }

  lemma QuietShape(t: T.Trip, step: T.TripStep, t': T.Trip)
    requires Quiet(step) && T.Guard(t, step) && t' == T.Do(t, step)
    ensures t'.id == t.id && t'.members == t.members && KindsKept(t.ops, t'.ops)
    ensures step.DoAccept? ==> t'.dispatches == t.dispatches + [T.Dispatch(step.batch, T.Accepted, None)]
    ensures !step.DoAccept? ==> |t'.dispatches| == |t.dispatches|
    ensures !step.DoAccept? ==>
             forall d | 0 <= d < |t.dispatches| :: t'.dispatches[d].request == t.dispatches[d].request
    ensures (t'.lock == t.lock && t'.ops == t.ops) || (step.DoFinalize? && t'.lock.None?)
  {
    hide T.IsFirst, T.NoneLeft, T.InputReady, T.CanSelect, T.Permutation, T.IsNext, T.Places, T.Results,
      T.ActiveWeight, T.ActiveVolume;
  }

  lemma MemoLocked(ledger: seq<F.Receipt>, t: T.Trip, i: nat, reply: F.Reply<F.Receipt>)
    requires MemoOk(ledger, t, i, reply)
    ensures t.lock.Some? && !T.CanFinalize(t)
  {
    hide Unsent, L.ReleasedIn;
    if reply.Ok? && reply.value.Freed? {
      assert T.IsFirst(t, i, T.ReleasePending);
    } else {
      assert T.IsFirst(t, i, T.ClaimPending);
    }
  }

  lemma QuietMemo(ledger: seq<F.Receipt>, t: T.Trip, t': T.Trip, i: nat, reply: F.Reply<F.Receipt>)
    requires MemoOk(ledger, t, i, reply) && t'.members == t.members && t'.lock == t.lock && t'.ops == t.ops
    ensures MemoOk(ledger, t', i, reply)
  {
    hide Unsent, L.ReleasedIn;
  }

  /** The rows of a trip after a quiet step. */
  lemma QuietRows(w: World, t: T.Trip, step: T.TripStep, t': T.Trip)
    requires TripOk(w, t) && Quiet(step) && T.Guard(t, step) && t' == T.Do(t, step)
    ensures TI.Inv(t') && Extends(w.requests, t.members, t'.members) && Agrees(w.f.ledger, w.leaked, t')
    ensures GoneAll(w.f, t')
    ensures DatedAll(w.f, t'.members)
  {
    hide TI.Inv, Known, Agrees, GoneAll, TripBatches, Extends, T.Guard, T.Do, Quiet, KindsKept;
    TS.StepKeeps(t, step);
    QuietShape(t, step, t');
    SameRowsExtend(w.requests, t, t'.members);
    if t'.lock != t.lock { UnlockedRows(t'); }
    SameRowsAgree(w.f.ledger, w.leaked, t, t');
    assert TI.MembersOk(t.id, t.lock, t.ops, t.status, t.stops, t.members) by { MembersOf(t); }
    SameRowsGone(w.f, t, t');
  }

  lemma MembersOf(t: T.Trip)
    requires TI.Inv(t)
    ensures TI.MembersOk(t.id, t.lock, t.ops, t.status, t.stops, t.members)
  {
    hide TI.OpsOk, TI.MembersOk, TI.Unique, TI.StopsOk, TI.PlacesOk, TI.TotalsOk, TI.RouteOk, TI.CapacityOk,
      TI.ReadsOk, TI.DispatchesOk, TI.DriveOk;
  }

  lemma QuietKeeps(w: World, k: Id, step: T.TripStep, t': T.Trip, batchIds': map<Id, (Id, nat)>, w': World)
    requires Inv(w) && k in w.trips && Quiet(step) && T.Guard(w.trips[k], step) && t' == T.Do(w.trips[k], step)
    requires TripBatches(w.f.batches, batchIds', t')
    requires batchIds'
             == if step.DoAccept? then w.batchIds[step.batch.id := (k, |w.trips[k].dispatches|)] else w.batchIds
    requires step.DoAccept? ==> step.batch.id !in w.batchIds
    requires w' == Put(w, t').(batchIds := batchIds', intentIds := w'.intentIds, flights := w'.flights)
    requires ResumesOk(w')
    ensures Inv(w')
  {
    hide FI.Inv, ResumesOk, TI.Inv, Known, Agrees, GoneAll, TripBatches, Extends, T.Guard, T.Do, Quiet, MemoOk,
      Registered, LedgerOwned, BatchesKnown;
    var t := w.trips[k];
    assert t.id == k && TripOk(w, t);
    QuietRows(w, t, step, t');
    QuietShape(t, step, t');
    if k in w.mem {
      assert MemoOk(w.f.ledger, t, w.mem[k].0, w.mem[k].1);
      MemoLocked(w.f.ledger, t, w.mem[k].0, w.mem[k].1);
      assert !step.DoFinalize? by { if step.DoFinalize? { FinalizeGuard(t); assert false; } }
      QuietMemo(w.f.ledger, t, t', w.mem[k].0, w.mem[k].1);
    }
    assert Changed(w, t', w');
    ChangedKeeps(w, t', w');
  }

  lemma FinalizeGuard(t: T.Trip)
    requires T.Guard(t, T.DoFinalize)
    ensures T.CanFinalize(t)
  {
  }

  // ----- Dispatch rows -----

  lemma SameDispatches(batches: map<Id, F.Batch>, batchIds: map<Id, (Id, nat)>, t: T.Trip, t': T.Trip)
    requires TripBatches(batches, batchIds, t) && t'.dispatches == t.dispatches && t'.id == t.id
    ensures TripBatches(batches, batchIds, t')
  {
    hide StageOk;
  }

  lemma AcceptedRow(w: World, t: T.Trip, q: F.BatchRequest, t': T.Trip, batchIds': map<Id, (Id, nat)>)
    requires TripBatches(w.f.batches, w.batchIds, t) && BatchesKnown(w.f.batches, w.batchIds) && q.id !in w.batchIds
    requires t'.id == t.id && t'.dispatches == t.dispatches + [T.Dispatch(q, T.Accepted, None)]
    requires batchIds' == w.batchIds[q.id := (t.id, |t.dispatches|)]
    ensures TripBatches(w.f.batches, batchIds', t')
  {
    forall d | 0 <= d < |t'.dispatches|
      ensures StageOk(w.f.batches, t'.dispatches[d]) && batchIds'[t'.dispatches[d].request.id] == (t'.id, d)
    {
      if d < |t.dispatches| { assert StageOk(w.f.batches, t.dispatches[d]); }
    }
  }

  lemma StageMoves(batches: map<Id, F.Batch>, batchIds: map<Id, (Id, nat)>, t: T.Trip, d: nat, row: T.Dispatch,
      t': T.Trip)
    requires TripBatches(batches, batchIds, t) && d < |t.dispatches| && row.request == t.dispatches[d].request
    requires StageOk(batches, row)
    requires t'.id == t.id && t'.dispatches == t.dispatches[d := row]
    ensures TripBatches(batches, batchIds, t')
  {
    hide StageOk;
  }

  /** What a stage may become, seen from the batch. */
  lemma NextStageOk(batches: map<Id, F.Batch>, d: T.Dispatch, stage: T.Stage)
    requires StageOk(batches, d)
    requires || (d.stage == T.Accepted && stage in {T.Submitted, T.DispatchRejected})
             || (d.stage == T.Receipted && stage == T.DispatchDone)
             || (&& d.stage in {T.Submitted, T.Receipted} && d.request.id in batches
                 && batches[d.request.id].status == F.BatchCompleted && stage == T.Receipted)
             || (&& d.stage == T.Submitted && d.request.id in batches
                 && batches[d.request.id].status == F.BatchRejected && stage == T.DispatchRejected)
    ensures StageOk(batches, d.(stage := stage)) && forall n :: StageOk(batches, d.(stage := stage, result := n))
  {
  }

  lemma LocalBatches(w: World, t: T.Trip, step: T.TripStep, t': T.Trip, batchIds': map<Id, (Id, nat)>)
    requires TripBatches(w.f.batches, w.batchIds, t) && BatchesKnown(w.f.batches, w.batchIds) && t.id in w.trips
    requires w.trips[t.id] == t
    requires CanLocal(w, t.id, step) && Quiet(step) && t' == T.Do(t, step) && batchIds' == Accepting(w, t.id, step)
    ensures TripBatches(w.f.batches, batchIds', t')
  {
    hide TripBatches, StageOk, T.IsFirst, T.NoneLeft, T.InputReady, T.CanSelect, T.Permutation, T.IsNext, T.Places,
      T.Results, T.ActiveWeight, T.ActiveVolume, Elsewhere, NewIds;
    match step
    case DoAccept(q) => AcceptedRow(w, t, q, t', batchIds');
    case DoCommitTrip(d) =>
      RowStage(w, t, d);
      NextStageOk(w.f.batches, t.dispatches[d], T.DispatchDone);
      StageMoves(w.f.batches, w.batchIds, t, d, t'.dispatches[d], t');
    case _ => SameDispatches(w.f.batches, w.batchIds, t, t');
  }

  lemma RowStage(w: World, t: T.Trip, d: nat)
    requires TripBatches(w.f.batches, w.batchIds, t) && d < |t.dispatches|
    ensures StageOk(w.f.batches, t.dispatches[d])
  {
    hide StageOk;
  }

  lemma LocalQuietKeeps(w: World, k: Id, step: T.TripStep)
    requires Inv(w) && k in w.trips && CanLocal(w, k, step) && Quiet(step)
    ensures Inv(Put(w, T.Do(w.trips[k], step)).(batchIds := Accepting(w, k, step), intentIds := Reserving(w, step)))
  {
    hide FI.Inv, ResumesOk, TI.Inv, Known, Agrees, GoneAll, TripBatches, T.Do, Quiet, MemoOk, LedgerOwned,
      BatchesKnown, Put, Accepting, MemoriesOk;
    var t := w.trips[k];
    assert t.id == k && TripOk(w, t);
    assert T.Guard(t, step);
    assert step.DoAccept? ==> step.batch.id !in w.batchIds;
    assert Accepting(w, k, step)
        == if step.DoAccept? then w.batchIds[step.batch.id := (k, |t.dispatches|)] else w.batchIds by {
      AcceptingIs(w, k, step);
    }
    hide T.Guard, CanLocal, Reserving;
    LocalBatches(w, t, step, T.Do(t, step), Accepting(w, k, step));
    var w' := Put(w, T.Do(t, step)).(batchIds := Accepting(w, k, step), intentIds := Reserving(w, step));
    QuietId(t, step);
    PutShape(w, T.Do(t, step));
    LocalResumes(w, t, step, T.Do(t, step), w');
    QuietKeeps(w, k, step, T.Do(t, step), Accepting(w, k, step), w');
  }

  lemma QuietId(t: T.Trip, step: T.TripStep)
    requires Quiet(step) && T.Guard(t, step)
    ensures T.Do(t, step).id == t.id
  {
    hide T.Do, T.Guard, Quiet;
    QuietShape(t, step, T.Do(t, step));
  }

  lemma PutShape(w: World, t': T.Trip)
    ensures Put(w, t').trips == w.trips[t'.id := t'] && Put(w, t').f == w.f && Put(w, t').flights == w.flights
    ensures Put(w, t').intentIds == w.intentIds && Put(w, t').batchIds == w.batchIds
  {
  }

  lemma LocalResumes(w: World, t: T.Trip, step: T.TripStep, t': T.Trip, w': World)
    requires ResumesOk(w) && t.id in w.trips && w.trips[t.id] == t && CanLocal(w, t.id, step) && Quiet(step)
    requires t' == T.Do(t, step) && t'.id == t.id
    requires w'.trips == w.trips[t.id := t'] && w'.f == w.f && w'.flights == w.flights
    requires w'.intentIds == Reserving(w, step)
    ensures ResumesOk(w')
  {
    hide ResumesOk, T.IsFirst, T.NoneLeft, T.InputReady, T.CanSelect, T.Permutation, T.IsNext, T.Places, T.Results,
      T.ActiveWeight, T.ActiveVolume, Elsewhere, NewIds, NewIntents, Reserved;
    match step
    case DoAccept(q) => AcceptResumes(w, q, t', w');
    case DoCommitTrip(d) => StageResumes(w, t', d, t'.dispatches[d], w');
    case _ => ResumesSame(w, t', w');
  }

  lemma AcceptingIs(w: World, k: Id, step: T.TripStep)
    requires k in w.trips
    ensures Accepting(w, k, step)
             == if step.DoAccept? then w.batchIds[step.batch.id := (k, |w.trips[k].dispatches|)] else w.batchIds
  {
  }

  lemma ReceiveKeeps(w: World, k: Id, d: nat, granted: bool)
    requires Inv(w) && k in w.trips && d < |w.trips[k].dispatches| && T.Guard(w.trips[k], T.DoReceipt(d, granted))
    requires var b := w.trips[k].dispatches[d].request.id;
             b in w.f.batches && w.f.batches[b].status == if granted then F.BatchCompleted else F.BatchRejected
    ensures Inv(Put(w, T.Do(w.trips[k], T.DoReceipt(d, granted))))
  {
    hide FI.Inv, ResumesOk, TI.Inv, Known, Agrees, GoneAll, TripBatches, MemoOk, LedgerOwned, BatchesKnown,
      MemoriesOk, StageOk, Registered;
    var t := w.trips[k];
    var step := T.DoReceipt(d, granted);
    var t' := T.Do(t, step);
    assert t.id == k && TripOk(w, t);
    RowStage(w, t, d);
    NextStageOk(w.f.batches, t.dispatches[d], if granted then T.Receipted else T.DispatchRejected);
    StageMoves(w.f.batches, w.batchIds, t, d, t'.dispatches[d], t');
    StageResumes(w, t', d, t'.dispatches[d], Put(w, t'));
    QuietKeeps(w, k, step, t', w.batchIds, Put(w, t').(batchIds := w.batchIds));
  }

  // ----- Resumes at work -----

  /** A row's stage moves and its resumes with it. */
  lemma StageKeeps(w: World, k: Id, d: nat, step: T.TripStep, stage: T.Stage, w': World)
    requires Inv(w) && k in w.trips && d < |w.trips[k].dispatches| && T.Guard(w.trips[k], step)
    requires || (step == T.DoSubmit(d) && stage == T.Submitted)
             || (step == T.DoRejectEarly(d) && stage == T.DispatchRejected)
    requires w' == Put(w, T.Do(w.trips[k], step)).(flights := w'.flights) && ResumesOk(w')
    ensures Inv(w')
  {
    hide FI.Inv, ResumesOk, TI.Inv, Known, Agrees, GoneAll, TripBatches, MemoOk, LedgerOwned, BatchesKnown, MemoriesOk,
      StageOk, Registered;
    var t := w.trips[k];
    var t' := T.Do(t, step);
    assert t.id == k && TripOk(w, t);
    RowStage(w, t, d);
    NextStageOk(w.f.batches, t.dispatches[d], stage);
    StageMoves(w.f.batches, w.batchIds, t, d, t'.dispatches[d], t');
    QuietKeeps(w, k, step, t', w.batchIds, w');
  }

  ghost predicate RowAhead(a: T.Dispatch, b: T.Dispatch) {
    b.request == a.request && b.stage != T.Accepted && (b.stage == T.DispatchRejected ==> a.stage == T.DispatchRejected)
  }

  /** The row is not, or no longer, ACCEPTED, and the resume is cleared. */
  lemma ClearedResumes(w: World, r: Id, t': T.Trip, w': World)
    requires ResumesOk(w) && InFlight(w, r) && t'.id == w.flights[r].trip
    requires |t'.dispatches| == |TripHeld(w, r).dispatches|
    requires forall e | 0 <= e < |t'.dispatches| && e != w.flights[r].d ::
             t'.dispatches[e] == TripHeld(w, r).dispatches[e]
    requires RowAhead(RowHeld(w, r), t'.dispatches[w.flights[r].d])
    requires w'.trips == w.trips[t'.id := t'] && w'.f == w.f && w'.intentIds == w.intentIds
    requires w'.flights == w.flights[r := w.flights[r].(cleared := true)]
    ensures ResumesOk(w')
  {
    forall s | s in w'.flights ensures FlightOk(w'.trips[w'.flights[s].trip], w'.f.batches, w'.flights[s]) {
      assert FlightOk(w.trips[w.flights[s].trip], w.f.batches, w.flights[s]);
    }
    forall k, d | k in w'.trips && 0 <= d < |w'.trips[k].dispatches|
      ensures PayloadOwned(w'.intentIds, w'.trips[k].dispatches[d].request)
    {
      assert PayloadOwned(w.intentIds, w.trips[k].dispatches[d].request);
    }
  }

  lemma RejectResumes(w: World, r: Id, t': T.Trip, w': World)
    requires ResumesOk(w) && InFlight(w, r) && t'.id == w.flights[r].trip && Alone(w, r)
    requires t'.dispatches
             == TripHeld(w, r).dispatches[w.flights[r].d := RowHeld(w, r).(stage := T.DispatchRejected)]
    requires w'.trips == w.trips[t'.id := t'] && w'.f == w.f && w'.intentIds == w.intentIds
    requires w'.flights == w.flights - {r}
    ensures ResumesOk(w')
  {
    forall s | s in w'.flights ensures FlightOk(w'.trips[w'.flights[s].trip], w'.f.batches, w'.flights[s]) {
      assert FlightOk(w.trips[w.flights[s].trip], w.f.batches, w.flights[s]) && !SameRow(w.flights[s], w.flights[r]);
    }
    forall k, d | k in w'.trips && 0 <= d < |w'.trips[k].dispatches|
      ensures PayloadOwned(w'.intentIds, w'.trips[k].dispatches[d].request)
    {
      assert PayloadOwned(w.intentIds, w.trips[k].dispatches[d].request);
    }
  }

  /** Only the resumes change. */
  lemma FlightsKeep(w: World, flights': map<Id, Flight>)
    requires Inv(w) && ResumesOk(w.(flights := flights'))
    ensures Inv(w.(flights := flights'))
  {
    hide FI.Inv, ResumesOk, TI.Inv, Known, Agrees, GoneAll, DatedAll, TripBatches, LedgerOwned, BatchesKnown, IdsOwned,
      MemoriesOk;
    var w' := w.(flights := flights');
    forall l | l in w'.trips ensures w'.trips[l].id == l && TripOk(w', w'.trips[l]) { assert TripOk(w, w.trips[l]); }
  }

  lemma TripIds(w: World, k: Id)
    requires Inv(w) && k in w.trips
    ensures w.trips[k].id == k && ResumesOk(w)
  {
    hide FI.Inv, ResumesOk, TripOk, LedgerOwned, BatchesKnown, IdsOwned, MemoriesOk;
  }

  lemma ClearKeeps(w: World, r: Id)
    requires Inv(w) && InFlight(w, r) && T.Bound(TripHeld(w, r), RowHeld(w, r).request)
    ensures Inv(Passed(w, r))
  {
    hide Inv, ResumesOk, Registered;
    var (k, d) := (w.flights[r].trip, w.flights[r].d);
    var t := w.trips[k];
    TripIds(w, k);
    if RowHeld(w, r).stage == T.Accepted {
      ClearedResumes(w, r, T.Do(t, T.DoSubmit(d)), Passed(w, r));
      StageKeeps(w, k, d, T.DoSubmit(d), T.Submitted, Passed(w, r));
    } else {
      assert w.trips[k := t] == w.trips;
      ClearedResumes(w, r, t, Passed(w, r));
      FlightsKeep(w, Passed(w, r).flights);
    }
  }

  lemma RejectKeeps(w: World, r: Id)
    requires Inv(w) && InFlight(w, r) && RowHeld(w, r).stage == T.Accepted && Alone(w, r)
    ensures Inv(Rejected(w, r))
  {
    hide Inv, ResumesOk, Registered, Alone;
    var (k, d) := (w.flights[r].trip, w.flights[r].d);
    TripIds(w, k);
    RejectResumes(w, r, T.Do(w.trips[k], T.DoRejectEarly(d)), Rejected(w, r));
    StageKeeps(w, k, d, T.DoRejectEarly(d), T.DispatchRejected, Rejected(w, r));
  }

  /** A row that was read PENDING is held from then on. */
  lemma ResumeKeeps(w: World, r: Id, k: Id, d: nat)
    requires Inv(w) && k in w.trips && d < |w.trips[k].dispatches| && T.Open(w.trips[k].dispatches[d].stage)
    ensures Inv(w.(flights := w.flights[r := Flight(k, d, w.trips[k].dispatches[d].stage != T.Accepted)]))
  {
    hide Inv;
    var w' := w.(flights := w.flights[r := Flight(k, d, w.trips[k].dispatches[d].stage != T.Accepted)]);
    TripIds(w, k);
    assert ResumesOk(w');
    FlightsKeep(w, w'.flights);
  }

  lemma DropKeeps(w: World, r: Id)
    requires Inv(w)
    ensures Inv(w.(flights := w.flights - {r}))
  {
    hide Inv;
    assert ResumesOk(w) by { ResumesOf(w); }
    FlightsKeep(w, w.flights - {r});
  }

  lemma ResumesOf(w: World)
    requires Inv(w)
    ensures ResumesOk(w)
  {
    hide FI.Inv, ResumesOk, TripOk, LedgerOwned, BatchesKnown, IdsOwned, MemoriesOk;
  }

  // ----- Operations that begin -----

  /** Rows given new release requests. */
  lemma LeavesExtend(requests: map<Id, Slot>, t: T.Trip, ms': seq<T.Member>)
    requires Known(requests, t) && |ms'| == |t.members|
    requires forall i | 0 <= i < |ms'| :: RowGrows(requests, t.members[i], ms'[i])
    requires forall i, j | 0 <= i < j < |ms'| && ms'[i].releaseReq.Some? && ms'[j].releaseReq.Some?
               && t.members[i].releaseReq.None?
               && t.members[j].releaseReq.None? :: ms'[i].releaseReq.value.id != ms'[j].releaseReq.value.id
    ensures Extends(requests, t.members, ms')
  {
    forall i, j | 0 <= i < |ms'| && 0 <= j < |ms'| ensures RowsApart(ms', i, j) {
      assert RowKnown(requests, t.id, i, t.members[i]) && RowKnown(requests, t.id, j, t.members[j]);
      assert RowGrows(requests, t.members[i], ms'[i]) && RowGrows(requests, t.members[j], ms'[j]);
    }
  }

  /** Rows added with new claim requests. */
  lemma AddsExtend(requests: map<Id, Slot>, t: T.Trip, ms': seq<T.Member>)
    requires Known(requests, t) && |ms'| >= |t.members| && ms'[..|t.members|] == t.members
    requires forall i | |t.members| <= i < |ms'| :: ms'[i].claimReq.id !in requests && ms'[i].releaseReq.None?
    requires forall i, j | |t.members| <= i < j < |ms'| :: ms'[i].claimReq.id != ms'[j].claimReq.id
    ensures Extends(requests, t.members, ms')
  {
    var n := |t.members|;
    assert forall i | 0 <= i < n :: ms'[i] == t.members[i];
    forall i, j | 0 <= i < |ms'| && 0 <= j < |ms'| ensures RowsApart(ms', i, j) {
      if i < n { assert RowKnown(requests, t.id, i, t.members[i]); }
      if j < n { assert RowKnown(requests, t.id, j, t.members[j]); }
    }
  }

  /** Nothing in the ledger answers a request id that is not on record. */
  lemma NewUnsent(trips: map<Id, T.Trip>, requests: map<Id, Slot>, ledger: seq<F.Receipt>, id: Id)
    requires LedgerOwned(trips, requests, ledger) && id !in requests
    ensures Unsent(ledger, id)
  {
    forall r | r in ledger ensures F.RequestId(r) != id { assert Owned(trips, requests, r); }
  }

  lemma AddRows(w: World, t: T.Trip, actor: Id, lines: seq<T.Line>, t': T.Trip)
    requires Known(w.requests, t) && NewIds(w, seq(|lines|, i requires 0 <= i < |lines| => lines[i].request))
    requires t' == T.BeginAdd(t, actor, lines)
    ensures Extends(w.requests, t.members, t'.members)
    ensures forall i | |t.members| <= i < |t'.members| :: t'.members[i].claimReq.id !in w.requests
  {
    var ids := seq(|lines|, i requires 0 <= i < |lines| => lines[i].request);
    var n := |t.members|;
    forall i | n <= i < |t'.members|
      ensures t'.members[i].claimReq.id == ids[i - n] && t'.members[i].releaseReq.None?
    {
    }
    AddsExtend(w.requests, t, t'.members);
  }

  lemma AddAgrees(w: World, t: T.Trip, actor: Id, lines: seq<T.Line>, t': T.Trip)
    requires Agrees(w.f.ledger, w.leaked, t) && LedgerOwned(w.trips, w.requests, w.f.ledger) && TI.Inv(t)
    requires t.lock.None? && t' == T.BeginAdd(t, actor, lines)
    requires forall i | |t.members| <= i < |t'.members| :: t'.members[i].claimReq.id !in w.requests
    requires w.leaked <= w.requests.Keys
    ensures Agrees(w.f.ledger, w.leaked, t')
  {
    hide TI.Inv, GrantedAs, L.ReleasedIn, InDoubt, LedgerOwned, Unsent;
    UnlockedRows(t);
    forall i | 0 <= i < |t'.members| ensures RowTold(w.f.ledger, w.leaked, t', i) {
      if i < |t.members| {
        assert RowTold(w.f.ledger, w.leaked, t, i) && t'.members[i] == t.members[i];
      } else {
        NewUnsent(w.trips, w.requests, w.f.ledger, t'.members[i].claimReq.id);
      }
    }
  }

  /** No row waits for the release of a canceled shipment unless that operation holds the lock. */
  lemma NoneGone(f: F.State, t: T.Trip)
    requires forall i | 0 <= i < |t.members| && t.members[i].state == T.ReleasePending && t.members[i].op < |t.ops| ::
             t.ops[t.members[i].op].kind != T.ShipmentGone
    ensures GoneAll(f, t)
  {
  }

  lemma AddKeeps(w: World, k: Id, step: T.TripStep)
    requires Inv(w) && k in w.trips && step.DoAdd? && CanLocal(w, k, step)
    ensures Inv(Put(w, T.Do(w.trips[k], step)))
  {
    hide FI.Inv, ResumesOk, TI.Inv, Known, Agrees, GoneAll, TripBatches, MemoOk, LedgerOwned, BatchesKnown, IdsOwned,
      DatedAll, Extends, Registered, NewIds, Elsewhere, T.PresentShipments;
    var t := w.trips[k];
    var t' := T.Do(t, step);
    assert t.id == k && TripOk(w, t);
    TS.StepKeeps(t, step);
    UnlockedRows(t);
    AddRows(w, t, step.actor, step.lines, t');
    AddAgrees(w, t, step.actor, step.lines, t');
    assert forall i | 0 <= i < |t'.members| :: t'.members[i].state != T.ReleasePending;
    NoneGone(w.f, t');
    assert DatedAll(w.f, t'.members) by { AddDated(w.f, t, step.actor, step.lines, t'); }
    SameDispatches(w.f.batches, w.batchIds, t, t');
    assert k !in w.mem by { if k in w.mem { MemoLocked(w.f.ledger, t, w.mem[k].0, w.mem[k].1); assert false; } }
    ResumesSame(w, t', Put(w, t'));
    ChangedKeeps(w, t', Put(w, t'));
  }

  lemma AddDated(f: F.State, t: T.Trip, actor: Id, lines: seq<T.Line>, t': T.Trip)
    requires DatedAll(f, t.members) && t' == T.BeginAdd(t, actor, lines)
    ensures DatedAll(f, t'.members)
  {
    forall i | 0 <= i < |t'.members| ensures Dated(f, t'.members[i]) {
      if i < |t.members| { assert Dated(f, t.members[i]) && t'.members[i] == t.members[i]; }
    }
  }

  // ----- Rows that leave -----

  /** An active row leaves, with a new release request, or the row stays as it is. */
  ghost predicate Left(requests: map<Id, Slot>, m: T.Member, m': T.Member) {
    || m' == m
    || (&& m.state == T.Active && m'.state == T.ReleasePending && m'.claimReq == m.claimReq
        && m'.claim == m.claim && m.claim.Some?
        && m.releaseReq.None? && m'.releaseReq.Some? && m'.releaseReq.value.id !in requests)
  }

  lemma LeftAgrees(w: World, t: T.Trip, i: nat, t': T.Trip)
    requires LedgerOwned(w.trips, w.requests, w.f.ledger) && i < |t.members| == |t'.members|
    requires RowAgrees(w.f.ledger, t, i) && Left(w.requests, t.members[i], t'.members[i])
    requires t.members[i].state != T.ClaimPending
    ensures RowAgrees(w.f.ledger, t', i)
  {
    hide L.ReleasedIn, InDoubt, LedgerOwned, Unsent;
    if t'.members[i] != t.members[i] {
      NewUnsent(w.trips, w.requests, w.f.ledger, t'.members[i].releaseReq.value.id);
    }
  }

  ghost predicate AllLeft(requests: map<Id, Slot>, ms: seq<T.Member>, ms': seq<T.Member>) {
    && |ms'| == |ms| && (forall i | 0 <= i < |ms| :: Left(requests, ms[i], ms'[i]))
    && (forall i, j | 0 <= i < j < |ms'| && ms'[i] != ms[i] && ms'[j] != ms[j]
                      && ms'[i].releaseReq.Some? && ms'[j].releaseReq.Some? ::
          ms'[i].releaseReq.value.id != ms'[j].releaseReq.value.id)
  }

  lemma LeftRows(w: World, t: T.Trip, t': T.Trip)
    requires Known(w.requests, t) && Agrees(w.f.ledger, w.leaked, t) && LedgerOwned(w.trips, w.requests, w.f.ledger)
    requires AllLeft(w.requests, t.members, t'.members)
    requires forall i | 0 <= i < |t.members| :: t.members[i].state != T.ClaimPending
    ensures Extends(w.requests, t.members, t'.members) && Agrees(w.f.ledger, w.leaked, t')
  {
    hide RowAgrees, LedgerOwned, Known, Extends;
    forall i | 0 <= i < |t.members|
      ensures RowGrows(w.requests, t.members[i], t'.members[i])
    {
      assert Left(w.requests, t.members[i], t'.members[i]);
    }
    LeavesExtend(w.requests, t, t'.members);
    forall i | 0 <= i < |t'.members| ensures RowTold(w.f.ledger, w.leaked, t', i) {
      assert RowTold(w.f.ledger, w.leaked, t, i) && Left(w.requests, t.members[i], t'.members[i]);
      if t.members[i].claimReq.id !in w.leaked { LeftAgrees(w, t, i, t'); }
    }
  }

  /** An active row's release names the row's own version. */
  ghost predicate LeavesDated(m: T.Member, m': T.Member) {
    && m.state == T.Active && m'.shipment == m.shipment && m'.version == m.version
    && m'.releaseReq.Some? && m'.releaseReq.value.shipmentVersion == m'.version
  }

  lemma LeftDated(f: F.State, ms: seq<T.Member>, ms': seq<T.Member>)
    requires DatedAll(f, ms) && |ms'| == |ms| && forall i | 0 <= i < |ms| ::
             ms'[i] == ms[i] || LeavesDated(ms[i], ms'[i])
    ensures DatedAll(f, ms')
  {
    forall i | 0 <= i < |ms'| ensures Dated(f, ms'[i]) { assert Dated(f, ms[i]); }
  }

  lemma LeaveAllLeft(w: World, t: T.Trip, picked: set<Id>, actor: Id, newIds: seq<Id>, ms': seq<T.Member>)
    requires TI.MembersOk(t.id, t.lock, t.ops, t.status, t.stops, t.members) && NewIds(w, newIds)
    requires |newIds| == |t.members|
    requires ms' == T.LeaveAll(t, picked, actor, newIds)
    ensures AllLeft(w.requests, t.members, ms')
    ensures forall i | 0 <= i < |ms'| :: ms'[i] == t.members[i] || ms'[i].op == |t.ops|
    ensures forall i | 0 <= i < |ms'| :: ms'[i] == t.members[i] || LeavesDated(t.members[i], ms'[i])
  {
    forall i | 0 <= i < |ms'|
      ensures Left(w.requests, t.members[i], ms'[i])
      ensures || ms'[i] == t.members[i]
              || (ms'[i].op == |t.ops| && ms'[i].releaseReq.Some? && ms'[i].releaseReq.value.id == newIds[i])
      ensures ms'[i] == t.members[i] || LeavesDated(t.members[i], ms'[i])
    {
      assert TI.MemberOk(t.id, t.lock, t.ops, t.status, t.stops, t.members[i]);
    }
  }

  lemma LeaveKeeps(w: World, k: Id, step: T.TripStep, picked: set<Id>, actor: Id, newIds: seq<Id>, kind: T.Kind,
      t': T.Trip)
    requires Inv(w) && k in w.trips && T.Guard(w.trips[k], step) && t' == T.Do(w.trips[k], step) && NewIds(w, newIds)
    requires |newIds| == |w.trips[k].members|
    requires var t := w.trips[k];
             t.lock.None? && kind in {T.Remove, T.CancelTrip}
             && t' == t.(members := T.LeaveAll(t, picked, actor, newIds),
                   ops := t.ops + [T.Op(kind, T.OpPending, actor, T.Picked(t.members, picked), [])],
                         lock := Some(|t.ops|), version := t.version + 1)
    ensures Inv(Put(w, t'))
  {
    hide FI.Inv, ResumesOk, TI.Inv, Known, Agrees, GoneAll, TripBatches, MemoOk, LedgerOwned, BatchesKnown, IdsOwned,
      DatedAll, LeavesDated, Extends, Registered, NewIds, T.Guard, T.Do, T.LeaveAll, AllLeft;
    var t := w.trips[k];
    assert t.id == k && TripOk(w, t);
    TS.StepKeeps(t, step);
    UnlockedRows(t);
    MembersOf(t);
    LeaveAllLeft(w, t, picked, actor, newIds, t'.members);
    LeftRows(w, t, t');
    NoneGone(w.f, t');
    LeftSize(w.requests, t.members, t'.members);
    LeftDated(w.f, t.members, t'.members);
    SameDispatches(w.f.batches, w.batchIds, t, t');
    assert k !in w.mem by { if k in w.mem { MemoLocked(w.f.ledger, t, w.mem[k].0, w.mem[k].1); assert false; } }
    ResumesSame(w, t', Put(w, t'));
    ChangedKeeps(w, t', Put(w, t'));
  }

  lemma LeftSize(requests: map<Id, Slot>, ms: seq<T.Member>, ms': seq<T.Member>)
    requires AllLeft(requests, ms, ms')
    ensures |ms'| == |ms|
  {
  }

  lemma LocalLeaveKeeps(w: World, k: Id, step: T.TripStep)
    requires Inv(w) && k in w.trips && (step.DoRemove? || step.DoCancel?) && CanLocal(w, k, step)
    ensures Inv(Put(w, T.Do(w.trips[k], step)))
  {
    hide Inv, T.LeaveAll, T.Picked, T.PresentShipments, NewIds, T.ClaimsKnown, Registered;
    var t := w.trips[k];
    match step
    case DoRemove(_, actor, ids, newIds) =>
      LeaveKeeps(w, k, step, T.Listing(ids), actor, newIds, T.Remove, T.Do(t, step));
    case DoCancel(_, actor, newIds) =>
      LeaveKeeps(w, k, step, T.PresentShipments(t.members), actor, newIds, T.CancelTrip, T.Do(t, step));
  }

  // ----- A canceled shipment -----

  /** Nothing follows a cancellation in the history. */
  lemma CanceledLast(sh: Shipment, entry: nat)
    requires HistoryOk(sh) && entry < |sh.history| && sh.history[entry].event == WasCanceled
    ensures sh.status == Canceled && entry == |sh.history| - 1
  {
    assert entry > 0 ==> Edge(sh.history[entry - 1].to, sh.history[entry].to, sh.history[entry].event);
    AbsorbingStatuses(sh, entry);
    assert entry + 1 < |sh.history| ==>
        Edge(sh.history[entry].to, sh.history[entry + 1].to, sh.history[entry + 1].event);
  }

  /** The ledger speaks for the shipment: a granted claim that was not released is the one it holds. */
  lemma HeldHere(f: F.State, m: T.Member, claim: Id)
    requires FI.Inv(f) && GrantedAs(f.ledger, m, claim) && !L.ReleasedIn(f.ledger, claim)
    requires m.claimReq.shipment == m.shipment
    ensures m.shipment in f.shipments && f.shipments[m.shipment].claim == Some(claim)
    ensures f.shipments[m.shipment].trip == Some(m.claimReq.trip)
  {
    hide FI.Rows, FI.Indexed, FI.IntentIdsUnique, FI.BatchesOk, FI.OrdersOk, FI.InboxOk, FI.LedgerOk;
    var r := F.Find(f.ledger, m.claimReq.id).value;
    assert FI.LedgerOk(f.ledger);
    L.HeldOrReleased(f.ledger, r);
    assert F.ShipmentOf(r) in f.shipments && FI.Holder(f.ledger, m.shipment) == FI.HeldBy(f.shipments[m.shipment]);
  }

  /** A claimed shipment that is canceled stands at the version of its cancellation. */
  lemma CanceledVersion(f: F.State, x: Id, entry: nat)
    requires FI.Inv(f) && x in f.shipments && f.shipments[x].claim.Some?
    requires entry < |f.shipments[x].history| && f.shipments[x].history[entry].event == WasCanceled
    ensures f.shipments[x].status == Canceled && f.shipments[x].version == f.shipments[x].history[entry].version
  {
    hide FI.Indexed, FI.IntentIdsUnique, FI.BatchesOk, FI.OrdersOk, FI.InboxOk, FI.LedgerAgrees;
    FI.RowAt(f, x);
    CanceledLast(f.shipments[x], entry);
  }

  lemma NoticedRow(w: World, t: T.Trip, i: nat, version: nat, request: Id, t': T.Trip)
    requires TI.MembersOk(t.id, t.lock, t.ops, t.status, t.stops, t.members) && T.CanConsume(t, i)
    requires request !in w.requests
    requires t' == T.Consume(t, i, version, request)
    ensures AllLeft(w.requests, t.members, t'.members)
    ensures forall j | 0 <= j < |t.members| && j != i :: t'.members[j] == t.members[j]
    ensures t'.members[i].op == |t.ops|
    ensures t'.ops
             == t.ops + [T.Op(T.ShipmentGone, T.OpPending, t.members[i].claimReq.actor, [t.members[i].shipment], [])]
    ensures t'.members[i].releaseReq.Some? && t'.members[i].releaseReq.value.actor == t'.members[i].claimReq.actor
    ensures t'.members[i].releaseReq.value.shipmentVersion == version && t'.members[i].shipment == t.members[i].shipment
    ensures t'.members[i].version == version
    ensures t'.id == t.id && t'.dispatches == t.dispatches && |t'.members| == |t.members|
  {
    hide T.ActiveWeight, T.ActiveVolume, T.Unstop, T.Cleared;
    assert TI.MemberOk(t.id, t.lock, t.ops, t.status, t.stops, t.members[i]);
  }

  lemma NoticedGone(w: World, t: T.Trip, i: nat, version: nat, t': T.Trip)
    requires |t'.members| == |t.members| && i < |t.members|
    requires forall j | 0 <= j < |t.members| :: t.members[j].state in {T.Active, T.Released}
    requires forall j | 0 <= j < |t.members| && j != i :: t'.members[j] == t.members[j]
    requires t'.members[i].releaseReq.Some? && t'.members[i].releaseReq.value.actor == t'.members[i].claimReq.actor
    requires t'.members[i].releaseReq.value.shipmentVersion == version && t'.members[i].shipment in w.f.shipments
    requires w.f.shipments[t'.members[i].shipment].status == Canceled
    requires w.f.shipments[t'.members[i].shipment].version == version
    requires t'.members[i].version == version && DatedAll(w.f, t.members)
    ensures GoneAll(w.f, t') && DatedAll(w.f, t'.members)
  {
    hide Unsent;
    forall j | 0 <= j < |t'.members| ensures GoneOk(w.f, t', t'.members[j]) && Dated(w.f, t'.members[j]) {
      if j != i { assert t'.members[j] == t.members[j] && Dated(w.f, t.members[j]); }
    }
  }

  lemma ActiveHeld(w: World, t: T.Trip, i: nat)
    requires FI.Inv(w.f) && Agrees(w.f.ledger, w.leaked, t)
    requires TI.MembersOk(t.id, t.lock, t.ops, t.status, t.stops, t.members)
    requires i < |t.members| && t.members[i].state == T.Active
    ensures t.members[i].claim.Some? && t.members[i].shipment in w.f.shipments
    ensures w.f.shipments[t.members[i].shipment].claim == t.members[i].claim
    ensures w.f.shipments[t.members[i].shipment].trip == Some(t.id)
  {
    hide FI.Inv, ResumesOk, GrantedAs, L.ReleasedIn;
    assert RowTold(w.f.ledger, w.leaked, t, i) && TI.MemberOk(t.id, t.lock, t.ops, t.status, t.stops, t.members[i]);
    HeldHere(w.f, t.members[i], t.members[i].claim.value);
  }

  lemma NoticeKeeps(w: World, k: Id, i: nat, entry: nat, request: Id)
    requires Inv(w) && k in w.trips && CanNotice(w, k, i, entry, request)
    ensures Inv(Noticed(w, k, i, entry, request))
  {
    hide FI.Inv, ResumesOk, TI.Inv, Known, Agrees, GoneAll, TripBatches, MemoOk, LedgerOwned, BatchesKnown, IdsOwned,
      DatedAll, Extends, Registered, T.Consume, AllLeft;
    var t := w.trips[k];
    assert t.id == k && TripOk(w, t);
    var x := t.members[i].shipment;
    var version := w.f.shipments[x].history[entry].version;
    var t' := T.Consume(t, i, version, request);
    TS.ConsumeKeeps(t, i, version, request);
    UnlockedRows(t);
    MembersOf(t);
    NoticedRow(w, t, i, version, request, t');
    LeftRows(w, t, t');
    ActiveHeld(w, t, i);
    CanceledVersion(w.f, x, entry);
    NoticedGone(w, t, i, version, t');
    SameDispatches(w.f.batches, w.batchIds, t, t');
    assert k !in w.mem by { if k in w.mem { MemoLocked(w.f.ledger, t, w.mem[k].0, w.mem[k].1); assert false; } }
    ResumesSame(w, t', Noticed(w, k, i, entry, request));
    ChangedKeeps(w, t', Noticed(w, k, i, entry, request));
  }

  // ----- Storing what was remembered -----

  lemma ClaimKeptAgrees(ledger: seq<F.Receipt>, leaked: set<Id>, t: T.Trip, i: nat, r: F.Receipt, t': T.Trip)
    requires Agrees(ledger, leaked, t) && MemoOk(ledger, t, i, F.Ok(r)) && r.Claimed? && t' == T.PersistClaim(t, i, r)
    ensures Agrees(ledger, leaked, t')
  {
    hide L.ReleasedIn, T.ActiveWeight, T.ActiveVolume, T.Arrive;
    forall j | 0 <= j < |t'.members| ensures RowTold(ledger, leaked, t', j) {
      assert RowTold(ledger, leaked, t, j);
      if j != i { OnlyFirst(t, i, j); }
    }
  }

  lemma OnlyFirst(t: T.Trip, i: nat, j: nat)
    requires T.IsFirst(t, i, T.ClaimPending) && j < |t.members| && j != i
    ensures !T.IsFirst(t, j, T.ClaimPending)
  {
  }

  lemma KeptIds(w: World, t: T.Trip, t': T.Trip, leaked': set<Id>)
    requires Inv(w) && t.id in w.trips && w.trips[t.id] == t && t'.id == t.id && TI.Inv(t')
    requires LeaksHere(w, t.id, leaked')
    requires Extends(w.requests, t.members, t'.members) && Agrees(w.f.ledger, leaked', t') && GoneAll(w.f, t')
    requires DatedAll(w.f, t'.members) && t'.dispatches == t.dispatches
    ensures Inv(Stored(w, t').(leaked := leaked'))
  {
    hide FI.Inv, ResumesOk, TI.Inv, Known, Agrees, GoneAll, DatedAll, TripBatches, MemoOk, LedgerOwned, BatchesKnown,
      IdsOwned, Extends;
    hide Registered, LeaksHere;
    assert TripOk(w, t);
    SameDispatches(w.f.batches, w.batchIds, t, t');
    ResumesSame(w, t', Stored(w, t').(leaked := leaked'));
    ChangedKeeps(w, t', Stored(w, t').(leaked := leaked'));
  }

  /** A granted receipt names a version its shipment has reached. */
  lemma GrantDated(f: F.State, r: F.Receipt)
    requires FI.Inv(f) && r in f.ledger && r.Claimed?
    ensures r.claimReq.shipment in f.shipments && r.version <= f.shipments[r.claimReq.shipment].version
  {
    hide FI.Rows, FI.Indexed, FI.IntentIdsUnique, FI.BatchesOk, FI.OrdersOk, FI.InboxOk, FI.LedgerOk;
    assert FI.Weighed(f.shipments[F.ShipmentOf(r)], r);
  }

  lemma ClaimKeptDated(f: F.State, t: T.Trip, i: nat, r: F.Receipt, t': T.Trip)
    requires FI.Inv(f) && DatedAll(f, t.members) && MemoOk(f.ledger, t, i, F.Ok(r)) && r.Claimed?
    requires t' == T.PersistClaim(t, i, r)
    requires t.members[i].claimReq.shipment == t.members[i].shipment
    ensures DatedAll(f, t'.members)
  {
    hide FI.Inv, ResumesOk, T.ActiveWeight, T.ActiveVolume, T.Arrive;
    GrantDated(f, r);
    forall j | 0 <= j < |t'.members| ensures Dated(f, t'.members[j]) { assert Dated(f, t.members[j]); }
  }

  lemma AddingRows(t: T.Trip)
    requires TI.Inv(t) && T.Adding(t)
    ensures forall i | 0 <= i < |t.members| :: t.members[i].state != T.ReleasePending
  {
    hide TI.OpsOk, TI.Unique, TI.StopsOk, TI.PlacesOk, TI.TotalsOk, TI.RouteOk, TI.CapacityOk, TI.ReadsOk,
      TI.DispatchesOk, TI.DriveOk;
    forall i | 0 <= i < |t.members| ensures t.members[i].state != T.ReleasePending {
      assert TI.MemberOk(t.id, t.lock, t.ops, t.status, t.stops, t.members[i]);
    }
  }

  lemma StoredLeaks(w: World, t: T.Trip)
    ensures Stored(w, t).(leaked := w.leaked) == Stored(w, t)
  {
  }

  lemma RowShipment(t: T.Trip, i: nat)
    requires TI.Inv(t) && i < |t.members|
    ensures t.members[i].claimReq.shipment == t.members[i].shipment
  {
    hide TI.Inv;
    MembersOf(t);
    assert TI.MemberOk(t.id, t.lock, t.ops, t.status, t.stops, t.members[i]);
  }

  lemma KeepClaimKeeps(w: World, k: Id, i: nat, r: F.Receipt)
    requires Inv(w) && k in w.trips && k in w.mem && w.mem[k] == (i, F.Ok(r)) && r.Claimed?
    requires T.Guard(w.trips[k], T.DoPersistClaim(i, r))
    ensures Inv(Stored(w, T.Do(w.trips[k], T.DoPersistClaim(i, r))))
  {
    hide FI.Inv, ResumesOk, TI.Inv, Known, Agrees, GoneAll, TripBatches, LedgerOwned, BatchesKnown, IdsOwned,
      DatedAll, Extends, Registered, MemoOk, Stored, T.ActiveWeight, T.ActiveVolume, T.Arrive;
    var t := w.trips[k];
    var t' := T.Do(t, T.DoPersistClaim(i, r));
    assert t.id == k && TripOk(w, t) && MemoOk(w.f.ledger, t, i, F.Ok(r));
    TS.StepKeeps(t, T.DoPersistClaim(i, r));
    SameRowsExtend(w.requests, t, t'.members);
    ClaimKeptAgrees(w.f.ledger, w.leaked, t, i, r, t');
    AddingRows(t);
    NoneGone(w.f, t');
    assert t.members[i].claimReq.shipment == t.members[i].shipment by { RowShipment(t, i); }
    ClaimKeptDated(w.f, t, i, r, t');
    KeptIds(w, t, t', w.leaked);
    StoredLeaks(w, t');
  }

  lemma ReleaseKeptAgrees(ledger: seq<F.Receipt>, leaked: set<Id>, t: T.Trip, i: nat, reply: F.Reply<F.Receipt>,
      t': T.Trip)
    requires Agrees(ledger, leaked, t) && MemoOk(ledger, t, i, reply) && reply.Ok? && reply.value.Freed?
    requires t' == T.PersistRelease(t, i)
    requires forall j | 0 <= j < |t.members| :: t.members[j].state != T.ClaimPending
    ensures Agrees(ledger, leaked, t')
  {
    hide L.ReleasedIn, T.ActiveWeight, T.ActiveVolume, T.Gone;
    forall j | 0 <= j < |t'.members| ensures RowTold(ledger, leaked, t', j) {
      assert RowTold(ledger, leaked, t, j);
    }
  }

  lemma ReleasingRows(t: T.Trip)
    requires TI.Inv(t) && T.Releasing(t)
    ensures forall i | 0 <= i < |t.members| :: t.members[i].state != T.ClaimPending
  {
    hide TI.OpsOk, TI.Unique, TI.StopsOk, TI.PlacesOk, TI.TotalsOk, TI.RouteOk, TI.CapacityOk, TI.ReadsOk,
      TI.DispatchesOk, TI.DriveOk;
    forall i | 0 <= i < |t.members| ensures t.members[i].state != T.ClaimPending {
      assert TI.MemberOk(t.id, t.lock, t.ops, t.status, t.stops, t.members[i]);
    }
  }

  lemma ReleaseKeptGone(f: F.State, t: T.Trip, i: nat, t': T.Trip)
    requires GoneAll(f, t) && DatedAll(f, t.members) && i < |t.members| && t' == T.PersistRelease(t, i)
    ensures GoneAll(f, t') && DatedAll(f, t'.members)
  {
    hide Unsent, T.ActiveWeight, T.ActiveVolume, T.Gone;
    forall j | 0 <= j < |t'.members| ensures GoneOk(f, t', t'.members[j]) && Dated(f, t'.members[j]) {
      assert GoneOk(f, t, t.members[j]) && Dated(f, t.members[j]);
    }
  }

  lemma KeepReleaseKeeps(w: World, k: Id, i: nat, reply: F.Reply<F.Receipt>)
    requires Inv(w) && k in w.trips && k in w.mem && w.mem[k] == (i, reply) && reply.Ok? && reply.value.Freed?
    requires T.Guard(w.trips[k], T.DoPersistRelease(i))
    ensures Inv(Stored(w, T.Do(w.trips[k], T.DoPersistRelease(i))))
  {
    hide FI.Inv, ResumesOk, TI.Inv, Known, Agrees, GoneAll, TripBatches, LedgerOwned, BatchesKnown, IdsOwned,
      DatedAll, Extends, Registered, MemoOk, Stored, T.ActiveWeight, T.ActiveVolume, T.Gone;
    var t := w.trips[k];
    var t' := T.Do(t, T.DoPersistRelease(i));
    assert t.id == k && TripOk(w, t) && MemoOk(w.f.ledger, t, i, reply);
    TS.StepKeeps(t, T.DoPersistRelease(i));
    SameRowsExtend(w.requests, t, t'.members);
    ReleasingRows(t);
    ReleaseKeptAgrees(w.f.ledger, w.leaked, t, i, reply, t');
    ReleaseKeptGone(w.f, t, i, t');
    KeptIds(w, t, t', w.leaked);
    StoredLeaks(w, t');
  }

  // ----- Compensation -----

  /** What compensation does to one row. `granted` is the receipt of the row whose claim went through
      although its snapshot does not match. */
  ghost predicate Undone(t: T.Trip, m: T.Member, granted: Option<F.Receipt>, newId: Id, m': T.Member) {
    && m'.claimReq == m.claimReq && m'.op == m.op && m'.shipment == m.shipment
    && (if !T.InOp(t, m) || m.state in {T.ReleasePending, T.Released} then m' == m
        else if m.state == T.Active then
          && m'.state == T.ReleasePending && m'.claim == m.claim && m'.version == m.version && Asks(m', newId)
        else if granted.Some? && granted.value.Claimed? then
          && m'.state == T.ReleasePending && m'.claim == Some(granted.value.claim)
          && m'.version == granted.value.version && Asks(m', newId)
        else m'.state == T.Released && m'.claim == m.claim && m'.releaseReq == m.releaseReq)
  }

  ghost predicate Asks(m: T.Member, newId: Id) {
    m.releaseReq.Some? && m.releaseReq.value.id == newId && m.releaseReq.value.shipmentVersion == m.version
  }

  function GrantedAt(invalid: Option<(nat, F.Receipt)>, j: nat): Option<F.Receipt> {
    if invalid.Some? && invalid.value.0 == j then Some(invalid.value.1) else None
  }

  lemma CompensateUndoes(t: T.Trip, invalid: Option<(nat, F.Receipt)>, newIds: seq<Id>, t': T.Trip, j: nat)
    requires T.Guard(t, T.DoCompensate(invalid, newIds)) && t' == T.Compensate(t, invalid, newIds) && j < |t.members|
    requires TI.MembersOk(t.id, t.lock, t.ops, t.status, t.stops, t.members)
    ensures |t'.members| == |t.members| && Undone(t, t.members[j], GrantedAt(invalid, j), newIds[j], t'.members[j])
  {
    assert TI.MemberOk(t.id, t.lock, t.ops, t.status, t.stops, t.members[j]);
  }

  /** A row that the ledger agrees with, and that is not dropped now, is undone in agreement. */
  lemma UndoneAgrees(w: World, t: T.Trip, j: nat, granted: Option<F.Receipt>, newId: Id, t': T.Trip)
    requires LedgerOwned(w.trips, w.requests, w.f.ledger) && j < |t.members| == |t'.members| && newId !in w.requests
    requires RowAgrees(w.f.ledger, t, j) && Undone(t, t.members[j], granted, newId, t'.members[j])
    requires TI.MemberOk(t.id, t.lock, t.ops, t.status, t.stops, t.members[j])
    requires granted.None? ==> t.members[j].state == T.ClaimPending ==> Unsent(w.f.ledger, t.members[j].claimReq.id)
    requires granted.Some? ==>
               t.members[j].state == T.ClaimPending && granted.value.Claimed?
               && granted.value.claimReq == t.members[j].claimReq
    requires granted.Some? ==> F.Find(w.f.ledger, t.members[j].claimReq.id) == granted
    ensures RowAgrees(w.f.ledger, t', j)
  {
    hide L.ReleasedIn, LedgerOwned;
    NewUnsent(w.trips, w.requests, w.f.ledger, newId);
  }

  lemma UndoneGrows(requests: map<Id, Slot>, t: T.Trip, m: T.Member, granted: Option<F.Receipt>, newId: Id,
      m': T.Member)
    requires Undone(t, m, granted, newId, m') && newId !in requests
    requires TI.MemberOk(t.id, t.lock, t.ops, t.status, t.stops, m)
    ensures RowGrows(requests, m, m')
  {
  }

  /** The waiting row whose grant is dropped. */
  lemma UndoneLost(ledger: seq<F.Receipt>, t: T.Trip, j: nat, newId: Id, m': T.Member, r: F.Receipt)
    requires j < |t.members| && RowAgrees(ledger, t, j) && T.IsFirst(t, j, T.ClaimPending)
    requires Undone(t, t.members[j], None, newId, m')
    requires F.Find(ledger, t.members[j].claimReq.id) == Some(r)
    requires TI.MemberOk(t.id, t.lock, t.ops, t.status, t.stops, t.members[j])
    ensures Lost(ledger, m')
  {
    hide L.ReleasedIn;
  }

  lemma UndoneDated(f: F.State, t: T.Trip, m: T.Member, granted: Option<F.Receipt>, newId: Id, m': T.Member)
    requires FI.Inv(f) && Dated(f, m) && Undone(t, m, granted, newId, m')
    requires granted.Some? ==>
             granted.value in f.ledger && granted.value.Claimed? && granted.value.claimReq.shipment == m.shipment
    ensures Dated(f, m')
  {
    hide FI.Inv;
    if granted.Some? { GrantDated(f, granted.value); }
  }

  /** The processor's memory settles what every waiting row can be: only the first may be granted. */
  lemma WaitingRows(ledger: seq<F.Receipt>, leaked: set<Id>, t: T.Trip, i: nat, reply: F.Reply<F.Receipt>, j: nat)
    requires Agrees(ledger, leaked, t) && MemoOk(ledger, t, i, reply) && j < |t.members|
    requires t.members[j].state == T.ClaimPending
    requires reply.Ok? ==> reply.value.Claimed?
    ensures reply.Refused? || j != i ==> Unsent(ledger, t.members[j].claimReq.id)
  {
    hide L.ReleasedIn;
    assert RowTold(ledger, leaked, t, j);
    if j != i { OnlyFirst(t, i, j); }
  }

  /** How a remembered reply may be settled: a refusal, a grant whose snapshot does not match, or a
      grant whose snapshot does not even pass the schema. The last one drops the grant. */
  ghost predicate Settles(w: World, t: T.Trip, i: nat, reply: F.Reply<F.Receipt>, invalid: Option<(nat, F.Receipt)>,
      leaked': set<Id>) {
    && MemoOk(w.f.ledger, t, i, reply) && (reply.Ok? ==> reply.value.Claimed?)
    && (invalid.Some? ==> reply.Ok? && invalid == Some((i, reply.value)))
    && leaked' == w.leaked + if reply.Ok? && invalid.None? then {t.members[i].claimReq.id} else {}
  }

  lemma CompensatedRow(w: World, t: T.Trip, i: nat, reply: F.Reply<F.Receipt>, invalid: Option<(nat, F.Receipt)>,
      newIds: seq<Id>,
                       leaked': set<Id>, t': T.Trip, j: nat)
    requires TripOk(w, t) && LedgerOwned(w.trips, w.requests, w.f.ledger) && Settles(w, t, i, reply, invalid, leaked')
    requires T.Guard(t, T.DoCompensate(invalid, newIds)) && t' == T.Compensate(t, invalid, newIds) && j < |t.members|
    requires NewIds(w, newIds)
    ensures |t'.members| == |t.members| && RowTold(w.f.ledger, leaked', t', j)
    ensures RowGrows(w.requests, t.members[j], t'.members[j])
    ensures Undone(t, t.members[j], GrantedAt(invalid, j), newIds[j], t'.members[j])
  {
    hide LedgerOwned, RowAgrees, TI.Inv, Known, GoneAll, DatedAll, TripBatches, T.Compensate, Undone, RowGrows,
      NewIds, Lost;
    MembersOf(t);
    CompensateUndoes(t, invalid, newIds, t', j);
    var m, m' := t.members[j], t'.members[j];
    assert newIds[j] !in w.requests by { NewIdAt(w, newIds, j); }
    assert RowTold(w.f.ledger, w.leaked, t, j) && TI.MemberOk(t.id, t.lock, t.ops, t.status, t.stops, m);
    UndoneGrows(w.requests, t, m, GrantedAt(invalid, j), newIds[j], m');
    SameRequest(t, m, GrantedAt(invalid, j), newIds[j], m');
    if m.state == T.ClaimPending { WaitingRows(w.f.ledger, w.leaked, t, i, reply, j); }
    if m.claimReq.id in w.leaked {
      LostStays(w.f.ledger, t, m, GrantedAt(invalid, j), newIds[j], m');
    } else if j == i && reply.Ok? && invalid.None? {
      UndoneLost(w.f.ledger, t, j, newIds[j], m', reply.value);
    } else {
      assert m.claimReq.id !in leaked' by { OtherRequest(w, t, i, j); }
      UndoneAgrees(w, t, j, GrantedAt(invalid, j), newIds[j], t');
    }
  }

  lemma SameRequest(t: T.Trip, m: T.Member, granted: Option<F.Receipt>, newId: Id, m': T.Member)
    requires Undone(t, m, granted, newId, m')
    ensures m'.claimReq == m.claimReq
  {
  }

  lemma LostStays(ledger: seq<F.Receipt>, t: T.Trip, m: T.Member, granted: Option<F.Receipt>, newId: Id, m': T.Member)
    requires Lost(ledger, m) && Undone(t, m, granted, newId, m')
    ensures Lost(ledger, m')
  {
    hide InDoubt;
  }

  lemma OtherRequest(w: World, t: T.Trip, i: nat, j: nat)
    requires Known(w.requests, t) && i < |t.members| && j < |t.members|
    ensures i != j ==> t.members[i].claimReq.id != t.members[j].claimReq.id
  {
    assert RowKnown(w.requests, t.id, i, t.members[i]) && RowKnown(w.requests, t.id, j, t.members[j]);
  }

  lemma NewIdAt(w: World, ids: seq<Id>, j: nat)
    requires NewIds(w, ids) && j < |ids|
    ensures ids[j] !in w.requests
  {
  }

  lemma CompensatedRows(w: World, t: T.Trip, i: nat, reply: F.Reply<F.Receipt>, invalid: Option<(nat, F.Receipt)>,
      newIds: seq<Id>,
                        leaked': set<Id>, t': T.Trip)
    requires TripOk(w, t) && LedgerOwned(w.trips, w.requests, w.f.ledger) && Settles(w, t, i, reply, invalid, leaked')
    requires T.Guard(t, T.DoCompensate(invalid, newIds)) && t' == T.Compensate(t, invalid, newIds) && NewIds(w, newIds)
    ensures Agrees(w.f.ledger, leaked', t') && Extends(w.requests, t.members, t'.members) && |t'.members| == |t.members|
    ensures forall j | 0 <= j < |t.members| :: Undone(t, t.members[j], GrantedAt(invalid, j), newIds[j], t'.members[j])
  {
    hide LedgerOwned, RowTold, TI.Inv, Known, GoneAll, DatedAll, TripBatches, T.Compensate, RowGrows, Extends, Agrees,
      Settles;
    CompensateSize(t, invalid, newIds, t');
    forall j | 0 <= j < |t.members|
      ensures RowTold(w.f.ledger, leaked', t', j) && RowGrows(w.requests, t.members[j], t'.members[j])
      ensures Undone(t, t.members[j], GrantedAt(invalid, j), newIds[j], t'.members[j])
      ensures || t'.members[j].releaseReq == t.members[j].releaseReq
              || (t'.members[j].releaseReq.Some? && t'.members[j].releaseReq.value.id == newIds[j])
    {
      CompensatedRow(w, t, i, reply, invalid, newIds, leaked', t', j);
    }
    LeavesExtend(w.requests, t, t'.members);
    RowsAgree(w.f.ledger, leaked', t');
  }

  lemma CompensatedDated(f: F.State, t: T.Trip, invalid: Option<(nat, F.Receipt)>, newIds: seq<Id>, ms: seq<T.Member>)
    requires FI.Inv(f) && DatedAll(f, t.members) && |ms| == |t.members| == |newIds|
    requires forall j | 0 <= j < |t.members| :: Undone(t, t.members[j], GrantedAt(invalid, j), newIds[j], ms[j])
    requires invalid.Some? ==> invalid.value.0 < |t.members| && invalid.value.1 in f.ledger && invalid.value.1.Claimed?
    requires invalid.Some? ==> invalid.value.1.claimReq.shipment == t.members[invalid.value.0].shipment
    ensures DatedAll(f, ms)
  {
    hide FI.Inv, ResumesOk, Undone, Dated;
    forall j | 0 <= j < |ms| ensures Dated(f, ms[j]) {
      assert Dated(f, t.members[j]) && Undone(t, t.members[j], GrantedAt(invalid, j), newIds[j], ms[j]);
      UndoneDated(f, t, t.members[j], GrantedAt(invalid, j), newIds[j], ms[j]);
    }
  }

  lemma CompensateSize(t: T.Trip, invalid: Option<(nat, F.Receipt)>, newIds: seq<Id>, t': T.Trip)
    requires T.Guard(t, T.DoCompensate(invalid, newIds)) && t' == T.Compensate(t, invalid, newIds)
    ensures |t'.members| == |t.members| && t'.id == t.id && t'.dispatches == t.dispatches && t'.lock == t.lock
    ensures KindsKept(t.ops, t'.ops)
  {
  }

  lemma RowsAgree(ledger: seq<F.Receipt>, leaked: set<Id>, t: T.Trip)
    requires forall j | 0 <= j < |t.members| :: RowTold(ledger, leaked, t, j)
    ensures Agrees(ledger, leaked, t)
  {
  }

  /** The rows being released belong to an ADD, not to a canceled shipment. */
  lemma CompensatedGone(f: F.State, t: T.Trip, t': T.Trip)
    requires TI.Inv(t') && T.Adding(t) && t'.lock == t.lock && KindsKept(t.ops, t'.ops)
    ensures GoneAll(f, t')
  {
    hide TI.Inv;
    MembersOf(t');
    forall i | 0 <= i < |t'.members| && t'.members[i].state == T.ReleasePending && t'.members[i].op < |t'.ops|
      ensures t'.ops[t'.members[i].op].kind != T.ShipmentGone
    {
      assert TI.MemberOk(t'.id, t'.lock, t'.ops, t'.status, t'.stops, t'.members[i]);
    }
    NoneGone(f, t');
  }

  lemma InvalidGrant(w: World, t: T.Trip, i: nat, reply: F.Reply<F.Receipt>, invalid: Option<(nat, F.Receipt)>,
      leaked': set<Id>)
    requires TI.Inv(t) && Settles(w, t, i, reply, invalid, leaked')
    ensures invalid.Some? ==> invalid.value.0 < |t.members| && invalid.value.1 in w.f.ledger && invalid.value.1.Claimed?
    ensures invalid.Some? ==> invalid.value.1.claimReq.shipment == t.members[invalid.value.0].shipment
  {
    hide TI.Inv, T.IsFirst;
    RowShipment(t, i);
  }

  lemma LeakIsHere(w: World, t: T.Trip, i: nat, reply: F.Reply<F.Receipt>, invalid: Option<(nat, F.Receipt)>,
      leaked': set<Id>)
    requires Known(w.requests, t) && Settles(w, t, i, reply, invalid, leaked')
    ensures LeaksHere(w, t.id, leaked')
  {
    assert RowKnown(w.requests, t.id, i, t.members[i]);
  }

  lemma KeepCompensationKeeps(w: World, k: Id, i: nat, reply: F.Reply<F.Receipt>, invalid: Option<(nat, F.Receipt)>,
      newIds: seq<Id>,
                              leaked': set<Id>)
    requires Inv(w) && k in w.trips && k in w.mem && w.mem[k] == (i, reply)
    requires Settles(w, w.trips[k], i, reply, invalid, leaked')
    requires T.Guard(w.trips[k], T.DoCompensate(invalid, newIds)) && NewIds(w, newIds)
    ensures Inv(Stored(w, T.Do(w.trips[k], T.DoCompensate(invalid, newIds))).(leaked := leaked'))
  {
    hide FI.Inv, ResumesOk, TI.Inv, Known, Agrees, GoneAll, DatedAll, TripBatches, LedgerOwned, BatchesKnown,
      IdsOwned, Extends, Registered, MemoOk;
    hide Stored, NewIds, T.Compensate, KindsKept, Settles, LeaksHere, Undone;
    var t := w.trips[k];
    var t' := T.Do(t, T.DoCompensate(invalid, newIds));
    assert t.id == k && TripOk(w, t);
    TS.StepKeeps(t, T.DoCompensate(invalid, newIds));
    CompensateSize(t, invalid, newIds, t');
    CompensatedRows(w, t, i, reply, invalid, newIds, leaked', t');
    InvalidGrant(w, t, i, reply, invalid, leaked');
    CompensatedDated(w.f, t, invalid, newIds, t'.members);
    CompensatedGone(w.f, t, t');
    LeakIsHere(w, t, i, reply, invalid, leaked');
    KeptIds(w, t, t', leaked');
  }
}
