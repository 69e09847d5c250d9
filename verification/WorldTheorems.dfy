/** What the two services agree on about claims in every state of every run, and when a claim leaks. */
module WorldTheorems {
  import opened Shipments
  import F = Fulfillment
  import FI = FulfillmentInvariant
  import FP = FulfillmentProgress
  import FR = FulfillmentRuns
  import L = ClaimLedger
  import T = Trips
  import TI = TripInvariant
  import opened World
  import opened WorldInvariant
  import opened WorldSteps
  import opened WorldCalls

  lemma ReachableInv(steps: seq<Step>, w: World)
    requires Runs(START, steps, w)
    ensures Inv(w)
  {
    hide Inv, Runs;
    StartInv();
    RunKeeps(START, steps, w);
  }

  lemma TripOf(w: World, k: Id)
    requires Inv(w) && k in w.trips
    ensures w.trips[k].id == k && TripOk(w, w.trips[k]) && FI.Inv(w.f)
  {
    hide FI.Inv, ResumesOk, TripOk, LedgerOwned, BatchesKnown, IdsOwned, MemoriesOk;
  }

  lemma RowOf(w: World, k: Id, i: nat)
    requires Inv(w) && k in w.trips && i < |w.trips[k].members|
    ensures RowTold(w.f.ledger, w.leaked, w.trips[k], i) && RowKnown(w.requests, k, i, w.trips[k].members[i])
    ensures w.trips[k].members[i].claimReq.trip == k
    ensures w.trips[k].members[i].claimReq.shipment == w.trips[k].members[i].shipment
    ensures Dated(w.f, w.trips[k].members[i])
  {
    hide Inv, FI.Inv, TI.Inv, RowTold, RowKnown, GoneAll, TripBatches, Dated;
    TripOf(w, k);
    MembersOf(w.trips[k]);
    var t := w.trips[k];
    assert TI.MemberOk(t.id, t.lock, t.ops, t.status, t.stops, t.members[i]);
  }

  /** A row that has not been released is never one whose grant was dropped. */
  lemma PresentOf(w: World, k: Id, i: nat)
    requires Inv(w) && k in w.trips && i < |w.trips[k].members| && T.Present(w.trips[k].members[i])
    ensures RowAgrees(w.f.ledger, w.trips[k], i) && w.trips[k].members[i].claimReq.id !in w.leaked
  {
    hide Inv, RowAgrees, RowKnown, Dated, InDoubt;
    RowOf(w, k, i);
  }

  // ----- Calls and events -----

  /** A call reaches fulfillment whether or not its reply comes back; what the processor remembers is the
      reply it got, and of a release only an acceptance. */
  lemma CallTells(w: World, k: Id, i: nat, newId: Id, replied: bool)
    requires k in w.trips && i < |w.trips[k].members|
    ensures var (q, w') := (w.trips[k].members[i].claimReq, ClaimCalled(w, k, i, newId, replied));
            && w'.f == F.Claim(w.f, q, newId)
            && (replied ==> k in w'.mem && w'.mem[k] == (i, F.ClaimReply(w.f, q, newId)))
            && (!replied ==> w'.mem == w.mem)
    ensures w.trips[k].members[i].releaseReq.Some? ==>
              var (q, w') := (w.trips[k].members[i].releaseReq.value, ReleaseCalled(w, k, i, replied));
              && w'.f == F.Release(w.f, q)
              && (replied && F.ReleaseReply(w.f, q).Ok? ==> k in w'.mem && w'.mem[k] == (i, F.ReleaseReply(w.f, q)))
              && (!replied || F.ReleaseReply(w.f, q).Refused? ==> w'.mem == w.mem)
  {
    hide F.Claim, F.ClaimReply, F.Release, F.ReleaseReply;
  }

  /** A cancellation is noticed or missed once: afterwards the consumer takes no event of that shipment
      with the same version or an earlier one. */
  lemma NoticedOnce(w: World, step: Step)
    requires Enabled(w, step) && (step.Notice? || step.Miss?)
    ensures var x := if step.Miss? then step.shipment else w.trips[step.trip].members[step.row].shipment;
            && x in w.f.shipments && step.entry < |w.f.shipments[x].history| && x in Apply(w, step).seen
            && Apply(w, step).seen[x] == w.f.shipments[x].history[step.entry].version
            && (forall e | 0 <= e < |w.f.shipments[x].history|
                           && w.f.shipments[x].history[e].version <= w.f.shipments[x].history[step.entry].version ::
                  !Announced(Apply(w, step), x, e))
            && (x in w.seen ==> w.seen[x] < Apply(w, step).seen[x])
  {
    hide T.Consume, Registered, T.CanConsume;
  }

  // ----- Claims -----

  /** The shipment of this row is held, for this row's trip, by the claim its request was granted. */
  ghost predicate Holds(f: F.State, m: T.Member, claim: Id) {
    m.shipment in f.shipments && f.shipments[m.shipment].claim == Some(claim)
    && f.shipments[m.shipment].trip == Some(m.claimReq.trip)
  }

  /** An active row's claim is exactly the one its shipment holds for that trip, and the row carries
      the shipment's own weight and volume. */
  lemma ActiveIsHeld(steps: seq<Step>, w: World, k: Id, i: nat)
    requires Runs(START, steps, w) && k in w.trips && i < |w.trips[k].members|
    requires w.trips[k].members[i].state == T.Active
    ensures w.trips[k].members[i].claim.Some? && Holds(w.f, w.trips[k].members[i], w.trips[k].members[i].claim.value)
    ensures w.f.shipments[w.trips[k].members[i].shipment].trip == Some(k)
    ensures var sh := w.f.shipments[w.trips[k].members[i].shipment];
            w.trips[k].members[i].weight == sh.weight && w.trips[k].members[i].volume == sh.volume
  {
    hide Inv, FI.Inv, TripOk, L.ReleasedIn, Runs;
    ReachableInv(steps, w);
    TripOf(w, k);
    RowOf(w, k, i);
    PresentOf(w, k, i);
    HeldHere(w.f, w.trips[k].members[i], w.trips[k].members[i].claim.value);
    WeighedHere(w.f, F.Find(w.f.ledger, w.trips[k].members[i].claimReq.id).value);
  }

  lemma WeighedHere(f: F.State, r: F.Receipt)
    requires FI.Inv(f) && r in f.ledger
    ensures F.ShipmentOf(r) in f.shipments && FI.Weighed(f.shipments[F.ShipmentOf(r)], r)
  {
    hide FI.Rows, FI.Indexed, FI.IntentIdsUnique, FI.BatchesOk, FI.OrdersOk, FI.InboxOk, FI.LedgerOk;
  }

  /** The shipment still holds a claim that the row's own request was granted. */
  ghost predicate StillHeld(f: F.State, m: T.Member) {
    exists r :: r in f.ledger && r.Claimed? && r.claimReq == m.claimReq && Holds(f, m, r.claim)
  }

  lemma GrantIsFound(f: F.State, m: T.Member, r: F.Receipt)
    requires FI.Inv(f) && r in f.ledger && r.Claimed? && r.claimReq == m.claimReq
    ensures F.Find(f.ledger, m.claimReq.id) == Some(r)
  {
    hide FI.Inv, ResumesOk, FI.LedgerOk;
    LedgerOf(f);
    L.FindStable(f.ledger, r);
  }

  lemma HeldUnreleased(f: F.State, m: T.Member, r: F.Receipt)
    requires FI.Inv(f) && r in f.ledger && r.Claimed? && r.claimReq == m.claimReq && m.claimReq.shipment == m.shipment
    requires Holds(f, m, r.claim)
    ensures !L.ReleasedIn(f.ledger, r.claim)
  {
    hide FI.Rows, FI.Indexed, FI.IntentIdsUnique, FI.BatchesOk, FI.OrdersOk, FI.InboxOk, FI.LedgerOk;
    assert FI.LedgerOk(f.ledger);
    L.HeldOrReleased(f.ledger, r);
    assert FI.Holder(f.ledger, m.shipment) == FI.HeldBy(f.shipments[m.shipment]);
  }

  lemma FreeRow(f: F.State, t: T.Trip, i: nat)
    requires FI.Inv(f) && i < |t.members| && RowAgrees(f.ledger, t, i) && t.members[i].state == T.Released
    requires t.members[i].claimReq.shipment == t.members[i].shipment
    ensures !StillHeld(f, t.members[i])
  {
    hide FI.Inv, ResumesOk, L.ReleasedIn, Holds, F.Find;
    var m := t.members[i];
    forall r | r in f.ledger && r.Claimed? && r.claimReq == m.claimReq ensures !Holds(f, m, r.claim) {
      GrantIsFound(f, m, r);
      assert L.ReleasedIn(f.ledger, r.claim);
      if Holds(f, m, r.claim) { HeldUnreleased(f, m, r); assert false; }
    }
  }

  lemma LostRow(f: F.State, m: T.Member)
    requires FI.Inv(f) && Lost(f.ledger, m) && m.claimReq.shipment == m.shipment
    ensures StillHeld(f, m)
  {
    hide FI.Inv, ResumesOk, L.ReleasedIn;
    var r := F.Find(f.ledger, m.claimReq.id).value;
    HeldHere(f, m, r.claim);
    assert r in f.ledger && Holds(f, m, r.claim);
  }

  /** A released row's grant is still held exactly when it was dropped: when the operation had been
      compensated without the receipt. */
  lemma LeakIff(steps: seq<Step>, w: World, k: Id, i: nat)
    requires Runs(START, steps, w) && k in w.trips && i < |w.trips[k].members|
    requires w.trips[k].members[i].state == T.Released
    ensures StillHeld(w.f, w.trips[k].members[i]) <==> w.trips[k].members[i].claimReq.id in w.leaked
  {
    hide Inv, FI.Inv, TripOk, RowAgrees, StillHeld, Runs, Lost, Dated;
    ReachableInv(steps, w);
    StateOf(w);
    RowOf(w, k, i);
    if w.trips[k].members[i].claimReq.id in w.leaked {
      LostRow(w.f, w.trips[k].members[i]);
    } else {
      FreeRow(w.f, w.trips[k], i);
    }
  }

  /** What a step drops: the request whose grant a processor remembers when it compensates without
      the receipt. */
  function Drops(w: World, step: Step): set<Id>
    requires Enabled(w, step)
  {
    if step.Botch? && w.mem[step.trip].0 < |w.trips[step.trip].members|
    then {w.trips[step.trip].members[w.mem[step.trip].0].claimReq.id} else {}
  }

  lemma OthersDropNothing(w: World, step: Step)
    requires Enabled(w, step) && !step.Botch?
    ensures Apply(w, step).leaked == w.leaked
  {
    hide T.Guard, T.Do, F.Enabled, F.Apply, CanLocal, Registered, F.Claim, F.Release, F.Prepare, NewIds, Own,
      Announced, CanNotice, Alone, T.Bound, Complete, CanCallClaim, CanCallRelease, F.ClaimReply, F.ReleaseReply;
  }

  lemma DropsOnly(w: World, step: Step)
    requires Enabled(w, step)
    ensures Apply(w, step).leaked == w.leaked + Drops(w, step)
  {
    hide T.Guard, T.Do, NewIds, Registered;
    if !step.Botch? {
      hide Enabled, Apply;
      OthersDropNothing(w, step);
    }
  }

  /** Along every run exactly the dropped requests leak. */
  ghost function DroppedBy(w: World, steps: seq<Step>): set<Id>
    decreases |steps|
  {
    if steps == [] || !Enabled(w, steps[0]) then {} else Drops(w, steps[0]) + DroppedBy(Apply(w, steps[0]), steps[1..])
  }

  lemma {:induction false} LeaksAreDrops(w: World, steps: seq<Step>, w': World)
    requires Runs(w, steps, w')
    ensures w'.leaked == w.leaked + DroppedBy(w, steps)
    decreases |steps|
  {
    hide Enabled, Apply, Drops;
    if steps != [] {
      DropsOnly(w, steps[0]);
      LeaksAreDrops(Apply(w, steps[0]), steps[1..], w');
    }
  }

  lemma {:induction false} NoBotchNoDrop(w: World, steps: seq<Step>)
    requires forall i | 0 <= i < |steps| :: !steps[i].Botch?
    ensures DroppedBy(w, steps) == {}
    decreases |steps|
  {
    hide Enabled, Apply;
    if steps != [] && Enabled(w, steps[0]) { NoBotchNoDrop(Apply(w, steps[0]), steps[1..]); }
  }

  /** No claim leaks as long as every granted reply passes the schema: once a row has been released,
      nothing its request was granted is still held. */
  lemma ReleasedIsFree(steps: seq<Step>, w: World, k: Id, i: nat)
    requires Runs(START, steps, w) && k in w.trips && i < |w.trips[k].members|
    requires w.trips[k].members[i].state == T.Released
    requires forall n | 0 <= n < |steps| :: !steps[n].Botch?
    ensures !StillHeld(w.f, w.trips[k].members[i])
  {
    hide Runs, StillHeld;
    LeaksAreDrops(START, steps, w);
    NoBotchNoDrop(START, steps);
    LeakIff(steps, w, k, i);
  }

  lemma DoubtfulRow(f: F.State, t: T.Trip, i: nat)
    requires FI.Inv(f) && i < |t.members| && RowAgrees(f.ledger, t, i) && t.members[i].state == T.ClaimPending
    ensures StillHeld(f, t.members[i]) ==> T.IsFirst(t, i, T.ClaimPending)
  {
    hide FI.Inv, ResumesOk, L.ReleasedIn, T.IsFirst, Holds, F.Find;
    var m := t.members[i];
    if StillHeld(f, m) {
      var r :| r in f.ledger && r.Claimed? && r.claimReq == m.claimReq && Holds(f, m, r.claim);
      GrantIsFound(f, m, r);
    }
  }

  /** Of the rows waiting for a claim only the first may have been granted one without knowing. */
  lemma OnlyFirstInDoubt(steps: seq<Step>, w: World, k: Id, i: nat)
    requires Runs(START, steps, w) && k in w.trips && i < |w.trips[k].members|
    requires w.trips[k].members[i].state == T.ClaimPending
    ensures StillHeld(w.f, w.trips[k].members[i]) ==> T.IsFirst(w.trips[k], i, T.ClaimPending)
  {
    hide Inv, FI.Inv, TripOk, RowAgrees, StillHeld, Runs, T.IsFirst;
    ReachableInv(steps, w);
    StateOf(w);
    PresentOf(w, k, i);
    DoubtfulRow(w.f, w.trips[k], i);
  }

  lemma HeldRowPresent(f: F.State, leaked: set<Id>, t: T.Trip, i: nat, r: F.Receipt)
    requires FI.Inv(f) && i < |t.members| && RowTold(f.ledger, leaked, t, i)
    requires t.members[i].claimReq.shipment == t.members[i].shipment
    requires r in f.ledger && r.Claimed? && r.claimReq == t.members[i].claimReq && Holds(f, t.members[i], r.claim)
    ensures (T.Present(t.members[i]) || t.members[i].claimReq.id in leaked)
    ensures GrantedAs(f.ledger, t.members[i], r.claim)
  {
    hide FI.Inv, ResumesOk, L.ReleasedIn, T.IsFirst, Holds, F.Find, Lost;
    GrantIsFound(f, t.members[i], r);
    HeldUnreleased(f, t.members[i], r);
  }

  /** No phantom claims: every claim a shipment holds was granted to a row of its trip that is still
      there, or whose grant was dropped. */
  lemma HeldHasRow(steps: seq<Step>, w: World, x: Id) returns (i: nat)
    requires Runs(START, steps, w) && x in w.f.shipments && w.f.shipments[x].claim.Some?
    ensures w.f.shipments[x].trip.Some? && w.f.shipments[x].trip.value in w.trips
    ensures var t := w.trips[w.f.shipments[x].trip.value];
            i < |t.members| && t.members[i].shipment == x
            && (T.Present(t.members[i]) || t.members[i].claimReq.id in w.leaked)
            && GrantedAs(w.f.ledger, t.members[i], w.f.shipments[x].claim.value)
  {
    hide Inv, FI.Inv, TripOk, RowTold, Runs, GrantedAs, Dated;
    ReachableInv(steps, w);
    StateOf(w);
    var r := HolderReceipt(w.f, x);
    var slot := OwnerRow(w, r);
    RowOf(w, slot.trip, slot.row);
    i := slot.row;
    HeldRowPresent(w.f, w.leaked, w.trips[slot.trip], i, r);
  }

  lemma StateOf(w: World)
    requires Inv(w)
    ensures FI.Inv(w.f)
  {
    hide FI.Inv, ResumesOk, TripsOk, LedgerOwned, BatchesKnown, IdsOwned, MemoriesOk;
  }

  lemma {:induction false} LastHolder(ledger: seq<F.Receipt>, x: Id) returns (r: F.Receipt)
    requires FI.Holder(ledger, x).Some?
    ensures r in ledger && r.Claimed? && r.claimReq.shipment == x
    ensures FI.Holder(ledger, x) == Some((r.claim, r.claimReq.trip))
  {
    var n := |ledger| - 1;
    if F.ShipmentOf(ledger[n]) == x { r := ledger[n]; } else { r := LastHolder(ledger[..n], x); }
  }

  lemma HolderReceipt(f: F.State, x: Id) returns (r: F.Receipt)
    requires FI.Inv(f) && x in f.shipments && f.shipments[x].claim.Some?
    ensures r in f.ledger && r.Claimed? && r.claimReq.shipment == x
    ensures f.shipments[x].claim == Some(r.claim) && f.shipments[x].trip == Some(r.claimReq.trip)
  {
    hide FI.Indexed, FI.IntentIdsUnique, FI.BatchesOk, FI.OrdersOk, FI.InboxOk, FI.LedgerOk, HistoryOk;
    FI.RowAt(f, x);
    assert FI.Holder(f.ledger, x) == FI.HeldBy(f.shipments[x]);
    r := LastHolder(f.ledger, x);
  }

  lemma OwnerRow(w: World, r: F.Receipt) returns (slot: Slot)
    requires Inv(w) && r in w.f.ledger && r.Claimed?
    ensures slot.trip in w.trips && slot.row < |w.trips[slot.trip].members|
    ensures w.trips[slot.trip].members[slot.row].claimReq == r.claimReq
    ensures slot.trip == r.claimReq.trip
  {
    hide FI.Inv, ResumesOk, TripsOk, BatchesKnown, IdsOwned, MemoriesOk;
    assert Owned(w.trips, w.requests, r);
    slot := w.requests[F.RequestId(r)];
    RowOf(w, slot.trip, slot.row);
  }

  /** No shipment is active on two trips, nor twice on one. */
  lemma ActiveOnce(steps: seq<Step>, w: World, k: Id, i: nat, l: Id, j: nat)
    requires Runs(START, steps, w) && k in w.trips && i < |w.trips[k].members| && l in w.trips
    requires j < |w.trips[l].members|
    requires w.trips[k].members[i].state == T.Active && w.trips[l].members[j].state == T.Active
    requires w.trips[k].members[i].shipment == w.trips[l].members[j].shipment
    ensures k == l && i == j
  {
    hide Inv, FI.Inv, TripOk, L.ReleasedIn, RowKnown, Runs, FI.LedgerOk;
    ReachableInv(steps, w);
    ActiveIsHeld(steps, w, k, i);
    ActiveIsHeld(steps, w, l, j);
    StateOf(w);
    RowOf(w, k, i);
    RowOf(w, l, j);
    PresentOf(w, k, i);
    PresentOf(w, l, j);
    LedgerOf(w.f);
    SameGrant(w.f.ledger, w.requests, w.trips[k].members[i], k, i, w.trips[l].members[j], l, j);
  }

  // ----- Along a run -----

  /** The fulfillment transaction a step carries out, if any. */
  function FulfillmentWrite(w: World, step: Step): Option<F.Step>
    requires Enabled(w, step)
  {
    hide T.Guard, F.Enabled, T.Adding, T.Releasing, Elsewhere, NewIds, CanLocal, Complete, Own;
    match step
    case CallClaim(k, i, newId, _) => Some(F.DoClaim(w.trips[k].members[i].claimReq, newId))
    case CallRelease(k, i, _) => Some(F.DoRelease(w.trips[k].members[i].releaseReq.value))
    case Fulfil(s) => Some(s)
    case Send(r) => Some(F.DoPrepare(RowHeld(w, r).request))
    case _ => None
  }

  ghost predicate Carried(f: F.State, write: Option<F.Step>, f': F.State) {
    match write
    case Some(s) => F.Enabled(f, s) && f' == F.Apply(f, s)
    case None => f' == f
  }

  lemma CallsCarry(w: World, step: Step)
    requires Enabled(w, step) && (step.CallClaim? || step.CallRelease?)
    ensures Carried(w.f, FulfillmentWrite(w, step), Apply(w, step).f)
  {
    hide T.Adding, T.Releasing, T.IsFirst, F.FreshClaim, F.Claim, F.Release, F.ClaimReply, F.ReleaseReply;
  }

  lemma SendsCarry(w: World, step: Step)
    requires Enabled(w, step) && (step.Fulfil? || step.Send?)
    ensures Carried(w.f, FulfillmentWrite(w, step), Apply(w, step).f)
  {
    if step.Fulfil? { hide F.Enabled, F.Apply, Own, Unreserved; }
    hide F.Prepare, F.FreshIntent, F.DistinctItems;
  }

  lemma OthersCarry(w: World, step: Step)
    requires Enabled(w, step) && !step.CallClaim? && !step.CallRelease? && !step.Fulfil? && !step.Send?
    ensures Carried(w.f, FulfillmentWrite(w, step), Apply(w, step).f)
  {
    hide T.Guard, T.Do, CanLocal, Registered, NewIds, Announced, CanNotice, Complete, T.Bound, Alone, F.Enabled,
      F.Apply, F.Claim, F.Release, F.Prepare;
  }

  /** A step carries out at most one fulfillment transaction. */
  lemma FulfillmentWrites(w: World, step: Step)
    requires Enabled(w, step)
    ensures Carried(w.f, FulfillmentWrite(w, step), Apply(w, step).f)
  {
    hide Enabled, Apply, Carried, FulfillmentWrite;
    if step.CallClaim? || step.CallRelease? {
      CallsCarry(w, step);
    } else if step.Fulfil? || step.Send? {
      SendsCarry(w, step);
    } else {
      OthersCarry(w, step);
    }
  }

  /** Fulfillment's tables move forward at every step, whatever transport's rows say. */
  lemma FulfillmentKept(w: World, step: Step)
    requires FI.Inv(w.f) && Enabled(w, step)
    ensures FI.Inv(Apply(w, step).f) && FP.Onward(w.f, Apply(w, step).f)
  {
    hide FI.Inv, FP.Onward, Enabled, Apply, F.Enabled, F.Apply;
    FulfillmentWrites(w, step);
    if FulfillmentWrite(w, step).Some? {
      FR.StepKeeps(w.f, FulfillmentWrite(w, step).value);
      FP.StepOnward(w.f, FulfillmentWrite(w, step).value);
    } else {
      FP.OnwardSelf(w.f);
    }
  }

  ghost predicate HasRow(w: World, k: Id, i: nat, m: T.Member) {
    k in w.trips && i < |w.trips[k].members| && w.trips[k].members[i] == m
  }

  lemma LockedByWaiting(t: T.Trip, i: nat)
    requires TI.Inv(t) && i < |t.members| && t.members[i].state == T.ReleasePending
    ensures t.lock.Some? && !T.Adding(t)
  {
    hide TI.Inv;
    MembersOf(t);
    assert TI.MemberOk(t.id, t.lock, t.ops, t.status, t.stops, t.members[i]);
  }

  /** A row that has left, or waits for its release, is left alone by every trip transaction but the
      one that stores that release. */
  lemma SettledRowKept(t: T.Trip, step: T.TripStep, i: nat)
    requires TI.Inv(t) && T.Guard(t, step) && i < |t.members| && t.members[i].state in {T.Released, T.ReleasePending}
    requires step != T.DoPersistRelease(i)
    ensures i < |T.Do(t, step).members| && T.Do(t, step).members[i] == t.members[i]
  {
    if t.members[i].state == T.ReleasePending { LockedByWaiting(t, i); }
    hide TI.Inv, T.NoneLeft, T.InputReady, T.CanSelect, T.Permutation, T.IsNext, T.Places, T.Results, T.ActiveWeight,
      T.ActiveVolume;
    hide T.Arrive, T.Gone, T.Picked;
    if Quiet(step) { QuietShape(t, step, T.Do(t, step)); }
  }

  lemma TripRowKept(w: World, k: Id, i: nat, m: T.Member, l: Id, step: T.TripStep, w': World)
    requires Inv(w) && HasRow(w, k, i, m) && m.state in {T.Released, T.ReleasePending}
    requires l in w.trips && T.Guard(w.trips[l], step) && (l == k ==> step != T.DoPersistRelease(i))
    requires w'.trips == w.trips[T.Do(w.trips[l], step).id := T.Do(w.trips[l], step)]
    ensures HasRow(w', k, i, m)
  {
    hide Inv, FI.Inv, Known, Agrees, GoneAll, DatedAll, TripBatches, TI.Inv, T.Guard, T.Do;
    TripOf(w, l);
    TI.DoKeepsId(w.trips[l], step);
    if l == k { SettledRowKept(w.trips[k], step, i); }
  }

  /** The trip transaction a step carries out, if any. */
  function TripWrite(w: World, step: Step): Option<(Id, T.TripStep)>
    requires Enabled(w, step)
  {
    hide T.Guard, F.Enabled, T.Adding, T.Releasing, Elsewhere, NewIds, CanLocal, Complete, Own;
    match step
    case Local(k, s) => Some((k, s))
    case Notice(k, i, entry, request) =>
      Some((k, T.DoConsume(i, w.f.shipments[w.trips[k].members[i].shipment].history[entry].version, request)))
    case KeepClaim(k) => Some((k, T.DoPersistClaim(w.mem[k].0, w.mem[k].1.value)))
    case KeepMismatch(k, newIds) => Some((k, T.DoCompensate(Some((w.mem[k].0, w.mem[k].1.value)), newIds)))
    case KeepRefusal(k, newIds) => Some((k, T.DoCompensate(None, newIds)))
    case Botch(k, newIds) => Some((k, T.DoCompensate(None, newIds)))
    case KeepRelease(k) => Some((k, T.DoPersistRelease(w.mem[k].0)))
    case Clear(r) =>
      if RowHeld(w, r).stage == T.Accepted then Some((w.flights[r].trip, T.DoSubmit(w.flights[r].d))) else None
    case Receive(r) => Some((w.flights[r].trip, T.DoReceipt(w.flights[r].d, Granted(w, RowHeld(w, r).request))))
    case Reject(r) => Some((w.flights[r].trip, T.DoRejectEarly(w.flights[r].d)))
    case _ => None
  }

  /** The trips after a step that carries out this transaction. */
  ghost predicate Wrote(w: World, write: Option<(Id, T.TripStep)>, step: Step, trips': map<Id, T.Trip>) {
    match write
    case Some((k, s)) =>
      k in w.trips && T.Guard(w.trips[k], s) && trips' == w.trips[T.Do(w.trips[k], s).id := T.Do(w.trips[k], s)]
      && !step.Create?
    case None =>
      if step.Create?
      then step.trip !in w.trips && trips' == w.trips[step.trip := T.NewTrip(step.trip, step.assignment)]
      else trips' == w.trips
  }

  lemma StoreWrites(w: World, step: Step)
    requires Enabled(w, step)
    requires step.KeepClaim? || step.KeepMismatch? || step.KeepRefusal? || step.KeepRelease? || step.Botch?
    ensures Wrote(w, TripWrite(w, step), step, Apply(w, step).trips)
  {
    hide T.Do, T.Guard, NewIds, Stored, Botched;
    match step
    case KeepClaim(k) => StoredTrips(w, T.Do(w.trips[k], T.DoPersistClaim(w.mem[k].0, w.mem[k].1.value)));
    case KeepMismatch(k, newIds) =>
      StoredTrips(w, T.Do(w.trips[k], T.DoCompensate(Some((w.mem[k].0, w.mem[k].1.value)), newIds)));
    case KeepRefusal(k, newIds) => StoredTrips(w, T.Do(w.trips[k], T.DoCompensate(None, newIds)));
    case KeepRelease(k) => StoredTrips(w, T.Do(w.trips[k], T.DoPersistRelease(w.mem[k].0)));
    case Botch(k, newIds) => BotchWrites(w, k, newIds);
  }

  lemma ResumeWrites(w: World, step: Step)
    requires Enabled(w, step) && (step.Clear? || step.Receive? || step.Reject?)
    ensures Wrote(w, TripWrite(w, step), step, Apply(w, step).trips)
  {
    hide T.Do, T.Guard, Complete, Alone, T.Bound, Put, Passed, Rejected;
    match step
    case Clear(r) => ClearWrites(w, r);
    case Reject(r) => RejectWrites(w, r);
    case Receive(r) =>
      PutShape(w, T.Do(TripHeld(w, r), T.DoReceipt(w.flights[r].d, Granted(w, RowHeld(w, r).request))));
  }

  lemma CallWrites(w: World, step: Step)
    requires Enabled(w, step) && (step.CallClaim? || step.CallRelease? || step.Notice? || step.Local?)
    ensures Wrote(w, TripWrite(w, step), step, Apply(w, step).trips)
  {
    hide T.Do, T.Guard, Put, Noticed, ClaimCalled, ReleaseCalled, CanNotice, CanLocal, CanCallClaim, CanCallRelease;
    match step
    case Notice(k, i, entry, request) => NoticeWrites(w, k, i, entry, request);
    case CallClaim(k, i, newId, replied) => ClaimWrites(w, k, i, newId, replied);
    case CallRelease(k, i, replied) => ReleaseWrites(w, k, i, replied);
    case Local(k, s) => LocalGuard(w, k, s); PutShape(w, T.Do(w.trips[k], s));
  }

  lemma NoWrites(w: World, step: Step)
    requires Enabled(w, step)
    requires step.Create? || step.Miss? || step.Crash? || step.Fulfil? || step.Resume? || step.Send? || step.Drop?
    ensures Wrote(w, TripWrite(w, step), step, Apply(w, step).trips)
  {
    hide F.Enabled, F.Apply, F.Prepare, Own, Unreserved, Announced;
  }

  /** A step changes at most one trip, by one of its transactions, or creates one. */
  lemma TripWrites(w: World, step: Step)
    requires Enabled(w, step)
    ensures Wrote(w, TripWrite(w, step), step, Apply(w, step).trips)
  {
    hide Enabled, Apply, Wrote, TripWrite;
    if step.KeepClaim? || step.KeepMismatch? || step.KeepRefusal? || step.KeepRelease? || step.Botch? {
      StoreWrites(w, step);
    } else if step.Clear? || step.Receive? || step.Reject? {
      ResumeWrites(w, step);
    } else if step.CallClaim? || step.CallRelease? || step.Notice? || step.Local? {
      CallWrites(w, step);
    } else {
      NoWrites(w, step);
    }
  }

  lemma StoredTrips(w: World, t: T.Trip)
    ensures Stored(w, t).trips == w.trips[t.id := t]
  {
  }

  lemma LocalGuard(w: World, k: Id, s: T.TripStep)
    requires k in w.trips && CanLocal(w, k, s)
    ensures T.Guard(w.trips[k], s)
  {
    hide T.Guard;
  }

  lemma ClearWrites(w: World, r: Id)
    requires InFlight(w, r) && T.Bound(TripHeld(w, r), RowHeld(w, r).request)
    ensures if RowHeld(w, r).stage != T.Accepted then Passed(w, r).trips == w.trips
            else
              var t, s := TripHeld(w, r), T.DoSubmit(w.flights[r].d);
              T.Guard(t, s) && Passed(w, r).trips == w.trips[T.Do(t, s).id := T.Do(t, s)]
  {
  }

  lemma RejectWrites(w: World, r: Id)
    requires InFlight(w, r) && RowHeld(w, r).stage == T.Accepted
    ensures var t, s := TripHeld(w, r), T.DoRejectEarly(w.flights[r].d);
            T.Guard(t, s) && Rejected(w, r).trips == w.trips[T.Do(t, s).id := T.Do(t, s)]
  {
  }

  lemma NoticeWrites(w: World, k: Id, i: nat, entry: nat, request: Id)
    requires k in w.trips && CanNotice(w, k, i, entry, request)
    ensures var t := w.trips[k];
            var s := T.DoConsume(i, w.f.shipments[t.members[i].shipment].history[entry].version, request);
            T.Guard(t, s) && Noticed(w, k, i, entry, request).trips == w.trips[T.Do(t, s).id := T.Do(t, s)]
  {
  }

  lemma BotchWrites(w: World, k: Id, newIds: seq<Id>)
    requires HasClaim(w, k) && T.Guard(w.trips[k], T.DoCompensate(None, newIds))
    ensures var t' := T.Do(w.trips[k], T.DoCompensate(None, newIds));
            Botched(w, k, newIds).trips == w.trips[t'.id := t']
  {
    hide T.Guard, T.Do;
  }

  lemma ClaimWrites(w: World, k: Id, i: nat, newId: Id, replied: bool)
    requires k in w.trips && CanCallClaim(w, k, i, newId)
    ensures i < |w.trips[k].members| && ClaimCalled(w, k, i, newId, replied).trips == w.trips
  {
    hide F.Claim, F.ClaimReply;
  }

  lemma ReleaseWrites(w: World, k: Id, i: nat, replied: bool)
    requires k in w.trips && CanCallRelease(w, k, i)
    ensures i < |w.trips[k].members| && w.trips[k].members[i].releaseReq.Some?
    ensures ReleaseCalled(w, k, i, replied).trips == w.trips
  {
    hide F.Release, F.ReleaseReply;
  }

  lemma ReleaseFrom(w: World, step: Step)
    requires Enabled(w, step) && TripWrite(w, step).Some? && TripWrite(w, step).value.1.DoPersistRelease?
    ensures step == KeepRelease(TripWrite(w, step).value.0) && step.trip in w.mem
    ensures w.mem[step.trip].0 == TripWrite(w, step).value.1.i
  {
    hide T.Guard, F.Enabled, T.Adding, T.Releasing, Elsewhere, NewIds, Complete, Own;
  }

  /** The same along every step of the two services. */
  lemma RowKept(w: World, step: Step, k: Id, i: nat, m: T.Member)
    requires Inv(w) && Enabled(w, step) && HasRow(w, k, i, m) && m.state in {T.Released, T.ReleasePending}
    requires !(step == KeepRelease(k) && k in w.mem && w.mem[k].0 == i)
    ensures HasRow(Apply(w, step), k, i, m)
  {
    hide Inv, Enabled, Apply, T.Guard, T.Do;
    TripWrites(w, step);
    if TripWrite(w, step).Some? {
      var (l, s) := TripWrite(w, step).value;
      if s.DoPersistRelease? { ReleaseFrom(w, step); }
      TripRowKept(w, k, i, m, l, s, Apply(w, step));
    }
  }

  /** A dropped grant is never recovered: in every later state the row is released as it was and its
      shipment still held. */
  lemma {:induction false} LeakStays(w: World, steps: seq<Step>, w': World, k: Id, i: nat, m: T.Member)
    requires Inv(w) && Runs(w, steps, w') && HasRow(w, k, i, m) && m.state == T.Released && m.claimReq.id in w.leaked
    ensures HasRow(w', k, i, m) && m.claimReq.id in w'.leaked && StillHeld(w'.f, m)
    decreases |steps|
  {
    hide Inv, Enabled, Apply, StillHeld, Drops;
    if steps == [] {
      hide FI.Inv, ResumesOk, RowAgrees, Lost, Dated;
      StateOf(w);
      RowOf(w, k, i);
      LostRow(w.f, m);
    } else {
      ReleasedNotStored(w, steps[0], k, i, m);
      DropsOnly(w, steps[0]);
      RowKept(w, steps[0], k, i, m);
      StepKeeps(w, steps[0]);
      LeakStays(Apply(w, steps[0]), steps[1..], w', k, i, m);
    }
  }

  lemma ReleasedNotStored(w: World, step: Step, k: Id, i: nat, m: T.Member)
    requires Inv(w) && Enabled(w, step) && HasRow(w, k, i, m) && m.state == T.Released
    ensures !(step == KeepRelease(k) && k in w.mem && w.mem[k].0 == i)
  {
    hide Inv;
  }
}
