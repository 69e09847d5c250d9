/** Versions and actors across the two services: what a row's version says of its shipment, and in plain
    terms which releases and dispatches fulfillment accepts. */
module WorldVersions {
  import opened Shipments
  import F = Fulfillment
  import FI = FulfillmentInvariant
  import L = ClaimLedger
  import CV = ClaimVersions
  import T = Trips
  import TI = TripInvariant
  import TO = TripOutcomes
  import TR = TripRequests
  import opened World
  import opened WorldInvariant
  import opened WorldSteps
  import opened WorldCalls
  import opened WorldTheorems
  import opened WorldDispatch
  import opened WorldReleases

  // ----- What holds in every reachable state -----

  /** The row still counts on the version its claim was given. */
  ghost predicate Counts(ops: seq<T.Op>, m: T.Member) {
    m.state == T.Active || (m.state == T.ReleasePending && m.op < |ops| && ops[m.op].kind != T.ShipmentGone)
  }

  ghost predicate AsGranted(ledger: seq<F.Receipt>, m: T.Member) {
    var r := F.Find(ledger, m.claimReq.id);
    r.Some? && r.value.Claimed? && r.value.version == m.version
  }

  ghost predicate RowsGranted(ledger: seq<F.Receipt>, t: T.Trip) {
    forall i | 0 <= i < |t.members| && Counts(t.ops, t.members[i]) :: AsGranted(ledger, t.members[i])
  }

  ghost predicate Versioned(w: World) {
    && CV.AllAged(w.f.shipments, w.f.ledger)
    && (forall k | k in w.trips :: TR.AllNamed(w.trips[k]) && RowsGranted(w.f.ledger, w.trips[k]))
  }

  lemma FindKept(a: seq<F.Receipt>, b: seq<F.Receipt>, m: T.Member)
    requires FI.LedgerOk(b) && a <= b && AsGranted(a, m)
    ensures AsGranted(b, m)
  {
    hide FI.LedgerOk;
    var r := F.Find(a, m.claimReq.id).value;
    assert r in b by {
      var i :| 0 <= i < |a| && a[i] == r;
      assert b[i] == r;
    }
    L.FindStable(b, r);
  }

  lemma LedgerLater(a: seq<F.Receipt>, b: seq<F.Receipt>, t: T.Trip)
    requires FI.LedgerOk(b) && a <= b && RowsGranted(a, t)
    ensures RowsGranted(b, t)
  {
    hide FI.LedgerOk, AsGranted, Counts;
    forall i | 0 <= i < |t.members| && Counts(t.ops, t.members[i]) ensures AsGranted(b, t.members[i]) {
      FindKept(a, b, t.members[i]);
    }
  }

  /** A receipt a trip transaction stores is the one its row's request was granted. */
  ghost predicate Stores(ledger: seq<F.Receipt>, t: T.Trip, step: T.TripStep) {
    && (step.DoPersistClaim? && step.i < |t.members| ==>
          F.Find(ledger, t.members[step.i].claimReq.id) == Some(step.receipt))
    && (step.DoCompensate? && step.invalid.Some? && step.invalid.value.0 < |t.members| ==>
          F.Find(ledger, t.members[step.invalid.value.0].claimReq.id) == Some(step.invalid.value.1))
  }

  /** A row that counts afterwards did before and kept its version, or was given its grant's. */
  lemma RowGranted(ledger: seq<F.Receipt>, t: T.Trip, step: T.TripStep, t': T.Trip, i: nat)
    requires TI.Inv(t) && T.Guard(t, step) && t' == T.Do(t, step) && RowsGranted(ledger, t) && Stores(ledger, t, step)
    requires i < |t'.members| && Counts(t'.ops, t'.members[i])
    ensures AsGranted(ledger, t'.members[i])
  {
    hide TI.Inv, TO.Counted, AsGranted, T.Guard, T.Do, Stores;
    if step.DoAdd? { AddGranted(ledger, t, step, t', i); }
    else if step.DoRemove? || step.DoCancel? { LeaveGranted(ledger, t, step, t', i); }
    else if step.DoConsume? { ConsumeGranted(ledger, t, step, t', i); }
    else if step.DoPersistClaim? { ClaimGranted(ledger, t, step, t', i); }
    else if step.DoCompensate? { CompensateGranted(ledger, t, step, t', i); }
    else if step.DoPersistRelease? { ReleaseGranted(ledger, t, step, t', i); }
    else if step.DoFinalize? { FinalizeGranted(ledger, t, step, t', i); }
    else { TR.QuietRows(t, step); }
  }

  lemma AddGranted(ledger: seq<F.Receipt>, t: T.Trip, step: T.TripStep, t': T.Trip, i: nat)
    requires TI.Inv(t) && step.DoAdd? && T.Guard(t, step) && t' == T.Do(t, step) && RowsGranted(ledger, t)
    requires i < |t'.members| && Counts(t'.ops, t'.members[i])
    ensures AsGranted(ledger, t'.members[i])
  {
    assert i < |t.members| ==> t.members[i].state in {T.Active, T.Released} by { hide TI.Inv; TR.Unlocked(t); }
    hide AsGranted, TI.Inv;
    assert i < |t.members| && t'.members[i] == t.members[i];
  }

  lemma LeaveGranted(ledger: seq<F.Receipt>, t: T.Trip, step: T.TripStep, t': T.Trip, i: nat)
    requires TI.Inv(t) && (step.DoRemove? || step.DoCancel?) && T.Guard(t, step) && t' == T.Do(t, step)
    requires RowsGranted(ledger, t) && i < |t'.members| && Counts(t'.ops, t'.members[i])
    ensures AsGranted(ledger, t'.members[i])
  {
    assert i < |t.members| ==> t.members[i].state in {T.Active, T.Released} by { LeaveUnlocked(t, step, i); }
    hide TI.Inv, T.CanRemove, T.CanCancel, T.Picked, T.PresentShipments;
  }

  lemma LeaveUnlocked(t: T.Trip, step: T.TripStep, i: nat)
    requires TI.Inv(t) && (step.DoRemove? || step.DoCancel?) && T.Guard(t, step) && i < |t.members|
    ensures t.members[i].state in {T.Active, T.Released}
  {
    hide TI.Inv;
    TR.Unlocked(t);
  }

  lemma ConsumeGranted(ledger: seq<F.Receipt>, t: T.Trip, step: T.TripStep, t': T.Trip, i: nat)
    requires TI.Inv(t) && step.DoConsume? && T.Guard(t, step) && t' == T.Do(t, step)
    requires RowsGranted(ledger, t) && i < |t'.members| && Counts(t'.ops, t'.members[i])
    ensures AsGranted(ledger, t'.members[i])
  {
    assert i < |t.members| ==> t.members[i].state in {T.Active, T.Released} by { hide TI.Inv; TR.Unlocked(t); }
    hide TI.Inv, T.ActiveWeight, T.ActiveVolume, T.Unstop, T.Cleared;
  }

  lemma ClaimGranted(ledger: seq<F.Receipt>, t: T.Trip, step: T.TripStep, t': T.Trip, i: nat)
    requires step.DoPersistClaim? && T.Guard(t, step) && t' == T.Do(t, step) && Stores(ledger, t, step)
    requires RowsGranted(ledger, t) && i < |t'.members| && Counts(t'.ops, t'.members[i])
    ensures AsGranted(ledger, t'.members[i])
  {
    hide T.ActiveWeight, T.ActiveVolume, T.Arrive;
  }

  lemma CompensateGranted(ledger: seq<F.Receipt>, t: T.Trip, step: T.TripStep, t': T.Trip, i: nat)
    requires step.DoCompensate? && T.Guard(t, step) && t' == T.Do(t, step) && Stores(ledger, t, step)
    requires RowsGranted(ledger, t) && i < |t'.members| && Counts(t'.ops, t'.members[i])
    ensures AsGranted(ledger, t'.members[i])
  {
  }

  lemma ReleaseGranted(ledger: seq<F.Receipt>, t: T.Trip, step: T.TripStep, t': T.Trip, i: nat)
    requires step.DoPersistRelease? && T.Guard(t, step) && t' == T.Do(t, step)
    requires RowsGranted(ledger, t) && i < |t'.members| && Counts(t'.ops, t'.members[i])
    ensures AsGranted(ledger, t'.members[i])
  {
    hide T.ActiveWeight, T.ActiveVolume, T.Gone;
  }

  lemma FinalizeGranted(ledger: seq<F.Receipt>, t: T.Trip, step: T.TripStep, t': T.Trip, i: nat)
    requires step.DoFinalize? && T.Guard(t, step) && t' == T.Do(t, step)
    requires RowsGranted(ledger, t) && i < |t'.members| && Counts(t'.ops, t'.members[i])
    ensures AsGranted(ledger, t'.members[i])
  {
    hide T.ActiveWeight, T.ActiveVolume, T.Results, T.NoneLeft;
  }

  // ----- Along every run -----

  lemma StoresMemo(w: World, step: Step)
    requires Inv(w) && Enabled(w, step) && TripWrite(w, step).Some?
    ensures var (k, s) := TripWrite(w, step).value; k in w.trips && Stores(w.f.ledger, w.trips[k], s)
  {
    if step.KeepClaim? {
      KeptMemo(w, step);
    } else if step.KeepMismatch? {
      KeptMemo(w, step);
    } else {
      hide Inv;
      OtherStores(w, step);
    }
  }

  lemma KeptMemo(w: World, step: Step)
    requires Inv(w) && Enabled(w, step) && (step.KeepClaim? || step.KeepMismatch?)
    ensures var (k, s) := TripWrite(w, step).value; k in w.trips && Stores(w.f.ledger, w.trips[k], s)
  {
    hide Inv, T.Guard, L.ReleasedIn, T.IsFirst, NewIds;
    MemoOf(w, step.trip);
  }

  lemma OtherStores(w: World, step: Step)
    requires Enabled(w, step) && TripWrite(w, step).Some? && !step.KeepClaim? && !step.KeepMismatch?
    ensures var (k, s) := TripWrite(w, step).value; k in w.trips && Stores(w.f.ledger, w.trips[k], s)
  {
    hide T.Guard, F.Enabled, T.Adding, T.Releasing, Elsewhere, NewIds, Complete, Own, Announced, NewIntents;
  }

  lemma TripVersioned(w: World, t': T.Trip, s: T.TripStep, k: Id)
    requires Inv(w) && k in w.trips && T.Guard(w.trips[k], s) && t' == T.Do(w.trips[k], s)
    requires TR.AllNamed(w.trips[k]) && RowsGranted(w.f.ledger, w.trips[k]) && Stores(w.f.ledger, w.trips[k], s)
    ensures TR.AllNamed(t') && RowsGranted(w.f.ledger, t') && t'.id == k
  {
    hide Inv, FI.Inv, TI.Inv, Known, Agrees, GoneAll, DatedAll, TripBatches, T.Guard, T.Do, TR.AllNamed, Stores,
      RowsGranted, AsGranted, Counts;
    TripOf(w, k);
    TR.StepNames(w.trips[k], s);
    TI.DoKeepsId(w.trips[k], s);
    forall i | 0 <= i < |t'.members| && Counts(t'.ops, t'.members[i]) ensures AsGranted(w.f.ledger, t'.members[i]) {
      RowGranted(w.f.ledger, w.trips[k], s, t', i);
    }
    AllGranted(w.f.ledger, t');
  }

  lemma AllGranted(ledger: seq<F.Receipt>, t: T.Trip)
    requires forall i | 0 <= i < |t.members| && Counts(t.ops, t.members[i]) :: AsGranted(ledger, t.members[i])
    ensures RowsGranted(ledger, t)
  {
  }

  lemma NewTripVersioned(ledger: seq<F.Receipt>, k: Id, assignment: Option<Id>)
    ensures TR.AllNamed(T.NewTrip(k, assignment)) && RowsGranted(ledger, T.NewTrip(k, assignment))
  {
  }

  lemma AgedStep(w: World, step: Step)
    requires Inv(w) && Enabled(w, step) && CV.AllAged(w.f.shipments, w.f.ledger)
    ensures CV.AllAged(Apply(w, step).f.shipments, Apply(w, step).f.ledger)
    ensures w.f.ledger <= Apply(w, step).f.ledger && FI.LedgerOk(Apply(w, step).f.ledger)
  {
    hide Inv, FI.Inv, Enabled, Apply, F.Enabled, F.Apply, CV.AllAged, FI.LedgerOk;
    StateOf(w);
    FulfillmentWrites(w, step);
    FulfillmentKept(w, step);
    LedgerOnward(w.f, Apply(w, step).f);
    LedgerOf(Apply(w, step).f);
    if FulfillmentWrite(w, step).Some? { CV.StepAges(w.f, FulfillmentWrite(w, step).value); }
  }

  lemma VersionedStep(w: World, step: Step)
    requires Inv(w) && Enabled(w, step) && Versioned(w)
    ensures Versioned(Apply(w, step))
  {
    hide Inv, FI.LedgerOk, Enabled, Apply, T.Guard, T.Do, CV.AllAged, TR.AllNamed, RowsGranted, Stores, TripWrite;
    var w' := Apply(w, step);
    AgedStep(w, step);
    TripWrites(w, step);
    if TripWrite(w, step).Some? {
      var (k, s) := TripWrite(w, step).value;
      StoresMemo(w, step);
      TripVersioned(w, T.Do(w.trips[k], s), s, k);
    }
    forall k | k in w'.trips ensures TR.AllNamed(w'.trips[k]) && RowsGranted(w'.f.ledger, w'.trips[k]) {
      if step.Create? { NewTripVersioned(w.f.ledger, step.trip, step.assignment); }
      LedgerLater(w.f.ledger, w'.f.ledger, w'.trips[k]);
    }
  }

  lemma {:induction false} VersionedRun(w: World, steps: seq<Step>, w': World)
    requires Inv(w) && Versioned(w) && Runs(w, steps, w')
    ensures Inv(w') && Versioned(w')
    decreases |steps|
  {
    hide Inv, Enabled, Apply, Versioned;
    if steps != [] {
      VersionedStep(w, steps[0]);
      StepKeeps(w, steps[0]);
      VersionedRun(Apply(w, steps[0]), steps[1..], w');
    }
  }

  lemma ReachableVersioned(steps: seq<Step>, w: World)
    requires Runs(START, steps, w)
    ensures Inv(w) && Versioned(w)
  {
    hide Inv, Runs;
    StartInv();
    VersionedRun(START, steps, w);
  }

  // ----- What requests name -----

  /** In every reachable state the release of a row names its operation's actor and, until it is applied,
      the trip's present version and the row's own; a row of an ADD is released in the name of the actor
      who had it claimed. */
  lemma RequestsNamed(steps: seq<Step>, w: World, k: Id, i: nat)
    requires Runs(START, steps, w) && k in w.trips && i < |w.trips[k].members|
    ensures var (t, m) := (w.trips[k], w.trips[k].members[i]);
            && m.op < |t.ops|
            && (m.state == T.ClaimPending ==>
                  m.claimReq.tripVersion == t.version && m.claimReq.shipmentVersion == m.version)
            && (t.ops[m.op].kind == T.Add ==> m.claimReq.actor == t.ops[m.op].actor)
            && (m.state == T.ReleasePending ==>
                  && m.releaseReq.Some? && m.releaseReq.value.actor == t.ops[m.op].actor
                  && m.releaseReq.value.tripVersion == t.version && m.releaseReq.value.shipmentVersion == m.version
                  && (t.ops[m.op].kind == T.Add ==> m.releaseReq.value.actor == m.claimReq.actor))
  {
    hide Inv, Runs, RowsGranted, CV.AllAged;
    ReachableVersioned(steps, w);
    assert TR.Named(w.trips[k].ops, w.trips[k].version, w.trips[k].members[i]);
  }

  // ----- Releases in plain terms -----

  lemma ClaimOnFile(f: F.State, t: T.Trip, i: nat) returns (r: F.Receipt)
    requires i < |t.members| && Counts(t.ops, t.members[i]) && RowsGranted(f.ledger, t) && RowAgrees(f.ledger, t, i)
    ensures r in f.ledger && r.Claimed? && r.version == t.members[i].version && t.members[i].claim == Some(r.claim)
  {
    hide L.ReleasedIn, T.IsFirst;
    assert AsGranted(f.ledger, t.members[i]);
    r := F.Find(f.ledger, t.members[i].claimReq.id).value;
  }

  /** A release other than that of a canceled shipment, not applied yet, is accepted if and only if the
      claiming actor asks for it and the shipment is still ready: nothing but a cancellation moves a
      claimed shipment past the version of its claim. */
  lemma ReleaseWhen(steps: seq<Step>, w: World, k: Id, i: nat, m: T.Member)
    requires Runs(START, steps, w) && Waits(w, k, i, m) && m.op < |w.trips[k].ops|
    requires w.trips[k].ops[m.op].kind != T.ShipmentGone
    ensures m.shipment in w.f.shipments
    ensures F.ReleaseReply(w.f, m.releaseReq.value).Ok? <==>
            m.releaseReq.value.actor == m.claimReq.actor && w.f.shipments[m.shipment].status == Ready
  {
    hide Inv, FI.Inv, Runs, RowsGranted, CV.AllAged, Unsent, RowAgrees, F.ReleaseReply;
    ReachableVersioned(steps, w);
    RequestsNamed(steps, w, k, i);
    WaitingShipment(w, k, i, m);
    ReleaseAcceptedIff(w, k, i, m);
    PresentOf(w, k, i);
    var r := ClaimOnFile(w.f, w.trips[k], i);
    AgedAt(w.f, m.shipment, r);
  }

  lemma AgedAt(f: F.State, x: Id, r: F.Receipt)
    requires CV.AllAged(f.shipments, f.ledger) && x in f.shipments && r in f.ledger
    ensures CV.Aged(f.shipments[x], r)
  {
  }

  /** So a compensated row is given back exactly if its shipment has not been canceled meanwhile. */
  lemma CompensationAccepted(steps: seq<Step>, w: World, k: Id, i: nat, m: T.Member)
    requires Runs(START, steps, w) && Waits(w, k, i, m) && m.op < |w.trips[k].ops|
    requires w.trips[k].ops[m.op].kind == T.Add
    ensures m.shipment in w.f.shipments
    ensures F.ReleaseReply(w.f, m.releaseReq.value).Ok? <==> w.f.shipments[m.shipment].status == Ready
    ensures m.releaseReq.value.actor == m.claimReq.actor
  {
    hide Runs, Waits, F.ReleaseReply;
    RowThere(w, k, i, m);
    RequestsNamed(steps, w, k, i);
    ReleaseWhen(steps, w, k, i, m);
  }

  lemma RowThere(w: World, k: Id, i: nat, m: T.Member)
    requires Waits(w, k, i, m)
    ensures HasRow(w, k, i, m) && m.state == T.ReleasePending
  {
  }

  // ----- Dispatches in plain terms -----

  /** A shipment a payload lists is ready, and the payload names its order and reservation. */
  ghost predicate Fits(f: F.State, item: F.Item) {
    item.shipment in f.shipments && f.shipments[item.shipment].status == Ready
    && f.shipments[item.shipment].order == item.order && f.shipments[item.shipment].reservation == item.reservation
  }

  lemma ItemFits(w: World, k: Id, d: nat, i: nat)
    requires Inv(w) && Versioned(w) && k in w.trips && d < |w.trips[k].dispatches|
    requires T.Open(w.trips[k].dispatches[d].stage) && w.trips[k].dispatches[d].request.id !in w.f.batches
    requires i < |w.trips[k].dispatches[d].request.items|
    ensures var q := w.trips[k].dispatches[d].request;
            F.Dispatchable(w.f, q.trip, q.items[i]) <==> Fits(w.f, q.items[i])
  {
    hide Inv, FI.Inv, TI.Inv, Known, GoneAll, TripBatches, Agrees, L.ReleasedIn, GrantedAs, RowsGranted, CV.AllAged,
      TR.AllNamed, RowAgrees;
    TripOf(w, k);
    StateOf(w);
    var j := ItemRow(w.trips[k], d, i);
    MembersOf(w.trips[k]);
    ActiveHeld(w, w.trips[k], j);
    PresentOf(w, k, j);
    Unbatched(w, k, d, w.trips[k].members[j].shipment);
    var r := ClaimOnFile(w.f, w.trips[k], j);
    AgedAt(w.f, w.trips[k].members[j].shipment, r);
  }

  /** What stands between an accepted dispatch and its batch: once its payload is sent, fulfillment takes it
      if and only if every shipment is still ready and named with its own order and reservation. Claims,
      trip and versions are sure to fit. */
  lemma DispatchWhen(steps: seq<Step>, w: World, k: Id, d: nat)
    requires Runs(START, steps, w) && k in w.trips && d < |w.trips[k].dispatches|
    requires T.Open(w.trips[k].dispatches[d].stage) && w.trips[k].dispatches[d].request.id !in w.f.batches
    ensures var q := w.trips[k].dispatches[d].request;
            F.AllDispatchable(w.f, q) <==> forall i | 0 <= i < |q.items| :: Fits(w.f, q.items[i])
  {
    hide Inv, Versioned, Runs, F.Dispatchable, Fits;
    ReachableVersioned(steps, w);
    var q := w.trips[k].dispatches[d].request;
    forall i | 0 <= i < |q.items| ensures F.Dispatchable(w.f, q.trip, q.items[i]) <==> Fits(w.f, q.items[i]) {
      ItemFits(w, k, d, i);
    }
  }
}
