/** Releases: exactly which ones fulfillment accepts, and that the others wait for good. */
module WorldReleases {
  import opened Shipments
  import F = Fulfillment
  import FI = FulfillmentInvariant
  import FP = FulfillmentProgress
  import L = ClaimLedger
  import T = Trips
  import TI = TripInvariant
  import opened World
  import opened WorldInvariant
  import opened WorldSteps
  import opened WorldCalls
  import opened WorldTheorems
  import opened WorldDispatch

  // ----- What a waiting row's shipment can be -----

  /** The row waits for a release that fulfillment has not applied. */
  ghost predicate Waits(w: World, k: Id, i: nat, m: T.Member) {
    && HasRow(w, k, i, m) && m.state == T.ReleasePending && m.releaseReq.Some?
    && Unsent(w.f.ledger, m.releaseReq.value.id)
  }

  /** A batch that holds or has dispatched a shipment belongs to a trip that no operation has locked. */
  lemma BatchTripUnlocked(w: World, b: Id)
    requires Inv(w) && b in w.f.batches && w.f.batches[b].status in {F.BatchPending, F.BatchCompleted}
    ensures w.f.batches[b].request.trip in w.trips && w.trips[w.f.batches[b].request.trip].lock.None?
  {
    hide Inv, StageOk, TI.Inv, FI.Inv, Known, Agrees, GoneAll, DatedAll, TripBatches;
    var k, d := RowOfBatch(w, b);
    StageOf(w, k, d);
    TripOf(w, k);
    StageMeans(w.f.batches, w.trips[k].dispatches[d]);
    DispatchUnlocked(w.trips[k], d);
  }

  /** The status and intent guards of a release never fail on a waiting row: its shipment is still
      held by the trip, ready or canceled, and free of any dispatch. */
  lemma WaitingShipment(w: World, k: Id, i: nat, m: T.Member)
    requires Inv(w) && Waits(w, k, i, m)
    ensures m.claim.Some? && Holds(w.f, m, m.claim.value) && m.claimReq.trip == k
    ensures var sh := w.f.shipments[m.shipment]; sh.status in {Ready, Canceled} && !Busy(sh.intent) && !sh.issued
  {
    hide Inv, FI.Inv, TI.Inv, Known, Agrees, GoneAll, DatedAll, TripBatches, L.ReleasedIn, GrantedAs, T.IsFirst;
    StateOf(w);
    RowOf(w, k, i);
    PresentOf(w, k, i);
    HeldHere(w.f, m, m.claim.value);
    HeldStatus(w.f, m.shipment);
    TripOf(w, k);
    LockedByWaiting(w.trips[k], i);
    var sh := w.f.shipments[m.shipment];
    assert !Busy(sh.intent) && !sh.issued by {
      if Busy(sh.intent) || sh.issued {
        BusyBatch(w.f, m.shipment);
        BatchTripUnlocked(w, sh.intent.value.batch.value);
        assert false;
      }
    }
  }

  // ----- Accepted, exactly -----

  /** The release comes from the actor who claimed, and names the version the shipment is at. */
  ghost predicate Timely(f: F.State, m: T.Member, q: F.ReleaseRequest) {
    && q.actor == m.claimReq.actor
    && m.shipment in f.shipments && f.shipments[m.shipment].version == q.shipmentVersion
  }

  lemma OriginalClaim(f: F.State, m: T.Member, claim: Id)
    requires FI.Inv(f) && GrantedAs(f.ledger, m, claim)
    ensures F.FindClaim(f.ledger, claim).Some? && F.FindClaim(f.ledger, claim).value.claimReq == m.claimReq
  {
    hide FI.Inv, ResumesOk, FI.LedgerOk;
    LedgerOf(f);
    var r := F.Find(f.ledger, m.claimReq.id).value;
    L.ClaimIdsUnique(f.ledger, r, F.FindClaim(f.ledger, claim).value);
  }

  lemma ReleaseReplyOf(f: F.State, m: T.Member, q: F.ReleaseRequest)
    requires FI.Inv(f) && Unsent(f.ledger, q.id) && q.trip == m.claimReq.trip && q.shipment == m.shipment
    requires m.claimReq.shipment == m.shipment && GrantedAs(f.ledger, m, q.claim) && Holds(f, m, q.claim)
    requires var sh := f.shipments[m.shipment]; sh.status in {Ready, Canceled} && !Busy(sh.intent) && !sh.issued
    ensures F.ReleaseReply(f, q).Ok? <==> Timely(f, m, q)
  {
    hide FI.Inv, ResumesOk, GrantedAs;
    OriginalClaim(f, m, q.claim);
  }

  lemma PendingFits(t: T.Trip, i: nat)
    requires TI.Inv(t) && i < |t.members| && t.members[i].state == T.ReleasePending
    ensures TI.ReleaseFits(t.id, t.members[i])
  {
    hide TI.Inv;
    MembersOf(t);
    assert TI.MemberOk(t.id, t.lock, t.ops, t.status, t.stops, t.members[i]);
  }

  /** A release that was not applied yet is accepted if and only if it comes from the actor who
      claimed and names the shipment's present version; every other guard is sure to pass. */
  lemma ReleaseAcceptedIff(w: World, k: Id, i: nat, m: T.Member)
    requires Inv(w) && Waits(w, k, i, m)
    ensures F.ReleaseReply(w.f, m.releaseReq.value).Ok? <==> Timely(w.f, m, m.releaseReq.value)
  {
    hide Inv, FI.Inv, TI.Inv, Known, Agrees, GoneAll, DatedAll, TripBatches, L.ReleasedIn, GrantedAs, F.ReleaseReply,
      Timely, T.IsFirst, Holds;
    StateOf(w);
    TripOf(w, k);
    RowOf(w, k, i);
    PresentOf(w, k, i);
    PendingFits(w.trips[k], i);
    WaitingShipment(w, k, i, m);
    ReleaseReplyOf(w.f, m, m.releaseReq.value);
  }

  /** The release prepared for a canceled shipment is acceptable in every state until it is applied:
      claim, actor, trip, version, status and intent all pass. */
  lemma CanceledReleaseAccepted(steps: seq<Step>, w: World, k: Id, i: nat, m: T.Member)
    requires Runs(START, steps, w) && HasRow(w, k, i, m) && ForCanceled(w.trips[k], m)
    requires Unsent(w.f.ledger, m.releaseReq.value.id)
    ensures F.ReleaseReply(w.f, m.releaseReq.value).Ok?
  {
    hide Inv, FI.Inv, TI.Inv, Known, Agrees, DatedAll, TripBatches, F.ReleaseReply, Runs, Unsent;
    ReachableInv(steps, w);
    TripOf(w, k);
    assert GoneOk(w.f, w.trips[k], m);
    ReleaseAcceptedIff(w, k, i, m);
  }

  // ----- Never applied -----

  lemma StuckLedger(w: World, k: Id, i: nat, m: T.Member, r: F.Receipt, l: Id, j: nat)
    requires Inv(w) && Waits(w, k, i, m) && Answers(w, l, j, r) && !(r.Freed? && l == k && j == i)
    ensures Unsent(w.f.ledger + [r], m.releaseReq.value.id)
  {
    hide Inv, FI.Inv, TripOk, RowTold, Answers, Dated;
    AnswerOwned(w, l, j, r);
    RowOf(w, k, i);
    FindGrows(w.f.ledger, r, m.releaseReq.value.id);
  }

  lemma UnsentClaim(w: World, k: Id, i: nat, m: T.Member, l: Id, j: nat, newId: Id, f': F.State)
    requires Inv(w) && Waits(w, k, i, m) && l in w.trips && CanCallClaim(w, l, j, newId)
    requires f' == F.Claim(w.f, w.trips[l].members[j].claimReq, newId)
    ensures Unsent(f'.ledger, m.releaseReq.value.id)
  {
    hide Inv, FI.Inv, TripOk, F.Claim, F.ClaimReply, F.Find;
    var q := w.trips[l].members[j].claimReq;
    ClaimShape(w.f, q, newId);
    if f' != w.f { StuckLedger(w, k, i, m, F.ClaimReply(w.f, q, newId).value, l, j); }
  }

  /** Another row's release does not answer this row's, and its own is not accepted. */
  lemma UnsentRelease(w: World, k: Id, i: nat, m: T.Member, l: Id, j: nat, f': F.State)
    requires Inv(w) && Waits(w, k, i, m) && l in w.trips && CanCallRelease(w, l, j)
    requires (l == k && j == i) ==> !Timely(w.f, m, m.releaseReq.value)
    requires f' == F.Release(w.f, w.trips[l].members[j].releaseReq.value)
    ensures Unsent(f'.ledger, m.releaseReq.value.id)
  {
    hide Inv, FI.Inv, TI.Inv, Known, Agrees, GoneAll, DatedAll, TripBatches, F.Release, F.ReleaseReply, F.Find, Timely;
    var q := w.trips[l].members[j].releaseReq.value;
    ReleaseShape(w.f, q);
    TripOf(w, l);
    ReleaseNames(w.trips[l], j);
    if l == k && j == i {
      ReleaseAcceptedIff(w, k, i, m);
    } else if f' != w.f {
      StuckLedger(w, k, i, m, F.ReleaseReply(w.f, q).value, l, j);
    }
  }

  /** What a processor remembers about a waiting row cannot be an acceptance. */
  lemma MemoNotThis(w: World, k: Id, i: nat, m: T.Member)
    requires Inv(w) && Waits(w, k, i, m) && k in w.mem && w.mem[k].1.Ok? && w.mem[k].1.value.Freed?
    ensures w.mem[k].0 != i
  {
    hide Inv, FI.Inv, TripOk, L.ReleasedIn, T.IsFirst;
    MemoOf(w, k);
    PresentOf(w, k, i);
  }

  lemma UnsentBy(f: F.State, s: F.Step, id: Id)
    requires F.Enabled(f, s) && !s.DoClaim? && !s.DoRelease? && Unsent(f.ledger, id)
    ensures Unsent(F.Apply(f, s).ledger, id)
  {
    hide F.Enabled, F.Apply;
    if s.DoPrepare? {
      PreparedAs(f, s.batchReq);
      PrepareShape(f, s.batchReq);
    } else {
      OwnLedger(f, s);
    }
  }

  lemma CallFrom(w: World, step: Step)
    requires Enabled(w, step) && FulfillmentWrite(w, step).Some?
    requires FulfillmentWrite(w, step).value.DoClaim? || FulfillmentWrite(w, step).value.DoRelease?
    ensures (step.CallClaim? && step.trip in w.trips && CanCallClaim(w, step.trip, step.row, step.newId)
             && Apply(w, step).f == F.Claim(w.f, w.trips[step.trip].members[step.row].claimReq, step.newId))
         || (step.CallRelease? && step.trip in w.trips && CanCallRelease(w, step.trip, step.row)
             && Apply(w, step).f == F.Release(w.f, w.trips[step.trip].members[step.row].releaseReq.value))
  {
    hide F.Enabled, T.Guard, CanLocal, NewIds, Complete, Elsewhere, Announced, F.FreshClaim, T.IsFirst, F.Claim,
      F.Release, F.ClaimReply, F.ReleaseReply, T.Do, F.Apply;
  }

  /** A step that does not send this row's own release, or sends it in vain, leaves it waiting. */
  lemma WaitsStep(w: World, step: Step, k: Id, i: nat, m: T.Member)
    requires Inv(w) && Enabled(w, step) && Waits(w, k, i, m)
    requires step.CallRelease? && step.trip == k && step.row == i ==> !Timely(w.f, m, m.releaseReq.value)
    ensures Waits(Apply(w, step), k, i, m)
  {
    hide Inv, Enabled, Apply, F.Enabled, F.Apply, F.Claim, F.Release, Unsent, HasRow, Timely, CanCallClaim,
      CanCallRelease;
    assert !(step == KeepRelease(k) && k in w.mem && w.mem[k].0 == i) by {
      if step == KeepRelease(k) { KeepMemo(w, k); MemoNotThis(w, k, i, m); }
    }
    RowKept(w, step, k, i, m);
    FulfillmentWrites(w, step);
    if FulfillmentWrite(w, step).Some? {
      var s := FulfillmentWrite(w, step).value;
      if s.DoClaim? || s.DoRelease? {
        CallFrom(w, step);
        if step.CallClaim? {
          UnsentClaim(w, k, i, m, step.trip, step.row, step.newId, Apply(w, step).f);
        } else {
          UnsentRelease(w, k, i, m, step.trip, step.row, Apply(w, step).f);
        }
      } else {
        UnsentBy(w.f, s, m.releaseReq.value.id);
      }
    }
  }

  lemma KeepMemo(w: World, k: Id)
    requires Enabled(w, KeepRelease(k))
    ensures k in w.mem && w.mem[k].1.Ok? && w.mem[k].1.value.Freed?
  {
    hide T.Guard;
  }

  lemma NeverTimely(w: World, step: Step, m: T.Member)
    requires Inv(w) && Enabled(w, step) && m.releaseReq.Some? && m.state == T.ReleasePending && Dated(w.f, m)
    requires !Timely(w.f, m, m.releaseReq.value)
    ensures !Timely(Apply(w, step).f, m, m.releaseReq.value)
  {
    hide Inv, FI.Inv, Enabled, Apply, FP.CursorsAdvance, FP.BatchesAdvance, FP.InboxAdvances;
    StateOf(w);
    FulfillmentKept(w, step);
    assert Advances(w.f.shipments[m.shipment], Apply(w, step).f.shipments[m.shipment]);
  }

  lemma WaitsLock(w: World, k: Id, i: nat, m: T.Member)
    requires Inv(w) && Waits(w, k, i, m)
    ensures w.trips[k].lock == Some(m.op) && Dated(w.f, m)
  {
    hide Inv, FI.Inv, TI.Inv, Known, Agrees, GoneAll, TripBatches, RowTold, Dated;
    TripOf(w, k);
    RowOf(w, k, i);
    var t := w.trips[k];
    MembersOf(t);
    assert TI.MemberOk(t.id, t.lock, t.ops, t.status, t.stops, t.members[i]);
  }

  /** A waiting release that is not acceptable, because another actor asks for it or because the
      shipment has moved past the version it names, waits for good: along every run the row stays
      as it is, its release is never applied, and the operation keeps the trip locked. */
  lemma {:induction false} ReleaseStuck(w: World, steps: seq<Step>, w': World, k: Id, i: nat, m: T.Member)
    requires Inv(w) && Runs(w, steps, w') && Waits(w, k, i, m) && !Timely(w.f, m, m.releaseReq.value)
    ensures Inv(w') && Waits(w', k, i, m) && !Timely(w'.f, m, m.releaseReq.value) && w'.trips[k].lock == Some(m.op)
    decreases |steps|
  {
    hide Inv, Enabled, Apply, Dated, Timely;
    WaitsLock(w, k, i, m);
    if steps != [] {
      NeverTimely(w, steps[0], m);
      WaitsStep(w, steps[0], k, i, m);
      StepKeeps(w, steps[0]);
      ReleaseStuck(Apply(w, steps[0]), steps[1..], w', k, i, m);
    }
  }

  /** A row behind a stuck one is never even asked for: it waits for good as well, acceptable or not. */
  lemma {:induction false} BehindStuck(w: World, steps: seq<Step>, w': World, k: Id, i: nat, m: T.Member, j: nat,
      n: T.Member)
    requires Inv(w) && Runs(w, steps, w') && Waits(w, k, i, m) && !Timely(w.f, m, m.releaseReq.value) && i < j
    requires Waits(w, k, j, n)
    ensures Waits(w', k, j, n)
    decreases |steps|
  {
    hide Inv, Enabled, Apply, Dated, Timely;
    WaitsLock(w, k, i, m);
    WaitsLock(w, k, j, n);
    if steps != [] {
      NeverTimely(w, steps[0], m);
      WaitsStep(w, steps[0], k, i, m);
      NotAsked(w, steps[0], k, i, m, j);
      WaitsStep(w, steps[0], k, j, n);
      StepKeeps(w, steps[0]);
      BehindStuck(Apply(w, steps[0]), steps[1..], w', k, i, m, j, n);
    }
  }

  lemma NotAsked(w: World, step: Step, k: Id, i: nat, m: T.Member, j: nat)
    requires Enabled(w, step) && Waits(w, k, i, m) && w.trips[k].lock == Some(m.op) && i < j
    ensures !(step.CallRelease? && step.trip == k && step.row == j)
  {
    hide F.Enabled, T.Guard, CanLocal, CanNotice, NewIds, Unsent;
  }

  // ----- The first waiting row, exactly -----

  lemma AppliedNow(f: F.State, q: F.ReleaseRequest)
    requires Unsent(f.ledger, q.id) && F.ReleaseReply(f, q).Ok?
    ensures !Unsent(F.Release(f, q).ledger, q.id)
  {
    hide F.Release, F.ReleaseReply;
    ReleaseShape(f, q);
    AppendedFound(f.ledger, F.ReleaseReply(f, q).value);
  }

  lemma AppendedFound(ledger: seq<F.Receipt>, r: F.Receipt)
    ensures !Unsent(ledger + [r], F.RequestId(r))
  {
    FindGrows(ledger, r, F.RequestId(r));
  }

  lemma ReleaseRun(w: World, k: Id, i: nat, m: T.Member) returns (steps: seq<Step>, w': World)
    requires Inv(w) && Waits(w, k, i, m) && T.Releasing(w.trips[k]) && T.IsFirst(w.trips[k], i, T.ReleasePending)
    requires Timely(w.f, m, m.releaseReq.value)
    ensures Runs(w, steps, w') && !Unsent(w'.f.ledger, m.releaseReq.value.id)
  {
    hide Inv, F.ReleaseReply, F.Release, Timely, Unsent, Runs;
    var v := w.(mem := w.mem - {k});
    ReleaseAcceptedIff(w, k, i, m);
    AppliedNow(w.f, m.releaseReq.value);
    w' := ReleaseCalled(v, k, i, true);
    steps := [Crash(k), CallRelease(k, i, true)];
    TwoSteps(w, v, w', steps[0], steps[1]);
  }

  /** The release the processor has to send next is applied in some run if and only if its actor is
      the claiming one and its version the shipment's. */
  lemma NextReleaseIff(w: World, k: Id, i: nat, m: T.Member)
    requires Inv(w) && Waits(w, k, i, m) && T.Releasing(w.trips[k]) && T.IsFirst(w.trips[k], i, T.ReleasePending)
    ensures (exists steps, w' :: Runs(w, steps, w') && !Unsent(w'.f.ledger, m.releaseReq.value.id)) <==>
            Timely(w.f, m, m.releaseReq.value)
  {
    hide Inv, Runs, Timely, Unsent, T.IsFirst, T.Releasing;
    if Timely(w.f, m, m.releaseReq.value) {
      var steps, w' := ReleaseRun(w, k, i, m);
    } else {
      forall steps, w' | Runs(w, steps, w') ensures Unsent(w'.f.ledger, m.releaseReq.value.id) {
        ReleaseStuck(w, steps, w', k, i, m);
      }
    }
  }
}
