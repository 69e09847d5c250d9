/** The claim ledger of the fulfillment service: receipts alternate, replays are exact, and every
    claim is either held or released. */
module ClaimLedger {
  import opened Shipments
  import opened Fulfillment
  import opened FulfillmentInvariant

  lemma FitsAt(ledger: seq<Receipt>, k: nat)
    requires LedgerOk(ledger) && k < |ledger|
    ensures Fits(ledger[..k], ledger[k])
  {
  }

  lemma PrefixOk(ledger: seq<Receipt>, k: nat)
    requires LedgerOk(ledger) && k <= |ledger|
    ensures LedgerOk(ledger[..k])
  {
    forall i | 0 <= i < k ensures Fits(ledger[..k][..i], ledger[..k][i]) {
      assert ledger[..k][..i] == ledger[..i];
    }
  }

  /** The holder is what the shipment's last receipt says. */
  lemma {:induction false} HolderAt(ledger: seq<Receipt>, x: Id, i: nat)
    requires i < |ledger| && ShipmentOf(ledger[i]) == x && forall k | i < k < |ledger| :: ShipmentOf(ledger[k]) != x
    ensures Holder(ledger, x) == if ledger[i].Claimed? then Some((ledger[i].claim, ledger[i].claimReq.trip)) else None
  {
    var n := |ledger| - 1;
    if i < n { HolderAt(ledger[..n], x, i); }
  }

  /** Receipts of one shipment alternate: a release follows each claim and carries its claim id and
      trip, and a claim follows each release. */
  lemma ReceiptsAlternate(ledger: seq<Receipt>, i: nat, j: nat)
    requires LedgerOk(ledger) && i < j < |ledger| && ShipmentOf(ledger[i]) == ShipmentOf(ledger[j])
    requires forall k | i < k < j :: ShipmentOf(ledger[k]) != ShipmentOf(ledger[i])
    ensures ledger[i].Claimed? <==> ledger[j].Freed?
    ensures ledger[i].Claimed? ==>
             ClaimOf(ledger[j]) == ledger[i].claim && ledger[j].freeReq.trip == ledger[i].claimReq.trip
  {
    FitsAt(ledger, j);
    HolderAt(ledger[..j], ShipmentOf(ledger[j]), i);
  }

  /** The first receipt of a shipment is a claim. */
  lemma FirstIsClaim(ledger: seq<Receipt>, j: nat)
    requires LedgerOk(ledger) && j < |ledger| && forall k | 0 <= k < j :: ShipmentOf(ledger[k]) != ShipmentOf(ledger[j])
    ensures ledger[j].Claimed?
  {
    FitsAt(ledger, j);
    HolderUnlisted(ledger[..j], ShipmentOf(ledger[j]));
  }

  lemma RequestIdsUnique(ledger: seq<Receipt>, i: nat, j: nat)
    requires LedgerOk(ledger) && i < j < |ledger|
    ensures RequestId(ledger[i]) != RequestId(ledger[j])
  {
    FitsAt(ledger, j);
    assert ledger[..j][i] == ledger[i];
  }

  lemma ClaimIdsUnique(ledger: seq<Receipt>, r: Receipt, o: Receipt)
    requires LedgerOk(ledger) && r in ledger && o in ledger && r.Claimed? && o.Claimed? && r.claim == o.claim
    ensures r == o
  {
    var i :| 0 <= i < |ledger| && ledger[i] == r;
    var j :| 0 <= j < |ledger| && ledger[j] == o;
    ClaimIdsOrdered(ledger, i, j);
    ClaimIdsOrdered(ledger, j, i);
  }

  lemma ClaimIdsOrdered(ledger: seq<Receipt>, i: nat, j: nat)
    requires LedgerOk(ledger) && i < |ledger| && j < |ledger| && ledger[i].Claimed? && ledger[j].Claimed?
    ensures i < j ==> ledger[i].claim != ledger[j].claim
  {
    FitsAt(ledger, j);
    if i < j { assert ledger[..j][i] in ledger[..j] && ClaimOf(ledger[i]) == ledger[i].claim; }
  }

  ghost predicate ReleasedIn(ledger: seq<Receipt>, claim: Id) {
    exists f :: f in ledger && f.Freed? && f.freeReq.claim == claim
  }

  lemma ReleasedGrows(front: seq<Receipt>, last: Receipt, claim: Id)
    ensures ReleasedIn(front + [last], claim) <==>
             ReleasedIn(front, claim) || (last.Freed? && last.freeReq.claim == claim)
  {
    if ReleasedIn(front, claim) {
      var f :| f in front && f.Freed? && f.freeReq.claim == claim;
      assert f in front + [last];
    }
    if last.Freed? && last.freeReq.claim == claim { assert last in front + [last]; }
  }

  /** What one more receipt does to a claim made before it. */
  lemma HeldOrReleasedStep(front: seq<Receipt>, last: Receipt, r: Receipt)
    requires LedgerOk(front) && Fits(front, last) && r in front && r.Claimed?
    requires ReleasedIn(front, r.claim) <==> Holder(front, r.claimReq.shipment) != Some((r.claim, r.claimReq.trip))
    requires Holder(front, r.claimReq.shipment) == Some((r.claim, r.claimReq.trip)) || !HolderHas(front, r)
    ensures ReleasedIn(front + [last], r.claim) <==>
             Holder(front + [last], r.claimReq.shipment) != Some((r.claim, r.claimReq.trip))
    ensures HolderHas(front + [last], r) ==>
             Holder(front + [last], r.claimReq.shipment) == Some((r.claim, r.claimReq.trip))
  {
    ReleasedGrows(front, last, r.claim);
    HolderGrows(front, last, r.claimReq.shipment);
    if last.Freed? && last.freeReq.claim == r.claim {
      var o :| o in front && o.Claimed? && o.claim == r.claim && o.claimReq.shipment == last.freeReq.shipment;
      ClaimIdsUnique(front, r, o);
    }
  }

  ghost predicate HolderHas(ledger: seq<Receipt>, r: Receipt)
    requires r.Claimed?
  {
    Holder(ledger, r.claimReq.shipment).Some? && Holder(ledger, r.claimReq.shipment).value.0 == r.claim
  }

  lemma HeldAtFirst(front: seq<Receipt>, r: Receipt)
    requires r.Claimed? && Fits(front, r)
    ensures Holder(front + [r], r.claimReq.shipment) == Some((r.claim, r.claimReq.trip))
    ensures !ReleasedIn(front + [r], r.claim)
  {
    HolderGrows(front, r, r.claimReq.shipment);
    ReleasedGrows(front, r, r.claim);
  }

  /** A claim in the ledger is held by its trip, or a release of it is stored, and never both. */
  lemma {:induction false} HeldOrReleased(ledger: seq<Receipt>, r: Receipt)
    requires LedgerOk(ledger) && r in ledger && r.Claimed?
    ensures ReleasedIn(ledger, r.claim) <==> Holder(ledger, r.claimReq.shipment) != Some((r.claim, r.claimReq.trip))
    ensures HolderHas(ledger, r) ==> Holder(ledger, r.claimReq.shipment) == Some((r.claim, r.claimReq.trip))
  {
    hide Fits, LedgerOk, Holder;
    var n := |ledger| - 1;
    var front, last := ledger[..n], ledger[n];
    FitsAt(ledger, n);
    PrefixOk(ledger, n);
    assert front + [last] == ledger;
    if r in front {
      HeldOrReleased(front, r);
      HeldOrReleasedStep(front, last, r);
    } else {
      HeldAtFirst(front, r);
    }
  }

  lemma ReleasedHere(ledger: seq<Receipt>, r: Receipt)
    requires LedgerOk(ledger) && r in ledger && r.Claimed? && ReleasedIn(ledger, r.claim)
    ensures exists f ::
             f in ledger && f.Freed? && f.freeReq.claim == r.claim && f.freeReq.shipment == r.claimReq.shipment
  {
    var f :| f in ledger && f.Freed? && f.freeReq.claim == r.claim;
    var k :| 0 <= k < |ledger| && ledger[k] == f;
    FitsAt(ledger, k);
    var o :| o in ledger[..k] && o.Claimed? && o.claim == r.claim && o.claimReq.shipment == f.freeReq.shipment;
    ClaimIdsUnique(ledger, r, o);
  }

  /** `claimStatus` always has an answer for a claim that was made: its "neither active nor released"
      branch is unreachable, and "released" is said exactly when a release is stored. */
  lemma ClaimStatusDecided(s: State, claim: Id)
    requires Inv(s) && FindClaim(s.ledger, claim).Some?
    ensures ClaimStatus(s, claim).Ok?
    ensures ClaimStatus(s, claim) == Ok(WasReleased) <==> ReleasedIn(s.ledger, claim)
  {
    hide Rows, Indexed, IntentIdsUnique, BatchesOk, OrdersOk, InboxOk, Fits;
    var r := FindClaim(s.ledger, claim).value;
    var x := r.claimReq.shipment;
    assert ShipmentOf(r) in s.shipments && Holder(s.ledger, x) == HeldBy(s.shipments[x]);
    RowAt(s, x);
    HeldOrReleased(s.ledger, r);
    if ReleasedIn(s.ledger, claim) { ReleasedHere(s.ledger, r); }
  }

  // ----- Replays -----

  /** A stored receipt is the one found for its request, whatever is appended later. */
  lemma {:induction false} FindStable(ledger: seq<Receipt>, r: Receipt)
    requires LedgerOk(ledger) && r in ledger
    ensures Find(ledger, RequestId(r)) == Some(r)
  {
    hide Fits, LedgerOk;
    var n := |ledger| - 1;
    PrefixOk(ledger, n);
    assert ledger == ledger[..n] + [ledger[n]];
    if r in ledger[..n] {
      var i :| 0 <= i < n && ledger[i] == r;
      RequestIdsUnique(ledger, i, n);
      FindStable(ledger[..n], r);
    }
  }

  lemma ClaimStored(s: State, q: ClaimRequest, newId: Id)
    requires ClaimReply(s, q, newId).Ok?
    ensures ClaimReply(s, q, newId).value in Claim(s, q, newId).ledger
    ensures ClaimReply(s, q, newId).value.Claimed? && ClaimReply(s, q, newId).value.claimReq == q
  {
  }

  /** Once a claim was answered, any later repetition of the request gets the same answer and
      changes nothing. */
  lemma ClaimReplayed(s: State, q: ClaimRequest, newId: Id, s': State, otherId: Id)
    requires ClaimReply(s, q, newId).Ok? && Inv(s') && Claim(s, q, newId).ledger <= s'.ledger
    ensures ClaimReply(s', q, otherId) == ClaimReply(s, q, newId) && Claim(s', q, otherId) == s'
  {
    hide Rows, Indexed, IntentIdsUnique, BatchesOk, OrdersOk, InboxOk, Fits;
    var r := ClaimReply(s, q, newId).value;
    ClaimStored(s, q, newId);
    StoredLater(Claim(s, q, newId).ledger, s'.ledger, r);
  }

  lemma ReleaseStored(s: State, q: ReleaseRequest)
    requires ReleaseReply(s, q).Ok?
    ensures ReleaseReply(s, q).value in Release(s, q).ledger
    ensures ReleaseReply(s, q).value.Freed? && ReleaseReply(s, q).value.freeReq == q
  {
  }

  lemma ReleaseReplayed(s: State, q: ReleaseRequest, s': State)
    requires ReleaseReply(s, q).Ok? && Inv(s') && Release(s, q).ledger <= s'.ledger
    ensures ReleaseReply(s', q) == ReleaseReply(s, q) && Release(s', q) == s'
  {
    hide Rows, Indexed, IntentIdsUnique, BatchesOk, OrdersOk, InboxOk, Fits;
    var r := ReleaseReply(s, q).value;
    ReleaseStored(s, q);
    StoredLater(Release(s, q).ledger, s'.ledger, r);
  }

  lemma StoredLater(a: seq<Receipt>, b: seq<Receipt>, r: Receipt)
    requires a <= b && r in a && LedgerOk(b)
    ensures r in b && Find(b, RequestId(r)) == Some(r)
  {
    var i :| 0 <= i < |a| && a[i] == r;
    assert b[i] == r;
    FindStable(b, r);
  }
}
