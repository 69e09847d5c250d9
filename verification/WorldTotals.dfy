/** Conservation across the two services: what a trip says it carries is what fulfillment has assigned to
    it, shipment by shipment and in sum. */
module WorldTotals {
  import opened Shipments
  import F = Fulfillment
  import FI = FulfillmentInvariant
  import T = Trips
  import TI = TripInvariant
  import opened World
  import opened WorldInvariant
  import opened WorldSteps
  import opened WorldTheorems

  // ----- Sums over sets of shipments -----

  /** The weight, or the volume, of these shipments together. */
  ghost function Load(shipments: map<Id, Shipment>, xs: set<Id>, heavy: bool): nat
    requires xs <= shipments.Keys
  {
    if xs == {} then 0
    else
      var x :| x in xs;
      (if heavy then shipments[x].weight else shipments[x].volume) + Load(shipments, xs - {x}, heavy)
  }

  /** Whichever shipment is counted first, the sum is the same. */
  lemma {:induction false} LoadWithout(shipments: map<Id, Shipment>, xs: set<Id>, heavy: bool, y: Id)
    requires xs <= shipments.Keys && y in xs
    ensures Load(shipments, xs, heavy)
            == (if heavy then shipments[y].weight else shipments[y].volume) + Load(shipments, xs - {y}, heavy)
  {
    var x :| x in xs && Load(shipments, xs, heavy)
        == (if heavy then shipments[x].weight else shipments[x].volume) + Load(shipments, xs - {x}, heavy);
    if x != y {
      LoadWithout(shipments, xs - {x}, heavy, y);
      LoadWithout(shipments, xs - {y}, heavy, x);
      assert xs - {x} - {y} == xs - {y} - {x};
    }
  }

  function ActiveShipments(ms: seq<T.Member>): set<Id> { set m | m in ms && m.state == T.Active :: m.shipment }

  ghost predicate Measured(shipments: map<Id, Shipment>, m: T.Member) {
    m.state == T.Active ==>
      m.shipment in shipments && m.weight == shipments[m.shipment].weight && m.volume == shipments[m.shipment].volume
  }

  lemma {:induction false} ActiveSums(shipments: map<Id, Shipment>, ms: seq<T.Member>)
    requires forall i | 0 <= i < |ms| :: Measured(shipments, ms[i])
    requires TI.Unique(ms)
    ensures ActiveShipments(ms) <= shipments.Keys
    ensures T.ActiveWeight(ms) == Load(shipments, ActiveShipments(ms), true)
    ensures T.ActiveVolume(ms) == Load(shipments, ActiveShipments(ms), false)
  {
    hide TI.Unique, Measured, ActiveShipments, Load;
    if ms == [] {
      NoShipments(shipments);
    } else {
      var n := |ms| - 1;
      UniqueFront(ms);
      assert forall i | 0 <= i < n :: ms[..n][i] == ms[i];
      ActiveSums(shipments, ms[..n]);
      LastActive(ms);
      if ms[n].state == T.Active {
        assert ActiveShipments(ms) - {ms[n].shipment} == ActiveShipments(ms[..n]);
        MeasuredRow(shipments, ms[n]);
        LoadWithout(shipments, ActiveShipments(ms), true, ms[n].shipment);
        LoadWithout(shipments, ActiveShipments(ms), false, ms[n].shipment);
      } else {
        assert ActiveShipments(ms) == ActiveShipments(ms[..n]);
      }
    }
  }

  lemma NoShipments(shipments: map<Id, Shipment>)
    ensures ActiveShipments([]) == {} && Load(shipments, {}, true) == 0 && Load(shipments, {}, false) == 0
  {
  }

  lemma UniqueFront(ms: seq<T.Member>)
    requires ms != [] && TI.Unique(ms)
    ensures TI.Unique(ms[..|ms| - 1])
  {
  }

  lemma MeasuredRow(shipments: map<Id, Shipment>, m: T.Member)
    requires Measured(shipments, m) && m.state == T.Active
    ensures m.shipment in shipments && m.weight == shipments[m.shipment].weight
    ensures m.volume == shipments[m.shipment].volume
  {
  }

  lemma LastActive(ms: seq<T.Member>)
    requires ms != [] && TI.Unique(ms)
    ensures var n := |ms| - 1;
            && ActiveShipments(ms)
               == ActiveShipments(ms[..n]) + (if ms[n].state == T.Active then {ms[n].shipment} else {})
            && (ms[n].state == T.Active ==> ms[n].shipment !in ActiveShipments(ms[..n]))
  {
    assert ms == ms[..|ms| - 1] + [ms[|ms| - 1]];
  }

  // ----- What fulfillment has assigned -----

  /** The shipments fulfillment has assigned to this trip. */
  function Assigned(f: F.State, k: Id): set<Id> { set x | x in f.shipments && f.shipments[x].trip == Some(k) }

  lemma UnlockedPresent(w: World, k: Id, i: nat)
    requires Inv(w) && k in w.trips && w.trips[k].lock.None? && i < |w.trips[k].members|
    ensures T.Present(w.trips[k].members[i]) <==> w.trips[k].members[i].state == T.Active
  {
    hide Inv, FI.Inv, TI.Inv, Known, Agrees, GoneAll, DatedAll, TripBatches;
    TripOf(w, k);
    UnlockedRows(w.trips[k]);
  }

  lemma ClaimedBoth(f: F.State, x: Id)
    requires FI.Inv(f) && x in f.shipments
    ensures f.shipments[x].trip.Some? <==> f.shipments[x].claim.Some?
  {
    hide FI.Indexed, FI.IntentIdsUnique, FI.LedgerAgrees, FI.OrdersOk, FI.InboxOk, FI.BatchesOk, HistoryOk;
    FI.RowAt(f, x);
  }

  lemma AssignedIsActive(steps: seq<Step>, w: World, k: Id, x: Id)
    requires Runs(START, steps, w) && (forall n | 0 <= n < |steps| :: !steps[n].Botch?)
    requires k in w.trips && w.trips[k].lock.None?
    ensures x in Assigned(w.f, k) <==> x in ActiveShipments(w.trips[k].members)
  {
    hide Inv, FI.Inv, Runs, GrantedAs, T.Present;
    ReachableInv(steps, w);
    StateOf(w);
    if x in Assigned(w.f, k) {
      ClaimedBoth(w.f, x);
      var i := HeldHasRow(steps, w, x);
      LeaksAreDrops(START, steps, w);
      NoBotchNoDrop(START, steps);
      UnlockedPresent(w, k, i);
      assert w.trips[k].members[i] in w.trips[k].members;
    }
    if x in ActiveShipments(w.trips[k].members) {
      var m :| m in w.trips[k].members && m.state == T.Active && m.shipment == x;
      var i :| 0 <= i < |w.trips[k].members| && w.trips[k].members[i] == m;
      ActiveIsHeld(steps, w, k, i);
    }
  }

  lemma TripUnique(w: World, k: Id)
    requires Inv(w) && k in w.trips
    ensures TI.Unique(w.trips[k].members)
    ensures w.trips[k].lock.None? ==>
             w.trips[k].weight == T.ActiveWeight(w.trips[k].members)
             && w.trips[k].volume == T.ActiveVolume(w.trips[k].members)
  {
    hide Inv, FI.Inv, Known, Agrees, GoneAll, DatedAll, TripBatches;
    TripOf(w, k);
    hide TI.OpsOk, TI.MembersOk, TI.StopsOk, TI.PlacesOk, TI.RouteOk, TI.CapacityOk, TI.ReadsOk, TI.DispatchesOk,
      TI.DriveOk, TI.RowsListed, TI.Unique;
  }

  /** As long as every granted reply passes the schema, a trip with no operation under way carries exactly
      the shipments fulfillment has assigned to it, and its stored totals are the sums of their weights and
      volumes as fulfillment has them on file. */
  lemma TotalsAreAssigned(steps: seq<Step>, w: World, k: Id)
    requires Runs(START, steps, w) && (forall n | 0 <= n < |steps| :: !steps[n].Botch?)
    requires k in w.trips && w.trips[k].lock.None?
    ensures ActiveShipments(w.trips[k].members) == Assigned(w.f, k)
    ensures w.trips[k].weight == Load(w.f.shipments, Assigned(w.f, k), true)
    ensures w.trips[k].volume == Load(w.f.shipments, Assigned(w.f, k), false)
  {
    hide Inv, Runs, TI.Unique, Assigned, ActiveShipments;
    ReachableInv(steps, w);
    var ms := w.trips[k].members;
    forall x ensures x in Assigned(w.f, k) <==> x in ActiveShipments(ms) { AssignedIsActive(steps, w, k, x); }
    forall i | 0 <= i < |ms| ensures Measured(w.f.shipments, ms[i]) {
      if ms[i].state == T.Active { ActiveIsHeld(steps, w, k, i); }
    }
    TripUnique(w, k);
    ActiveSums(w.f.shipments, ms);
  }
}
