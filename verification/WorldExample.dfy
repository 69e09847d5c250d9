/** One run, step by step, to the states in which a property of the two services needs its condition. */
module WorldExample {
  import opened Shipments
  import F = Fulfillment
  import FI = FulfillmentInvariant
  import FR = FulfillmentRuns
  import T = Trips
  import opened World
  import opened WorldInvariant
  import opened WorldTheorems
  import opened WorldDispatch
  import opened WorldReleases
  import opened WorldDelivery

  ghost predicate Reachable(w: World) { exists steps :: Runs(START, steps, w) }

  lemma {:induction false} RunsThen(a: World, xs: seq<Step>, b: World, y: Step)
    requires Runs(a, xs, b) && Enabled(b, y)
    ensures Runs(a, xs + [y], Apply(b, y))
    decreases |xs|
  {
    hide Enabled, Apply;
    if xs == [] {
      assert xs + [y] == [y] && [y][1..] == [];
      assert Runs(Apply(b, y), [], Apply(b, y));
    } else {
      RunsThen(Apply(a, xs[0]), xs[1..], b, y);
      assert (xs + [y])[1..] == xs[1..] + [y];
    }
  }

  lemma Next(w: World, step: Step, w': World)
    requires Reachable(w) && Enabled(w, step) && Apply(w, step) == w'
    ensures Reachable(w')
  {
    hide Enabled, Apply;
    var steps :| Runs(START, steps, w);
    RunsThen(START, steps, w, step);
  }

  // ----- A shipment made ready -----

  const EV: F.OrderEvent := F.OrderEvent(100, 5, 1, true, 6, 10, 20, true)
  const S1: Shipment := NewShipment(5, 6, 10, 20, true)
  const S2: Shipment := Record(S1, Picking, StartedPicking)
  const S3: Shipment := Record(S2, Ready, MadeReady)

  const F0: F.State := F.INIT.(handling := map[100 := (EV, true)])
  const F1: F.State := F.INIT.(shipments := map[4 := S1], byOrder := map[5 := 4],
      cursors := map[5 := F.Cursor(1, false)], orderInbox := map[100 := EV])
  const F2: F.State := F1.(shipments := map[4 := S2])
  const F3: F.State := F1.(shipments := map[4 := S3])

  lemma NextOwn(w: World, s: F.Step, f': F.State)
    requires Reachable(w) && Own(s) && F.Enabled(w.f, s) && Unreserved(w, s) && F.Apply(w.f, s) == f'
    ensures Reachable(w.(f := f'))
  {
    hide Reachable, Runs, F.Enabled, F.Apply;
    Next(w, Fulfil(s), w.(f := f'));
  }

  lemma Picked()
    ensures F.Apply(F1, F.DoCommand(4, 1, F.StartPicking)) == F2 && F.Apply(F2, F.DoCommand(4, 2, F.MarkReady)) == F3
  {
  }

  lemma ShipmentReady()
    ensures Reachable(START.(f := F3))
  {
    hide Reachable, Runs, F.Apply, Record, NewShipment;
    Begin();
    assert F.Apply(F.INIT, F.DoOrderRead(EV)) == F0 by { OrderRead(); }
    NextOwn(START, F.DoOrderRead(EV), F0);
    OrderArrives();
    NextOwn(START.(f := F0), F.DoOrderTx(100, 4), F1);
    Picked();
    NextOwn(START.(f := F1), F.DoCommand(4, 1, F.StartPicking), F2);
    NextOwn(START.(f := F2), F.DoCommand(4, 2, F.MarkReady), F3);
  }

  lemma OrderRead()
    ensures F.Apply(F.INIT, F.DoOrderRead(EV)) == F0
  {
  }

  lemma Begin()
    ensures Reachable(START)
  {
    assert Runs(START, [], START);
  }

  lemma OrderArrives()
    ensures F.Enabled(F0, F.DoOrderTx(100, 4)) && F.Apply(F0, F.DoOrderTx(100, 4)) == F1
  {
    assert F0.handling - {100} == map[];
  }

  // ----- A claim granted to a row -----

  const LINES: seq<T.Line> := [T.Line(4, 3, 200)]
  const Q: F.ClaimRequest := F.ClaimRequest(200, 1, 4, 50, 2, 3)
  const R: F.Receipt := F.Claimed(Q, 300, 4, 10, 20)
  const M1: T.Member := T.Member(4, 0, T.ClaimPending, Q, None, 3, 0, 0, None)
  const T1: T.Trip := T.NewTrip(1, Some(9))
  const T2: T.Trip := T1.(version := 2, members := [M1], ops := [T.Op(T.Add, T.OpPending, 50, [4], [])],
      lock := Some(0))
  const S4: Shipment := S3.(trip := Some(1), claim := Some(300), version := 4)
  const F4: F.State := F1.(shipments := map[4 := S4], ledger := [R])

  /** The world with this one trip, and nothing remembered. */
  function With(t: T.Trip, f: F.State, requests: map<Id, Slot>): World {
    World(map[1 := t], f, map[], requests, map[], map[], map[], map[], {})
  }

  const ONE: map<Id, Slot> := map[200 := Slot(1, 0, false)]
  const W1: World := With(T1, F3, map[])
  const W2: World := With(T2, F3, ONE)
  const W3: World := With(T2, F4, ONE).(mem := map[1 := (0, F.Ok(R))])

  /** A trip transaction that is no DispatchAccept, on the one trip there is. */
  lemma NextTrip(t: T.Trip, f: F.State, requests: map<Id, Slot>, s: T.TripStep, t': T.Trip)
    requires Reachable(With(t, f, requests)) && t.id == 1 && CanLocal(With(t, f, requests), 1, s)
    requires T.Do(t, s) == t' && t'.id == 1 && !s.DoAccept?
    ensures Reachable(With(t', f, Registered(requests, 1, t'.members)))
  {
    hide Reachable, Runs, CanLocal, T.Do, Registered;
    var w := With(t, f, requests);
    Next(w, Local(1, s), With(t', f, Registered(requests, 1, t'.members)));
  }

  lemma RowAdded()
    ensures CanLocal(W1, 1, T.DoAdd(1, 50, LINES)) && T.Do(T1, T.DoAdd(1, 50, LINES)) == T2
  {
    assert T.PresentShipments([]) == {};
    assert T.LineShipments(LINES) == [4];
  }

  lemma OneRegistered(requests: map<Id, Slot>, m: T.Member)
    requires m.releaseReq == None
    ensures Registered(requests, 1, [m]) == requests[m.claimReq.id := Slot(1, 0, false)]
  {
    assert [m][..0] == [];
    assert Registered(requests, 1, []) == requests;
  }

  lemma ClaimGranted()
    ensures Enabled(W2, CallClaim(1, 0, 300, true)) && Apply(W2, CallClaim(1, 0, 300, true)) == W3
  {
    assert F.ClaimReply(F3, Q, 300) == F.Ok(R);
    assert F.Claim(F3, Q, 300) == F4;
  }

  lemma GrantKnown()
    ensures Reachable(W3)
  {
    hide Reachable, Runs, Enabled, Apply, CanLocal, T.Do, Registered;
    ShipmentReady();
    assert Enabled(START.(f := F3), Create(1, Some(9))) && Apply(START.(f := F3), Create(1, Some(9))) == W1 by {
      TripCreated();
    }
    Next(START.(f := F3), Create(1, Some(9)), W1);
    RowAdded();
    OneRegistered(map[], M1);
    NextTrip(T1, F3, map[], T.DoAdd(1, 50, LINES), T2);
    ClaimGranted();
    Next(W2, CallClaim(1, 0, 300, true), W3);
  }

  lemma TripCreated()
    ensures Enabled(START.(f := F3), Create(1, Some(9))) && Apply(START.(f := F3), Create(1, Some(9))) == W1
  {
  }

  lemma Compensated()
    ensures T.Guard(T2, T.DoCompensate(None, [201])) && T.Do(T2, T.DoCompensate(None, [201])).id == 1
    ensures T.Do(T2, T.DoCompensate(None, [201])).members == [M1.(state := T.Released)]
  {
  }

  /** A claim that leaks: the grant is remembered, its snapshot fails the schema, and the operation is
      compensated without the receipt. The row is released and the shipment stays claimed. */
  lemma LeakExample() returns (w: World)
    ensures Reachable(w) && HasRow(w, 1, 0, M1.(state := T.Released)) && StillHeld(w.f, M1.(state := T.Released))
  {
    hide Reachable, Runs, Registered, T.Guard, T.Do;
    GrantKnown();
    Compensated();
    w := Botched(W3, 1, [201]);
    Next(W3, Botch(1, [201]), w);
    assert R in F4.ledger && Holds(F4, M1.(state := T.Released), 300);
  }

  // ----- A trip with its shipment on board -----

  const M2: T.Member := M1.(state := T.Active, claim := Some(300), version := 4, weight := 10, volume := 20)
  const T3: T.Trip := T2.(members := [M2], stops := map[4 := T.Stop(true, T.Waiting, None, 1)], weight := 10,
      volume := 20)
  const T4: T.Trip := T3.(version := 3, lock := None, ops := [T.Op(T.Add, T.OpCompleted, 50, [4], [(4, T.Active)])])

  lemma OneRow(m: T.Member)
    ensures T.ActiveWeight([m]) == (if m.state == T.Active then m.weight else 0)
    ensures T.ActiveVolume([m]) == if m.state == T.Active then m.volume else 0
    ensures forall op :: T.Results([m], op) == if m.op == op then [(m.shipment, m.state)] else []
    ensures T.PresentShipments([m]) == if T.Present(m) then {m.shipment} else {}
  {
    assert [m][..0] == [];
    assert forall op :: T.Results([], op) == [];
  }

  lemma ClaimStored()
    ensures T.Guard(T2, T.DoPersistClaim(0, R)) && T.Do(T2, T.DoPersistClaim(0, R)) == T3
  {
    OneRow(M2);
    hide T.ActiveWeight, T.ActiveVolume;
    assert [M1][0 := M2] == [M2];
  }

  lemma AddFinished()
    ensures T.Guard(T3, T.DoFinalize) && T.Do(T3, T.DoFinalize) == T4
  {
    OneRow(M2);
    hide T.ActiveWeight, T.ActiveVolume, T.Results;
    assert T3.ops[0 := T4.ops[0]] == T4.ops;
  }

  lemma QuietlyNext(t: T.Trip, f: F.State, s: T.TripStep, t': T.Trip)
    requires Reachable(With(t, f, ONE)) && t.id == 1 && T.Guard(t, s) && T.Do(t, s) == t' && t'.id == 1
    requires s.DoFinalize? || s.DoPreview? || s.DoRead? || s.DoApprove? || s.DoSelect?
    requires t'.members == [M2]
    ensures Reachable(With(t', f, ONE))
  {
    hide Reachable, Runs, T.Guard, T.Do, Registered;
    OneRegistered(ONE, M2);
    assert ONE[200 := Slot(1, 0, false)] == ONE;
    NextTrip(t, f, ONE, s, t');
  }

  lemma OnBoard()
    ensures Reachable(With(T4, F4, ONE))
  {
    hide Reachable, Runs, T.Guard, T.Do, Registered;
    GrantKnown();
    ClaimStored();
    OneRegistered(ONE, M2);
    assert Apply(W3, KeepClaim(1)) == With(T3, F4, ONE);
    Next(W3, KeepClaim(1), With(T3, F4, ONE));
    AddFinished();
    QuietlyNext(T3, F4, T.DoFinalize, T4);
  }

  // ----- Releases that never go through -----

  function Q2(actor: Id): F.ReleaseRequest { F.ReleaseRequest(201, 300, 1, 4, actor, 4, 4) }
  function M3(actor: Id): T.Member { M2.(op := 1, state := T.ReleasePending, releaseReq := Some(Q2(actor))) }
  function T5(actor: Id): T.Trip {
    T4.(version := 4, members := [M3(actor)], ops := T4.ops + [T.Op(T.Remove, T.OpPending, actor, [4], [])],
        lock := Some(1))
  }
  const TWO: map<Id, Slot> := map[200 := Slot(1, 0, false), 201 := Slot(1, 0, true)]

  lemma Removed(actor: Id)
    ensures CanLocal(With(T4, F4, ONE), 1, T.DoRemove(3, actor, [4], [201]))
    ensures T.Do(T4, T.DoRemove(3, actor, [4], [201])) == T5(actor)
  {
    assert T4.members[0].shipment == 4;
    assert T.LeaveAll(T4, {4}, actor, [201]) == [M3(actor)];
    assert T.Listing([4]) == {4};
    assert [M2][..0] == [];
    assert T.Picked([M2], {4}) == [4];
  }

  lemma RemovalRegistered(actor: Id)
    ensures Registered(ONE, 1, [M3(actor)]) == TWO
  {
    assert [M3(actor)][..0] == [];
    assert Registered(ONE, 1, []) == ONE;
  }

  lemma Removing(actor: Id)
    ensures Reachable(With(T5(actor), F4, TWO))
  {
    hide Reachable, Runs, T.Do, CanLocal, Registered;
    OnBoard();
    Removed(actor);
    RemovalRegistered(actor);
    NextTrip(T4, F4, ONE, T.DoRemove(3, actor, [4], [201]), T5(actor));
  }

  lemma NotAnswered()
    ensures Unsent([R], 201)
  {
    assert [R][..0] == [];
  }

  /** Someone other than the claiming actor removes the shipment: the row waits for good. */
  lemma StuckExample() returns (w: World)
    ensures Reachable(w) && Waits(w, 1, 0, M3(51)) && !Timely(w.f, M3(51), Q2(51))
  {
    hide Reachable, Runs, Unsent;
    Removing(51);
    NotAnswered();
    w := With(T5(51), F4, TWO);
  }

  const EV2: F.OrderEvent := F.OrderEvent(101, 5, 2, false, 6, 0, 0, true)
  const S8: Shipment := Record(S4, Canceled, WasCanceled)
  const F8: F.State := F4.(handling := map[101 := (EV2, false)])
  const F9: F.State := F4.(shipments := map[4 := S8], cursors := map[5 := F.Cursor(2, true)],
      orderInbox := map[100 := EV, 101 := EV2])

  lemma OrderCanceled()
    ensures F.Enabled(F4, F.DoOrderRead(EV2)) && F.Apply(F4, F.DoOrderRead(EV2)) == F8
    ensures F.Enabled(F8, F.DoOrderTx(101, 9)) && F.Apply(F8, F.DoOrderTx(101, 9)) == F9
  {
    assert S4.intent == None && S4.status == Ready;
    assert F.CancelOne(S4) == S8;
    assert F8.handling - {101} == map[];
    assert F4.orderInbox[101 := EV2] == F9.orderInbox && F4.cursors[5 := F.Cursor(2, true)] == F9.cursors;
    assert F4.shipments[4 := S8] == F9.shipments;
  }

  /** The claiming actor himself removes the shipment, and its order is canceled before the release
      is applied: the shipment has moved past the version the release names, and the row is no longer
      active, so the cancellation cannot take it off either. It waits for good. */
  lemma StaleExample() returns (w: World)
    ensures Reachable(w) && Waits(w, 1, 0, M3(50)) && Q2(50).actor == M3(50).claimReq.actor
    ensures !Timely(w.f, M3(50), Q2(50))
    ensures forall i, entry, request :: !CanNotice(w, 1, i, entry, request)
  {
    hide Reachable, Runs, Unsent, F.Enabled, F.Apply;
    Removing(50);
    NotAnswered();
    OrderCanceled();
    var v := With(T5(50), F4, TWO);
    NextOwn(v, F.DoOrderRead(EV2), F8);
    NextOwn(v.(f := F8), F.DoOrderTx(101, 9), F9);
    w := v.(f := F9);
  }

  // ----- A dispatch rejected too late -----

  const A: T.Approval := T.Approval(3, 3, (100, 100), [4])
  const B: F.BatchRequest := F.BatchRequest(7, 1, 50, 4, 70, 1, [F.Item(4, 5, 6, 4, 8)])
  const T6: T.Trip := T4.(tokens := {3})
  const T7: T.Trip := T6.(approvals := {A})
  const T8: T.Trip := T7.(stops := map[4 := T.Stop(true, T.Waiting, Some(1), 2)], status := T.Approved,
      plan := Some(T.Plan(70, [4])), capacity := Some((100, 100)), version := 4)
  const T9: T.Trip := T8.(selections := {B})
  const T10: T.Trip := T9.(dispatches := [T.Dispatch(B, T.Accepted, None)])
  const T11: T.Trip := T9.(dispatches := [T.Dispatch(B, T.Submitted, None)])

  lemma Previewed()
    ensures T.Guard(T4, T.DoPreview(3)) && T.Do(T4, T.DoPreview(3)) == T6
    ensures T.Guard(T6, T.DoRead(3, (100, 100), [4])) && T.Do(T6, T.DoRead(3, (100, 100), [4])) == T7
  {
    OneRow(M2);
    hide T.ActiveWeight, T.ActiveVolume, T.PresentShipments;
    assert T.LiveStops(T4.stops) == {4};
    assert T4.members[0] == M2;
  }

  lemma RouteApproved()
    ensures T.Guard(T7, T.DoApprove(A, 70)) && T.Do(T7, T.DoApprove(A, 70)) == T8
  {
    assert T.LiveStops(T7.stops) == {4};
    assert T.Cleared(T7.stops) == T7.stops;
    assert [4][..0] == [];
    assert T.Places(T7.stops, []) == T7.stops;
    assert T.Places(T7.stops, [4]) == T8.stops;
  }

  lemma Selected()
    ensures T.Guard(T8, T.DoSelect(B)) && T.Do(T8, T.DoSelect(B)) == T9
  {
    hide T.Matches;
    Lists();
  }

  lemma Lists()
    ensures T.Matches([M2], B)
  {
    assert [M2][0] == M2 && B.items[0].shipment == 4;
  }

  /** The same world once the dispatch is accepted, with these resumes at work. */
  function Sent(t: T.Trip, f: F.State, flights: map<Id, Flight>): World {
    World(map[1 := t], f, map[], ONE, map[7 := (1, 0)], map[8 := 7], flights, map[], {})
  }

  lemma DispatchAccepted()
    ensures CanLocal(With(T9, F4, ONE), 1, T.DoAccept(B)) && T.Do(T9, T.DoAccept(B)) == T10
  {
  }

  lemma IdReserved()
    ensures Reserved(map[], B) == map[8 := 7]
  {
    assert B.items[0].dispatch == 8;
    assert Intents(B.items) == {8};
  }

  lemma AcceptStep()
    ensures Enabled(With(T9, F4, ONE), Local(1, T.DoAccept(B)))
    ensures Apply(With(T9, F4, ONE), Local(1, T.DoAccept(B))) == Sent(T10, F4, map[])
  {
    hide CanLocal, T.Do, Registered, Reserved;
    DispatchAccepted();
    IdReserved();
    OneRegistered(ONE, M2);
    assert ONE[200 := Slot(1, 0, false)] == ONE;
  }

  const R1: Flight := Flight(1, 0, false)
  const R2: Flight := Flight(1, 0, true)

  lemma ResumeStarts(flights: map<Id, Flight>, r: Id)
    requires r !in flights
    ensures Enabled(Sent(T10, F4, flights), Resume(r, 1, 0))
    ensures Apply(Sent(T10, F4, flights), Resume(r, 1, 0)) == Sent(T10, F4, flights[r := R1])
  {
  }

  /** Two resumes read the row while it is ACCEPTED. */
  lemma TwoResumes()
    ensures Reachable(Sent(T10, F4, map[1 := R1, 2 := R1]))
  {
    hide Reachable, Runs, T.Guard, T.Do, Enabled, Apply;
    OnBoard();
    Previewed();
    QuietlyNext(T4, F4, T.DoPreview(3), T6);
    QuietlyNext(T6, F4, T.DoRead(3, (100, 100), [4]), T7);
    RouteApproved();
    QuietlyNext(T7, F4, T.DoApprove(A, 70), T8);
    Selected();
    QuietlyNext(T8, F4, T.DoSelect(B), T9);
    AcceptStep();
    Next(With(T9, F4, ONE), Local(1, T.DoAccept(B)), Sent(T10, F4, map[]));
    ResumeStarts(map[], 1);
    Next(Sent(T10, F4, map[]), Resume(1, 1, 0), Sent(T10, F4, map[1 := R1]));
    ResumeStarts(map[1 := R1], 2);
    Next(Sent(T10, F4, map[1 := R1]), Resume(2, 1, 0), Sent(T10, F4, map[1 := R1, 2 := R1]));
  }

  /** The stage is ACCEPTED and fulfillment has never heard of the batch, but another resume holds the
      payload: after the first one's rejection some run dispatches the batch all the same. */
  lemma OverlapExample() returns (w: World, steps: seq<Step>, w': World)
    ensures Reachable(w) && InFlight(w, 1) && RowHeld(w, 1) == T.Dispatch(B, T.Accepted, None) && w.f.batches == map[]
    ensures !Harmless(w, 1) && Runs(LateRejected(w, 1), steps, w') && !NoneUnder(w'.f, 7)
  {
    hide Reachable, Runs, Inv, NoneUnder;
    TwoResumes();
    w := Sent(T10, F4, map[1 := R1, 2 := R1]);
    ReachedInv(w);
    assert SameRow(w.flights[2], w.flights[1]);
    assert F.Dispatchable(F4, 1, B.items[0]);
    steps, w' := HarmRun(w, 1);
  }

  lemma ReachedInv(w: World)
    requires Reachable(w)
    ensures Inv(w)
  {
    hide Inv, Runs;
    var steps :| Runs(START, steps, w);
    ReachableInv(steps, w);
  }

  const S5: Shipment := S4.(intent := Some(Intent(8, Some(7), IntentPending, false, None)))
  const S6: Shipment := S4.(intent := Some(Intent(8, Some(7), IntentPending, true, None)))
  const S7: Shipment := F.Issue(S6)
  const F5: F.State := F4.(shipments := map[4 := S5], batches := map[7 := F.Batch(B, F.BatchPending, None, [])])
  const F6: F.State := F4.(shipments := map[4 := S6], batches := map[7 := F.Batch(B, F.BatchPending, Some(true), [])])
  const F7: F.State := F4.(shipments := map[4 := S7],
      batches := map[7 := F.Batch(B, F.BatchCompleted, Some(true), [F.ItemReceipt(4, 8, 5)])])

  lemma BatchPrepared()
    ensures F.Enabled(F4, F.DoPrepare(B)) && F.Prepare(F4, B) == F5
  {
    assert F.Dispatchable(F4, 1, B.items[0]);
    assert B.items[..0] == [];
    assert F.Hold(F4.shipments, 7, []) == F4.shipments;
    assert F.Hold(F4.shipments, 7, B.items) == F5.shipments;
  }

  lemma BatchDecided()
    ensures F.Enabled(F5, F.DoDecide(7, true)) && F.Apply(F5, F.DoDecide(7, true)) == F6
  {
    hide F.Grant;
    GrantMarks();
  }

  lemma GrantMarks()
    ensures F.Grant(F5.shipments, B.items) == F6.shipments
  {
    assert B.items[0].dispatch == 8;
  }

  lemma BatchCommitted()
    ensures F.Enabled(F6, F.DoCommit(7)) && F.Apply(F6, F.DoCommit(7)) == F7
  {
    hide F.Issue;
    assert F.BindingIntact(F6.shipments, 1, B.items[0]);
    assert B.items[..0] == [];
    assert F.IssueAll(F6.shipments, []) == F6.shipments;
    assert F.IssueAll(F6.shipments, B.items) == F7.shipments;
    assert S7.version == 5 by { Issued(S6); }
    assert F.ReceiptsOf(F7.shipments, B.items) == [F.ItemReceipt(4, 8, 5)];
  }

  lemma Issued(sh: Shipment)
    requires sh.intent.Some?
    ensures F.Issue(sh).version == sh.version + 1
  {
  }

  const BOTH: map<Id, Flight> := map[1 := R1, 2 := R2]

  lemma DispatchSubmitted()
    ensures T.Guard(T10, T.DoSubmit(0)) && T.Do(T10, T.DoSubmit(0)) == T11
  {
    assert T10.dispatches[0 := T.Dispatch(B, T.Submitted, None)] == T11.dispatches;
  }

  lemma ClearStep(w: World, r: Id)
    requires InFlight(w, r) && !w.flights[r].cleared && T.Bound(TripHeld(w, r), RowHeld(w, r).request)
    ensures Enabled(w, Clear(r)) && Apply(w, Clear(r)) == Passed(w, r)
  {
    hide Passed, T.Bound;
  }

  lemma SecondCleared()
    ensures var w := Sent(T10, F4, map[1 := R1, 2 := R1]);
            && InFlight(w, 2) && !w.flights[2].cleared && T.Bound(TripHeld(w, 2), RowHeld(w, 2).request)
            && Passed(w, 2) == Sent(T11, F4, BOTH)
  {
    hide Registered, T.Do;
    DispatchSubmitted();
    OneRegistered(ONE, M2);
    assert ONE[200 := Slot(1, 0, false)] == ONE;
  }

  lemma BatchSent()
    ensures Enabled(Sent(T11, F4, BOTH), Send(2)) && Apply(Sent(T11, F4, BOTH), Send(2)) == Sent(T11, F5, BOTH)
  {
    hide F.Enabled, F.Prepare;
    BatchPrepared();
  }

  lemma NextSent(t: T.Trip, f: F.State, s: F.Step, f': F.State)
    requires Reachable(Sent(t, f, BOTH)) && Own(s) && !s.DoIntend? && F.Enabled(f, s) && F.Apply(f, s) == f'
    ensures Reachable(Sent(t, f', BOTH))
  {
    hide Reachable, Runs, F.Enabled, F.Apply, Own;
    NextOwn(Sent(t, f, BOTH), s, f');
  }

  lemma BatchRuns()
    ensures Reachable(Sent(T11, F7, BOTH))
  {
    hide Reachable, Runs, Enabled, Apply, F.Enabled, F.Apply, F.Issue, Passed;
    TwoResumes();
    SecondCleared();
    ClearStep(Sent(T10, F4, map[1 := R1, 2 := R1]), 2);
    Next(Sent(T10, F4, map[1 := R1, 2 := R1]), Clear(2), Sent(T11, F4, BOTH));
    BatchSent();
    Next(Sent(T11, F4, BOTH), Send(2), Sent(T11, F5, BOTH));
    BatchDecided();
    NextSent(T11, F5, F.DoDecide(7, true), F6);
    BatchCommitted();
    NextSent(T11, F6, F.DoCommit(7), F7);
  }

  lemma BatchDispatched()
    ensures DispatchedBy(F7, B)
  {
  }

  /** The batch has dispatched while the dispatch row still says SUBMITTED. A rejection decided
      earlier, on reading ACCEPTED, and written now breaks the agreement. */
  lemma LateRejectExample() returns (w: World)
    ensures Reachable(w) && InFlight(w, 1) && RowHeld(w, 1) == T.Dispatch(B, T.Submitted, None)
    ensures DispatchedBy(w.f, B) && !Harmless(w, 1)
  {
    hide Reachable, Runs, F.Issue;
    BatchRuns();
    BatchDispatched();
    w := Sent(T11, F7, BOTH);
  }

  // ----- A delivery result overtaken by a warehouse command -----

  const T12: T.Trip := T9.(dispatches := [T.Dispatch(B, T.Receipted, None)])
  const T13: T.Trip := T9.(dispatches := [T.Dispatch(B, T.DispatchDone, Some(5))], status := T.InProgress, version := 5)
  const T14: T.Trip := T13.(stops := map[4 := T.Stop(true, T.DroppedOff, Some(1), 3)], status := T.TripCompleted,
      version := 6, attempts := [T.Attempt(4, true, 0)])

  lemma Receipted()
    ensures T.Guard(T11, T.DoReceipt(0, true)) && T.Do(T11, T.DoReceipt(0, true)) == T12
  {
    assert T11.dispatches[0 := T.Dispatch(B, T.Receipted, None)] == T12.dispatches;
  }

  lemma ReceiveStep(w: World, r: Id, t': T.Trip)
    requires CanReceive(w, r)
    requires T.Do(TripHeld(w, r), T.DoReceipt(w.flights[r].d, Granted(w, RowHeld(w, r).request))) == t'
    ensures Enabled(w, Receive(r)) && Apply(w, Receive(r)) == Put(w, t')
  {
    hide T.Guard, T.Do, Complete, Put;
  }

  lemma ReceiptReady()
    ensures CanReceive(Sent(T11, F7, BOTH), 2) && Granted(Sent(T11, F7, BOTH), B)
  {
    hide T.Guard, F.Issue;
    Receipted();
    assert F7.batches[7].receipts[0] == F.ItemReceipt(4, 8, B.items[0].version + 1);
    assert Confirms(F7.batches[7].receipts, B.items[0]);
  }

  lemma ReceiptStored()
    ensures Enabled(Sent(T11, F7, BOTH), Receive(2)) && Apply(Sent(T11, F7, BOTH), Receive(2)) == Sent(T12, F7, BOTH)
  {
    hide Registered, T.Do, T.Guard, F.Issue, Enabled, Apply, CanReceive;
    ReceiptReady();
    Receipted();
    OneRegistered(ONE, M2);
    assert ONE[200 := Slot(1, 0, false)] == ONE;
    ReceiveStep(Sent(T11, F7, BOTH), 2, T12);
  }

  lemma Driven()
    ensures T.Guard(T12, T.DoCommitTrip(0)) && T.Do(T12, T.DoCommitTrip(0)) == T13
    ensures T.Guard(T13, T.DoDrive(4, 5, 2, true, 0)) && T.Do(T13, T.DoDrive(4, 5, 2, true, 0)) == T14
  {
    assert T12.dispatches[0 := T.Dispatch(B, T.DispatchDone, Some(5))] == T13.dispatches;
    assert T13.stops[4 := T14.stops[4]] == T14.stops;
  }

  lemma NextLocal(t: T.Trip, f: F.State, s: T.TripStep, t': T.Trip)
    requires Reachable(Sent(t, f, BOTH)) && t.id == 1 && T.Guard(t, s) && T.Do(t, s) == t' && t'.id == 1
    requires (s.DoCommitTrip? || s.DoDrive?) && t'.members == [M2]
    ensures Reachable(Sent(t', f, BOTH))
  {
    hide Reachable, Runs, T.Guard, T.Do, Registered;
    OneRegistered(ONE, M2);
    assert ONE[200 := Slot(1, 0, false)] == ONE;
    Next(Sent(t, f, BOTH), Local(1, s), Sent(t', f, BOTH));
  }

  const EV3: F.DeliveryEvent := F.DeliveryEvent(300, F.Result(1, 4, 4, true, 0), 0)
  const S9: Shipment := Record(S7, Failed, DeliveryFailed)
  const F10: F.State := F7.(landing := map[300 := EV3])
  const F11: F.State := F10.(shipments := map[4 := S9])

  lemma ResultRead()
    ensures F.Enabled(F7, F.DoDeliver(EV3, None)) && F.Apply(F7, F.DoDeliver(EV3, None)) == F10
  {
    assert S7.status == Dispatched && S7.trip == Some(1);
    hide F.Issue;
  }

  lemma MarkedFailed()
    ensures F.Enabled(F10, F.DoCommand(4, 5, F.MarkFailed)) && F.Apply(F10, F.DoCommand(4, 5, F.MarkFailed)) == F11
  {
    assert S7.status == Dispatched && S7.version == 5 && !Pending(S7.intent);
    hide F.Issue, Record;
  }

  lemma ResultOvertaken()
    ensures Reachable(Sent(T14, F11, BOTH))
  {
    hide Reachable, Runs, Enabled, Apply, F.Enabled, F.Apply, F.Issue, T.Guard, T.Do, Own, Record;
    BatchRuns();
    ReceiptStored();
    Next(Sent(T11, F7, BOTH), Receive(2), Sent(T12, F7, BOTH));
    Driven();
    NextLocal(T12, F7, T.DoCommitTrip(0), T13);
    NextLocal(T13, F7, T.DoDrive(4, 5, 2, true, 0), T14);
    ResultRead();
    OwnSteps();
    NextSent(T14, F7, F.DoDeliver(EV3, None), F10);
    MarkedFailed();
    NextSent(T14, F10, F.DoCommand(4, 5, F.MarkFailed), F11);
  }

  /** The driver's result has been read as applicable when someone marks the shipment as failed: the
      write that follows leaves the FAILED shipment DELIVERED and its history broken. */
  lemma RaceExample() returns (w: World)
    ensures Reachable(w) && 300 in w.f.landing && Emitted(w.trips, w.f.landing[300].result)
    ensures w.f.landing[300].result.shipment == 4 && 4 in w.f.shipments && w.f.shipments[4].status == Failed
    ensures 4 in F.LandResult(w.f, 300).shipments && F.LandResult(w.f, 300).shipments[4].status == Delivered
    ensures !HistoryOk(F.LandResult(w.f, 300).shipments[4])
  {
    hide Reachable, Runs, F.Issue, Inv, FI.Inv, HistoryOk;
    ResultOvertaken();
    w := Sent(T14, F11, BOTH);
    ReachedInv(w);
    StateOf(w);
    assert T14.attempts[0] == T.Attempt(4, true, 0);
    FR.LandResultIff(F11, 300);
  }

  lemma OwnSteps()
    ensures Own(F.DoDeliver(EV3, None)) && Own(F.DoCommand(4, 5, F.MarkFailed))
  {
  }
}
