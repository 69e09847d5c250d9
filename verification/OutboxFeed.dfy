/** How shipments and trips feed the outbox: the assumption that an aggregate's events are appended in
    order holds for everything the two services record. */
module OutboxFeed {
  import opened Shipments
  import Outbox
  import T = Trips
  import TI = TripInvariant

  /** The outbox rows of shipment `x` are its history, row by row. */
  ghost predicate Feeds(o: Outbox.State, x: Id, sh: Shipment, ids: seq<Id>) {
    && |ids| == |sh.history| && Outbox.Distinct(ids)
    && (forall i | 0 <= i < |ids| ::
          ids[i] in o.rows && o.rows[ids[i]].aggregate == x && o.rows[ids[i]].version == sh.history[i].version)
    && (forall id | id in o.rows && o.rows[id].aggregate == x :: id in ids)
  }

  /** A new shipment is announced in order. */
  lemma CreateAppends(o: Outbox.State, x: Id, sh: Shipment, id: Id, row: Outbox.Row)
    requires id !in o.rows && (forall e | e in o.rows :: o.rows[e].aggregate != x) && |sh.history| == 1
    requires row == Outbox.Row(x, sh.history[0].version, row.occurredAt, false, 0, row.due)
    ensures Outbox.CanAppend(o, id, row) && Feeds(Outbox.Append(o, id, row), x, sh, [id])
  {
  }

  lemma LastVersion(sh: Shipment, i: nat)
    requires HistoryOk(sh) && i < |sh.history|
    ensures sh.history[i].version <= sh.version
  {
    if i + 1 < |sh.history| { VersionsIncrease(sh, i, |sh.history| - 1); }
  }

  lemma RecordInOrder(o: Outbox.State, x: Id, sh: Shipment, ids: seq<Id>, id: Id, row: Outbox.Row)
    requires Feeds(o, x, sh, ids) && HistoryOk(sh) && id !in o.rows
    requires row == Outbox.Row(x, sh.version + 1, row.occurredAt, false, 0, row.due)
    ensures Outbox.CanAppend(o, id, row)
  {
    var rows' := o.rows[id := row];
    forall e | e in o.rows && o.rows[e].aggregate == row.aggregate ensures Outbox.Earlier(rows', e, id) {
      var i :| 0 <= i < |ids| && ids[i] == e;
      LastVersion(sh, i);
    }
  }

  /** Whatever is recorded of a shipment comes after everything recorded of it before, and the outbox
      goes on mirroring its history. */
  lemma RecordAppends(o: Outbox.State, x: Id, sh: Shipment, ids: seq<Id>, to: Status, event: Event, id: Id,
      row: Outbox.Row)
    requires Feeds(o, x, sh, ids) && HistoryOk(sh) && id !in o.rows
    requires row == Outbox.Row(x, sh.version + 1, row.occurredAt, false, 0, row.due)
    ensures Outbox.CanAppend(o, id, row)
    ensures Feeds(Outbox.Append(o, id, row), x, Record(sh, to, event), ids + [id])
  {
    RecordInOrder(o, x, sh, ids, id, row);
    var o', sh', ids' := Outbox.Append(o, id, row), Record(sh, to, event), ids + [id];
    assert forall i | 0 <= i < |ids| :: ids'[i] == ids[i] && sh'.history[i] == sh.history[i] && ids[i] != id;
    forall e | e in o'.rows && o'.rows[e].aggregate == x ensures e in ids' {
      if e != id { assert e in ids; }
    }
  }

  lemma RowsStay(o: Outbox.State, o': Outbox.State, x: Id, sh: Shipment, ids: seq<Id>)
    requires Feeds(o, x, sh, ids) && (forall e | e in o.rows :: e in o'.rows)
    requires forall e | e in o.rows ::
             o'.rows[e].aggregate == o.rows[e].aggregate && o'.rows[e].version == o.rows[e].version
    requires forall e | e in o'.rows && e !in o.rows :: o'.rows[e].aggregate != x
    ensures Feeds(o', x, sh, ids)
  {
  }

  lemma CommitKeepsRows(o: Outbox.State, r: Id)
    requires Outbox.Inv(o) && r in o.relays
    ensures var rows' := Outbox.Commit(o, r).rows;
            rows'.Keys == o.rows.Keys
            && forall e | e in o.rows ::
                  rows'[e].aggregate == o.rows[e].aggregate && rows'[e].version == o.rows[e].version
  {
    hide Outbox.InFlight, Outbox.LogSound, Outbox.Ordered, Outbox.Gapless;
    forall e | e in o.relays[r].marks ensures Outbox.MarkOf(o, e, o.relays[r].marks[e]) {}
  }

  /** Relays and other aggregates leave the mirror alone. */
  lemma FeedsKept(o: Outbox.State, step: Outbox.Step, x: Id, sh: Shipment, ids: seq<Id>)
    requires Outbox.Inv(o) && Outbox.Enabled(o, step) && Feeds(o, x, sh, ids)
    requires (step.DoAppend? ==> step.row.aggregate != x)
    ensures Feeds(Outbox.Apply(o, step), x, sh, ids)
  {
    hide Outbox.Inv, Feeds, Outbox.Earlier;
    if step.DoCommit? { CommitKeepsRows(o, step.r); }
    RowsStay(o, Outbox.Apply(o, step), x, sh, ids);
  }

  // ----- Trips -----

  /** Nothing announced of the trip is ahead of it. */
  ghost predicate Behind(o: Outbox.State, t: T.Trip) {
    forall e | e in o.rows && o.rows[e].aggregate == t.id :: o.rows[e].version <= t.version
  }

  /** The transactions that write an outbox row: approval, reopening, dispatch, a driver's action and
      the end of a cancellation. */
  predicate Announces(t: T.Trip, step: T.TripStep)
    requires T.Guard(t, step)
  {
    || step.DoApprove? || step.DoReopen? || step.DoCommitTrip? || step.DoDrive?
    || (step.DoFinalize? && T.Do(t, step).status == T.TripCanceled)
  }

  lemma AnnouncedVersion(t: T.Trip, step: T.TripStep)
    requires T.Guard(t, step) && Announces(t, step)
    ensures T.Do(t, step).version == t.version + 1 && T.Do(t, step).id == t.id
  {
    hide T.NoneLeft, T.InputReady, T.Permutation, T.IsNext, T.Places, T.Results, T.ActiveWeight, T.ActiveVolume;
  }

  /** What a trip announces, with the version its transaction leaves, comes after everything announced
      of it before. */
  lemma TripAppends(o: Outbox.State, t: T.Trip, step: T.TripStep, id: Id, row: Outbox.Row)
    requires Behind(o, t) && T.Guard(t, step) && Announces(t, step) && id !in o.rows
    requires row == Outbox.Row(t.id, T.Do(t, step).version, row.occurredAt, false, 0, row.due)
    ensures Outbox.CanAppend(o, id, row) && Behind(Outbox.Append(o, id, row), T.Do(t, step))
  {
    hide T.Guard, T.Do, Announces;
    AnnouncedVersion(t, step);
  }

  /** The other transactions leave nothing ahead of the trip either: its version never drops. */
  lemma TripStaysAhead(o: Outbox.State, t: T.Trip, step: T.TripStep)
    requires Behind(o, t) && T.Guard(t, step)
    ensures Behind(o, T.Do(t, step))
  {
    hide T.Guard, T.Do;
    TI.StepStable(t, step);
    TI.DoKeepsId(t, step);
  }

  /** Relays and other aggregates leave it so. */
  lemma BehindKept(o: Outbox.State, step: Outbox.Step, t: T.Trip)
    requires Outbox.Inv(o) && Outbox.Enabled(o, step) && Behind(o, t) && (step.DoAppend? ==> step.row.aggregate != t.id)
    ensures Behind(Outbox.Apply(o, step), t)
  {
    hide Outbox.Inv, Outbox.Earlier;
    if step.DoCommit? { CommitKeepsRows(o, step.r); }
  }

  // ----- A whole run of a trip -----

  /** The outbox after a run of the trip that appends the given rows, one for each announcement. */
  ghost predicate Feeding(o: Outbox.State, t: T.Trip, steps: seq<T.TripStep>, ids: seq<Id>, rows: seq<Outbox.Row>,
      o': Outbox.State)
    decreases |steps|
  {
    if steps == [] then ids == [] && rows == [] && o' == o
    else
      T.Guard(t, steps[0]) &&
      if !Announces(t, steps[0]) then Feeding(o, T.Do(t, steps[0]), steps[1..], ids, rows, o')
      else
        && ids != [] && rows != [] && ids[0] !in o.rows
        && rows[0] == Outbox.Row(t.id, T.Do(t, steps[0]).version, rows[0].occurredAt, false, 0, rows[0].due)
        && Feeding(Outbox.Append(o, ids[0], rows[0]), T.Do(t, steps[0]), steps[1..], ids[1..], rows[1..], o')
  }

  /** The same appends as steps of the outbox. */
  ghost predicate Appending(o: Outbox.State, ids: seq<Id>, rows: seq<Outbox.Row>, o': Outbox.State)
    decreases |ids|
  {
    if ids == [] || rows == [] then ids == [] && rows == [] && o' == o
    else
      Outbox.Enabled(o, Outbox.DoAppend(ids[0], rows[0]))
      && Appending(Outbox.Apply(o, Outbox.DoAppend(ids[0], rows[0])), ids[1..], rows[1..], o')
  }

  /** Along every run of a trip each of its announcements meets the outbox's condition for appending. */
  lemma {:induction false} TripFeeds(o: Outbox.State, t: T.Trip, steps: seq<T.TripStep>, ids: seq<Id>,
      rows: seq<Outbox.Row>, o': Outbox.State)
    requires Behind(o, t) && Feeding(o, t, steps, ids, rows, o')
    ensures Appending(o, ids, rows, o')
    decreases |steps|
  {
    hide T.Guard, T.Do, Behind, Outbox.CanAppend, Announces;
    if steps != [] {
      if Announces(t, steps[0]) {
        TripAppends(o, t, steps[0], ids[0], rows[0]);
        TripFeeds(Outbox.Append(o, ids[0], rows[0]), T.Do(t, steps[0]), steps[1..], ids[1..], rows[1..], o');
      } else {
        TripStaysAhead(o, t, steps[0]);
        TripFeeds(o, T.Do(t, steps[0]), steps[1..], ids, rows, o');
      }
    }
  }
}
