/** The transactional outbox: rows written with the aggregate they describe, relays that lock a
    batch and publish it, and the broker's log. Each relay's marks stay in its own transaction
    until it commits; a crash or a failed commit rolls them back, but what reached the broker stays. */
module Outbox {

  type Id = nat

  datatype Option<+T> = None | Some(value: T)

  datatype Row = Row(aggregate: Id, version: nat, occurredAt: nat, published: bool, attempts: nat, due: nat)

  type Table = map<Id, Row>

  /** The fate of one publication: acknowledged, or failed with the message possibly on the log. */
  datatype Fate = Acked | Failed(reached: bool, due: nat)

  /** A relay inside its transaction: the batch it locked, how far it got, and its pending marks. */
  datatype Relay = Relay(batch: seq<Id>, next: nat, marks: Table)

  datatype State = State(rows: Table, relays: map<Id, Relay>, log: seq<Id>)

  /** (version, occurredAt, id) order within one aggregate. */
  predicate Earlier(rows: Table, a: Id, b: Id)
    requires a in rows && b in rows
  {
    var x, y := rows[a], rows[b];
    x.aggregate == y.aggregate
    && (x.version < y.version
        || (x.version == y.version
            && (x.occurredAt < y.occurredAt || (x.occurredAt == y.occurredAt && a < b))))
  }

  /** No earlier row of the same aggregate is unpublished. */
  predicate Front(rows: Table, id: Id)
    requires id in rows
  {
    forall e | e in rows && Earlier(rows, e, id) :: rows[e].published
  }

  predicate Due(rows: Table, now: nat, id: Id) {
    id in rows && !rows[id].published && rows[id].due <= now && Front(rows, id)
  }

  predicate Locked(s: State, id: Id) {
    exists r | r in s.relays :: id in s.relays[r].batch
  }

  predicate Distinct(ids: seq<Id>) {
    forall i, j | 0 <= i < j < |ids| :: ids[i] != ids[j]
  }

  // ----- Steps -----

  /** A business transaction adds an event. The aggregate's row lock makes versions grow in commit
      order, so the new event comes after every event the aggregate already has. */
  predicate CanAppend(s: State, id: Id, row: Row) {
    id !in s.rows && !row.published && row.attempts == 0
    && var rows' := s.rows[id := row];
       forall e | e in s.rows && s.rows[e].aggregate == row.aggregate :: Earlier(rows', e, id)
  }
  function Append(s: State, id: Id, row: Row): State {
    s.(rows := s.rows[id := row])
  }

  /** The eligibility query: due, unlocked rows with no earlier unpublished row. */
  predicate CanLock(s: State, r: Id, now: nat, batch: seq<Id>) {
    r !in s.relays && Distinct(batch)
    && forall id | id in batch :: Due(s.rows, now, id) && !Locked(s, id)
  }
  function Lock(s: State, r: Id, batch: seq<Id>): State {
    s.(relays := s.relays[r := Relay(batch, 0, map[])])
  }

  function Mark(row: Row, fate: Fate): Row {
    match fate
    case Acked => row.(published := true)
    case Failed(_, due) => row.(attempts := row.attempts + 1, due := due)
  }
  predicate Reaches(fate: Fate) { fate.Acked? || fate.reached }

  predicate CanPublish(s: State, r: Id) {
    r in s.relays && s.relays[r].next < |s.relays[r].batch| && s.relays[r].batch[s.relays[r].next] in s.rows
  }
  function Publish(s: State, r: Id, fate: Fate): State
    requires CanPublish(s, r)
  {
    var relay := s.relays[r];
    var id := relay.batch[relay.next];
    var relay' := Relay(relay.batch, relay.next + 1, relay.marks[id := Mark(s.rows[id], fate)]);
    State(s.rows, s.relays[r := relay'], if Reaches(fate) then s.log + [id] else s.log)
  }

  function Commit(s: State, r: Id): State
    requires r in s.relays
  {
    State(s.rows + s.relays[r].marks, s.relays - {r}, s.log)
  }
  function Rollback(s: State, r: Id): State
    requires r in s.relays
  {
    s.(relays := s.relays - {r})
  }

  datatype Step =
    | DoAppend(id: Id, row: Row)
    | DoLock(r: Id, now: nat, batch: seq<Id>)
    | DoPublish(r: Id, fate: Fate)
    | DoCommit(r: Id)
    | DoRollback(r: Id)

  predicate Enabled(s: State, step: Step) {
    match step
    case DoAppend(id, row) => CanAppend(s, id, row)
    case DoLock(r, now, batch) => CanLock(s, r, now, batch)
    case DoPublish(r, _) => CanPublish(s, r)
    case DoCommit(r) => r in s.relays && s.relays[r].next == |s.relays[r].batch|
    case DoRollback(r) => r in s.relays
  }

  function Apply(s: State, step: Step): State
    requires Enabled(s, step)
  {
    match step
    case DoAppend(id, row) => Append(s, id, row)
    case DoLock(r, _, batch) => Lock(s, r, batch)
    case DoPublish(r, fate) => Publish(s, r, fate)
    case DoCommit(r) => Commit(s, r)
    case DoRollback(r) => Rollback(s, r)
  }

  const INIT: State := State(map[], map[], [])

  ghost predicate Runs(s: State, steps: seq<Step>, s': State)
    decreases |steps|
  {
    if steps == [] then s == s'
    else Enabled(s, steps[0]) && Runs(Apply(s, steps[0]), steps[1..], s')
  }

  // ----- What every step keeps -----

  /** Locked rows are unpublished fronts of their aggregates; no two relays share one, and a relay's
      pending marks differ from the table only in the bookkeeping columns. */
  ghost predicate InFlight(s: State) {
    && (forall r, id | r in s.relays && id in s.relays[r].batch ::
          id in s.rows && !s.rows[id].published && Front(s.rows, id))
    && (forall r | r in s.relays :: Distinct(s.relays[r].batch) && s.relays[r].next <= |s.relays[r].batch|)
    && (forall r, q, id | r in s.relays && q in s.relays && id in s.relays[r].batch && id in s.relays[q].batch ::
          r == q)
  }

  ghost predicate MarkOf(s: State, id: Id, mark: Row) {
    id in s.rows && mark.aggregate == s.rows[id].aggregate && mark.version == s.rows[id].version
    && mark.occurredAt == s.rows[id].occurredAt && (mark.published ==> id in s.log)
  }

  ghost predicate Marks(s: State) {
    forall r, id | r in s.relays && id in s.relays[r].marks ::
      id in s.relays[r].batch && MarkOf(s, id, s.relays[r].marks[id])
  }

  ghost predicate LogSound(s: State) {
    && (forall id | id in s.rows && s.rows[id].published :: id in s.log)
    && (forall id | id in s.log :: id in s.rows && Front(s.rows, id))
  }

  /** Per aggregate, the log never goes back in (version, occurredAt, id). */
  ghost predicate Ordered(s: State)
    requires forall id | id in s.log :: id in s.rows
  {
    forall i, j | 0 <= i < j < |s.log| :: !Earlier(s.rows, s.log[j], s.log[i])
  }

  /** Every event is preceded on the log by all earlier events of its aggregate. */
  ghost predicate Gapless(s: State)
    requires forall id | id in s.log :: id in s.rows
  {
    forall j, e | 0 <= j < |s.log| && e in s.rows && Earlier(s.rows, e, s.log[j]) :: e in s.log[..j]
  }

  ghost predicate Inv(s: State) {
    InFlight(s) && Marks(s) && LogSound(s) && Ordered(s) && Gapless(s)
  }

  lemma InitInv()
    ensures Inv(INIT)
  {
  }

  lemma FrontAfterAppend(s: State, id: Id, row: Row, e: Id)
    requires CanAppend(s, id, row) && e in s.rows && Front(s.rows, e)
    ensures Front(s.rows[id := row], e)
  {
    var rows' := s.rows[id := row];
    assert s.rows[e].aggregate == row.aggregate ==> Earlier(rows', e, id);
    forall x | x in rows' && Earlier(rows', x, e) ensures rows'[x].published {
      assert x == id || Earlier(s.rows, x, e);
    }
  }

  lemma AppendKeeps(s: State, id: Id, row: Row)
    requires Inv(s) && CanAppend(s, id, row)
    ensures Inv(Append(s, id, row))
  {
    var s' := Append(s, id, row);
    forall e | e in s.rows && Front(s.rows, e) ensures Front(s'.rows, e) {
      FrontAfterAppend(s, id, row, e);
    }
    assert LogSound(s');
    forall i, j | 0 <= i < j < |s'.log| ensures !Earlier(s'.rows, s'.log[j], s'.log[i]) {
      assert s.log[i] in s.log && s.log[j] in s.log;
    }
    forall j, e | 0 <= j < |s'.log| && e in s'.rows && Earlier(s'.rows, e, s'.log[j]) ensures e in s'.log[..j] {
      assert s.log[j] in s.log;
      assert s.rows[s.log[j]].aggregate == row.aggregate ==> Earlier(s'.rows, s.log[j], id);
      assert e == id || Earlier(s.rows, e, s.log[j]);
    }
  }

  lemma LockKeeps(s: State, r: Id, now: nat, batch: seq<Id>)
    requires Inv(s) && CanLock(s, r, now, batch)
    ensures Inv(Lock(s, r, batch))
  {
    var s' := Lock(s, r, batch);
    forall id | id in batch ensures forall a | a in s.relays :: id !in s.relays[a].batch {
      assert !Locked(s, id);
    }
    forall a, b, id | a in s'.relays && b in s'.relays && id in s'.relays[a].batch && id in s'.relays[b].batch
      ensures a == b
    {
    }
  }

  /** A relay publishes a front row: nothing later of that aggregate can already be on the log. */
  lemma PublishLog(s: State, id: Id, log': seq<Id>)
    requires Inv(s) && id in s.rows && !s.rows[id].published && Front(s.rows, id) && log' == s.log + [id]
    ensures forall e | e in log' :: e in s.rows
    ensures Ordered(State(s.rows, s.relays, log')) && Gapless(State(s.rows, s.relays, log'))
  {
    var t := State(s.rows, s.relays, log');
    forall i, j | 0 <= i < j < |log'| ensures !Earlier(s.rows, log'[j], log'[i]) {
      if j == |s.log| { assert s.log[i] in s.log && Front(s.rows, s.log[i]); }
    }
    forall j, e | 0 <= j < |log'| && e in s.rows && Earlier(s.rows, e, log'[j]) ensures e in log'[..j] {
      if j < |s.log| {
        assert log'[..j] == s.log[..j];
      } else {
        assert log'[..j] == s.log;
        assert s.rows[e].published;
      }
    }
  }

  lemma PublishKeeps(s: State, r: Id, fate: Fate)
    requires Inv(s) && CanPublish(s, r)
    ensures Inv(Publish(s, r, fate))
  {
    var s' := Publish(s, r, fate);
    var relay := s.relays[r];
    var id := relay.batch[relay.next];
    assert id in relay.batch;
    if Reaches(fate) {
      PublishLog(s, id, s'.log);
    }
    assert forall e :: e in s'.log ==> e in s.log || e == id;
    assert forall e :: e in s.log ==> e in s'.log;
    assert Ordered(s') && Gapless(s');
    assert LogSound(s');
    forall q, e | q in s'.relays && e in s'.relays[q].marks
      ensures e in s'.relays[q].batch && MarkOf(s', e, s'.relays[q].marks[e])
    {
      if q == r && e == id {
        assert fate.Acked? ==> id in s'.log;
      } else {
        assert e in s.relays[q].batch && MarkOf(s, e, s.relays[q].marks[e]);
      }
    }
    assert InFlight(s');
  }

  lemma CommitRows(s: State, r: Id)
    requires Inv(s) && r in s.relays
    ensures var rows' := s.rows + s.relays[r].marks;
            && rows'.Keys == s.rows.Keys
            && (forall a, b | a in s.rows && b in s.rows :: Earlier(rows', a, b) <==> Earlier(s.rows, a, b))
            && (forall e | e in s.rows :: s.rows[e].published ==> rows'[e].published)
            && (forall e | e in s.rows && rows'[e].published :: e in s.log)
            && (forall e | e in s.rows && e !in s.relays[r].batch :: rows'[e] == s.rows[e])
  {
    var rows' := s.rows + s.relays[r].marks;
    forall e | e in s.relays[r].marks
      ensures MarkOf(s, e, s.relays[r].marks[e]) && e in s.relays[r].batch && !s.rows[e].published
    {
    }
    assert rows'.Keys == s.rows.Keys;
  }

  /** What committing a relay's marks does to the rows. */
  ghost predicate Settled(s: State, r: Id, s': State) {
    && r in s.relays && s'.relays == s.relays - {r} && s'.log == s.log && s'.rows.Keys == s.rows.Keys
    && (forall a, b | a in s.rows && b in s.rows :: Earlier(s'.rows, a, b) <==> Earlier(s.rows, a, b))
    && (forall e | e in s.rows :: s.rows[e].published ==> s'.rows[e].published)
    && (forall e | e in s.rows && s'.rows[e].published :: e in s.log)
    && (forall e | e in s.rows && e !in s.relays[r].batch :: s'.rows[e] == s.rows[e])
  }

  lemma SettledFronts(s: State, r: Id, s': State)
    requires Settled(s, r, s')
    ensures forall e | e in s.rows && Front(s.rows, e) :: Front(s'.rows, e)
  {
    forall e | e in s.rows && Front(s.rows, e) ensures Front(s'.rows, e) {
      forall x | x in s'.rows && Earlier(s'.rows, x, e) ensures s'.rows[x].published {
        assert Earlier(s.rows, x, e);
      }
    }
  }

  lemma SettledLog(s: State, r: Id, s': State)
    requires LogSound(s) && Settled(s, r, s')
    ensures LogSound(s')
  {
    hide Front, Earlier;
    SettledFronts(s, r, s');
  }

  lemma SettledInFlight(s: State, r: Id, s': State)
    requires InFlight(s) && Settled(s, r, s')
    ensures InFlight(s')
  {
    hide Front, Earlier;
    SettledFronts(s, r, s');
  }

  lemma SettledMarks(s: State, r: Id, s': State)
    requires InFlight(s) && Marks(s) && Settled(s, r, s')
    ensures Marks(s')
  {
    hide Front, Earlier;
    forall q, e | q in s'.relays && e in s'.relays[q].marks
      ensures e in s'.relays[q].batch && MarkOf(s', e, s'.relays[q].marks[e])
    {
      assert e in s.relays[q].batch && MarkOf(s, e, s.relays[q].marks[e]);
    }
  }

  lemma CommitKeeps(s: State, r: Id)
    requires Inv(s) && r in s.relays
    ensures Inv(Commit(s, r))
  {
    hide InFlight, Marks, LogSound, Ordered, Gapless, Earlier;
    var s' := Commit(s, r);
    CommitRows(s, r);
    assert Settled(s, r, s');
    SettledLog(s, r, s');
    SettledInFlight(s, r, s');
    SettledMarks(s, r, s');
    LogListed(s);
    OrderKept(s, s');
  }

  lemma LogListed(s: State)
    requires LogSound(s)
    ensures forall id | id in s.log :: id in s.rows
  {
  }

  lemma OrderKept(s: State, s': State)
    requires Inv(s) && s'.log == s.log && s'.rows.Keys == s.rows.Keys
    requires forall a, b | a in s.rows && b in s.rows :: Earlier(s'.rows, a, b) <==> Earlier(s.rows, a, b)
    ensures Ordered(s') && Gapless(s')
  {
    forall i, j | 0 <= i < j < |s'.log| ensures !Earlier(s'.rows, s'.log[j], s'.log[i]) {
      assert s.log[i] in s.log && s.log[j] in s.log;
    }
    forall j, e | 0 <= j < |s'.log| && e in s'.rows && Earlier(s'.rows, e, s'.log[j]) ensures e in s'.log[..j] {
      assert s.log[j] in s.log;
      assert Earlier(s.rows, e, s.log[j]);
    }
  }

  lemma StepKeeps(s: State, step: Step)
    requires Inv(s) && Enabled(s, step)
    ensures Inv(Apply(s, step))
  {
    match step
    case DoAppend(id, row) => AppendKeeps(s, id, row);
    case DoLock(r, now, batch) => LockKeeps(s, r, now, batch);
    case DoPublish(r, fate) => PublishKeeps(s, r, fate);
    case DoCommit(r) => CommitKeeps(s, r);
    case DoRollback(r) =>
  }

  lemma {:induction false} RunKeeps(s: State, steps: seq<Step>, s': State)
    requires Inv(s) && Runs(s, steps, s')
    ensures Inv(s')
    decreases |steps|
  {
    if steps != [] {
      StepKeeps(s, steps[0]);
      RunKeeps(Apply(s, steps[0]), steps[1..], s');
    }
  }

  // ----- The order consumers see -----

  /** The log restricted to one aggregate, keeping each event's first occurrence only. */
  ghost function FirstSeen(s: State, aggregate: Id, n: nat): seq<Id>
    requires n <= |s.log| && forall id | id in s.log :: id in s.rows
  {
    if n == 0 then []
    else
      var rest := FirstSeen(s, aggregate, n - 1);
      if s.rows[s.log[n - 1]].aggregate == aggregate && s.log[n - 1] !in s.log[..n - 1]
      then rest + [s.log[n - 1]] else rest
  }

  lemma {:induction false} FirstSeenMembers(s: State, aggregate: Id, n: nat)
    requires n <= |s.log| && forall id | id in s.log :: id in s.rows
    ensures forall id :: id in FirstSeen(s, aggregate, n) <==> id in s.log[..n] && s.rows[id].aggregate == aggregate
  {
    if n > 0 {
      FirstSeenMembers(s, aggregate, n - 1);
      assert s.log[..n] == s.log[..n - 1] + [s.log[n - 1]];
    }
  }

  /** `events` lists the events of an aggregate in (version, occurredAt, id) order. */
  ghost predicate Lists(rows: Table, aggregate: Id, events: seq<Id>) {
    && (forall id :: id in events <==> id in rows && rows[id].aggregate == aggregate)
    && (forall i, j | 0 <= i < j < |events| ::
          events[i] in rows && events[j] in rows && Earlier(rows, events[i], events[j]))
  }

  lemma EarlierTotal(rows: Table, a: Id, b: Id)
    requires a in rows && b in rows && rows[a].aggregate == rows[b].aggregate
    ensures a == b || Earlier(rows, a, b) || Earlier(rows, b, a)
    ensures !(Earlier(rows, a, b) && Earlier(rows, b, a)) && !Earlier(rows, a, a)
  {
  }

  lemma EarlierTrans(rows: Table, a: Id, b: Id, c: Id)
    requires a in rows && b in rows && c in rows && Earlier(rows, a, b) && Earlier(rows, b, c)
    ensures Earlier(rows, a, c)
  {
  }

  /** Of some events of one aggregate one comes first. */
  lemma {:induction false} Earliest(rows: Table, aggregate: Id, ids: set<Id>) returns (first: Id)
    requires ids != {} && forall id | id in ids :: id in rows && rows[id].aggregate == aggregate
    ensures first in ids && forall id | id in ids && id != first :: Earlier(rows, first, id)
    decreases |ids|
  {
    var a :| a in ids;
    if ids == {a} {
      first := a;
    } else {
      var b := Earliest(rows, aggregate, ids - {a});
      EarlierTotal(rows, a, b);
      first := if Earlier(rows, a, b) then a else b;
      forall id | id in ids && id != first ensures Earlier(rows, first, id) {
        if first == a && id != b { EarlierTrans(rows, a, b, id); }
      }
    }
  }

  lemma {:induction false} Arranged(rows: Table, aggregate: Id, ids: set<Id>) returns (events: seq<Id>)
    requires forall id | id in ids :: id in rows && rows[id].aggregate == aggregate
    ensures forall id :: id in events <==> id in ids
    ensures forall i, j | 0 <= i < j < |events| ::
             events[i] in rows && events[j] in rows && Earlier(rows, events[i], events[j])
    decreases |ids|
  {
    if ids == {} {
      events := [];
    } else {
      var first := Earliest(rows, aggregate, ids);
      var rest := Arranged(rows, aggregate, ids - {first});
      events := [first] + rest;
      forall i, j | 0 <= i < j < |events|
        ensures events[i] in rows && events[j] in rows && Earlier(rows, events[i], events[j])
      {
        assert events[j] == rest[j - 1] && rest[j - 1] in rest;
      }
    }
  }

  /** Every aggregate's events can be listed in their order, in every state. */
  lemma EventsListed(rows: Table, aggregate: Id) returns (events: seq<Id>)
    ensures Lists(rows, aggregate, events)
  {
    events := Arranged(rows, aggregate, set id | id in rows && rows[id].aggregate == aggregate);
  }

  lemma Placed(events: seq<Id>, m: nat, k: nat)
    requires m < |events| && k <= |events|
    ensures m < k ==> events[m] in events[..k]
  {
    if m < k { assert events[..k][m] == events[m]; }
  }

  lemma ListedOnce(rows: Table, aggregate: Id, events: seq<Id>, k: nat)
    requires Lists(rows, aggregate, events) && k < |events|
    ensures events[k] !in events[..k]
  {
    forall x | 0 <= x < k ensures events[x] != events[k] {
      assert events[x] in events && events[k] in events;
      EarlierTotal(rows, events[x], events[k]);
    }
  }

  /** Everything listed before an event on the log was on the log before it. */
  lemma EarlierLogged(s: State, aggregate: Id, n: nat, events: seq<Id>, m: nat)
    requires Inv(s) && n < |s.log| && Lists(s.rows, aggregate, events) && m < |events| && events[m] == s.log[n]
    ensures forall i | 0 <= i < m :: events[i] in s.log[..n]
  {
    forall i | 0 <= i < m ensures events[i] in s.log[..n] { assert Earlier(s.rows, events[i], events[m]); }
  }

  /** The next newly seen event is the next one in order. */
  lemma NextInOrder(s: State, aggregate: Id, n: nat, events: seq<Id>, k: nat)
    requires Inv(s) && n < |s.log| && Lists(s.rows, aggregate, events)
    requires k <= |events| && forall id :: id in events[..k] <==> id in s.log[..n] && s.rows[id].aggregate == aggregate
    requires s.rows[s.log[n]].aggregate == aggregate && s.log[n] !in s.log[..n]
    ensures k < |events| && events[k] == s.log[n]
  {
    var e := s.log[n];
    assert e in s.log && e in events;
    var m :| 0 <= m < |events| && events[m] == e;
    Placed(events, m, k);
    ListedOnce(s.rows, aggregate, events, k);
    EarlierLogged(s, aggregate, n, events, m);
  }

  lemma PrefixStep(s: State, aggregate: Id, n: nat, events: seq<Id>, seen: seq<Id>)
    requires Inv(s) && n < |s.log| && Lists(s.rows, aggregate, events)
    requires seen == FirstSeen(s, aggregate, n) && seen <= events
    requires s.rows[s.log[n]].aggregate == aggregate && s.log[n] !in s.log[..n]
    ensures seen + [s.log[n]] <= events
  {
    FirstSeenMembers(s, aggregate, n);
    assert seen == events[..|seen|];
    NextInOrder(s, aggregate, n, events, |seen|);
  }

  /** Removing repeats from one aggregate's part of the log leaves a prefix of its events in order. */
  lemma {:induction false} LogIsPrefix(s: State, aggregate: Id, n: nat, events: seq<Id>)
    requires Inv(s) && n <= |s.log| && Lists(s.rows, aggregate, events)
    ensures FirstSeen(s, aggregate, n) <= events
  {
    if n > 0 {
      LogIsPrefix(s, aggregate, n - 1, events);
      if s.rows[s.log[n - 1]].aggregate == aggregate && s.log[n - 1] !in s.log[..n - 1] {
        PrefixStep(s, aggregate, n - 1, events, FirstSeen(s, aggregate, n - 1));
      }
    }
  }

  /** Whatever the relays, failures and rollbacks: per aggregate the broker log never goes back, and
      without its repeats it is a prefix of the aggregate's events. */
  lemma BrokerOrder(steps: seq<Step>, s: State, aggregate: Id, events: seq<Id>)
    requires Runs(INIT, steps, s) && Lists(s.rows, aggregate, events)
    ensures forall id | id in s.log :: id in s.rows
    ensures forall i, j | 0 <= i < j < |s.log| :: !Earlier(s.rows, s.log[j], s.log[i])
    ensures FirstSeen(s, aggregate, |s.log|) <= events
  {
    InitInv();
    RunKeeps(INIT, steps, s);
    LogIsPrefix(s, aggregate, |s.log|, events);
  }

  /** A batch never holds two events of one aggregate, and never one that another relay holds. */
  lemma OnePerAggregate(s: State, now: nat, a: Id, b: Id)
    requires Due(s.rows, now, a) && Due(s.rows, now, b) && s.rows[a].aggregate == s.rows[b].aggregate
    ensures a == b
  {
    EarlierTotal(s.rows, a, b);
  }

  // ----- Retry delay -----

  function Pow2(n: nat): (p: nat)
    ensures p >= 1
  {
    if n == 0 then 1 else 2 * Pow2(n - 1)
  }

  function Min(a: int, b: int): int { if a < b then a else b }

  function RetryDelay(attempts: int, base: nat, max: nat): nat
    requires attempts >= 1
  {
    Min(max, base * Pow2(Min(attempts - 1, 30)))
  }

  lemma {:induction false} Pow2Monotone(a: nat, b: nat)
    requires a <= b
    ensures Pow2(a) <= Pow2(b)
  {
    if a < b { Pow2Monotone(a, b - 1); }
  }

  lemma MulMonotone(base: nat, a: nat, b: nat)
    requires a <= b
    ensures base * a <= base * b
  {
  }

  /** Backoff starts at the base, never shrinks from one attempt to the next, and stops at the cap. */
  lemma RetryDelayBacksOff(attempts: int, base: nat, max: nat)
    requires attempts >= 1
    ensures RetryDelay(1, base, max) == Min(base, max)
    ensures Min(base, max) <= RetryDelay(attempts, base, max) <= RetryDelay(attempts + 1, base, max) <= max
    ensures attempts > 30 ==> RetryDelay(attempts, base, max) == RetryDelay(31, base, max)
  {
    var a, b := Min(attempts - 1, 30), Min(attempts, 30);
    Pow2Monotone(a, b);
    MulMonotone(base, 1, Pow2(a));
    MulMonotone(base, Pow2(a), Pow2(b));
  }

  /** Up to the 31st attempt each delay is twice the one before, as far as the cap allows. */
  lemma RetryDelayDoubles(attempts: int, base: nat, max: nat)
    requires 1 <= attempts <= 30
    ensures RetryDelay(attempts + 1, base, max) == Min(max, 2 * RetryDelay(attempts, base, max))
  {
    var p := Pow2(attempts - 1);
    assert Pow2(attempts) == 2 * p;
    hide Pow2;
    assert base * (2 * p) == 2 * (base * p);
  }

  // ----- The store and the relay loop -----

  /** Query order: (occurredAt, id). */
  predicate Comes(rows: Table, a: Id, b: Id)
    requires a in rows && b in rows
  {
    rows[a].occurredAt < rows[b].occurredAt || (rows[a].occurredAt == rows[b].occurredAt && a < b)
  }

  function Eligible(rows: Table, now: nat, locked: set<Id>): (ids: set<Id>)
    ensures ids <= rows.Keys
  {
    set id | id in rows && Due(rows, now, id) && id !in locked
  }

  /** The rows a relay may lock: unpublished, due, held by no relay, and each the first unpublished one of
      its aggregate by version, time and id. */
  lemma EligibleIff(s: State, now: nat, id: Id)
    ensures id in Eligible(s.rows, now, LockedIds(s.relays)) <==>
            && id in s.rows && !s.rows[id].published && s.rows[id].due <= now
            && (forall r | r in s.relays :: id !in s.relays[r].batch)
            && forall e | e in s.rows && e != id && s.rows[e].aggregate == s.rows[id].aggregate
                          && !s.rows[e].published ::
                 var (x, y) := (s.rows[id], s.rows[e]);
                 || x.version < y.version
                 || (x.version == y.version && x.occurredAt < y.occurredAt)
                 || (x.version == y.version && x.occurredAt == y.occurredAt && id < e)
  {
  }

  /** The first `limit` of `from`, in query order. */
  ghost predicate Selects(rows: Table, from: set<Id>, limit: nat, batch: seq<Id>)
    requires from <= rows.Keys
  {
    && |batch| == Min(limit, |from|)
    && (forall i | 0 <= i < |batch| :: batch[i] in from && batch[i] in rows)
    && (forall i, j | 0 <= i < j < |batch| ::
          rows[batch[i]].occurredAt < rows[batch[j]].occurredAt
          || (rows[batch[i]].occurredAt == rows[batch[j]].occurredAt && batch[i] < batch[j]))
    && (forall id, i | id in from && id !in batch && 0 <= i < |batch| ::
          rows[batch[i]].occurredAt < rows[id].occurredAt
          || (rows[batch[i]].occurredAt == rows[id].occurredAt && batch[i] < id))
  }

  function PublishSteps(r: Id, fates: seq<Fate>): seq<Step> {
    seq(|fates|, i requires 0 <= i < |fates| => DoPublish(r, fates[i]))
  }

  /** A flush locks the batch and publishes row after row; it ends in a commit, or in a rollback when
      the database fails. */
  function FlushSteps(r: Id, now: nat, batch: seq<Id>, fates: seq<Fate>, committed: bool): seq<Step> {
    [DoLock(r, now, batch)] + PublishSteps(r, fates) + [if committed then DoCommit(r) else DoRollback(r)]
  }

  /** The row a relay publishes next is the first of its aggregate that is not published, and all
      earlier ones are on the log. */
  lemma PublishMeans(s: State, r: Id, fate: Fate)
    requires Inv(s) && CanPublish(s, r)
    ensures Inv(Publish(s, r, fate))
    ensures var id := s.relays[r].batch[s.relays[r].next];
            !s.rows[id].published && forall e | e in s.rows && Earlier(s.rows, e, id) :: e in s.log
  {
    PublishKeeps(s, r, fate);
    hide Marks, Ordered, Gapless, Publish;
    var id := s.relays[r].batch[s.relays[r].next];
    assert id in s.relays[r].batch;
    assert Front(s.rows, id);
  }

  lemma {:induction false} RunsThen(a: State, xs: seq<Step>, b: State, y: Step)
    requires Runs(a, xs, b) && Enabled(b, y)
    ensures Runs(a, xs + [y], Apply(b, y))
    decreases |xs|
  {
    if xs == [] {
      assert xs + [y] == [y] && [y][1..] == [];
      assert Runs(Apply(b, y), [], Apply(b, y));
    } else {
      RunsThen(Apply(a, xs[0]), xs[1..], b, y);
      assert (xs + [y])[1..] == xs[1..] + [y];
    }
  }

  lemma OneStep(s: State, step: Step)
    requires Enabled(s, step)
    ensures Runs(s, [step], Apply(s, step))
  {
    assert [step][1..] == [] && Runs(Apply(s, step), [], Apply(s, step));
  }

  /** What a flush leaves of a row it sent: published if the broker acknowledged it, and otherwise due
      again later with one more attempt. */
  ghost predicate Concluded(row: Row, fate: Fate, row': Row) {
    && row'.aggregate == row.aggregate && row'.version == row.version && row'.occurredAt == row.occurredAt
    && (row'.published <==> fate.Acked?)
    && (if fate.Acked? then row'.attempts == row.attempts && row'.due == row.due
        else row'.attempts == row.attempts + 1 && row'.due == fate.due)
  }

  /** The ids of the messages that reached the broker, in order. */
  function Sent(batch: seq<Id>, fates: seq<Fate>): seq<Id>
    requires |batch| == |fates|
  {
    if batch == [] then []
    else
      var n := |batch| - 1;
      Sent(batch[..n], fates[..n])
      + if fates[n].Acked? || (fates[n].Failed? && fates[n].reached) then [batch[n]] else []
  }

  lemma SentGrows(batch: seq<Id>, fates: seq<Fate>, k: nat)
    requires k < |batch| && k < |fates|
    ensures Sent(batch[..k + 1], fates[..k + 1])
            == Sent(batch[..k], fates[..k]) + if Reaches(fates[k]) then [batch[k]] else []
  {
    assert batch[..k + 1][..k] == batch[..k] && fates[..k + 1][..k] == fates[..k];
  }

  /** The marks of a relay that has sent this much of its batch. */
  ghost predicate Marked(rows: Table, batch: seq<Id>, fates: seq<Fate>, marks: Table) {
    && |fates| <= |batch| && marks.Keys == (set i | 0 <= i < |fates| :: batch[i])
    && forall i | 0 <= i < |fates| ::
         batch[i] in rows && batch[i] in marks && Concluded(rows[batch[i]], fates[i], marks[batch[i]])
  }

  lemma MarkedGrows(rows: Table, batch: seq<Id>, fates: seq<Fate>, k: nat, marks: Table)
    requires k < |batch| && k < |fates| && Marked(rows, batch, fates[..k], marks) && Distinct(batch)
    requires batch[k] in rows && !rows[batch[k]].published
    ensures Marked(rows, batch, fates[..k + 1], marks[batch[k] := Mark(rows[batch[k]], fates[k])])
  {
    var marks' := marks[batch[k] := Mark(rows[batch[k]], fates[k])];
    assert (set i | 0 <= i < k + 1 :: batch[i]) == (set i | 0 <= i < k :: batch[i]) + {batch[k]};
    forall i | 0 <= i < k + 1
      ensures batch[i] in rows && batch[i] in marks' && Concluded(rows[batch[i]], fates[..k + 1][i], marks'[batch[i]])
    {
      if i < k { assert Concluded(rows[batch[i]], fates[..k][i], marks[batch[i]]); }
    }
  }

  lemma NothingMarked(rows: Table, batch: seq<Id>, fates: seq<Fate>)
    ensures Marked(rows, batch, fates[..0], map[]) && Sent(batch[..0], fates[..0]) == []
  {
  }

  lemma DistinctBatch(s: State, r: Id)
    requires Inv(s) && r in s.relays
    ensures Distinct(s.relays[r].batch)
  {
    hide Marks, LogSound, Ordered, Gapless;
  }

  lemma UnpublishedBatch(s: State, r: Id, k: nat)
    requires Inv(s) && r in s.relays && k < |s.relays[r].batch|
    ensures s.relays[r].batch[k] in s.rows && !s.rows[s.relays[r].batch[k]].published
  {
    hide Marks, LogSound, Ordered, Gapless;
    assert s.relays[r].batch[k] in s.relays[r].batch;
  }

  /** Once the marks of the whole batch are stored, every sent row is concluded and the others stay. */
  lemma MarksStored(rows: Table, batch: seq<Id>, fates: seq<Fate>, marks: Table)
    requires |batch| <= |fates| && Marked(rows, batch, fates[..|batch|], marks)
    ensures (rows + marks).Keys == rows.Keys
    ensures forall id | id in rows && id !in batch :: (rows + marks)[id] == rows[id]
    ensures forall i | 0 <= i < |batch| ::
             batch[i] in rows && Concluded(rows[batch[i]], fates[i], (rows + marks)[batch[i]])
  {
    hide Concluded;
    forall i | 0 <= i < |batch|
      ensures batch[i] in rows && Concluded(rows[batch[i]], fates[i], (rows + marks)[batch[i]])
    {
      assert fates[..|batch|][i] == fates[i];
    }
  }

  lemma BatchSize(rows: Table, from: set<Id>, limit: nat, batch: seq<Id>)
    requires from <= rows.Keys && Selects(rows, from, limit, batch)
    ensures |batch| <= limit
  {
  }

  lemma BatchRows(s: State, r: Id, now: nat, batch: seq<Id>)
    requires CanLock(s, r, now, batch)
    ensures forall id | id in batch :: id in s.rows
  {
  }

  lemma BatchLocks(s: State, r: Id, now: nat, limit: nat, batch: seq<Id>)
    requires r !in s.relays && Selects(s.rows, Eligible(s.rows, now, LockedIds(s.relays)), limit, batch)
    ensures CanLock(s, r, now, batch)
  {
    forall i, j | 0 <= i < j < |batch| ensures batch[i] != batch[j] {
      assert Comes(s.rows, batch[i], batch[j]);
    }
    forall id | id in batch ensures Due(s.rows, now, id) && !Locked(s, id) {
      assert id in Eligible(s.rows, now, LockedIds(s.relays));
    }
  }

  function LockedIds(relays: map<Id, Relay>): set<Id> {
    set r, id | r in relays && id in relays[r].batch :: id
  }

  class Store {
    var rows: Table
    var relays: map<Id, Relay>
    var log: seq<Id>

    function View(): State
      reads this
    {
      State(rows, relays, log)
    }

    /** Rows, relays and log are as every step leaves them. */
    ghost predicate Valid()
      reads this
    {
      Inv(View())
    }

    constructor ()
      ensures Valid() && View() == INIT
    {
      InitInv();
      hide Inv;
      rows, relays, log := map[], map[], [];
    }

    /** The eligibility query: locked rows are skipped, the rest come in (occurredAt, id) order. */
    method Select(now: nat, limit: nat) returns (batch: seq<Id>)
      ensures Selects(rows, Eligible(rows, now, LockedIds(relays)), limit, batch)
    {
      var from := Eligible(rows, now, LockedIds(relays));
      var rest := from;
      batch := [];
      while |batch| < limit && rest != {}
        invariant rest <= from && |batch| + |rest| == |from| && |batch| <= limit
        invariant forall id :: id in from <==> id in batch || id in rest
        invariant forall id :: id in batch ==> id !in rest
        invariant forall i, j | 0 <= i < j < |batch| ::
                 batch[i] in rows && batch[j] in rows && Comes(rows, batch[i], batch[j])
        invariant forall i, id | 0 <= i < |batch| && id in rest :: batch[i] in rows && Comes(rows, batch[i], id)
      {
        var id := First(rest);
        batch := batch + [id];
        rest := rest - {id};
      }
    }

    method First(ids: set<Id>) returns (first: Id)
      requires ids != {} && ids <= rows.Keys
      ensures first in ids && forall id | id in ids && id != first :: Comes(rows, first, id)
    {
      first :| first in ids;
      var rest := ids - {first};
      while rest != {}
        invariant rest <= ids && first in ids && first !in rest
        invariant forall id | id in ids && id !in rest && id != first :: Comes(rows, first, id)
        decreases rest
      {
        var id :| id in rest;
        rest := rest - {id};
        if Comes(rows, id, first) { first := id; }
      }
    }

    /** Publishes the relay's next row. It is the first of its aggregate that is not published, and
        all earlier ones are on the log already. */
    method PublishNext(r: Id, fate: Fate) returns (id: Id)
      requires Valid() && CanPublish(View(), r)
      modifies this
      ensures Valid() && View() == Publish(old(View()), r, fate)
      ensures id in rows && !rows[id].published && log == old(log) + if Reaches(fate) then [id] else []
      ensures forall e | e in rows && Earlier(rows, e, id) :: e in old(log)
      ensures r in relays && id in relays[r].marks && Concluded(rows[id], fate, relays[r].marks[id])
    {
      hide Inv, Earlier;
      PublishMeans(View(), r, fate);
      var relay := relays[r];
      id := relay.batch[relay.next];
      if Reaches(fate) { log := log + [id]; }
      relays := relays[r := Relay(relay.batch, relay.next + 1, relay.marks[id := Mark(rows[id], fate)])];
    }

    /** One flush, with the fate the broker gives each publication. `fails` says after how many
        publications the database fails, if it does: then nothing is marked and the batch is free
        again, but what reached the broker stays there. */
    method Flush(r: Id, now: nat, limit: nat, fates: seq<Fate>, fails: Option<nat>) returns (batch: seq<Id>,
        committed: bool)
      requires Valid() && r !in relays && |fates| >= limit
      modifies this
      ensures Selects(old(rows), Eligible(old(rows), now, LockedIds(old(relays))), limit, batch) && |batch| <= limit
      ensures committed <==> !(fails.Some? && fails.value <= |batch|)
      ensures Valid()
      ensures var done := if committed then |batch| else fails.value;
              Runs(old(View()), FlushSteps(r, now, batch, fates[..done], committed), View())
      ensures var done := if committed then |batch| else fails.value;
              relays == old(relays) && log == old(log) + Sent(batch[..done], fates[..done])
      ensures !committed ==> rows == old(rows)
      ensures committed ==>
               rows.Keys == old(rows).Keys && forall id | id in rows && id !in batch :: rows[id] == old(rows)[id]
      ensures committed ==> forall i | 0 <= i < |batch| ::
               batch[i] in rows && Concluded(old(rows)[batch[i]], fates[i], rows[batch[i]])
    {
      hide Inv, Eligible, Selects, Runs, Marked, Concluded, Sent;
      batch := Select(now, limit);
      BatchSize(rows, Eligible(rows, now, LockedIds(relays)), limit, batch);
      committed := !(fails.Some? && fails.value <= |batch|);
      var done := if committed then |batch| else fails.value;
      ghost var start := View();
      BatchLocks(start, r, now, limit, batch);
      StepKeeps(start, DoLock(r, now, batch));
      BatchRows(start, r, now, batch);
      relays := relays[r := Relay(batch, 0, map[])];
      OneStep(start, DoLock(r, now, batch));
      PublishBatch(r, fates, done, start, [DoLock(r, now, batch)]);
      var last := if committed then DoCommit(r) else DoRollback(r);
      RunsThen(start, [DoLock(r, now, batch)] + PublishSteps(r, fates[..done]), View(), last);
      StepKeeps(View(), last);
      if committed {
        MarksStored(rows, batch, fates, relays[r].marks);
        rows := rows + relays[r].marks;
      }
      relays := relays - {r};
    }

    /** The relay loop. */
    method PublishBatch(r: Id, fates: seq<Fate>, done: nat, ghost start: State, ghost before: seq<Step>)
      requires Valid() && r in relays && relays[r].next == 0 && done <= |relays[r].batch| && done <= |fates|
      requires (forall id | id in relays[r].batch :: id in rows) && Runs(start, before, View())
      requires relays[r].marks == map[]
      modifies this
      ensures Valid() && Runs(start, before + PublishSteps(r, fates[..done]), View()) && rows == old(rows)
      ensures r in relays && relays[r].batch == old(relays)[r].batch && relays[r].next == done
      ensures relays - {r} == old(relays) - {r} && Marked(rows, relays[r].batch, fates[..done], relays[r].marks)
      ensures log == old(log) + Sent(relays[r].batch[..done], fates[..done])
    {
      hide Inv, Runs, Marked, Concluded, Mark, Sent;
      assert before + PublishSteps(r, fates[..0]) == before;
      NothingMarked(rows, relays[r].batch, fates);
      DistinctBatch(View(), r);
      ghost var batch := relays[r].batch;
      for k := 0 to done
        invariant Valid() && r in relays && relays[r].batch == old(relays)[r].batch && relays[r].next == k
        invariant rows == old(rows) && relays - {r} == old(relays) - {r}
        invariant Marked(rows, batch, fates[..k], relays[r].marks) && log == old(log) + Sent(batch[..k], fates[..k])
        invariant Runs(start, before + PublishSteps(r, fates[..k]), View())
      {
        assert relays[r].batch[k] in rows;
        UnpublishedBatch(View(), r, k);
        MarkedGrows(rows, batch, fates, k, relays[r].marks);
        SentGrows(batch, fates, k);
        RunsThen(start, before + PublishSteps(r, fates[..k]), View(), DoPublish(r, fates[k]));
        var id := PublishNext(r, fates[k]);
        assert before + PublishSteps(r, fates[..k + 1])
            == before + PublishSteps(r, fates[..k]) + [DoPublish(r, fates[k])];
      }
    }
  }
}
