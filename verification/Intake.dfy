/** Accepting and routing events: internal/store/ingest.go and internal/store/routing.go. */
module Intake {
  import opened Domain
  import opened Tables
  import opened Polling

  /** domain.RouteDecision without the snapshots that only serve display. */
  datatype Decision = Decision(result: RoutingResult, deliveries: seq<NewDelivery>)

  predicate DistinctTargets(items: seq<NewDelivery>) {
    forall i, j | 0 <= i < j < |items| :: items[i].target != items[j].target
  }

  /** What a decision taken by generation g looks like, whatever its routes are. */
  predicate Routes(g: Generation, r: Decision) {
    && (r.result.Unmatched? || r.result.RecordOnly? || r.result.Deploy?)
    && (r.deliveries != [] ==> r.result.Deploy?)
    && DistinctTargets(r.deliveries)
    && forall i | 0 <= i < |r.deliveries| :: Compatible(g, r.deliveries[i].target, r.deliveries[i].binding)
  }

  predicate Duplicate(db: Db, row: EventRow) {
    exists e | e in db.events :: SameIdentity(db.events[e], row)
  }

  function WithEvent(db: Db, e: Id, row: EventRow): Db {
    db.(events := db.events[e := row])
  }

  /** Ingest of an event that is not a duplicate. */
  function Stored(db: Db, e: Id, row: EventRow, r: Decision, ids: seq<Fresh>): Db
    requires |ids| == |r.deliveries|
  {
    AddAll(WithEvent(db, e, row.(routing := r.result)), e, r.deliveries, ids, row.receivedAt)
  }

  /** IngestDeferred of an event that is not a duplicate. */
  function Parked(db: Db, e: Id, row: EventRow): Db {
    WithEvent(db, e, row.(routing := Deferred)).(queue := db.queue + [QueueRow(db.nextSeq, e)], nextSeq := db.nextSeq + 1)
  }

  /** The head of the queue leaves it with its final routing result. */
  function Dequeued(db: Db, result: RoutingResult): Db
    requires db.queue != [] && db.queue[0].event in db.events
  {
    var e := db.queue[0].event;
    db.(events := db.events[e := db.events[e].(routing := result)], queue := db.queue[1..])
  }

  /** FinalizeDeferred on the queue head. */
  function Finalized(db: Db, r: Decision, ids: seq<Fresh>): Db
    requires db.queue != [] && db.queue[0].event in db.events && |ids| == |r.deliveries|
  {
    AddAll(Dequeued(db, r.result), db.queue[0].event, r.deliveries, ids, db.events[db.queue[0].event].receivedAt)
  }

  // ----- Everything here keeps the database sound -----

  /** The new rows of AddAll are exactly the listed deliveries, all fresh; the old rows are untouched. */
  ghost predicate Extended(db: Db, db': Db, e: Id, items: seq<NewDelivery>, ids: seq<Fresh>)
    requires |items| == |ids|
  {
    && db'.events == db.events && db'.queue == db.queue && db'.nextSeq == db.nextSeq
    && db'.deliveries.Keys == db.deliveries.Keys + DeliveryIds(ids)
    && db'.attempts.Keys == db.attempts.Keys + AttemptIds(ids)
    && (forall d | d in db.deliveries :: db'.deliveries[d] == db.deliveries[d])
    && (forall a | a in db.attempts :: db'.attempts[a] == db.attempts[a])
    && (forall d | d in db.audit :: d in db'.audit && db'.audit[d] == db.audit[d])
    && (forall i | 0 <= i < |ids| :: Planted(db', e, items[i], ids[i]))
  }

  /** One new delivery with its pending attempt. */
  ghost predicate Planted(db: Db, e: Id, item: NewDelivery, id: Fresh) {
    && id.delivery in db.deliveries && id.attempt in db.attempts
    && db.attempts[id.attempt] == NewAttempt(id.delivery, Initial)
    && db.deliveries[id.delivery].event == e && db.deliveries[id.delivery].target == item.target
    && db.deliveries[id.delivery].binding == item.binding && db.deliveries[id.delivery].key == Some(item.binding)
    && db.deliveries[id.delivery].current == id.attempt
  }

  lemma {:induction false} AddAllOk(db: Db, e: Id, items: seq<NewDelivery>, ids: seq<Fresh>, at: int)
    requires DbOk(db) && |items| == |ids| && e in db.events && (items != [] ==> db.events[e].routing.Deploy?)
    requires AllFresh(ids, db.deliveries.Keys + db.attempts.Keys)
    ensures DbOk(AddAll(db, e, items, ids, at))
    ensures Extended(db, AddAll(db, e, items, ids, at), e, items, ids)
    decreases |items|
  {
    if items != [] {
      var db1 := AddOne(db, e, items[0], ids[0], at);
      AddOneOk(db, e, items[0], ids[0], at);
      forall i | 0 <= i < |ids[1..]|
        ensures ids[1..][i].delivery !in db1.deliveries.Keys + db1.attempts.Keys
        ensures ids[1..][i].attempt !in db1.deliveries.Keys + db1.attempts.Keys
      {
        assert ids[1..][i] == ids[i + 1];
      }
      AddAllOk(db1, e, items[1..], ids[1..], at);
      ExtendedStep(db, db1, AddAll(db, e, items, ids, at), e, items, ids, at);
    }
  }

  lemma ExtendedStep(db: Db, db1: Db, db2: Db, e: Id, items: seq<NewDelivery>, ids: seq<Fresh>, at: int)
    requires |items| == |ids| > 0 && AllFresh(ids, db.deliveries.Keys + db.attempts.Keys) && db.audit.Keys == db.deliveries.Keys
    requires db1 == AddOne(db, e, items[0], ids[0], at) && Extended(db1, db2, e, items[1..], ids[1..])
    ensures Extended(db, db2, e, items, ids)
  {
    forall i | 0 <= i < |ids| ensures Planted(db2, e, items[i], ids[i]) {
      if i > 0 {
        assert items[1..][i - 1] == items[i] && ids[1..][i - 1] == ids[i];
        assert Planted(db2, e, items[1..][i - 1], ids[1..][i - 1]);
      } else {
        assert ids[0].delivery in db1.deliveries && ids[0].attempt in db1.attempts;
      }
    }
    forall d | d in db.deliveries ensures db2.deliveries[d] == db.deliveries[d] {
      assert d != ids[0].delivery && d in db1.deliveries;
    }
    forall a | a in db.attempts ensures db2.attempts[a] == db.attempts[a] {
      assert a != ids[0].attempt && a in db1.attempts;
    }
    forall d | d in db.audit ensures d in db2.audit && db2.audit[d] == db.audit[d] {
      assert d != ids[0].delivery && d in db1.audit;
    }
  }

  lemma WithEventOk(db: Db, e: Id, row: EventRow)
    requires DbOk(db) && e !in db.events && !Duplicate(db, row) && !row.routing.Deferred?
    ensures DbOk(WithEvent(db, e, row))
  {
    var db' := WithEvent(db, e, row);
    forall d | d in db'.deliveries ensures Linked(db', d) && Agrees(db', d) && DeliveryOk(db', db'.deliveries[d]) {
      assert Linked(db, d) && Agrees(db, d) && DeliveryOk(db, db.deliveries[d]);
    }
    assert QueueSound(db');
    assert forall x :: Queued(db', x) <==> Queued(db, x);
  }

  lemma ParkedOk(db: Db, e: Id, row: EventRow)
    requires DbOk(db) && e !in db.events && !Duplicate(db, row)
    ensures DbOk(Parked(db, e, row))
  {
    var db' := Parked(db, e, row);
    forall d | d in db'.deliveries ensures Linked(db', d) && Agrees(db', d) && DeliveryOk(db', db'.deliveries[d]) {
      assert Linked(db, d) && Agrees(db, d) && DeliveryOk(db, db.deliveries[d]);
    }
    assert forall i | 0 <= i < |db.queue| :: db'.queue[i] == db.queue[i] && db.queue[i].event != e;
    assert db'.queue[|db.queue|] == QueueRow(db.nextSeq, e);
    assert QueueSound(db');
    forall x | x in db'.events && db'.events[x].routing.Deferred? ensures Queued(db', x) {
      if x != e {
        assert Queued(db, x);
        var i :| 0 <= i < |db.queue| && db.queue[i].event == x;
        assert db'.queue[i].event == x;
      }
    }
  }

  lemma DequeuedOk(db: Db, result: RoutingResult)
    requires DbOk(db) && db.queue != [] && !result.Deferred?
    ensures DbOk(Dequeued(db, result))
  {
    var db' := Dequeued(db, result);
    var e := db.queue[0].event;
    forall d | d in db'.deliveries ensures Linked(db', d) && Agrees(db', d) && DeliveryOk(db', db'.deliveries[d]) {
      assert Linked(db, d) && Agrees(db, d) && DeliveryOk(db, db.deliveries[d]);
    }
    assert forall i | 0 <= i < |db'.queue| :: db'.queue[i] == db.queue[i + 1];
    assert QueueSound(db');
    forall x | x in db'.events && db'.events[x].routing.Deferred? ensures Queued(db', x) {
      assert Queued(db, x);
      var i :| 0 <= i < |db.queue| && db.queue[i].event == x;
      assert db'.queue[i - 1].event == x;
    }
    forall x, y | x in db'.events && y in db'.events && SameIdentity(db'.events[x], db'.events[y]) ensures x == y {
      assert SameIdentity(db.events[x], db.events[y]);
    }
  }
}
