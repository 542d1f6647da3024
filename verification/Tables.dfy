/**
 * The durable tables of migrations/001_initial.sql and 002_deployment_correlation.sql, the
 * constraints the schema enforces, and the handful of row rewrites every transaction is made of.
 */
module Tables {
  import opened Domain

  type Json = string
  type TargetId = string
  type DeploymentId = string

  /** What a target snapshot and its fingerprint identify: where a delivery is sent, and by which way. */
  datatype Binding =
    | Dokploy(resource: string, tunnel: Option<string>)
    | Direct(endpoint: string)

  datatype RoutingResult = Unmatched | RecordOnly | Deploy | Deferred | Unsupported

  datatype AttemptKind = Initial | Manual(operation: Operation) | OtherKind

  datatype EventRow = EventRow(
    provider: string, source: string, repository: string, deliveryKey: string, receivedAt: int,
    event: string, ref: Option<string>, status: Option<string>, revision: Option<string>,
    externalId: Option<string>, trigger: Option<string>, routing: RoutingResult)

  datatype Delivery = Delivery(
    event: Id, target: TargetId, binding: Binding, key: Option<Binding>,
    current: Id, status: Status, createdAt: int)

  datatype Attempt = Attempt(
    delivery: Id, kind: AttemptKind, status: Status,
    request: Option<Json>, requestAt: Option<int>,
    cursor: Option<DeploymentId>, bound: Option<DeploymentId>,
    pollDue: Option<int>, deadline: Option<int>, lastPolled: Option<int>)

  /** One audit row; the table is kept grouped by delivery, in insertion order. */
  datatype AuditRecord = AuditRecord(attempt: Id, before: Status, after: Status)

  datatype QueueRow = QueueRow(seqNo: int, event: Id)

  datatype Db = Db(
    events: map<Id, EventRow>, deliveries: map<Id, Delivery>, attempts: map<Id, Attempt>,
    audit: map<Id, seq<AuditRecord>>, queue: seq<QueueRow>, nextSeq: int)

  const EMPTY := Db(map[], map[], map[], map[], [], 1)

  function NewAttempt(d: Id, kind: AttemptKind): Attempt {
    Attempt(d, kind, FRESH, None, None, None, None, None, None, None)
  }

  // ----- Schema: foreign keys, unique constraints, queue order -----

  predicate Linked(db: Db, d: Id) {
    && d in db.deliveries
    && db.deliveries[d].current in db.attempts
    && db.attempts[db.deliveries[d].current].delivery == d
  }

  ghost predicate QueueSound(db: Db) {
    && (forall i | 0 <= i < |db.queue| :: db.queue[i].seqNo < db.nextSeq)
    && (forall i, j | 0 <= i < j < |db.queue| :: db.queue[i].seqNo < db.queue[j].seqNo)
    && (forall i, j | 0 <= i < j < |db.queue| :: db.queue[i].event != db.queue[j].event)
    && (forall i | 0 <= i < |db.queue| :: db.queue[i].event in db.events)
  }

  ghost predicate Schema(db: Db) {
    && (forall d | d in db.deliveries :: Linked(db, d) && db.deliveries[d].event in db.events)
    && (forall a | a in db.attempts :: db.attempts[a].delivery in db.deliveries)
    && db.audit.Keys == db.deliveries.Keys
    && QueueSound(db)
  }

  /** The current attempt of a delivery: the join every query of the store performs. */
  function Cur(db: Db, d: Id): Attempt
    requires Linked(db, d)
  {
    db.attempts[db.deliveries[d].current]
  }

  // ----- Row invariant -----

  /** What every attempt row satisfies, current or superseded. */
  predicate RowOk(a: Attempt) {
    && Expected(a.status)
    && (a.status.transport.Pending? ==>
          a.cursor.None? && a.request.None? && a.requestAt.None?)
    && (a.status.transport.Pending? || a.status.transport.Sending? ==>
          a.bound.None? && a.lastPolled.None? && a.pollDue.None? && a.deadline.None?)
    && (Monitored(a.status.deployment) ==> a.pollDue.Some? && a.deadline.Some?)
    && (a.status.deployment.Locating? ==> a.bound.None?)
    && (a.status.deployment in {Running, Unrecognized, Error, Cancelled, Timeout} ==> a.bound.Some?)
    && (a.status == Status(Enqueued, DeploymentStatus.Unknown) ==> a.bound.None?)
    && (a.bound.Some? ==> a.bound.value != "")
  }

  // ----- Audit replay -----

  /** Replays an audit log from a status; None when a record does not start where the previous ended. */
  function Replay(from: Status, log: seq<AuditRecord>): Option<Status>
    decreases |log|
  {
    if log == [] then Some(from)
    else if log[0].before != from then None
    else Replay(log[0].after, log[1..])
  }

  lemma {:induction false} ReplayAppend(from: Status, log: seq<AuditRecord>, r: AuditRecord)
    requires Replay(from, log) == Some(r.before)
    ensures Replay(from, log + [r]) == Some(r.after)
    decreases |log|
  {
    if log == [] {
      assert ([] + [r])[1..] == [];
    } else {
      assert (log + [r])[1..] == log[1..] + [r];
      ReplayAppend(log[0].after, log[1..], r);
    }
  }

  // ----- The invariant of the database -----

  ghost predicate Agrees(db: Db, d: Id)
    requires Linked(db, d) && d in db.audit
  {
    && db.deliveries[d].status == Cur(db, d).status
    && Replay(FRESH, db.audit[d]) == Some(Cur(db, d).status)
  }

  ghost predicate DeferredIffQueued(db: Db) {
    && (forall i | 0 <= i < |db.queue| ::
          db.queue[i].event in db.events && db.events[db.queue[i].event].routing.Deferred?)
    && (forall e | e in db.events && db.events[e].routing.Deferred? :: Queued(db, e))
  }

  ghost predicate Queued(db: Db, e: Id) {
    exists i :: 0 <= i < |db.queue| && db.queue[i].event == e
  }

  ghost predicate IdentitiesUnique(db: Db) {
    forall x, y | x in db.events && y in db.events && SameIdentity(db.events[x], db.events[y]) :: x == y
  }

  predicate SameIdentity(x: EventRow, y: EventRow) {
    x.provider == y.provider && x.source == y.source && x.deliveryKey == y.deliveryKey
  }

  ghost predicate DbOk(db: Db) {
    && Schema(db)
    && (forall a | a in db.attempts :: RowOk(db.attempts[a]))
    && (forall d | d in db.deliveries :: Agrees(db, d))
    && (forall d | d in db.deliveries :: DeliveryOk(db, db.deliveries[d]))
    && DeferredIffQueued(db)
    && IdentitiesUnique(db)
  }

  ghost predicate DeliveryOk(db: Db, x: Delivery) {
    && x.event in db.events && db.events[x.event].routing.Deploy?
    && (x.key.Some? ==> x.key.value == x.binding)
  }

  // ----- Rewriting the current row of one delivery -----

  /** Replaces the current attempt of d, copies its status to the delivery and, if asked, logs the change. */
  function Put(db: Db, d: Id, a: Attempt, note: bool): Db
    requires Linked(db, d) && d in db.audit
  {
    db.(attempts := db.attempts[db.deliveries[d].current := a],
        deliveries := db.deliveries[d := db.deliveries[d].(status := a.status)],
        audit := if note
                 then db.audit[d := db.audit[d] + [AuditRecord(db.deliveries[d].current, Cur(db, d).status, a.status)]]
                 else db.audit)
  }

  lemma PutFrame(db: Db, d: Id, a: Attempt, note: bool)
    requires Schema(db) && d in db.deliveries && a.delivery == d
    ensures Schema(Put(db, d, a, note))
    ensures Cur(Put(db, d, a, note), d) == a
    ensures forall x | x in db.deliveries ::
              Linked(Put(db, d, a, note), x) && (x != d ==> Cur(Put(db, d, a, note), x) == Cur(db, x))
  {
    var db' := Put(db, d, a, note);
    forall x | x in db.deliveries
      ensures Linked(db', x) && (x != d ==> Cur(db', x) == Cur(db, x))
    {
      assert Linked(db, x) && Linked(db, d);
    }
    assert QueueSound(db');
  }

  lemma PutOk(db: Db, d: Id, a: Attempt, note: bool)
    requires DbOk(db) && d in db.deliveries && a.delivery == d && RowOk(a)
    requires note || a.status == Cur(db, d).status
    ensures DbOk(Put(db, d, a, note))
  {
    PutFrame(db, d, a, note);
    var db' := Put(db, d, a, note);
    if note {
      ReplayAppend(FRESH, db.audit[d], AuditRecord(db.deliveries[d].current, Cur(db, d).status, a.status));
    }
    forall x | x in db'.deliveries ensures Agrees(db', x) {
      assert Agrees(db, x);
    }
    forall x | x in db'.deliveries ensures DeliveryOk(db', db'.deliveries[x]) {
      assert DeliveryOk(db, db.deliveries[x]);
    }
    assert forall e :: Queued(db', e) <==> Queued(db, e);
  }

  /** db' differs from db only in the current rows (and their copies and logs) of the deliveries in m. */
  ghost predicate Moved(db: Db, db': Db, m: set<Id>) {
    && db'.events == db.events && db'.queue == db.queue && db'.nextSeq == db.nextSeq
    && db'.deliveries.Keys == db.deliveries.Keys && db'.attempts.Keys == db.attempts.Keys
    && (forall d | d in db.deliveries :: db'.deliveries[d] == db.deliveries[d].(status := db'.deliveries[d].status))
    && (forall a | a in db.attempts :: db'.attempts[a] == db.attempts[a]
          || (db.attempts[a].delivery in m && db.attempts[a].delivery in db.deliveries
              && db.deliveries[db.attempts[a].delivery].current == a))
  }

  lemma PutMoves(db: Db, d: Id, a: Attempt, note: bool)
    requires Schema(db) && d in db.deliveries && a.delivery == d
    ensures Moved(db, Put(db, d, a, note), {d})
  {
    assert Linked(db, d);
  }

  /** Rewrites the current rows of several deliveries, logging those whose status changes. */
  function PutAll(db: Db, ds: seq<Id>, f: (Delivery, Attempt) -> Attempt): Db
    requires Schema(db) && (forall i | 0 <= i < |ds| :: ds[i] in db.deliveries)
    requires forall x, a :: f(x, a).delivery == a.delivery
    decreases |ds|
  {
    if ds == [] then db
    else
      var d := ds[0];
      assert Linked(db, d);
      var a := f(db.deliveries[d], Cur(db, d));
      PutFrame(db, d, a, a.status != Cur(db, d).status);
      PutAll(Put(db, d, a, a.status != Cur(db, d).status), ds[1..], f)
  }

  predicate Distinct(ds: seq<Id>) {
    forall i, j | 0 <= i < j < |ds| :: ds[i] != ds[j]
  }

  /** f looks at nothing of a delivery that a rewrite changes. */
  ghost predicate StatusBlind(f: (Delivery, Attempt) -> Attempt) {
    forall x: Delivery, s: Status, a: Attempt :: f(x.(status := s), a) == f(x, a)
  }

  /** What a batch needs of its rewrite. */
  ghost predicate Batch(db: Db, ds: seq<Id>, f: (Delivery, Attempt) -> Attempt) {
    && DbOk(db) && Distinct(ds) && (forall i | 0 <= i < |ds| :: ds[i] in db.deliveries)
    && (forall x, a :: f(x, a).delivery == a.delivery) && StatusBlind(f)
    && (forall i | 0 <= i < |ds| :: RowOk(f(db.deliveries[ds[i]], Cur(db, ds[i]))))
  }

  /** The database after the first rewrite of a batch. */
  ghost function AfterHead(db: Db, ds: seq<Id>, f: (Delivery, Attempt) -> Attempt): Db
    requires Batch(db, ds, f) && ds != []
  {
    var a := f(db.deliveries[ds[0]], Cur(db, ds[0]));
    Put(db, ds[0], a, a.status != Cur(db, ds[0]).status)
  }

  lemma BatchHead(db: Db, ds: seq<Id>, f: (Delivery, Attempt) -> Attempt)
    requires Batch(db, ds, f) && ds != []
    ensures DbOk(AfterHead(db, ds, f)) && Moved(db, AfterHead(db, ds, f), {ds[0]})
    ensures Cur(AfterHead(db, ds, f), ds[0]) == f(db.deliveries[ds[0]], Cur(db, ds[0]))
    ensures forall x | x in db.deliveries && x != ds[0] :: Cur(AfterHead(db, ds, f), x) == Cur(db, x)
  {
    var a := f(db.deliveries[ds[0]], Cur(db, ds[0]));
    var note := a.status != Cur(db, ds[0]).status;
    PutFrame(db, ds[0], a, note);
    PutMoves(db, ds[0], a, note);
    PutOk(db, ds[0], a, note);
  }

  lemma BatchTail(db: Db, ds: seq<Id>, f: (Delivery, Attempt) -> Attempt)
    requires Batch(db, ds, f) && ds != []
    ensures Batch(AfterHead(db, ds, f), ds[1..], f)
    ensures forall x | x in db.deliveries && x != ds[0] ::
              f(AfterHead(db, ds, f).deliveries[x], Cur(AfterHead(db, ds, f), x)) == f(db.deliveries[x], Cur(db, x))
  {
    BatchHead(db, ds, f);
    var db' := AfterHead(db, ds, f);
    forall x | x in db.deliveries && x != ds[0]
      ensures f(db'.deliveries[x], Cur(db', x)) == f(db.deliveries[x], Cur(db, x))
    {
      assert db'.deliveries[x] == db.deliveries[x].(status := db'.deliveries[x].status);
    }
    forall i | 0 <= i < |ds[1..]|
      ensures ds[1..][i] in db'.deliveries && RowOk(f(db'.deliveries[ds[1..][i]], Cur(db', ds[1..][i])))
    {
      assert ds[1..][i] == ds[i + 1] != ds[0];
    }
  }

  lemma {:induction false} PutAllOk(db: Db, ds: seq<Id>, f: (Delivery, Attempt) -> Attempt)
    requires Batch(db, ds, f)
    ensures DbOk(PutAll(db, ds, f))
    ensures Moved(db, PutAll(db, ds, f), set d | d in ds)
    decreases |ds|
  {
    if ds != [] {
      BatchHead(db, ds, f);
      BatchTail(db, ds, f);
      PutAllOk(AfterHead(db, ds, f), ds[1..], f);
      SameOwners(db, ds, f);
      PutAllTail(db, AfterHead(db, ds, f), PutAll(db, ds, f), ds);
    }
  }

  lemma SameOwners(db: Db, ds: seq<Id>, f: (Delivery, Attempt) -> Attempt)
    requires Batch(db, ds, f) && ds != []
    ensures var db' := AfterHead(db, ds, f);
            forall a | a in db.attempts :: a in db'.attempts && db'.attempts[a].delivery == db.attempts[a].delivery
  {
    assert Linked(db, ds[0]);
  }

  lemma {:induction false} PutAllCur(db: Db, ds: seq<Id>, f: (Delivery, Attempt) -> Attempt, x: Id)
    requires Batch(db, ds, f) && x in db.deliveries
    ensures Linked(PutAll(db, ds, f), x)
    ensures Cur(PutAll(db, ds, f), x) == if x in ds then f(db.deliveries[x], Cur(db, x)) else Cur(db, x)
    decreases |ds|
  {
    if ds == [] {
      assert Linked(db, x);
    } else {
      BatchHead(db, ds, f);
      BatchTail(db, ds, f);
      var db' := AfterHead(db, ds, f);
      assert PutAll(db, ds, f) == PutAll(db', ds[1..], f);
      PutAllCur(db', ds[1..], f, x);
      HeadOrTail(ds, x);
    }
  }

  lemma HeadOrTail(ds: seq<Id>, x: Id)
    requires ds != [] && Distinct(ds)
    ensures x in ds <==> x == ds[0] || x in ds[1..]
    ensures !(x == ds[0] && x in ds[1..])
  {
    assert ds == [ds[0]] + ds[1..];
  }

  lemma PutAllTail(db: Db, db1: Db, db2: Db, ds: seq<Id>)
    requires ds != [] && Schema(db) && Moved(db, db1, {ds[0]}) && Moved(db1, db2, set d | d in ds[1..])
    requires forall a | a in db.attempts :: db1.attempts[a].delivery == db.attempts[a].delivery
    ensures Moved(db, db2, set d | d in ds)
  {
    assert forall d | d in ds[1..] :: d in ds;
  }

  // ----- A new attempt on an existing delivery -----

  function Supersede(db: Db, d: Id, id: Id, kind: AttemptKind): Db
    requires Linked(db, d) && d in db.audit
  {
    db.(attempts := db.attempts[id := NewAttempt(d, kind)],
        deliveries := db.deliveries[d := db.deliveries[d].(current := id, status := FRESH)],
        audit := db.audit[d := db.audit[d] + [AuditRecord(id, Cur(db, d).status, FRESH)]])
  }

  lemma SupersedeFrame(db: Db, d: Id, id: Id, kind: AttemptKind)
    requires Schema(db) && d in db.deliveries && id !in db.attempts
    ensures Schema(Supersede(db, d, id, kind))
    ensures Cur(Supersede(db, d, id, kind), d) == NewAttempt(d, kind)
    ensures forall x | x in db.deliveries ::
              Linked(Supersede(db, d, id, kind), x) && (x != d ==> Cur(Supersede(db, d, id, kind), x) == Cur(db, x))
  {
    var db' := Supersede(db, d, id, kind);
    forall x | x in db.deliveries
      ensures Linked(db', x) && (x != d ==> Cur(db', x) == Cur(db, x))
    {
      assert Linked(db, x) && Linked(db, d);
    }
    assert QueueSound(db');
  }

  lemma SupersedeOk(db: Db, d: Id, id: Id, kind: AttemptKind)
    requires DbOk(db) && d in db.deliveries && id !in db.attempts
    ensures DbOk(Supersede(db, d, id, kind))
  {
    SupersedeFrame(db, d, id, kind);
    var db' := Supersede(db, d, id, kind);
    ReplayAppend(FRESH, db.audit[d], AuditRecord(id, Cur(db, d).status, FRESH));
    forall x | x in db'.deliveries ensures Agrees(db', x) {
      assert Agrees(db, x);
    }
    forall x | x in db'.deliveries ensures DeliveryOk(db', db'.deliveries[x]) {
      assert DeliveryOk(db, db.deliveries[x]);
    }
    assert forall e :: Queued(db', e) <==> Queued(db, e);
  }

  // ----- A new delivery with its initial attempt -----

  datatype NewDelivery = NewDelivery(target: TargetId, binding: Binding)

  datatype Fresh = Fresh(delivery: Id, attempt: Id)

  function AddOne(db: Db, e: Id, item: NewDelivery, id: Fresh, at: int): Db {
    db.(deliveries := db.deliveries[id.delivery :=
          Delivery(e, item.target, item.binding, Some(item.binding), id.attempt, FRESH, at)],
        attempts := db.attempts[id.attempt := NewAttempt(id.delivery, Initial)],
        audit := db.audit[id.delivery := []])
  }

  /** The fan-out loop of Ingest and FinalizeDeferred. */
  function AddAll(db: Db, e: Id, items: seq<NewDelivery>, ids: seq<Fresh>, at: int): Db
    requires |items| == |ids|
    decreases |items|
  {
    if items == [] then db
    else AddAll(AddOne(db, e, items[0], ids[0], at), e, items[1..], ids[1..], at)
  }

  /** The ids name rows that do not exist yet, each only once. */
  predicate AllFresh(ids: seq<Fresh>, taken: set<Id>) {
    && (forall i | 0 <= i < |ids| :: ids[i].delivery !in taken && ids[i].attempt !in taken)
    && (forall i, j | 0 <= i < j < |ids| :: ids[i].delivery != ids[j].delivery && ids[i].attempt != ids[j].attempt)
    && (forall i, j | 0 <= i < |ids| && 0 <= j < |ids| :: ids[i].delivery != ids[j].attempt)
  }

  function DeliveryIds(ids: seq<Fresh>): set<Id> {
    if ids == [] then {} else {ids[0].delivery} + DeliveryIds(ids[1..])
  }

  function AttemptIds(ids: seq<Fresh>): set<Id> {
    if ids == [] then {} else {ids[0].attempt} + AttemptIds(ids[1..])
  }

  lemma {:induction false} IdAt(ids: seq<Fresh>, i: nat)
    requires i < |ids|
    ensures ids[i].delivery in DeliveryIds(ids) && ids[i].attempt in AttemptIds(ids)
  {
    if i > 0 { IdAt(ids[1..], i - 1); }
  }

  lemma {:induction false} DeliveryIndex(ids: seq<Fresh>, d: Id) returns (i: nat)
    requires d in DeliveryIds(ids)
    ensures i < |ids| && ids[i].delivery == d
  {
    if ids[0].delivery == d { i := 0; } else { i := DeliveryIndex(ids[1..], d); i := i + 1; }
  }

  lemma {:induction false} AttemptIndex(ids: seq<Fresh>, a: Id) returns (i: nat)
    requires a in AttemptIds(ids)
    ensures i < |ids| && ids[i].attempt == a
  {
    if ids[0].attempt == a { i := 0; } else { i := AttemptIndex(ids[1..], a); i := i + 1; }
  }

  lemma AddOneOk(db: Db, e: Id, item: NewDelivery, id: Fresh, at: int)
    requires DbOk(db) && e in db.events && db.events[e].routing.Deploy?
    requires id.delivery !in db.deliveries && id.attempt !in db.attempts
    ensures DbOk(AddOne(db, e, item, id, at))
    ensures forall x | x in db.deliveries :: Cur(AddOne(db, e, item, id, at), x) == Cur(db, x)
    ensures Cur(AddOne(db, e, item, id, at), id.delivery) == NewAttempt(id.delivery, Initial)
  {
    var db' := AddOne(db, e, item, id, at);
    forall x | x in db'.deliveries ensures Linked(db', x) && db'.deliveries[x].event in db'.events {
      if x != id.delivery { assert Linked(db, x); }
    }
    assert QueueSound(db');
    forall x | x in db'.deliveries ensures Agrees(db', x) {
      if x != id.delivery { assert Agrees(db, x); }
    }
    forall x | x in db'.deliveries ensures DeliveryOk(db', db'.deliveries[x]) {
      if x != id.delivery { assert DeliveryOk(db, db.deliveries[x]); }
    }
    assert forall e :: Queued(db', e) <==> Queued(db, e);
  }

  // ----- Deleting events with everything that hangs off them -----

  /** DELETE FROM events WHERE id IN es, with its cascades. */
  function Remove(db: Db, es: set<Id>): Db
    requires forall a | a in db.attempts :: db.attempts[a].delivery in db.deliveries
  {
    Db(map e | e in db.events && e !in es :: db.events[e],
       map d | d in db.deliveries && db.deliveries[d].event !in es :: db.deliveries[d],
       map a | a in db.attempts && db.deliveries[db.attempts[a].delivery].event !in es :: db.attempts[a],
       map d | d in db.deliveries && db.deliveries[d].event !in es && d in db.audit :: db.audit[d],
       db.queue, db.nextSeq)
  }

  lemma RemoveOk(db: Db, es: set<Id>)
    requires DbOk(db) && forall e | e in es && e in db.events :: !db.events[e].routing.Deferred?
    ensures DbOk(Remove(db, es))
    ensures forall d | d in Remove(db, es).deliveries :: Cur(Remove(db, es), d) == Cur(db, d)
  {
    var db' := Remove(db, es);
    forall d | d in db'.deliveries ensures Linked(db', d) && db'.deliveries[d].event in db'.events {
      assert Linked(db, d);
    }
    forall a | a in db'.attempts ensures db'.attempts[a].delivery in db'.deliveries {
      assert db.attempts[a].delivery in db.deliveries;
    }
    assert db'.audit.Keys == db'.deliveries.Keys;
    assert QueueSound(db');
    forall x | x in db'.deliveries ensures Agrees(db', x) {
      assert Agrees(db, x);
    }
    forall x | x in db'.deliveries ensures DeliveryOk(db', db'.deliveries[x]) {
      assert DeliveryOk(db, db.deliveries[x]);
    }
    assert forall e :: Queued(db', e) <==> Queued(db, e);
  }
}
