/**
 * What the queries select and what the statements leave, column by column: the reference the transactions and the
 * workers' passes are held against, said without the functions they are computed by.
 */
module Columns {
  import opened Domain
  import opened Tables
  import opened Correlation
  import opened Polling
  import opened Intake
  import opened Manual
  import opened Protocol
  import opened Batches

  // ----- What is sent next -----

  /** Sending, or watched without a known deployment. */
  predicate Occupies(a: Attempt) {
    a.bound.None? && (a.status.transport.Sending? || a.status.deployment in {Locating, Running, Unrecognized})
  }

  /** The dispatch keys agree, or one is missing and the targets agree. */
  predicate SameResource(x: Delivery, y: Delivery) {
    (x.key.Some? && y.key.Some? && x.key.value == y.key.value) || ((x.key.None? || y.key.None?) && x.target == y.target)
  }

  /** d is pending, and no other delivery occupies its resource. */
  predicate Sendable(db: Db, d: Id)
    requires Schema(db) && d in db.deliveries
  {
    && Cur(db, d).kind in {Initial, AttemptKind.Manual(Retry), AttemptKind.Manual(Redeploy)}
    && Cur(db, d).status.transport.Pending? && db.deliveries[d].status.transport.Pending?
    && forall x | x in db.deliveries && x != d && SameResource(db.deliveries[x], db.deliveries[d]) ::
         assert Linked(db, x); !Occupies(Cur(db, x))
  }

  /** x came in no later than y; ties are broken by the creation of the delivery, then by its id. */
  predicate NoLater(db: Db, x: Id, y: Id)
    requires Schema(db) && x in db.deliveries && y in db.deliveries
  {
    var a, b := db.events[db.deliveries[x].event].receivedAt, db.events[db.deliveries[y].event].receivedAt;
    a < b || (a == b && db.deliveries[x].createdAt < db.deliveries[y].createdAt)
    || (a == b && db.deliveries[x].createdAt == db.deliveries[y].createdAt && x <= y)
  }

  /** The first delivery that can be sent, if there is one. */
  ghost predicate FirstToSend(db: Db, first: Option<Id>)
    requires Schema(db)
  {
    match first
    case None => forall d | d in db.deliveries :: !Sendable(db, d)
    case Some(d) => d in db.deliveries && Sendable(db, d) && forall x | x in db.deliveries && Sendable(db, x) :: NoLater(db, d, x)
  }

  lemma ClaimableIsSendable(db: Db, d: Id)
    requires Schema(db) && d in db.deliveries
    ensures Claimable(db, d) <==> Sendable(db, d)
  {
    forall x | x in db.deliveries ensures Linked(db, x) && (Holds(Cur(db, x)) <==> Occupies(Cur(db, x))) {}
    forall x, y ensures Conflict(x, y) <==> SameResource(x, y) {}
    assert Cur(db, d).kind != OtherKind <==> Cur(db, d).kind in {Initial, AttemptKind.Manual(Retry), AttemptKind.Manual(Redeploy)} by {
      if Cur(db, d).kind.Manual? { assert Cur(db, d).kind.operation.Retry? || Cur(db, d).kind.operation.Redeploy?; }
    }
  }

  lemma NothingClaimable(db: Db)
    requires Schema(db) && forall d | d in db.deliveries :: !Claimable(db, d)
    ensures FirstToSend(db, None)
  {
    forall d | d in db.deliveries ensures !Sendable(db, d) { ClaimableIsSendable(db, d); }
  }

  lemma NextIsFirst(db: Db, d: Id)
    requires Schema(db) && NextClaim(db, d)
    ensures FirstToSend(db, Some(d))
  {
    ClaimableIsSendable(db, d);
    forall x | x in db.deliveries && Sendable(db, x) ensures NoLater(db, d, x) {
      ClaimableIsSendable(db, x);
      assert Before(db, d, x);
    }
  }

  // ----- What is polled next -----

  /** Watched, scheduled, reached by the due time or the deadline, and not claimed since. */
  predicate IsDue(a: Attempt, now: Time) {
    && a.status.deployment in {Locating, Running, Unrecognized} && a.pollDue.Some? && a.deadline.Some?
    && (a.pollDue.value <= now / 1_000_000 || a.deadline.value <= now / 1_000_000)
    && (a.lastPolled.None? || (a.lastPolled.value < a.pollDue.value && a.lastPolled.value < a.deadline.value))
  }

  /** The earlier of due time and deadline. */
  function FirstInstant(a: Attempt): int
    requires a.pollDue.Some? && a.deadline.Some?
  {
    if a.pollDue.value <= a.deadline.value then a.pollDue.value else a.deadline.value
  }

  /** The first 32 due deliveries, by the instant they fell due and then as they came in. */
  ghost predicate FirstToPoll(db: Db, now: Time, ds: seq<Id>)
    requires Schema(db)
  {
    && |ds| <= 32 && (forall i, j | 0 <= i < j < |ds| :: ds[i] != ds[j])
    && (forall i | 0 <= i < |ds| :: ds[i] in db.deliveries && IsDue(Cur(db, ds[i]), now))
    && (forall i, j | 0 <= i < j < |ds| :: PolledBefore(db, now, ds[i], ds[j]))
    && forall d | d in db.deliveries && IsDue(Cur(db, d), now) && d !in ds ::
         |ds| == 32 && forall i | 0 <= i < |ds| :: PolledBefore(db, now, ds[i], d)
  }

  predicate PolledBefore(db: Db, now: Time, x: Id, y: Id)
    requires Schema(db) && x in db.deliveries && y in db.deliveries && IsDue(Cur(db, x), now) && IsDue(Cur(db, y), now)
  {
    FirstInstant(Cur(db, x)) < FirstInstant(Cur(db, y))
    || (FirstInstant(Cur(db, x)) == FirstInstant(Cur(db, y)) && NoLater(db, x, y))
  }

  lemma DueIsDue(a: Attempt, now: Time)
    ensures Due(a, now) <==> IsDue(a, now)
    ensures IsDue(a, now) ==> DueAt(a) == FirstInstant(a)
  {
  }

  lemma BatchIsFirst(db: Db, now: Time, ds: seq<Id>)
    requires Schema(db) && DueBatch(db, now, ds)
    ensures FirstToPoll(db, now, ds)
  {
    forall d | d in db.deliveries ensures DueNow(db, d, now) <==> IsDue(Cur(db, d), now) { DueIsDue(Cur(db, d), now); }
    forall i | 0 <= i < |ds| ensures ds[i] in db.deliveries && IsDue(Cur(db, ds[i]), now) { assert DueNow(db, ds[i], now); }
    forall i, j | 0 <= i < j < |ds| ensures PolledBefore(db, now, ds[i], ds[j]) { BeforeIsBefore(db, now, ds[i], ds[j]); }
    forall d | d in db.deliveries && IsDue(Cur(db, d), now) && d !in ds
      ensures |ds| == 32 && forall i | 0 <= i < |ds| :: PolledBefore(db, now, ds[i], d)
    {
      assert DueNow(db, d, now);
      forall i | 0 <= i < |ds| ensures PolledBefore(db, now, ds[i], d) { BeforeIsBefore(db, now, ds[i], d); }
    }
  }

  lemma BeforeIsBefore(db: Db, now: Time, x: Id, y: Id)
    requires Schema(db) && x in db.deliveries && y in db.deliveries && IsDue(Cur(db, x), now) && IsDue(Cur(db, y), now)
    requires DueBefore(db, x, y)
    ensures PolledBefore(db, now, x, y)
  {
    DueIsDue(Cur(db, x), now);
    DueIsDue(Cur(db, y), now);
  }

  // ----- One row written -----

  /** The current row of d, its copy on the delivery and one more audit record; every other column is as it was. */
  ghost predicate Written(db: Db, d: Id, b: Attempt, db': Db) {
    && d in db.deliveries && db.deliveries[d].current in db.attempts && d in db.audit
    && db'.attempts == db.attempts[db.deliveries[d].current := b]
    && db'.deliveries == db.deliveries[d := db.deliveries[d].(status := b.status)]
    && db'.audit == db.audit[d := db.audit[d] +
         [AuditRecord(db.deliveries[d].current, db.attempts[db.deliveries[d].current].status, b.status)]]
    && db'.events == db.events && db'.queue == db.queue && db'.nextSeq == db.nextSeq
  }

  /** The current row of d alone. */
  ghost predicate WrittenQuietly(db: Db, d: Id, b: Attempt, db': Db) {
    d in db.deliveries && db' == db.(attempts := db.attempts[db.deliveries[d].current := b])
  }

  /** A poll completed with u: row, copy and log when the pair changes, the row alone otherwise. */
  ghost predicate Polled(db: Db, d: Id, u: PollUpdate, changed: bool, db': Db) {
    && d in db.deliveries && db.deliveries[d].current in db.attempts
    && var a := db.attempts[db.deliveries[d].current];
       var b := a.(status := u.status, bound := if u.bound.Some? then u.bound else a.bound,
                   pollDue := if u.next.Some? then Some(u.next.value / 1_000_000) else None);
       (changed <==> a.status != u.status) && if changed then Written(db, d, b, db') else WrittenQuietly(db, d, b, db')
  }

  // ----- Rows at start-up -----

  /** Something is still to be done for the attempt. */
  predicate Unfinished(a: Attempt) {
    a.status.transport in {Pending, Sending} || a.status.deployment in {Locating, Running, Unrecognized}
  }

  ghost predicate NothingUnfinished(db: Db)
    requires Schema(db)
  {
    forall d | d in db.deliveries :: !Unfinished(Cur(db, d))
  }

  lemma QuietIsFinished(db: Db)
    requires Schema(db)
    ensures Quiet(db) <==> NothingUnfinished(db)
  {
    forall d | d in db.deliveries ensures ActiveDelivery(db, d) <==> Unfinished(Cur(db, d)) {}
  }

  /** The generation has this target id, bound as the delivery is. */
  predicate StillThere(g: Generation, x: Delivery) { x.target in g.targets && g.targets[x.target].binding == x.binding }

  /** What becomes of an unfinished attempt that can no longer be reached: never sent is failed, anything else unknown. */
  ghost predicate EndedUnreached(a: Attempt, b: Attempt) {
    && b.status == (if a.status == Status(Pending, NotStarted) then Status(Failed, NotStarted)
                    else Status(TransportStatus.Unknown, DeploymentStatus.Unknown))
    && b.pollDue.None? && b.deadline.None? && b.lastPolled.None?
    && b.bound == a.bound && b.cursor == a.cursor && b.request == a.request && b.requestAt == a.requestAt
    && b.kind == a.kind && b.delivery == a.delivery
  }

  /** Ending or keeping, after the check of all bindings. */
  ghost predicate KeptOrEnded(g: Generation, x: Delivery, a: Attempt, b: Attempt) {
    if Unfinished(a) && !StillThere(g, x) then EndedUnreached(a, b) else b == a
  }

  /** What recovery makes of a row: an interrupted send is to be located, a watched attempt may be claimed again. */
  ghost predicate Recovered(g: Generation, now: Time, x: Delivery, a: Attempt, b: Attempt) {
    var interval := if x.target in g.targets then g.targets[x.target].interval else g.interval;
    var timeout := if x.target in g.targets then g.targets[x.target].timeout else g.timeout;
    if a.status.transport.Sending? then
      b == a.(status := Status(TransportStatus.Unknown, Locating), lastPolled := None,
              pollDue := if a.pollDue.Some? then a.pollDue else Some((now + interval) / 1_000_000),
              deadline := if a.deadline.Some? then a.deadline else Some((now + timeout) / 1_000_000))
    else if a.status.deployment in {Locating, Running, Unrecognized} then
      b == a.(lastPolled := None,
              pollDue := if a.pollDue.Some? then a.pollDue else Some((now + interval) / 1_000_000),
              deadline := if a.deadline.Some? then a.deadline else Some((now + timeout) / 1_000_000))
    else b == a
  }

  /** A row when start-up ends. */
  ghost predicate ReadyToServe(g: Generation, now: Time, x: Delivery, a: Attempt, b: Attempt) {
    if Unfinished(a) && !StillThere(g, x) then EndedUnreached(a, b) else Recovered(g, now, x, a, b)
  }

  lemma TerminatedIsEnded(a: Attempt)
    ensures EndedUnreached(a, TerminatedRow(a))
  {
  }

  lemma RecoveredIs(g: Generation, now: Time, x: Delivery, a: Attempt)
    ensures Recovered(g, now, x, a, if Interrupted(a) then RecoveredRow(g, now, x, a) else a)
  {
  }

  // ----- Fan-out -----

  /** A pending delivery of event e and its untouched first attempt. */
  ghost predicate NewRows(db: Db, e: Id, item: NewDelivery, id: Fresh, at: int) {
    && id.delivery in db.deliveries && id.attempt in db.attempts && id.delivery in db.audit
    && db.deliveries[id.delivery] ==
         Delivery(e, item.target, item.binding, Some(item.binding), id.attempt, Status(Pending, NotStarted), at)
    && db.attempts[id.attempt] ==
         Attempt(id.delivery, Initial, Status(Pending, NotStarted), None, None, None, None, None, None, None)
    && db.audit[id.delivery] == []
  }

  /** Exactly the listed deliveries of e are new, each with its first attempt; the rows before are as they were. */
  ghost predicate FannedOut(db: Db, e: Id, items: seq<NewDelivery>, ids: seq<Fresh>, at: int, db': Db) {
    && |items| == |ids| && (forall i | 0 <= i < |ids| :: NewRows(db', e, items[i], ids[i], at))
    && (forall d | d in db'.deliveries && d !in db.deliveries :: exists i :: 0 <= i < |ids| && ids[i].delivery == d)
    && (forall a | a in db'.attempts && a !in db.attempts :: exists i :: 0 <= i < |ids| && ids[i].attempt == a)
    && (forall d | d in db.deliveries :: d in db'.deliveries && db'.deliveries[d] == db.deliveries[d])
    && (forall a | a in db.attempts :: a in db'.attempts && db'.attempts[a] == db.attempts[a])
    && (forall d | d in db.audit :: d in db'.audit && db'.audit[d] == db.audit[d])
  }

  lemma {:induction false} AddAllFansOut(db: Db, e: Id, items: seq<NewDelivery>, ids: seq<Fresh>, at: int)
    requires |items| == |ids| && AllFresh(ids, db.deliveries.Keys + db.attempts.Keys) && db.audit.Keys == db.deliveries.Keys
    ensures FannedOut(db, e, items, ids, at, AddAll(db, e, items, ids, at))
    ensures var db' := AddAll(db, e, items, ids, at);
            db'.events == db.events && db'.queue == db.queue && db'.nextSeq == db.nextSeq
    decreases |items|
  {
    if items != [] {
      var db1 := AddOne(db, e, items[0], ids[0], at);
      forall i | 0 <= i < |ids[1..]|
        ensures ids[1..][i].delivery !in db1.deliveries.Keys + db1.attempts.Keys
        ensures ids[1..][i].attempt !in db1.deliveries.Keys + db1.attempts.Keys
      {
        assert ids[1..][i] == ids[i + 1];
      }
      AddAllFansOut(db1, e, items[1..], ids[1..], at);
      FannedOutMore(db, db1, e, items, ids, at, AddAll(db, e, items, ids, at));
    }
  }

  lemma FannedOutMore(db: Db, db1: Db, e: Id, items: seq<NewDelivery>, ids: seq<Fresh>, at: int, db2: Db)
    requires |items| == |ids| > 0 && AllFresh(ids, db.deliveries.Keys + db.attempts.Keys) && db.audit.Keys == db.deliveries.Keys
    requires db1 == AddOne(db, e, items[0], ids[0], at) && FannedOut(db1, e, items[1..], ids[1..], at, db2)
    ensures FannedOut(db, e, items, ids, at, db2)
  {
    forall i | 0 <= i < |ids| ensures NewRows(db2, e, items[i], ids[i], at) {
      if i > 0 {
        assert items[1..][i - 1] == items[i] && ids[1..][i - 1] == ids[i];
        assert NewRows(db2, e, items[1..][i - 1], ids[1..][i - 1], at);
      } else {
        assert ids[0].delivery in db1.deliveries && ids[0].attempt in db1.attempts && ids[0].delivery in db1.audit;
      }
    }
    forall d | d in db2.deliveries && d !in db.deliveries ensures exists i :: 0 <= i < |ids| && ids[i].delivery == d {
      if d in db1.deliveries {
        assert ids[0].delivery == d;
      } else {
        var i :| 0 <= i < |ids[1..]| && ids[1..][i].delivery == d;
        assert ids[i + 1].delivery == d;
      }
    }
    forall a | a in db2.attempts && a !in db.attempts ensures exists i :: 0 <= i < |ids| && ids[i].attempt == a {
      if a in db1.attempts {
        assert ids[0].attempt == a;
      } else {
        var i :| 0 <= i < |ids[1..]| && ids[1..][i].attempt == a;
        assert ids[i + 1].attempt == a;
      }
    }
    forall d | d in db.deliveries ensures d in db2.deliveries && db2.deliveries[d] == db.deliveries[d] {
      assert d != ids[0].delivery && d in db1.deliveries;
    }
    forall a | a in db.attempts ensures a in db2.attempts && db2.attempts[a] == db.attempts[a] {
      assert a != ids[0].attempt && a in db1.attempts;
    }
    forall d | d in db.audit ensures d in db2.audit && db2.audit[d] == db.audit[d] {
      assert d != ids[0].delivery && d in db1.audit;
    }
  }

  // ----- Accepting an event -----

  /** The event stored with its routing result and its deliveries; the queue is as it was. */
  ghost predicate StoredWith(db: Db, e: Id, row: EventRow, r: Decision, ids: seq<Fresh>, db': Db) {
    && db'.events == db.events[e := row.(routing := r.result)] && db'.queue == db.queue && db'.nextSeq == db.nextSeq
    && FannedOut(db, e, r.deliveries, ids, row.receivedAt, db')
  }

  /** The event stored as deferred, last in the queue; no delivery is created. */
  ghost predicate QueuedLast(db: Db, e: Id, row: EventRow, db': Db) {
    db' == db.(events := db.events[e := row.(routing := Deferred)], queue := db.queue + [QueueRow(db.nextSeq, e)],
               nextSeq := db.nextSeq + 1)
  }

  /** The first event of the queue leaves it with its final result and its deliveries. */
  ghost predicate HeadRouted(db: Db, r: Decision, ids: seq<Fresh>, db': Db) {
    && db.queue != [] && db.queue[0].event in db.events
    && var e := db.queue[0].event;
       && db'.events == db.events[e := db.events[e].(routing := r.result)]
       && db'.queue == db.queue[1..] && db'.nextSeq == db.nextSeq
       && FannedOut(db, e, r.deliveries, ids, db.events[e].receivedAt, db')
  }

  lemma StoredIs(db: Db, e: Id, row: EventRow, r: Decision, ids: seq<Fresh>)
    requires |ids| == |r.deliveries| && AllFresh(ids, db.deliveries.Keys + db.attempts.Keys) && db.audit.Keys == db.deliveries.Keys
    ensures StoredWith(db, e, row, r, ids, Stored(db, e, row, r, ids))
  {
    var db1 := WithEvent(db, e, row.(routing := r.result));
    AddAllFansOut(db1, e, r.deliveries, ids, row.receivedAt);
    assert FannedOut(db, e, r.deliveries, ids, row.receivedAt, Stored(db, e, row, r, ids));
  }

  lemma FinalizedIsRouted(db: Db, r: Decision, ids: seq<Fresh>)
    requires db.queue != [] && db.queue[0].event in db.events && |ids| == |r.deliveries|
    requires AllFresh(ids, db.deliveries.Keys + db.attempts.Keys) && db.audit.Keys == db.deliveries.Keys
    ensures HeadRouted(db, r, ids, Finalized(db, r, ids))
  {
    var db1 := Dequeued(db, r.result);
    var e := db.queue[0].event;
    AddAllFansOut(db1, e, r.deliveries, ids, db.events[e].receivedAt);
    assert FannedOut(db, e, r.deliveries, ids, db.events[e].receivedAt, Finalized(db, r, ids));
  }

  // ----- Manual updates -----

  /** A pending attempt of d takes the place of the current one, and the log says so. */
  ghost predicate Replaced(db: Db, d: Id, id: Id, op: Operation, db': Db) {
    && d in db.deliveries && db.deliveries[d].current in db.attempts && d in db.audit
    && db'.attempts == db.attempts[id :=
         Attempt(d, AttemptKind.Manual(op), Status(Pending, NotStarted), None, None, None, None, None, None, None)]
    && db'.deliveries == db.deliveries[d := db.deliveries[d].(current := id, status := Status(Pending, NotStarted))]
    && db'.audit == db.audit[d := db.audit[d] +
         [AuditRecord(id, db.attempts[db.deliveries[d].current].status, Status(Pending, NotStarted))]]
    && db'.events == db.events && db'.queue == db.queue && db'.nextSeq == db.nextSeq
  }

  /** The row after a correction. */
  function CorrectedTo(a: Attempt, u: ManualUpdate): Attempt {
    Attempt(a.delivery, a.kind, u.status, a.request, a.requestAt, a.cursor, u.bound,
            if u.pollDue.Some? then Some(u.pollDue.value / 1_000_000) else None,
            if u.deadline.Some? then Some(u.deadline.value / 1_000_000) else None, None)
  }

  /** The attempt and the pair the request was decided on are still those of the delivery. */
  predicate AsExpected(db: Db, u: ManualUpdate) {
    && u.delivery in db.deliveries && db.deliveries[u.delivery].current == u.attempt && u.attempt in db.attempts
    && db.attempts[u.attempt].delivery == u.delivery && db.attempts[u.attempt].status == u.before
  }

  /** Correction first, replacement second, each if asked for; nothing unless all is as expected. */
  ghost predicate ManuallyUpdated(db: Db, u: ManualUpdate, id: Id, db': Db) {
    if !AsExpected(db, u) then db' == db
    else if !u.create then (if u.correct then Written(db, u.delivery, CorrectedTo(db.attempts[u.attempt], u), db') else db' == db)
    else if !u.correct then Replaced(db, u.delivery, id, u.operation, db')
    else exists mid: Db :: Written(db, u.delivery, CorrectedTo(db.attempts[u.attempt], u), mid)
                           && Replaced(mid, u.delivery, id, u.operation, db')
  }

  lemma ApplyIs(db: Db, u: ManualUpdate, id: Id)
    requires Schema(db)
    ensures ManuallyUpdated(db, u, id, Apply(db, u, id))
  {
    if StillExpected(db, u) {
      if u.correct {
        PutFrame(db, u.delivery, CorrectedRow(Cur(db, u.delivery), u), true);
        assert Written(db, u.delivery, CorrectedTo(db.attempts[u.attempt], u), Corrected(db, u));
      }
      if u.create { assert Replaced(Corrected(db, u), u.delivery, id, u.operation, Apply(db, u, id)); }
    }
  }

  // ----- Events -----

  /** The fields every stored event must have. */
  predicate Complete(row: EventRow) { row.provider != "" && row.source != "" && row.event != "" && row.deliveryKey != "" }

  /** An event with this provider, source and delivery identity is stored. */
  predicate AlreadyStored(db: Db, row: EventRow) {
    exists e | e in db.events ::
      db.events[e].provider == row.provider && db.events[e].source == row.source && db.events[e].deliveryKey == row.deliveryKey
  }

  lemma DuplicateIsStored(db: Db, row: EventRow)
    ensures Duplicate(db, row) <==> AlreadyStored(db, row)
    ensures WellFormed(row) <==> Complete(row)
  {
    if Duplicate(db, row) { var e :| e in db.events && SameIdentity(db.events[e], row); }
    if AlreadyStored(db, row) {
      var e :| e in db.events && db.events[e].provider == row.provider && db.events[e].source == row.source
               && db.events[e].deliveryKey == row.deliveryKey;
      assert SameIdentity(db.events[e], row);
    }
  }

  // ----- Recovery -----

  /** Every current row is as recovery leaves it. */
  ghost predicate AllRecovered(db: Db, g: Generation, now: Time, db': Db)
    requires Schema(db)
  {
    && Schema(db') && db'.deliveries.Keys == db.deliveries.Keys
    && forall d | d in db.deliveries :: Recovered(g, now, db.deliveries[d], Cur(db, d), Cur(db', d))
  }

  lemma BatchIsRecovered(db: Db, g: Generation, now: Time, ds: seq<Id>)
    requires DbOk(db) && RecoveryBatch(db, ds) && Batch(db, ds, (x, a) => RecoveredRow(g, now, x, a))
    ensures AllRecovered(db, g, now, PutAll(db, ds, (x, a) => RecoveredRow(g, now, x, a)))
  {
    PutAllOk(db, ds, (x, a) => RecoveredRow(g, now, x, a));
    forall d | d in db.deliveries
      ensures Recovered(g, now, db.deliveries[d], Cur(db, d), Cur(PutAll(db, ds, (x, a) => RecoveredRow(g, now, x, a)), d))
    {
      PutAllCur(db, ds, (x, a) => RecoveredRow(g, now, x, a), d);
      RecoveredIs(g, now, db.deliveries[d], Cur(db, d));
    }
  }
}
