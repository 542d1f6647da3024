/** Facts the transactions rest on: first rows exist, loops build what the specification describes. */
module Batches {
  import opened Domain
  import opened Tables
  import opened Correlation
  import opened Polling
  import opened Intake
  import opened Manual
  import opened Protocol
  import opened PollSteps

  function OptionalMillis(t: Option<Time>): Option<int> {
    if t.Some? then Some(Millis(t.value)) else None
  }

  /** The row transitionAttempt writes. */
  function Transitioned(a: Attempt, request: Option<Json>, status: Status, pollDue: Option<Time>, deadline: Option<Time>): Attempt {
    a.(status := status, request := request, pollDue := OptionalMillis(pollDue), deadline := OptionalMillis(deadline))
  }

  /** validatePersistedEvent. */
  predicate WellFormed(row: EventRow) {
    row.provider != "" && row.source != "" && row.event != "" && row.deliveryKey != ""
  }

  ghost predicate WorkIsFor(db: Db, w: PollWork, now: Time) {
    Linked(db, w.delivery) && Cur(db, w.delivery).deadline.Some? && w == WorkFor(db, w.delivery, now)
  }

  function WorkDeliveries(ws: seq<PollWork>): seq<Id> {
    seq(|ws|, i requires 0 <= i < |ws| => ws[i].delivery)
  }

  lemma CurrentIsOwn(db: Db, id: Id)
    requires Schema(db) && id in db.attempts && exists d :: d in db.deliveries && db.deliveries[d].current == id
    ensures db.attempts[id].delivery in db.deliveries && db.deliveries[db.attempts[id].delivery].current == id
  {
    var d :| d in db.deliveries && db.deliveries[d].current == id;
    assert Linked(db, d);
  }

  lemma NotDuplicateWhatever(db: Db, row: EventRow, result: RoutingResult)
    ensures Duplicate(db, row.(routing := result)) <==> Duplicate(db, row)
  {
    forall e | e in db.events ensures SameIdentity(db.events[e], row.(routing := result)) <==> SameIdentity(db.events[e], row) {
    }
  }

  // ----- First rows -----

  lemma {:induction false} FirstOf(db: Db, s: set<Id>) returns (m: Id)
    requires Schema(db) && s != {} && s <= db.deliveries.Keys
    ensures m in s && forall x | x in s :: Before(db, m, x)
    decreases |s|
  {
    NonEmpty(s);
    m :| m in s;
    var rest := s - {m};
    if rest != {} {
      var n := FirstOf(db, rest);
      forall x | x in rest ensures Before(db, m, x) || Before(db, n, m) { BeforeOrders(db, m, n, x); }
      if Before(db, n, m) { m := n; }
    }
  }

  lemma BeforeOrders(db: Db, x: Id, y: Id, z: Id)
    requires Schema(db) && x in db.deliveries && y in db.deliveries && z in db.deliveries
    ensures Before(db, x, y) || Before(db, y, x)
    ensures Before(db, x, y) && Before(db, y, z) ==> Before(db, x, z)
  {
  }

  lemma FirstClaimable(db: Db)
    requires Schema(db) && exists d :: d in db.deliveries && Claimable(db, d)
    ensures exists d :: NextClaim(db, d)
  {
    var s := set d | d in db.deliveries && Claimable(db, d);
    var d :| d in db.deliveries && Claimable(db, d);
    assert d in s;
    var m := FirstOf(db, s);
    assert NextClaim(db, m);
  }

  lemma {:induction false} FirstDueOf(db: Db, now: Time, s: set<Id>) returns (m: Id)
    requires Schema(db) && s != {} && forall d | d in s :: d in db.deliveries && DueNow(db, d, now)
    ensures m in s && forall x | x in s :: DueNow(db, x, now) && DueNow(db, m, now) && DueBefore(db, m, x)
    decreases |s|
  {
    NonEmpty(s);
    m :| m in s;
    var rest := s - {m};
    if rest != {} {
      var n := FirstDueOf(db, now, rest);
      if DueBefore(db, n, m) { m := n; }
    }
  }

  lemma FirstDue(db: Db, now: Time, ds: seq<Id>)
    requires Schema(db) && exists d :: d in db.deliveries && DueNow(db, d, now) && d !in ds
    ensures exists d :: d in db.deliveries && DueNow(db, d, now) && d !in ds
              && forall x | x in db.deliveries && DueNow(db, x, now) && x !in ds :: DueBefore(db, d, x)
  {
    var s := set d | d in db.deliveries && DueNow(db, d, now) && d !in ds;
    var d :| d in db.deliveries && DueNow(db, d, now) && d !in ds;
    assert d in s;
    var m := FirstDueOf(db, now, s);
  }

  /** The rows taken so far come before all the due rows not taken. */
  ghost predicate DuePrefix(db: Db, now: Time, ds: seq<Id>)
    requires Schema(db)
  {
    && Distinct(ds)
    && (forall i | 0 <= i < |ds| :: ds[i] in db.deliveries && DueNow(db, ds[i], now))
    && (forall i, j | 0 <= i < j < |ds| :: DueBefore(db, ds[i], ds[j]))
    && (forall x | x in db.deliveries && DueNow(db, x, now) && x !in ds :: forall i | 0 <= i < |ds| :: DueBefore(db, ds[i], x))
  }

  lemma DuePrefixGrows(db: Db, now: Time, ds: seq<Id>, d: Id)
    requires Schema(db) && DuePrefix(db, now, ds) && d in db.deliveries && DueNow(db, d, now) && d !in ds
    requires forall x | x in db.deliveries && DueNow(db, x, now) && x !in ds :: DueBefore(db, d, x)
    ensures DuePrefix(db, now, ds + [d])
  {
  }

  // ----- Batches of rewrites -----

  lemma DueBatchIsBatch(db: Db, now: Time, ds: seq<Id>)
    requires DbOk(db) && DueBatch(db, now, ds)
    ensures Batch(db, ds, (x, a) => ClaimedRow(a, now))
  {
    forall i | 0 <= i < |ds| ensures RowOk(ClaimedRow(Cur(db, ds[i]), now)) {
      assert DueNow(db, ds[i], now);
      assert RowOk(Cur(db, ds[i]));
    }
  }

  lemma BatchPrefix(db: Db, ds: seq<Id>, f: (Delivery, Attempt) -> Attempt, i: nat)
    requires Batch(db, ds, f) && i <= |ds|
    ensures Batch(db, ds[..i], f)
    ensures i < |ds| ==> ds[i] !in ds[..i]
  {
  }

  /** After the first rewrites of a batch the next row is still as it was. */
  lemma BatchNext(db: Db, ds: seq<Id>, f: (Delivery, Attempt) -> Attempt, i: nat)
    requires Batch(db, ds, f) && i < |ds|
    ensures Batch(db, ds[..i], f) && Batch(db, ds[..i + 1], f)
    ensures var db1 := PutAll(db, ds[..i], f);
            && DbOk(db1) && Linked(db1, ds[i]) && ds[i] in db1.audit && Cur(db1, ds[i]) == Cur(db, ds[i])
            && db1.deliveries[ds[i]] == db.deliveries[ds[i]].(status := db1.deliveries[ds[i]].status)
            && f(db1.deliveries[ds[i]], Cur(db1, ds[i])) == f(db.deliveries[ds[i]], Cur(db, ds[i]))
  {
    BatchPrefix(db, ds, f, i);
    BatchPrefix(db, ds, f, i + 1);
    PutAllOk(db, ds[..i], f);
    PutAllCur(db, ds[..i], f, ds[i]);
  }

  /** One rewrite of a batch. */
  function Rewrite(db: Db, d: Id, f: (Delivery, Attempt) -> Attempt): Db
    requires Linked(db, d) && d in db.audit
  {
    var a := f(db.deliveries[d], Cur(db, d));
    Put(db, d, a, a.status != Cur(db, d).status)
  }

  lemma {:induction false} PutAllAppend(db: Db, xs: seq<Id>, d: Id, f: (Delivery, Attempt) -> Attempt)
    requires Schema(db) && (forall i | 0 <= i < |xs| :: xs[i] in db.deliveries) && d in db.deliveries
    requires forall x, a :: f(x, a).delivery == a.delivery
    ensures Linked(PutAll(db, xs, f), d) && d in PutAll(db, xs, f).audit
    ensures PutAll(db, xs + [d], f) == Rewrite(PutAll(db, xs, f), d, f)
    decreases |xs|
  {
    if xs == [] {
      assert [] + [d] == [d] && [d][1..] == [];
      assert Linked(db, d);
    } else {
      var a := f(db.deliveries[xs[0]], Cur(db, xs[0]));
      PutFrame(db, xs[0], a, a.status != Cur(db, xs[0]).status);
      assert (xs + [d])[0] == xs[0] && (xs + [d])[1..] == xs[1..] + [d];
      PutAllAppend(Rewrite(db, xs[0], f), xs[1..], d, f);
    }
  }

  /** One more round of the loop is one more rewrite at the end of the batch. */
  lemma PutAllSnoc(db: Db, ds: seq<Id>, f: (Delivery, Attempt) -> Attempt, i: nat)
    requires Batch(db, ds, f) && i < |ds|
    ensures Linked(PutAll(db, ds[..i], f), ds[i]) && ds[i] in PutAll(db, ds[..i], f).audit
    ensures PutAll(db, ds[..i + 1], f) == Rewrite(PutAll(db, ds[..i], f), ds[i], f)
  {
    assert ds[..i + 1] == ds[..i] + [ds[i]];
    PutAllAppend(db, ds[..i], ds[i], f);
  }

  /** The claimed work is the due batch, read before the claim and marked by it. */
  ghost predicate PollsClaimed(db: Db, now: Time, claimed: seq<PollWork>, db': Db)
    requires DbOk(db)
  {
    && DueBatch(db, now, WorkDeliveries(claimed))
    && db' == PutAll(db, WorkDeliveries(claimed), (x, a) => ClaimedRow(a, now))
    && forall i | 0 <= i < |claimed| :: WorkIsFor(db, claimed[i], now)
  }

  /** The claim loop after i rounds. */
  ghost predicate ClaimLoop(db: Db, now: Time, ds: seq<Id>, i: nat, claimed: seq<PollWork>, db1: Db) {
    && i <= |ds| && DbOk(db) && DueBatch(db, now, ds)
    && Batch(db, ds[..i], (x, a) => ClaimedRow(a, now)) && db1 == PutAll(db, ds[..i], (x, a) => ClaimedRow(a, now))
    && WorkDeliveries(claimed) == ds[..i] && (forall k | 0 <= k < |claimed| :: WorkIsFor(db, claimed[k], now))
  }

  lemma ClaimLoopReady(db: Db, now: Time, ds: seq<Id>, i: nat, claimed: seq<PollWork>, db1: Db)
    requires ClaimLoop(db, now, ds, i, claimed, db1) && i < |ds|
    ensures DbOk(db1) && ds[i] in db1.deliveries && DueNow(db1, ds[i], now) && Cur(db1, ds[i]) == Cur(db, ds[i])
    ensures db1.deliveries[ds[i]].current == db.deliveries[ds[i]].current
  {
    DueBatchIsBatch(db, now, ds);
    BatchNext(db, ds, (x, a) => ClaimedRow(a, now), i);
    assert DueNow(db, ds[i], now);
  }

  lemma ClaimLoopStep(db: Db, now: Time, ds: seq<Id>, i: nat, claimed: seq<PollWork>, db1: Db, w: PollWork, db2: Db)
    requires ClaimLoop(db, now, ds, i, claimed, db1) && i < |ds| && DbOk(db1) && ds[i] in db1.deliveries && DueNow(db1, ds[i], now)
    requires w == WorkFor(db1, ds[i], now) && db2 == Put(db1, ds[i], ClaimedRow(Cur(db1, ds[i]), now), false)
    ensures ClaimLoop(db, now, ds, i + 1, claimed + [w], db2)
  {
    ClaimLoopReady(db, now, ds, i, claimed, db1);
    DueBatchIsBatch(db, now, ds);
    BatchNext(db, ds, (x, a) => ClaimedRow(a, now), i);
    PutAllSnoc(db, ds, (x, a) => ClaimedRow(a, now), i);
    assert WorkDeliveries(claimed + [w]) == WorkDeliveries(claimed) + [ds[i]] == ds[..i + 1];
    assert Linked(db, ds[i]);
    assert WorkIsFor(db, w, now);
  }

  lemma ClaimLoopDone(db: Db, now: Time, ds: seq<Id>, claimed: seq<PollWork>, db1: Db)
    requires ClaimLoop(db, now, ds, |ds|, claimed, db1)
    ensures DbOk(db1) && PollsClaimed(db, now, claimed, db1)
  {
    assert ds[..|ds|] == ds;
    PutAllOk(db, ds, (x, a) => ClaimedRow(a, now));
  }

  ghost predicate RecoveryBatch(db: Db, ds: seq<Id>)
    requires Schema(db)
  {
    && Distinct(ds)
    && (forall i | 0 <= i < |ds| :: ds[i] in db.deliveries && Interrupted(Cur(db, ds[i])))
    && (forall d | d in db.deliveries && Interrupted(Cur(db, d)) :: d in ds)
  }

  lemma RecoveryIsBatch(db: Db, g: Generation, now: Time, ds: seq<Id>)
    requires DbOk(db) && Compiled(g) && Distinct(ds)
    requires forall d :: d in ds <==> d in db.deliveries && Interrupted(Cur(db, d))
    ensures RecoveryBatch(db, ds) && Batch(db, ds, (x, a) => RecoveredRow(g, now, x, a))
  {
    forall i | 0 <= i < |ds|
      ensures ds[i] in db.deliveries && RowOk(RecoveredRow(g, now, db.deliveries[ds[i]], Cur(db, ds[i])))
    {
      assert ds[i] in ds;
      assert RowOk(Cur(db, ds[i]));
    }
  }

  // ----- What recovery reports -----

  /** The change recovery makes to one interrupted send. */
  predicate IsLost(c: AuditRecord) { c.before == Status(Sending, NotStarted) && c.after == Status(TransportStatus.Unknown, Locating) }

  /** The current attempts that are sending. */
  function SendingAttempts(db: Db): set<Id>
    requires Schema(db)
  {
    set d | d in db.deliveries && SendingDelivery(db, d) :: db.deliveries[d].current
  }

  predicate SendingDelivery(db: Db, d: Id)
    requires Schema(db) && d in db.deliveries
  {
    Cur(db, d).status.transport.Sending?
  }

  predicate OnceEach(changes: seq<AuditRecord>) {
    forall i, j | 0 <= i < j < |changes| :: changes[i].attempt != changes[j].attempt
  }

  function ReportedIds(changes: seq<AuditRecord>): set<Id> { set c | c in changes :: c.attempt }

  /** The changes report every attempt found sending, once. */
  ghost predicate InterruptedSends(db: Db, changes: seq<AuditRecord>)
    requires Schema(db)
  {
    && (forall c | c in changes :: IsLost(c)) && OnceEach(changes)
    && ReportedIds(changes) == SendingAttempts(db) && |changes| == |SendingAttempts(db)|
  }

  /** The same for the first i rows of a batch. */
  ghost predicate SendsAmong(db: Db, rows: seq<Id>, i: nat, changes: seq<AuditRecord>) {
    && Schema(db) && i <= |rows| && (forall k | 0 <= k < |rows| :: rows[k] in db.deliveries)
    && (forall c | c in changes :: IsLost(c)) && OnceEach(changes)
    && (forall c | c in changes :: SendsFrom(db, rows, i, c.attempt))
    && (forall k | 0 <= k < i && SendingDelivery(db, rows[k]) :: exists c :: c in changes && c.attempt == db.deliveries[rows[k]].current)
  }

  /** a is the sending attempt of one of the first i rows. */
  ghost predicate SendsFrom(db: Db, rows: seq<Id>, i: nat, a: Id)
    requires Schema(db) && i <= |rows| && forall k | 0 <= k < |rows| :: rows[k] in db.deliveries
  {
    exists k :: 0 <= k < i && SendingDelivery(db, rows[k]) && a == db.deliveries[rows[k]].current
  }

  lemma OneMoreSend(db: Db, rows: seq<Id>, i: nat, changes: seq<AuditRecord>, change: Option<AuditRecord>)
    requires DbOk(db) && SendsAmong(db, rows, i, changes) && i < |rows| && Distinct(rows)
    requires change == if SendingDelivery(db, rows[i])
                       then Some(AuditRecord(db.deliveries[rows[i]].current, Cur(db, rows[i]).status, Status(TransportStatus.Unknown, Locating)))
                       else None
    ensures SendsAmong(db, rows, i + 1, if change.Some? then changes + [change.value] else changes)
  {
    assert RowOk(Cur(db, rows[i]));
    forall c | c in changes ensures SendsFrom(db, rows, i + 1, c.attempt) {
      var k :| 0 <= k < i && SendingDelivery(db, rows[k]) && c.attempt == db.deliveries[rows[k]].current;
    }
    if change.Some? {
      var more := changes + [change.value];
      forall j | 0 <= j < |changes| ensures changes[j].attempt != change.value.attempt {
        assert changes[j] in changes && SendsFrom(db, rows, i, changes[j].attempt);
        var k :| 0 <= k < i && SendingDelivery(db, rows[k]) && changes[j].attempt == db.deliveries[rows[k]].current;
        assert Linked(db, rows[k]) && Linked(db, rows[i]);
      }
      forall k | 0 <= k < i + 1 && SendingDelivery(db, rows[k])
        ensures exists c :: c in more && c.attempt == db.deliveries[rows[k]].current
      {
        if k < i {
          var c :| c in changes && c.attempt == db.deliveries[rows[k]].current;
          assert c in more;
        } else {
          assert change.value in more;
        }
      }
    }
  }

  lemma AllSends(db: Db, rows: seq<Id>, changes: seq<AuditRecord>)
    requires SendsAmong(db, rows, |rows|, changes) && forall d | d in db.deliveries && Interrupted(Cur(db, d)) :: d in rows
    ensures InterruptedSends(db, changes)
  {
    forall a | a in SendingAttempts(db) ensures a in ReportedIds(changes) { SendIsReported(db, rows, changes, a); }
    forall a | a in ReportedIds(changes) ensures a in SendingAttempts(db) { ReportIsSend(db, rows, changes, a); }
    ReportedSize(changes);
  }

  lemma SendIsReported(db: Db, rows: seq<Id>, changes: seq<AuditRecord>, a: Id)
    requires SendsAmong(db, rows, |rows|, changes) && forall d | d in db.deliveries && Interrupted(Cur(db, d)) :: d in rows
    requires a in SendingAttempts(db)
    ensures a in ReportedIds(changes)
  {
    var d :| d in db.deliveries && SendingDelivery(db, d) && db.deliveries[d].current == a;
    var k :| 0 <= k < |rows| && rows[k] == d;
    var c :| c in changes && c.attempt == db.deliveries[rows[k]].current;
  }

  lemma ReportIsSend(db: Db, rows: seq<Id>, changes: seq<AuditRecord>, a: Id)
    requires SendsAmong(db, rows, |rows|, changes) && a in ReportedIds(changes)
    ensures a in SendingAttempts(db)
  {
    var c :| c in changes && c.attempt == a;
    SenderIsListed(db, rows, c.attempt);
  }

  lemma SenderIsListed(db: Db, rows: seq<Id>, a: Id)
    requires Schema(db) && (forall k | 0 <= k < |rows| :: rows[k] in db.deliveries) && SendsFrom(db, rows, |rows|, a)
    ensures a in SendingAttempts(db)
  {
    var k :| 0 <= k < |rows| && SendingDelivery(db, rows[k]) && a == db.deliveries[rows[k]].current;
  }

  lemma {:induction false} ReportedSize(changes: seq<AuditRecord>)
    requires OnceEach(changes)
    ensures |ReportedIds(changes)| == |changes|
    decreases |changes|
  {
    if changes != [] {
      var front, last := changes[..|changes| - 1], changes[|changes| - 1];
      ReportedSize(front);
      assert changes == front + [last];
      forall c | c in front ensures c.attempt != last.attempt {
        var i :| 0 <= i < |front| && front[i] == c;
        assert changes[i] == c;
      }
      assert ReportedIds(changes) == ReportedIds(front) + {last.attempt};
    }
  }

  // ----- Single rows -----

  /** A pending row, its copy on the delivery, and what claiming it leaves. */
  lemma PendingRow(db: Db, d: Id)
    requires DbOk(db) && d in db.deliveries && Cur(db, d).status.transport.Pending?
    ensures Linked(db, d) && db.deliveries[d].status == Cur(db, d).status == FRESH && DbOk(Put(db, d, SendingRow(Cur(db, d)), true))
  {
    assert Agrees(db, d) && RowOk(Cur(db, d));
    PutOk(db, d, SendingRow(Cur(db, d)), true);
  }

  /** Evidence written to a sending row changes that row alone. */
  lemma EvidenceRow(db: Db, d: Id, b: Attempt)
    requires DbOk(db) && d in db.deliveries && Cur(db, d).status.transport.Sending?
    requires var a := Cur(db, d); b == a.(cursor := b.cursor, request := b.request, requestAt := b.requestAt)
    ensures Linked(db, d) && DbOk(Put(db, d, b, false))
    ensures Put(db, d, b, false) == db.(attempts := db.attempts[db.deliveries[d].current := b])
  {
    assert RowOk(Cur(db, d));
    PutOk(db, d, b, false);
    QuietPut(db, d, b);
  }

  lemma QuietPut(db: Db, d: Id, b: Attempt)
    requires DbOk(db) && d in db.deliveries && b.status == Cur(db, d).status
    ensures Put(db, d, b, false) == db.(attempts := db.attempts[db.deliveries[d].current := b])
  {
    assert Agrees(db, d);
    assert db.deliveries[d := db.deliveries[d].(status := b.status)] == db.deliveries;
  }

  lemma NothingSending(db: Db, g: Generation, now: Time, ds: seq<Id>)
    requires DbOk(db) && RecoveryBatch(db, ds) && Batch(db, ds, (x, a) => RecoveredRow(g, now, x, a))
    ensures var db' := PutAll(db, ds, (x, a) => RecoveredRow(g, now, x, a));
            forall d | d in db'.deliveries :: Linked(db', d) && !Cur(db', d).status.transport.Sending?
  {
    PutAllOk(db, ds, (x, a) => RecoveredRow(g, now, x, a));
    forall d | d in db.deliveries
      ensures Linked(PutAll(db, ds, (x, a) => RecoveredRow(g, now, x, a)), d)
      ensures !Cur(PutAll(db, ds, (x, a) => RecoveredRow(g, now, x, a)), d).status.transport.Sending?
    {
      PutAllCur(db, ds, (x, a) => RecoveredRow(g, now, x, a), d);
    }
  }

  /** The members of a finite set, one after the other. */
  method Enumerate(s: set<Id>) returns (ds: seq<Id>)
    ensures Distinct(ds) && forall d :: d in ds <==> d in s
  {
    ds := [];
    var rest := s;
    while rest != {}
      invariant rest <= s && Distinct(ds)
      invariant forall d :: d in ds <==> d in s && d !in rest
      decreases |rest|
    {
      NonEmpty(rest);
      var d :| d in rest;
      ds, rest := ds + [d], rest - {d};
    }
  }

  // ----- Fan-out -----

  lemma {:induction false} AddAllSnoc(db: Db, e: Id, items: seq<NewDelivery>, ids: seq<Fresh>, at: int, i: nat)
    requires |items| == |ids| && i < |items|
    ensures AddAll(db, e, items[..i + 1], ids[..i + 1], at)
            == AddOne(AddAll(db, e, items[..i], ids[..i], at), e, items[i], ids[i], at)
    decreases i
  {
    if i == 0 {
      assert items[..1][1..] == [] && ids[..1][1..] == [];
      assert items[..1][0] == items[0] && ids[..1][0] == ids[0];
    } else {
      AddAllSnoc(AddOne(db, e, items[0], ids[0], at), e, items[1..], ids[1..], at, i - 1);
      assert items[1..][..i] == items[..i + 1][1..] && ids[1..][..i] == ids[..i + 1][1..];
      assert items[1..][..i - 1] == items[..i][1..] && ids[1..][..i - 1] == ids[..i][1..];
    }
  }

  /** Fan-out neither reads nor writes the queue, so it commutes with taking the head off. */
  lemma {:induction false} AddAllQueue(db: Db, q: seq<QueueRow>, e: Id, items: seq<NewDelivery>, ids: seq<Fresh>, at: int)
    requires |items| == |ids|
    ensures AddAll(db.(queue := q), e, items, ids, at) == AddAll(db, e, items, ids, at).(queue := q)
    decreases |items|
  {
    if items != [] {
      AddAllQueue(AddOne(db, e, items[0], ids[0], at), q, e, items[1..], ids[1..], at);
    }
  }

  /** The statements of FinalizeDeferred in the order they run: event row, fan-out, queue row. */
  lemma FinalizedIs(db: Db, r: Decision, ids: seq<Fresh>)
    requires DbOk(db) && db.queue != [] && |ids| == |r.deliveries| && AllFresh(ids, db.deliveries.Keys + db.attempts.Keys)
    requires !r.result.Deferred? && (r.deliveries != [] ==> r.result.Deploy?)
    ensures DbOk(Finalized(db, r, ids))
    ensures var e := db.queue[0].event;
            Finalized(db, r, ids) == AddAll(db.(events := db.events[e := db.events[e].(routing := r.result)]),
                                            e, r.deliveries, ids, db.events[e].receivedAt).(queue := db.queue[1..])
  {
    var e := db.queue[0].event;
    DequeuedOk(db, r.result);
    AddAllOk(Dequeued(db, r.result), e, r.deliveries, ids, db.events[e].receivedAt);
    AddAllQueue(db.(events := db.events[e := db.events[e].(routing := r.result)]), db.queue[1..],
                e, r.deliveries, ids, db.events[e].receivedAt);
  }

  // ----- Wiping -----

  lemma NothingDeferred(db: Db)
    requires DbOk(db) && Quiet(db) && db.queue == []
    ensures forall e | e in db.events :: !db.events[e].routing.Deferred? && Erasable(db, e)
  {
    forall e | e in db.events ensures Erasable(db, e) {
      assert db.events[e].routing.Deferred? ==> Queued(db, e);
    }
  }

  lemma WipeIsRemoval(db: Db)
    requires Schema(db)
    ensures Remove(db, db.events.Keys) == db.(events := map[], deliveries := map[], attempts := map[], audit := map[])
  {
    var gone := Remove(db, db.events.Keys);
    assert forall d | d in db.deliveries :: db.deliveries[d].event in db.events;
    assert gone.events == map[] && gone.deliveries == map[] && gone.audit == map[];
    assert gone.attempts.Keys == {};
  }
}
