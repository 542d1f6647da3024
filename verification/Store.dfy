/**
 * The transactions of internal/store over the durable tables, statement by statement. Each method is one
 * transaction; its contract is the change of the whole database that the protocol's steps are made of.
 * A guarded UPDATE whose guard is asserted here can never report zero rows.
 */
module StoreTransactions {
  import opened Domain
  import opened Tables
  import opened Correlation
  import opened Polling
  import opened Intake
  import opened Manual
  import opened Protocol
  import opened PollSteps
  import opened Batches
  import opened Columns

  datatype StoreError =
    | AttemptNotSending | PollNotClaimed | CurrentAttemptChanged | HistoryActive | Rejected

  datatype Result<+T> = Ok(value: T) | Err(error: StoreError)

  /** domain.IngestResult. */
  datatype Ingested = Ingested(event: Id, duplicate: bool)

  datatype ActiveBinding = ActiveBinding(delivery: Id, attempt: Id, status: Status)

  /** An attempt is current and sending: what every statement about a send checks. */
  predicate SendingIn(db: Db, id: Id) {
    && id in db.attempts && db.attempts[id].status.transport.Sending?
    && db.attempts[id].delivery in db.deliveries && db.deliveries[db.attempts[id].delivery].current == id
  }

  /** The outcome of a send: written to the current sending attempt, its delivery and the log, or refused. */
  ghost predicate Committed(db: Db, id: Id, request: Option<Json>, status: Status, pollDue: Option<Time>, deadline: Option<Time>,
                            r: Result<Id>, db': Db)
  {
    if SendingIn(db, id) then
      && r == Ok(db.attempts[id].delivery) && Linked(db, r.value) && r.value in db.audit
      && db' == Put(db, r.value, Transitioned(db.attempts[id], request, status, pollDue, deadline), true)
      && Written(db, r.value, db.attempts[id].(
           status := status, request := request,
           pollDue := if pollDue.Some? then Some(pollDue.value / 1_000_000) else None,
           deadline := if deadline.Some? then Some(deadline.value / 1_000_000) else None), db')
    else r == Err(AttemptNotSending) && db' == db
  }

  /** The outcome of a send in terms of what the target is and how the exchange ended. */
  ghost predicate Marked(db: Db, id: Id, binding: Binding, o: Outcome, json: Json, at: Time, t: Target, r: Result<Id>, db': Db) {
    if SendingIn(db, id) then
      && r == Ok(db.attempts[id].delivery) && Linked(db, r.value) && r.value in db.audit
      && db' == Put(db, r.value, OutcomeRow(db.attempts[id], binding, o, Some(json), at, t), true)
    else r == Err(AttemptNotSending) && db' == db
  }

  lemma CommittedIsMarked(db: Db, id: Id, json: Json, status: Status, pollDue: Option<Time>, deadline: Option<Time>,
                          b: Binding, o: Outcome, at: Time, t: Target, r: Result<Id>, db': Db)
    requires Committed(db, id, Some(json), status, pollDue, deadline, r, db')
    requires forall a :: Transitioned(a, Some(json), status, pollDue, deadline) == OutcomeRow(a, b, o, Some(json), at, t)
    ensures Marked(db, id, b, o, json, at, t, r, db')
  {
  }

  class Store {
    var events: map<Id, EventRow>
    var deliveries: map<Id, Delivery>
    var attempts: map<Id, Attempt>
    var audit: map<Id, seq<AuditRecord>>
    var queue: seq<QueueRow>
    var nextSeq: int

    constructor ()
      ensures View() == EMPTY && Valid()
    {
      events, deliveries, attempts, audit, queue, nextSeq := map[], map[], map[], map[], [], 1;
    }

    function View(): Db
      reads this
    {
      Db(events, deliveries, attempts, audit, queue, nextSeq)
    }

    ghost predicate Valid()
      reads this
    {
      DbOk(View())
    }

    predicate CurrentSending(id: Id)
      reads this
    {
      SendingIn(View(), id)
    }

    // ----- Sending -----

    /** SELECT ... ORDER BY ... LIMIT 1. */
    method SelectClaimable() returns (next: Option<Id>)
      requires Valid()
      ensures next.None? ==> forall d | d in deliveries :: !Claimable(View(), d)
      ensures next.Some? ==> NextClaim(View(), next.value)
    {
      if !exists d :: d in deliveries && Claimable(View(), d) { return None; }
      FirstClaimable(View());
      var d :| d in deliveries && Claimable(View(), d) && forall x | x in deliveries && Claimable(View(), x) :: Before(View(), d, x);
      return Some(d);
    }

    method ClaimPendingAttempt() returns (claimed: Option<Id>)
      requires Valid()
      modifies this
      ensures Valid()
      ensures claimed.None? ==> View() == old(View()) && forall d | d in deliveries :: !Claimable(View(), d)
      ensures claimed.Some? ==>
                && NextClaim(old(View()), claimed.value)
                && View() == Put(old(View()), claimed.value, SendingRow(Cur(old(View()), claimed.value)), true)
      ensures FirstToSend(old(View()), claimed)
      ensures claimed.Some? ==>
                Written(old(View()), claimed.value, Cur(old(View()), claimed.value).(status := Status(Sending, NotStarted)), View())
    {
      claimed := SelectClaimable();
      if claimed.None? {
        NothingClaimable(View());
        return;
      }
      NextIsFirst(View(), claimed.value);
      var d := claimed.value;
      var id := deliveries[d].current;
      PendingRow(View(), d);
      assert attempts[id].delivery == d && attempts[id].status.transport.Pending?;
      attempts := attempts[id := attempts[id].(status := attempts[id].status.(transport := Sending))];
      assert deliveries[d].current == id && deliveries[d].status.transport.Pending?;
      deliveries := deliveries[d := deliveries[d].(status := deliveries[d].status.(transport := Sending))];
      audit := audit[d := audit[d] + [AuditRecord(id, FRESH, Status(Sending, NotStarted))]];
    }

    /** Shared by the five outcomes of a send. */
    method TransitionAttempt(id: Id, request: Option<Json>, status: Status, pollDue: Option<Time>, deadline: Option<Time>)
      returns (r: Result<Id>)
      requires Valid()
      requires CurrentSending(id) ==> RowOk(Transitioned(attempts[id], request, status, pollDue, deadline))
      modifies this
      ensures Valid() && Committed(old(View()), id, request, status, pollDue, deadline, r, View())
    {
      if id !in attempts { return Err(AttemptNotSending); }
      var d := attempts[id].delivery;
      if d !in deliveries || deliveries[d].current != id { return Err(AttemptNotSending); }
      var before := attempts[id].status;
      if !before.transport.Sending? { return Err(AttemptNotSending); }
      assert RowOk(attempts[id]) && Agrees(View(), d);
      PutOk(View(), d, Transitioned(attempts[id], request, status, pollDue, deadline), true);

      attempts := attempts[id := attempts[id].(
        status := status, request := request, pollDue := OptionalMillis(pollDue), deadline := OptionalMillis(deadline))];
      assert deliveries[d].current == id && deliveries[d].status.transport.Sending?;
      deliveries := deliveries[d := deliveries[d].(status := status)];
      audit := audit[d := audit[d] + [AuditRecord(id, before, status)]];
      return Ok(d);
    }

    method MarkEnqueued(id: Id, json: Json, pollDue: Time, deadline: Time) returns (r: Result<Id>)
      requires Valid()
      modifies this
      ensures Valid() && Committed(old(View()), id, Some(json), Status(Enqueued, Locating), Some(pollDue), Some(deadline), r, View())
    {
      assert CurrentSending(id) ==> RowOk(attempts[id]);
      r := TransitionAttempt(id, Some(json), Status(Enqueued, Locating), Some(pollDue), Some(deadline));
    }

    method MarkAccepted(id: Id, json: Json) returns (r: Result<Id>)
      requires Valid()
      modifies this
      ensures Valid() && Committed(old(View()), id, Some(json), Status(Enqueued, Done), None, None, r, View())
    {
      assert CurrentSending(id) ==> RowOk(attempts[id]);
      r := TransitionAttempt(id, Some(json), Status(Enqueued, Done), None, None);
    }

    /** json is absent when the send ended before its request was recorded. */
    method MarkTransportFailed(id: Id, json: Option<Json>) returns (r: Result<Id>)
      requires Valid()
      modifies this
      ensures Valid() && Committed(old(View()), id, json, Status(Failed, NotStarted), None, None, r, View())
    {
      assert CurrentSending(id) ==> RowOk(attempts[id]);
      r := TransitionAttempt(id, json, Status(Failed, NotStarted), None, None);
    }

    method MarkTransportUnknown(id: Id, json: Json, pollDue: Time, deadline: Time) returns (r: Result<Id>)
      requires Valid()
      modifies this
      ensures Valid()
      ensures Committed(old(View()), id, Some(json), Status(TransportStatus.Unknown, Locating), Some(pollDue), Some(deadline), r, View())
    {
      assert CurrentSending(id) ==> RowOk(attempts[id]);
      r := TransitionAttempt(id, Some(json), Status(TransportStatus.Unknown, Locating), Some(pollDue), Some(deadline));
    }

    method MarkTransportUnknownTerminal(id: Id, json: Json) returns (r: Result<Id>)
      requires Valid()
      modifies this
      ensures Valid()
      ensures Committed(old(View()), id, Some(json), Status(TransportStatus.Unknown, DeploymentStatus.Unknown), None, None, r, View())
    {
      assert CurrentSending(id) ==> RowOk(attempts[id]);
      r := TransitionAttempt(id, Some(json), Status(TransportStatus.Unknown, DeploymentStatus.Unknown), None, None);
    }

    /** The end of a send to Dokploy. */
    method MarkDokploy(id: Id, binding: Binding, o: Outcome, json: Json, at: Time, t: Target) returns (r: Result<Id>)
      requires Valid() && binding.Dokploy?
      modifies this
      ensures Valid() && Marked(old(View()), id, binding, o, json, at, t, r, View())
    {
      ghost var db := View();
      var due, deadline := Some(at + t.interval), Some(at + t.timeout);
      if o.Accepted? {
        r := MarkEnqueued(id, json, at + t.interval, at + t.timeout);
        CommittedIsMarked(db, id, json, Status(Enqueued, Locating), due, deadline, binding, o, at, t, r, View());
      } else if o.Uncertain? {
        r := MarkTransportUnknown(id, json, at + t.interval, at + t.timeout);
        CommittedIsMarked(db, id, json, Status(TransportStatus.Unknown, Locating), due, deadline, binding, o, at, t, r, View());
      } else {
        r := MarkTransportFailed(id, Some(json));
        CommittedIsMarked(db, id, json, Status(Failed, NotStarted), None, None, binding, o, at, t, r, View());
      }
    }

    /** The end of a send to a target without an observable history. */
    method MarkDirect(id: Id, binding: Binding, o: Outcome, json: Json, at: Time, t: Target) returns (r: Result<Id>)
      requires Valid() && binding.Direct?
      modifies this
      ensures Valid() && Marked(old(View()), id, binding, o, json, at, t, r, View())
    {
      ghost var db := View();
      if o.Accepted? {
        r := MarkAccepted(id, json);
        CommittedIsMarked(db, id, json, Status(Enqueued, Done), None, None, binding, o, at, t, r, View());
      } else if o.Uncertain? {
        r := MarkTransportUnknownTerminal(id, json);
        CommittedIsMarked(db, id, json, Status(TransportStatus.Unknown, DeploymentStatus.Unknown), None, None, binding, o, at, t, r, View());
      } else {
        r := MarkTransportFailed(id, Some(json));
        CommittedIsMarked(db, id, json, Status(Failed, NotStarted), None, None, binding, o, at, t, r, View());
      }
    }

    method RecordDeploymentRequest(id: Id, json: Json, at: Time) returns (r: Result<Id>)
      requires Valid()
      modifies this
      ensures Valid()
      ensures r.Ok? <==> old(CurrentSending(id) && attempts[id].request.None? && attempts[id].requestAt.None?)
      ensures r.Err? ==> r.error.AttemptNotSending? && View() == old(View())
      ensures r.Ok? ==>
                && r.value == old(attempts[id].delivery) && Linked(old(View()), r.value)
                && View() == Put(old(View()), r.value,
                                 old(attempts[id]).(request := Some(json), requestAt := Some(Millis(at))), false)
                && View() == old(View()).(attempts :=
                     old(attempts)[id := old(attempts)[id].(request := Some(json), requestAt := Some(at / 1_000_000))])
    {
      if id !in attempts || !attempts[id].status.transport.Sending? || attempts[id].request.Some? || attempts[id].requestAt.Some?
         || !exists d :: d in deliveries && deliveries[d].current == id
      {
        return Err(AttemptNotSending);
      }
      var d := attempts[id].delivery;
      CurrentIsOwn(View(), id);
      EvidenceRow(View(), d, attempts[id].(request := Some(json), requestAt := Some(Millis(at))));
      attempts := attempts[id := attempts[id].(request := Some(json), requestAt := Some(Millis(at)))];
      return Ok(d);
    }

    method SetDeploymentCursor(id: Id, cursor: DeploymentId) returns (r: Result<Id>)
      requires Valid()
      modifies this
      ensures Valid()
      ensures r.Ok? <==> old(CurrentSending(id) && attempts[id].cursor.None?)
      ensures r.Err? ==> r.error.AttemptNotSending? && View() == old(View())
      ensures r.Ok? ==>
                && r.value == old(attempts[id].delivery) && Linked(old(View()), r.value)
                && View() == Put(old(View()), r.value, old(attempts[id]).(cursor := Some(cursor)), false)
                && View() == old(View()).(attempts := old(attempts)[id := old(attempts)[id].(cursor := Some(cursor))])
    {
      if id !in attempts || !attempts[id].status.transport.Sending? || attempts[id].cursor.Some?
         || !exists d :: d in deliveries && deliveries[d].current == id
      {
        return Err(AttemptNotSending);
      }
      var d := attempts[id].delivery;
      CurrentIsOwn(View(), id);
      EvidenceRow(View(), d, attempts[id].(cursor := Some(cursor)));
      attempts := attempts[id := attempts[id].(cursor := Some(cursor))];
      return Ok(d);
    }

    // ----- Polling -----

    /** SELECT ... ORDER BY ... LIMIT: the rows come one by one, each the first of those not yet taken. */
    method SelectDuePolls(now: Time) returns (ds: seq<Id>)
      requires Valid()
      ensures DueBatch(View(), now, ds) && FirstToPoll(View(), now, ds)
    {
      ds := [];
      while |ds| < MAX_POLL_BATCH && exists d :: d in deliveries && DueNow(View(), d, now) && d !in ds
        invariant |ds| <= MAX_POLL_BATCH && DuePrefix(View(), now, ds)
        decreases MAX_POLL_BATCH - |ds|
      {
        FirstDue(View(), now, ds);
        var d :| d in deliveries && DueNow(View(), d, now) && d !in ds
                 && forall x | x in deliveries && DueNow(View(), x, now) && x !in ds :: DueBefore(View(), d, x);
        DuePrefixGrows(View(), now, ds, d);
        ds := ds + [d];
      }
      BatchIsFirst(View(), now, ds);
    }

    /** The guarded UPDATE of one due row; its guard is the WHERE clause the row was selected by. */
    method ClaimPoll(d: Id, now: Time) returns (w: PollWork)
      requires Valid() && d in deliveries && DueNow(View(), d, now)
      modifies this
      ensures Linked(old(View()), d) && View() == Put(old(View()), d, ClaimedRow(Cur(old(View()), d), now), false)
      ensures w == WorkFor(old(View()), d, now)
    {
      var id := deliveries[d].current;
      QuietPut(View(), d, ClaimedRow(attempts[id], now));
      assert attempts[id].delivery == d && Due(attempts[id], now);
      w := WorkFor(View(), d, now);
      attempts := attempts[id := attempts[id].(lastPolled := Some(Millis(now)))];
    }

    method ListDuePolls(now: Time) returns (claimed: seq<PollWork>)
      requires Valid()
      modifies this
      ensures Valid()
      ensures PollsClaimed(old(View()), now, claimed, View()) && FirstToPoll(old(View()), now, WorkDeliveries(claimed))
    {
      var ds := SelectDuePolls(now);
      ghost var db := View();
      claimed := [];
      for i := 0 to |ds|
        invariant ClaimLoop(db, now, ds, i, claimed, View())
      {
        ghost var before := View();
        ClaimLoopReady(db, now, ds, i, claimed, before);
        var w := ClaimPoll(ds[i], now);
        ClaimLoopStep(db, now, ds, i, claimed, before, w, View());
        claimed := claimed + [w];
      }
      ClaimLoopDone(db, now, ds, claimed, View());
    }

    /** changed is false when the poll only rescheduled. */
    method CompletePoll(w: PollWork, u: PollUpdate) returns (r: Result<bool>)
      requires Valid()
      modifies this
      ensures r.Ok? <==> ClaimStands(old(View()), w)
      ensures r.Err? ==> r.error.PollNotClaimed? && View() == old(View())
      ensures r.Ok? ==>
                var a := Cur(old(View()), w.delivery);
                && r.value == (a.status != u.status)
                && View() == Put(old(View()), w.delivery, CompletedRow(a, u), r.value)
                && (RowOk(CompletedRow(a, u)) ==> Valid())
      ensures r.Ok? ==> Polled(old(View()), w.delivery, u, r.value, View())
      ensures r.Ok? <==> old(w.delivery in deliveries && deliveries[w.delivery].current == w.attempt && w.attempt in attempts
                             && attempts[w.attempt].delivery == w.delivery
                             && attempts[w.attempt].lastPolled == Some(w.claimedAt / 1_000_000))
    {
      if w.delivery !in deliveries || deliveries[w.delivery].current != w.attempt || w.attempt !in attempts
         || attempts[w.attempt].delivery != w.delivery || attempts[w.attempt].lastPolled != Some(Millis(w.claimedAt))
      {
        return Err(PollNotClaimed);
      }
      var d := w.delivery;
      var before := attempts[w.attempt];
      assert Agrees(View(), d);
      if RowOk(CompletedRow(before, u)) { PutOk(View(), d, CompletedRow(before, u), before.status != u.status); }

      var bound := if u.bound.Some? then u.bound else before.bound;
      attempts := attempts[w.attempt := before.(status := u.status, bound := bound, pollDue := OptionalMillis(u.next))];
      var changed := before.status != u.status;
      if changed {
        assert deliveries[d].current == w.attempt;
        deliveries := deliveries[d := deliveries[d].(status := u.status)];
        audit := audit[d := audit[d] + [AuditRecord(w.attempt, before.status, u.status)]];
      }
      return Ok(changed);
    }

    // ----- Starting up -----

    /** The rows the recovery query returns, in some order. */
    method SelectInterrupted() returns (ds: seq<Id>)
      requires Valid()
      ensures Distinct(ds)
      ensures forall d :: d in ds <==> d in deliveries && Interrupted(Cur(View(), d))
    {
      ds := Enumerate(set d | d in deliveries && Interrupted(attempts[deliveries[d].current]));
    }

    method RecoverOne(d: Id, now: Time, g: Generation) returns (change: Option<AuditRecord>)
      requires Valid() && d in deliveries && Interrupted(Cur(View(), d))
      modifies this
      ensures Linked(old(View()), d)
      ensures var a := Cur(old(View()), d); var b := RecoveredRow(g, now, old(deliveries)[d], a);
              && View() == Put(old(View()), d, b, a.status != b.status)
              && change == if a.status.transport.Sending? then Some(AuditRecord(old(deliveries)[d].current, a.status, b.status)) else None
    {
      var id := deliveries[d].current;
      var a := attempts[id];
      assert RowOk(a);
      var t := deliveries[d].target;
      var interval := if t in g.targets then g.targets[t].interval else g.interval;
      var timeout := if t in g.targets then g.targets[t].timeout else g.timeout;
      var pollDue := if a.pollDue.Some? then a.pollDue else Some(Millis(now + interval));
      var deadline := if a.deadline.Some? then a.deadline else Some(Millis(now + timeout));
      var after := if a.status.transport.Sending? then Status(TransportStatus.Unknown, Locating) else a.status;
      var b := a.(status := after, pollDue := pollDue, deadline := deadline, lastPolled := None);
      change := None;
      if a.status != after {
        attempts := attempts[id := b];
        assert deliveries[d].current == id;
        deliveries := deliveries[d := deliveries[d].(status := after)];
        audit := audit[d := audit[d] + [AuditRecord(id, a.status, after)]];
        change := Some(AuditRecord(id, a.status, after));
      } else {
        QuietPut(View(), d, b);
        attempts := attempts[id := b];
      }
    }

    /** Returns the status changes: each interrupted send once, which becomes something to reconcile. */
    method RecoverInterrupted(now: Time, g: Generation) returns (changes: seq<AuditRecord>, ghost ds: seq<Id>)
      requires Valid() && Compiled(g)
      modifies this
      ensures Valid() && RecoveryBatch(old(View()), ds)
      ensures View() == PutAll(old(View()), ds, (x, a) => RecoveredRow(g, now, x, a))
      ensures forall d | d in deliveries :: !Cur(View(), d).status.transport.Sending?
      ensures InterruptedSends(old(View()), changes) && AllRecovered(old(View()), g, now, View())
    {
      var rows := SelectInterrupted();
      ds := rows;
      ghost var db := View();
      ghost var f := (x: Delivery, a: Attempt) => RecoveredRow(g, now, x, a);
      RecoveryIsBatch(db, g, now, rows);
      changes := [];
      for i := 0 to |rows|
        invariant Batch(db, rows[..i], f) && View() == PutAll(db, rows[..i], f)
        invariant SendsAmong(db, rows, i, changes)
      {
        BatchNext(db, rows, f, i);
        PutAllSnoc(db, rows, f, i);
        var change := RecoverOne(rows[i], now, g);
        OneMoreSend(db, rows, i, changes, change);
        if change.Some? { changes := changes + [change.value]; }
      }
      AllSends(db, rows, changes);
      assert rows[..|rows|] == rows;
      PutAllOk(db, rows, f);
      NothingSending(db, g, now, rows);
      BatchIsRecovered(db, g, now, rows);
    }

    method ListActiveBindings() returns (bindings: seq<ActiveBinding>)
      requires Valid()
      ensures forall i | 0 <= i < |bindings| ::
                && bindings[i].delivery in deliveries && ActiveDelivery(View(), bindings[i].delivery)
                && bindings[i] == ActiveBinding(bindings[i].delivery, deliveries[bindings[i].delivery].current,
                                                Cur(View(), bindings[i].delivery).status)
      ensures forall i, j | 0 <= i < j < |bindings| :: bindings[i].delivery != bindings[j].delivery
      ensures forall d | d in deliveries && ActiveDelivery(View(), d) :: exists i :: 0 <= i < |bindings| && bindings[i].delivery == d
    {
      var ds := Enumerate(set d | d in deliveries && Active(attempts[deliveries[d].current].status));
      bindings := [];
      for i := 0 to |ds|
        invariant |bindings| == i
        invariant forall k | 0 <= k < i ::
                    && ds[k] in deliveries && Linked(View(), ds[k]) && ActiveDelivery(View(), ds[k])
                    && bindings[k] == ActiveBinding(ds[k], deliveries[ds[k]].current, Cur(View(), ds[k]).status)
      {
        assert ds[i] in ds;
        assert Linked(View(), ds[i]);
        var id := deliveries[ds[i]].current;
        bindings := bindings + [ActiveBinding(ds[i], id, attempts[id].status)];
      }
      forall d | d in deliveries && ActiveDelivery(View(), d) ensures exists i :: 0 <= i < |bindings| && bindings[i].delivery == d {
        assert d in ds;
        var i :| 0 <= i < |ds| && ds[i] == d;
        assert bindings[i].delivery == d;
      }
    }

    method TerminateIncompatibleActive(b: ActiveBinding)
      requires Valid()
      modifies this
      ensures Valid()
      ensures if Linked(old(View()), b.delivery) && old(deliveries[b.delivery].current) == b.attempt
                 && Cur(old(View()), b.delivery).status == b.status && Active(b.status)
              then View() == Put(old(View()), b.delivery, TerminatedRow(Cur(old(View()), b.delivery)), true)
              else View() == old(View())
      ensures if Linked(old(View()), b.delivery) && old(deliveries[b.delivery].current) == b.attempt
                 && Cur(old(View()), b.delivery).status == b.status && Unfinished(Cur(old(View()), b.delivery))
              then Linked(View(), b.delivery) && Written(old(View()), b.delivery, Cur(View(), b.delivery), View())
                   && EndedUnreached(Cur(old(View()), b.delivery), Cur(View(), b.delivery))
              else View() == old(View())
    {
      var d := b.delivery;
      if d !in deliveries { return; }
      var id := deliveries[d].current;
      assert Linked(View(), d) && RowOk(attempts[id]) && Agrees(View(), d);
      var before := attempts[id];
      if id != b.attempt || before.status != b.status || !Active(before.status) { return; }
      PutOk(View(), d, TerminatedRow(before), true);
      TerminatedIsEnded(before);

      var after := Status(TransportStatus.Unknown, DeploymentStatus.Unknown);
      if before.status.transport.Pending? && before.status.deployment.NotStarted? { after := Status(Failed, NotStarted); }
      attempts := attempts[id := before.(status := after, pollDue := None, deadline := None, lastPolled := None)];
      assert deliveries[d].current == id;
      deliveries := deliveries[d := deliveries[d].(status := after)];
      audit := audit[d := audit[d] + [AuditRecord(id, before.status, after)]];
    }

    // ----- Manual operations -----

    method ApplyManualUpdate(u: ManualUpdate, manualId: Id) returns (r: Result<Id>)
      requires Valid() && UpdateFits(u) && manualId !in attempts
      modifies this
      ensures Valid() && (r.Ok? <==> StillExpected(old(View()), u))
      ensures r.Err? ==> r.error.CurrentAttemptChanged?
      ensures r.Ok? ==> r.value == if u.create then manualId else u.attempt
      ensures View() == Apply(old(View()), u, manualId) && ManuallyUpdated(old(View()), u, manualId, View())
      ensures r.Ok? <==> AsExpected(old(View()), u)
    {
      ApplyIs(View(), u, manualId);
      if u.delivery !in deliveries { return Err(CurrentAttemptChanged); }
      var d := u.delivery;
      var id := deliveries[d].current;
      assert Linked(View(), d) && RowOk(attempts[id]) && Agrees(View(), d);
      if id != u.attempt || attempts[id].status != u.before { return Err(CurrentAttemptChanged); }
      var before := attempts[id];
      ghost var db := View();
      if u.correct {
        CorrectionIsSound(before, u);
        PutOk(db, d, CorrectedRow(before, u), true);
        PutFrame(db, d, CorrectedRow(before, u), true);
        attempts := attempts[id := before.(status := u.status, bound := u.bound, lastPolled := None,
                                           pollDue := OptionalMillis(u.pollDue), deadline := OptionalMillis(u.deadline))];
        assert deliveries[d].current == id;
        deliveries := deliveries[d := deliveries[d].(status := u.status)];
        audit := audit[d := audit[d] + [AuditRecord(id, before.status, u.status)]];
      }
      assert View() == Corrected(db, u);
      if !u.create { return Ok(id); }
      SupersedeOk(View(), d, manualId, AttemptKind.Manual(u.operation));
      var status := attempts[id].status;
      attempts := attempts[manualId := NewAttempt(d, AttemptKind.Manual(u.operation))];
      assert deliveries[d].current == id;
      deliveries := deliveries[d := deliveries[d].(current := manualId, status := FRESH)];
      audit := audit[d := audit[d] + [AuditRecord(manualId, status, FRESH)]];
      return Ok(manualId);
    }

    // ----- Intake -----

    /** INSERT ... ON CONFLICT DO NOTHING: the event with this identity, if there is one. */
    method FindEvent(row: EventRow) returns (e: Option<Id>)
      ensures e.Some? <==> Duplicate(View(), row)
      ensures e.Some? ==> e.value in events && SameIdentity(events[e.value], row)
    {
      if exists e :: e in events && SameIdentity(events[e], row) {
        var found :| found in events && SameIdentity(events[found], row);
        return Some(found);
      }
      return None;
    }

    /** The fan-out loop shared by direct and deferred routing. */
    method InsertDeliveries(e: Id, items: seq<NewDelivery>, ids: seq<Fresh>, at: int)
      requires |items| == |ids|
      modifies this
      ensures View() == AddAll(old(View()), e, items, ids, at) && queue == old(queue)
    {
      ghost var db := View();
      assert items[..0] == [] && ids[..0] == [];
      for i := 0 to |items|
        invariant View() == AddAll(db, e, items[..i], ids[..i], at) && queue == old(queue)
      {
        AddAllSnoc(db, e, items, ids, at, i);
        deliveries := deliveries[ids[i].delivery :=
          Delivery(e, items[i].target, items[i].binding, Some(items[i].binding), ids[i].attempt, FRESH, at)];
        attempts := attempts[ids[i].attempt := NewAttempt(ids[i].delivery, Initial)];
        audit := audit[ids[i].delivery := []];
      }
      assert items[..|items|] == items && ids[..|ids|] == ids;
    }

    method Ingest(row: EventRow, r: Decision, e: Id, ids: seq<Fresh>) returns (out: Result<Ingested>)
      requires Valid() && e !in events && |ids| == |r.deliveries| && AllFresh(ids, deliveries.Keys + attempts.Keys)
      modifies this
      ensures Valid()
      ensures out.Err? <==> r.result.Deferred? || (r.deliveries != [] && !r.result.Deploy?) || !WellFormed(row)
      ensures out.Err? ==> out.error.Rejected? && View() == old(View())
      ensures out.Ok? && Duplicate(old(View()), row) ==>
                out.value.duplicate && View() == old(View())
                && out.value.event in events && SameIdentity(events[out.value.event], row)
      ensures out.Ok? && !Duplicate(old(View()), row) ==>
                out.value == Ingested(e, false) && View() == Stored(old(View()), e, row, r, ids)
      ensures out.Ok? ==> Complete(row) && if AlreadyStored(old(View()), row) then out.value.duplicate && View() == old(View())
                                           else !out.value.duplicate && StoredWith(old(View()), e, row, r, ids, View())
    {
      DuplicateIsStored(View(), row);
      StoredIs(View(), e, row, r, ids);
      if r.result.Deferred? || (|r.deliveries| != 0 && !r.result.Deploy?) || !WellFormed(row) { return Err(Rejected); }
      var known := FindEvent(row);
      if known.Some? { return Ok(Ingested(known.value, true)); }
      NotDuplicateWhatever(View(), row, r.result);
      WithEventOk(View(), e, row.(routing := r.result));
      events := events[e := row.(routing := r.result)];
      AddAllOk(View(), e, r.deliveries, ids, row.receivedAt);
      InsertDeliveries(e, r.deliveries, ids, row.receivedAt);
      return Ok(Ingested(e, false));
    }

    method IngestDeferred(row: EventRow, e: Id) returns (out: Result<Ingested>)
      requires Valid() && e !in events
      modifies this
      ensures Valid() && (out.Err? <==> !WellFormed(row))
      ensures out.Err? ==> out.error.Rejected? && View() == old(View())
      ensures out.Ok? && Duplicate(old(View()), row) ==>
                out.value.duplicate && View() == old(View())
                && out.value.event in events && SameIdentity(events[out.value.event], row)
      ensures out.Ok? && !Duplicate(old(View()), row) ==>
                out.value == Ingested(e, false) && View() == Parked(old(View()), e, row)
      ensures out.Ok? ==> Complete(row) && if AlreadyStored(old(View()), row) then out.value.duplicate && View() == old(View())
                                           else !out.value.duplicate && QueuedLast(old(View()), e, row, View())
    {
      DuplicateIsStored(View(), row);
      if !WellFormed(row) { return Err(Rejected); }
      var known := FindEvent(row);
      if known.Some? { return Ok(Ingested(known.value, true)); }
      Park(row, e);
      return Ok(Ingested(e, false));
    }

    /** The two INSERTs of a deferred event. */
    method Park(row: EventRow, e: Id)
      requires Valid() && e !in events && !Duplicate(View(), row)
      modifies this
      ensures Valid() && View() == Parked(old(View()), e, row)
    {
      ghost var parked := Parked(View(), e, row);
      ParkedOk(View(), e, row);
      events := events[e := row.(routing := Deferred)];
      queue, nextSeq := queue + [QueueRow(nextSeq, e)], nextSeq + 1;
      assert View() == parked;
    }

    /** The smallest sequence number whose event is deferred. */
    method PeekDeferred() returns (head: Option<QueueRow>)
      requires Valid()
      ensures head == if queue == [] then None else Some(queue[0])
      ensures head.Some? ==> head.value.event in events && events[head.value.event].routing.Deferred?
    {
      for i := 0 to |queue|
        invariant i == 0
      {
        assert events[queue[i].event].routing.Deferred?;
        if queue[i].event in events && events[queue[i].event].routing.Deferred? { return Some(queue[i]); }
      }
      return None;
    }

    method FinalizeDeferred(head: QueueRow, r: Decision, ids: seq<Fresh>) returns (out: Result<bool>)
      requires Valid() && |ids| == |r.deliveries| && AllFresh(ids, deliveries.Keys + attempts.Keys)
      modifies this
      ensures Valid()
      ensures out.Err? <==> r.result.Deferred? || (r.deliveries != [] && !r.result.Deploy?)
      ensures out.Err? ==> out.error.Rejected?
      ensures out.Ok? ==> (out.value <==> old(queue) != [] && old(queue)[0] == head)
      ensures if out.Ok? && out.value then View() == Finalized(old(View()), r, ids) else View() == old(View())
      ensures out.Ok? && out.value ==> HeadRouted(old(View()), r, ids, View())
    {
      if r.result.Deferred? || (|r.deliveries| != 0 && !r.result.Deploy?) { return Err(Rejected); }
      var first := PeekDeferred();
      if first.None? || first.value != head { return Ok(false); }
      var e := head.event;
      var at := events[e].receivedAt;
      FinalizedIs(View(), r, ids);
      FinalizedIsRouted(View(), r, ids);
      assert events[e].routing.Deferred?;
      events := events[e := events[e].(routing := r.result)];
      InsertDeliveries(e, r.deliveries, ids, at);
      assert queue == old(queue) && queue[0] == head;
      queue := queue[1..];
      return Ok(true);
    }

    // ----- Counting and deleting -----

    method CountActive() returns (n: nat)
      requires Valid()
      ensures n == |ActiveSet(View())|
      ensures n == 0 <==> Quiet(View())
      ensures n == 0 <==> NothingUnfinished(View())
    {
      QuietIsFinished(View());
      var active := set d | d in deliveries && Active(attempts[deliveries[d].current].status);
      assert active == ActiveSet(View());
      if |active| != 0 {
        var d :| d in active;
        assert ActiveDelivery(View(), d);
      } else {
        forall d | d in deliveries ensures !ActiveDelivery(View(), d) { assert d !in active; }
      }
      return |active|;
    }

    method CountQueued() returns (n: nat)
      ensures n == |queue|
    {
      return |queue|;
    }

    method ClearHistory() returns (r: Result<nat>)
      requires Valid()
      modifies this
      ensures Valid()
      ensures r.Err? <==> !(Quiet(old(View())) && old(queue) == [])
      ensures r.Err? <==> !NothingUnfinished(old(View())) || old(queue) != []
      ensures r.Err? ==> r.error.HistoryActive? && View() == old(View())
      ensures r.Ok? ==>
                && r.value == |old(events)| && events == map[] && deliveries == map[] && attempts == map[]
                && View() == Remove(old(View()), old(events.Keys))
                && forall e | e in old(events) :: Erasable(old(View()), e)
    {
      var active := CountActive();
      var queued := CountQueued();
      if active > 0 || queued > 0 { return Err(HistoryActive); }
      NothingDeferred(View());
      RemoveOk(View(), events.Keys);
      WipeIsRemoval(View());
      var deleted := |events|;
      events, deliveries, attempts, audit := map[], map[], map[], map[];
      return Ok(deleted);
    }
  }
}
