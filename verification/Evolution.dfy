/** What a single step may do to the rows that already exist. */
module Evolution {
  import opened Domain
  import opened Tables
  import opened Correlation
  import opened Polling
  import opened Intake
  import opened Manual
  import opened Reload
  import opened Protocol
  import opened Invariant
  import opened RowSteps
  import opened PollSteps
  import opened BootSteps
  import opened ManualSteps
  import opened IntakeSteps

  /** A row that changes was not done, keeps its identity, its evidence and its binding, and is pending no more. */
  predicate RowEvolves(a: Attempt, b: Attempt) {
    && !a.status.deployment.Done? && PollEvolves(a, b)
    && b.kind == a.kind && EvidenceKept(a, b) && (a.bound.Some? ==> b.bound == a.bound)
    && !b.status.transport.Pending? && (b.status.transport.Sending? ==> a.status.transport.Pending? || a.status.transport.Sending?)
  }

  /** last_polled_at is kept, reset, or moved past the instant the poll fell due; a kept mark keeps its deadline. */
  predicate PollEvolves(a: Attempt, b: Attempt) {
    && (b.lastPolled.Some? ==> b.deadline == a.deadline)
    && (|| b.lastPolled == a.lastPolled || b.lastPolled.None?
        || (Unclaimed(a) && DueAt(a) <= b.lastPolled.value && b == a.(lastPolled := b.lastPolled)))
  }

  predicate IsCurrent(db: Db, a: Id) {
    a in db.attempts && db.attempts[a].delivery in db.deliveries && db.deliveries[db.attempts[a].delivery].current == a
  }

  function DeliveriesOf(db: Db, e: Id): set<Id> {
    set d | d in db.deliveries && db.deliveries[d].event == e
  }

  ghost predicate RowsEvolve(db: Db, db': Db, used: set<Id>) {
    && (forall a | a in db.attempts && a in db'.attempts ::
          db'.attempts[a] == db.attempts[a] || (IsCurrent(db, a) && RowEvolves(db.attempts[a], db'.attempts[a])))
    && (forall a | a in db'.attempts && a !in db.attempts :: a !in used && db'.attempts[a].status == FRESH)
    && (forall d | d in db.deliveries && d in db'.deliveries ::
          && db'.deliveries[d] == db.deliveries[d].(status := db'.deliveries[d].status, current := db'.deliveries[d].current)
          && (db'.deliveries[d].current == db.deliveries[d].current || db'.deliveries[d].current !in used))
    && (forall d | d in db'.deliveries && d !in db.deliveries :: d !in used && db'.deliveries[d].current !in used)
  }

  /** An event that has been routed keeps its result and its deliveries; one that is deferred has none. */
  ghost predicate EventsEvolve(db: Db, db': Db, used: set<Id>) {
    && (forall e | e in db'.events && e !in db.events :: e !in used)
    && (forall e | e in db.events && e in db'.events && !db.events[e].routing.Deferred? ::
          db'.events[e] == db.events[e] && DeliveriesOf(db', e) == DeliveriesOf(db, e))
  }

  /** used is what had been drawn before the step. */
  ghost predicate Evolves(db: Db, db': Db, used: set<Id>) {
    RowsEvolve(db, db', used) && EventsEvolve(db, db', used)
  }

  // ----- By the kind of change -----

  lemma MovedEvolves(db: Db, db': Db, m: set<Id>, used: set<Id>)
    requires Schema(db) && Schema(db') && Moved(db, db', m)
    requires forall d | d in m && d in db.deliveries :: RowEvolves(Cur(db, d), Cur(db', d))
    ensures Evolves(db, db', used)
  {
    forall a | a in db.attempts && a in db'.attempts
      ensures db'.attempts[a] == db.attempts[a] || (IsCurrent(db, a) && RowEvolves(db.attempts[a], db'.attempts[a]))
    {
      if db'.attempts[a] != db.attempts[a] { CurMoved(db, db', m, db.attempts[a].delivery); }
    }
    SameFanOut(db, db');
  }

  lemma SameFanOut(db: Db, db': Db)
    requires db'.deliveries.Keys == db.deliveries.Keys
    requires forall d | d in db.deliveries :: db'.deliveries[d].event == db.deliveries[d].event
    ensures forall e :: DeliveriesOf(db', e) == DeliveriesOf(db, e)
  {
    forall e ensures DeliveriesOf(db', e) == DeliveriesOf(db, e) {
      forall d ensures d in DeliveriesOf(db', e) <==> d in DeliveriesOf(db, e) {
        assert d in db'.deliveries <==> d in db.deliveries;
      }
    }
  }

  lemma SameRowsEvolve(db: Db, db': Db, used: set<Id>)
    requires db'.deliveries == db.deliveries && db'.attempts == db.attempts
    requires forall e | e in db'.events && e !in db.events :: e !in used
    requires forall e | e in db.events && e in db'.events && !db.events[e].routing.Deferred? :: db'.events[e] == db.events[e]
    ensures Evolves(db, db', used)
  {
    SameFanOut(db, db');
  }

  lemma ExtendedEvolves(db: Db, db1: Db, e: Id, items: seq<NewDelivery>, ids: seq<Fresh>, db': Db, used: set<Id>)
    requires db1.deliveries == db.deliveries && db1.attempts == db.attempts
    requires |items| == |ids| && Extended(db1, db', e, items, ids) && AllFresh(ids, used)
    requires e in db.events ==> db.events[e].routing.Deferred?
    requires forall x | x in db1.events && x !in db.events :: x !in used
    requires forall x | x in db.events && !db.events[x].routing.Deferred? :: x in db1.events && db1.events[x] == db.events[x]
    ensures Evolves(db, db', used)
  {
    forall d | d in db'.deliveries && d !in db.deliveries
      ensures d !in used && db'.deliveries[d].current !in used && db'.deliveries[d].event == e
    {
      var i := DeliveryIndex(ids, d);
      assert Planted(db', e, items[i], ids[i]);
    }
    forall a | a in db'.attempts && a !in db.attempts ensures a !in used && db'.attempts[a].status == FRESH {
      var i := AttemptIndex(ids, a);
      assert Planted(db', e, items[i], ids[i]);
    }
    forall x | x in db.events && x in db'.events && !db.events[x].routing.Deferred?
      ensures DeliveriesOf(db', x) == DeliveriesOf(db, x)
    {
      forall d ensures d in DeliveriesOf(db', x) <==> d in DeliveriesOf(db, x) {
      }
    }
  }

  lemma SupersedeEvolves(db: Db, d: Id, id: Id, kind: AttemptKind, used: set<Id>)
    requires Schema(db) && d in db.deliveries && id !in used && id !in db.attempts
    ensures Evolves(db, Supersede(db, d, id, kind), used)
  {
    assert Linked(db, d);
    SameFanOut(db, Supersede(db, d, id, kind));
  }

  lemma RemoveEvolves(db: Db, es: set<Id>, used: set<Id>)
    requires Schema(db)
    ensures Evolves(db, Remove(db, es), used)
  {
    forall e | e in db.events && e !in es ensures DeliveriesOf(Remove(db, es), e) == DeliveriesOf(db, e) {
    }
  }

  /** A rewrite followed by any change. */
  lemma MovedThen(db: Db, db1: Db, m: set<Id>, db': Db, used: set<Id>)
    requires Schema(db) && Schema(db1) && db.attempts.Keys <= used
    requires Moved(db, db1, m) && Evolves(db, db1, used) && Evolves(db1, db', used)
    requires forall a | a in db1.attempts && a in db'.attempts :: db'.attempts[a] == db1.attempts[a]
    ensures Evolves(db, db', used)
  {
    forall a | a in db.attempts && a in db'.attempts
      ensures db'.attempts[a] == db.attempts[a] || (IsCurrent(db, a) && RowEvolves(db.attempts[a], db'.attempts[a]))
    {
      var d := db.attempts[a].delivery;
      assert d in db.deliveries && Linked(db, d) && Linked(db1, d);
      assert db1.attempts[a].delivery == d;
    }
    forall d | d in db.deliveries && d in db'.deliveries
      ensures db'.deliveries[d] == db.deliveries[d].(status := db'.deliveries[d].status, current := db'.deliveries[d].current)
      ensures db'.deliveries[d].current == db.deliveries[d].current || db'.deliveries[d].current !in used
    {
      assert d in db1.deliveries;
    }
  }

  // ----- By action -----

  lemma PutEvolves(db: Db, d: Id, b: Attempt, note: bool, used: set<Id>)
    requires DbOk(db) && d in db.deliveries && b.delivery == d && RowOk(b) && (note || b.status == Cur(db, d).status)
    requires RowEvolves(Cur(db, d), b)
    ensures Evolves(db, Put(db, d, b, note), used)
  {
    PutStep(db, d, b, note);
    MovedEvolves(db, Put(db, d, b, note), {d}, used);
  }

  lemma ClaimEvolves(s: Sys, d: Id, s': Sys)
    requires Inv(s) && Claims(s, d, s')
    ensures Evolves(s.db, s'.db, s.used)
  {
    assert RowOk(Cur(s.db, d));
    PutEvolves(s.db, d, SendingRow(Cur(s.db, d)), true, s.used);
  }

  lemma FailSendEvolves(s: Sys, s': Sys)
    requires Inv(s) && FailsSend(s, s')
    ensures Evolves(s.db, s'.db, s.used)
  {
    assert RowOk(Cur(s.db, s.disp.delivery));
    PutEvolves(s.db, s.disp.delivery, FailedRow(Cur(s.db, s.disp.delivery)), true, s.used);
  }

  lemma StoreCursorEvolves(s: Sys, s': Sys)
    requires Inv(s) && StoresCursor(s, s')
    ensures Evolves(s.db, s'.db, s.used)
  {
    assert RowOk(Cur(s.db, s.disp.delivery));
    PutEvolves(s.db, s.disp.delivery, Cur(s.db, s.disp.delivery).(cursor := Some(s.disp.stage.read)), false, s.used);
  }

  lemma RecordRequestEvolves(s: Sys, json: Json, at: Time, s': Sys)
    requires Inv(s) && RecordsRequest(s, json, at, s')
    ensures Evolves(s.db, s'.db, s.used)
  {
    var d := s.disp.delivery;
    assert RowOk(Cur(s.db, d));
    PutEvolves(s.db, d, Cur(s.db, d).(request := Some(json), requestAt := Some(Millis(at))), false, s.used);
  }

  lemma FinishSendEvolves(s: Sys, at: Time, s': Sys)
    requires Inv(s) && FinishesSend(s, at, s')
    ensures Evolves(s.db, s'.db, s.used)
  {
    var d := s.disp.delivery;
    assert RowOk(Cur(s.db, d));
    PutEvolves(s.db, d, OutcomeRow(Cur(s.db, d), SentBinding(s), s.disp.stage.outcome, Some(s.disp.stage.sent), at,
                                   s.disp.gen.targets[s.db.deliveries[d].target]), true, s.used);
  }

  lemma ClaimPollsEvolves(s: Sys, at: Time, ds: seq<Id>, s': Sys)
    requires Inv(s) && ClaimsPolls(s, at, ds, s')
    ensures Evolves(s.db, s'.db, s.used)
  {
    ClaimPollsMoves(s, at, ds, s');
    var m := set x | x in ds;
    forall d | d in m && d in s.db.deliveries ensures RowEvolves(Cur(s.db, d), Cur(s'.db, d)) {
      ClaimedRowEvolves(s, at, ds, s', d);
    }
    MovedEvolves(s.db, s'.db, m, s.used);
  }

  lemma ClaimedRowEvolves(s: Sys, at: Time, ds: seq<Id>, s': Sys, d: Id)
    requires DbOk(s.db) && ClaimsPolls(s, at, ds, s') && d in s.db.deliveries && d in ds && Linked(s'.db, d)
    ensures RowEvolves(Cur(s.db, d), Cur(s'.db, d))
  {
    ClaimedCur(s, at, ds, s', d);
    assert RowOk(Cur(s.db, d));
  }

  lemma CompletedRowEvolves(a: Attempt, b: Attempt)
    requires BindingKept(a, b) && EvidenceKept(a, b) && b.kind == a.kind
    requires b.deadline == a.deadline && b.lastPolled == a.lastPolled
    requires Monitored(a.status.deployment) && !b.status.transport.Sending? && !b.status.transport.Pending?
    ensures RowEvolves(a, b)
  {
  }

  lemma CompletePollEvolves(s: Sys, s': Sys)
    requires Inv(s) && CompletesPoll(s, s')
    ensures Evolves(s.db, s'.db, s.used)
  {
    if ClaimStands(s.db, s.polls[0].work) {
      var a, b := CompletedFacts(s, s');
      CompletedRowEvolves(a, b);
      MovedEvolves(s.db, s'.db, {s.polls[0].work.delivery}, s.used);
    } else {
      SameRowsEvolve(s.db, s'.db, s.used);
    }
  }

  lemma ApplyManualEvolves(s: Sys, req: Id, id: Id, s': Sys)
    requires Inv(s) && AppliesManual(s, req, id, s')
    ensures Evolves(s.db, s'.db, s.used)
  {
    var u := s.manual[req];
    if !StillExpected(s.db, u) {
      SameRowsEvolve(s.db, s'.db, s.used);
    } else {
      var db1 := Corrected(s.db, u);
      CorrectedEvolves(s, req);
      if u.create {
        SupersedeEvolves(db1, u.delivery, id, AttemptKind.Manual(u.operation), s.used);
        MovedThen(s.db, db1, {u.delivery}, s'.db, s.used);
      }
    }
  }

  lemma CorrectedEvolves(s: Sys, req: Id)
    requires Inv(s) && req in s.manual && StillExpected(s.db, s.manual[req])
    ensures var db1 := Corrected(s.db, s.manual[req]);
            DbOk(db1) && Evolves(s.db, db1, s.used) && Moved(s.db, db1, {s.manual[req].delivery})
  {
    var u := s.manual[req];
    if u.correct {
      CorrectionFacts(s, u);
      PutStep(s.db, u.delivery, CorrectedRow(Cur(s.db, u.delivery), u), true);
      PutEvolves(s.db, u.delivery, CorrectedRow(Cur(s.db, u.delivery), u), true, s.used);
    } else {
      SameRowsEvolve(s.db, s.db, s.used);
    }
  }

  lemma ReceiveEvolves(s: Sys, row: EventRow, supported: bool, r: Decision, e: Id, ids: seq<Fresh>, s': Sys)
    requires Inv(s) && Receives(s, row, supported, r, e, ids, s')
    ensures Evolves(s.db, s'.db, s.used)
  {
    if Duplicate(s.db, row) || !supported || Defers(s.mgr.mode) {
      SameRowsEvolve(s.db, s'.db, s.used);
    } else {
      FreshRelaxes(ids, s.used + {e}, s.used);
      StoredEvolves(s.db, row, r, e, ids, s.used);
    }
  }

  lemma StoredEvolves(db: Db, row: EventRow, r: Decision, e: Id, ids: seq<Fresh>, used: set<Id>)
    requires DbOk(db) && db.events.Keys <= used && db.deliveries.Keys <= used && db.attempts.Keys <= used
    requires e !in used && AllFresh(ids, used) && |ids| == |r.deliveries| && !Duplicate(db, row)
    requires !r.result.Deferred? && (r.deliveries != [] ==> r.result.Deploy?)
    ensures Evolves(db, Stored(db, e, row, r, ids), used)
  {
    var db1 := WithEvent(db, e, row.(routing := r.result));
    assert !Duplicate(db, row.(routing := r.result));
    WithEventOk(db, e, row.(routing := r.result));
    FreshRelaxes(ids, used, db1.deliveries.Keys + db1.attempts.Keys);
    AddAllOk(db1, e, r.deliveries, ids, row.receivedAt);
    ExtendedEvolves(db, db1, e, r.deliveries, ids, Stored(db, e, row, r, ids), used);
  }

  lemma DrainEvolves(s: Sys, r: Decision, ids: seq<Fresh>, s': Sys)
    requires Inv(s) && Drains(s, r, ids, s')
    ensures Evolves(s.db, s'.db, s.used)
  {
    var e := s.db.queue[0].event;
    var db1 := Dequeued(s.db, r.result);
    DequeuedOk(s.db, r.result);
    FreshRelaxes(ids, s.used, db1.deliveries.Keys + db1.attempts.Keys);
    AddAllOk(db1, e, r.deliveries, ids, s.db.events[e].receivedAt);
    ExtendedEvolves(s.db, db1, e, r.deliveries, ids, s'.db, s.used);
  }

  lemma TerminateEvolves(s: Sys, d: Id, s': Sys)
    requires Inv(s) && Terminates(s, d, s')
    ensures Evolves(s.db, s'.db, s.used)
  {
    assert RowOk(Cur(s.db, d));
    PutEvolves(s.db, d, TerminatedRow(Cur(s.db, d)), true, s.used);
  }

  lemma RecoverEvolves(s: Sys, at: Time, ds: seq<Id>, s': Sys)
    requires Inv(s) && Recovers(s, at, ds, s')
    ensures Evolves(s.db, s'.db, s.used)
  {
    RecoverMoves(s, at, ds, s');
    forall d | d in (set x | x in ds) && d in s.db.deliveries ensures RowEvolves(Cur(s.db, d), Cur(s'.db, d)) {
      RecoveredCur(s, at, ds, s', d);
      assert RowOk(Cur(s.db, d));
    }
    MovedEvolves(s.db, s'.db, (set x | x in ds), s.used);
  }

  lemma SendStepEvolves(s: Sys, act: Action, s': Sys)
    requires Inv(s) && Step(s, act, s')
    requires act.Claim? || act.FailSend? || act.StoreCursor? || act.RecordRequest? || act.FinishSend?
    ensures Evolves(s.db, s'.db, s.used)
  {
    match act
    case Claim(d) => ClaimEvolves(s, d, s');
    case FailSend => FailSendEvolves(s, s');
    case StoreCursor => StoreCursorEvolves(s, s');
    case RecordRequest(json, at) => RecordRequestEvolves(s, json, at, s');
    case FinishSend(at) => FinishSendEvolves(s, at, s');
  }

  lemma WorkStepEvolves(s: Sys, act: Action, s': Sys)
    requires Inv(s) && Step(s, act, s')
    requires act.ClaimPolls? || act.CompletePoll? || act.ApplyManual? || act.Terminate? || act.Recover?
    ensures Evolves(s.db, s'.db, s.used)
  {
    match act
    case ClaimPolls(at, batch) => ClaimPollsEvolves(s, at, batch, s');
    case CompletePoll => CompletePollEvolves(s, s');
    case ApplyManual(req, id) => ApplyManualEvolves(s, req, id, s');
    case Terminate(d) => TerminateEvolves(s, d, s');
    case Recover(at, ds) => RecoverEvolves(s, at, ds, s');
  }

  lemma EventStepEvolves(s: Sys, act: Action, s': Sys)
    requires Inv(s) && Step(s, act, s') && (act.Receive? || act.DrainHead? || act.DeleteEvents?)
    ensures Evolves(s.db, s'.db, s.used)
  {
    match act
    case Receive(row, supported, decision, e, ids) => ReceiveEvolves(s, row, supported, decision, e, ids, s');
    case DrainHead(decision, ids) => DrainEvolves(s, decision, ids, s');
    case DeleteEvents(es) => RemoveEvolves(s.db, es, s.used);
  }

  /** Every step of the engine respects the rows that exist. */
  lemma StepEvolves(s: Sys, act: Action, s': Sys)
    requires Inv(s) && Step(s, act, s')
    ensures Evolves(s.db, s'.db, s.used) && s.used <= s'.used
  {
    UsedNeverShrinks(s, act, s');
    if act.Claim? || act.FailSend? || act.StoreCursor? || act.RecordRequest? || act.FinishSend? {
      SendStepEvolves(s, act, s');
    } else if act.ClaimPolls? || act.CompletePoll? || act.ApplyManual? || act.Terminate? || act.Recover? {
      WorkStepEvolves(s, act, s');
    } else if act.Receive? || act.DrainHead? || act.DeleteEvents? {
      EventStepEvolves(s, act, s');
    } else {
      OtherStepKeepsDb(s, act, s');
      SameRowsEvolve(s.db, s'.db, s.used);
    }
  }

  lemma UsedNeverShrinks(s: Sys, act: Action, s': Sys)
    requires Schema(s.db) && Step(s, act, s')
    ensures s.used <= s'.used
  {
  }

  lemma OtherStepKeepsDb(s: Sys, act: Action, s': Sys)
    requires Schema(s.db) && Step(s, act, s')
    requires !(act.Claim? || act.FailSend? || act.StoreCursor? || act.RecordRequest? || act.FinishSend?)
    requires !(act.ClaimPolls? || act.CompletePoll? || act.ApplyManual? || act.Terminate? || act.Recover?)
    requires !(act.Receive? || act.DrainHead? || act.DeleteEvents?)
    ensures s'.db == s.db
  {
  }
}
