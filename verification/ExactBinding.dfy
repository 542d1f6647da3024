/** The steps that bind deployments, and the remaining steps, keep correlation exact. */
module ExactBinding {
  import opened Domain
  import opened Tables
  import opened Correlation
  import opened Polling
  import opened Intake
  import opened Manual
  import opened Reload
  import opened Protocol
  import opened Invariant
  import opened RowSteps
  import opened PollSteps
  import opened BootSteps
  import opened ManualSteps
  import opened IntakeSteps
  import opened Exactness

  // ----- Lookups return the attempt's own deployment -----

  /** A search by deployment id or by token. */
  lemma FindIsOwn(s: Sys, res: string, a: Id, bound: Option<DeploymentId>)
    requires RemoteExact(s) && (bound.Some? ==> Own(s, bound.value, a))
    requires Find(HistoryOf(s, res), a, bound).Found?
    ensures Own(s, Find(HistoryOf(s, res), a, bound).entry.id, a)
  {
    var h := HistoryOf(s, res);
    FoundMatches(h, a, bound);
    var e := Find(h, a, bound).entry;
    var i :| 0 <= i < |h| && h[i] == e;
    assert Honest(HistoryOf(s, res)[i], s.born[HistoryOf(s, res)[i].id]);
  }

  lemma LookupIsOwn(s: Sys, p: InFlight)
    requires Inv(s) && Exact(s) && p in s.polls && ClaimStands(s.db, p.work) && LookupOf(s, p).Found?
    ensures Own(s, LookupOf(s, p).entry.id, p.work.attempt)
  {
    var i :| 0 <= i < |s.polls| && s.polls[i] == p;
    assert WorkOk(s, s.polls[i]);
    var d := p.work.delivery;
    var x, a := s.db.deliveries[d], Cur(s.db, d);
    assert RowOk(a) && RowExact(s, p.work.attempt, a) && Fenced(s, x, a);
    var res := x.binding.resource;
    if p.work.bound.Some? || p.work.cursor.None? {
      FindIsOwn(s, res, p.work.attempt, p.work.bound);
    } else {
      FoundIsNewer(HistoryOf(s, res), p.work.attempt, p.work.cursor.value);
      var k :| 0 <= k < Stop(HistoryOf(s, res), p.work.cursor.value) && HistoryOf(s, res)[k] == LookupOf(s, p).entry;
      assert Own(s, HistoryOf(s, res)[k].id, p.work.attempt);
    }
  }

  lemma LookUpExact(s: Sys, failed: bool, s': Sys)
    requires Inv(s) && Exact(s) && LooksUp(s, failed, s')
    ensures Exact(s')
  {
    if ClaimStands(s.db, s.polls[0].work) && LookupOf(s, s.polls[0]).Found? { LookupIsOwn(s, s.polls[0]); }
    forall i | 0 <= i < |s'.polls| ensures WorkExact(s', s'.polls[i]) {
      assert WorkExact(s, s.polls[i]);
    }
    PollsExact(s, s');
  }

  /** Only the batch in flight changes. */
  lemma PollsExact(s: Sys, s': Sys)
    requires Schema(s.db) && Exact(s) && s' == s.(polls := s'.polls)
    requires forall i | 0 <= i < |s'.polls| :: WorkExact(s', s'.polls[i])
    ensures Exact(s')
  {
    SameHistories(s, s');
    forall d | d in s'.db.deliveries ensures Fenced(s', s'.db.deliveries[d], Cur(s'.db, d)) {
      assert Fenced(s, s.db.deliveries[d], Cur(s.db, d));
    }
  }

  /** The row in dispatch is not among those rewritten. */
  lemma DispatchUntouched(s: Sys, s': Sys, m: set<Id>)
    requires Schema(s.db) && Schema(s'.db) && DispatchExact(s) && Moved(s.db, s'.db, m)
    requires s'.remote == s.remote && s'.born == s.born && s'.disp == s.disp
    requires s.disp.Busy? ==> s.disp.delivery !in m
    ensures DispatchExact(s')
  {
    SameHistories(s, s');
    if s.disp.Busy? && s.disp.delivery in s.db.deliveries { CurMoved(s.db, s'.db, m, s.disp.delivery); }
  }

  lemma BeginManualExact(s: Sys, req: Id, d: Id, expected: Id, op: Operation, at: Time, failed: bool, s': Sys)
    requires Inv(s) && Exact(s) && BeginsManual(s, req, d, expected, op, at, failed, s')
    ensures Exact(s')
  {
    var x, a := s.db.deliveries[d], Cur(s.db, d);
    assert RowOk(a) && RowExact(s, x.current, a);
    var h := if x.binding.Dokploy? then HistoryOf(s, x.binding.resource) else [];
    SubmittedUpdatesFit(s.mgr.current, s.mgr.mode.Idle?, d, x, a, expected, op, h, failed, at);
    if s' != s {
      var u := s'.manual[req];
      if u.correct { FindIsOwn(s, x.binding.resource, x.current, a.bound); }
      SubmittedExact(s, req, u, s');
    }
  }

  lemma SubmittedExact(s: Sys, req: Id, u: ManualUpdate, s': Sys)
    requires Schema(s.db) && Exact(s) && s' == s.(manual := s.manual[req := u]) && UpdateExact(s, u)
    ensures Exact(s')
  {
    assert forall r :: HistoryOf(s', r) == HistoryOf(s, r);
    forall i | 0 <= i < |s'.polls| ensures WorkExact(s', s'.polls[i]) {
      assert WorkExact(s, s.polls[i]);
    }
    forall d | d in s'.db.deliveries ensures Fenced(s', s'.db.deliveries[d], Cur(s'.db, d)) {
      assert Fenced(s, s.db.deliveries[d], Cur(s.db, d));
    }
    forall r | r in s'.manual ensures UpdateExact(s', s'.manual[r]) {
      if r != req { assert UpdateExact(s, s.manual[r]); }
    }
  }

  // ----- Writing the binding -----

  lemma CompletePollExact(s: Sys, s': Sys)
    requires Inv(s) && Inv(s') && Exact(s) && CompletesPoll(s, s')
    ensures Exact(s')
  {
    if !ClaimStands(s.db, s.polls[0].work) {
      RejectedExact(s, s');
    } else {
      var a, b := CompletedFacts(s, s');
      assert WorkExact(s, s.polls[0]);
      HeadIsApart(s);
      PollWrittenExact(s, s.polls[0].work.delivery, a, b, s');
    }
  }

  /** Nothing else in flight concerns the delivery of the first poll. */
  lemma HeadIsApart(s: Sys)
    requires Inv(s) && s.polls != [] && ClaimStands(s.db, s.polls[0].work)
    ensures forall i | 0 < i < |s.polls| :: s.polls[i].work.delivery != s.polls[0].work.delivery
    ensures s.disp.Busy? ==> s.disp.delivery != s.polls[0].work.delivery
  {
    assert WorkOk(s, s.polls[0]) && RowOk(Cur(s.db, s.polls[0].work.delivery));
  }

  lemma RejectedExact(s: Sys, s': Sys)
    requires Schema(s.db) && Exact(s) && s.polls != [] && s' == s.(polls := s.polls[1..])
    ensures Exact(s')
  {
    forall i | 0 <= i < |s'.polls| ensures WorkExact(s', s'.polls[i]) {
      assert WorkExact(s, s.polls[i + 1]);
    }
    PollsExact(s, s');
  }

  lemma PollWrittenExact(s: Sys, d: Id, a: Attempt, b: Attempt, s': Sys)
    requires Schema(s.db) && Schema(s'.db) && Exact(s) && s.polls != [] && d in s.db.deliveries && a == Cur(s.db, d)
    requires s' == s.(db := s'.db, polls := s.polls[1..]) && Moved(s.db, s'.db, {d}) && Cur(s'.db, d) == b
    requires forall i | 0 < i < |s.polls| :: s.polls[i].work.delivery != d
    requires s.disp.Busy? ==> s.disp.delivery != d
    requires BindingKept(a, b) && b.cursor == a.cursor && (Holds(b) ==> Holds(a))
    requires a.bound.None? && b.bound.Some? ==> Own(s, b.bound.value, s.db.deliveries[d].current)
    ensures Exact(s')
  {
    assert RowExact(s, s.db.deliveries[d].current, a) && Fenced(s, s.db.deliveries[d], a);
    forall i | 0 <= i < |s'.polls| ensures WorkExact(s', s'.polls[i]) {
      assert s'.polls[i] == s.polls[i + 1] && WorkExact(s, s.polls[i + 1]);
      WorkMoved(s, s', {d}, s.polls[i + 1]);
    }
    DispatchUntouched(s, s', {d});
    RowsExact(s, s', {d});
  }

  lemma SameHistories(s: Sys, s': Sys)
    requires s'.remote == s.remote
    ensures forall r :: HistoryOf(s', r) == HistoryOf(s, r)
  {
  }

  lemma ClaimPollsExact(s: Sys, at: Time, ds: seq<Id>, s': Sys)
    requires Inv(s) && Inv(s') && Exact(s) && ClaimsPolls(s, at, ds, s')
    ensures Exact(s')
  {
    var m := set d | d in ds;
    ClaimPollsMoves(s, at, ds, s');
    forall d | d in m && d in s.db.deliveries ensures OnlyClaimed(Cur(s.db, d), Cur(s'.db, d)) {
      ClaimedCur(s, at, ds, s', d);
    }
    forall i | 0 <= i < |s'.polls| ensures s'.polls[i].looked.None? {
    }
    PollsClaimedExact(s, s', m);
  }

  lemma PollsClaimedExact(s: Sys, s': Sys, m: set<Id>)
    requires Inv(s) && Inv(s') && Exact(s) && s' == s.(db := s'.db, polls := s'.polls) && Moved(s.db, s'.db, m)
    requires forall d | d in m && d in s.db.deliveries :: OnlyClaimed(Cur(s.db, d), Cur(s'.db, d))
    requires forall i | 0 <= i < |s'.polls| :: s'.polls[i].looked.None?
    ensures Exact(s')
  {
    forall d | d in m && d in s.db.deliveries
      ensures RowExact(s, s.db.deliveries[d].current, Cur(s'.db, d)) && Fenced(s, s.db.deliveries[d], Cur(s'.db, d))
    {
      assert OnlyClaimed(Cur(s.db, d), Cur(s'.db, d));
      assert RowExact(s, s.db.deliveries[d].current, Cur(s.db, d)) && Fenced(s, s.db.deliveries[d], Cur(s.db, d));
    }
    if s.disp.Busy? { assert RowOk(Cur(s.db, s.disp.delivery)); }
    DispatchUntouched(s, s', m);
    RowsExact(s, s', m);
  }

  lemma RecoverExact(s: Sys, at: Time, ds: seq<Id>, s': Sys)
    requires Inv(s) && Inv(s') && Exact(s) && Recovers(s, at, ds, s')
    ensures Exact(s')
  {
    RecoverMoves(s, at, ds, s');
    forall d | d in s.db.deliveries && d in (set x | x in ds) ensures Inert(Cur(s.db, d), Cur(s'.db, d)) {
      RecoveredCur(s, at, ds, s', d);
    }
    InertExact(s, s', set x | x in ds);
  }

  lemma CorrectedExact(s: Sys, req: Id, s': Sys)
    requires Inv(s) && Inv(s') && Exact(s) && req in s.manual && s.manual[req].correct && StillExpected(s.db, s.manual[req])
    requires s' == s.(db := Corrected(s.db, s.manual[req]), manual := s.manual - {req})
    ensures Exact(s')
  {
    var u := s.manual[req];
    var d := u.delivery;
    var b := CorrectedRow(Cur(s.db, d), u);
    CorrectionFacts(s, u);
    PutStep(s.db, d, b, true);
    assert UpdateExact(s, u);
    CorrectedRowExact(s, d, b, s');
  }

  lemma CorrectedRowExact(s: Sys, d: Id, b: Attempt, s': Sys)
    requires Schema(s.db) && Schema(s'.db) && Exact(s) && d in s.db.deliveries && Moved(s.db, s'.db, {d}) && Cur(s'.db, d) == b
    requires s' == s.(db := s'.db, manual := s'.manual) && forall r | r in s'.manual :: r in s.manual && s'.manual[r] == s.manual[r]
    requires !Holds(b) && b.lastPolled.None? && b.cursor == Cur(s.db, d).cursor && (s.disp.Busy? ==> s.disp.delivery != d)
    requires b.bound.Some? && Own(s, b.bound.value, s.db.deliveries[d].current)
    ensures Exact(s')
  {
    assert RowExact(s, s.db.deliveries[d].current, Cur(s.db, d));
    forall i | 0 <= i < |s'.polls| ensures WorkExact(s', s'.polls[i]) {
      WorkMoved(s, s', {d}, s.polls[i]);
    }
    DispatchUntouched(s, s', {d});
    RowsExact(s, s', {d});
  }

  // ----- New rows, deleted rows, and everything else -----

  /** Old rows are as they were; new rows have neither cursor nor binding. */
  lemma GrownExact(s: Sys, s': Sys)
    requires Inv(s) && Inv(s') && Exact(s) && s'.remote == s.remote && s'.born == s.born && s'.polls == s.polls && s'.disp == s.disp
    requires forall r | r in s'.manual :: r in s.manual && s'.manual[r] == s.manual[r]
    requires forall a | a in s'.db.attempts ::
               if a in s.db.attempts then s'.db.attempts[a] == s.db.attempts[a]
               else s'.db.attempts[a].cursor.None? && s'.db.attempts[a].bound.None?
    requires forall d | d in s'.db.deliveries :: (d in s.db.deliveries && s'.db.deliveries[d] == s.db.deliveries[d])
               || Cur(s'.db, d).cursor.None?
    requires forall i | 0 <= i < |s.polls| :: ClaimStands(s'.db, s.polls[i].work) ==> ClaimStands(s.db, s.polls[i].work)
    requires s.disp.Busy? ==> s.disp.delivery in s'.db.deliveries && s'.db.deliveries[s.disp.delivery] == s.db.deliveries[s.disp.delivery]
    ensures Exact(s')
  {
    SameHistories(s, s');
    forall a | a in s'.db.attempts ensures RowExact(s', a, s'.db.attempts[a]) {
      if a in s.db.attempts { assert RowExact(s, a, s.db.attempts[a]); }
    }
    forall d | d in s'.db.deliveries ensures Fenced(s', s'.db.deliveries[d], Cur(s'.db, d)) {
      if d in s.db.deliveries && s'.db.deliveries[d] == s.db.deliveries[d] {
        assert Linked(s.db, d);
        assert Fenced(s, s.db.deliveries[d], Cur(s.db, d));
      }
    }
    if s.disp.Busy? { assert Linked(s.db, s.disp.delivery); }
    forall i | 0 <= i < |s'.polls| ensures WorkExact(s', s'.polls[i]) {
      assert WorkExact(s, s.polls[i]);
    }
    forall r | r in s'.manual ensures UpdateExact(s', s'.manual[r]) {
      assert UpdateExact(s, s.manual[r]);
    }
  }

  lemma ExtendedExact(s: Sys, db1: Db, e: Id, items: seq<NewDelivery>, ids: seq<Fresh>, s': Sys)
    requires Inv(s) && Inv(s') && Exact(s) && DbOk(db1) && db1.deliveries == s.db.deliveries && db1.attempts == s.db.attempts
    requires |items| == |ids| && Extended(db1, s'.db, e, items, ids) && AllFresh(ids, s.used)
    requires s' == s.(db := s'.db, used := s'.used, accepted := s'.accepted, routed := s'.routed)
    ensures Exact(s')
  {
    forall d | d in s'.db.deliveries
      ensures (d in s.db.deliveries && s'.db.deliveries[d] == s.db.deliveries[d]) || Cur(s'.db, d).cursor.None?
    {
      ExtendedCur(db1, s'.db, e, items, ids, d);
    }
    forall a | a in s'.db.attempts && a !in s.db.attempts ensures s'.db.attempts[a].cursor.None? && s'.db.attempts[a].bound.None? {
      var i := AttemptIndex(ids, a);
      assert Planted(s'.db, e, items[i], ids[i]);
    }
    forall i | 0 <= i < |s.polls| && ClaimStands(s'.db, s.polls[i].work) ensures ClaimStands(s.db, s.polls[i].work) {
      ExtendedStands(db1, s'.db, e, items, ids, s.polls[i].work, s.used);
      assert ClaimStands(db1, s.polls[i].work);
    }
    GrownExact(s, s');
  }

  lemma ReceiveExact(s: Sys, row: EventRow, supported: bool, r: Decision, e: Id, ids: seq<Fresh>, s': Sys)
    requires Inv(s) && Inv(s') && Exact(s) && Receives(s, row, supported, r, e, ids, s')
    ensures Exact(s')
  {
    if !Duplicate(s.db, row) {
      if supported && !Defers(s.mgr.mode) {
        var db1 := WithEvent(s.db, e, row.(routing := r.result));
        assert !Duplicate(s.db, row.(routing := r.result));
        WithEventOk(s.db, e, row.(routing := r.result));
        FreshRelaxes(ids, s.used + {e}, s.used);
        FreshRelaxes(ids, s.used, db1.deliveries.Keys + db1.attempts.Keys);
        AddAllOk(db1, e, r.deliveries, ids, row.receivedAt);
        ExtendedExact(s, db1, e, r.deliveries, ids, s');
      } else {
        GrownExact(s, s');
      }
    }
  }

  lemma DrainExact(s: Sys, r: Decision, ids: seq<Fresh>, s': Sys)
    requires Inv(s) && Inv(s') && Exact(s) && Drains(s, r, ids, s')
    ensures Exact(s')
  {
    var e := s.db.queue[0].event;
    var db1 := Dequeued(s.db, r.result);
    DequeuedOk(s.db, r.result);
    FreshRelaxes(ids, s.used, db1.deliveries.Keys + db1.attempts.Keys);
    AddAllOk(db1, e, r.deliveries, ids, s.db.events[e].receivedAt);
    ExtendedExact(s, db1, e, r.deliveries, ids, s');
  }

  lemma SupersedeExact(s: Sys, d: Id, id: Id, kind: AttemptKind, s': Sys)
    requires Inv(s) && Inv(s') && Exact(s) && d in s.db.deliveries && id !in s.used
    requires !Cur(s.db, d).status.transport.Sending?
    requires s' == s.(db := Supersede(s.db, d, id, kind), used := s.used + {id})
    ensures Exact(s')
  {
    SupersedeFrame(s.db, d, id, kind);
    GrownExact(s, s');
  }

  lemma ApplyManualExact(s: Sys, req: Id, id: Id, s': Sys)
    requires Inv(s) && Inv(s') && Exact(s) && AppliesManual(s, req, id, s')
    ensures Exact(s')
  {
    var u := s.manual[req];
    if !StillExpected(s.db, u) {
      GrownExact(s, s');
    } else {
      var s1 := s.(db := Corrected(s.db, u), manual := s.manual - {req});
      FirstHalfExact(s, req, s1);
      if u.create {
        SupersedeExact(s1, u.delivery, id, AttemptKind.Manual(u.operation), s');
      } else {
        GrownExact(s1, s');
      }
    }
  }

  /** The correction of a manual update, before it creates an attempt. */
  lemma FirstHalfExact(s: Sys, req: Id, s1: Sys)
    requires Inv(s) && Exact(s) && req in s.manual && StillExpected(s.db, s.manual[req])
    requires s1 == s.(db := Corrected(s.db, s.manual[req]), manual := s.manual - {req})
    ensures Inv(s1) && Exact(s1) && !Cur(s1.db, s.manual[req].delivery).status.transport.Sending?
  {
    var u := s.manual[req];
    if u.correct {
      CorrectedKeeps(s, req, s1);
      CorrectedExact(s, req, s1);
      CorrectionFacts(s, u);
      PutStep(s.db, u.delivery, CorrectedRow(Cur(s.db, u.delivery), u), true);
    } else {
      DroppedKeeps(s, req, u.attempt, s1);
      GrownExact(s, s1);
    }
  }

  lemma DeleteExact(s: Sys, es: set<Id>, s': Sys)
    requires Inv(s) && Inv(s') && Exact(s) && Step(s, DeleteEvents(es), s')
    ensures Exact(s')
  {
    forall e | e in es && e in s.db.events ensures !s.db.events[e].routing.Deferred? { assert Erasable(s.db, e); }
    RemoveOk(s.db, es);
    GrownExact(s, s');
  }

  /** Manager and lifecycle steps: the database and the remote stay, in-flight work stays or is dropped. */
  lemma ControlExact(s: Sys, s': Sys)
    requires Schema(s.db) && Exact(s) && s'.db == s.db && s'.remote == s.remote && s'.born == s.born
    requires (s'.disp == s.disp && s'.polls == s.polls && s'.manual == s.manual)
             || (s'.disp.Resting? && s'.polls == [] && s'.manual == map[])
    ensures Exact(s')
  {
    SameHistories(s, s');
    forall d | d in s'.db.deliveries ensures Fenced(s', s'.db.deliveries[d], Cur(s'.db, d)) {
      assert Fenced(s, s.db.deliveries[d], Cur(s.db, d));
    }
    forall i | 0 <= i < |s'.polls| ensures WorkExact(s', s'.polls[i]) {
      assert WorkExact(s, s.polls[i]);
    }
  }
}
