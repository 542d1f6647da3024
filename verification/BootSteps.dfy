/** Crashing, Prepare (internal/app/app.go) and the steps that leave the database alone keep the invariant. */
module BootSteps {
  import opened Domain
  import opened Tables
  import opened Correlation
  import opened Polling
  import opened Intake
  import opened Manual
  import opened Reload
  import opened Protocol
  import opened Invariant
  import opened RowSteps

  lemma CrashKeeps(s: Sys, g: Generation, s': Sys)
    requires Inv(s) && Step(s, Crash(g), s')
    ensures Inv(s')
  {
  }

  lemma TerminateKeeps(s: Sys, d: Id, s': Sys)
    requires Inv(s) && Terminates(s, d, s')
    ensures Inv(s')
  {
    var a := Cur(s.db, d);
    assert RowOk(a);
    PutStep(s.db, d, TerminatedRow(a), true);
    MutexMoved(s.db, s'.db, {d});
    PollsReleased(s, s', {d});
    ManualMoved(s, s', {d});
    GenerationMoved(s, s', {d});
    PostsMoved(s, s', {d});
  }

  lemma BindingsCheckedKeeps(s: Sys, s': Sys)
    requires Inv(s) && Step(s, BindingsChecked, s')
    ensures Inv(s')
  {
    forall d | d in s'.db.deliveries && ActiveDelivery(s'.db, d) ensures CurrentlyCompatible(s', d) {
      assert CurrentlyCompatible(s, d);
    }
  }

  lemma RecoverBatch(s: Sys, at: Time, ds: seq<Id>)
    requires DbOk(s.db) && Distinct(ds)
    requires forall i | 0 <= i < |ds| :: ds[i] in s.db.deliveries && Interrupted(Cur(s.db, ds[i]))
    ensures Batch(s.db, ds, (x, a) => RecoveredRow(s.mgr.current, at, x, a))
  {
    forall i | 0 <= i < |ds| ensures RowOk(RecoveredRow(s.mgr.current, at, s.db.deliveries[ds[i]], Cur(s.db, ds[i]))) {
      assert RowOk(Cur(s.db, ds[i]));
    }
  }

  /** What recovery does to one current row. */
  lemma RecoveredCur(s: Sys, at: Time, ds: seq<Id>, s': Sys, d: Id)
    requires DbOk(s.db) && Recovers(s, at, ds, s') && d in s.db.deliveries
    ensures Linked(s'.db, d)
    ensures Cur(s'.db, d) == if Interrupted(Cur(s.db, d)) then RecoveredRow(s.mgr.current, at, s.db.deliveries[d], Cur(s.db, d))
                             else Cur(s.db, d)
    ensures d in ds <==> Interrupted(Cur(s.db, d))
  {
    RecoverBatch(s, at, ds);
    PutAllCur(s.db, ds, (x, a) => RecoveredRow(s.mgr.current, at, x, a), d);
    if d in ds {
      var i :| 0 <= i < |ds| && ds[i] == d;
    }
  }

  lemma RecoverMoves(s: Sys, at: Time, ds: seq<Id>, s': Sys)
    requires DbOk(s.db) && Recovers(s, at, ds, s')
    ensures DbOk(s'.db) && Moved(s.db, s'.db, set d | d in ds)
  {
    RecoverBatch(s, at, ds);
    PutAllOk(s.db, ds, (x, a) => RecoveredRow(s.mgr.current, at, x, a));
  }

  /** After recovery a row is at rest: no send in progress, no claim outstanding. */
  predicate AtRest(a: Attempt, b: Attempt) {
    && !b.status.transport.Sending? && b.lastPolled.None? && (Holds(b) ==> Holds(a)) && EvidenceKept(a, b)
    && Active(a.status) && b.bound == a.bound
  }

  lemma RecoverKeeps(s: Sys, at: Time, ds: seq<Id>, s': Sys)
    requires Inv(s) && Recovers(s, at, ds, s')
    ensures Inv(s')
  {
    var m := set d | d in ds;
    RecoverMoves(s, at, ds, s');
    forall d | d in s.db.deliveries
      ensures d in m ==> AtRest(Cur(s.db, d), Cur(s'.db, d))
      ensures d !in m ==> !Interrupted(Cur(s.db, d))
    {
      RecoveredCur(s, at, ds, s', d);
    }
    RecoveredKeeps(s, s', m);
  }

  lemma RecoveredKeeps(s: Sys, s': Sys, m: set<Id>)
    requires Inv(s) && s.phase.Recovering? && s' == s.(db := s'.db, phase := Initializing)
    requires DbOk(s'.db) && Moved(s.db, s'.db, m)
    requires forall d | d in s.db.deliveries && d in m :: AtRest(Cur(s.db, d), Cur(s'.db, d))
    requires forall d | d in s.db.deliveries && d !in m :: !Interrupted(Cur(s.db, d))
    ensures Inv(s')
  {
    MutexMoved(s.db, s'.db, m);
    ManualMoved(s, s', m);
    forall d | d in m && d in s.db.deliveries ensures CurrentlyCompatible(s, d) {
      assert AtRest(Cur(s.db, d), Cur(s'.db, d));
      assert ActiveDelivery(s.db, d);
    }
    GenerationMoved(s, s', m);
    PostsMoved(s, s', m);
    forall d | d in s'.db.deliveries
      ensures !Cur(s'.db, d).status.transport.Sending?
      ensures Monitored(Cur(s'.db, d).status.deployment) ==> Unclaimed(Cur(s'.db, d))
    {
      CurMoved(s.db, s'.db, m, d);
      assert RowOk(Cur(s'.db, d));
    }
  }

  lemma CountsActive(db: Db)
    requires Schema(db)
    ensures |ActiveSet(db)| == 0 <==> Quiet(db)
  {
    if |ActiveSet(db)| == 0 {
      forall d | d in db.deliveries ensures !ActiveDelivery(db, d) {
        assert d !in ActiveSet(db);
      }
    } else {
      var d :| d in ActiveSet(db);
    }
  }

  lemma InitializeKeeps(s: Sys, s': Sys)
    requires Inv(s) && Step(s, Initialize, s')
    ensures Inv(s')
  {
    assert s'.mgr.current == s.mgr.current;
    forall d | d in s'.db.deliveries && ActiveDelivery(s'.db, d) ensures CurrentlyCompatible(s', d) {
      assert CurrentlyCompatible(s, d);
    }
    forall d | d in s'.db.deliveries && Monitored(Cur(s'.db, d).status.deployment) ensures Unclaimed(Cur(s'.db, d)) {
      assert !UnderClaim(s, d);
    }
  }

  // ----- Reload manager -----

  /** A manager step that keeps the current generation. */
  lemma ManagerKeeps(s: Sys, s': Sys)
    requires Inv(s) && s.phase.Serving? && GateFree(s) && s' == s.(mgr := s'.mgr) && s'.mgr.current == s.mgr.current
    requires !s'.mgr.mode.Applying? && (s'.mgr.candidate.Some? ==> s'.mgr.mode.Waiting? && Compiled(s'.mgr.candidate.value))
    requires !Defers(s'.mgr.mode) ==> s.db.queue == []
    ensures Inv(s')
  {
    forall d | d in s'.db.deliveries && ActiveDelivery(s'.db, d) ensures CurrentlyCompatible(s', d) {
      assert CurrentlyCompatible(s, d);
    }
    forall i | 0 <= i < |s'.polls| ensures WorkOk(s', s'.polls[i]) {
      assert WorkOk(s, s.polls[i]);
    }
    forall d | UnderClaim(s, d) ensures UnderClaim(s', d) {
      var i :| 0 <= i < |s.polls| && s.polls[i].work.delivery == d && ClaimStands(s.db, s.polls[i].work);
      assert s'.polls[i].work.delivery == d;
    }
  }

  /** Publishing a generation is harmless exactly because nothing is active. */
  lemma PublishKeeps(s: Sys, g: Generation, s': Sys)
    requires Inv(s) && s.phase.Serving? && GateFree(s) && s' == s.(mgr := Published(s.mgr, g)) && Compiled(g)
    requires Quiet(s.db)
    ensures Inv(s')
  {
    forall d | d in s'.db.deliveries ensures !ActiveDelivery(s'.db, d) {
      assert !ActiveDelivery(s.db, d);
    }
    forall i | 0 <= i < |s'.polls| ensures WorkOk(s', s'.polls[i]) {
      assert WorkOk(s, s.polls[i]);
    }
    forall d | d in s'.db.deliveries ensures !Monitored(Cur(s'.db, d).status.deployment) {
      assert !ActiveDelivery(s.db, d);
    }
  }

  lemma FinishReloadKeeps(s: Sys, g: Generation, s': Sys)
    requires Inv(s) && Step(s, FinishReload(g), s')
    ensures Inv(s')
  {
    CountsActive(s.db);
    if |ActiveSet(s.db)| > 0 { ManagerKeeps(s, s'); } else { PublishKeeps(s, g, s'); }
  }

  lemma AdvanceWaitingKeeps(s: Sys, s': Sys)
    requires Inv(s) && Step(s, AdvanceWaiting, s')
    ensures Inv(s')
  {
    CountsActive(s.db);
    if s.mgr.mode.Waiting? && |ActiveSet(s.db)| == 0 && s.mgr.candidate.Some? {
      PublishKeeps(s, s.mgr.candidate.value, s');
    } else {
      ManagerKeeps(s, s');
    }
  }

  lemma OtherReloadKeeps(s: Sys, act: Action, s': Sys)
    requires Inv(s) && Step(s, act, s') && (act.BeginReload? || act.FailReload? || act.DrainIdle?)
    ensures Inv(s')
  {
    ManagerKeeps(s, s');
  }

  // ----- Dispatcher and remote steps that only touch the outside world -----

  lemma ReadCursorKeeps(s: Sys, s': Sys)
    requires Inv(s) && ReadsCursor(s, s')
    ensures Inv(s')
  {
    SameDatabaseKeeps(s, s');
  }

  lemma PostKeeps(s: Sys, o: Outcome, created: Option<Entry>, s': Sys)
    requires Inv(s) && Posts(s, o, created, s')
    ensures Inv(s')
  {
    var a := Cur(s.db, s.disp.delivery);
    assert s'.posts[s.disp.attempt] == 1;
    SameDatabaseKeeps(s, s');
  }

  lemma RemoteKeeps(s: Sys, s': Sys)
    requires Inv(s) && s' == s.(remote := s'.remote)
    ensures Inv(s')
  {
    SameDatabaseKeeps(s, s');
  }

  lemma SameDatabaseKeeps(s: Sys, s': Sys)
    requires Inv(s) && s' == s.(remote := s'.remote, disp := s'.disp, posts := s'.posts, born := s'.born)
    requires DispatchOk(s') && PostsOk(s') && (!s.phase.Serving? ==> s'.disp.Resting?)
    requires (forall a | a in s'.posts :: a in s.used) && (forall x | x in s'.born :: s'.born[x] in s.used)
    ensures Inv(s')
  {
    forall i | 0 <= i < |s'.polls| ensures WorkOk(s', s'.polls[i]) {
      assert WorkOk(s, s.polls[i]);
    }
    forall d | UnderClaim(s, d) ensures UnderClaim(s', d) {
      var i :| 0 <= i < |s.polls| && s.polls[i].work.delivery == d && ClaimStands(s.db, s.polls[i].work);
      assert s'.polls[i].work.delivery == d;
    }
  }
}
