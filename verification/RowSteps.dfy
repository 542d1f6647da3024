/** Steps that rewrite the current rows of some deliveries keep the invariant. */
module RowSteps {
  import opened Domain
  import opened Tables
  import opened Correlation
  import opened Polling
  import opened Intake
  import opened Manual
  import opened Reload
  import opened Protocol
  import opened Invariant

  // ----- What a rewrite must respect, part by part -----

  lemma MutexMoved(db: Db, db': Db, m: set<Id>)
    requires Schema(db) && Schema(db') && Moved(db, db', m) && Mutex(db)
    requires forall d | d in m && d in db.deliveries :: Holds(Cur(db', d)) ==> Holds(Cur(db, d))
    ensures Mutex(db')
  {
    forall x, y | x in db'.deliveries && y in db'.deliveries && x != y && Conflict(db'.deliveries[x], db'.deliveries[y])
      ensures !(Holds(Cur(db', x)) && Holds(Cur(db', y)))
    {
      CurMoved(db, db', m, x);
      CurMoved(db, db', m, y);
    }
  }

  lemma CurMoved(db: Db, db': Db, m: set<Id>, x: Id)
    requires Schema(db) && Schema(db') && Moved(db, db', m) && x in db.deliveries
    ensures x !in m ==> Cur(db', x) == Cur(db, x)
    ensures db'.deliveries[x].current == db.deliveries[x].current
  {
    assert Linked(db, x) && Linked(db', x);
  }

  /** The resource is free for d, so d may take it. */
  lemma MutexClaimed(db: Db, db': Db, d: Id)
    requires Schema(db) && Schema(db') && Moved(db, db', {d}) && Mutex(db) && d in db.deliveries
    requires forall x | x in db.deliveries && x != d && Conflict(db.deliveries[x], db.deliveries[d]) :: !Holds(Cur(db, x))
    ensures Mutex(db')
  {
    forall x, y | x in db'.deliveries && y in db'.deliveries && x != y && Conflict(db'.deliveries[x], db'.deliveries[y])
      ensures !(Holds(Cur(db', x)) && Holds(Cur(db', y)))
    {
      CurMoved(db, db', {d}, x);
      CurMoved(db, db', {d}, y);
    }
  }

  lemma StandsMoved(db: Db, db': Db, m: set<Id>, w: PollWork)
    requires Schema(db) && Schema(db') && Moved(db, db', m)
    ensures w.delivery !in m ==> (ClaimStands(db', w) <==> ClaimStands(db, w))
  {
    if w.delivery in db.deliveries { CurMoved(db, db', m, w.delivery); }
  }

  /** Rewrites that leave no claim on the rows they touch. */
  lemma PollsReleased(s: Sys, s': Sys, m: set<Id>)
    requires Schema(s.db) && DbOk(s'.db) && Moved(s.db, s'.db, m) && PollsOk(s)
    requires s'.polls == s.polls && s'.mgr == s.mgr && (Live(s'.phase) ==> Live(s.phase))
    requires forall d | d in m && d in s.db.deliveries :: Cur(s'.db, d).lastPolled.None?
    ensures PollsOk(s')
  {
    forall i | 0 <= i < |s'.polls| ensures WorkOk(s', s'.polls[i]) {
      StandsMoved(s.db, s'.db, m, s.polls[i].work);
      assert WorkOk(s, s.polls[i]);
      if ClaimStands(s'.db, s.polls[i].work) { CurMoved(s.db, s'.db, m, s.polls[i].work.delivery); }
    }
    if Live(s'.phase) {
      forall d | d in s'.db.deliveries && Monitored(Cur(s'.db, d).status.deployment)
        ensures Unclaimed(Cur(s'.db, d)) || UnderClaim(s', d)
      {
        CurMoved(s.db, s'.db, m, d);
        assert RowOk(Cur(s'.db, d));
        if d !in m && !Unclaimed(Cur(s.db, d)) {
          var i :| 0 <= i < |s.polls| && s.polls[i].work.delivery == d && ClaimStands(s.db, s.polls[i].work);
          StandsMoved(s.db, s'.db, m, s.polls[i].work);
          assert s'.polls[i].work.delivery == d && ClaimStands(s'.db, s'.polls[i].work);
        }
      }
    }
  }

  /** A row keeps its binding, and a bound row is never back to locating or unknown. */
  predicate BindingKept(a: Attempt, b: Attempt) {
    && (a.bound.Some? ==> b.bound == a.bound)
    && (b.bound.Some? ==> !b.status.deployment.Locating? && b.status.deployment != DeploymentStatus.Unknown)
  }

  lemma ManualMoved(s: Sys, s': Sys, m: set<Id>)
    requires Schema(s.db) && Schema(s'.db) && Moved(s.db, s'.db, m) && ManualOk(s)
    requires s'.manual.Keys <= s.manual.Keys && (forall r | r in s'.manual :: s'.manual[r] == s.manual[r]) && s'.mgr == s.mgr
    requires s'.manual == map[] || forall d | d in m && d in s.db.deliveries :: BindingKept(Cur(s.db, d), Cur(s'.db, d))
    ensures ManualOk(s')
  {
    forall r | r in s'.manual && s'.manual[r].delivery in s'.db.deliveries
               && s'.db.deliveries[s'.manual[r].delivery].current == s'.manual[r].attempt
      ensures CurrentlyCompatible(s', s'.manual[r].delivery) && Consistent(s'.manual[r], Cur(s'.db, s'.manual[r].delivery))
    {
      CurMoved(s.db, s'.db, m, s'.manual[r].delivery);
      assert r in s.manual;
    }
    if s.manual == map[] { assert s'.manual == map[]; }
  }

  lemma GenerationMoved(s: Sys, s': Sys, m: set<Id>)
    requires Schema(s.db) && Schema(s'.db) && Moved(s.db, s'.db, m) && GenerationOk(s) && s'.mgr == s.mgr
    requires !s'.phase.Terminating? ==> !s.phase.Terminating?
    requires !s'.phase.Terminating? ==>
      forall d | d in m && d in s.db.deliveries :: ActiveDelivery(s'.db, d) ==> CurrentlyCompatible(s, d)
    ensures GenerationOk(s')
  {
    if !s'.phase.Terminating? {
      forall d | d in s'.db.deliveries && ActiveDelivery(s'.db, d) ensures CurrentlyCompatible(s', d) {
        CurMoved(s.db, s'.db, m, d);
        if d !in m { assert ActiveDelivery(s.db, d); }
        assert CurrentlyCompatible(s, d);
      }
    }
  }

  /** Evidence of a request and its cursor is never erased. */
  predicate EvidenceKept(a: Attempt, b: Attempt) {
    && (a.requestAt.Some? ==> b.requestAt.Some?) && (a.cursor.Some? ==> b.cursor == a.cursor) && b.delivery == a.delivery
  }

  lemma PostsMoved(s: Sys, s': Sys, m: set<Id>)
    requires Schema(s.db) && Schema(s'.db) && Moved(s.db, s'.db, m) && PostsOk(s) && s'.posts == s.posts
    requires s'.disp.Busy? && !s'.disp.stage.Posted? ==> s'.disp.attempt !in s.posts
    requires forall d | d in m && d in s.db.deliveries :: EvidenceKept(Cur(s.db, d), Cur(s'.db, d))
    ensures PostsOk(s')
  {
    forall a | a in s'.posts && a in s'.db.attempts
      ensures s'.db.attempts[a].requestAt.Some?
      ensures s'.db.deliveries[s'.db.attempts[a].delivery].binding.Dokploy? ==> s'.db.attempts[a].cursor.Some?
    {
      var d := s.db.attempts[a].delivery;
      assert d in s.db.deliveries;
      CurMoved(s.db, s'.db, m, d);
    }
  }

  /** Rewrites of rows no dispatcher is concerned with. */
  lemma DispatchMoved(s: Sys, s': Sys, m: set<Id>)
    requires DbOk(s.db) && DbOk(s'.db) && Moved(s.db, s'.db, m) && DispatchOk(s)
    requires s'.disp == s.disp && s'.mgr == s.mgr && (Live(s'.phase) ==> Live(s.phase))
    requires forall d | d in m && d in s.db.deliveries ::
               !Cur(s.db, d).status.transport.Sending? && !Cur(s'.db, d).status.transport.Sending?
    ensures DispatchOk(s')
  {
    if s.disp.Busy? { CurMoved(s.db, s'.db, m, s.disp.delivery); }
    if Live(s'.phase) {
      forall d | d in s'.db.deliveries && Cur(s'.db, d).status.transport.Sending?
        ensures s'.disp.Busy? && s'.disp.delivery == d
      {
        CurMoved(s.db, s'.db, m, d);
      }
    }
  }

  /** The dispatcher rewrites its own row and either moves on to the next stage or lets go of it. */
  lemma DispatchAdvanced(s: Sys, s': Sys)
    requires DbOk(s.db) && DbOk(s'.db) && DispatchOk(s) && s.disp.Busy? && s'.mgr == s.mgr && s'.phase == s.phase
    requires Moved(s.db, s'.db, {s.disp.delivery})
    requires if s'.disp.Resting? then !Cur(s'.db, s.disp.delivery).status.transport.Sending?
             else
               && s'.disp == s.disp.(stage := s'.disp.stage)
               && Cur(s'.db, s.disp.delivery).status.transport.Sending?
               && StageOk(SentBinding(s), Cur(s'.db, s.disp.delivery), s'.disp.stage)
    ensures DispatchOk(s')
  {
    var d := s.disp.delivery;
    CurMoved(s.db, s'.db, {d}, d);
    if Live(s'.phase) {
      forall x | x in s'.db.deliveries && Cur(s'.db, x).status.transport.Sending?
        ensures s'.disp.Busy? && s'.disp.delivery == x
      {
        CurMoved(s.db, s'.db, {d}, x);
      }
    }
  }

  lemma PutStep(db: Db, d: Id, a: Attempt, note: bool)
    requires DbOk(db) && d in db.deliveries && a.delivery == d && RowOk(a) && (note || a.status == Cur(db, d).status)
    ensures DbOk(Put(db, d, a, note)) && Moved(db, Put(db, d, a, note), {d}) && Cur(Put(db, d, a, note), d) == a
  {
    PutFrame(db, d, a, note);
    PutMoves(db, d, a, note);
    PutOk(db, d, a, note);
  }

  // ----- Dispatcher -----

  lemma ClaimKeeps(s: Sys, d: Id, s': Sys)
    requires Inv(s) && Claims(s, d, s')
    ensures Inv(s')
  {
    var a := Cur(s.db, d);
    assert RowOk(a);
    PutStep(s.db, d, SendingRow(a), true);
    MutexClaimed(s.db, s'.db, d);
    PollsReleased(s, s', {d});
    ManualMoved(s, s', {d});
    assert ActiveDelivery(s.db, d);
    GenerationMoved(s, s', {d});
    PostsMoved(s, s', {d});
    ClaimDispatch(s, d, s');
  }

  lemma ClaimDispatch(s: Sys, d: Id, s': Sys)
    requires DbOk(s.db) && DbOk(s'.db) && DispatchOk(s) && Claims(s, d, s') && Moved(s.db, s'.db, {d})
    requires Cur(s'.db, d) == SendingRow(Cur(s.db, d)) && CurrentlyCompatible(s, d)
    ensures DispatchOk(s')
  {
    assert RowOk(Cur(s.db, d));
    CurMoved(s.db, s'.db, {d}, d);
    forall x | x in s'.db.deliveries && Cur(s'.db, x).status.transport.Sending?
      ensures s'.disp.Busy? && s'.disp.delivery == x
    {
      CurMoved(s.db, s'.db, {d}, x);
    }
  }

  /** Common to the four later dispatcher transactions: the row stays with its send or leaves it. */
  ghost predicate SendStep(s: Sys, b: Attempt, note: bool, s': Sys)
    requires Schema(s.db)
  {
    && s.disp.Busy? && SendingStands(s) && RowOk(b) && b.delivery == s.disp.delivery
    && s'.db == Put(s.db, s.disp.delivery, b, note) && (note || b.status == Cur(s.db, s.disp.delivery).status)
    && s' == s.(db := s'.db, disp := s'.disp)
    && b.bound.None? && b.lastPolled.None? && EvidenceKept(Cur(s.db, s.disp.delivery), b)
    && if s'.disp.Resting? then !b.status.transport.Sending?
       else
         && s'.disp == s.disp.(stage := s'.disp.stage) && !s'.disp.stage.Posted? && !s.disp.stage.Posted?
         && b.status.transport.Sending? && StageOk(SentBinding(s), b, s'.disp.stage)
  }

  lemma SendStepRows(s: Sys, b: Attempt, note: bool, s': Sys)
    requires Inv(s) && SendStep(s, b, note, s')
    ensures DbOk(s'.db) && Moved(s.db, s'.db, {s.disp.delivery}) && Cur(s'.db, s.disp.delivery) == b
    ensures Mutex(s'.db) && DispatchOk(s')
  {
    var d := s.disp.delivery;
    assert RowOk(Cur(s.db, d));
    PutStep(s.db, d, b, note);
    MutexMoved(s.db, s'.db, {d});
    DispatchAdvanced(s, s');
  }

  lemma SendStepWork(s: Sys, b: Attempt, note: bool, s': Sys)
    requires Inv(s) && SendStep(s, b, note, s')
    requires DbOk(s'.db) && Moved(s.db, s'.db, {s.disp.delivery}) && Cur(s'.db, s.disp.delivery) == b
    ensures PollsOk(s') && ManualOk(s') && GenerationOk(s') && PostsOk(s')
  {
    var d := s.disp.delivery;
    assert RowOk(Cur(s.db, d)) && ActiveDelivery(s.db, d);
    PollsReleased(s, s', {d});
    ManualMoved(s, s', {d});
    GenerationMoved(s, s', {d});
    PostsMoved(s, s', {d});
  }

  lemma SendStepKeeps(s: Sys, b: Attempt, note: bool, s': Sys)
    requires Inv(s) && SendStep(s, b, note, s')
    ensures Inv(s')
  {
    SendStepRows(s, b, note, s');
    SendStepWork(s, b, note, s');
  }

  lemma FailSendKeeps(s: Sys, s': Sys)
    requires Inv(s) && FailsSend(s, s')
    ensures Inv(s')
  {
    assert RowOk(Cur(s.db, s.disp.delivery));
    SendStepKeeps(s, FailedRow(Cur(s.db, s.disp.delivery)), true, s');
  }

  lemma StoreCursorKeeps(s: Sys, s': Sys)
    requires Inv(s) && StoresCursor(s, s')
    ensures Inv(s')
  {
    assert RowOk(Cur(s.db, s.disp.delivery));
    SendStepKeeps(s, Cur(s.db, s.disp.delivery).(cursor := Some(s.disp.stage.read)), false, s');
  }

  lemma RecordRequestKeeps(s: Sys, json: Json, at: Time, s': Sys)
    requires Inv(s) && RecordsRequest(s, json, at, s')
    ensures Inv(s')
  {
    assert RowOk(Cur(s.db, s.disp.delivery));
    SendStepKeeps(s, Cur(s.db, s.disp.delivery).(request := Some(json), requestAt := Some(Millis(at))), false, s');
  }

  lemma FinishSendKeeps(s: Sys, at: Time, s': Sys)
    requires Inv(s) && FinishesSend(s, at, s')
    ensures Inv(s')
  {
    assert RowOk(Cur(s.db, s.disp.delivery));
    SendStepKeeps(s, OutcomeRow(Cur(s.db, s.disp.delivery), SentBinding(s), s.disp.stage.outcome,
                                Some(s.disp.stage.sent), at, s.disp.gen.targets[s.db.deliveries[s.disp.delivery].target]),
                  true, s');
  }
}
