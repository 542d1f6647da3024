/** Receiving, draining and deleting events keep the invariant. */
module IntakeSteps {
  import opened Domain
  import opened Tables
  import opened Correlation
  import opened Polling
  import opened Intake
  import opened Manual
  import opened Reload
  import opened Protocol
  import opened Invariant

  /** Only the event table, the queue and the record of orders change. */
  lemma EventsOnlyKeeps(s: Sys, s': Sys)
    requires Inv(s) && s' == s.(db := s'.db, used := s'.used, accepted := s'.accepted, routed := s'.routed)
    requires DbOk(s'.db) && s'.db.deliveries == s.db.deliveries && s'.db.attempts == s.db.attempts
    requires s.used <= s'.used && s'.db.events.Keys <= s'.used && OrderOk(s')
    ensures Inv(s')
  {
    forall i | 0 <= i < |s'.polls| ensures WorkOk(s', s'.polls[i]) {
      assert WorkOk(s, s.polls[i]);
    }
    forall d | UnderClaim(s, d) ensures UnderClaim(s', d) {
      var i :| 0 <= i < |s.polls| && s.polls[i].work.delivery == d && ClaimStands(s.db, s.polls[i].work);
      assert s'.polls[i].work.delivery == d;
    }
    forall d | d in s'.db.deliveries && ActiveDelivery(s'.db, d) ensures !s.phase.Terminating? ==> CurrentlyCompatible(s', d) {
      assert ActiveDelivery(s.db, d) && (!s.phase.Terminating? ==> CurrentlyCompatible(s, d));
    }
  }

  // ----- Fan-out -----

  lemma ExtendedCur(db: Db, db': Db, e: Id, items: seq<NewDelivery>, ids: seq<Fresh>, d: Id)
    requires Schema(db) && Schema(db') && |items| == |ids| && Extended(db, db', e, items, ids) && d in db'.deliveries
    ensures d in db.deliveries ==> Cur(db', d) == Cur(db, d)
    ensures d !in db.deliveries ==> exists i :: 0 <= i < |ids| && ids[i].delivery == d && Planted(db', e, items[i], ids[i])
    ensures d !in db.deliveries ==> Cur(db', d) == NewAttempt(d, Initial)
  {
    if d in db.deliveries {
      assert Linked(db, d);
    } else {
      var i := DeliveryIndex(ids, d);
      assert Planted(db', e, items[i], ids[i]);
    }
  }

  lemma ExtendedStands(db: Db, db': Db, e: Id, items: seq<NewDelivery>, ids: seq<Fresh>, w: PollWork, used: set<Id>)
    requires Schema(db) && Schema(db') && |items| == |ids| && Extended(db, db', e, items, ids)
    requires w.delivery in used && AllFresh(ids, used)
    ensures ClaimStands(db', w) <==> ClaimStands(db, w)
    ensures w.delivery in db'.deliveries <==> w.delivery in db.deliveries
  {
    if w.delivery in DeliveryIds(ids) {
      var i := DeliveryIndex(ids, w.delivery);
      assert false;
    }
    if w.delivery in db'.deliveries { ExtendedCur(db, db', e, items, ids, w.delivery); }
  }

  lemma ExtendedPolls(s: Sys, e: Id, items: seq<NewDelivery>, ids: seq<Fresh>, s': Sys)
    requires Inv(s) && DbOk(s'.db) && |items| == |ids| && Extended(s.db, s'.db, e, items, ids) && AllFresh(ids, s.used)
    requires s'.polls == s.polls && s'.mgr == s.mgr && s'.phase == s.phase
    ensures PollsOk(s')
  {
    forall i | 0 <= i < |s'.polls|
      ensures WorkOk(s', s'.polls[i]) && (ClaimStands(s'.db, s.polls[i].work) <==> ClaimStands(s.db, s.polls[i].work))
    {
      assert WorkOk(s, s.polls[i]);
      ExtendedStands(s.db, s'.db, e, items, ids, s.polls[i].work, s.used);
      if ClaimStands(s'.db, s.polls[i].work) { ExtendedCur(s.db, s'.db, e, items, ids, s.polls[i].work.delivery); }
    }
    if Live(s'.phase) {
      forall d | d in s'.db.deliveries && Monitored(Cur(s'.db, d).status.deployment)
        ensures Unclaimed(Cur(s'.db, d)) || UnderClaim(s', d)
      {
        ExtendedCur(s.db, s'.db, e, items, ids, d);
        if !Unclaimed(Cur(s.db, d)) {
          var i :| 0 <= i < |s.polls| && s.polls[i].work.delivery == d && ClaimStands(s.db, s.polls[i].work);
          assert s'.polls[i].work.delivery == d;
        }
      }
    }
  }

  lemma ExtendedMutex(db: Db, db': Db, e: Id, items: seq<NewDelivery>, ids: seq<Fresh>)
    requires Schema(db) && Schema(db') && |items| == |ids| && Extended(db, db', e, items, ids) && Mutex(db)
    ensures Mutex(db')
  {
    forall x, y | x in db'.deliveries && y in db'.deliveries && x != y && Conflict(db'.deliveries[x], db'.deliveries[y])
      ensures !(Holds(Cur(db', x)) && Holds(Cur(db', y)))
    {
      ExtendedCur(db, db', e, items, ids, x);
      ExtendedCur(db, db', e, items, ids, y);
    }
  }

  lemma ExtendedGeneration(s: Sys, e: Id, r: Decision, ids: seq<Fresh>, s': Sys)
    requires Inv(s) && DbOk(s'.db) && |r.deliveries| == |ids| && Extended(s.db, s'.db, e, r.deliveries, ids)
    requires s'.mgr == s.mgr && s'.phase == s.phase && Routes(s.mgr.current, r)
    ensures GenerationOk(s')
  {
    forall d | d in s'.db.deliveries && ActiveDelivery(s'.db, d) ensures !s.phase.Terminating? ==> CurrentlyCompatible(s', d) {
      ExtendedCur(s.db, s'.db, e, r.deliveries, ids, d);
      if d in s.db.deliveries {
        assert ActiveDelivery(s.db, d) && (!s.phase.Terminating? ==> CurrentlyCompatible(s, d));
      } else {
        var i :| 0 <= i < |ids| && ids[i].delivery == d && Planted(s'.db, e, r.deliveries[i], ids[i]);
        assert Compatible(s.mgr.current, r.deliveries[i].target, r.deliveries[i].binding);
      }
    }
  }

  lemma ExtendedDispatch(s: Sys, e: Id, items: seq<NewDelivery>, ids: seq<Fresh>, s': Sys)
    requires Inv(s) && DbOk(s'.db) && |items| == |ids| && Extended(s.db, s'.db, e, items, ids)
    requires s'.mgr == s.mgr && s'.phase == s.phase && s'.disp == s.disp
    ensures DispatchOk(s')
  {
    if s.disp.Busy? { ExtendedCur(s.db, s'.db, e, items, ids, s.disp.delivery); }
    if Live(s'.phase) {
      forall d | d in s'.db.deliveries && Cur(s'.db, d).status.transport.Sending?
        ensures s'.disp.Busy? && s'.disp.delivery == d
      {
        ExtendedCur(s.db, s'.db, e, items, ids, d);
      }
    }
  }

  lemma ExtendedManualAndPosts(s: Sys, e: Id, items: seq<NewDelivery>, ids: seq<Fresh>, s': Sys)
    requires Inv(s) && DbOk(s'.db) && |items| == |ids| && Extended(s.db, s'.db, e, items, ids) && AllFresh(ids, s.used)
    requires s'.mgr == s.mgr && s'.manual == s.manual && s'.posts == s.posts && s'.disp == s.disp
    ensures ManualOk(s') && PostsOk(s')
  {
    forall r | r in s'.manual && s'.manual[r].delivery in s'.db.deliveries
               && s'.db.deliveries[s'.manual[r].delivery].current == s'.manual[r].attempt
      ensures CurrentlyCompatible(s', s'.manual[r].delivery) && Consistent(s'.manual[r], Cur(s'.db, s'.manual[r].delivery))
    {
      var d := s'.manual[r].delivery;
      if d in DeliveryIds(ids) {
        var i := DeliveryIndex(ids, d);
        assert false;
      }
      ExtendedCur(s.db, s'.db, e, items, ids, d);
    }
    forall a | a in s'.posts && a in s'.db.attempts
      ensures s'.db.attempts[a].requestAt.Some?
      ensures s'.db.deliveries[s'.db.attempts[a].delivery].binding.Dokploy? ==> s'.db.attempts[a].cursor.Some?
    {
      if a in AttemptIds(ids) {
        var i := AttemptIndex(ids, a);
        assert false;
      }
      assert s.db.attempts[a].delivery in s.db.deliveries;
    }
  }

  lemma ExtendedKeeps(s: Sys, e: Id, r: Decision, ids: seq<Fresh>, s': Sys)
    requires Inv(s) && DbOk(s'.db) && |r.deliveries| == |ids| && Extended(s.db, s'.db, e, r.deliveries, ids)
    requires AllFresh(ids, s.used) && Routes(s.mgr.current, r)
    requires s' == s.(db := s'.db, used := s.used + DeliveryIds(ids) + AttemptIds(ids))
    ensures Inv(s')
  {
    ExtendedPolls(s, e, r.deliveries, ids, s');
    ExtendedMutex(s.db, s'.db, e, r.deliveries, ids);
    ExtendedGeneration(s, e, r, ids, s');
    ExtendedDispatch(s, e, r.deliveries, ids, s');
    ExtendedManualAndPosts(s, e, r.deliveries, ids, s');
  }

  lemma FreshRelaxes(ids: seq<Fresh>, taken: set<Id>, fewer: set<Id>)
    requires AllFresh(ids, taken) && fewer <= taken
    ensures AllFresh(ids, fewer)
  {
  }

  // ----- The steps -----

  lemma ReceiveKeeps(s: Sys, row: EventRow, supported: bool, r: Decision, e: Id, ids: seq<Fresh>, s': Sys)
    requires Inv(s) && Receives(s, row, supported, r, e, ids, s')
    ensures Inv(s')
  {
    if Duplicate(s.db, row) {
    } else if !supported {
      var stored := row.(routing := Unsupported);
      assert !Duplicate(s.db, stored);
      WithEventOk(s.db, e, stored);
      EventsOnlyKeeps(s, s');
    } else if Defers(s.mgr.mode) {
      ParkedOk(s.db, e, row);
      assert QueueIds(s'.db.queue) == QueueIds(s.db.queue) + [e];
      EventsOnlyKeeps(s, s');
    } else {
      RoutedKeeps(s, row, r, e, ids, s');
    }
  }

  lemma RoutedKeeps(s: Sys, row: EventRow, r: Decision, e: Id, ids: seq<Fresh>, s': Sys)
    requires Inv(s) && Receives(s, row, true, r, e, ids, s') && !Duplicate(s.db, row) && !Defers(s.mgr.mode)
    ensures Inv(s')
  {
    var stored := row.(routing := r.result);
    assert !Duplicate(s.db, stored);
    WithEventOk(s.db, e, stored);
    var s1 := s.(db := WithEvent(s.db, e, stored), used := s.used + {e}, accepted := s.accepted + [e], routed := s.routed + [e]);
    assert s.db.queue == [] && QueueIds(s.db.queue) == [];
    EventsOnlyKeeps(s, s1);
    FreshRelaxes(ids, s1.used, s1.db.deliveries.Keys + s1.db.attempts.Keys);
    AddAllOk(s1.db, e, r.deliveries, ids, row.receivedAt);
    ExtendedKeeps(s1, e, r, ids, s');
  }

  lemma DequeuedKeeps(s: Sys, result: RoutingResult, s1: Sys)
    requires Inv(s) && s.db.queue != [] && !result.Deferred? && s.phase.Serving? && s.mgr.mode.Draining?
    requires s1 == s.(db := Dequeued(s.db, result), routed := s.routed + [s.db.queue[0].event])
    ensures Inv(s1)
  {
    var e := s.db.queue[0].event;
    DequeuedOk(s.db, result);
    assert QueueIds(s.db.queue) == [e] + QueueIds(s1.db.queue);
    assert s1.routed + QueueIds(s1.db.queue) == s.routed + ([e] + QueueIds(s1.db.queue));
    EventsOnlyKeeps(s, s1);
  }

  lemma DrainKeeps(s: Sys, r: Decision, ids: seq<Fresh>, s': Sys)
    requires Inv(s) && Drains(s, r, ids, s')
    ensures Inv(s')
  {
    var e := s.db.queue[0].event;
    var s1 := s.(db := Dequeued(s.db, r.result), routed := s.routed + [e]);
    DequeuedKeeps(s, r.result, s1);
    FreshRelaxes(ids, s1.used, s1.db.deliveries.Keys + s1.db.attempts.Keys);
    AddAllOk(s1.db, e, r.deliveries, ids, s.db.events[e].receivedAt);
    ExtendedKeeps(s1, e, r, ids, s');
  }

  // ----- Deletion -----

  lemma DeleteKeeps(s: Sys, es: set<Id>, s': Sys)
    requires Inv(s) && Step(s, DeleteEvents(es), s')
    ensures Inv(s')
  {
    forall e | e in es && e in s.db.events ensures !s.db.events[e].routing.Deferred? { assert Erasable(s.db, e); }
    RemoveOk(s.db, es);
    forall d | d in s.db.deliveries && ActiveDelivery(s.db, d) ensures d in s'.db.deliveries {
    }
    DeletedKeeps(s, s');
  }

  lemma DeletedKeeps(s: Sys, s': Sys)
    requires Inv(s) && DbOk(s'.db) && s' == s.(db := s'.db) && s'.db.queue == s.db.queue
    requires s'.db.events.Keys <= s.db.events.Keys
    requires s'.db.deliveries.Keys <= s.db.deliveries.Keys && s'.db.attempts.Keys <= s.db.attempts.Keys
    requires forall d | d in s'.db.deliveries :: s'.db.deliveries[d] == s.db.deliveries[d] && Cur(s'.db, d) == Cur(s.db, d)
    requires forall a | a in s'.db.attempts :: s'.db.attempts[a] == s.db.attempts[a]
    requires forall d | d in s.db.deliveries && ActiveDelivery(s.db, d) :: d in s'.db.deliveries
    ensures Inv(s')
  {
    DeletedPolls(s, s');
    forall d | d in s'.db.deliveries && ActiveDelivery(s'.db, d) ensures !s.phase.Terminating? ==> CurrentlyCompatible(s', d) {
      assert ActiveDelivery(s.db, d) && (!s.phase.Terminating? ==> CurrentlyCompatible(s, d));
    }
    if s.disp.Busy? { assert ActiveDelivery(s.db, s.disp.delivery); }
    forall a | a in s'.posts && a in s'.db.attempts
      ensures s'.db.attempts[a].requestAt.Some?
      ensures s'.db.deliveries[s'.db.attempts[a].delivery].binding.Dokploy? ==> s'.db.attempts[a].cursor.Some?
    {
      assert s'.db.attempts[a].delivery in s'.db.deliveries;
    }
  }

  lemma DeletedPolls(s: Sys, s': Sys)
    requires Inv(s) && DbOk(s'.db) && s' == s.(db := s'.db)
    requires s'.db.deliveries.Keys <= s.db.deliveries.Keys
    requires forall d | d in s'.db.deliveries :: s'.db.deliveries[d] == s.db.deliveries[d] && Cur(s'.db, d) == Cur(s.db, d)
    ensures PollsOk(s')
  {
    forall i | 0 <= i < |s'.polls|
      ensures WorkOk(s', s'.polls[i])
      ensures s.polls[i].work.delivery in s'.db.deliveries ==> (ClaimStands(s'.db, s.polls[i].work) <==> ClaimStands(s.db, s.polls[i].work))
    {
      assert WorkOk(s, s.polls[i]);
      if s.polls[i].work.delivery in s'.db.deliveries { assert Linked(s.db, s.polls[i].work.delivery); }
    }
    if Live(s'.phase) {
      forall d | d in s'.db.deliveries && Monitored(Cur(s'.db, d).status.deployment)
        ensures Unclaimed(Cur(s'.db, d)) || UnderClaim(s', d)
      {
        if !Unclaimed(Cur(s.db, d)) {
          var i :| 0 <= i < |s.polls| && s.polls[i].work.delivery == d && ClaimStands(s.db, s.polls[i].work);
          assert s'.polls[i].work.delivery == d;
        }
      }
    }
  }
}
