/** Which events the list shows and which event a detail request lands on: internal/store/query.go. */
module Lifecycle {
  import opened Domain
  import opened Tables
  import opened Retention

  predicate Given(x: Option<string>) { x.Some? && x.value != "" }

  /** A pipeline notification that names its pipeline. */
  predicate Identified(r: EventRow) { r.event == "pipeline" && Given(r.externalId) }

  predicate SamePipeline(x: EventRow, y: EventRow) {
    x.provider == y.provider && x.source == y.source && x.repository == y.repository
    && x.event == "pipeline" && y.event == "pipeline" && x.externalId == y.externalId
  }

  predicate HasDelivery(db: Db, e: Id) { exists d :: d in db.deliveries && db.deliveries[d].event == e }

  /** A push that only announces a revision: nothing was delivered for it. */
  predicate BarePush(db: Db, e: Id)
    requires e in db.events
  {
    db.events[e].event == "push" && Given(db.events[e].revision) && !HasDelivery(db, e)
  }

  /** Pipeline p was triggered by push e: same ref and revision, and not a notification seen before the push. */
  predicate Continues(db: Db, e: Id, p: Id)
    requires e in db.events && p in db.events
  {
    var x, y := db.events[e], db.events[p];
    && y.provider == x.provider && y.source == x.source && y.repository == x.repository
    && Identified(y) && y.trigger == Some("push") && Given(y.revision) && y.revision == x.revision && y.ref == x.ref
    && y.receivedAt >= x.receivedAt
    && forall q | q in db.events && SamePipeline(db.events[q], y) :: db.events[q].receivedAt >= x.receivedAt
  }

  // ----- The list -----

  /** The two clauses of eventWhere that apply without any filter. */
  predicate Visible(db: Db, e: Id)
    requires e in db.events
  {
    && (Identified(db.events[e]) ==>
          forall n | n in db.events && SamePipeline(db.events[n], db.events[e]) :: !NewerThan(db, n, e))
    && (BarePush(db, e) ==> forall p | p in db.events :: !Continues(db, e, p))
  }

  // ----- The detail -----

  function Notifications(db: Db, e: Id): (r: set<Id>)
    requires e in db.events
    ensures r <= db.events.Keys
  {
    set n | n in db.events && SamePipeline(db.events[n], db.events[e])
  }

  function Continuations(db: Db, e: Id): (r: set<Id>)
    requires e in db.events
    ensures r <= db.events.Keys
  {
    set p | p in db.events && Continues(db, e, p)
  }

  /** ORDER BY received_at DESC, id DESC LIMIT 1. */
  ghost predicate IsNewestOf(db: Db, s: set<Id>, m: Id)
    requires s <= db.events.Keys
  {
    m in s && forall x | x in s && x != m :: NewerThan(db, m, x)
  }

  lemma NewestIsOne(db: Db, s: set<Id>, x: Id, y: Id)
    requires s <= db.events.Keys && IsNewestOf(db, s, x) && IsNewestOf(db, s, y)
    ensures x == y
  {
    NewerOrders(db, x, y, x);
  }

  /** Where currentLifecycleEventID lands. */
  ghost predicate ResolvesTo(db: Db, e: Id, r: Id)
    requires e in db.events
  {
    if Identified(db.events[e]) then IsNewestOf(db, Notifications(db, e), r)
    else if BarePush(db, e) && Continuations(db, e) != {} then IsNewestOf(db, Continuations(db, e), r)
    else r == e
  }

  /** x and y are notifications of one pipeline. */
  predicate OnePipeline(x: EventRow, y: EventRow) {
    && x.event == "pipeline" && y.event == "pipeline" && x.externalId == y.externalId
    && x.provider == y.provider && x.source == y.source && x.repository == y.repository
  }

  /** p reports a pipeline that push e started: same ref and revision, and nothing of it came in before the push. */
  predicate StartedBy(db: Db, e: Id, p: Id)
    requires e in db.events && p in db.events
  {
    var x, y := db.events[e], db.events[p];
    && y.event == "pipeline" && y.externalId !in {None, Some("")} && y.trigger == Some("push")
    && y.revision !in {None, Some("")} && y.revision == x.revision && y.ref == x.ref
    && y.provider == x.provider && y.source == x.source && y.repository == x.repository && x.receivedAt <= y.receivedAt
    && forall q | q in db.events && OnePipeline(db.events[q], y) :: x.receivedAt <= db.events[q].receivedAt
  }

  /** A push with a revision for which nothing was delivered. */
  predicate WaitingPush(db: Db, e: Id)
    requires e in db.events
  {
    && db.events[e].event == "push" && db.events[e].revision !in {None, Some("")}
    && forall d | d in db.deliveries :: db.deliveries[d].event != e
  }

  /** x came in after y; of two that came in together the one with the greater id counts as later. */
  predicate CameAfter(db: Db, x: Id, y: Id)
    requires x in db.events && y in db.events
  {
    db.events[x].receivedAt > db.events[y].receivedAt || (db.events[x].receivedAt == db.events[y].receivedAt && x > y)
  }

  /**
   * Where a detail request lands: on the latest notification of a named pipeline, for a waiting push on the latest
   * notification of a pipeline it started, otherwise on the event asked for.
   */
  ghost predicate LandsOn(db: Db, e: Id, r: Id)
    requires e in db.events
  {
    && r in db.events
    && if db.events[e].event == "pipeline" && db.events[e].externalId !in {None, Some("")} then
         && OnePipeline(db.events[r], db.events[e])
         && forall x | x in db.events && OnePipeline(db.events[x], db.events[e]) && x != r :: CameAfter(db, r, x)
       else if WaitingPush(db, e) && exists p | p in db.events :: StartedBy(db, e, p) then
         && StartedBy(db, e, r) && forall x | x in db.events && StartedBy(db, e, x) && x != r :: CameAfter(db, r, x)
       else r == e
  }

  lemma ResolutionLands(db: Db, e: Id, r: Id)
    requires e in db.events && ResolvesTo(db, e, r)
    ensures LandsOn(db, e, r)
  {
    forall x, y | x in db.events && y in db.events
      ensures NewerThan(db, x, y) <==> CameAfter(db, x, y)
      ensures SamePipeline(db.events[x], db.events[y]) <==> OnePipeline(db.events[x], db.events[y])
    {
    }
    assert BarePush(db, e) <==> WaitingPush(db, e);
    forall p | p in db.events ensures Continues(db, e, p) <==> StartedBy(db, e, p) { ContinuesIs(db, e, p); }
    if Identified(db.events[e]) {
      forall x | x in db.events && OnePipeline(db.events[x], db.events[e]) && x != r ensures CameAfter(db, r, x) {
        assert x in Notifications(db, e);
      }
    } else if BarePush(db, e) {
      if Continuations(db, e) != {} {
        forall x | x in db.events && StartedBy(db, e, x) && x != r ensures CameAfter(db, r, x) {
          assert x in Continuations(db, e);
        }
      } else {
        forall p | p in db.events ensures !StartedBy(db, e, p) { assert p !in Continuations(db, e); }
      }
    }
  }

  lemma ContinuesIs(db: Db, e: Id, p: Id)
    requires e in db.events && p in db.events
    ensures Continues(db, e, p) <==> StartedBy(db, e, p)
  {
    forall q | q in db.events ensures SamePipeline(db.events[q], db.events[p]) <==> OnePipeline(db.events[q], db.events[p]) {}
  }

  /** What the list shows: the latest notification of a named pipeline, and a push until a pipeline it started takes over. */
  ghost predicate IsListed(db: Db, e: Id)
    requires e in db.events
  {
    && (db.events[e].event == "pipeline" && db.events[e].externalId !in {None, Some("")} ==>
          forall x | x in db.events && OnePipeline(db.events[x], db.events[e]) :: !CameAfter(db, x, e))
    && (WaitingPush(db, e) ==> forall p | p in db.events :: !StartedBy(db, e, p))
  }

  lemma VisibleIsListed(db: Db, e: Id)
    requires e in db.events
    ensures Visible(db, e) <==> IsListed(db, e)
  {
    forall x | x in db.events
      ensures NewerThan(db, x, e) <==> CameAfter(db, x, e)
      ensures SamePipeline(db.events[x], db.events[e]) <==> OnePipeline(db.events[x], db.events[e])
    {
    }
    assert BarePush(db, e) <==> WaitingPush(db, e);
    forall p | p in db.events ensures Continues(db, e, p) <==> StartedBy(db, e, p) { ContinuesIs(db, e, p); }
  }

  method CurrentLifecycleEvent(db: Db, e: Id) returns (r: Id)
    requires e in db.events
    ensures r in db.events && ResolvesTo(db, e, r) && LandsOn(db, e, r)
  {
    forall x | x in db.events && ResolvesTo(db, e, x) ensures LandsOn(db, e, x) { ResolutionLands(db, e, x); }
    if Identified(db.events[e]) {
      assert e in Notifications(db, e);
      r := SelectNewest(db, Notifications(db, e));
      return;
    }
    if BarePush(db, e) && Continuations(db, e) != {} {
      r := SelectNewest(db, Continuations(db, e));
      return;
    }
    return e;
  }

  method SelectNewest(db: Db, s: set<Id>) returns (r: Id)
    requires s <= db.events.Keys && s != {}
    ensures IsNewestOf(db, s, r)
  {
    ghost var m := NewestOne(db, s);
    assert IsNewestOf(db, s, m);
    r :| r in s && forall x | x in s && x != r :: NewerThan(db, r, x);
  }

  /** Resolution always lands on exactly one event. */
  lemma ResolutionIsUnique(db: Db, e: Id, x: Id, y: Id)
    requires e in db.events && ResolvesTo(db, e, x) && ResolvesTo(db, e, y)
    ensures x == y && x in db.events
  {
    if Identified(db.events[e]) { NewestIsOne(db, Notifications(db, e), x, y); }
    else if BarePush(db, e) && Continuations(db, e) != {} { NewestIsOne(db, Continuations(db, e), x, y); }
  }

  // ----- List and detail agree -----

  /** An event is listed exactly when its own detail shows it. */
  lemma ListedIffResolvesToItself(db: Db, e: Id)
    requires e in db.events
    ensures Visible(db, e) <==> ResolvesTo(db, e, e)
  {
    forall x, y | x in db.events && y in db.events
      ensures !NewerThan(db, x, x) && (x == y || NewerThan(db, x, y) || NewerThan(db, y, x)) && !(NewerThan(db, x, y) && NewerThan(db, y, x))
    {
      NewerOrders(db, x, y, x);
    }
    if BarePush(db, e) {
      NothingContinues(db, e);
      if Continuations(db, e) != {} { assert !ResolvesTo(db, e, e); }
    }
  }

  lemma NothingContinues(db: Db, e: Id)
    requires e in db.events && BarePush(db, e)
    ensures (Continuations(db, e) == {}) <==> forall p | p in db.events :: !Continues(db, e, p)
    ensures e !in Continuations(db, e)
  {
    if forall p | p in db.events :: !Continues(db, e, p) { assert Continuations(db, e) == {}; }
    forall p | p in db.events && Continues(db, e, p) ensures Continuations(db, e) != {} { assert p in Continuations(db, e); }
  }

  /** What resolution lands on from a bare push names its pipeline, so one further resolution is final. */
  lemma ResolvingTwiceLandsOnListed(db: Db, e: Id, r: Id, s: Id)
    requires e in db.events && ResolvesTo(db, e, r) && r in db.events && ResolvesTo(db, r, s)
    ensures s in db.events && Visible(db, s)
  {
    if Identified(db.events[r]) {
      NewestNotificationIsListed(db, r, s);
    } else {
      UnidentifiedStays(db, e, r);
      ListedIffResolvesToItself(db, r);
      ResolutionIsUnique(db, r, r, s);
    }
  }

  lemma NewestNotificationIsListed(db: Db, e: Id, s: Id)
    requires e in db.events && Identified(db.events[e]) && IsNewestOf(db, Notifications(db, e), s)
    ensures s in db.events && Visible(db, s) && SamePipeline(db.events[s], db.events[e])
  {
    forall n | n in db.events && SamePipeline(db.events[n], db.events[s]) ensures !NewerThan(db, n, s) {
      assert n in Notifications(db, e);
      NewerOrders(db, s, n, s);
    }
  }

  /** If a resolved event does not name a pipeline, the request was for that event itself. */
  lemma UnidentifiedStays(db: Db, e: Id, r: Id)
    requires e in db.events && r in db.events && ResolvesTo(db, e, r) && !Identified(db.events[r])
    ensures r == e
  {
  }

  /** A pipeline that names itself has exactly one listed event: its newest. */
  lemma OneListedPerPipeline(db: Db, e: Id) returns (v: Id)
    requires e in db.events && Identified(db.events[e])
    ensures v in db.events && SamePipeline(db.events[v], db.events[e]) && Visible(db, v)
    ensures forall x | x in db.events && SamePipeline(db.events[x], db.events[e]) && Visible(db, x) :: x == v
  {
    assert e in Notifications(db, e);
    v := NewestOne(db, Notifications(db, e));
    NewestNotificationIsListed(db, e, v);
    forall x | x in db.events && SamePipeline(db.events[x], db.events[e]) && Visible(db, x) ensures x == v {
      assert SamePipeline(db.events[v], db.events[x]);
    }
  }

  // ----- Resolving once -----

  ghost predicate NewestContinuation(db: Db, e: Id, p: Id)
    requires e in db.events && p in db.events
  {
    Continues(db, e, p) && forall q | q in db.events && Continues(db, e, q) && q != p :: NewerThan(db, p, q)
  }

  /** n came in after everything that continues e. */
  ghost predicate AfterAll(db: Db, e: Id, n: Id)
    requires e in db.events && n in db.events
  {
    forall q | q in db.events && Continues(db, e, q) :: NewerThan(db, n, q)
  }

  predicate CarriesPush(x: EventRow, push: EventRow) {
    x.trigger == Some("push") && x.revision == push.revision && x.ref == push.ref
  }

  /**
   * Of e and the events before any resolution: no notification of the pipeline that continues e last, received after
   * everything that continues e, has dropped the trigger, the revision or the ref of the push.
   */
  ghost predicate PipelineKeepsToPush(db: Db, e: Id)
    requires e in db.events
  {
    forall p, n | p in db.events && n in db.events && NewestContinuation(db, e, p)
                  && SamePipeline(db.events[n], db.events[p]) && AfterAll(db, e, n) :: CarriesPush(db.events[n], db.events[e])
  }

  /** The detail of an event is listed if and only if the event is no bare push, or its pipeline keeps to the push. */
  lemma ResolvingOnceLandsOnListedIff(db: Db, e: Id, r: Id)
    requires e in db.events && ResolvesTo(db, e, r)
    ensures r in db.events && (Visible(db, r) <==> (BarePush(db, e) ==> PipelineKeepsToPush(db, e)))
  {
    if Identified(db.events[e]) {
      NewestNotificationIsListed(db, e, r);
    } else if BarePush(db, e) && Continuations(db, e) != {} {
      ResolvedPush(db, e, r);
    } else {
      ListedIffResolvesToItself(db, e);
      if BarePush(db, e) { NothingContinues(db, e); }
    }
  }

  lemma ResolvedPush(db: Db, e: Id, r: Id)
    requires e in db.events && BarePush(db, e) && IsNewestOf(db, Continuations(db, e), r)
    ensures r in db.events && (Visible(db, r) <==> PipelineKeepsToPush(db, e))
  {
    assert Continues(db, e, r) && NewestContinuation(db, e, r) by {
      forall q | q in db.events && Continues(db, e, q) && q != r ensures NewerThan(db, r, q) { assert q in Continuations(db, e); }
    }
    if PipelineKeepsToPush(db, e) {
      forall n | n in db.events && SamePipeline(db.events[n], db.events[r]) ensures !NewerThan(db, n, r) {
        NewerOrders(db, n, r, n);
        if NewerThan(db, n, r) { NewerThanAll(db, e, r, n); }
      }
    } else {
      var p, n :| p in db.events && n in db.events && NewestContinuation(db, e, p)
                  && SamePipeline(db.events[n], db.events[p]) && AfterAll(db, e, n) && !CarriesPush(db.events[n], db.events[e]);
      NewerOrders(db, p, r, p);
      assert NewerThan(db, n, r);
    }
  }

  lemma NewerThanAll(db: Db, e: Id, r: Id, n: Id)
    requires e in db.events && r in db.events && n in db.events && NewestContinuation(db, e, r) && NewerThan(db, n, r)
    ensures AfterAll(db, e, n)
  {
    forall q | q in db.events && Continues(db, e, q) ensures NewerThan(db, n, q) { NewerOrders(db, n, r, q); }
  }

  /** Where a provider reports every pipeline with one trigger, revision and ref, resolving once always suffices. */
  lemma SteadyPipelinesNeedOneResolution(db: Db, e: Id, r: Id)
    requires e in db.events && ResolvesTo(db, e, r)
    requires forall x, y | x in db.events && y in db.events && SamePipeline(db.events[x], db.events[y]) ::
               && db.events[x].trigger == db.events[y].trigger && db.events[x].revision == db.events[y].revision
               && db.events[x].ref == db.events[y].ref
    ensures r in db.events && Visible(db, r)
  {
    ResolvingOnceLandsOnListedIff(db, e, r);
  }

  /** The failing case: a push, its pipeline, and a later notification of the same pipeline without a trigger. */
  lemma ResolvingOnceCanMiss(push: EventRow, first: EventRow, later: EventRow)
    requires push.event == "push" && Given(push.revision) && push.receivedAt == 1
    requires Identified(first) && first.trigger == Some("push") && first.revision == push.revision && first.ref == push.ref
    requires first.provider == push.provider && first.source == push.source && first.repository == push.repository && first.receivedAt == 2
    requires later == first.(trigger := None, receivedAt := 3)
    ensures var db := EMPTY.(events := map[1 := push, 2 := first, 3 := later]);
            ResolvesTo(db, 1, 2) && !Visible(db, 2) && ResolvesTo(db, 2, 3) && Visible(db, 3)
  {
    var db := EMPTY.(events := map[1 := push, 2 := first, 3 := later]);
    assert BarePush(db, 1) && Continues(db, 1, 2) && !Continues(db, 1, 3);
    assert Continuations(db, 1) == {2};
    assert NewerThan(db, 3, 2);
    assert Notifications(db, 2) == {2, 3};
  }
}
