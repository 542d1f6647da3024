/** Correlation is exact: an attempt is only ever bound to the deployment its own POST created. */
module Exactness {
  import opened Domain
  import opened Tables
  import opened Correlation
  import opened Polling
  import opened Intake
  import opened Manual
  import opened Reload
  import opened Protocol
  import opened Invariant
  import opened RowSteps

  predicate KnownId(s: Sys, c: DeploymentId) { c == "" || c in s.born }

  predicate Own(s: Sys, x: DeploymentId, a: Id) { x in s.born && s.born[x] == a }

  /** As long as the cursor is still in the history, everything newer belongs to the attempt. */
  ghost predicate Owned(s: Sys, res: string, c: DeploymentId, a: Id) {
    Reaches(HistoryOf(s, res), c) ==>
      forall i | 0 <= i < Stop(HistoryOf(s, res), c) :: Own(s, HistoryOf(s, res)[i].id, a)
  }

  /** As long as the cursor is still in the history, nothing is newer. */
  predicate Clear(s: Sys, res: string, c: DeploymentId) {
    Reaches(HistoryOf(s, res), c) ==> Stop(HistoryOf(s, res), c) == 0
  }

  ghost predicate RemoteExact(s: Sys) {
    forall res: string, i | 0 <= i < |HistoryOf(s, res)| ::
      && HistoryOf(s, res)[i].id != "" && HistoryOf(s, res)[i].id in s.born
      && Honest(HistoryOf(s, res)[i], s.born[HistoryOf(s, res)[i].id])
  }

  predicate RowExact(s: Sys, id: Id, a: Attempt) {
    && (a.bound.Some? ==> Own(s, a.bound.value, id))
    && (a.cursor.Some? ==> KnownId(s, a.cursor.value))
  }

  /** The fence around a send: until it is bound, no other send on its resource can have created anything. */
  ghost predicate Fenced(s: Sys, x: Delivery, a: Attempt) {
    x.binding.Dokploy? && Holds(a) && a.cursor.Some? ==> Owned(s, x.binding.resource, a.cursor.value, x.current)
  }

  ghost predicate DispatchExact(s: Sys)
    requires Schema(s.db)
  {
    s.disp.Busy? && s.disp.delivery in s.db.deliveries && s.db.deliveries[s.disp.delivery].binding.Dokploy? ==>
      var res := s.db.deliveries[s.disp.delivery].binding.resource;
      var a := Cur(s.db, s.disp.delivery);
      match s.disp.stage
      case CursorRead(c) => KnownId(s, c) && Clear(s, res, c)
      case CursorStored => a.cursor.Some? ==> Clear(s, res, a.cursor.value)
      case Recorded(_) => a.cursor.Some? ==> Clear(s, res, a.cursor.value)
      case _ => true
  }

  ghost predicate WorkExact(s: Sys, p: InFlight) {
    ClaimStands(s.db, p.work) && p.looked.Some? && p.looked.value.Found? ==> Own(s, p.looked.value.entry.id, p.work.attempt)
  }

  predicate UpdateExact(s: Sys, u: ManualUpdate) {
    u.correct && u.bound.Some? ==> Own(s, u.bound.value, u.attempt)
  }

  ghost predicate Exact(s: Sys)
    requires Schema(s.db)
  {
    && RemoteExact(s)
    && (forall a | a in s.db.attempts :: RowExact(s, a, s.db.attempts[a]))
    && (forall d | d in s.db.deliveries :: Fenced(s, s.db.deliveries[d], Cur(s.db, d)))
    && DispatchExact(s)
    && (forall i | 0 <= i < |s.polls| :: WorkExact(s, s.polls[i]))
    && (forall r | r in s.manual :: UpdateExact(s, s.manual[r]))
  }

  /**
   * The condition exactness rests on: deliveries carry a dispatch key, and within one generation a remote
   * resource is reached through one binding only (no second tunnel to the same resource).
   */
  ghost predicate Separated(s: Sys) {
    && (forall d | d in s.db.deliveries && s.db.deliveries[d].binding.Dokploy? :: s.db.deliveries[d].key.Some?)
    && OneWay(s.mgr.current)
  }

  ghost predicate OneWay(g: Generation) {
    forall t, u | t in g.targets && u in g.targets && g.targets[t].binding.Dokploy? && g.targets[u].binding.Dokploy?
                  && g.targets[t].binding.resource == g.targets[u].binding.resource :: g.targets[t].binding == g.targets[u].binding
  }

  // ----- Row rewrites -----

  lemma RowsExact(s: Sys, s': Sys, m: set<Id>)
    requires Schema(s.db) && Schema(s'.db) && Exact(s) && Moved(s.db, s'.db, m) && s'.remote == s.remote && s'.born == s.born
    requires forall d | d in m && d in s.db.deliveries ::
               RowExact(s, s.db.deliveries[d].current, Cur(s'.db, d)) && Fenced(s, s.db.deliveries[d], Cur(s'.db, d))
    requires DispatchExact(s')
    requires forall i | 0 <= i < |s'.polls| :: WorkExact(s', s'.polls[i])
    requires forall r | r in s'.manual :: r in s.manual && s'.manual[r] == s.manual[r]
    ensures Exact(s')
  {
    assert forall res :: HistoryOf(s', res) == HistoryOf(s, res);
    forall d | d in s'.db.deliveries ensures Fenced(s', s'.db.deliveries[d], Cur(s'.db, d)) {
      CurMoved(s.db, s'.db, m, d);
      assert Fenced(s, s.db.deliveries[d], Cur(s'.db, d));
    }
    forall a | a in s'.db.attempts ensures RowExact(s', a, s'.db.attempts[a]) {
      assert RowExact(s, a, s.db.attempts[a]);
      if s'.db.attempts[a] != s.db.attempts[a] {
        assert RowExact(s, a, Cur(s'.db, s.db.attempts[a].delivery));
      }
    }
  }

  /** Works on rows that lose their claim, or keep it untouched, stay exact. */
  lemma WorkMoved(s: Sys, s': Sys, m: set<Id>, p: InFlight)
    requires Schema(s.db) && Schema(s'.db) && Moved(s.db, s'.db, m) && s'.born == s.born
    requires WorkExact(s, p) && (p.work.delivery in m && p.work.delivery in s.db.deliveries ==> !ClaimStands(s'.db, p.work))
    ensures WorkExact(s', p)
  {
    StandsMoved(s.db, s'.db, m, p.work);
  }

  /** The row keeps its cursor and its binding, and does not start holding the resource. */
  predicate Inert(a: Attempt, b: Attempt) {
    b.cursor == a.cursor && b.bound == a.bound && (Holds(b) ==> Holds(a) || a.cursor.None?) && b.lastPolled.None?
  }

  lemma InertExact(s: Sys, s': Sys, m: set<Id>)
    requires Schema(s.db) && Schema(s'.db) && Exact(s) && Moved(s.db, s'.db, m) && s'.remote == s.remote && s'.born == s.born
    requires forall d | d in m && d in s.db.deliveries :: Inert(Cur(s.db, d), Cur(s'.db, d))
    requires s'.polls == s.polls && s'.manual == s.manual && DispatchExact(s')
    ensures Exact(s')
  {
    forall d | d in m && d in s.db.deliveries
      ensures RowExact(s, s.db.deliveries[d].current, Cur(s'.db, d)) && Fenced(s, s.db.deliveries[d], Cur(s'.db, d))
    {
      assert RowExact(s, s.db.deliveries[d].current, Cur(s.db, d)) && Fenced(s, s.db.deliveries[d], Cur(s.db, d));
      assert Inert(Cur(s.db, d), Cur(s'.db, d));
    }
    forall i | 0 <= i < |s'.polls| ensures WorkExact(s', s'.polls[i]) {
      WorkMoved(s, s', m, s.polls[i]);
    }
    RowsExact(s, s', m);
  }

  lemma ClaimExact(s: Sys, d: Id, s': Sys)
    requires Inv(s) && Inv(s') && Exact(s) && Claims(s, d, s')
    ensures Exact(s')
  {
    assert RowOk(Cur(s.db, d));
    PutStep(s.db, d, SendingRow(Cur(s.db, d)), true);
    InertExact(s, s', {d});
  }

  lemma FailSendExact(s: Sys, s': Sys)
    requires Inv(s) && Inv(s') && Exact(s) && FailsSend(s, s')
    ensures Exact(s')
  {
    assert RowOk(Cur(s.db, s.disp.delivery));
    PutStep(s.db, s.disp.delivery, FailedRow(Cur(s.db, s.disp.delivery)), true);
    InertExact(s, s', {s.disp.delivery});
  }

  lemma RecordRequestExact(s: Sys, json: Json, at: Time, s': Sys)
    requires Inv(s) && Inv(s') && Exact(s) && RecordsRequest(s, json, at, s')
    ensures Exact(s')
  {
    var d := s.disp.delivery;
    assert RowOk(Cur(s.db, d));
    PutStep(s.db, d, Cur(s.db, d).(request := Some(json), requestAt := Some(Millis(at))), false);
    InertExact(s, s', {d});
  }

  lemma FinishSendExact(s: Sys, at: Time, s': Sys)
    requires Inv(s) && Inv(s') && Exact(s) && FinishesSend(s, at, s')
    ensures Exact(s')
  {
    var d := s.disp.delivery;
    var a := Cur(s.db, d);
    assert RowOk(a);
    var b := OutcomeRow(a, SentBinding(s), s.disp.stage.outcome, Some(s.disp.stage.sent), at,
                        s.disp.gen.targets[s.db.deliveries[d].target]);
    PutStep(s.db, d, b, true);
    assert Inert(a, b);
    InertExact(s, s', {d});
  }

  lemma TerminateExact(s: Sys, d: Id, s': Sys)
    requires Inv(s) && Inv(s') && Exact(s) && Terminates(s, d, s')
    ensures Exact(s')
  {
    assert RowOk(Cur(s.db, d));
    PutStep(s.db, d, TerminatedRow(Cur(s.db, d)), true);
    InertExact(s, s', {d});
  }

  lemma StoreCursorExact(s: Sys, s': Sys)
    requires Inv(s) && Inv(s') && Exact(s) && StoresCursor(s, s')
    ensures Exact(s')
  {
    var d := s.disp.delivery;
    var a := Cur(s.db, d);
    var b := a.(cursor := Some(s.disp.stage.read));
    assert RowOk(a) && RowExact(s, s.db.deliveries[d].current, a);
    PutStep(s.db, d, b, false);
    forall i | 0 <= i < |s'.polls| ensures WorkExact(s', s'.polls[i]) {
      WorkMoved(s, s', {d}, s.polls[i]);
    }
    assert s'.db.deliveries[d].binding == s.db.deliveries[d].binding;
    RowsExact(s, s', {d});
  }

  // ----- Remote -----

  /** The history changes in one resource, to a version that agrees with a prefix of the old one. */
  lemma ShrunkExact(s: Sys, res: string, h: History, s': Sys)
    requires Schema(s.db) && Exact(s) && s' == s.(remote := s.remote[res := h])
    requires |h| <= |HistoryOf(s, res)| && forall i | 0 <= i < |h| :: h[i].id == HistoryOf(s, res)[i].id
    requires forall i | 0 <= i < |h| :: h[i].id in s.born ==> Honest(h[i], s.born[h[i].id])
    ensures Exact(s')
  {
    var old_ := HistoryOf(s, res);
    assert forall r | r != res :: HistoryOf(s', r) == HistoryOf(s, r);
    assert RemoteExact(s');
    forall c: DeploymentId, a: Id ensures Owned(s, res, c, a) ==> Owned(s', res, c, a) {
      StopPrefix(old_, h, c);
    }
    forall c: DeploymentId ensures Clear(s, res, c) ==> Clear(s', res, c) {
      StopPrefix(old_, h, c);
    }
    forall d | d in s'.db.deliveries ensures Fenced(s', s'.db.deliveries[d], Cur(s'.db, d)) {
      assert Fenced(s, s.db.deliveries[d], Cur(s.db, d));
    }
    forall i | 0 <= i < |s'.polls| ensures WorkExact(s', s'.polls[i]) {
      assert WorkExact(s, s.polls[i]);
    }
  }

  lemma ReadCursorExact(s: Sys, s': Sys)
    requires Schema(s.db) && Exact(s) && ReadsCursor(s, s')
    ensures Exact(s')
  {
    var res := SentBinding(s).resource;
    var h := HistoryOf(s, res);
    assert forall r :: HistoryOf(s', r) == HistoryOf(s, r);
    if h != [] { assert Stop(h, h[0].id) == 0; }
    forall d | d in s'.db.deliveries ensures Fenced(s', s'.db.deliveries[d], Cur(s'.db, d)) {
      assert Fenced(s, s.db.deliveries[d], Cur(s.db, d));
    }
    forall i | 0 <= i < |s'.polls| ensures WorkExact(s', s'.polls[i]) {
      assert WorkExact(s, s.polls[i]);
    }
  }

  /** Nobody else can be waiting for a deployment on the resource a POST goes to. */
  lemma SoleHolder(s: Sys, d: Id)
    requires Inv(s) && Separated(s) && s.phase.Serving? && s.disp.Busy? && d in s.db.deliveries && d != s.disp.delivery
    requires s.db.deliveries[d].binding.Dokploy? && SentBinding(s).Dokploy?
    requires s.db.deliveries[d].binding.resource == SentBinding(s).resource
    ensures !Holds(Cur(s.db, d))
  {
    var x, y := s.db.deliveries[d], s.db.deliveries[s.disp.delivery];
    assert RowOk(Cur(s.db, s.disp.delivery)) && DeliveryOk(s.db, x) && DeliveryOk(s.db, y);
    assert Holds(Cur(s.db, s.disp.delivery)) && ActiveDelivery(s.db, s.disp.delivery);
    if Holds(Cur(s.db, d)) {
      assert ActiveDelivery(s.db, d);
    }
  }

  /** Nothing the invariant of correlation speaks of has changed, except perhaps that a send has been posted. */
  lemma UnchangedExact(s: Sys, s': Sys)
    requires Schema(s.db) && Exact(s) && s'.db == s.db && s'.remote == s.remote && s'.born == s.born
    requires DispatchExact(s') && s'.polls == s.polls && s'.manual == s.manual
    ensures Exact(s')
  {
    assert forall r :: HistoryOf(s', r) == HistoryOf(s, r);
    forall d | d in s'.db.deliveries ensures Fenced(s', s'.db.deliveries[d], Cur(s'.db, d)) {
      assert Fenced(s, s.db.deliveries[d], Cur(s.db, d));
    }
    forall i | 0 <= i < |s'.polls| ensures WorkExact(s', s'.polls[i]) {
      assert WorkExact(s, s.polls[i]);
    }
  }

  lemma PostExact(s: Sys, o: Outcome, created: Option<Entry>, s': Sys)
    requires Inv(s) && Exact(s) && Separated(s) && Posts(s, o, created, s')
    ensures Exact(s')
  {
    if created.None? { UnchangedExact(s, s'); } else { PostedExact(s, o, created.value, s'); }
  }

  lemma PostedExact(s: Sys, o: Outcome, x: Entry, s': Sys)
    requires Inv(s) && Exact(s) && Separated(s) && Posts(s, o, Some(x), s')
    ensures Exact(s')
  {
    PostedRemote(s, o, x, s');
    forall d | d in s'.db.deliveries ensures Fenced(s', s'.db.deliveries[d], Cur(s'.db, d)) {
      PostedFence(s, o, x, s', d);
    }
    BornGrows(s, x.id, s');
  }

  /** Recording one more creation changes nothing about the earlier ones. */
  lemma BornGrows(s: Sys, x: DeploymentId, s': Sys)
    requires Schema(s.db) && Exact(s) && s'.db == s.db && s'.polls == s.polls && s'.manual == s.manual
    requires x !in s.born && x in s'.born && s'.born == s.born[x := s'.born[x]]
    ensures forall a | a in s'.db.attempts :: RowExact(s', a, s'.db.attempts[a])
    ensures forall i | 0 <= i < |s'.polls| :: WorkExact(s', s'.polls[i])
    ensures forall r | r in s'.manual :: UpdateExact(s', s'.manual[r])
  {
    forall a | a in s'.db.attempts ensures RowExact(s', a, s'.db.attempts[a]) {
      assert RowExact(s, a, s.db.attempts[a]);
    }
    forall i | 0 <= i < |s'.polls| ensures WorkExact(s', s'.polls[i]) {
      assert WorkExact(s, s.polls[i]);
    }
    forall r | r in s'.manual ensures UpdateExact(s', s'.manual[r]) {
      assert UpdateExact(s, s.manual[r]);
    }
  }

  lemma PostedRemote(s: Sys, o: Outcome, x: Entry, s': Sys)
    requires Inv(s) && Exact(s) && Posts(s, o, Some(x), s')
    ensures RemoteExact(s')
  {
    var res := SentBinding(s).resource;
    forall r: string, i | 0 <= i < |HistoryOf(s', r)|
      ensures HistoryOf(s', r)[i].id != "" && HistoryOf(s', r)[i].id in s'.born
      ensures Honest(HistoryOf(s', r)[i], s'.born[HistoryOf(s', r)[i].id])
    {
      if r != res {
        assert HistoryOf(s', r) == HistoryOf(s, r);
      } else if i > 0 {
        assert HistoryOf(s', r)[i] == HistoryOf(s, r)[i - 1];
      }
    }
  }

  lemma PostedFence(s: Sys, o: Outcome, x: Entry, s': Sys, d: Id)
    requires Inv(s) && Exact(s) && Separated(s) && Posts(s, o, Some(x), s') && d in s.db.deliveries
    ensures Fenced(s', s'.db.deliveries[d], Cur(s'.db, d))
  {
    var y, a := s.db.deliveries[d], Cur(s.db, d);
    assert Fenced(s, y, a) && RowExact(s, y.current, a);
    if y.binding.Dokploy? && Holds(a) && a.cursor.Some? {
      var c := a.cursor.value;
      var h := HistoryOf(s, y.binding.resource);
      if y.binding.resource != SentBinding(s).resource {
        assert HistoryOf(s', y.binding.resource) == h;
      } else {
        if d != s.disp.delivery { SoleHolder(s, d); }
        assert Clear(s, y.binding.resource, c);
        assert HistoryOf(s', y.binding.resource) == [x] + h;
        PrependedIsOwned(s, s', y.binding.resource, c, x, y.current);
      }
    }
  }

  /** An entry prepended where nothing was newer than the cursor is the only newer one. */
  lemma PrependedIsOwned(s: Sys, s': Sys, res: string, c: DeploymentId, x: Entry, a: Id)
    requires Clear(s, res, c) && (c == "" || c != x.id) && HistoryOf(s', res) == [x] + HistoryOf(s, res) && Own(s', x.id, a)
    ensures Owned(s', res, c, a)
  {
    StopPrepend(HistoryOf(s, res), x, c);
  }
}
