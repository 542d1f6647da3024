/** Generations, waiting and draining across a run. */
module ReloadTheorems {
  import opened Domain
  import opened Tables
  import opened Polling
  import opened Intake
  import opened Manual
  import opened Reload
  import opened Protocol
  import opened Invariant
  import opened RowSteps
  import opened PollSteps
  import opened BootSteps
  import opened IntakeSteps
  import opened Columns
  import opened Theorems

  // ----- Generations -----

  /** A new generation is published only while no delivery is active, and publishing touches no row. */
  lemma PublishedOnlyWhenQuiet(s: Sys, act: Action, s': Sys)
    requires Inv(s) && Step(s, act, s') && !act.Crash? && s'.mgr.current != s.mgr.current
    ensures Quiet(s.db) && s'.db == s.db
  {
    OnlyReloadsPublish(s, act, s');
    CountsActive(s.db);
  }

  /** Only two actions replace the current generation, and only when they count no active delivery. */
  lemma OnlyReloadsPublish(s: Sys, act: Action, s': Sys)
    requires Schema(s.db) && Step(s, act, s') && !act.Crash? && s'.mgr.current != s.mgr.current
    ensures |ActiveSet(s.db)| == 0 && s'.db == s.db
  {
    assert act.FinishReload? || act.AdvanceWaiting?;
  }

  lemma MovedShrinks(db: Db, db': Db, m: set<Id>)
    requires Schema(db) && Schema(db') && Moved(db, db', m)
    requires forall d | d in m && d in db.deliveries :: ActiveDelivery(db, d)
    ensures ActiveSet(db') <= ActiveSet(db)
  {
    forall d | d in ActiveSet(db') ensures d in ActiveSet(db) {
      CurMoved(db, db', m, d);
      assert ActiveDelivery(db', d);
      assert ActiveDelivery(db, d);
    }
  }

  lemma SameShrinks(db: Db, db': Db)
    requires Schema(db) && Schema(db') && db'.deliveries.Keys <= db.deliveries.Keys
    requires forall d | d in db'.deliveries :: Cur(db', d) == Cur(db, d)
    ensures ActiveSet(db') <= ActiveSet(db)
  {
    forall d | d in ActiveSet(db') ensures d in ActiveSet(db) {
      assert ActiveDelivery(db', d);
      assert ActiveDelivery(db, d);
    }
  }

  lemma PutShrinks(db: Db, d: Id, b: Attempt, note: bool)
    requires DbOk(db) && d in db.deliveries && ActiveDelivery(db, d) && b.delivery == d && RowOk(b)
    requires note || b.status == Cur(db, d).status
    ensures Schema(Put(db, d, b, note)) && ActiveSet(Put(db, d, b, note)) <= ActiveSet(db)
  {
    PutStep(db, d, b, note);
    MovedShrinks(db, Put(db, d, b, note), {d});
  }

  /** The row of the send is an active row of the schema. */
  lemma SendingIsActive(s: Sys)
    requires DbOk(s.db) && SendingStands(s)
    ensures ActiveDelivery(s.db, s.disp.delivery) && RowOk(Cur(s.db, s.disp.delivery))
  {
  }

  lemma FailSendShrinks(s: Sys, s': Sys)
    requires DbOk(s.db) && FailsSend(s, s')
    ensures Schema(s'.db) && ActiveSet(s'.db) <= ActiveSet(s.db)
  {
    SendingIsActive(s);
    PutShrinks(s.db, s.disp.delivery, FailedRow(Cur(s.db, s.disp.delivery)), true);
  }

  lemma StoreCursorShrinks(s: Sys, s': Sys)
    requires DbOk(s.db) && StoresCursor(s, s')
    ensures Schema(s'.db) && ActiveSet(s'.db) <= ActiveSet(s.db)
  {
    SendingIsActive(s);
    PutShrinks(s.db, s.disp.delivery, Cur(s.db, s.disp.delivery).(cursor := Some(s.disp.stage.read)), false);
  }

  lemma RecordRequestShrinks(s: Sys, json: Json, at: Time, s': Sys)
    requires DbOk(s.db) && RecordsRequest(s, json, at, s')
    ensures Schema(s'.db) && ActiveSet(s'.db) <= ActiveSet(s.db)
  {
    SendingIsActive(s);
    var a := Cur(s.db, s.disp.delivery);
    PutShrinks(s.db, s.disp.delivery, a.(request := Some(json), requestAt := Some(Millis(at))), false);
  }

  lemma FinishSendShrinks(s: Sys, at: Time, s': Sys)
    requires DbOk(s.db) && FinishesSend(s, at, s')
    ensures Schema(s'.db) && ActiveSet(s'.db) <= ActiveSet(s.db)
  {
    SendingIsActive(s);
    var d := s.disp.delivery;
    PutShrinks(s.db, d, OutcomeRow(Cur(s.db, d), SentBinding(s), s.disp.stage.outcome, Some(s.disp.stage.sent), at,
                                   s.disp.gen.targets[s.db.deliveries[d].target]), true);
  }

  lemma ClaimShrinks(s: Sys, d: Id, s': Sys)
    requires DbOk(s.db) && Claims(s, d, s')
    ensures Schema(s'.db) && ActiveSet(s'.db) <= ActiveSet(s.db)
  {
    assert RowOk(Cur(s.db, d));
    PutShrinks(s.db, d, SendingRow(Cur(s.db, d)), true);
  }

  lemma ClaimPollsShrinks(s: Sys, at: Time, ds: seq<Id>, s': Sys)
    requires DbOk(s.db) && ClaimsPolls(s, at, ds, s')
    ensures Schema(s'.db) && ActiveSet(s'.db) <= ActiveSet(s.db)
  {
    ClaimPollsMoves(s, at, ds, s');
    forall d | d in (set x | x in ds) && d in s.db.deliveries ensures ActiveDelivery(s.db, d) {
      ClaimedCur(s, at, ds, s', d);
    }
    MovedShrinks(s.db, s'.db, set x | x in ds);
  }

  lemma CompletePollShrinks(s: Sys, s': Sys)
    requires Inv(s) && CompletesPoll(s, s')
    ensures Schema(s'.db) && ActiveSet(s'.db) <= ActiveSet(s.db)
  {
    if ClaimStands(s.db, s.polls[0].work) {
      var a, b := CompletedFacts(s, s');
      MonitoredIsActive(s.db, s.polls[0].work.delivery);
      MovedShrinks(s.db, s'.db, {s.polls[0].work.delivery});
    }
  }

  lemma MonitoredIsActive(db: Db, d: Id)
    requires Schema(db) && d in db.deliveries && Monitored(Cur(db, d).status.deployment)
    ensures ActiveDelivery(db, d)
  {
  }

  lemma SendShrinks(s: Sys, act: Action, s': Sys)
    requires DbOk(s.db) && Step(s, act, s')
    requires act.FailSend? || act.StoreCursor? || act.RecordRequest? || act.FinishSend?
    ensures Schema(s'.db) && ActiveSet(s'.db) <= ActiveSet(s.db)
  {
    match act
    case FailSend => FailSendShrinks(s, s');
    case StoreCursor => StoreCursorShrinks(s, s');
    case RecordRequest(json, at) => RecordRequestShrinks(s, json, at, s');
    case FinishSend(at) => FinishSendShrinks(s, at, s');
  }

  lemma WorkShrinks(s: Sys, act: Action, s': Sys)
    requires Inv(s) && Step(s, act, s') && (act.Claim? || act.ClaimPolls? || act.CompletePoll? || act.DeleteEvents?)
    ensures Schema(s'.db) && ActiveSet(s'.db) <= ActiveSet(s.db)
  {
    match act
    case Claim(d) => ClaimShrinks(s, d, s');
    case ClaimPolls(at, ds) => ClaimPollsShrinks(s, at, ds, s');
    case CompletePoll => CompletePollShrinks(s, s');
    case DeleteEvents(es) => DeleteShrinks(s, es, s');
  }

  /** While a reload waits, deliveries only ever leave the active set. */
  lemma WaitingOnlyShrinks(s: Sys, act: Action, s': Sys)
    requires Inv(s) && Step(s, act, s') && s.phase.Serving? && s.mgr.mode.Waiting? && !act.Crash?
    ensures Schema(s'.db) && ActiveSet(s'.db) <= ActiveSet(s.db)
  {
    if act.FailSend? || act.StoreCursor? || act.RecordRequest? || act.FinishSend? {
      SendShrinks(s, act, s');
    } else if act.Claim? || act.ClaimPolls? || act.CompletePoll? || act.DeleteEvents? {
      WorkShrinks(s, act, s');
    } else {
      OthersShrink(s, act, s');
    }
  }

  lemma DeleteShrinks(s: Sys, es: set<Id>, s': Sys)
    requires DbOk(s.db) && (forall e | e in es :: Erasable(s.db, e)) && s'.db == Remove(s.db, es)
    ensures Schema(s'.db) && ActiveSet(s'.db) <= ActiveSet(s.db)
  {
    forall e | e in es && e in s.db.events ensures !s.db.events[e].routing.Deferred? { assert Erasable(s.db, e); }
    RemoveOk(s.db, es);
    SameShrinks(s.db, s'.db);
  }

  /** Neither manual operations nor the drainer can act while a reload waits, and new events are deferred. */
  lemma OthersShrink(s: Sys, act: Action, s': Sys)
    requires Inv(s) && Step(s, act, s') && s.phase.Serving? && s.mgr.mode.Waiting? && !act.Crash?
    requires !act.FailSend? && !act.StoreCursor? && !act.RecordRequest? && !act.FinishSend? && !act.Claim?
             && !act.ClaimPolls? && !act.CompletePoll? && !act.DeleteEvents?
    ensures Schema(s'.db) && ActiveSet(s'.db) <= ActiveSet(s.db)
  {
    StepKeepsInv(s, act, s');
    UntouchedRows(s, act, s');
    SameShrinks(s.db, s'.db);
  }

  lemma UntouchedRows(s: Sys, act: Action, s': Sys)
    requires Schema(s.db) && (s.manual != map[] ==> s.mgr.mode.Idle?)
    requires Step(s, act, s') && s.phase.Serving? && s.mgr.mode.Waiting? && !act.Crash?
    requires !act.FailSend? && !act.StoreCursor? && !act.RecordRequest? && !act.FinishSend? && !act.Claim?
             && !act.ClaimPolls? && !act.CompletePoll? && !act.DeleteEvents?
    ensures s'.db.deliveries == s.db.deliveries && s'.db.attempts == s.db.attempts
  {
  }

  /** A waiting reload becomes current in the first advance that finds nothing unfinished, and waits through all others. */
  lemma WaitingReloadIsPublished(s: Sys, s': Sys)
    requires Inv(s) && Step(s, AdvanceWaiting, s') && s.mgr.mode == Waiting
    ensures NothingUnfinished(s.db) && s.mgr.candidate.Some? ==>
              s'.mgr.current == s.mgr.candidate.value && s'.mgr.candidate == None && s'.mgr.mode == Draining
    ensures NothingUnfinished(s.db) && s.mgr.candidate.None? ==> s'.mgr.current == s.mgr.current && s'.mgr.mode == Draining
    ensures !NothingUnfinished(s.db) ==> s' == s
  {
    CountsActive(s.db);
    QuietIsFinished(s.db);
  }

  /** A compiled reload is current at once when nothing is unfinished, and waits otherwise. */
  lemma CompiledReloadWaitsOrIsPublished(s: Sys, g: Generation, s': Sys)
    requires Inv(s) && Step(s, FinishReload(g), s')
    ensures NothingUnfinished(s.db) ==> s'.mgr.current == g && s'.mgr.mode == Draining
    ensures !NothingUnfinished(s.db) ==> s'.mgr.current == s.mgr.current && s'.mgr.candidate == Some(g) && s'.mgr.mode == Waiting
  {
    CountsActive(s.db);
    QuietIsFinished(s.db);
  }

  /**
   * While one attempt stays current and active, the generation does not change within a process run:
   * it is created, sent, polled and finished under one configuration.
   */
  lemma {:induction false} OneGenerationPerActivity(run: seq<Sys>, acts: seq<Action>, d: Id, i: nat, j: nat)
    requires Run(run, acts) && i <= j < |run| && forall k | i <= k < j :: !acts[k].Crash?
    requires forall k | i <= k <= j :: Linked(run[k].db, d) && Active(Cur(run[k].db, d).status)
    ensures run[j].mgr.current == run[i].mgr.current
    decreases j
  {
    if j > i {
      OneGenerationPerActivity(run, acts, d, i, j - 1);
      GenerationStep(run, acts, d, j - 1);
    }
  }

  lemma GenerationStep(run: seq<Sys>, acts: seq<Action>, d: Id, k: nat)
    requires Run(run, acts) && k < |acts| && !acts[k].Crash? && Linked(run[k].db, d) && Active(Cur(run[k].db, d).status)
    ensures run[k + 1].mgr.current == run[k].mgr.current
  {
    InvariantHolds(run, acts, k);
    assert Follows(run, acts, k);
    if run[k + 1].mgr.current != run[k].mgr.current {
      PublishedOnlyWhenQuiet(run[k], acts[k], run[k + 1]);
      assert ActiveDelivery(run[k].db, d);
    }
  }

  /** Whatever the dispatcher or the poller still has to commit was claimed under the generation now current. */
  lemma ClaimsBelongToTheCurrentGeneration(run: seq<Sys>, acts: seq<Action>, i: nat, k: nat)
    requires Run(run, acts) && i < |run|
    ensures run[i].disp.Busy? ==> run[i].disp.gen == run[i].mgr.current
    ensures k < |run[i].polls| && ClaimStands(run[i].db, run[i].polls[k].work) ==> run[i].polls[k].gen == run[i].mgr.current
  {
    InvariantHolds(run, acts, i);
    if k < |run[i].polls| { assert WorkOk(run[i], run[i].polls[k]); }
  }

  // ----- Draining -----

  /** One error-free RunOnce of the drainer. */
  ghost predicate DrainerRuns(s: Sys, s': Sys)
    requires Schema(s.db)
  {
    if s.db.queue == [] then Step(s, DrainIdle, s')
    else exists r: Decision, ids: seq<Fresh> :: Drains(s, r, ids, s')
  }

  ghost predicate DrainingState(s: Sys) { Inv(s) && s.phase.Serving? && s.mgr.mode.Draining? }

  /** Each run of the drainer removes exactly the head of the queue, or finds it empty and turns idle. */
  lemma DrainerStep(s: Sys, s': Sys)
    requires DrainingState(s) && DrainerRuns(s, s')
    ensures Inv(s')
    ensures if s.db.queue == [] then s'.mgr.mode.Idle? && s'.db == s.db && s'.routed == s.routed
            else DrainingState(s') && s'.db.queue == s.db.queue[1..] && s'.routed == s.routed + [s.db.queue[0].event]
  {
    if s.db.queue == [] {
      OtherReloadKeeps(s, DrainIdle, s');
    } else {
      var r, ids :| Drains(s, r, ids, s');
      DrainKeeps(s, r, ids, s');
      DrainedQueue(s, r, ids, s');
    }
  }

  lemma DrainedQueue(s: Sys, r: Decision, ids: seq<Fresh>, s': Sys)
    requires DbOk(s.db) && Known(s) && Drains(s, r, ids, s')
    ensures s'.db.queue == s.db.queue[1..]
  {
    var db1 := Dequeued(s.db, r.result);
    DequeuedOk(s.db, r.result);
    FreshRelaxes(ids, s.used, db1.deliveries.Keys + db1.attempts.Keys);
    AddAllOk(db1, s.db.queue[0].event, r.deliveries, ids, s.db.events[s.db.queue[0].event].receivedAt);
  }

  ghost predicate DrainerRunsThroughout(run: seq<Sys>) {
    forall k | 0 <= k < |run| - 1 :: RunsAt(run, k)
  }

  ghost predicate RunsAt(run: seq<Sys>, k: nat)
    requires k + 1 < |run|
  {
    Schema(run[k].db) && DrainerRuns(run[k], run[k + 1])
  }

  lemma QueueIdsHead(q: seq<QueueRow>)
    requires q != []
    ensures QueueIds(q) == [q[0].event] + QueueIds(q[1..])
  {
  }

  /** A queue of n events with no arrivals drains in exactly n + 1 runs, in queue order. */
  lemma {:induction false} DrainingTakesQueueLengthPlusOne(run: seq<Sys>)
    requires |run| >= 1 && DrainingState(run[0]) && |run| == |run[0].db.queue| + 2 && DrainerRunsThroughout(run)
    ensures run[|run| - 1].mgr.mode.Idle? && run[|run| - 1].db.queue == []
    ensures run[|run| - 2].mgr.mode.Draining?
    ensures run[|run| - 1].routed == run[0].routed + QueueIds(run[0].db.queue)
    decreases |run|
  {
    assert RunsAt(run, 0);
    DrainerStep(run[0], run[1]);
    if run[0].db.queue == [] {
      assert QueueIds(run[0].db.queue) == [];
    } else {
      var rest := run[1..];
      forall k | 0 <= k < |rest| - 1 ensures RunsAt(rest, k) { assert RunsAt(run, k + 1); }
      DrainingTakesQueueLengthPlusOne(rest);
      QueueIdsHead(run[0].db.queue);
      assert rest[|rest| - 1] == run[|run| - 1] && rest[|rest| - 2] == run[|run| - 2];
    }
  }
}
