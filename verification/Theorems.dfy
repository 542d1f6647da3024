/** What holds in every run of the delivery engine, crashes and restarts included. */
module Theorems {
  import opened Domain
  import opened Tables
  import opened Correlation
  import opened Polling
  import opened Intake
  import opened Manual
  import opened Reload
  import opened Protocol
  import opened Invariant
  import opened RowSteps
  import opened PollSteps
  import opened BootSteps
  import opened ManualSteps
  import opened IntakeSteps
  import opened Exactness
  import opened ExactBinding
  import opened Evolution
  import opened Columns

  // ----- Runs -----

  ghost predicate Next(s: Sys, act: Action, s': Sys) { Schema(s.db) && Step(s, act, s') }

  /** A finite run: the states and the actions between them. */
  ghost predicate Run(run: seq<Sys>, acts: seq<Action>) {
    && |run| == |acts| + 1 && Init(run[0])
    && forall i | 0 <= i < |acts| :: Follows(run, acts, i)
  }

  ghost predicate Follows(run: seq<Sys>, acts: seq<Action>, i: nat)
    requires |run| == |acts| + 1 && i < |acts|
  {
    Next(run[i], acts[i], run[i + 1])
  }

  lemma DispatcherKeeps(s: Sys, act: Action, s': Sys)
    requires Inv(s) && Step(s, act, s')
    requires act.Claim? || act.FailSend? || act.ReadCursor? || act.StoreCursor? || act.RecordRequest? || act.Post? || act.FinishSend?
    ensures Inv(s')
  {
    match act
    case Claim(d) => ClaimKeeps(s, d, s');
    case FailSend => FailSendKeeps(s, s');
    case ReadCursor => ReadCursorKeeps(s, s');
    case StoreCursor => StoreCursorKeeps(s, s');
    case RecordRequest(json, at) => RecordRequestKeeps(s, json, at, s');
    case Post(outcome, created) => PostKeeps(s, outcome, created, s');
    case FinishSend(at) => FinishSendKeeps(s, at, s');
  }

  lemma PollerAndManualKeep(s: Sys, act: Action, s': Sys)
    requires Inv(s) && Step(s, act, s')
    requires act.ClaimPolls? || act.LookUp? || act.CompletePoll? || act.BeginManual? || act.ApplyManual?
    ensures Inv(s')
  {
    match act
    case ClaimPolls(at, batch) => ClaimPollsKeeps(s, at, batch, s');
    case LookUp(failed) => LookUpKeeps(s, failed, s');
    case CompletePoll => CompletePollKeeps(s, s');
    case BeginManual(req, d, expected, op, at, failed) => BeginManualKeeps(s, req, d, expected, op, at, failed, s');
    case ApplyManual(req, id) => ApplyManualKeeps(s, req, id, s');
  }

  lemma ReloadKeeps(s: Sys, act: Action, s': Sys)
    requires Inv(s) && Step(s, act, s')
    requires act.BeginReload? || act.FailReload? || act.FinishReload? || act.AdvanceWaiting? || act.DrainIdle?
    ensures Inv(s')
  {
    if act.FinishReload? {
      FinishReloadKeeps(s, act.candidate, s');
    } else if act.AdvanceWaiting? {
      AdvanceWaitingKeeps(s, s');
    } else {
      OtherReloadKeeps(s, act, s');
    }
  }

  lemma IntakeKeeps(s: Sys, act: Action, s': Sys)
    requires Inv(s) && Step(s, act, s') && (act.Receive? || act.DrainHead? || act.DeleteEvents?)
    ensures Inv(s')
  {
    match act
    case Receive(row, supported, decision, e, ids) => ReceiveKeeps(s, row, supported, decision, e, ids, s');
    case DrainHead(decision, ids) => DrainKeeps(s, decision, ids, s');
    case DeleteEvents(es) => DeleteKeeps(s, es, s');
  }

  lemma BootAndRemoteKeep(s: Sys, act: Action, s': Sys)
    requires Inv(s) && Step(s, act, s')
    requires act.Crash? || act.Terminate? || act.BindingsChecked? || act.Recover? || act.Initialize? || act.Trim? || act.Edit?
    ensures Inv(s')
  {
    match act
    case Crash(g) => CrashKeeps(s, g, s');
    case Terminate(d) => TerminateKeeps(s, d, s');
    case BindingsChecked => BindingsCheckedKeeps(s, s');
    case Recover(at, ds) => RecoverKeeps(s, at, ds, s');
    case Initialize => InitializeKeeps(s, s');
    case Trim(res, keep) => RemoteKeeps(s, s');
    case Edit(res, i, entry) => RemoteKeeps(s, s');
  }

  /** Every step of every worker, of the manager, of the remote and of a crash keeps the invariant. */
  lemma StepKeepsInv(s: Sys, act: Action, s': Sys)
    requires Inv(s) && Step(s, act, s')
    ensures Inv(s')
  {
    if act.Claim? || act.FailSend? || act.ReadCursor? || act.StoreCursor? || act.RecordRequest? || act.Post? || act.FinishSend? {
      DispatcherKeeps(s, act, s');
    } else if act.ClaimPolls? || act.LookUp? || act.CompletePoll? || act.BeginManual? || act.ApplyManual? {
      PollerAndManualKeep(s, act, s');
    } else if act.Crash? || act.Terminate? || act.BindingsChecked? || act.Recover? || act.Initialize? || act.Trim? || act.Edit? {
      BootAndRemoteKeep(s, act, s');
    } else if act.Receive? || act.DrainHead? || act.DeleteEvents? {
      IntakeKeeps(s, act, s');
    } else {
      ReloadKeeps(s, act, s');
    }
  }

  /** The invariant holds in every reachable state. */
  lemma {:induction false} InvariantHolds(run: seq<Sys>, acts: seq<Action>, i: nat)
    requires Run(run, acts) && i < |run|
    ensures Inv(run[i])
  {
    if i == 0 {
      InitOk(run[0]);
    } else {
      InvariantHolds(run, acts, i - 1);
      assert Follows(run, acts, i - 1);
      StepKeepsInv(run[i - 1], acts[i - 1], run[i]);
    }
  }

  /** What a step of a run does to the rows, without the rest of the invariant. */
  lemma RunEvolves(run: seq<Sys>, acts: seq<Action>, k: nat)
    requires Run(run, acts) && k < |acts|
    ensures Evolves(run[k].db, run[k + 1].db, run[k].used) && run[k].used <= run[k + 1].used && Schema(run[k].db)
    ensures run[k].db.attempts.Keys <= run[k].used && run[k].db.deliveries.Keys <= run[k].used
  {
    InvariantHolds(run, acts, k);
    assert Follows(run, acts, k);
    StepEvolves(run[k], acts[k], run[k + 1]);
  }

  // ----- Status agreement, reachable pairs, mutual exclusion -----

  /** The stored pair of a delivery is its current attempt's pair and the replay of its audit log. */
  lemma StatusAgreement(run: seq<Sys>, acts: seq<Action>, i: nat, d: Id)
    requires Run(run, acts) && i < |run| && d in run[i].db.deliveries
    ensures var db := run[i].db;
            && Linked(db, d) && d in db.audit
            && db.deliveries[d].status == Cur(db, d).status
            && Replay(FRESH, db.audit[d]) == Some(db.deliveries[d].status)
  {
    InvariantHolds(run, acts, i);
    assert Agrees(run[i].db, d);
  }

  /** Every attempt, current or superseded, carries one of thirteen pairs; monitored ones have a schedule. */
  lemma ReachablePairs(run: seq<Sys>, acts: seq<Action>, i: nat, a: Id)
    requires Run(run, acts) && i < |run| && a in run[i].db.attempts
    ensures var r := run[i].db.attempts[a];
            && r.status in THIRTEEN
            && (Monitored(r.status.deployment) ==> r.pollDue.Some? && r.deadline.Some?)
            && (!Active(r.status) ==> r.status.deployment.Done? || |AllowedOperations(r.status)| == 1)
  {
    InvariantHolds(run, acts, i);
    assert RowOk(run[i].db.attempts[a]);
    ExpectedPairsAreThirteen(run[i].db.attempts[a].status);
  }

  /** Two conflicting deliveries are never both sending or monitored without a bound deployment. */
  lemma MutualExclusion(run: seq<Sys>, acts: seq<Action>, i: nat, x: Id, y: Id)
    requires Run(run, acts) && i < |run| && x in run[i].db.deliveries && y in run[i].db.deliveries && x != y
    requires SameResource(run[i].db.deliveries[x], run[i].db.deliveries[y])
    ensures Linked(run[i].db, x) && Linked(run[i].db, y)
    ensures !(Occupies(Cur(run[i].db, x)) && Occupies(Cur(run[i].db, y)))
  {
    InvariantHolds(run, acts, i);
  }

  // ----- Correlation -----

  lemma PreparationKeepsExact(s: Sys, act: Action, s': Sys)
    requires Inv(s) && Inv(s') && Step(s, act, s') && Exact(s) && Separated(s)
    requires act.Claim? || act.FailSend? || act.ReadCursor? || act.StoreCursor?
    ensures Exact(s')
  {
    match act
    case Claim(d) => ClaimExact(s, d, s');
    case FailSend => FailSendExact(s, s');
    case ReadCursor => ReadCursorExact(s, s');
    case StoreCursor => StoreCursorExact(s, s');
  }

  lemma SendKeepsExact(s: Sys, act: Action, s': Sys)
    requires Inv(s) && Inv(s') && Step(s, act, s') && Exact(s) && Separated(s)
    requires act.RecordRequest? || act.Post? || act.FinishSend?
    ensures Exact(s')
  {
    match act
    case RecordRequest(json, at) => RecordRequestExact(s, json, at, s');
    case Post(outcome, created) => PostExact(s, outcome, created, s');
    case FinishSend(at) => FinishSendExact(s, at, s');
  }

  lemma PollerAndManualKeepExact(s: Sys, act: Action, s': Sys)
    requires Inv(s) && Inv(s') && Step(s, act, s') && Exact(s)
    requires act.ClaimPolls? || act.LookUp? || act.CompletePoll? || act.BeginManual? || act.ApplyManual?
    ensures Exact(s')
  {
    match act
    case ClaimPolls(at, batch) => ClaimPollsExact(s, at, batch, s');
    case LookUp(failed) => LookUpExact(s, failed, s');
    case CompletePoll => CompletePollExact(s, s');
    case BeginManual(req, d, expected, op, at, failed) => BeginManualExact(s, req, d, expected, op, at, failed, s');
    case ApplyManual(req, id) => ApplyManualExact(s, req, id, s');
  }

  lemma IntakeKeepsExact(s: Sys, act: Action, s': Sys)
    requires Inv(s) && Inv(s') && Step(s, act, s') && Exact(s) && (act.Receive? || act.DrainHead? || act.DeleteEvents?)
    ensures Exact(s')
  {
    match act
    case Receive(row, supported, decision, e, ids) => ReceiveExact(s, row, supported, decision, e, ids, s');
    case DrainHead(decision, ids) => DrainExact(s, decision, ids, s');
    case DeleteEvents(es) => DeleteExact(s, es, s');
  }

  lemma BootKeepsExact(s: Sys, act: Action, s': Sys)
    requires Inv(s) && Inv(s') && Step(s, act, s') && Exact(s) && (act.Terminate? || act.Recover?)
    ensures Exact(s')
  {
    match act
    case Terminate(d) => TerminateExact(s, d, s');
    case Recover(at, ds) => RecoverExact(s, at, ds, s');
  }

  lemma RemoteKeepsExact(s: Sys, act: Action, s': Sys)
    requires Inv(s) && Inv(s') && Step(s, act, s') && Exact(s) && (act.Trim? || act.Edit?)
    ensures Exact(s')
  {
    match act
    case Trim(res, keep) => ShrunkExact(s, res, HistoryOf(s, res)[..keep], s');
    case Edit(res, i, entry) => EditExact(s, res, i, entry, s');
  }

  lemma StepKeepsExact(s: Sys, act: Action, s': Sys)
    requires Inv(s) && Step(s, act, s') && Exact(s) && Separated(s)
    ensures Schema(s'.db) && Exact(s')
  {
    StepKeepsInv(s, act, s');
    if act.Claim? || act.FailSend? || act.ReadCursor? || act.StoreCursor? {
      PreparationKeepsExact(s, act, s');
    } else if act.RecordRequest? || act.Post? || act.FinishSend? {
      SendKeepsExact(s, act, s');
    } else if act.ClaimPolls? || act.LookUp? || act.CompletePoll? || act.BeginManual? || act.ApplyManual? {
      PollerAndManualKeepExact(s, act, s');
    } else if act.Receive? || act.DrainHead? || act.DeleteEvents? {
      IntakeKeepsExact(s, act, s');
    } else if act.Terminate? || act.Recover? {
      BootKeepsExact(s, act, s');
    } else if act.Trim? || act.Edit? {
      RemoteKeepsExact(s, act, s');
    } else {
      ControlStepExact(s, act, s');
    }
  }

  lemma ControlStepExact(s: Sys, act: Action, s': Sys)
    requires Schema(s.db) && Step(s, act, s') && Exact(s)
    requires act.BeginReload? || act.FailReload? || act.FinishReload? || act.AdvanceWaiting? || act.DrainIdle?
             || act.Crash? || act.BindingsChecked? || act.Initialize?
    ensures Exact(s')
  {
    ControlExact(s, s');
  }

  lemma EditExact(s: Sys, res: string, i: nat, e: Entry, s': Sys)
    requires Inv(s) && Exact(s) && Edits(s, res, i, e, s')
    ensures Exact(s')
  {
    var h := HistoryOf(s, res)[i := e];
    forall k | 0 <= k < |h| ensures h[k].id in s.born ==> Honest(h[k], s.born[h[k].id]) {
      if k != i { assert Honest(HistoryOf(s, res)[k], s.born[HistoryOf(s, res)[k].id]); }
    }
    ShrunkExact(s, res, h, s');
  }

  lemma RunKeepsExact(run: seq<Sys>, acts: seq<Action>, k: nat)
    requires Run(run, acts) && k < |acts| && Schema(run[k].db) && Exact(run[k]) && Separated(run[k])
    ensures Schema(run[k + 1].db) && Exact(run[k + 1])
  {
    InvariantHolds(run, acts, k);
    assert Follows(run, acts, k);
    StepKeepsExact(run[k], acts[k], run[k + 1]);
  }

  ghost predicate SeparatedThroughout(run: seq<Sys>) { forall k | 0 <= k < |run| :: Separated(run[k]) }

  lemma {:induction false} ExactnessHolds(run: seq<Sys>, acts: seq<Action>, i: nat)
    requires Run(run, acts) && i < |run| && Exact(run[0]) && SeparatedThroughout(run)
    ensures Schema(run[i].db) && Exact(run[i])
  {
    if i > 0 {
      ExactnessHolds(run, acts, i - 1);
      RunKeepsExact(run, acts, i - 1);
    }
  }

  /** An attempt is only ever bound to the deployment its own POST created; no two attempts share one. */
  lemma CorrelationIsExact(run: seq<Sys>, acts: seq<Action>, i: nat, a: Id, b: Id)
    requires Run(run, acts) && i < |run| && Exact(run[0]) && SeparatedThroughout(run)
    requires a in run[i].db.attempts && run[i].db.attempts[a].bound.Some?
    ensures Own(run[i], run[i].db.attempts[a].bound.value, a)
    ensures b in run[i].db.attempts && run[i].db.attempts[b].bound == run[i].db.attempts[a].bound ==> b == a
  {
    ExactnessHolds(run, acts, i);
    assert RowExact(run[i], a, run[i].db.attempts[a]);
    if b in run[i].db.attempts { assert RowExact(run[i], b, run[i].db.attempts[b]); }
  }

  // ----- Dispatch -----

  /** The target is reached at most once per attempt, whatever crashes and recoveries the run contains. */
  lemma AtMostOnePost(run: seq<Sys>, acts: seq<Action>, i: nat, a: Id)
    requires Run(run, acts) && i < |run|
    ensures run[i].posts[a] <= 1
  {
    InvariantHolds(run, acts, i);
  }

  /** Whenever the target is reached, the request and, for Dokploy, the cursor are already durable, for the first time. */
  lemma PostsArePreparedDurably(run: seq<Sys>, acts: seq<Action>, i: nat)
    requires Run(run, acts) && i < |acts| && acts[i].Post?
    ensures run[i].disp.Busy? && run[i].disp.attempt in run[i].db.attempts
    ensures var r := run[i].db.attempts[run[i].disp.attempt];
            && r.status == Status(Sending, NotStarted) && r.request.Some? && r.requestAt.Some?
            && r.delivery in run[i].db.deliveries
            && (run[i].db.deliveries[r.delivery].binding.Dokploy? ==> r.cursor.Some?)
    ensures run[i].posts[run[i].disp.attempt] == 0 && run[i + 1].posts[run[i].disp.attempt] == 1
  {
    InvariantHolds(run, acts, i);
    assert Follows(run, acts, i);
    assert RowOk(Cur(run[i].db, run[i].disp.delivery));
  }

  /** While the process serves, active deliveries always resolve: the incompatible branches are never taken. */
  lemma ActiveDeliveriesResolve(run: seq<Sys>, acts: seq<Action>, i: nat, d: Id)
    requires Run(run, acts) && i < |run| && run[i].phase.Serving? && d in run[i].db.deliveries
    ensures Linked(run[i].db, d)
    ensures Active(Cur(run[i].db, d).status) ==> CurrentlyCompatible(run[i], d)
    ensures run[i].disp.Busy? ==> SendingStands(run[i]) && Resolved(run[i])
  {
    InvariantHolds(run, acts, i);
    assert ActiveDelivery(run[i].db, d) <==> Active(Cur(run[i].db, d).status);
  }

  // ----- Frozen rows -----

  /** An attempt's row exists in every state from i to j. */
  ghost predicate Lives(run: seq<Sys>, a: Id, i: nat, j: nat) {
    i <= j < |run| && forall k | i <= k <= j :: a in run[k].db.attempts
  }

  /** A done attempt never changes again, and neither does one that has been superseded. */
  lemma {:induction false} DoneAndSupersededAreFrozen(run: seq<Sys>, acts: seq<Action>, a: Id, i: nat, j: nat)
    requires Run(run, acts) && Lives(run, a, i, j)
    requires run[i].db.attempts[a].status.deployment.Done? || !IsCurrent(run[i].db, a)
    ensures run[j].db.attempts[a] == run[i].db.attempts[a]
    ensures !IsCurrent(run[i].db, a) ==> !IsCurrent(run[j].db, a)
    decreases j
  {
    if j > i {
      DoneAndSupersededAreFrozen(run, acts, a, i, j - 1);
      RunFreezes(run, acts, j - 1, a);
    }
  }

  lemma RunFreezes(run: seq<Sys>, acts: seq<Action>, k: nat, a: Id)
    requires Run(run, acts) && k < |acts| && a in run[k].db.attempts && a in run[k + 1].db.attempts
    requires run[k].db.attempts[a].status.deployment.Done? || !IsCurrent(run[k].db, a)
    ensures run[k + 1].db.attempts[a] == run[k].db.attempts[a]
    ensures !IsCurrent(run[k].db, a) ==> !IsCurrent(run[k + 1].db, a)
  {
    RunEvolves(run, acts, k);
    FrozenStep(run[k].db, run[k + 1].db, run[k].used, a);
  }

  lemma FrozenStep(db: Db, db': Db, used: set<Id>, a: Id)
    requires Schema(db) && Evolves(db, db', used) && db.attempts.Keys <= used && db.deliveries.Keys <= used
    requires a in db.attempts && a in db'.attempts && (db.attempts[a].status.deployment.Done? || !IsCurrent(db, a))
    ensures db'.attempts[a] == db.attempts[a] && (!IsCurrent(db, a) ==> !IsCurrent(db', a))
  {
    if !IsCurrent(db, a) { NotRevived(db, db', used, a); }
  }

  /** A binding, once made, is never changed; evidence, once written, is never erased. */
  lemma {:induction false} BindingsAreImmutable(run: seq<Sys>, acts: seq<Action>, a: Id, i: nat, j: nat)
    requires Run(run, acts) && Lives(run, a, i, j)
    ensures Keeps(run[i].db.attempts[a], run[j].db.attempts[a])
    decreases j
  {
    if j > i {
      BindingsAreImmutable(run, acts, a, i, j - 1);
      RowKept(run, acts, j - 1, a);
    }
  }

  /** What every change of a row keeps. */
  predicate Keeps(a: Attempt, b: Attempt) {
    && (a.bound.Some? ==> b.bound == a.bound) && (a.cursor.Some? ==> b.cursor == a.cursor)
    && (a.requestAt.Some? ==> b.requestAt.Some?) && (!a.status.transport.Pending? ==> !b.status.transport.Pending?)
  }

  lemma RowKept(run: seq<Sys>, acts: seq<Action>, k: nat, a: Id)
    requires Run(run, acts) && k < |acts| && a in run[k].db.attempts && a in run[k + 1].db.attempts
    ensures Keeps(run[k].db.attempts[a], run[k + 1].db.attempts[a])
  {
    RunEvolves(run, acts, k);
  }

  // ----- Manual requests -----

  /** The update of a manual request goes through and creates a new attempt. */
  ghost predicate Creates(s: Sys, act: Action) {
    act.ApplyManual? && act.request in s.manual && StillExpected(s.db, s.manual[act.request]) && s.manual[act.request].create
  }

  /** Of all requests naming the same current attempt, at most one ever creates a new attempt. */
  lemma AtMostOneManualAttempt(run: seq<Sys>, acts: seq<Action>, i: nat, j: nat)
    requires Run(run, acts) && i < j < |acts| && Creates(run[i], acts[i])
    requires acts[j].ApplyManual? && acts[j].request in run[j].manual
    requires run[j].manual[acts[j].request].attempt == run[i].manual[acts[i].request].attempt
    requires run[j].manual[acts[j].request].attempt in run[j].db.attempts
    ensures !StillExpected(run[j].db, run[j].manual[acts[j].request])
  {
    var a := run[i].manual[acts[i].request].attempt;
    InvariantHolds(run, acts, i);
    InvariantHolds(run, acts, i + 1);
    assert Follows(run, acts, i);
    assert Linked(run[i].db, run[i].manual[acts[i].request].delivery);
    SupersededAfterCreate(run[i], acts[i], run[i + 1]);
    StaysSuperseded(run, acts, a, i + 1, j);
    InvariantHolds(run, acts, j);
  }

  lemma SupersededAfterCreate(s: Sys, act: Action, s': Sys)
    requires Inv(s) && Creates(s, act) && Step(s, act, s')
    ensures s.manual[act.request].attempt in s.used && !IsCurrent(s'.db, s.manual[act.request].attempt)
  {
    var u := s.manual[act.request];
    if u.correct { PutFrame(s.db, u.delivery, CorrectedRow(Cur(s.db, u.delivery), u), true); }
  }

  /** Once an attempt has been drawn and is not current, it never becomes current. */
  lemma {:induction false} StaysSuperseded(run: seq<Sys>, acts: seq<Action>, a: Id, i: nat, j: nat)
    requires Run(run, acts) && i <= j < |run| && a in run[i].used && !IsCurrent(run[i].db, a)
    ensures a in run[j].used && !IsCurrent(run[j].db, a)
    decreases j
  {
    if j > i {
      StaysSuperseded(run, acts, a, i, j - 1);
      RunEvolves(run, acts, j - 1);
      NotRevived(run[j - 1].db, run[j].db, run[j - 1].used, a);
    }
  }

  lemma NotRevived(db: Db, db': Db, used: set<Id>, a: Id)
    requires Schema(db) && Evolves(db, db', used) && db.attempts.Keys <= used && db.deliveries.Keys <= used
    requires a in used && !IsCurrent(db, a)
    ensures !IsCurrent(db', a)
  {
  }

  // ----- Events -----

  /** At most one event per (provider, source, delivery id), in every state. */
  lemma EventsAreUnique(run: seq<Sys>, acts: seq<Action>, i: nat, x: Id, y: Id)
    requires Run(run, acts) && i < |run| && x in run[i].db.events && y in run[i].db.events
    requires run[i].db.events[x].provider == run[i].db.events[y].provider && run[i].db.events[x].source == run[i].db.events[y].source
    requires run[i].db.events[x].deliveryKey == run[i].db.events[y].deliveryKey
    ensures x == y
  {
    InvariantHolds(run, acts, i);
    assert SameIdentity(run[i].db.events[x], run[i].db.events[y]);
  }

  /** A routed event keeps exactly the deliveries it was given when it was routed; a deferred one has none. */
  lemma {:induction false} FanOutHappensOnce(run: seq<Sys>, acts: seq<Action>, e: Id, i: nat, j: nat)
    requires Run(run, acts) && i <= j < |run| && forall k | i <= k <= j :: e in run[k].db.events
    ensures run[i].db.events[e].routing.Deferred? ==> DeliveriesOf(run[i].db, e) == {}
    ensures !run[i].db.events[e].routing.Deferred? ==>
              run[j].db.events[e] == run[i].db.events[e] && DeliveriesOf(run[j].db, e) == DeliveriesOf(run[i].db, e)
    decreases j
  {
    DeferredHaveNone(run, acts, i, e);
    if j > i {
      FanOutHappensOnce(run, acts, e, i, j - 1);
      RoutedEventKept(run, acts, j - 1, e);
    }
  }

  lemma DeferredHaveNone(run: seq<Sys>, acts: seq<Action>, i: nat, e: Id)
    requires Run(run, acts) && i < |run| && e in run[i].db.events
    ensures run[i].db.events[e].routing.Deferred? ==> DeliveriesOf(run[i].db, e) == {}
  {
    InvariantHolds(run, acts, i);
    var db := run[i].db;
    forall d | d in DeliveriesOf(db, e) ensures !db.events[e].routing.Deferred? {
      assert DeliveryOk(db, db.deliveries[d]);
    }
  }

  lemma RoutedEventKept(run: seq<Sys>, acts: seq<Action>, k: nat, e: Id)
    requires Run(run, acts) && k < |acts| && e in run[k].db.events && e in run[k + 1].db.events
    ensures !run[k].db.events[e].routing.Deferred? ==>
              run[k + 1].db.events[e] == run[k].db.events[e] && DeliveriesOf(run[k + 1].db, e) == DeliveriesOf(run[k].db, e)
  {
    RunEvolves(run, acts, k);
  }

  /** Supported events are routed in exactly the order they were accepted, directly or through the queue. */
  lemma NoOvertaking(run: seq<Sys>, acts: seq<Action>, i: nat)
    requires Run(run, acts) && i < |run|
    ensures run[i].routed <= run[i].accepted
    ensures run[i].accepted == run[i].routed + QueueIds(run[i].db.queue)
  {
    InvariantHolds(run, acts, i);
  }

  /** The queue holds exactly the deferred events, and is empty whenever events are routed directly. */
  lemma QueueIsCoherent(run: seq<Sys>, acts: seq<Action>, i: nat, e: Id)
    requires Run(run, acts) && i < |run| && e in run[i].db.events
    ensures run[i].db.events[e].routing.Deferred? <==> Queued(run[i].db, e)
    ensures run[i].phase.Serving? && (run[i].mgr.mode.Idle? || run[i].mgr.mode.Validating?) ==> run[i].db.queue == []
  {
    InvariantHolds(run, acts, i);
    if Queued(run[i].db, e) {
      var k :| 0 <= k < |run[i].db.queue| && run[i].db.queue[k].event == e;
    }
  }
}
