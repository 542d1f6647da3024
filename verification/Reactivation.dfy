/**
 * How a settled attempt becomes active again, and what that means for the generations an attempt is active under.
 */
module Reactivation {
  import opened Domain
  import opened Tables
  import opened Correlation
  import opened Polling
  import opened Intake
  import opened Manual
  import opened Reload
  import opened Protocol
  import opened Invariant
  import opened RowSteps
  import opened PollSteps
  import opened BootSteps
  import opened ManualSteps
  import opened IntakeSteps
  import opened Evolution
  import opened Theorems
  import opened ReloadTheorems
  import opened Paths
  import opened Reachability

  // ----- One step -----

  /** A manual request applies a correction that finds the deployment of d still going on. */
  predicate Reactivates(s: Sys, act: Action, d: Id)
    requires Schema(s.db)
  {
    && act.ApplyManual? && act.request in s.manual && s.manual[act.request].delivery == d
    && StillExpected(s.db, s.manual[act.request])
    && s.manual[act.request].correct && Monitored(s.manual[act.request].status.deployment)
  }

  /** d is still there, with the attempt it had. */
  predicate Persists(s: Sys, s': Sys, d: Id) {
    d in s.db.deliveries && d in s'.db.deliveries && s'.db.deliveries[d].current == s.db.deliveries[d].current
  }

  lemma TerminateShrinks(s: Sys, d: Id, s': Sys)
    requires DbOk(s.db) && Terminates(s, d, s')
    ensures Schema(s'.db) && ActiveSet(s'.db) <= ActiveSet(s.db)
  {
    assert RowOk(Cur(s.db, d));
    PutShrinks(s.db, d, TerminatedRow(Cur(s.db, d)), true);
  }

  lemma RecoverShrinks(s: Sys, at: Time, ds: seq<Id>, s': Sys)
    requires DbOk(s.db) && Recovers(s, at, ds, s')
    ensures Schema(s'.db) && ActiveSet(s'.db) <= ActiveSet(s.db)
  {
    RecoverMoves(s, at, ds, s');
    forall d | d in (set x | x in ds) && d in s.db.deliveries ensures ActiveDelivery(s.db, d) { RecoveredCur(s, at, ds, s', d); }
    MovedShrinks(s.db, s'.db, set x | x in ds);
  }

  /** New deliveries leave the current rows of the others alone. */
  lemma StoredElsewhere(db: Db, row: EventRow, r: Decision, e: Id, ids: seq<Fresh>, used: set<Id>, d: Id)
    requires DbOk(db) && db.events.Keys <= used && db.deliveries.Keys <= used && db.attempts.Keys <= used && d in db.deliveries
    requires e !in used && AllFresh(ids, used) && |ids| == |r.deliveries| && !Duplicate(db, row)
    requires !r.result.Deferred? && (r.deliveries != [] ==> r.result.Deploy?)
    ensures DbOk(Stored(db, e, row, r, ids)) && d in Stored(db, e, row, r, ids).deliveries && Cur(Stored(db, e, row, r, ids), d) == Cur(db, d)
  {
    var db1 := WithEvent(db, e, row.(routing := r.result));
    assert !Duplicate(db, row.(routing := r.result));
    WithEventOk(db, e, row.(routing := r.result));
    FreshRelaxes(ids, used, db1.deliveries.Keys + db1.attempts.Keys);
    AddAllOk(db1, e, r.deliveries, ids, row.receivedAt);
    ExtendedCur(db1, Stored(db, e, row, r, ids), e, r.deliveries, ids, d);
  }

  lemma ReceiveElsewhere(s: Sys, row: EventRow, supported: bool, r: Decision, e: Id, ids: seq<Fresh>, s': Sys, d: Id)
    requires Inv(s) && Receives(s, row, supported, r, e, ids, s') && d in s.db.deliveries
    ensures Linked(s'.db, d) && Cur(s'.db, d) == Cur(s.db, d)
  {
    assert Linked(s.db, d);
    if !Duplicate(s.db, row) && supported && !Defers(s.mgr.mode) {
      FreshRelaxes(ids, s.used + {e}, s.used);
      StoredElsewhere(s.db, row, r, e, ids, s.used, d);
    }
  }

  lemma DrainElsewhere(s: Sys, r: Decision, ids: seq<Fresh>, s': Sys, d: Id)
    requires Inv(s) && Drains(s, r, ids, s') && d in s.db.deliveries
    ensures Linked(s'.db, d) && Cur(s'.db, d) == Cur(s.db, d)
  {
    assert Linked(s.db, d);
    var db1 := Dequeued(s.db, r.result);
    var e := s.db.queue[0].event;
    DequeuedOk(s.db, r.result);
    FreshRelaxes(ids, s.used, db1.deliveries.Keys + db1.attempts.Keys);
    AddAllOk(db1, e, r.deliveries, ids, s.db.events[e].receivedAt);
    ExtendedCur(db1, s'.db, e, r.deliveries, ids, d);
  }

  lemma NotInActiveSet(db: Db, db': Db, d: Id)
    requires Schema(db) && Schema(db') && ActiveSet(db') <= ActiveSet(db) && d in db.deliveries && d in db'.deliveries
    requires !ActiveDelivery(db, d)
    ensures !ActiveDelivery(db', d)
  {
    var before, after := ActiveSet(db), ActiveSet(db');
    assert d !in before;
    assert d !in after;
  }

  /** No worker, no event, no reload, no start-up and no crash makes a settled attempt active. */
  lemma OthersLeaveSettled(s: Sys, act: Action, s': Sys, d: Id)
    requires Inv(s) && Step(s, act, s') && Schema(s'.db) && Persists(s, s', d) && !ActiveDelivery(s.db, d) && !act.ApplyManual?
    ensures !ActiveDelivery(s'.db, d)
  {
    if act.FailSend? || act.StoreCursor? || act.RecordRequest? || act.FinishSend? {
      SendShrinks(s, act, s');
      NotInActiveSet(s.db, s'.db, d);
    } else if act.Claim? || act.ClaimPolls? || act.CompletePoll? || act.DeleteEvents? {
      WorkShrinks(s, act, s');
      NotInActiveSet(s.db, s'.db, d);
    } else if act.Terminate? || act.Recover? || act.Receive? || act.DrainHead? {
      BootAndIntakeLeaveSettled(s, act, s', d);
    } else {
      OtherStepKeepsDb(s, act, s');
    }
  }

  lemma BootAndIntakeLeaveSettled(s: Sys, act: Action, s': Sys, d: Id)
    requires Inv(s) && Step(s, act, s') && Schema(s'.db) && Persists(s, s', d) && !ActiveDelivery(s.db, d)
    requires act.Terminate? || act.Recover? || act.Receive? || act.DrainHead?
    ensures !ActiveDelivery(s'.db, d)
  {
    match act
    case Terminate(x) => TerminateShrinks(s, x, s'); NotInActiveSet(s.db, s'.db, d);
    case Recover(at, ds) => RecoverShrinks(s, at, ds, s'); NotInActiveSet(s.db, s'.db, d);
    case Receive(row, supported, decision, e, ids) => ReceiveElsewhere(s, row, supported, decision, e, ids, s', d);
    case DrainHead(decision, ids) => DrainElsewhere(s, decision, ids, s', d);
  }

  /** What the update of a request does to the current row of d, as long as d keeps its attempt. */
  lemma AppliedRow(s: Sys, req: Id, id: Id, s': Sys, d: Id)
    requires Inv(s) && AppliesManual(s, req, id, s') && Schema(s'.db) && Persists(s, s', d)
    ensures var u := s.manual[req];
            Cur(s'.db, d) == if u.delivery == d && StillExpected(s.db, u) then CorrectedRow(Cur(s.db, d), u) else Cur(s.db, d)
  {
    var u := s.manual[req];
    assert Linked(s.db, d);
    if StillExpected(s.db, u) {
      if u.correct {
        CorrectionFacts(s, u);
        PutFrame(s.db, u.delivery, CorrectedRow(Cur(s.db, u.delivery), u), true);
      }
      if u.create && u.delivery != d { SupersedeFrame(Corrected(s.db, u), u.delivery, id, AttemptKind.Manual(u.operation)); }
    }
  }

  /** A step makes a settled current attempt active if and only if it is such a correction. */
  lemma OnlyCorrectionsReactivate(s: Sys, act: Action, s': Sys, d: Id)
    requires Inv(s) && Step(s, act, s') && Persists(s, s', d) && !ActiveDelivery(s.db, d)
    ensures Schema(s'.db) && (ActiveDelivery(s'.db, d) <==> Reactivates(s, act, d))
  {
    StepKeepsInv(s, act, s');
    if act.ApplyManual? {
      AppliedRow(s, act.request, act.attempt, s', d);
      var u := s.manual[act.request];
      if u.delivery == d && StillExpected(s.db, u) { assert UpdateFits(u); }
    } else {
      OthersLeaveSettled(s, act, s', d);
    }
  }

  // ----- A run -----

  /** Attempt a is the current attempt of its delivery, and active. */
  predicate ActiveCurrent(db: Db, a: Id) { IsCurrent(db, a) && Active(db.attempts[a].status) }

  /** Step k of the run applies a correction that finds the deployment of the settled attempt a still going on. */
  ghost predicate ReactivatedAt(run: seq<Sys>, acts: seq<Action>, k: nat, a: Id)
    requires |run| == |acts| + 1 && k < |acts|
  {
    && IsCurrent(run[k].db, a) && !Active(run[k].db.attempts[a].status)
    && Schema(run[k].db) && Reactivates(run[k], acts[k], run[k].db.attempts[a].delivery)
  }

  lemma SettledStaysSettled(run: seq<Sys>, acts: seq<Action>, k: nat, a: Id)
    requires Run(run, acts) && k < |acts| && IsCurrent(run[k].db, a) && ActiveCurrent(run[k + 1].db, a)
    requires !ReactivatedAt(run, acts, k, a)
    ensures ActiveCurrent(run[k].db, a)
  {
    InvariantHolds(run, acts, k);
    assert Follows(run, acts, k);
    RunEvolves(run, acts, k);
    var d := run[k].db.attempts[a].delivery;
    assert Linked(run[k].db, d);
    SameOwner(run[k].db, run[k + 1].db, run[k].used, a);
    if !ActiveDelivery(run[k].db, d) { OnlyCorrectionsReactivate(run[k], acts[k], run[k + 1], d); }
  }

  /** An attempt never moves to another delivery. */
  lemma SameOwner(db: Db, db': Db, used: set<Id>, a: Id)
    requires Schema(db) && Evolves(db, db', used) && a in db.attempts && a in db'.attempts
    ensures db'.attempts[a].delivery == db.attempts[a].delivery
  {
  }

  /** An attempt that is current at j was current all the time since it was drawn. */
  lemma WasCurrent(run: seq<Sys>, acts: seq<Action>, a: Id, k: nat, j: nat)
    requires Run(run, acts) && k <= j < |run| && a in run[k].used && IsCurrent(run[j].db, a)
    ensures IsCurrent(run[k].db, a)
  {
    if !IsCurrent(run[k].db, a) { StaysSuperseded(run, acts, a, k, j); }
  }

  lemma {:induction false} UsedStays(run: seq<Sys>, acts: seq<Action>, a: Id, i: nat, k: nat)
    requires Run(run, acts) && i <= k < |run| && a in run[i].used
    ensures a in run[k].used
    decreases k
  {
    if k > i {
      UsedStays(run, acts, a, i, k - 1);
      RunEvolves(run, acts, k - 1);
    }
  }

  /** Without such a correction in between, an attempt active at j was active from i on. */
  lemma {:induction false} ActiveThroughout(run: seq<Sys>, acts: seq<Action>, a: Id, i: nat, k: nat, j: nat)
    requires Run(run, acts) && i <= k <= j < |run| && a in run[i].used && ActiveCurrent(run[j].db, a)
    requires forall n | i <= n < j :: !ReactivatedAt(run, acts, n, a)
    ensures ActiveCurrent(run[k].db, a)
    decreases j - k
  {
    if k < j {
      ActiveThroughout(run, acts, a, i, k + 1, j);
      UsedStays(run, acts, a, i, k);
      WasCurrent(run, acts, a, k, j);
      SettledStaysSettled(run, acts, k, a);
    }
  }

  /**
   * Within one process an attempt that is current and active at two instants is so under the same generation, unless
   * a manual correction in between found its deployment still going on after it had been given up.
   */
  lemma SameGenerationUnlessReactivated(run: seq<Sys>, acts: seq<Action>, a: Id, i: nat, j: nat)
    requires Run(run, acts) && i <= j < |run| && (forall k | i <= k < j :: !acts[k].Crash?)
    requires ActiveCurrent(run[i].db, a) && ActiveCurrent(run[j].db, a)
    requires forall k | i <= k < j :: !ReactivatedAt(run, acts, k, a)
    ensures run[j].mgr.current == run[i].mgr.current
  {
    InvariantHolds(run, acts, i);
    var d := run[i].db.attempts[a].delivery;
    forall k | i <= k <= j ensures Linked(run[k].db, d) && Active(Cur(run[k].db, d).status) {
      ActiveThroughout(run, acts, a, i, k, j);
      InvariantHolds(run, acts, k);
      OwnerStays(run, acts, a, i, k, j);
    }
    OneGenerationPerActivity(run, acts, d, i, j);
  }

  lemma {:induction false} OwnerStays(run: seq<Sys>, acts: seq<Action>, a: Id, i: nat, k: nat, j: nat)
    requires Run(run, acts) && i <= k <= j < |run| && a in run[i].db.attempts && a in run[i].used && ActiveCurrent(run[j].db, a)
    requires forall n | i <= n < j :: !ReactivatedAt(run, acts, n, a)
    ensures a in run[k].db.attempts && run[k].db.attempts[a].delivery == run[i].db.attempts[a].delivery
    decreases k
  {
    if k > i {
      OwnerStays(run, acts, a, i, k - 1, j);
      ActiveThroughout(run, acts, a, i, k, j);
      OwnerKept(run, acts, k - 1, a);
    }
  }

  lemma OwnerKept(run: seq<Sys>, acts: seq<Action>, k: nat, a: Id)
    requires Run(run, acts) && k < |acts| && a in run[k].db.attempts && a in run[k + 1].db.attempts
    ensures run[k + 1].db.attempts[a].delivery == run[k].db.attempts[a].delivery
  {
    RunEvolves(run, acts, k);
    SameOwner(run[k].db, run[k + 1].db, run[k].used, a);
  }

  // ----- An attempt active under two generations -----

  /** The same target, another default interval. */
  const RELOADED := GENERATION.(interval := 2 * SECOND)

  /** The deployment outlived the deadline: the attempt has timed out. */
  const OUTLIVED := Course(Accepted, Some("running"), false, 30 * MINUTE)

  /** The row, given up at the deadline. */
  function GivenUp(): Attempt { Polled(OUTLIVED) }

  function TimedOut(m: ManagerState): Sys {
    AfterPost(GivenUp(), PolledLog(OUTLIVED), Resting, Some(Created(OUTLIVED)), []).(mgr := m)
  }

  /** The verdict on a redeploy after the reload. */
  function Correcting(): ManualUpdate {
    Correction(1, 11, GivenUp(), Created(OUTLIVED), Redeploy, 0, GENERATION.targets["t"])
  }

  function RunningAgain(): Sys {
    var s := TimedOut(NewManager(RELOADED));
    s.(db := One(CorrectedRow(GivenUp(), Correcting()),
                 PolledLog(OUTLIVED) + [AuditRecord(11, GivenUp().status, Correcting().status)]),
       used := s.used + {12})
  }

  lemma GivenUpIs()
    ensures GivenUp().status == Status(Enqueued, Timeout) && GivenUp().bound == Some("x") && GivenUp().delivery == 1
    ensures Correcting().correct && !Correcting().create && Correcting().status == Status(Enqueued, DeploymentStatus.Running)
  {
    assert Looked(OUTLIVED) == Found(Created(OUTLIVED)) && Created(OUTLIVED).status == Some("running");
  }

  lemma ReloadSteps()
    ensures Next(TimedOut(NewManager(GENERATION)), BeginReload, TimedOut(Begun(NewManager(GENERATION))))
    ensures Next(TimedOut(Begun(NewManager(GENERATION))), FinishReload(RELOADED), TimedOut(Published(Begun(NewManager(GENERATION)), RELOADED)))
    ensures Next(TimedOut(Published(Begun(NewManager(GENERATION)), RELOADED)), DrainIdle, TimedOut(NewManager(RELOADED)))
  {
    GivenUpIs();
    OneLinked(GivenUp(), PolledLog(OUTLIVED));
    var db := One(GivenUp(), PolledLog(OUTLIVED));
    forall d | d in db.deliveries ensures !ActiveDelivery(db, d) { assert d == 1; }
    assert ActiveSet(db) == {};
  }

  function Asked(): Sys { TimedOut(NewManager(RELOADED)).(manual := map[77 := Correcting()]) }

  lemma AskStep()
    ensures Next(TimedOut(NewManager(RELOADED)), BeginManual(77, 1, 11, Redeploy, 0, false), Asked())
  {
    GivenUpIs();
    OneLinked(GivenUp(), PolledLog(OUTLIVED));
    var s := TimedOut(NewManager(RELOADED));
    var h := [Created(OUTLIVED)];
    assert HistoryOf(s, "compose") == h && Find(h, 11, Some("x")) == Found(Created(OUTLIVED));
    assert map[][77 := Correcting()] == map[77 := Correcting()];
  }

  lemma ApplyStep()
    ensures Next(Asked(), ApplyManual(77, 12), RunningAgain())
    ensures Schema(Asked().db) && Reactivates(Asked(), ApplyManual(77, 12), 1)
  {
    GivenUpIs();
    OneLinked(GivenUp(), PolledLog(OUTLIVED));
    PutOne(GivenUp(), PolledLog(OUTLIVED), CorrectedRow(GivenUp(), Correcting()), true);
    assert map[77 := Correcting()] - {77} == map[];
  }

  lemma LocatedIsActive()
    ensures ActiveCurrent(AfterPost(Located(OUTLIVED), LocatedLog(OUTLIVED), Resting, Some(Created(OUTLIVED)), []).db, 11)
  {
  }

  /**
   * It happens: in one process that started on the empty database attempt 11 is active under one generation, times
   * out, and after a reload is active again under another.
   */
  lemma ActiveUnderTwoGenerations() returns (s: Sys, t: Sys)
    ensures Reached(s) && Leads(s, t) && ActiveCurrent(s.db, 11) && ActiveCurrent(t.db, 11) && t.mgr.current != s.mgr.current
  {
    s := AfterPost(Located(OUTLIVED), LocatedLog(OUTLIVED), Resting, Some(Created(OUTLIVED)), []);
    t := RunningAgain();
    ReachLocated(OUTLIVED);
    LocatedIsActive();
    GivesUp(s);
    Reloads(s);
    Corrects(s);
    GivenUpIs();
  }

  lemma Reloads(s: Sys)
    requires Leads(s, TimedOut(NewManager(GENERATION)))
    ensures Leads(s, TimedOut(NewManager(RELOADED)))
  {
    ReloadSteps();
    var begun, published := Begun(NewManager(GENERATION)), Published(Begun(NewManager(GENERATION)), RELOADED);
    Onward(s, TimedOut(NewManager(GENERATION)), BeginReload, TimedOut(begun));
    Onward(s, TimedOut(begun), FinishReload(RELOADED), TimedOut(published));
    Onward(s, TimedOut(published), DrainIdle, TimedOut(NewManager(RELOADED)));
  }

  lemma Corrects(s: Sys)
    requires Leads(s, TimedOut(NewManager(RELOADED)))
    ensures Leads(s, RunningAgain())
  {
    AskStep();
    Onward(s, TimedOut(NewManager(RELOADED)), BeginManual(77, 1, 11, Redeploy, 0, false), Asked());
    ApplyStep();
    Onward(s, Asked(), ApplyManual(77, 12), RunningAgain());
  }

  lemma GivesUp(s: Sys)
    requires s == AfterPost(Located(OUTLIVED), LocatedLog(OUTLIVED), Resting, Some(Created(OUTLIVED)), [])
    ensures Leads(s, TimedOut(NewManager(GENERATION)))
  {
    Stays(s);
    ClaimPollStep(OUTLIVED);
    Onward(s, s, ClaimPolls(OUTLIVED.polledAt, [1]), InPoll(OUTLIVED, None));
    LookUpStep(OUTLIVED);
    Onward(s, InPoll(OUTLIVED, None), LookUp(false), InPoll(OUTLIVED, Some(Looked(OUTLIVED))));
    CompleteStep(OUTLIVED);
    Onward(s, InPoll(OUTLIVED, Some(Looked(OUTLIVED))), CompletePoll, TimedOut(NewManager(GENERATION)));
  }
}
