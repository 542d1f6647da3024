/**
 * When a manual request sends a deployment again although the attempt it replaces already has one. The service
 * looks an unbound attempt up by its description token only; the cursor the poller uses plays no part.
 */
module Doubling {
  import opened Domain
  import opened Tables
  import opened Correlation
  import opened Polling
  import opened Intake
  import opened Manual
  import opened Reload
  import opened Protocol
  import opened Invariant
  import opened RowSteps
  import opened Exactness
  import opened Evolution
  import opened Theorems
  import opened Paths
  import opened Reachability

  // ----- One deployment per attempt -----

  /** A deployment was created by a POST that was sent, no attempt created two, and no history lists one twice. */
  ghost predicate Single(s: Sys) {
    && (forall x | x in s.born :: s.born[x] in s.posts)
    && (forall x, y | x in s.born && y in s.born && s.born[x] == s.born[y] :: x == y)
    && (forall res: string :: NoneTwice(HistoryOf(s, res)))
  }

  predicate NoneTwice(h: History) { forall i, j | 0 <= i < j < |h| :: h[i].id != h[j].id }

  lemma EmptyIsSingle(g: Generation, phase: Phase)
    ensures Single(Empty(g, phase))
  {
  }

  lemma PostKeepsSingle(s: Sys, o: Outcome, created: Option<Entry>, s': Sys)
    requires Schema(s.db) && PostsOk(s) && RemoteExact(s) && Single(s) && Posts(s, o, created, s')
    ensures Single(s')
  {
    forall res: string ensures NoneTwice(HistoryOf(s', res)) {
      var h := HistoryOf(s, res);
      assert NoneTwice(h);
      if HistoryOf(s', res) != h {
        assert HistoryOf(s', res) == [created.value] + h;
        forall i | 0 <= i < |h| ensures h[i].id != created.value.id { assert HistoryOf(s, res)[i].id in s.born; }
      }
    }
    assert s.disp.attempt !in s.posts;
  }

  lemma ShrunkKeepsSingle(s: Sys, res: string, h: History, s': Sys)
    requires Single(s) && s' == s.(remote := s.remote[res := h])
    requires |h| <= |HistoryOf(s, res)| && forall i | 0 <= i < |h| :: h[i].id == HistoryOf(s, res)[i].id
    ensures Single(s')
  {
    assert NoneTwice(HistoryOf(s, res));
    forall r: string ensures NoneTwice(HistoryOf(s', r)) {
      assert NoneTwice(HistoryOf(s, r));
      if r == res {
        forall i, j | 0 <= i < j < |h| ensures h[i].id != h[j].id {
          assert HistoryOf(s, res)[i].id != HistoryOf(s, res)[j].id;
        }
      }
    }
  }

  lemma WorkKeepsRemote(s: Sys, act: Action, s': Sys)
    requires Schema(s.db) && Step(s, act, s')
    requires act.Claim? || act.FailSend? || act.ReadCursor? || act.StoreCursor? || act.RecordRequest? || act.FinishSend?
             || act.ClaimPolls? || act.LookUp? || act.CompletePoll? || act.BeginManual? || act.ApplyManual?
    ensures s'.remote == s.remote && s'.born == s.born && s'.posts == s.posts
  {
  }

  lemma LifecycleKeepsRemote(s: Sys, act: Action, s': Sys)
    requires Schema(s.db) && Step(s, act, s') && !act.Post? && !act.Trim? && !act.Edit?
    requires !(act.Claim? || act.FailSend? || act.ReadCursor? || act.StoreCursor? || act.RecordRequest? || act.FinishSend?
               || act.ClaimPolls? || act.LookUp? || act.CompletePoll? || act.BeginManual? || act.ApplyManual?)
    ensures s'.remote == s.remote && s'.born == s.born && s'.posts == s.posts
  {
  }

  lemma OtherStepsKeepRemote(s: Sys, act: Action, s': Sys)
    requires Schema(s.db) && Step(s, act, s') && !act.Post? && !act.Trim? && !act.Edit?
    ensures s'.remote == s.remote && s'.born == s.born && s'.posts == s.posts
  {
    if act.Claim? || act.FailSend? || act.ReadCursor? || act.StoreCursor? || act.RecordRequest? || act.FinishSend?
       || act.ClaimPolls? || act.LookUp? || act.CompletePoll? || act.BeginManual? || act.ApplyManual? {
      WorkKeepsRemote(s, act, s');
    } else {
      LifecycleKeepsRemote(s, act, s');
    }
  }

  lemma SameRemoteKeepsSingle(s: Sys, s': Sys)
    requires Single(s) && s'.remote == s.remote && s'.born == s.born && s'.posts == s.posts
    ensures Single(s')
  {
    forall res: string ensures NoneTwice(HistoryOf(s', res)) { assert NoneTwice(HistoryOf(s, res)); }
  }

  lemma TrimKeepsSingle(s: Sys, res: string, keep: nat, s': Sys)
    requires Schema(s.db) && Single(s) && Step(s, Trim(res, keep), s')
    ensures Single(s')
  {
    ShrunkKeepsSingle(s, res, HistoryOf(s, res)[..keep], s');
  }

  lemma EditKeepsSingle(s: Sys, res: string, i: nat, e: Entry, s': Sys)
    requires Single(s) && Edits(s, res, i, e, s')
    ensures Single(s')
  {
    ShrunkKeepsSingle(s, res, HistoryOf(s, res)[i := e], s');
  }

  lemma StepKeepsSingle(s: Sys, act: Action, s': Sys)
    requires Schema(s.db) && PostsOk(s) && RemoteExact(s) && Single(s) && Step(s, act, s')
    ensures Single(s')
  {
    if act.Post? {
      PostKeepsSingle(s, act.outcome, act.created, s');
    } else if act.Trim? {
      TrimKeepsSingle(s, act.resource, act.keep, s');
    } else if act.Edit? {
      EditKeepsSingle(s, act.resource, act.index, act.entry, s');
    } else {
      OtherStepsKeepRemote(s, act, s');
      SameRemoteKeepsSingle(s, s');
    }
  }

  lemma RunKeepsSingle(run: seq<Sys>, acts: seq<Action>, k: nat)
    requires Run(run, acts) && k < |acts| && Schema(run[k].db) && Exact(run[k]) && Single(run[k])
    ensures Single(run[k + 1])
  {
    InvariantHolds(run, acts, k);
    assert Follows(run, acts, k);
    StepKeepsSingle(run[k], acts[k], run[k + 1]);
  }

  lemma {:induction false} SingleHolds(run: seq<Sys>, acts: seq<Action>, i: nat)
    requires Run(run, acts) && i < |run| && Exact(run[0]) && Single(run[0]) && SeparatedThroughout(run)
    ensures Single(run[i])
  {
    if i > 0 {
      SingleHolds(run, acts, i - 1);
      ExactnessHolds(run, acts, i - 1);
      RunKeepsSingle(run, acts, i - 1);
    }
  }

  // ----- What the lookup of a manual request sees -----

  lemma {:induction false} FindUnique(h: History, a: Id, bound: Option<DeploymentId>, k: nat)
    requires k < |h| && (forall i | 0 <= i < |h| :: h[i].id != "")
    requires forall i | 0 <= i < |h| && i != k :: !Matches(h[i], a, bound)
    ensures Find(h, a, bound) == if Matches(h[k], a, bound) then Found(h[k]) else NotFound
    decreases |h|
  {
    if k > 0 {
      assert !Matches(h[0], a, bound);
      FindUnique(h[1..], a, bound, k - 1);
    } else if !Matches(h[0], a, bound) {
      FindNothing(h[1..], a, bound);
    }
  }

  lemma {:induction false} FindNothing(h: History, a: Id, bound: Option<DeploymentId>)
    requires forall i | 0 <= i < |h| :: h[i].id != "" && !Matches(h[i], a, bound)
    ensures Find(h, a, bound) == NotFound
    decreases |h|
  {
    if h != [] { FindNothing(h[1..], a, bound); }
  }

  /** The lookup finds an attempt's own entry exactly when the attempt is bound or the entry still carries its token. */
  lemma FindsOwnEntry(s: Sys, res: string, a: Id, bound: Option<DeploymentId>, k: nat)
    requires RemoteExact(s) && Single(s) && k < |HistoryOf(s, res)| && Own(s, HistoryOf(s, res)[k].id, a)
    requires bound.Some? ==> Own(s, bound.value, a)
    ensures var h := HistoryOf(s, res);
            Find(h, a, bound) == if bound.Some? || MatchesAttempt(h[k], a) then Found(h[k]) else NotFound
  {
    var h := HistoryOf(s, res);
    assert NoneTwice(h);
    forall i | 0 <= i < |h| && i != k ensures !Matches(h[i], a, bound) {
      assert Honest(HistoryOf(s, res)[i], s.born[HistoryOf(s, res)[i].id]);
      assert h[i].id != h[k].id;
    }
    FindUnique(h, a, bound, k);
  }

  // ----- Exactly when a request sends again -----

  /** Reload, compare-and-swap, binding and operation checks all pass. */
  predicate Permitted(s: Sys, d: Id, expected: Id, op: Operation)
    requires Schema(s.db) && d in s.db.deliveries
  {
    && s.mgr.mode.Idle? && s.db.deliveries[d].current == expected && CurrentlyCompatible(s, d)
    && op in AllowedOperations(Cur(s.db, d).status)
  }

  /** A request submits an update that creates a new attempt. */
  predicate Sends(s': Sys, req: Id) { req in s'.manual && s'.manual[req].create }

  /** What makes a request blind to the deployment e its attempt already has. */
  predicate Overlooked(a: Attempt, current: Id, e: Entry) {
    a.status.transport.Failed? || (a.bound.None? && !MatchesAttempt(e, current))
  }

  predicate FailedRemotely(e: Entry) { e.status == Some("error") || e.status == Some("cancelled") }

  lemma SendsAgainIff(s: Sys, req: Id, d: Id, expected: Id, op: Operation, at: Time, s': Sys, k: nat)
    requires Inv(s) && Exact(s) && Single(s) && BeginsManual(s, req, d, expected, op, at, false, s')
    requires s.db.deliveries[d].binding.Dokploy?
    requires var h := HistoryOf(s, s.db.deliveries[d].binding.resource); k < |h| && Own(s, h[k].id, s.db.deliveries[d].current)
    ensures var x, a := s.db.deliveries[d], Cur(s.db, d);
            var e := HistoryOf(s, x.binding.resource)[k];
            Sends(s', req) <==> Permitted(s, d, expected, op) && (Overlooked(a, x.current, e) || (op.Redeploy? && FailedRemotely(e)))
  {
    var x, a := s.db.deliveries[d], Cur(s.db, d);
    assert RowOk(a) && RowExact(s, x.current, a);
    FindsOwnEntry(s, x.binding.resource, x.current, a.bound, k);
    assert ManualLookup(s, d, false) == Find(HistoryOf(s, x.binding.resource), x.current, a.bound);
    CreationCondition(s.mgr.current, s.mgr.mode.Idle?, d, x, a, expected, op, ManualLookup(s, d, false), at);
  }

  /**
   * In every run: as long as an attempt's own deployment is in the history, a manual request sends once more exactly
   * when it is permitted and either overlooks that deployment, because the send was answered as rejected or because
   * the attempt is unbound and its token is gone, or is a redeploy of a deployment that failed.
   */
  lemma ManualSendsAgainIff(run: seq<Sys>, acts: seq<Action>, i: nat, k: nat)
    requires Run(run, acts) && i < |acts| && Exact(run[0]) && Single(run[0]) && SeparatedThroughout(run)
    requires acts[i].BeginManual? && !acts[i].failed && acts[i].delivery in run[i].db.deliveries
    requires run[i].db.deliveries[acts[i].delivery].binding.Dokploy?
    requires var x := run[i].db.deliveries[acts[i].delivery]; var h := HistoryOf(run[i], x.binding.resource);
             k < |h| && Own(run[i], h[k].id, x.current)
    ensures Schema(run[i].db)
    ensures var x, a := run[i].db.deliveries[acts[i].delivery], Cur(run[i].db, acts[i].delivery);
            var e := HistoryOf(run[i], x.binding.resource)[k];
            Sends(run[i + 1], acts[i].request) <==>
              && Permitted(run[i], acts[i].delivery, acts[i].expected, acts[i].operation)
              && (Overlooked(a, x.current, e) || (acts[i].operation.Redeploy? && FailedRemotely(e)))
  {
    InvariantHolds(run, acts, i);
    ExactnessHolds(run, acts, i);
    SingleHolds(run, acts, i);
    assert Follows(run, acts, i);
    SendsAgainIff(run[i], acts[i].request, acts[i].delivery, acts[i].expected, acts[i].operation, acts[i].at, run[i + 1], k);
  }

  /** In particular a deployment that is running, unrecognized or done is doubled exactly when it is overlooked. */
  lemma LiveDeploymentsAreDoubledIff(run: seq<Sys>, acts: seq<Action>, i: nat, k: nat)
    requires Run(run, acts) && i < |acts| && Exact(run[0]) && Single(run[0]) && SeparatedThroughout(run)
    requires acts[i].BeginManual? && !acts[i].failed && acts[i].delivery in run[i].db.deliveries
    requires run[i].db.deliveries[acts[i].delivery].binding.Dokploy?
    requires var x := run[i].db.deliveries[acts[i].delivery]; var h := HistoryOf(run[i], x.binding.resource);
             k < |h| && Own(run[i], h[k].id, x.current) && !FailedRemotely(h[k])
    ensures Schema(run[i].db)
    ensures var x, a := run[i].db.deliveries[acts[i].delivery], Cur(run[i].db, acts[i].delivery);
            Sends(run[i + 1], acts[i].request) <==>
              && Permitted(run[i], acts[i].delivery, acts[i].expected, acts[i].operation)
              && Overlooked(a, x.current, HistoryOf(run[i], x.binding.resource)[k])
  {
    ManualSendsAgainIff(run, acts, i, k);
  }

  // ----- Two ways to double a running deployment -----

  /** The lone delivery of Reachability after its attempt 11 has settled on a row. */
  function Rested(a: Attempt, log: seq<AuditRecord>, e: Entry): Sys { AfterPost(a, log, Resting, Some(e), []) }

  /** The request 77 to retry attempt 11. */
  function Asked(a: Attempt): ManualUpdate { CreateOnly(1, 11, a, Retry) }

  function Replaced(a: Attempt, log: seq<AuditRecord>, e: Entry): Sys
    requires a.delivery == 1
  {
    OneLinked(a, log);
    var s := Rested(a, log, e);
    s.(db := Supersede(s.db, 1, 12, AttemptKind.Manual(Retry)), used := s.used + {12})
  }

  /** An unbound attempt whose entry carries no token: the lookup sees an entry, but not the attempt's. */
  lemma RetryGoesThrough(a: Attempt, log: seq<AuditRecord>, e: Entry)
    requires a.delivery == 1 && a.bound.None? && e.description.None? && e.id != ""
    requires a.status == Status(Failed, NotStarted) || a.status == Status(TransportStatus.Unknown, Locating)
    ensures var s := Rested(a, log, e); var asked := s.(manual := map[77 := Asked(a)]);
            Next(s, BeginManual(77, 1, 11, Retry, 0, false), asked) && Next(asked, ApplyManual(77, 12), Replaced(a, log, e))
  {
    OneLinked(a, log);
    var s := Rested(a, log, e);
    var asked := s.(manual := map[77 := Asked(a)]);
    var h := [e];
    assert h[1..] == [] && HistoryOf(s, "compose") == h;
    assert Find(h, 11, None) == NotFound;
    assert map[][77 := Asked(a)] == map[77 := Asked(a)];
    assert map[77 := Asked(a)] - {77} == map[];
  }

  lemma RetryReaches(a: Attempt, log: seq<AuditRecord>, e: Entry)
    requires a.delivery == 1 && a.bound.None? && e.description.None? && e.id != ""
    requires a.status == Status(Failed, NotStarted) || a.status == Status(TransportStatus.Unknown, Locating)
    requires Reached(Rested(a, log, e))
    ensures Reached(Replaced(a, log, e))
  {
    var s := Rested(a, log, e);
    var asked := s.(manual := map[77 := Asked(a)]);
    RetryGoesThrough(a, log, e);
    Extend(s, BeginManual(77, 1, 11, Retry, 0, false), asked);
    Extend(asked, ApplyManual(77, 12), Replaced(a, log, e));
  }

  /** A new attempt is pending and may be claimed while the deployment of the one it replaced is running. */
  ghost predicate Doubled(s: Sys, left: Status) {
    && Schema(s.db) && 1 in s.db.deliveries && s.db.deliveries[1].current == 12 && NextClaim(s.db, 1)
    && 11 in s.db.attempts && s.db.attempts[11].status == left && !IsCurrent(s.db, 11)
    && HistoryOf(s, "compose") == [Entry("x", None, Some("running"))] && Own(s, "x", 11)
  }

  lemma ReplacedIsDoubled(a: Attempt, log: seq<AuditRecord>)
    requires a.delivery == 1
    ensures Doubled(Replaced(a, log, Entry("x", None, Some("running"))), a.status)
  {
    OneLinked(a, log);
    var db := One(a, log);
    SupersedeFrame(db, 1, 12, AttemptKind.Manual(Retry));
    var db' := Supersede(db, 1, 12, AttemptKind.Manual(Retry));
    forall d | d in db'.deliveries ensures d == 1 {}
    assert NextClaim(db', 1);
  }

  /** The POST of attempt 11 was lost but accepted, and the description does not carry the token: a retry sends again. */
  lemma RetryDoublesALostSend() returns (s: Sys)
    ensures Reached(s) && Doubled(s, Status(TransportStatus.Unknown, Locating))
  {
    var c := Course(Uncertain, Some("running"), false, SECOND);
    ReachLocated(c);
    RetryReaches(Located(c), LocatedLog(c), Created(c));
    s := Replaced(Located(c), LocatedLog(c), Created(c));
    ReplacedIsDoubled(Located(c), LocatedLog(c));
  }

  const REJECTED := READY.(status := Status(Failed, NotStarted))
  const REJECTED_LOG := LOG + [AuditRecord(11, SENT, Status(Failed, NotStarted))]
  const RUNNING := Entry("x", None, Some("running"))

  lemma RejectedSteps()
    ensures var sent := AfterPost(READY, LOG, Busy(1, 11, GENERATION, Posted("", Definitive)), Some(RUNNING), []);
            && Next(InSend(READY, Recorded("")), Post(Definitive, Some(RUNNING)), sent)
            && Next(sent, FinishSend(0), Rested(REJECTED, REJECTED_LOG, RUNNING))
  {
    OneLinked(READY, LOG);
    assert [RUNNING] + HistoryOf(InSend(READY, Recorded("")), "compose") == [RUNNING];
    assert multiset{} + multiset{11} == multiset{11};
    PutOne(READY, LOG, REJECTED, true);
    assert OutcomeRow(READY, BINDING, Definitive, Some(""), 0, GENERATION.targets["t"]) == REJECTED;
  }

  /** The POST of attempt 11 was answered as rejected although it created a deployment: a retry looks nothing up. */
  lemma RetryDoublesARejectedSend() returns (s: Sys)
    ensures Reached(s) && Doubled(s, Status(Failed, NotStarted))
  {
    ReachReady();
    RejectedSteps();
    var sent := AfterPost(READY, LOG, Busy(1, 11, GENERATION, Posted("", Definitive)), Some(RUNNING), []);
    Extend(InSend(READY, Recorded("")), Post(Definitive, Some(RUNNING)), sent);
    Extend(sent, FinishSend(0), Rested(REJECTED, REJECTED_LOG, RUNNING));
    RetryReaches(REJECTED, REJECTED_LOG, RUNNING);
    s := Replaced(REJECTED, REJECTED_LOG, RUNNING);
    ReplacedIsDoubled(REJECTED, REJECTED_LOG);
  }

  // ----- The pair a superseded attempt keeps -----

  lemma SupersededStep(s: Sys, act: Action, t: Sys, a: Id)
    requires Inv(s) && Next(s, act, t) && a in s.used && !IsCurrent(s.db, a)
    ensures a in t.used && !IsCurrent(t.db, a)
    ensures a in t.db.attempts ==> a in s.db.attempts && t.db.attempts[a] == s.db.attempts[a]
  {
    StepEvolves(s, act, t);
    NotRevived(s.db, t.db, s.used, a);
  }

  /** Wherever the engine goes from there, a superseded attempt's row is as it was, as long as it exists. */
  lemma {:induction false} SupersededForEver(s: Sys, acts: seq<Action>, t: Sys, a: Id)
    requires Inv(s) && Along(s, acts, t) && a in s.used && !IsCurrent(s.db, a)
    ensures Inv(t) && a in t.used && !IsCurrent(t.db, a)
    ensures a in t.db.attempts ==> a in s.db.attempts && t.db.attempts[a] == s.db.attempts[a]
    decreases |acts|
  {
    if acts != [] {
      var u := LastStep(s, acts, t);
      SupersededForEver(s, Front(acts), u, a);
      SupersededStep(u, Last(acts), t, a);
      StepKeepsInv(u, Last(acts), t);
    }
  }

  /** So a row can show unknown and locating for as long as it is kept: nothing will ever locate it. */
  lemma LocatingForEver() returns (s: Sys)
    ensures Reached(s) && 11 in s.db.attempts && s.db.attempts[11].status == Status(TransportStatus.Unknown, Locating)
    ensures forall acts, t | Along(s, acts, t) && 11 in t.db.attempts ::
              t.db.attempts[11].status == Status(TransportStatus.Unknown, Locating)
  {
    s := RetryDoublesALostSend();
    var run, before := ReachedIsRun(s);
    InvariantHolds(run, before, |run| - 1);
    forall acts, t | Along(s, acts, t) && 11 in t.db.attempts
      ensures t.db.attempts[11].status == Status(TransportStatus.Unknown, Locating)
    {
      SupersededForEver(s, acts, t, 11);
    }
  }
}
