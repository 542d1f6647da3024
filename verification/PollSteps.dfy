/** The poller's steps keep the invariant. */
module PollSteps {
  import opened Domain
  import opened Tables
  import opened Correlation
  import opened Polling
  import opened Intake
  import opened Manual
  import opened Reload
  import opened Protocol
  import opened Invariant
  import opened RowSteps

  // ----- Claiming a batch -----

  lemma ClaimBatch(s: Sys, at: Time, ds: seq<Id>)
    requires DbOk(s.db) && DueBatch(s.db, at, ds)
    ensures Batch(s.db, ds, (x, a) => ClaimedRow(a, at))
  {
    forall i | 0 <= i < |ds| ensures RowOk(ClaimedRow(Cur(s.db, ds[i]), at)) {
      assert DueNow(s.db, ds[i], at);
      assert RowOk(Cur(s.db, ds[i]));
    }
  }

  lemma ClaimedCur(s: Sys, at: Time, ds: seq<Id>, s': Sys, d: Id)
    requires DbOk(s.db) && ClaimsPolls(s, at, ds, s') && d in s.db.deliveries
    ensures Linked(s'.db, d)
    ensures Cur(s'.db, d) == if d in ds then ClaimedRow(Cur(s.db, d), at) else Cur(s.db, d)
    ensures d in ds ==> Due(Cur(s.db, d), at)
  {
    ClaimBatch(s, at, ds);
    PutAllCur(s.db, ds, (x, a) => ClaimedRow(a, at), d);
    if d in ds {
      var i :| 0 <= i < |ds| && ds[i] == d;
      assert DueNow(s.db, ds[i], at);
    }
  }

  lemma ClaimPollsMoves(s: Sys, at: Time, ds: seq<Id>, s': Sys)
    requires DbOk(s.db) && ClaimsPolls(s, at, ds, s')
    ensures DbOk(s'.db) && Moved(s.db, s'.db, set d | d in ds)
  {
    ClaimBatch(s, at, ds);
    PutAllOk(s.db, ds, (x, a) => ClaimedRow(a, at));
  }

  lemma ClaimedWork(s: Sys, at: Time, ds: seq<Id>, s': Sys, i: nat)
    requires DbOk(s.db) && GenerationOk(s) && ClaimsPolls(s, at, ds, s') && DbOk(s'.db) && i < |ds|
    requires Moved(s.db, s'.db, set d | d in ds)
    ensures s'.polls[i].work.delivery == ds[i] && s'.polls[i].work.attempt == s.db.deliveries[ds[i]].current
    ensures ClaimStands(s'.db, s'.polls[i].work) && WorkOk(s', s'.polls[i])
  {
    ClaimedCur(s, at, ds, s', ds[i]);
    CurMoved(s.db, s'.db, (set d | d in ds), ds[i]);
  }

  lemma NotClaimed(s: Sys, at: Time, ds: seq<Id>, s': Sys, d: Id)
    requires DbOk(s.db) && PollsOk(s) && ClaimsPolls(s, at, ds, s') && DbOk(s'.db) && d in s.db.deliveries && d in s'.db.deliveries && d !in ds
    requires Monitored(Cur(s'.db, d).status.deployment)
    ensures Unclaimed(Cur(s'.db, d))
  {
    ClaimedCur(s, at, ds, s', d);
    assert !UnderClaim(s, d);
  }

  lemma ClaimPollsWork(s: Sys, at: Time, ds: seq<Id>, s': Sys)
    requires DbOk(s.db) && PollsOk(s) && GenerationOk(s) && ClaimsPolls(s, at, ds, s') && DbOk(s'.db)
    requires Moved(s.db, s'.db, set d | d in ds)
    ensures PollsOk(s')
  {
    forall i | 0 <= i < |s'.polls|
      ensures s'.polls[i].work.delivery == ds[i] && ClaimStands(s'.db, s'.polls[i].work) && WorkOk(s', s'.polls[i])
    {
      ClaimedWork(s, at, ds, s', i);
    }
    forall d | d in s'.db.deliveries && Monitored(Cur(s'.db, d).status.deployment)
      ensures Unclaimed(Cur(s'.db, d)) || UnderClaim(s', d)
    {
      if d in ds {
        var i :| 0 <= i < |ds| && ds[i] == d;
        assert s'.polls[i].work.delivery == d;
      } else {
        NotClaimed(s, at, ds, s', d);
      }
    }
  }

  lemma ClaimPollsKnown(s: Sys, at: Time, ds: seq<Id>, s': Sys)
    requires Inv(s) && ClaimsPolls(s, at, ds, s') && DbOk(s'.db) && Moved(s.db, s'.db, set d | d in ds)
    ensures Known(s')
  {
    forall i | 0 <= i < |s'.polls| ensures s'.polls[i].work.attempt in s'.used && s'.polls[i].work.delivery in s'.used {
      assert Linked(s.db, ds[i]);
      ClaimedWork(s, at, ds, s', i);
    }
  }

  lemma ClaimPollsKeeps(s: Sys, at: Time, ds: seq<Id>, s': Sys)
    requires Inv(s) && ClaimsPolls(s, at, ds, s')
    ensures Inv(s')
  {
    var m := set d | d in ds;
    ClaimPollsMoves(s, at, ds, s');
    ClaimPollsWork(s, at, ds, s');
    ClaimPollsKnown(s, at, ds, s');
    forall d | d in s.db.deliveries && d in m ensures OnlyClaimed(Cur(s.db, d), Cur(s'.db, d)) {
      ClaimedCur(s, at, ds, s', d);
    }
    PollsClaimedKeeps(s, s', m);
  }

  predicate OnlyClaimed(a: Attempt, b: Attempt) {
    b == a.(lastPolled := b.lastPolled) && Monitored(a.status.deployment)
  }

  lemma PollsClaimedKeeps(s: Sys, s': Sys, m: set<Id>)
    requires Inv(s) && s' == s.(db := s'.db, polls := s'.polls) && s.phase.Serving?
    requires DbOk(s'.db) && Moved(s.db, s'.db, m) && PollsOk(s') && Known(s')
    requires forall d | d in m && d in s.db.deliveries :: OnlyClaimed(Cur(s.db, d), Cur(s'.db, d))
    ensures Inv(s')
  {
    forall d | d in m && d in s.db.deliveries
      ensures Expected(Cur(s.db, d).status) && BindingKept(Cur(s.db, d), Cur(s'.db, d)) && CurrentlyCompatible(s, d)
    {
      assert RowOk(Cur(s.db, d)) && ActiveDelivery(s.db, d);
    }
    MutexMoved(s.db, s'.db, m);
    DispatchMoved(s, s', m);
    ManualMoved(s, s', m);
    GenerationMoved(s, s', m);
    PostsMoved(s, s', m);
  }

  // ----- Looking up -----

  lemma AnswerFits(g: Generation, remote: map<string, History>, x: Delivery, w: PollWork)
    ensures LookupFits(w, Answer(g, remote, x, w))
  {
    if Compatible(g, x.target, x.binding) && x.binding.Dokploy? {
      var h := if x.binding.resource in remote then remote[x.binding.resource] else [];
      if w.bound.Some? || w.cursor.None? {
        if Find(h, w.attempt, w.bound).Found? { FoundMatches(h, w.attempt, w.bound); }
        FindIsDefinite(h, w.attempt, w.bound);
      } else if FindAfter(h, w.attempt, w.cursor.value).Found? {
        FoundIsNewer(h, w.attempt, w.cursor.value);
      }
    }
  }

  lemma LookupAlwaysFits(s: Sys, p: InFlight)
    ensures LookupFits(p.work, LookupOf(s, p))
  {
    if p.work.delivery in s.db.deliveries { AnswerFits(p.gen, s.remote, s.db.deliveries[p.work.delivery], p.work); }
  }

  lemma {:induction false} FindIsDefinite(h: History, a: Id, bound: Option<DeploymentId>)
    ensures !Find(h, a, bound).Ambiguous? && !Find(h, a, bound).CursorMissing?
  {
    if h != [] { FindIsDefinite(h[1..], a, bound); }
  }

  lemma LookUpKeeps(s: Sys, failed: bool, s': Sys)
    requires Inv(s) && LooksUp(s, failed, s')
    ensures Inv(s')
  {
    LookupAlwaysFits(s, s.polls[0]);
    forall i | 0 <= i < |s'.polls| ensures WorkOk(s', s'.polls[i]) {
      assert WorkOk(s, s.polls[i]);
    }
    forall d | UnderClaim(s, d) ensures UnderClaim(s', d) {
      var i :| 0 <= i < |s.polls| && s.polls[i].work.delivery == d && ClaimStands(s.db, s.polls[i].work);
      assert s'.polls[i].work == s.polls[i].work;
    }
  }

  // ----- Completing -----

  /** What remains of the batch once its head is done; the head no longer blocks any row. */
  lemma HeadDone(s: Sys, s': Sys, d: Id)
    requires Schema(s.db) && DbOk(s'.db) && PollsOk(s) && s.polls != [] && s'.polls == s.polls[1..]
    requires s'.mgr == s.mgr && s'.phase == s.phase && Moved(s.db, s'.db, {d}) && d == s.polls[0].work.delivery
    requires d in s'.db.deliveries && Monitored(Cur(s'.db, d).status.deployment) ==> Unclaimed(Cur(s'.db, d))
    ensures PollsOk(s')
  {
    forall i | 0 <= i < |s'.polls| ensures WorkOk(s', s'.polls[i]) {
      assert s'.polls[i] == s.polls[i + 1];
      assert WorkOk(s, s.polls[i + 1]);
      StandsMoved(s.db, s'.db, {d}, s.polls[i + 1].work);
      if ClaimStands(s'.db, s.polls[i + 1].work) { CurMoved(s.db, s'.db, {d}, s.polls[i + 1].work.delivery); }
    }
    if Live(s'.phase) {
      forall x | x in s'.db.deliveries && Monitored(Cur(s'.db, x).status.deployment)
        ensures Unclaimed(Cur(s'.db, x)) || UnderClaim(s', x)
      {
        CurMoved(s.db, s'.db, {d}, x);
        if x != d && !Unclaimed(Cur(s.db, x)) {
          var i :| 0 <= i < |s.polls| && s.polls[i].work.delivery == x && ClaimStands(s.db, s.polls[i].work);
          StandsMoved(s.db, s'.db, {d}, s.polls[i].work);
          assert s'.polls[i - 1].work.delivery == x && ClaimStands(s'.db, s'.polls[i - 1].work);
        }
      }
    }
  }

  lemma RejectedPollKeeps(s: Sys, s': Sys)
    requires Inv(s) && s.polls != [] && !ClaimStands(s.db, s.polls[0].work) && s' == s.(polls := s.polls[1..])
    ensures Inv(s')
  {
    var d := s.polls[0].work.delivery;
    HeadDone(s, s', d);
  }

  /** a is the row before, b the row after the completion. */
  lemma CompletedFacts(s: Sys, s': Sys) returns (a: Attempt, b: Attempt)
    requires DbOk(s.db) && PollsOk(s) && CompletesPoll(s, s') && ClaimStands(s.db, s.polls[0].work)
    ensures var d := s.polls[0].work.delivery;
            && d in s.db.deliveries && a == Cur(s.db, d) && d in s.db.audit
            && s' == s.(db := Put(s.db, d, b, a.status != b.status), polls := s.polls[1..])
            && DbOk(s'.db) && Moved(s.db, s'.db, {d}) && Cur(s'.db, d) == b
    ensures BindingKept(a, b) && EvidenceKept(a, b)
    ensures Monitored(b.status.deployment) ==> Unclaimed(b)
    ensures Monitored(a.status.deployment) && !a.status.transport.Sending? && !b.status.transport.Sending? && !b.status.transport.Pending?
    ensures Holds(b) ==> Holds(a)
    ensures a.bound.None? && b.bound.Some? ==>
              s.polls[0].looked.value.Found? && b.bound.value == s.polls[0].looked.value.entry.id
    ensures Millis(s.polls[0].work.claimedAt) >= s.polls[0].work.deadline ==> !Active(b.status)
    ensures b.deadline == a.deadline && b.lastPolled == a.lastPolled && b.kind == a.kind
  {
    var p := s.polls[0];
    var d := p.work.delivery;
    a := Cur(s.db, d);
    assert WorkOk(s, p) && RowOk(a);
    CompletionReleasesOrEnds(a, p.work, p.looked.value, WorkInterval(s, p));
    b := CompletedRow(a, DecideLookup(p.work, p.looked.value, p.work.claimedAt, WorkInterval(s, p)));
    PutStep(s.db, d, b, a.status != b.status);
  }

  lemma CompletePollKeeps(s: Sys, s': Sys)
    requires Inv(s) && CompletesPoll(s, s')
    ensures Inv(s')
  {
    if !ClaimStands(s.db, s.polls[0].work) {
      RejectedPollKeeps(s, s');
    } else {
      var a, b := CompletedFacts(s, s');
      PollWrittenKeeps(s, a, b, s');
    }
  }

  lemma PollWrittenKeeps(s: Sys, a: Attempt, b: Attempt, s': Sys)
    requires Inv(s) && s.polls != [] && s.polls[0].work.delivery in s.db.deliveries
    requires var d := s.polls[0].work.delivery;
             && a == Cur(s.db, d) && s' == s.(db := s'.db, polls := s.polls[1..])
             && DbOk(s'.db) && Moved(s.db, s'.db, {d}) && Cur(s'.db, d) == b
    requires BindingKept(a, b) && EvidenceKept(a, b) && (Monitored(b.status.deployment) ==> Unclaimed(b))
    requires Monitored(a.status.deployment) && !a.status.transport.Sending? && !b.status.transport.Sending? && (Holds(b) ==> Holds(a))
    ensures Inv(s')
  {
    var d := s.polls[0].work.delivery;
    MutexMoved(s.db, s'.db, {d});
    DispatchMoved(s, s', {d});
    HeadDone(s, s', d);
    ManualMoved(s, s', {d});
    assert ActiveDelivery(s.db, d);
    GenerationMoved(s, s', {d});
    PostsMoved(s, s', {d});
  }
}
