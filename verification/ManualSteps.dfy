/** Manual operations keep the invariant. */
module ManualSteps {
  import opened Domain
  import opened Tables
  import opened Correlation
  import opened Polling
  import opened Intake
  import opened Manual
  import opened Reload
  import opened Protocol
  import opened Invariant
  import opened RowSteps

  lemma BeginManualKeeps(s: Sys, req: Id, d: Id, expected: Id, op: Operation, at: Time, failed: bool, s': Sys)
    requires Inv(s) && BeginsManual(s, req, d, expected, op, at, failed, s')
    ensures Inv(s')
  {
    var x, a := s.db.deliveries[d], Cur(s.db, d);
    assert RowOk(a);
    var h := if x.binding.Dokploy? then HistoryOf(s, x.binding.resource) else [];
    SubmittedUpdatesFit(s.mgr.current, s.mgr.mode.Idle?, d, x, a, expected, op, h, failed, at);
    if s' != s { SubmittedKeeps(s, req, s'.manual[req], s'); }
  }

  lemma SubmittedKeeps(s: Sys, req: Id, u: ManualUpdate, s': Sys)
    requires Inv(s) && s' == s.(manual := s.manual[req := u]) && s.phase.Serving? && s.mgr.mode.Idle?
    requires UpdateFits(u) && u.delivery in s.db.deliveries && u.attempt == s.db.deliveries[u.delivery].current
    requires CurrentlyCompatible(s, u.delivery) && u.seen == Cur(s.db, u.delivery).bound
    requires u.before == Cur(s.db, u.delivery).status
    ensures Inv(s')
  {
    assert Linked(s.db, u.delivery);
    assert RowOk(Cur(s.db, u.delivery));
    forall i | 0 <= i < |s'.polls| ensures WorkOk(s', s'.polls[i]) {
      assert WorkOk(s, s.polls[i]);
    }
    forall d | UnderClaim(s, d) ensures UnderClaim(s', d) {
      var i :| 0 <= i < |s.polls| && s.polls[i].work.delivery == d && ClaimStands(s.db, s.polls[i].work);
      assert s'.polls[i].work.delivery == d;
    }
  }

  /** A request leaves without effect. */
  lemma DroppedKeeps(s: Sys, req: Id, id: Id, s': Sys)
    requires Inv(s) && req in s.manual && s' == s.(used := s.used + {id}, manual := s.manual - {req})
    ensures Inv(s')
  {
    forall i | 0 <= i < |s'.polls| ensures WorkOk(s', s'.polls[i]) {
      assert WorkOk(s, s.polls[i]);
    }
    forall d | UnderClaim(s, d) ensures UnderClaim(s', d) {
      var i :| 0 <= i < |s.polls| && s.polls[i].work.delivery == d && ClaimStands(s.db, s.polls[i].work);
      assert s'.polls[i].work.delivery == d;
    }
  }

  /** The compare-and-swap guarantees that a correction agrees with whatever the row is bound to by now. */
  lemma CorrectionFacts(s: Sys, u: ManualUpdate)
    requires Inv(s) && UpdateFits(u) && u.correct && StillExpected(s.db, u) && Consistent(u, Cur(s.db, u.delivery))
    ensures var a, b := Cur(s.db, u.delivery), CorrectedRow(Cur(s.db, u.delivery), u);
            RowOk(b) && BindingKept(a, b) && EvidenceKept(a, b) && !Holds(b)
            && !a.status.transport.Sending? && !b.status.transport.Sending? && b.delivery == u.delivery
  {
    assert RowOk(Cur(s.db, u.delivery));
    CorrectionIsSound(Cur(s.db, u.delivery), u);
  }

  lemma CorrectedRows(s: Sys, req: Id, s': Sys)
    requires Inv(s) && req in s.manual && s.manual[req].correct && StillExpected(s.db, s.manual[req])
    requires s' == s.(db := Corrected(s.db, s.manual[req]), manual := s.manual - {req})
    ensures DbOk(s'.db) && Moved(s.db, s'.db, {s.manual[req].delivery}) && Mutex(s'.db) && DispatchOk(s') && PollsOk(s')
    ensures Cur(s'.db, s.manual[req].delivery) == CorrectedRow(Cur(s.db, s.manual[req].delivery), s.manual[req])
  {
    var u := s.manual[req];
    var d := u.delivery;
    CorrectionFacts(s, u);
    PutStep(s.db, d, CorrectedRow(Cur(s.db, d), u), true);
    MutexMoved(s.db, s'.db, {d});
    DispatchMoved(s, s', {d});
    PollsReleased(s, s', {d});
  }

  lemma CorrectedKeeps(s: Sys, req: Id, s': Sys)
    requires Inv(s) && req in s.manual && s.manual[req].correct && StillExpected(s.db, s.manual[req])
    requires s' == s.(db := Corrected(s.db, s.manual[req]), manual := s.manual - {req})
    ensures Inv(s')
  {
    var d := s.manual[req].delivery;
    CorrectedRows(s, req, s');
    CorrectionFacts(s, s.manual[req]);
    ManualMoved(s, s', {d});
    GenerationMoved(s, s', {d});
    PostsMoved(s, s', {d});
    assert s.phase.Serving?;
  }

  // ----- A new attempt -----

  lemma SupersedePolls(s: Sys, d: Id, id: Id, kind: AttemptKind, s': Sys)
    requires DbOk(s.db) && PollsOk(s) && Known(s) && d in s.db.deliveries && id !in s.used
    requires s' == s.(db := Supersede(s.db, d, id, kind), used := s.used + {id})
    ensures Schema(s'.db) && PollsOk(s')
  {
    SupersedeFrame(s.db, d, id, kind);
    forall i | 0 <= i < |s'.polls|
      ensures WorkOk(s', s'.polls[i]) && (ClaimStands(s'.db, s'.polls[i].work) <==> ClaimStands(s.db, s'.polls[i].work) && s'.polls[i].work.delivery != d)
    {
      assert WorkOk(s, s.polls[i]);
    }
    if Live(s'.phase) {
      forall x | x in s'.db.deliveries && Monitored(Cur(s'.db, x).status.deployment)
        ensures Unclaimed(Cur(s'.db, x)) || UnderClaim(s', x)
      {
        assert x != d;
        if !Unclaimed(Cur(s.db, x)) {
          var i :| 0 <= i < |s.polls| && s.polls[i].work.delivery == x && ClaimStands(s.db, s.polls[i].work);
          assert s'.polls[i].work.delivery == x;
        }
      }
    }
  }

  lemma SupersedeKeeps(s: Sys, d: Id, id: Id, kind: AttemptKind, s': Sys)
    requires Inv(s) && d in s.db.deliveries && id !in s.used && CurrentlyCompatible(s, d)
    requires !Cur(s.db, d).status.transport.Sending?
    requires s' == s.(db := Supersede(s.db, d, id, kind), used := s.used + {id})
    ensures Inv(s')
  {
    SupersedeOk(s.db, d, id, kind);
    SupersedeFrame(s.db, d, id, kind);
    SupersedePolls(s, d, id, kind, s');
    SupersedeRest(s, d, id, kind, s');
    assert Mutex(s'.db) by {
      forall x, y | x in s'.db.deliveries && y in s'.db.deliveries && x != y && Conflict(s'.db.deliveries[x], s'.db.deliveries[y])
        ensures !(Holds(Cur(s'.db, x)) && Holds(Cur(s'.db, y)))
      {
        assert !Holds(Cur(s'.db, d));
      }
    }
  }

  lemma SupersedeRest(s: Sys, d: Id, id: Id, kind: AttemptKind, s': Sys)
    requires Inv(s) && d in s.db.deliveries && id !in s.used && CurrentlyCompatible(s, d) && Schema(s'.db)
    requires !Cur(s.db, d).status.transport.Sending?
    requires s' == s.(db := Supersede(s.db, d, id, kind), used := s.used + {id})
    requires forall x | x in s.db.deliveries && x != d :: Cur(s'.db, x) == Cur(s.db, x)
    requires Cur(s'.db, d) == NewAttempt(d, kind)
    ensures DispatchOk(s') && ManualOk(s') && GenerationOk(s') && PostsOk(s')
  {
    forall x | x in s'.db.deliveries && ActiveDelivery(s'.db, x) ensures !s.phase.Terminating? ==> CurrentlyCompatible(s', x) {
      if x != d { assert ActiveDelivery(s.db, x) && (!s.phase.Terminating? ==> CurrentlyCompatible(s, x)); }
    }
    forall a | a in s'.posts && a in s'.db.attempts
      ensures s'.db.attempts[a].requestAt.Some?
      ensures s'.db.deliveries[s'.db.attempts[a].delivery].binding.Dokploy? ==> s'.db.attempts[a].cursor.Some?
    {
      assert a != id;
      assert s.db.attempts[a].delivery in s.db.deliveries;
    }
  }

  lemma ApplyManualKeeps(s: Sys, req: Id, id: Id, s': Sys)
    requires Inv(s) && AppliesManual(s, req, id, s')
    ensures Inv(s')
  {
    var u := s.manual[req];
    if !StillExpected(s.db, u) {
      DroppedKeeps(s, req, id, s');
    } else {
      var s1 := s.(db := Corrected(s.db, u), manual := s.manual - {req});
      if u.correct {
        CorrectedKeeps(s, req, s1);
        CorrectionFacts(s, u);
        PutStep(s.db, u.delivery, CorrectedRow(Cur(s.db, u.delivery), u), true);
      } else {
        DroppedKeeps(s, req, u.attempt, s1);
      }
      if u.create {
        SupersedeKeeps(s1, u.delivery, id, AttemptKind.Manual(u.operation), s');
      } else {
        UsedGrows(s1, id, s');
      }
    }
  }

  lemma UsedGrows(s: Sys, id: Id, s': Sys)
    requires Inv(s) && s' == s.(used := s.used + {id})
    ensures Inv(s')
  {
    forall i | 0 <= i < |s'.polls| ensures WorkOk(s', s'.polls[i]) {
      assert WorkOk(s, s.polls[i]);
    }
    forall d | UnderClaim(s, d) ensures UnderClaim(s', d) {
      var i :| 0 <= i < |s.polls| && s.polls[i].work.delivery == d && ClaimStands(s.db, s.polls[i].work);
      assert s'.polls[i].work.delivery == d;
    }
  }
}
