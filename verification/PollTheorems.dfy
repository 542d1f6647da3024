/** Poll claims across a run: exclusive, never lost, bounded by the deadline. */
module PollTheorems {
  import opened Domain
  import opened Tables
  import opened Polling
  import opened Protocol
  import opened Invariant
  import opened RowSteps
  import opened PollSteps
  import opened Evolution
  import opened Theorems

  /** A delivery whose poll is in the batch cannot be claimed again, at any time. */
  lemma ClaimsAreExclusive(run: seq<Sys>, acts: seq<Action>, i: nat, d: Id, now: Time)
    requires Run(run, acts) && i < |run| && UnderClaim(run[i], d)
    ensures Linked(run[i].db, d) && !Due(Cur(run[i].db, d), now)
  {
    InvariantHolds(run, acts, i);
    var s := run[i];
    var k :| 0 <= k < |s.polls| && s.polls[k].work.delivery == d && ClaimStands(s.db, s.polls[k].work);
    assert WorkOk(s, s.polls[k]);
  }

  /** A monitored delivery is either being polled or falls due: no claim is ever lost. */
  lemma ClaimsAreNeverLost(run: seq<Sys>, acts: seq<Action>, i: nat, d: Id, now: Time)
    requires Run(run, acts) && i < |run| && run[i].phase.Serving? && d in run[i].db.deliveries
    ensures Linked(run[i].db, d)
    ensures Monitored(Cur(run[i].db, d).status.deployment) && !UnderClaim(run[i], d) ==>
              && HasSchedule(Cur(run[i].db, d))
              && (Due(Cur(run[i].db, d), now) <==> DueAt(Cur(run[i].db, d)) <= Millis(now))
  {
    InvariantHolds(run, acts, i);
    assert RowOk(Cur(run[i].db, d));
  }

  /** A poll that completes under a claim taken at or after the deadline is the last one. */
  lemma LateCompletionsAreFinal(run: seq<Sys>, acts: seq<Action>, i: nat)
    requires Run(run, acts) && i < |acts| && acts[i].CompletePoll? && run[i].polls != []
    requires ClaimStands(run[i].db, run[i].polls[0].work)
    requires Millis(run[i].polls[0].work.claimedAt) >= run[i].polls[0].work.deadline
    ensures Linked(run[i + 1].db, run[i].polls[0].work.delivery)
    ensures !Active(Cur(run[i + 1].db, run[i].polls[0].work.delivery).status)
  {
    InvariantHolds(run, acts, i);
    assert Follows(run, acts, i);
    var a, b := CompletedFacts(run[i], run[i + 1]);
  }

  /** How often last_polled_at of an attempt moved between two states. */
  ghost function Claims(run: seq<Sys>, a: Id, i: nat, j: nat): nat
    requires Lives(run, a, i, j)
    decreases j
  {
    if j == i then 0
    else Claims(run, a, i, j - 1) + (if run[j].db.attempts[a].lastPolled != run[j - 1].db.attempts[a].lastPolled then 1 else 0)
  }

  /** Between i and j the attempt carries a poll mark that is never reset. */
  ghost predicate Marked(run: seq<Sys>, a: Id, i: nat, j: nat)
    requires Lives(run, a, i, j)
  {
    forall k | i <= k <= j :: run[k].db.attempts[a].lastPolled.Some? && run[k].db.attempts[a].deadline.Some?
  }

  lemma MarkMoves(run: seq<Sys>, acts: seq<Action>, a: Id, k: nat)
    requires Run(run, acts) && k < |acts| && a in run[k].db.attempts && a in run[k + 1].db.attempts
    requires run[k].db.attempts[a].lastPolled.Some? && run[k + 1].db.attempts[a].lastPolled.Some?
    requires run[k].db.attempts[a].deadline.Some?
    ensures run[k + 1].db.attempts[a].deadline == run[k].db.attempts[a].deadline
    ensures run[k + 1].db.attempts[a].lastPolled != run[k].db.attempts[a].lastPolled ==>
              && run[k].db.attempts[a].lastPolled.value < run[k + 1].db.attempts[a].lastPolled.value
              && run[k].db.attempts[a].lastPolled.value < run[k].db.attempts[a].deadline.value
  {
    RunEvolves(run, acts, k);
  }

  /** The mark moves strictly forward and only while it is before the deadline, so claims are bounded by what is left. */
  lemma {:induction false} PollsAreBounded(run: seq<Sys>, acts: seq<Action>, a: Id, i: nat, j: nat)
    requires Run(run, acts) && Lives(run, a, i, j) && Marked(run, a, i, j)
    ensures run[j].db.attempts[a].deadline == run[i].db.attempts[a].deadline
    ensures Claims(run, a, i, j) <= run[j].db.attempts[a].lastPolled.value - run[i].db.attempts[a].lastPolled.value
    ensures Claims(run, a, i, j) > 0 ==>
              Claims(run, a, i, j) <= run[i].db.attempts[a].deadline.value - run[i].db.attempts[a].lastPolled.value
    decreases j
  {
    if j > i {
      assert Lives(run, a, i, j - 1) && Marked(run, a, i, j - 1);
      PollsAreBounded(run, acts, a, i, j - 1);
      MarkMoves(run, acts, a, j - 1);
    }
  }

  // ----- When polls begin -----

  function Earlier(x: int, y: int): int { if x < y then x else y }

  /** A send whose deployment has to be located is first due after the interval, or at its deadline if that is earlier. */
  lemma SentRowsFallDue(a: Attempt, b: Binding, o: Outcome, json: Json, at: Time, t: Target, now: Time)
    requires RowOk(a) && a.status.transport.Sending? && b.Dokploy? && !o.Definitive?
    ensures var r := OutcomeRow(a, b, o, Some(json), at, t);
            && RowOk(r) && Unclaimed(r) && r.deadline == Some(Millis(at + t.timeout))
            && (Due(r, now) <==> Millis(at + Earlier(t.interval, t.timeout)) <= Millis(now))
  {
    MillisMonotone(at + t.interval, at + t.timeout);
    MillisMonotone(at + t.timeout, at + t.interval);
  }

  lemma MillisMonotone(x: Time, y: Time)
    ensures x <= y ==> Millis(x) <= Millis(y)
  {
  }

  /** Recovery keeps an existing schedule and deadline, and gives an interrupted send a fresh one. */
  lemma RecoveredRowsFallDue(g: Generation, at: Time, x: Delivery, a: Attempt, now: Time)
    requires RowOk(a) && Interrupted(a)
    ensures var r := RecoveredRow(g, at, x, a);
            var t := if x.target in g.targets then g.targets[x.target] else Target(x.binding, g.interval, g.timeout);
            && RowOk(r) && Unclaimed(r) && Monitored(r.status.deployment)
            && r.bound == a.bound && r.cursor == a.cursor && r.request == a.request
            && (Monitored(a.status.deployment) ==> DueAt(r) == DueAt(a) && r.deadline == a.deadline && r.status == a.status)
            && (a.status.transport.Sending? ==>
                  && r.status == Status(TransportStatus.Unknown, Locating) && r.deadline == Some(Millis(at + t.timeout))
                  && (Due(r, now) <==> Millis(at + Earlier(t.interval, t.timeout)) <= Millis(now)))
  {
    var t := if x.target in g.targets then g.targets[x.target] else Target(x.binding, g.interval, g.timeout);
    MillisMonotone(at + t.interval, at + t.timeout);
    MillisMonotone(at + t.timeout, at + t.interval);
  }
}
