/** The inductive invariant of the delivery engine. */
module Invariant {
  import opened Domain
  import opened Tables
  import opened Correlation
  import opened Polling
  import opened Intake
  import opened Manual
  import opened Reload
  import opened Protocol

  /** Two conflicting deliveries never both hold the resource. */
  ghost predicate Mutex(db: Db)
    requires Schema(db)
  {
    forall x, y | x in db.deliveries && y in db.deliveries && x != y
                  && Conflict(db.deliveries[x], db.deliveries[y]) :: !(Holds(Cur(db, x)) && Holds(Cur(db, y)))
  }

  /** Every id that occurs anywhere has been drawn before. */
  ghost predicate Known(s: Sys) {
    && s.db.events.Keys <= s.used && s.db.deliveries.Keys <= s.used && s.db.attempts.Keys <= s.used
    && (forall a | a in s.posts :: a in s.used)
    && (forall x | x in s.born :: s.born[x] in s.used)
    && (forall i | 0 <= i < |s.polls| :: s.polls[i].work.attempt in s.used && s.polls[i].work.delivery in s.used)
    && (forall r | r in s.manual :: s.manual[r].attempt in s.used && s.manual[r].delivery in s.used)
  }

  /** The stage of a send is what its row says. */
  predicate StageOk(b: Binding, a: Attempt, st: Stage) {
    match st
    case Claimed => a.cursor.None? && a.request.None? && a.requestAt.None?
    case CursorRead(_) => b.Dokploy? && a.cursor.None? && a.request.None? && a.requestAt.None?
    case CursorStored => b.Dokploy? && a.cursor.Some? && a.request.None? && a.requestAt.None?
    case Recorded(json) => a.request == Some(json) && a.requestAt.Some? && (b.Dokploy? <==> a.cursor.Some?)
    case Posted(json, _) => a.request == Some(json) && a.requestAt.Some? && (b.Dokploy? <==> a.cursor.Some?)
  }

  /** From the end of recovery on, no row is left behind in a send or under a claim nobody works on. */
  predicate Live(ph: Phase) { ph.Initializing? || ph.Serving? }

  ghost predicate DispatchOk(s: Sys)
    requires Schema(s.db)
  {
    && (s.disp.Busy? ==>
          && SendingStands(s) && Resolved(s) && s.disp.gen == s.mgr.current
          && StageOk(SentBinding(s), Cur(s.db, s.disp.delivery), s.disp.stage))
    && (Live(s.phase) ==> forall d | d in s.db.deliveries && Cur(s.db, d).status.transport.Sending? ::
          s.disp.Busy? && s.disp.delivery == d)
  }

  /** Outside Serving nothing is in flight. */
  predicate Quiescent(s: Sys) {
    !s.phase.Serving? ==> s.disp.Resting? && s.polls == [] && s.manual == map[]
  }

  ghost predicate WorkOk(s: Sys, p: InFlight) {
    && Compiled(p.gen)
    && (ClaimStands(s.db, p.work) ==>
          && WorkMatches(p.work, Cur(s.db, p.work.delivery)) && p.gen == s.mgr.current
          && (p.looked.Some? ==> LookupFits(p.work, p.looked.value)))
  }

  ghost predicate UnderClaim(s: Sys, d: Id) {
    exists i :: 0 <= i < |s.polls| && s.polls[i].work.delivery == d && ClaimStands(s.db, s.polls[i].work)
  }

  ghost predicate PollsOk(s: Sys)
    requires Schema(s.db)
  {
    && (forall i | 0 <= i < |s.polls| :: WorkOk(s, s.polls[i]))
    && (forall i, j | 0 <= i < j < |s.polls| :: s.polls[i].work.delivery != s.polls[j].work.delivery)
    && (Live(s.phase) ==> forall d | d in s.db.deliveries && Monitored(Cur(s.db, d).status.deployment) ::
          Unclaimed(Cur(s.db, d)) || UnderClaim(s, d))
  }

  /** A submitted update still fits the row it was decided on, as long as that row is current. */
  predicate Consistent(u: ManualUpdate, a: Attempt) {
    && (u.seen.Some? ==> a.bound == u.seen)
    && (u.seen.None? && a.bound.Some? ==>
          !a.status.deployment.Locating? && a.status.deployment != DeploymentStatus.Unknown)
  }

  ghost predicate ManualOk(s: Sys)
    requires Schema(s.db)
  {
    && (s.manual != map[] ==> s.mgr.mode.Idle?)
    && forall r | r in s.manual ::
         && UpdateFits(s.manual[r])
         && (s.manual[r].delivery in s.db.deliveries && s.db.deliveries[s.manual[r].delivery].current == s.manual[r].attempt ==>
               CurrentlyCompatible(s, s.manual[r].delivery) && Consistent(s.manual[r], Cur(s.db, s.manual[r].delivery)))
  }

  ghost predicate GenerationOk(s: Sys)
    requires Schema(s.db)
  {
    && Compiled(s.mgr.current) && !s.mgr.mode.Applying?
    && (s.mgr.candidate.Some? ==> s.mgr.mode.Waiting? && Compiled(s.mgr.candidate.value))
    && (!s.phase.Terminating? ==>
          forall d | d in s.db.deliveries && ActiveDelivery(s.db, d) :: CurrentlyCompatible(s, d))
  }

  function QueueIds(q: seq<QueueRow>): seq<Id> { seq(|q|, i requires 0 <= i < |q| => q[i].event) }

  ghost predicate OrderOk(s: Sys) {
    && s.accepted == s.routed + QueueIds(s.db.queue)
    && (s.phase.Serving? && !Defers(s.mgr.mode) ==> s.db.queue == [])
  }

  ghost predicate PostsOk(s: Sys)
    requires Schema(s.db)
  {
    && (forall a: Id :: s.posts[a] <= 1)
    && (forall a | a in s.posts && a in s.db.attempts ::
          && s.db.attempts[a].requestAt.Some?
          && (s.db.deliveries[s.db.attempts[a].delivery].binding.Dokploy? ==> s.db.attempts[a].cursor.Some?))
    && (s.disp.Busy? && !s.disp.stage.Posted? ==> s.disp.attempt !in s.posts)
  }

  ghost predicate Inv(s: Sys) {
    && DbOk(s.db) && Known(s) && Mutex(s.db) && Quiescent(s)
    && DispatchOk(s) && PollsOk(s) && ManualOk(s) && GenerationOk(s) && OrderOk(s) && PostsOk(s)
  }

  /** A process about to start on a sound database, with nothing of the past in flight. */
  ghost predicate Init(s: Sys) {
    && DbOk(s.db) && Known(s) && Mutex(s.db)
    && s.phase.Terminating? && s.disp.Resting? && s.polls == [] && s.manual == map[]
    && s.mgr == NewManager(s.mgr.current) && Compiled(s.mgr.current)
    && s.accepted == s.routed + QueueIds(s.db.queue) && PostsOk(s)
  }

  lemma InitOk(s: Sys)
    requires Init(s)
    ensures Inv(s)
  {
  }
}
