/** Generations as far as delivery work needs them, and the poll decision of internal/worker/poller.go. */
module Polling {
  import opened Domain
  import opened Tables
  import opened Correlation

  datatype Target = Target(binding: Binding, interval: int, timeout: int)

  datatype Generation = Generation(targets: map<TargetId, Target>, interval: int, timeout: int)

  /** pollingSettings: a missing or tiny interval is raised to something a millisecond clock can see. */
  function PollInterval(configured: int): (r: int)
    ensures configured >= 1_000_000 ==> r == configured
    ensures 0 < configured < 1_000_000 ==> r == 1_000_000
    ensures configured <= 0 ==> r == 1_000_000_000
  {
    if configured <= 0 then SECOND else if configured < MILLISECOND then MILLISECOND else configured
  }

  function PollTimeout(configured: int): (r: int)
    ensures r == if configured > 0 then configured else 1_800_000_000_000
  {
    if configured <= 0 then 30 * MINUTE else configured
  }

  /** What compileBundle guarantees of the intervals it hands out. */
  predicate Compiled(g: Generation) {
    && g.interval >= MILLISECOND && g.timeout > 0
    && forall t | t in g.targets :: g.targets[t].interval >= MILLISECOND && g.targets[t].timeout > 0
  }

  /** ResolveTarget: the historical binding must be the one the generation has under that target id. */
  predicate Compatible(g: Generation, t: TargetId, b: Binding) {
    t in g.targets && g.targets[t].binding == b
  }

  datatype PollWork = PollWork(
    delivery: Id, attempt: Id, status: Status, bound: Option<DeploymentId>, cursor: Option<DeploymentId>,
    deadline: int, claimedAt: Time)

  datatype PollUpdate = PollUpdate(status: Status, bound: Option<DeploymentId>, next: Option<Time>)

  // ----- Claiming -----

  predicate HasSchedule(a: Attempt) { a.pollDue.Some? && a.deadline.Some? }

  /** The instant from which a poll is due: the earlier of due time and deadline. */
  function DueAt(a: Attempt): int
    requires HasSchedule(a)
  {
    if a.deadline.value < a.pollDue.value then a.deadline.value else a.pollDue.value
  }

  /** No claim is outstanding on the row. */
  predicate Unclaimed(a: Attempt) {
    HasSchedule(a) && (a.lastPolled.None? || a.lastPolled.value < DueAt(a))
  }

  /** The WHERE clause of the claim query. */
  predicate Due(a: Attempt, now: Time) {
    Monitored(a.status.deployment) && Unclaimed(a) && DueAt(a) <= Millis(now)
  }

  function ClaimedRow(a: Attempt, now: Time): Attempt { a.(lastPolled := Some(Millis(now))) }

  function WorkFor(db: Db, d: Id, now: Time): PollWork
    requires Linked(db, d) && Cur(db, d).deadline.Some?
  {
    var a := Cur(db, d);
    PollWork(d, db.deliveries[d].current, a.status, a.bound, a.cursor, a.deadline.value, now)
  }

  // ----- Looking up -----

  /** The history query of one claimed poll; a direct or unresolved target has no history to query. */
  function Answer(g: Generation, remote: map<string, History>, x: Delivery, w: PollWork): Lookup {
    if !Compatible(g, x.target, x.binding) || x.binding.Direct? then LookupFailed
    else
      var h := if x.binding.resource in remote then remote[x.binding.resource] else [];
      if w.bound.Some? || w.cursor.None? then Find(h, w.attempt, w.bound) else FindAfter(h, w.attempt, w.cursor.value)
  }

  function IntervalFor(g: Generation, x: Delivery): int {
    if Compatible(g, x.target, x.binding) then g.targets[x.target].interval else g.interval
  }

  // ----- Deciding -----

  /** The status text of an entry; anything else is kept as unrecognized. */
  function Reported(e: Entry): DeploymentStatus {
    if e.status == Some("done") then Done
    else if e.status == Some("error") then Error
    else if e.status == Some("cancelled") then Cancelled
    else if e.status == Some("running") then Running
    else Unrecognized
  }

  /** pollUpdate. */
  function Decide(w: PollWork, match_: Option<Entry>, now: Time, interval: int): PollUpdate {
    var late := now >= w.deadline * MILLISECOND;
    if match_.Some? then
      var reported := Reported(match_.value);
      if !Monitored(reported) then PollUpdate(Status(Enqueued, reported), Some(match_.value.id), None)
      else if late then PollUpdate(Status(Enqueued, Timeout), Some(match_.value.id), None)
      else PollUpdate(Status(Enqueued, reported), Some(match_.value.id), Some(now + interval))
    else if late then
      PollUpdate(Status(w.status.transport, if w.bound.Some? then Timeout else DeploymentStatus.Unknown), None, None)
    else PollUpdate(w.status, None, Some(now + interval))
  }

  /** An ambiguous or vanished boundary ends monitoring instead of guessing. */
  function DecideLookup(w: PollWork, l: Lookup, now: Time, interval: int): PollUpdate {
    var update := Decide(w, if l.Found? then Some(l.entry) else None, now, interval);
    if l.Ambiguous? || l.CursorMissing?
    then update.(status := update.status.(deployment := DeploymentStatus.Unknown), next := None)
    else update
  }

  /** The row written by CompletePoll. */
  function CompletedRow(a: Attempt, u: PollUpdate): Attempt {
    a.(status := u.status,
       bound := if u.bound.Some? then u.bound else a.bound,
       pollDue := if u.next.Some? then Some(Millis(u.next.value)) else None)
  }

  /**
   * What a completed poll leaves of a row a that was due at now and whose lookup answered l: the pair, the binding and
   * the next due time. Everything else is as it was, but for the mark of the claim.
   */
  ghost predicate PollLeaves(a: Attempt, l: Lookup, now: Time, interval: int, b: Attempt)
    requires a.deadline.Some?
  {
    var late := now >= a.deadline.value * 1_000_000;
    var again := Some((now + interval) / 1_000_000);
    && b == a.(status := b.status, bound := b.bound, pollDue := b.pollDue, lastPolled := Some(now / 1_000_000))
    && match l
       case Found(e) =>
         && b.bound == Some(e.id)
         && (e.status == Some("done") ==> b.status == Status(Enqueued, Done) && b.pollDue.None?)
         && (e.status == Some("error") ==> b.status == Status(Enqueued, Error) && b.pollDue.None?)
         && (e.status == Some("cancelled") ==> b.status == Status(Enqueued, Cancelled) && b.pollDue.None?)
         && (e.status == Some("running") ==>
               if late then b.status == Status(Enqueued, Timeout) && b.pollDue.None?
               else b.status == Status(Enqueued, Running) && b.pollDue == again)
         && (e.status !in {Some("done"), Some("error"), Some("cancelled"), Some("running")} ==>
               if late then b.status == Status(Enqueued, Timeout) && b.pollDue.None?
               else b.status == Status(Enqueued, Unrecognized) && b.pollDue == again)
       case Ambiguous =>
         b.bound == a.bound && b.status == Status(a.status.transport, DeploymentStatus.Unknown) && b.pollDue.None?
       case CursorMissing =>
         b.bound == a.bound && b.status == Status(a.status.transport, DeploymentStatus.Unknown) && b.pollDue.None?
       case _ =>
         && b.bound == a.bound
         && (if !late then b.status == a.status && b.pollDue == again
             else
               && b.pollDue.None?
               && b.status == if a.bound.Some? then Status(a.status.transport, Timeout)
                              else Status(a.status.transport, DeploymentStatus.Unknown))
  }

  lemma CompletionLeaves(a: Attempt, w: PollWork, l: Lookup, interval: int)
    requires a.deadline == Some(w.deadline) && w.status == a.status && w.bound == a.bound
    ensures PollLeaves(a, l, w.claimedAt, interval,
                       CompletedRow(ClaimedRow(a, w.claimedAt), DecideLookup(w, l, w.claimedAt, interval)))
  {
  }

  /** The row is still the one the work was taken from. */
  predicate WorkMatches(w: PollWork, a: Attempt) {
    && a.status == w.status && a.bound == w.bound && a.cursor == w.cursor
    && a.deadline == Some(w.deadline) && a.lastPolled == Some(Millis(w.claimedAt))
    && Monitored(a.status.deployment) && HasSchedule(a) && DueAt(a) <= Millis(w.claimedAt)
  }

  /** A lookup for this work can only have bound an entry consistent with an existing binding. */
  predicate LookupFits(w: PollWork, l: Lookup) {
    && (l.Found? ==> l.entry.id != "" && (w.bound.Some? ==> w.bound.value == l.entry.id))
    && (l.Ambiguous? || l.CursorMissing? ==> w.bound.None?)
  }

  lemma NextPollIsStrictlyLater(now: Time, interval: int)
    requires interval >= MILLISECOND
    ensures Millis(now) + 1 <= Millis(now + interval)
  {
  }

  lemma DeadlineInMillis(now: Time, deadline: int)
    ensures now >= deadline * MILLISECOND <==> Millis(now) >= deadline
  {
  }

  /**
   * Completing a poll keeps the row sound, never changes a binding, ends monitoring at the deadline,
   * and otherwise releases the claim so that the row falls due strictly later than it was claimed.
   */
  lemma CompletionReleasesOrEnds(a: Attempt, w: PollWork, l: Lookup, interval: int)
    requires RowOk(a) && WorkMatches(w, a) && LookupFits(w, l) && interval >= MILLISECOND
    ensures var b := CompletedRow(a, DecideLookup(w, l, w.claimedAt, interval));
            && RowOk(b)
            && (a.bound.Some? ==> b.bound == a.bound)
            && (b.bound.Some? ==> b.bound == a.bound || (l.Found? && b.bound.value == l.entry.id))
            && (Monitored(b.status.deployment) ==> Unclaimed(b) && DueAt(b) > Millis(w.claimedAt))
            && (Millis(w.claimedAt) >= w.deadline ==> !Active(b.status))
            && (l.Ambiguous? || l.CursorMissing? ==> !Active(b.status))
            && b.deadline == a.deadline && b.lastPolled == a.lastPolled && b.delivery == a.delivery
            && b.cursor == a.cursor && b.request == a.request && b.requestAt == a.requestAt && b.kind == a.kind
            && !b.status.transport.Sending? && !b.status.transport.Pending?
            && (b.bound.None? && Monitored(b.status.deployment) ==> a.bound.None?)
  {
    NextPollIsStrictlyLater(w.claimedAt, interval);
    DeadlineInMillis(w.claimedAt, w.deadline);
  }

  /** A claim moves last_polled_at strictly forward while the deadline stays: only finitely many claims fit. */
  lemma ClaimAdvances(a: Attempt, now: Time)
    requires RowOk(a) && Due(a, now)
    ensures var b := ClaimedRow(a, now);
            && RowOk(b) && b.deadline == a.deadline
            && (a.lastPolled.Some? ==> a.deadline.value - b.lastPolled.value < a.deadline.value - a.lastPolled.value)
            && (forall later: Time :: !Due(b, later))
  {
  }
}
