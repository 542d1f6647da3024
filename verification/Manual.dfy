/** The manual retry/redeploy decision of internal/service/attempts.go and its compare-and-swap update. */
module Manual {
  import opened Domain
  import opened Tables
  import opened Correlation
  import opened Polling

  datatype Refusal =
    | ReloadInProgress | StateChanged | TargetChanged | StillActive | AlreadySucceeded
    | NotAllowed | ReconciliationUnavailable

  /**
   * store.ManualUpdate. `attempt`, `before` and `seen` are the attempt, status and deployment id the
   * decision was based on; the first two are what the update compares.
   */
  datatype ManualUpdate = ManualUpdate(
    delivery: Id, attempt: Id, before: Status, seen: Option<DeploymentId>,
    correct: bool, status: Status, bound: Option<DeploymentId>,
    pollDue: Option<Time>, deadline: Option<Time>,
    create: bool, operation: Operation)

  /** The answer of a request: refused outright, or an update together with what its success is reported as. */
  datatype Verdict = Refuse(refusal: Refusal) | Submit(update: ManualUpdate, report: Option<Refusal>)

  predicate NeedsReconciliation(s: Status) {
    || s.transport == TransportStatus.Unknown || s.deployment == DeploymentStatus.Unknown
    || s.deployment.Error? || s.deployment.Cancelled? || s.deployment.Timeout?
  }

  function CreateOnly(d: Id, current: Id, a: Attempt, op: Operation): ManualUpdate {
    ManualUpdate(d, current, a.status, a.bound, false, a.status, None, None, None, true, op)
  }

  function Correction(d: Id, current: Id, a: Attempt, e: Entry, op: Operation, now: Time, t: Target): ManualUpdate {
    var reported := Reported(e);
    var again := Monitored(reported);
    ManualUpdate(d, current, a.status, a.bound, true, Status(Enqueued, reported), Some(e.id),
                 if again then Some(now + t.interval) else None, if again then Some(now + t.timeout) else None,
                 (reported.Error? || reported.Cancelled?) && op.Redeploy?, op)
  }

  /** FindDeployment as the service calls it: a target without a Compose resource cannot be reconciled. */
  function Reconcile(b: Binding, h: History, a: Id, bound: Option<DeploymentId>): Lookup {
    if b.Direct? then LookupFailed else Find(h, a, bound)
  }

  /** Execute, up to the store update. */
  function Execute(g: Generation, idle: bool, d: Id, x: Delivery, a: Attempt, expected: Id, op: Operation,
                   l: Lookup, now: Time): Verdict
  {
    if !idle then Refuse(ReloadInProgress)
    else if x.current != expected then Refuse(StateChanged)
    else if !Compatible(g, x.target, x.binding) then Refuse(TargetChanged)
    else if Active(a.status) && a.status.transport != TransportStatus.Unknown
            && a.status.deployment != DeploymentStatus.Unknown then Refuse(StillActive)
    else if a.status.deployment.Done? then Refuse(AlreadySucceeded)
    else if op !in AllowedOperations(a.status) then Refuse(NotAllowed)
    else if !NeedsReconciliation(a.status) then Submit(CreateOnly(d, x.current, a, op), None)
    else if l.LookupFailed? then Refuse(ReconciliationUnavailable)
    else if !l.Found? then Submit(CreateOnly(d, x.current, a, op), None)
    else
      var u := Correction(d, x.current, a, l.entry, op, now, g.targets[x.target]);
      Submit(u, if u.create then None
                else if u.status.deployment.Done? then Some(AlreadySucceeded)
                else if Monitored(u.status.deployment) then Some(StillActive)
                else Some(StateChanged))
  }

  /** The row updateManualCorrection writes. */
  function CorrectedRow(a: Attempt, u: ManualUpdate): Attempt {
    a.(status := u.status, bound := u.bound, lastPolled := None,
       pollDue := if u.pollDue.Some? then Some(Millis(u.pollDue.value)) else None,
       deadline := if u.deadline.Some? then Some(Millis(u.deadline.value)) else None)
  }

  predicate StillExpected(db: Db, u: ManualUpdate) {
    && u.delivery in db.deliveries && Linked(db, u.delivery)
    && db.deliveries[u.delivery].current == u.attempt
    && Cur(db, u.delivery).status == u.before
  }

  function Corrected(db: Db, u: ManualUpdate): Db
    requires StillExpected(db, u) && u.delivery in db.audit
  {
    if u.correct then Put(db, u.delivery, CorrectedRow(Cur(db, u.delivery), u), true) else db
  }

  /** ApplyManualUpdate: nothing happens unless the expected attempt is still current with the expected status. */
  function Apply(db: Db, u: ManualUpdate, id: Id): Db
    requires Schema(db)
  {
    if !StillExpected(db, u) then db
    else if !u.create then Corrected(db, u)
    else
      assert Linked(Corrected(db, u), u.delivery) by {
        if u.correct { PutFrame(db, u.delivery, CorrectedRow(Cur(db, u.delivery), u), true); }
      }
      Supersede(Corrected(db, u), u.delivery, id, AttemptKind.Manual(u.operation))
  }

  /** The shape of every update Execute submits. */
  predicate UpdateFits(u: ManualUpdate) {
    && Expected(u.before) && !u.before.deployment.Done?
    && !u.before.transport.Pending? && !u.before.transport.Sending?
    && (u.correct || u.create)
    && (u.correct ==>
          && NeedsReconciliation(u.before)
          && u.status.transport.Enqueued? && !u.status.deployment.NotStarted? && !u.status.deployment.Locating?
          && u.status.deployment != DeploymentStatus.Unknown
          && u.bound.Some? && u.bound.value != ""
          && (u.seen.Some? ==> u.bound == u.seen)
          && (u.seen.None? ==> u.before.deployment.Locating? || u.before.deployment == DeploymentStatus.Unknown)
          && (Monitored(u.status.deployment) ==> u.pollDue.Some? && u.deadline.Some? && !u.create))
  }

  lemma SubmittedUpdatesFit(g: Generation, idle: bool, d: Id, x: Delivery, a: Attempt, expected: Id, op: Operation,
                            h: History, failed: bool, now: Time)
    requires RowOk(a)
    ensures var l := if failed then LookupFailed else Reconcile(x.binding, h, x.current, a.bound);
            var v := Execute(g, idle, d, x, a, expected, op, l, now);
            v.Submit? ==>
              && UpdateFits(v.update) && v.update.delivery == d && v.update.attempt == x.current
              && v.update.before == a.status && v.update.seen == a.bound
              && idle && Compatible(g, x.target, x.binding)
              && (v.update.correct ==> x.binding.Dokploy? && l.Found? && v.update.bound == Some(l.entry.id))
  {
    var l := if failed then LookupFailed else Reconcile(x.binding, h, x.current, a.bound);
    if l.Found? { FoundMatches(h, x.current, a.bound); }
  }

  /** When a request creates a new attempt, whatever its lookup l has answered: of the many checks these are left. */
  lemma CreationCondition(g: Generation, idle: bool, d: Id, x: Delivery, a: Attempt, expected: Id, op: Operation,
                          l: Lookup, now: Time)
    requires RowOk(a)
    ensures var v := Execute(g, idle, d, x, a, expected, op, l, now);
            (v.Submit? && v.update.create) <==>
              && idle && x.current == expected && Compatible(g, x.target, x.binding) && op in AllowedOperations(a.status)
              && (|| a.status.transport.Failed?
                  || (!l.LookupFailed? && (l.Found? ==> op.Redeploy? && Reported(l.entry) in {Error, Cancelled})))
  {
  }

  lemma CorrectionIsSound(a: Attempt, u: ManualUpdate)
    requires RowOk(a) && UpdateFits(u) && u.correct
    ensures RowOk(CorrectedRow(a, u))
  {
  }

  /**
   * The repository's README.md promises that an HTTP target whose outcome is unknown offers Retry. The operation is
   * offered, yet it can never be carried out: reconciliation is required and never available.
   */
  lemma UnknownDirectDeliveriesCannotBeRetried(g: Generation, idle: bool, d: Id, x: Delivery, a: Attempt,
                                               expected: Id, op: Operation, h: History, now: Time)
    requires x.binding.Direct? && a.status == Status(TransportStatus.Unknown, DeploymentStatus.Unknown)
    ensures AllowedOperations(a.status) == [Retry]
    ensures Execute(g, idle, d, x, a, expected, op, Reconcile(x.binding, h, x.current, a.bound), now).Refuse?
  {
  }

  /** Exactly which direct deliveries can be retried: those whose send definitely failed. */
  lemma DirectRetryCondition(g: Generation, d: Id, x: Delivery, a: Attempt, h: History, now: Time)
    requires x.binding.Direct? && RowOk(a) && !Active(a.status) && !a.status.deployment.Done?
    requires Compatible(g, x.target, x.binding)
    ensures (exists op :: Execute(g, true, d, x, a, x.current, op, Reconcile(x.binding, h, x.current, a.bound), now).Submit?)
            <==> a.status.transport.Failed?
  {
    if a.status.transport.Failed? {
      assert Execute(g, true, d, x, a, x.current, Retry, Reconcile(x.binding, h, x.current, a.bound), now).Submit?;
    }
  }
}
