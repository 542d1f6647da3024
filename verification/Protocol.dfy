/**
 * The delivery engine as a state machine. Every step is one transaction, one remote exchange or one
 * critical section of the reload gate, exactly as the workers sequence them; steps of different workers
 * interleave freely, and a crash may happen between any two of them.
 */
module Protocol {
  import opened Domain
  import opened Tables
  import opened Correlation
  import opened Polling
  import opened Intake
  import opened Manual
  import opened Reload

  // ----- State -----

  /** How one POST ended, as far as the sender can tell. */
  datatype Outcome = Accepted | Uncertain | Definitive

  /** How far the dispatcher has come with the attempt it claimed. */
  datatype Stage =
    | Claimed
    | CursorRead(read: DeploymentId)
    | CursorStored
    | Recorded(json: Json)
    | Posted(sent: Json, outcome: Outcome)

  datatype Dispatch = Resting | Busy(delivery: Id, attempt: Id, gen: Generation, stage: Stage)

  /** One claimed poll of the batch the poller is working through. */
  datatype InFlight = InFlight(work: PollWork, gen: Generation, looked: Option<Lookup>)

  /** Prepare runs to completion before listeners and workers start. */
  datatype Phase = Terminating | Recovering | Initializing | Serving

  /**
   * db is durable, remote belongs to Dokploy, phase to manual are lost in a crash. The rest records what
   * happened: the POSTs sent, which attempt each deployment was created for, the ids ever used, and the
   * order in which supported events were accepted and routed.
   */
  datatype Sys = Sys(
    db: Db, remote: map<string, History>,
    phase: Phase, mgr: ManagerState, disp: Dispatch, polls: seq<InFlight>, manual: map<Id, ManualUpdate>,
    posts: multiset<Id>, born: map<DeploymentId, Id>, used: set<Id>, accepted: seq<Id>, routed: seq<Id>)

  function HistoryOf(s: Sys, resource: string): History {
    if resource in s.remote then s.remote[resource] else []
  }

  // ----- Queries -----

  /** Sending or monitored, and not yet bound to a deployment. */
  predicate Holds(a: Attempt) {
    a.bound.None? && (a.status.transport.Sending? || Monitored(a.status.deployment))
  }

  predicate Conflict(x: Delivery, y: Delivery) {
    if x.key.Some? && y.key.Some? then x.key == y.key else x.target == y.target
  }

  predicate Claimable(db: Db, d: Id)
    requires Schema(db) && d in db.deliveries
  {
    && Cur(db, d).kind != OtherKind
    && Cur(db, d).status.transport.Pending? && db.deliveries[d].status.transport.Pending?
    && forall x | x in db.deliveries && x != d && Conflict(db.deliveries[x], db.deliveries[d]) ::
         assert Linked(db, x); !Holds(Cur(db, x))
  }

  /** ORDER BY received_at, created_at, id. */
  predicate Before(db: Db, x: Id, y: Id)
    requires Schema(db) && x in db.deliveries && y in db.deliveries
  {
    var ex, ey := db.events[db.deliveries[x].event].receivedAt, db.events[db.deliveries[y].event].receivedAt;
    var dx, dy := db.deliveries[x].createdAt, db.deliveries[y].createdAt;
    ex < ey || (ex == ey && (dx < dy || (dx == dy && x <= y)))
  }

  ghost predicate NextClaim(db: Db, d: Id)
    requires Schema(db)
  {
    && d in db.deliveries && Claimable(db, d)
    && forall x | x in db.deliveries && Claimable(db, x) :: Before(db, d, x)
  }

  const MAX_POLL_BATCH := 32

  predicate DueNow(db: Db, d: Id, now: Time)
    requires Schema(db) && d in db.deliveries
  {
    Due(Cur(db, d), now)
  }

  /** ORDER BY the due instant, then as for claims. */
  predicate DueBefore(db: Db, x: Id, y: Id)
    requires Schema(db) && x in db.deliveries && y in db.deliveries && HasSchedule(Cur(db, x)) && HasSchedule(Cur(db, y))
  {
    DueAt(Cur(db, x)) < DueAt(Cur(db, y)) || (DueAt(Cur(db, x)) == DueAt(Cur(db, y)) && Before(db, x, y))
  }

  /** The first MAX_POLL_BATCH due deliveries. */
  ghost predicate DueBatch(db: Db, now: Time, ds: seq<Id>)
    requires Schema(db)
  {
    && Distinct(ds) && |ds| <= MAX_POLL_BATCH
    && (forall i | 0 <= i < |ds| :: ds[i] in db.deliveries && DueNow(db, ds[i], now))
    && (forall i, j | 0 <= i < j < |ds| :: DueBefore(db, ds[i], ds[j]))
    && (forall x | x in db.deliveries && DueNow(db, x, now) && x !in ds ::
          |ds| == MAX_POLL_BATCH && forall i | 0 <= i < |ds| :: DueBefore(db, ds[i], x))
  }

  predicate ActiveDelivery(db: Db, d: Id)
    requires Schema(db) && d in db.deliveries
  {
    Active(Cur(db, d).status)
  }

  function ActiveSet(db: Db): set<Id>
    requires Schema(db)
  {
    set d | d in db.deliveries && ActiveDelivery(db, d)
  }

  ghost predicate Quiet(db: Db)
    requires Schema(db)
  {
    forall d | d in db.deliveries :: !ActiveDelivery(db, d)
  }

  /** The claim is still the poller's: the attempt is current and nobody released it. */
  predicate ClaimStands(db: Db, w: PollWork) {
    && w.delivery in db.deliveries && Linked(db, w.delivery) && db.deliveries[w.delivery].current == w.attempt
    && Cur(db, w.delivery).lastPolled == Some(Millis(w.claimedAt))
  }

  predicate Interrupted(a: Attempt) {
    a.status.transport.Sending? || Monitored(a.status.deployment)
  }

  /** Events retention or a history wipe may delete. */
  ghost predicate Erasable(db: Db, e: Id)
    requires Schema(db)
  {
    && e in db.events && !db.events[e].routing.Deferred?
    && forall d | d in db.deliveries && db.deliveries[d].event == e :: !ActiveDelivery(db, d)
  }

  // ----- Row changes -----

  function SendingRow(a: Attempt): Attempt { a.(status := Status(Sending, NotStarted)) }

  /** The row after Mark*: what an outcome means depends on whether the target has an observable history. */
  function OutcomeRow(a: Attempt, b: Binding, o: Outcome, json: Option<Json>, now: Time, t: Target): Attempt {
    var r := a.(request := json);
    if o.Definitive? then r.(status := Status(Failed, NotStarted), pollDue := None, deadline := None)
    else if b.Direct? then
      r.(status := if o.Accepted? then Status(Enqueued, Done) else Status(TransportStatus.Unknown, DeploymentStatus.Unknown),
         pollDue := None, deadline := None)
    else
      r.(status := Status(if o.Accepted? then Enqueued else TransportStatus.Unknown, Locating),
         pollDue := Some(Millis(now + t.interval)), deadline := Some(Millis(now + t.timeout)))
  }

  function FailedRow(a: Attempt): Attempt {
    a.(status := Status(Failed, NotStarted), request := None, pollDue := None, deadline := None)
  }

  /** TerminateIncompatibleActive. */
  function TerminatedRow(a: Attempt): Attempt {
    a.(status := if a.status == FRESH then Status(Failed, NotStarted)
                 else Status(TransportStatus.Unknown, DeploymentStatus.Unknown),
       pollDue := None, deadline := None, lastPolled := None)
  }

  /** RecoverInterrupted: an interrupted send becomes something to reconcile; claims are released. */
  function RecoveredRow(g: Generation, now: Time, x: Delivery, a: Attempt): Attempt {
    var interval := if x.target in g.targets then g.targets[x.target].interval else g.interval;
    var timeout := if x.target in g.targets then g.targets[x.target].timeout else g.timeout;
    a.(status := if a.status.transport.Sending? then Status(TransportStatus.Unknown, Locating) else a.status,
       pollDue := if a.pollDue.Some? then a.pollDue else Some(Millis(now + interval)),
       deadline := if a.deadline.Some? then a.deadline else Some(Millis(now + timeout)),
       lastPolled := None)
  }

  // ----- Actions -----

  datatype Action =
    // public webhook handler
    | Receive(row: EventRow, supported: bool, decision: Decision, event: Id, ids: seq<Fresh>)
    // dispatcher
    | Claim(claim: Id)
    | FailSend
    | ReadCursor
    | StoreCursor
    | RecordRequest(json: Json, at: Time)
    | Post(outcome: Outcome, created: Option<Entry>)
    | FinishSend(at: Time)
    // poller
    | ClaimPolls(at: Time, batch: seq<Id>)
    | LookUp(failed: bool)
    | CompletePoll
    // manual operations
    | BeginManual(request: Id, delivery: Id, expected: Id, operation: Operation, at: Time, failed: bool)
    | ApplyManual(request: Id, attempt: Id)
    // reload manager and drainer
    | BeginReload
    | FailReload
    | FinishReload(candidate: Generation)
    | AdvanceWaiting
    | DrainHead(decision: Decision, ids: seq<Fresh>)
    | DrainIdle
    // retention and history wipe
    | DeleteEvents(events: set<Id>)
    // process lifecycle
    | Crash(loaded: Generation)
    | Terminate(delivery: Id)
    | BindingsChecked
    | Recover(at: Time, interrupted: seq<Id>)
    | Initialize
    // Dokploy
    | Trim(resource: string, keep: nat)
    | Edit(resource: string, index: nat, entry: Entry)

  /** No manual operation is inside its read section, so the manager may take the write gate. */
  predicate GateFree(s: Sys) { s.manual == map[] }

  ghost predicate Step(s: Sys, act: Action, s': Sys)
    requires Schema(s.db)
  {
    match act
    case Receive(row, supported, decision, e, ids) => Receives(s, row, supported, decision, e, ids, s')
    case Claim(d) => Claims(s, d, s')
    case FailSend => FailsSend(s, s')
    case ReadCursor => ReadsCursor(s, s')
    case StoreCursor => StoresCursor(s, s')
    case RecordRequest(json, at) => RecordsRequest(s, json, at, s')
    case Post(outcome, created) => Posts(s, outcome, created, s')
    case FinishSend(at) => FinishesSend(s, at, s')
    case ClaimPolls(at, batch) => ClaimsPolls(s, at, batch, s')
    case LookUp(failed) => LooksUp(s, failed, s')
    case CompletePoll => CompletesPoll(s, s')
    case BeginManual(req, d, expected, op, at, failed) => BeginsManual(s, req, d, expected, op, at, failed, s')
    case ApplyManual(req, id) => AppliesManual(s, req, id, s')
    case BeginReload => s.phase.Serving? && s.mgr.mode.Idle? && GateFree(s) && s' == s.(mgr := Begun(s.mgr))
    case FailReload => s.phase.Serving? && s.mgr.mode.Validating? && GateFree(s) && s' == s.(mgr := Abandoned(s.mgr))
    case FinishReload(g) =>
      && s.phase.Serving? && s.mgr.mode.Validating? && GateFree(s) && Compiled(g)
      && s' == s.(mgr := Loaded(s.mgr, g, |ActiveSet(s.db)|))
    case AdvanceWaiting =>
      s.phase.Serving? && GateFree(s) && s' == s.(mgr := Advanced(s.mgr, |ActiveSet(s.db)|))
    case DrainHead(decision, ids) => Drains(s, decision, ids, s')
    case DrainIdle => s.phase.Serving? && GateFree(s) && s' == s.(mgr := Settled(s.mgr, |s.db.queue|))
    case DeleteEvents(es) =>
      s.phase.Serving? && (forall e | e in es :: Erasable(s.db, e)) && s' == s.(db := Remove(s.db, es))
    case Crash(g) =>
      && Compiled(g)
      && s' == s.(phase := Terminating, mgr := NewManager(g), disp := Resting, polls := [], manual := map[])
    case Terminate(d) => Terminates(s, d, s')
    case BindingsChecked =>
      && s.phase.Terminating?
      && (forall d | d in s.db.deliveries && ActiveDelivery(s.db, d) :: CurrentlyCompatible(s, d))
      && s' == s.(phase := Recovering)
    case Recover(at, ds) => Recovers(s, at, ds, s')
    case Initialize =>
      s.phase.Initializing? && s' == s.(phase := Serving, mgr := Initialized(s.mgr, |s.db.queue|, |ActiveSet(s.db)|))
    case Trim(res, keep) =>
      keep <= |HistoryOf(s, res)| && s' == s.(remote := s.remote[res := HistoryOf(s, res)[..keep]])
    case Edit(res, i, entry) => Edits(s, res, i, entry, s')
  }

  predicate CurrentlyCompatible(s: Sys, d: Id)
    requires d in s.db.deliveries
  {
    Compatible(s.mgr.current, s.db.deliveries[d].target, s.db.deliveries[d].binding)
  }

  /** ServeHTTP: under the read gate, an accepted event is either routed at once or queued. */
  ghost predicate Receives(s: Sys, row: EventRow, supported: bool, r: Decision, e: Id, ids: seq<Fresh>, s': Sys) {
    && s.phase.Serving?
    && e !in s.used && AllFresh(ids, s.used + {e}) && |ids| == |r.deliveries|
    && if Duplicate(s.db, row) then s' == s
       else if !supported then
         s' == s.(db := WithEvent(s.db, e, row.(routing := Unsupported)), used := s.used + {e})
       else if Defers(s.mgr.mode) then
         s' == s.(db := Parked(s.db, e, row), used := s.used + {e}, accepted := s.accepted + [e])
       else
         && Routes(s.mgr.current, r)
         && s' == s.(db := Stored(s.db, e, row, r, ids), used := s.used + {e} + DeliveryIds(ids) + AttemptIds(ids),
                     accepted := s.accepted + [e], routed := s.routed + [e])
  }

  ghost predicate Claims(s: Sys, d: Id, s': Sys)
    requires Schema(s.db)
  {
    && s.phase.Serving? && s.disp.Resting? && NextClaim(s.db, d)
    && s' == s.(db := Put(s.db, d, SendingRow(Cur(s.db, d)), true),
                disp := Busy(d, s.db.deliveries[d].current, s.mgr.current, Claimed))
  }

  /** The row the dispatcher is working on is still the current sending attempt. */
  predicate SendingStands(s: Sys) {
    && s.disp.Busy? && s.disp.delivery in s.db.deliveries && Linked(s.db, s.disp.delivery)
    && s.disp.delivery in s.db.audit
    && s.db.deliveries[s.disp.delivery].current == s.disp.attempt
    && Cur(s.db, s.disp.delivery).status.transport.Sending?
  }

  predicate Resolved(s: Sys)
    requires SendingStands(s)
  {
    Compatible(s.disp.gen, s.db.deliveries[s.disp.delivery].target, s.db.deliveries[s.disp.delivery].binding)
  }

  function SentBinding(s: Sys): Binding
    requires SendingStands(s)
  {
    s.db.deliveries[s.disp.delivery].binding
  }

  /** A send that ends before any request was recorded: no target, no cursor, or a request that cannot be built. */
  ghost predicate FailsSend(s: Sys, s': Sys) {
    && SendingStands(s) && (s.disp.stage.Claimed? || s.disp.stage.CursorStored?)
    && s' == s.(db := Put(s.db, s.disp.delivery, FailedRow(Cur(s.db, s.disp.delivery)), true), disp := Resting)
  }

  ghost predicate ReadsCursor(s: Sys, s': Sys) {
    && SendingStands(s) && Resolved(s) && s.disp.stage.Claimed? && SentBinding(s).Dokploy?
    && TopReadable(HistoryOf(s, SentBinding(s).resource))
    && s' == s.(disp := s.disp.(stage := CursorRead(LatestId(HistoryOf(s, SentBinding(s).resource)))))
  }

  ghost predicate StoresCursor(s: Sys, s': Sys) {
    && SendingStands(s) && s.disp.stage.CursorRead? && Cur(s.db, s.disp.delivery).cursor.None?
    && s' == s.(db := Put(s.db, s.disp.delivery,
                          Cur(s.db, s.disp.delivery).(cursor := Some(s.disp.stage.read)), false),
                disp := s.disp.(stage := CursorStored))
  }

  ghost predicate RecordsRequest(s: Sys, json: Json, at: Time, s': Sys) {
    && SendingStands(s) && Resolved(s)
    && (if SentBinding(s).Dokploy? then s.disp.stage.CursorStored? else s.disp.stage.Claimed?)
    && Cur(s.db, s.disp.delivery).request.None? && Cur(s.db, s.disp.delivery).requestAt.None?
    && s' == s.(db := Put(s.db, s.disp.delivery,
                          Cur(s.db, s.disp.delivery).(request := Some(json), requestAt := Some(Millis(at))), false),
                disp := s.disp.(stage := Recorded(json)))
  }

  /**
   * The only step that reaches a target. An accepted POST to Dokploy prepends one entry; one that was rejected
   * or whose answer was lost may or may not have. The entry mentions no attempt but its own.
   */
  ghost predicate Posts(s: Sys, o: Outcome, created: Option<Entry>, s': Sys) {
    && SendingStands(s) && Resolved(s) && s.disp.stage.Recorded?
    && (created.Some? ==> SentBinding(s).Dokploy?)
    && (o.Accepted? && SentBinding(s).Dokploy? ==> created.Some?)
    && (created.Some? ==> created.value.id != "" && created.value.id !in s.born && Honest(created.value, s.disp.attempt))
    && s' == s.(disp := s.disp.(stage := Posted(s.disp.stage.json, o)),
                posts := s.posts + multiset{s.disp.attempt},
                remote := if created.None? then s.remote
                          else s.remote[SentBinding(s).resource := [created.value] + HistoryOf(s, SentBinding(s).resource)],
                born := if created.None? then s.born else s.born[created.value.id := s.disp.attempt])
  }

  /** A description names no other attempt than the one that created the deployment. */
  predicate Honest(e: Entry, creator: Id) {
    e.description.Some? ==> forall i | 0 <= i < |e.description.value| ::
      e.description.value[i].AttemptToken? ==> e.description.value[i].attempt == creator
  }

  ghost predicate FinishesSend(s: Sys, at: Time, s': Sys) {
    && SendingStands(s) && Resolved(s) && s.disp.stage.Posted?
    && s' == s.(db := Put(s.db, s.disp.delivery,
                          OutcomeRow(Cur(s.db, s.disp.delivery), SentBinding(s), s.disp.stage.outcome,
                                     Some(s.disp.stage.sent), at, s.disp.gen.targets[s.db.deliveries[s.disp.delivery].target]),
                          true),
                disp := Resting)
  }

  ghost predicate ClaimsPolls(s: Sys, at: Time, ds: seq<Id>, s': Sys)
    requires Schema(s.db)
  {
    && s.phase.Serving? && s.polls == [] && DueBatch(s.db, at, ds)
    && s' == s.(db := PutAll(s.db, ds, (x, a) => ClaimedRow(a, at)),
                polls := seq(|ds|, i requires 0 <= i < |ds| => InFlight(WorkFor(s.db, ds[i], at), s.mgr.current, None)))
  }

  function LookupOf(s: Sys, p: InFlight): Lookup {
    if p.work.delivery !in s.db.deliveries then LookupFailed
    else Answer(p.gen, s.remote, s.db.deliveries[p.work.delivery], p.work)
  }

  ghost predicate LooksUp(s: Sys, failed: bool, s': Sys) {
    && s.polls != [] && s.polls[0].looked.None?
    && s' == s.(polls := s.polls[0 := s.polls[0].(looked := Some(if failed then LookupFailed else LookupOf(s, s.polls[0])))])
  }

  function WorkInterval(s: Sys, p: InFlight): int {
    if p.work.delivery in s.db.deliveries then IntervalFor(p.gen, s.db.deliveries[p.work.delivery]) else p.gen.interval
  }

  /** CompletePoll commits only while the claim stands; audit is written only for a status change. */
  ghost predicate CompletesPoll(s: Sys, s': Sys) {
    && s.polls != [] && s.polls[0].looked.Some?
    && if !ClaimStands(s.db, s.polls[0].work) || s.polls[0].work.delivery !in s.db.audit then s' == s.(polls := s.polls[1..])
       else
         var p := s.polls[0];
         var a := Cur(s.db, p.work.delivery);
         var b := CompletedRow(a, DecideLookup(p.work, p.looked.value, p.work.claimedAt, WorkInterval(s, p)));
         s' == s.(db := Put(s.db, p.work.delivery, b, a.status != b.status), polls := s.polls[1..])
  }

  /** The lookup a manual request bases its decision on; no lookup can succeed for a direct target. */
  function ManualLookup(s: Sys, d: Id, failed: bool): Lookup
    requires Linked(s.db, d)
  {
    var b := s.db.deliveries[d].binding;
    if failed then LookupFailed
    else Reconcile(b, if b.Dokploy? then HistoryOf(s, b.resource) else [], s.db.deliveries[d].current, Cur(s.db, d).bound)
  }

  ghost predicate BeginsManual(s: Sys, req: Id, d: Id, expected: Id, op: Operation, at: Time, failed: bool, s': Sys)
    requires Schema(s.db)
  {
    && s.phase.Serving? && req !in s.manual && d in s.db.deliveries
    && assert Linked(s.db, d);
       var v := Execute(s.mgr.current, s.mgr.mode.Idle?, d, s.db.deliveries[d], Cur(s.db, d), expected, op,
                        ManualLookup(s, d, failed), at);
       s' == if v.Submit? then s.(manual := s.manual[req := v.update]) else s
  }

  ghost predicate AppliesManual(s: Sys, req: Id, id: Id, s': Sys)
    requires Schema(s.db)
  {
    && req in s.manual && id !in s.used
    && s' == s.(db := Apply(s.db, s.manual[req], id), used := s.used + {id}, manual := s.manual - {req})
  }

  ghost predicate Drains(s: Sys, r: Decision, ids: seq<Fresh>, s': Sys) {
    && s.phase.Serving? && s.mgr.mode.Draining? && s.db.queue != [] && s.db.queue[0].event in s.db.events
    && Routes(s.mgr.current, r) && |ids| == |r.deliveries| && AllFresh(ids, s.used)
    && s' == s.(db := Finalized(s.db, r, ids), used := s.used + DeliveryIds(ids) + AttemptIds(ids),
                routed := s.routed + [s.db.queue[0].event])
  }

  ghost predicate Terminates(s: Sys, d: Id, s': Sys)
    requires Schema(s.db)
  {
    && s.phase.Terminating? && d in s.db.deliveries && ActiveDelivery(s.db, d) && !CurrentlyCompatible(s, d)
    && s' == s.(db := Put(s.db, d, TerminatedRow(Cur(s.db, d)), true))
  }

  ghost predicate Recovers(s: Sys, at: Time, ds: seq<Id>, s': Sys)
    requires Schema(s.db)
  {
    && s.phase.Recovering? && Distinct(ds)
    && (forall i | 0 <= i < |ds| :: ds[i] in s.db.deliveries && Interrupted(Cur(s.db, ds[i])))
    && (forall d | d in s.db.deliveries && Interrupted(Cur(s.db, d)) :: d in ds)
    && s' == s.(db := PutAll(s.db, ds, (x, a) => RecoveredRow(s.mgr.current, at, x, a)), phase := Initializing)
  }

  /** Dokploy may rewrite status and description, never the identity of an entry. */
  ghost predicate Edits(s: Sys, res: string, i: nat, e: Entry, s': Sys) {
    && i < |HistoryOf(s, res)| && e.id == HistoryOf(s, res)[i].id
    && (e.id in s.born ==> Honest(e, s.born[e.id]))
    && s' == s.(remote := s.remote[res := HistoryOf(s, res)[i := e]])
  }
}
