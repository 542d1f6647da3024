/**
 * One uninterrupted pass of each worker: internal/worker/dispatcher.go, poller.go and drainer.go, and
 * the startup sequence of internal/app/app.go. What the remote side answers is a parameter.
 */
module Workers {
  import opened Domain
  import opened Tables
  import opened Correlation
  import opened Polling
  import opened Intake
  import opened Manual
  import opened Reload
  import opened Protocol
  import opened Invariant
  import opened RowSteps
  import opened PollSteps
  import opened BootSteps
  import opened Theorems
  import opened Paths
  import opened Batches
  import opened Columns
  import opened StoreTransactions
  import opened ReloadManager

  // ----- Drainer -----

  /** Finalizes the queue head, or returns draining to idle; does nothing in any other mode. */
  method DrainOnce(m: Manager, route: EventRow -> Decision, ids: seq<Fresh>) returns (r: Result<bool>)
    requires m.store.Valid() && AllFresh(ids, m.store.deliveries.Keys + m.store.attempts.Keys)
    requires forall row :: Routes(m.current, route(row))
    requires m.store.queue != [] && m.store.queue[0].event in m.store.events ==>
               |ids| == |route(m.store.events[m.store.queue[0].event]).deliveries|
    modifies m, m.store
    ensures m.store.Valid()
    ensures !old(m.mode).Draining? ==> r == Ok(false) && m.State() == old(m.State()) && m.store.View() == old(m.store.View())
    ensures old(m.mode).Draining? && old(m.store.queue) == [] ==>
              r == Ok(false) && m.mode.Idle? && m.State() == Settled(old(m.State()), 0) && m.store.View() == old(m.store.View())
    ensures old(m.mode).Draining? && old(m.store.queue) != [] ==>
              && r == Ok(true) && m.State() == old(m.State())
              && old(m.store.queue)[0].event in old(m.store.events)
              && |ids| == |route(old(m.store.events)[old(m.store.queue)[0].event]).deliveries|
              && m.store.View() == Finalized(old(m.store.View()), route(old(m.store.events)[old(m.store.queue)[0].event]), ids)
              && HeadRouted(old(m.store.View()), route(old(m.store.events)[old(m.store.queue)[0].event]), ids, m.store.View())
    ensures m.current == old(m.current) && m.candidate == old(m.candidate)
    ensures m.mode == if old(m.mode) == Draining && old(m.store.queue) == [] then Idle else old(m.mode)
  {
    if !m.mode.Draining? { return Ok(false); }
    var head := m.store.PeekDeferred();
    if head.None? {
      var idle := m.SetIdleIfQueueEmpty();
      return Ok(false);
    }
    var decision := route(m.store.events[head.value.event]);
    assert Routes(m.current, decision);
    r := m.store.FinalizeDeferred(head.value, decision, ids);
  }

  // ----- Webhook handler -----

  /**
   * ServeHTTP from the reload gate on: an unsupported event is recorded, an event arriving during a reload is
   * queued, any other is routed by the current generation.
   */
  method ReceiveHook(m: Manager, row: EventRow, supported: bool, route: EventRow -> Decision, e: Id, ids: seq<Fresh>)
    returns (out: Result<Ingested>)
    requires m.store.Valid() && e !in m.store.events && AllFresh(ids, m.store.deliveries.Keys + m.store.attempts.Keys)
    requires Routes(m.current, route(row)) && |ids| == |route(row).deliveries|
    modifies m.store
    ensures m.store.Valid() && (out.Err? <==> !WellFormed(row))
    ensures out.Err? || Duplicate(old(m.store.View()), row) ==> m.store.View() == old(m.store.View())
    ensures out.Ok? ==> (out.value.duplicate <==> Duplicate(old(m.store.View()), row))
    ensures out.Ok? && !out.value.duplicate ==>
              && out.value.event == e
              && m.store.View() == if !supported then WithEvent(old(m.store.View()), e, row.(routing := Unsupported))
                                   else if Defers(m.mode) then Parked(old(m.store.View()), e, row)
                                   else Stored(old(m.store.View()), e, row, route(row), ids)
    ensures HookPass(old(m.store.View()), m.mode, row, supported, route(row), e, ids, out, m.store.View())
  {
    DuplicateIsStored(m.store.View(), row);
    if !supported {
      out := m.store.Ingest(row, Decision(Unsupported, []), e, []);
    } else if m.mode.Waiting? || m.mode.Draining? || m.mode.Applying? {
      out := m.store.IngestDeferred(row, e);
    } else {
      out := m.store.Ingest(row, route(row), e, ids);
    }
  }

  /** What becomes of an incoming event: refused, already known, recorded, queued or routed. */
  ghost predicate HookPass(db: Db, mode: Mode, row: EventRow, supported: bool, r: Decision, e: Id, ids: seq<Fresh>,
                           out: Result<Ingested>, db': Db)
  {
    if !Complete(row) then out.Err? && db' == db
    else if AlreadyStored(db, row) then out.Ok? && out.value.duplicate && db' == db
    else
      && out == Ok(Ingested(e, false))
      && if !supported then StoredWith(db, e, row, Decision(Unsupported, []), [], db')
         else if mode in {Mode.Waiting, Mode.Draining, Mode.Applying} then QueuedLast(db, e, row, db')
         else StoredWith(db, e, row, r, ids, db')
  }

  // ----- Dispatcher -----

  /** What the outside world answers to one send; listed tells whether the deployment history could be read. */
  datatype Answers = Answers(listed: bool, built: Option<Json>, recordedAt: Time, outcome: Outcome, finishedAt: Time)

  /** How far a pass of the dispatcher came. */
  datatype Sent = NothingToSend | EndedEarly(failed: Id) | Sent(delivery: Id)

  function HistoryIn(remote: map<string, History>, b: Binding): History {
    if b.Dokploy? && b.resource in remote then remote[b.resource] else []
  }

  /** The boundary could be read off the history of the target. */
  predicate Listable(remote: map<string, History>, b: Binding, w: Answers) { w.listed && TopReadable(HistoryIn(remote, b)) }

  /** The row of an attempt that was sent: evidence first, then the outcome. */
  function SentRow(a: Attempt, b: Binding, t: Target, remote: map<string, History>, w: Answers): Attempt
    requires w.built.Some?
  {
    var evidence := SendingRow(a).(cursor := if b.Dokploy? then Some(LatestId(HistoryIn(remote, b))) else a.cursor,
                                   requestAt := Some(Millis(w.recordedAt)));
    OutcomeRow(evidence, b, w.outcome, w.built, w.finishedAt, t)
  }

  /** Somewhere in a pass that started on db: only the current row of d has changed, and it is now row. */
  ghost predicate At(db: Db, d: Id, db1: Db, row: Attempt) {
    && DbOk(db1) && Moved(db, db1, {d}) && d in db1.deliveries && Linked(db1, d) && Cur(db1, d) == row && RowOk(row)
    && d in db.deliveries && db1.deliveries[d].current == db.deliveries[d].current
  }

  lemma Begins(db: Db, d: Id)
    requires DbOk(db) && NextClaim(db, d)
    ensures At(db, d, Put(db, d, SendingRow(Cur(db, d)), true), SendingRow(Cur(db, d)))
  {
    assert RowOk(Cur(db, d));
    PutStep(db, d, SendingRow(Cur(db, d)), true);
  }

  /** The next statement rewrites the row of d once more. */
  lemma Rewrites(db: Db, d: Id, db1: Db, row: Attempt, next: Attempt, note: bool)
    requires At(db, d, db1, row) && RowOk(next) && next.delivery == d && (note || next.status == row.status)
    ensures At(db, d, Put(db1, d, next, note), next)
  {
    PutStep(db1, d, next, note);
    assert Moved(db1, Put(db1, d, next, note), {d});
  }

  /** The claimed row has nothing recorded yet. */
  ghost predicate Unsent(db: Db, d: Id, db1: Db, row: Attempt, id: Id) {
    && At(db, d, db1, row) && id == db.deliveries[d].current && row.status == Status(Sending, NotStarted)
    && row.request.None? && row.requestAt.None?
  }

  /** The protocol's dispatcher is working on d over the database db1. */
  ghost predicate InHand(s: Sys, db1: Db, d: Id, id: Id, stage: Stage) {
    s.db == db1 && SendingStands(s) && s.disp == Busy(d, id, s.mgr.current, stage)
  }

  method FailEarly(store: Store, d: Id, id: Id, ghost db: Db, ghost row: Attempt,
                   ghost start: Sys, ghost acts: seq<Action>, ghost s: Sys) returns (ghost t: Sys)
    requires store.Valid() && Unsent(db, d, store.View(), row, id) && Along(start, acts, s)
    requires InHand(s, store.View(), d, id, Claimed) || InHand(s, store.View(), d, id, CursorStored)
    modifies store
    ensures store.Valid() && At(db, d, store.View(), FailedRow(row))
    ensures Along(start, acts + [FailSend], t) && t.db == store.View()
  {
    Rewrites(db, d, store.View(), row, FailedRow(row), true);
    t := FailIsStep(start, acts, s, store.View(), d, id);
    var r := store.MarkTransportFailed(id, None);
  }

  lemma FailIsStep(start: Sys, acts: seq<Action>, s: Sys, db1: Db, d: Id, id: Id) returns (t: Sys)
    requires Schema(db1) && Along(start, acts, s) && (InHand(s, db1, d, id, Claimed) || InHand(s, db1, d, id, CursorStored))
    ensures Along(start, acts + [FailSend], t) && t.db == Put(db1, d, FailedRow(Cur(db1, d)), true)
  {
    t := s.(db := Put(db1, d, FailedRow(Cur(db1, d)), true), disp := Resting);
    Then(start, acts, s, FailSend, t);
  }

  /** The newest deployment becomes the cursor: one read of the history and one durable write. */
  method WriteCursor(store: Store, d: Id, id: Id, cursor: DeploymentId, ghost db: Db, ghost row: Attempt,
                     ghost start: Sys, ghost acts: seq<Action>, ghost s: Sys) returns (ghost t: Sys)
    requires store.Valid() && Unsent(db, d, store.View(), row, id) && row.cursor.None? && Along(start, acts, s)
    requires InHand(s, store.View(), d, id, Claimed) && Resolved(s) && SentBinding(s).Dokploy?
    requires TopReadable(HistoryOf(s, SentBinding(s).resource)) && cursor == LatestId(HistoryOf(s, SentBinding(s).resource))
    modifies store
    ensures store.Valid() && Unsent(db, d, store.View(), row.(cursor := Some(cursor)), id)
    ensures Along(start, acts + [ReadCursor, StoreCursor], t)
    ensures InHand(t, store.View(), d, id, CursorStored) && Resolved(t) && SentBinding(t) == SentBinding(s)
    ensures t == s.(db := t.db, disp := t.disp) && t.db.deliveries[d].target == s.db.deliveries[d].target
  {
    Rewrites(db, d, store.View(), row, row.(cursor := Some(cursor)), false);
    t := CursorIsStored(start, acts, s, store.View(), d, id, cursor);
    var r := store.SetDeploymentCursor(id, cursor);
  }

  lemma CursorIsStored(start: Sys, acts: seq<Action>, s: Sys, db1: Db, d: Id, id: Id, cursor: DeploymentId) returns (t: Sys)
    requires Schema(db1) && InHand(s, db1, d, id, Claimed) && Resolved(s) && SentBinding(s).Dokploy? && Along(start, acts, s)
    requires TopReadable(HistoryOf(s, SentBinding(s).resource))
    requires cursor == LatestId(HistoryOf(s, SentBinding(s).resource)) && Cur(db1, d).cursor.None?
    ensures var db2 := Put(db1, d, Cur(db1, d).(cursor := Some(cursor)), false);
            && t == s.(db := db2, disp := Busy(d, id, s.mgr.current, CursorStored))
            && InHand(t, db2, d, id, CursorStored) && Resolved(t) && SentBinding(t) == SentBinding(s)
    ensures Along(start, acts + [ReadCursor, StoreCursor], t)
  {
    var read := CursorIsRead(d, id, db1, start, acts, s);
    var db2 := Put(db1, d, Cur(db1, d).(cursor := Some(cursor)), false);
    t := s.(db := db2, disp := Busy(d, id, s.mgr.current, CursorStored));
    Then(start, acts + [ReadCursor], read, StoreCursor, t);
    TwoInARow(acts, ReadCursor, StoreCursor);
  }

  lemma CursorIsRead(d: Id, id: Id, db1: Db, start: Sys, acts: seq<Action>, s: Sys) returns (read: Sys)
    requires Schema(db1) && InHand(s, db1, d, id, Claimed) && Resolved(s) && SentBinding(s).Dokploy? && Along(start, acts, s)
    requires TopReadable(HistoryOf(s, SentBinding(s).resource))
    ensures read == s.(disp := Busy(d, id, s.mgr.current, CursorRead(LatestId(HistoryOf(s, SentBinding(s).resource)))))
    ensures Along(start, acts + [ReadCursor], read)
  {
    read := s.(disp := Busy(d, id, s.mgr.current, CursorRead(LatestId(HistoryOf(s, SentBinding(s).resource)))));
    Then(start, acts, s, ReadCursor, read);
  }

  /** The request record: the last durable write before the remote side is reached. */
  method WriteRequest(store: Store, d: Id, id: Id, json: Json, at: Time, ghost db: Db, ghost row: Attempt,
                      ghost start: Sys, ghost acts: seq<Action>, ghost s: Sys) returns (ghost t: Sys)
    requires store.Valid() && Unsent(db, d, store.View(), row, id) && Along(start, acts, s)
    requires InHand(s, store.View(), d, id, Claimed) || InHand(s, store.View(), d, id, CursorStored)
    requires Resolved(s) && (SentBinding(s).Dokploy? <==> s.disp.stage.CursorStored?)
    modifies store
    ensures store.Valid() && At(db, d, store.View(), row.(request := Some(json), requestAt := Some(Millis(at))))
    ensures Along(start, acts + [RecordRequest(json, at)], t)
    ensures InHand(t, store.View(), d, id, Recorded(json)) && Resolved(t) && SentBinding(t) == SentBinding(s)
    ensures t == s.(db := t.db, disp := t.disp) && t.db.deliveries[d].target == s.db.deliveries[d].target
  {
    Rewrites(db, d, store.View(), row, row.(request := Some(json), requestAt := Some(Millis(at))), false);
    t := RequestIsStep(start, acts, s, store.View(), d, id, json, at);
    var r := store.RecordDeploymentRequest(id, json, at);
  }

  lemma RequestIsStep(start: Sys, acts: seq<Action>, s: Sys, db1: Db, d: Id, id: Id, json: Json, at: Time) returns (t: Sys)
    requires Schema(db1) && Along(start, acts, s) && (InHand(s, db1, d, id, Claimed) || InHand(s, db1, d, id, CursorStored))
    requires Resolved(s) && (SentBinding(s).Dokploy? <==> s.disp.stage.CursorStored?)
    requires Cur(db1, d).request.None? && Cur(db1, d).requestAt.None?
    ensures var db2 := Put(db1, d, Cur(db1, d).(request := Some(json), requestAt := Some(Millis(at))), false);
            && t == s.(db := db2, disp := Busy(d, id, s.mgr.current, Recorded(json)))
            && InHand(t, db2, d, id, Recorded(json)) && Resolved(t) && SentBinding(t) == SentBinding(s)
    ensures Along(start, acts + [RecordRequest(json, at)], t)
  {
    var db2 := Put(db1, d, Cur(db1, d).(request := Some(json), requestAt := Some(Millis(at))), false);
    t := s.(db := db2, disp := Busy(d, id, s.mgr.current, Recorded(json)));
    Then(start, acts, s, RecordRequest(json, at), t);
  }

  /** The outcome of a send, for Dokploy and direct targets alike. */
  method CommitOutcome(store: Store, d: Id, id: Id, b: Binding, o: Outcome, json: Json, at: Time, x: Target,
                       ghost db: Db, ghost row: Attempt) returns (r: Result<Id>)
    requires store.Valid() && At(db, d, store.View(), row) && id == db.deliveries[d].current && row.status == Status(Sending, NotStarted)
    modifies store
    ensures store.Valid() && At(db, d, store.View(), OutcomeRow(row, b, o, Some(json), at, x))
    ensures Linked(old(store.View()), d) && d in old(store.View()).audit
    ensures store.View() == Put(old(store.View()), d, OutcomeRow(row, b, o, Some(json), at, x), true)
  {
    Rewrites(db, d, store.View(), row, OutcomeRow(row, b, o, Some(json), at, x), true);
    if b.Dokploy? { r := store.MarkDokploy(id, b, o, json, at, x); } else { r := store.MarkDirect(id, b, o, json, at, x); }
  }

  lemma TwoInARow(acts: seq<Action>, a: Action, b: Action)
    ensures acts + [a] + [b] == acts + [a, b]
  {
  }

  lemma ThreeInARow(acts: seq<Action>, a: Action, b: Action, c: Action)
    ensures acts + [a, b] + [c] == acts + [a, b, c]
  {
  }

  /** What the remote side may do when attempt a reaches it. */
  ghost predicate MayCreate(s: Sys, o: Outcome, a: Id, created: Option<Entry>) {
    && (o.Accepted? ==> created.Some?)
    && (created.Some? ==> created.value.id != "" && created.value.id !in s.born && Honest(created.value, a))
  }

  /** The POST itself; it touches no table. */
  lemma Reach(start: Sys, acts: seq<Action>, s: Sys, db1: Db, d: Id, id: Id, json: Json, o: Outcome, created: Option<Entry>)
    returns (t: Sys)
    requires Schema(db1) && InHand(s, db1, d, id, Recorded(json)) && Resolved(s) && Along(start, acts, s)
    requires if SentBinding(s).Dokploy? then MayCreate(s, o, id, created) else created.None?
    ensures Along(start, acts + [Post(o, created)], t)
    ensures InHand(t, db1, d, id, Posted(json, o)) && t.mgr == s.mgr && Resolved(t) && SentBinding(t) == SentBinding(s)
  {
    t := s.(disp := Busy(d, id, s.mgr.current, Posted(json, o)), posts := s.posts + multiset{id},
            remote := if created.None? then s.remote
                      else s.remote[SentBinding(s).resource := [created.value] + HistoryOf(s, SentBinding(s).resource)],
            born := if created.None? then s.born else s.born[created.value.id := id]);
    Then(start, acts, s, Post(o, created), t);
  }

  lemma Finish(start: Sys, acts: seq<Action>, s: Sys, db1: Db, d: Id, id: Id, json: Json, o: Outcome, at: Time, x: Target, db2: Db)
    returns (t: Sys)
    requires Schema(db1) && InHand(s, db1, d, id, Posted(json, o)) && Resolved(s) && Along(start, acts, s)
    requires x == s.mgr.current.targets[db1.deliveries[d].target]
    requires db2 == Put(db1, d, OutcomeRow(Cur(db1, d), db1.deliveries[d].binding, o, Some(json), at, x), true)
    ensures Along(start, acts + [FinishSend(at)], t) && t.db == db2
  {
    t := s.(db := db2, disp := Resting);
    Then(start, acts, s, FinishSend(at), t);
  }

  const CURSOR_STEPS := [ReadCursor, StoreCursor]

  function SendSteps(w: Answers, created: Option<Entry>): seq<Action>
    requires w.built.Some?
  {
    [RecordRequest(w.built.value, w.recordedAt), Post(w.outcome, created), FinishSend(w.finishedAt)]
  }

  method Commit(store: Store, d: Id, id: Id, b: Binding, x: Target, w: Answers, ghost db: Db, ghost row: Attempt,
                ghost start: Sys, ghost acts: seq<Action>, ghost s: Sys) returns (ghost t: Sys)
    requires store.Valid() && At(db, d, store.View(), row) && id == db.deliveries[d].current && row.status == Status(Sending, NotStarted)
    requires w.built.Some? && InHand(s, store.View(), d, id, Posted(w.built.value, w.outcome)) && Along(start, acts, s)
    requires Resolved(s) && b == SentBinding(s) && x == s.mgr.current.targets[s.db.deliveries[d].target]
    modifies store
    ensures store.Valid() && At(db, d, store.View(), OutcomeRow(row, b, w.outcome, w.built, w.finishedAt, x))
    ensures Along(start, acts + [FinishSend(w.finishedAt)], t) && t.db == store.View()
  {
    ghost var db1 := store.View();
    var r := CommitOutcome(store, d, id, b, w.outcome, w.built.value, w.finishedAt, x, db, row);
    t := Finish(start, acts, s, db1, d, id, w.built.value, w.outcome, w.finishedAt, x, store.View());
  }

  /** Record, POST and outcome. */
  method SendRecorded(store: Store, d: Id, id: Id, b: Binding, x: Target, w: Answers, ghost db: Db, ghost row: Attempt,
                      ghost start: Sys, ghost acts: seq<Action>, ghost s: Sys, ghost created: Option<Entry>) returns (ghost t: Sys)
    requires Ready(store, d, id, b, x, w, db, row, start, acts, s, created) && w.built.Some?
    modifies store
    ensures store.Valid()
    ensures At(db, d, store.View(),
               OutcomeRow(row.(requestAt := Some(Millis(w.recordedAt))), b, w.outcome, w.built, w.finishedAt, x))
    ensures t.db == store.View() && Along(start, acts + SendSteps(w, created), t)
  {
    ghost var recorded := row.(request := w.built, requestAt := Some(Millis(w.recordedAt)));
    ghost var s2 := RecordAndPost(store, d, id, b, x, w, db, row, start, acts, s, created);
    t := Commit(store, d, id, b, x, w, db, recorded, start,
                acts + [RecordRequest(w.built.value, w.recordedAt), Post(w.outcome, created)], s2);
    ThreeInARow(acts, RecordRequest(w.built.value, w.recordedAt), Post(w.outcome, created), FinishSend(w.finishedAt));
  }

  /** The request becomes durable, then the target is reached. */
  method RecordAndPost(store: Store, d: Id, id: Id, b: Binding, x: Target, w: Answers, ghost db: Db, ghost row: Attempt,
                       ghost start: Sys, ghost acts: seq<Action>, ghost s: Sys, ghost created: Option<Entry>) returns (ghost t: Sys)
    requires Ready(store, d, id, b, x, w, db, row, start, acts, s, created) && w.built.Some?
    modifies store
    ensures store.Valid() && At(db, d, store.View(), row.(request := w.built, requestAt := Some(Millis(w.recordedAt))))
    ensures InHand(t, store.View(), d, id, Posted(w.built.value, w.outcome)) && Resolved(t) && SentBinding(t) == b
    ensures t.mgr == s.mgr && x == t.mgr.current.targets[t.db.deliveries[d].target]
    ensures Along(start, acts + [RecordRequest(w.built.value, w.recordedAt), Post(w.outcome, created)], t)
  {
    ghost var s1 := WriteRequest(store, d, id, w.built.value, w.recordedAt, db, row, start, acts, s);
    ghost var acts1 := acts + [RecordRequest(w.built.value, w.recordedAt)];
    t := Reach(start, acts1, s1, store.View(), d, id, w.built.value, w.outcome, created);
    TwoInARow(acts, RecordRequest(w.built.value, w.recordedAt), Post(w.outcome, created));
  }

  /** Everything a send needs is in place: a compatible target and, for Dokploy, the cursor. */
  ghost predicate Ready(store: Store, d: Id, id: Id, b: Binding, x: Target, w: Answers, db: Db, row: Attempt,
                        start: Sys, acts: seq<Action>, s: Sys, created: Option<Entry>)
    reads store
  {
    && store.Valid() && Unsent(db, d, store.View(), row, id) && Along(start, acts, s)
    && (InHand(s, store.View(), d, id, Claimed) || InHand(s, store.View(), d, id, CursorStored))
    && Resolved(s) && b == SentBinding(s) && (b.Dokploy? <==> s.disp.stage.CursorStored?)
    && (if b.Dokploy? then MayCreate(s, w.outcome, id, created) else created.None?)
    && x == s.mgr.current.targets[s.db.deliveries[d].target]
  }

  /** Sends, or gives up when the request cannot be built. */
  method SendBuilt(store: Store, d: Id, id: Id, b: Binding, x: Target, w: Answers, ghost db: Db, ghost row: Attempt,
                   ghost start: Sys, ghost acts: seq<Action>, ghost s: Sys, ghost created: Option<Entry>)
    returns (sent: Sent, ghost all: seq<Action>, ghost t: Sys)
    requires Ready(store, d, id, b, x, w, db, row, start, acts, s, created)
    modifies store
    ensures store.Valid() && t.db == store.View() && Along(start, all, t)
    ensures w.built.None? ==> sent == EndedEarly(d) && At(db, d, store.View(), FailedRow(row)) && all == acts + [FailSend]
    ensures w.built.Some? ==>
              && sent == Sent(d) && all == acts + SendSteps(w, created)
              && At(db, d, store.View(),
                    OutcomeRow(row.(requestAt := Some(Millis(w.recordedAt))), b, w.outcome, w.built, w.finishedAt, x))
  {
    if w.built.None? {
      t := FailEarly(store, d, id, db, row, start, acts, s);
      sent, all := EndedEarly(d), acts + [FailSend];
    } else {
      t := SendRecorded(store, d, id, b, x, w, db, row, start, acts, s, created);
      sent, all := Sent(d), acts + SendSteps(w, created);
    }
  }

  /** What one pass of the dispatcher leaves behind. */
  ghost predicate Dispatched(db: Db, g: Generation, remote: map<string, History>, w: Answers, sent: Sent, db': Db)
    requires DbOk(db)
  {
    match sent
    case NothingToSend => db' == db && forall d | d in db.deliveries :: !Claimable(db, d)
    case EndedEarly(d) =>
      && NextClaim(db, d)
      && var x := db.deliveries[d];
         var fenced := Compatible(g, x.target, x.binding) && x.binding.Dokploy? && Listable(remote, x.binding, w);
         && (Compatible(g, x.target, x.binding) && (x.binding.Dokploy? ==> Listable(remote, x.binding, w)) ==> w.built.None?)
         && At(db, d, db', FailedRow(SendingRow(Cur(db, d)).(
              cursor := if fenced then Some(LatestId(HistoryIn(remote, x.binding))) else Cur(db, d).cursor)))
    case Sent(d) =>
      && NextClaim(db, d) && w.built.Some?
      && var x := db.deliveries[d];
         && Compatible(g, x.target, x.binding) && (x.binding.Dokploy? ==> Listable(remote, x.binding, w))
         && At(db, d, db', SentRow(Cur(db, d), x.binding, g.targets[x.target], remote, w))
  }

  /** The cursor stored before a send: the newest deployment, "" for an empty history, none for a direct target. */
  ghost predicate CursorIs(a: Attempt, b: Binding, remote: map<string, History>, row: Attempt) {
    if b.Direct? then row.cursor == a.cursor
    else if b.resource !in remote || remote[b.resource] == [] then row.cursor == Some("")
    else row.cursor == Some(remote[b.resource][0].id)
  }

  /** The row of an attempt that was sent: the evidence, the pair its outcome means, and when it is to be watched. */
  ghost predicate SentOut(a: Attempt, b: Binding, x: Target, remote: map<string, History>, w: Answers, row: Attempt) {
    && CursorIs(a, b, remote, row) && row.request == w.built && row.requestAt == Some(w.recordedAt / 1_000_000)
    && row.delivery == a.delivery && row.kind == a.kind && row.bound == a.bound && row.lastPolled == a.lastPolled
    && row.status == (match w.outcome
                      case Accepted => Status(Enqueued, if b.Direct? then Done else Locating)
                      case Uncertain => Status(TransportStatus.Unknown, if b.Direct? then DeploymentStatus.Unknown else Locating)
                      case Definitive => Status(Failed, NotStarted))
    && (if b.Dokploy? && !w.outcome.Definitive? then
          && row.pollDue == Some((w.finishedAt + x.interval) / 1_000_000)
          && row.deadline == Some((w.finishedAt + x.timeout) / 1_000_000)
        else row.pollDue.None? && row.deadline.None?)
  }

  /** The row of an attempt that ended before anything was recorded. */
  ghost predicate GivenUp(a: Attempt, row: Attempt) {
    && row.status == Status(Failed, NotStarted) && row.request.None? && row.requestAt == a.requestAt
    && row.pollDue.None? && row.deadline.None? && row.delivery == a.delivery && row.kind == a.kind && row.bound == a.bound
    && row.lastPolled == a.lastPolled
  }

  /** Only the current row of d differs. */
  ghost predicate OnlyRow(db: Db, d: Id, db': Db)
    requires Schema(db)
  {
    && Schema(db') && db'.deliveries.Keys == db.deliveries.Keys && db'.attempts.Keys == db.attempts.Keys
    && db'.events == db.events && db'.queue == db.queue
    && forall x | x in db.deliveries && x != d :: Cur(db', x) == Cur(db, x)
  }

  /** Why nothing could be sent: no target, no boundary, or no request. */
  predicate CannotSend(g: Generation, x: Delivery, remote: map<string, History>, w: Answers) {
    !StillThere(g, x) || (x.binding.Dokploy? && !CanList(remote, x.binding, w)) || w.built.None?
  }

  ghost predicate EndedPass(db: Db, d: Id, g: Generation, remote: map<string, History>, w: Answers, db': Db)
    requires Schema(db)
  {
    && d in db.deliveries && OnlyRow(db, d, db') && GivenUp(Cur(db, d), Cur(db', d))
    && CannotSend(g, db.deliveries[d], remote, w)
  }

  ghost predicate SentPass(db: Db, d: Id, g: Generation, remote: map<string, History>, w: Answers, db': Db)
    requires Schema(db)
  {
    && d in db.deliveries && OnlyRow(db, d, db') && !CannotSend(g, db.deliveries[d], remote, w)
    && SentOut(Cur(db, d), db.deliveries[d].binding, g.targets[db.deliveries[d].target], remote, w, Cur(db', d))
  }

  /** One pass of the dispatcher: which delivery it takes, whether it reaches the target, and the row it leaves. */
  ghost predicate SendPass(db: Db, g: Generation, remote: map<string, History>, w: Answers, sent: Sent, db': Db)
    requires Schema(db)
  {
    match sent
    case NothingToSend => FirstToSend(db, None) && db' == db
    case EndedEarly(d) => FirstToSend(db, Some(d)) && EndedPass(db, d, g, remote, w, db')
    case Sent(d) => FirstToSend(db, Some(d)) && SentPass(db, d, g, remote, w, db')
  }

  /** The history could be listed, and its first entry has an id. */
  predicate CanList(remote: map<string, History>, b: Binding, w: Answers) {
    w.listed && (b.Direct? || b.resource !in remote || remote[b.resource] == [] || remote[b.resource][0].id != "")
  }

  lemma DispatchedIsPass(db: Db, g: Generation, remote: map<string, History>, w: Answers, sent: Sent, db': Db)
    requires DbOk(db) && Dispatched(db, g, remote, w, sent, db')
    ensures SendPass(db, g, remote, w, sent, db')
  {
    match sent
    case NothingToSend => NothingClaimable(db);
    case EndedEarly(d) =>
      NextIsFirst(db, d);
      OnlyOneRow(db, d, db');
      assert RowOk(Cur(db, d));
    case Sent(d) =>
      NextIsFirst(db, d);
      OnlyOneRow(db, d, db');
      assert RowOk(Cur(db, d));
  }

  lemma OnlyOneRow(db: Db, d: Id, db': Db)
    requires Schema(db) && Schema(db') && Moved(db, db', {d})
    ensures OnlyRow(db, d, db')
  {
    forall x | x in db.deliveries && x != d ensures Cur(db', x) == Cur(db, x) { CurMoved(db, db', {d}, x); }
  }

  /** The steps of the protocol that one pass of the dispatcher takes. */
  ghost predicate DispatchSteps(db: Db, w: Answers, created: Id -> Option<Entry>, sent: Sent, acts: seq<Action>)
    requires Schema(db)
  {
    match sent
    case NothingToSend => acts == []
    case EndedEarly(d) => acts == [Claim(d)] + [FailSend] || acts == [Claim(d)] + CURSOR_STEPS + [FailSend]
    case Sent(d) =>
      && d in db.deliveries && w.built.Some?
      && acts == if db.deliveries[d].binding.Dokploy?
                 then [Claim(d)] + CURSOR_STEPS + SendSteps(w, created(db.deliveries[d].current))
                 else [Claim(d)] + SendSteps(w, None)
  }

  /** s is the protocol's state behind a store that serves under generation g with nothing in hand. */
  ghost predicate Serves(s: Sys, db: Db, g: Generation, remote: map<string, History>) {
    s.db == db && s.phase.Serving? && s.mgr.current == g && s.remote == remote && s.disp.Resting?
  }

  /**
   * RunOnce of the dispatcher: claim, cursor, request record, POST, outcome. The database it leaves is the one the
   * protocol comes to by exactly these steps.
   */
  method DispatchOnce(store: Store, g: Generation, remote: map<string, History>, w: Answers,
                      ghost s: Sys, ghost created: Id -> Option<Entry>)
    returns (sent: Sent, ghost acts: seq<Action>, ghost t: Sys)
    requires store.Valid() && Serves(s, store.View(), g, remote) && forall a :: MayCreate(s, w.outcome, a, created(a))
    modifies store
    ensures store.Valid() && Dispatched(old(store.View()), g, remote, w, sent, store.View())
    ensures SendPass(old(store.View()), g, remote, w, sent, store.View())
    ensures DispatchSteps(old(store.View()), w, created, sent, acts) && Along(s, acts, t) && t.db == store.View()
  {
    var claimed := store.ClaimPendingAttempt();
    if claimed.None? {
      Nowhere(s);
      DispatchedIsPass(store.View(), g, remote, w, NothingToSend, store.View());
      return NothingToSend, [], s;
    }
    ghost var db := old(store.View());
    Begins(db, claimed.value);
    ghost var s1 := ClaimIsStep(db, claimed.value, s);
    sent, acts, t := SendClaimed(store, claimed.value, g, remote, w, db, s, s1, created);
    DispatchedIsPass(db, g, remote, w, sent, store.View());
  }

  lemma ClaimIsStep(db: Db, d: Id, s: Sys) returns (t: Sys)
    requires DbOk(db) && NextClaim(db, d) && s.db == db && s.phase.Serving? && s.disp.Resting?
    ensures Along(s, [Claim(d)], t) && t == s.(db := t.db, disp := t.disp)
    ensures InHand(t, Put(db, d, SendingRow(Cur(db, d)), true), d, db.deliveries[d].current, Claimed)
  {
    PutFrame(db, d, SendingRow(Cur(db, d)), true);
    t := s.(db := Put(db, d, SendingRow(Cur(db, d)), true), disp := Busy(d, db.deliveries[d].current, s.mgr.current, Claimed));
    Nowhere(s);
    Then(s, [], s, Claim(d), t);
    assert [] + [Claim(d)] == [Claim(d)];
  }

  /** The rest of a pass, once d is claimed. */
  method SendClaimed(store: Store, d: Id, g: Generation, remote: map<string, History>, w: Answers,
                     ghost db: Db, ghost start: Sys, ghost s: Sys, ghost created: Id -> Option<Entry>)
    returns (sent: Sent, ghost acts: seq<Action>, ghost t: Sys)
    requires DbOk(db) && NextClaim(db, d) && store.Valid() && At(db, d, store.View(), SendingRow(Cur(db, d)))
    requires InHand(s, store.View(), d, db.deliveries[d].current, Claimed) && s.mgr.current == g && s.remote == remote
    requires Along(start, [Claim(d)], s) && MayCreate(s, w.outcome, db.deliveries[d].current, created(db.deliveries[d].current))
    modifies store
    ensures store.Valid() && !sent.NothingToSend? && Dispatched(db, g, remote, w, sent, store.View())
    ensures DispatchSteps(db, w, created, sent, acts) && Along(start, acts, t) && t.db == store.View()
  {
    var id := store.deliveries[d].current;
    var x := store.deliveries[d];
    ghost var row := SendingRow(Cur(db, d));
    assert RowOk(Cur(db, d));
    var latest: Option<DeploymentId> := None;
    if w.listed { latest := LatestDeploymentID(HistoryIn(remote, x.binding)); }
    if !Compatible(g, x.target, x.binding) || (x.binding.Dokploy? && latest.None?) {
      t := FailEarly(store, d, id, db, row, start, [Claim(d)], s);
      sent, acts := EndedEarly(d), [Claim(d)] + [FailSend];
    } else if x.binding.Dokploy? {
      sent, acts, t := SendFenced(store, d, id, latest.value, g, remote, w, db, start, s, created);
    } else {
      sent, acts, t := SendBuilt(store, d, id, x.binding, g.targets[x.target], w, db, row, start, [Claim(d)], s, None);
    }
  }

  /** The rest of a pass for Dokploy, whose history could be listed: first the cursor. */
  method SendFenced(store: Store, d: Id, id: Id, cursor: DeploymentId, g: Generation, remote: map<string, History>, w: Answers,
                    ghost db: Db, ghost start: Sys, ghost s: Sys, ghost created: Id -> Option<Entry>)
    returns (sent: Sent, ghost acts: seq<Action>, ghost t: Sys)
    requires DbOk(db) && NextClaim(db, d) && store.Valid() && At(db, d, store.View(), SendingRow(Cur(db, d)))
    requires id == db.deliveries[d].current && InHand(s, store.View(), d, id, Claimed) && s.mgr.current == g && s.remote == remote
    requires Resolved(s) && SentBinding(s).Dokploy? && Listable(remote, SentBinding(s), w)
    requires cursor == LatestId(HistoryIn(remote, SentBinding(s)))
    requires Along(start, [Claim(d)], s) && MayCreate(s, w.outcome, id, created(id))
    modifies store
    ensures store.Valid() && !sent.NothingToSend? && Dispatched(db, g, remote, w, sent, store.View())
    ensures DispatchSteps(db, w, created, sent, acts) && Along(start, acts, t) && t.db == store.View()
  {
    var x := store.deliveries[d];
    ghost var row := SendingRow(Cur(db, d));
    assert RowOk(Cur(db, d));
    ghost var s1 := WriteCursor(store, d, id, cursor, db, row, start, [Claim(d)], s);
    sent, acts, t := SendBuilt(store, d, id, x.binding, g.targets[x.target], w, db, row.(cursor := Some(cursor)),
                               start, [Claim(d)] + CURSOR_STEPS, s1, created(id));
  }

  // ----- Poller -----

  /** The histories the remote side would list, and the deliveries whose lookup fails nevertheless. */
  datatype Histories = Histories(listed: map<string, History>, down: set<Id>)

  function Heard(g: Generation, remote: Histories, x: Delivery, w: PollWork): Lookup {
    if w.delivery in remote.down then LookupFailed else Answer(g, remote.listed, x, w)
  }

  lemma HeardFits(g: Generation, remote: Histories, x: Delivery, w: PollWork)
    ensures LookupFits(w, Heard(g, remote, x, w))
  {
    AnswerFits(g, remote.listed, x, w);
  }

  method LookUpPoll(g: Generation, remote: Histories, x: Delivery, w: PollWork) returns (l: Lookup)
    ensures l == Heard(g, remote, x, w)
  {
    if w.delivery in remote.down || !Compatible(g, x.target, x.binding) || x.binding.Direct? { return LookupFailed; }
    var h := if x.binding.resource in remote.listed then remote.listed[x.binding.resource] else [];
    if w.bound.Some? || w.cursor.None? {
      l := FindDeployment(h, w.attempt, w.bound);
    } else {
      l := FindDeploymentAfter(h, w.attempt, w.cursor.value);
    }
  }

  /** The row of a due delivery after one pass of the poller. */
  function PolledRow(g: Generation, remote: Histories, now: Time, d: Id, x: Delivery, a: Attempt): Attempt
    requires HasSchedule(a)
  {
    var w := PollWork(d, x.current, a.status, a.bound, a.cursor, a.deadline.value, now);
    CompletedRow(ClaimedRow(a, now), DecideLookup(w, Heard(g, remote, x, w), now, IntervalFor(g, x)))
  }

  /** The row of one claimed poll, before or after its completion. */
  ghost predicate PolledAt(db: Db, g: Generation, remote: Histories, now: Time, w: PollWork, done: bool, db1: Db) {
    && WorkIsFor(db, w, now) && HasSchedule(Cur(db, w.delivery)) && Linked(db1, w.delivery)
    && Cur(db1, w.delivery) ==
         if done then PolledRow(g, remote, now, w.delivery, db.deliveries[w.delivery], Cur(db, w.delivery))
         else ClaimedRow(Cur(db, w.delivery), now)
  }

  /** The batch after its first i polls have been completed; nothing outside the batch has changed. */
  ghost predicate PolledTo(db: Db, g: Generation, remote: Histories, now: Time, ws: seq<PollWork>, i: nat, db1: Db) {
    && DbOk(db1) && Moved(db, db1, set d | d in WorkDeliveries(ws))
    && forall k | 0 <= k < |ws| :: PolledAt(db, g, remote, now, ws[k], k < i, db1)
  }

  lemma ClaimedBatch(db: Db, g: Generation, remote: Histories, now: Time, ws: seq<PollWork>, db1: Db)
    requires DbOk(db) && PollsClaimed(db, now, ws, db1)
    ensures PolledTo(db, g, remote, now, ws, 0, db1)
  {
    var ds := WorkDeliveries(ws);
    DueBatchIsBatch(db, now, ds);
    PutAllOk(db, ds, (x, a) => ClaimedRow(a, now));
    forall k | 0 <= k < |ws|
      ensures PolledAt(db, g, remote, now, ws[k], false, db1)
    {
      assert ds[k] == ws[k].delivery && DueNow(db, ds[k], now);
      PutAllCur(db, ds, (x, a) => ClaimedRow(a, now), ds[k]);
    }
  }

  /** One claimed poll of the batch: its claim stands, and whatever the lookup says its row stays sound. */
  lemma PollIsFit(db: Db, g: Generation, remote: Histories, now: Time, ws: seq<PollWork>, i: nat, db1: Db)
    requires DbOk(db) && Compiled(g) && i < |ws| && DueBatch(db, now, WorkDeliveries(ws)) && PolledTo(db, g, remote, now, ws, i, db1)
    ensures ClaimStands(db1, ws[i]) && WorkMatches(ws[i], Cur(db1, ws[i].delivery))
    ensures var x := db1.deliveries[ws[i].delivery]; var u := DecideLookup(ws[i], Heard(g, remote, x, ws[i]), now, IntervalFor(g, x));
            && ws[i].claimedAt == now
            && RowOk(CompletedRow(Cur(db1, ws[i].delivery), u))
            && CompletedRow(Cur(db1, ws[i].delivery), u)
               == PolledRow(g, remote, now, ws[i].delivery, db.deliveries[ws[i].delivery], Cur(db, ws[i].delivery))
            && !Due(CompletedRow(Cur(db1, ws[i].delivery), u), now)
  {
    var d := ws[i].delivery;
    assert PolledAt(db, g, remote, now, ws[i], false, db1);
    assert WorkDeliveries(ws)[i] == d && DueNow(db, WorkDeliveries(ws)[i], now);
    var x := db1.deliveries[d];
    assert RowOk(Cur(db1, d));
    HeardFits(g, remote, x, ws[i]);
    CompletionReleasesOrEnds(Cur(db1, d), ws[i], Heard(g, remote, x, ws[i]), IntervalFor(g, x));
  }

  lemma PolledOneMore(db: Db, g: Generation, remote: Histories, now: Time, ws: seq<PollWork>, i: nat, db1: Db, db2: Db)
    requires DbOk(db) && Compiled(g) && i < |ws| && DueBatch(db, now, WorkDeliveries(ws)) && PolledTo(db, g, remote, now, ws, i, db1)
    requires var d := ws[i].delivery;
             && WorkIsFor(db, ws[i], now) && Linked(db1, d) && d in db1.audit
             && var b := PolledRow(g, remote, now, d, db.deliveries[d], Cur(db, d));
                db2 == Put(db1, d, b, b.status != Cur(db1, d).status) && DbOk(db2) && b.delivery == d
    ensures PolledTo(db, g, remote, now, ws, i + 1, db2)
  {
    var d := ws[i].delivery;
    var b := PolledRow(g, remote, now, d, db.deliveries[d], Cur(db, d));
    PutFrame(db1, d, b, b.status != Cur(db1, d).status);
    PutMoves(db1, d, b, b.status != Cur(db1, d).status);
    assert WorkDeliveries(ws)[i] == d;
    MovedBoth(db, db1, db2, (set d | d in WorkDeliveries(ws)), d);
    forall k | 0 <= k < |ws| ensures PolledAt(db, g, remote, now, ws[k], k < i + 1, db2) {
      assert PolledAt(db, g, remote, now, ws[k], k < i, db1);
      assert WorkDeliveries(ws)[k] == ws[k].delivery && (k != i ==> ws[k].delivery != d);
    }
  }

  lemma MovedBoth(db: Db, db1: Db, db2: Db, m: set<Id>, d: Id)
    requires Schema(db) && Schema(db1) && Moved(db, db1, m) && Moved(db1, db2, {d}) && d in m && d in db.deliveries
    ensures Moved(db, db2, m)
  {
    assert Linked(db1, d) && Linked(db, d);
  }

  /** The protocol's poller has polls i and later of the batch in flight. */
  ghost predicate InFlightFrom(s: Sys, db1: Db, g: Generation, remote: Histories, ws: seq<PollWork>, i: nat) {
    && s.db == db1 && s.mgr.current == g && s.remote == remote.listed && i <= |ws| && |s.polls| == |ws| - i
    && forall k | 0 <= k < |s.polls| :: s.polls[k] == InFlight(ws[i + k], g, None)
  }

  /** The steps of the protocol for the first n polls of the batch. */
  function RoundSteps(remote: Histories, ws: seq<PollWork>, n: nat): seq<Action>
    requires n <= |ws|
  {
    if n == 0 then [] else RoundSteps(remote, ws, n - 1) + [LookUp(ws[n - 1].delivery in remote.down), CompletePoll]
  }

  lemma ClaimPollsIsStep(db: Db, g: Generation, remote: Histories, now: Time, ws: seq<PollWork>, db1: Db, s: Sys) returns (t: Sys)
    requires DbOk(db) && PollsClaimed(db, now, ws, db1)
    requires s.db == db && s.phase.Serving? && s.mgr.current == g && s.remote == remote.listed && s.polls == []
    ensures Along(s, [ClaimPolls(now, WorkDeliveries(ws))] + RoundSteps(remote, ws, 0), t) && InFlightFrom(t, db1, g, remote, ws, 0)
  {
    var ds := WorkDeliveries(ws);
    t := s.(db := db1, polls := seq(|ds|, i requires 0 <= i < |ds| => InFlight(WorkFor(db, ds[i], now), g, None)));
    Nowhere(s);
    Then(s, [], s, ClaimPolls(now, ds), t);
    assert [] + [ClaimPolls(now, ds)] == [ClaimPolls(now, ds)] + [];
    forall k | 0 <= k < |t.polls| ensures t.polls[k] == InFlight(ws[k], g, None) { assert WorkIsFor(db, ws[k], now); }
  }

  lemma LookUpIsStep(start: Sys, acts: seq<Action>, s: Sys, db1: Db, g: Generation, remote: Histories, ws: seq<PollWork>, i: nat)
    returns (t: Sys)
    requires Schema(db1) && InFlightFrom(s, db1, g, remote, ws, i) && i < |ws| && ws[i].delivery in db1.deliveries && Along(start, acts, s)
    ensures t == s.(polls := s.polls[0 := InFlight(ws[i], g, Some(Heard(g, remote, db1.deliveries[ws[i].delivery], ws[i])))])
    ensures Along(start, acts + [LookUp(ws[i].delivery in remote.down)], t)
  {
    t := s.(polls := s.polls[0 := InFlight(ws[i], g, Some(Heard(g, remote, db1.deliveries[ws[i].delivery], ws[i])))]);
    Then(start, acts, s, LookUp(ws[i].delivery in remote.down), t);
  }

  lemma PollIsStep(start: Sys, acts: seq<Action>, s: Sys, db1: Db, g: Generation, remote: Histories, now: Time, ws: seq<PollWork>,
                   i: nat, db2: Db) returns (t: Sys)
    requires DbOk(db1) && InFlightFrom(s, db1, g, remote, ws, i) && i < |ws| && Along(start, acts, s)
    requires ClaimStands(db1, ws[i]) && ws[i].claimedAt == now
    requires var x := db1.deliveries[ws[i].delivery]; var a := Cur(db1, ws[i].delivery);
             var b := CompletedRow(a, DecideLookup(ws[i], Heard(g, remote, x, ws[i]), now, IntervalFor(g, x)));
             db2 == Put(db1, ws[i].delivery, b, a.status != b.status)
    ensures Along(start, acts + [LookUp(ws[i].delivery in remote.down), CompletePoll], t)
    ensures InFlightFrom(t, db2, g, remote, ws, i + 1)
  {
    var looked := LookUpIsStep(start, acts, s, db1, g, remote, ws, i);
    t := looked.(db := db2, polls := looked.polls[1..]);
    Then(start, acts + [LookUp(ws[i].delivery in remote.down)], looked, CompletePoll, t);
    TwoInARow(acts, LookUp(ws[i].delivery in remote.down), CompletePoll);
  }

  /**
   * RunOnce of the poller: every due delivery, up to the batch limit, is claimed, looked up and completed. The
   * database it leaves is the one the protocol comes to by claiming the batch and then, per row, looking up and completing.
   */
  method PollOnce(store: Store, g: Generation, remote: Histories, now: Time, ghost s: Sys)
    returns (ws: seq<PollWork>, ghost t: Sys)
    requires store.Valid() && Compiled(g)
    requires s.db == store.View() && s.phase.Serving? && s.mgr.current == g && s.remote == remote.listed && s.polls == []
    modifies store
    ensures store.Valid() && DueBatch(old(store.View()), now, WorkDeliveries(ws))
    ensures PolledTo(old(store.View()), g, remote, now, ws, |ws|, store.View())
    ensures FirstToPoll(old(store.View()), now, WorkDeliveries(ws))
    ensures PollPass(old(store.View()), g, remote, now, WorkDeliveries(ws), store.View())
    ensures |ws| < MAX_POLL_BATCH ==> forall d | d in store.deliveries :: !DueNow(store.View(), d, now)
    ensures Along(s, [ClaimPolls(now, WorkDeliveries(ws))] + RoundSteps(remote, ws, |ws|), t)
    ensures InFlightFrom(t, store.View(), g, remote, ws, |ws|)
  {
    ghost var db := store.View();
    ws := store.ListDuePolls(now);
    ClaimedBatch(db, g, remote, now, ws, store.View());
    t := ClaimPollsIsStep(db, g, remote, now, ws, store.View(), s);
    for i := 0 to |ws|
      invariant store.Valid() && PolledTo(db, g, remote, now, ws, i, store.View())
      invariant Along(s, [ClaimPolls(now, WorkDeliveries(ws))] + RoundSteps(remote, ws, i), t)
      invariant InFlightFrom(t, store.View(), g, remote, ws, i)
    {
      t := PollNext(store, g, remote, now, ws, i, db, s, [ClaimPolls(now, WorkDeliveries(ws))] + RoundSteps(remote, ws, i), t);
      OnePollMore([ClaimPolls(now, WorkDeliveries(ws))], remote, ws, i);
    }
    PassLeavesNothingDue(db, g, remote, now, ws, store.View());
    PolledToIsPass(db, g, remote, now, ws, store.View());
  }

  /** What the lookup for the current attempt of a delivery answers, in terms of the history. */
  ghost predicate LooksUpAs(g: Generation, remote: Histories, d: Id, x: Delivery, a: Attempt, l: Lookup) {
    if d in remote.down || !StillThere(g, x) || x.binding.Direct? then l == LookupFailed
    else
      var h := if x.binding.resource in remote.listed then remote.listed[x.binding.resource] else [];
      if a.bound.Some? || a.cursor.None? then AnswersBy(h, x.current, a.bound, l)
      else AnswersAfter(h, x.current, a.cursor.value, l)
  }

  /** The interval of the target, or the default one for a target that is no longer there. */
  function PollEvery(g: Generation, x: Delivery): int {
    if x.target in g.targets && g.targets[x.target].binding == x.binding then g.targets[x.target].interval else g.interval
  }

  /** A pass of the poller: the deliveries of the batch are as their lookups leave them, all others as they were. */
  ghost predicate PollPass(db: Db, g: Generation, remote: Histories, now: Time, ds: seq<Id>, db': Db)
    requires Schema(db)
  {
    && Schema(db') && db'.deliveries.Keys == db.deliveries.Keys
    && (forall d | d in db.deliveries && d !in ds :: Cur(db', d) == Cur(db, d))
    && forall d | d in db.deliveries && d in ds ::
         && Cur(db, d).deadline.Some?
         && exists l: Lookup :: LooksUpAs(g, remote, d, db.deliveries[d], Cur(db, d), l)
                                && PollLeaves(Cur(db, d), l, now, PollEvery(g, db.deliveries[d]), Cur(db', d))
  }

  lemma PolledRowIs(g: Generation, remote: Histories, now: Time, d: Id, x: Delivery, a: Attempt) returns (l: Lookup)
    requires HasSchedule(a)
    ensures LooksUpAs(g, remote, d, x, a, l) && PollLeaves(a, l, now, PollEvery(g, x), PolledRow(g, remote, now, d, x, a))
  {
    var w := PollWork(d, x.current, a.status, a.bound, a.cursor, a.deadline.value, now);
    l := Heard(g, remote, x, w);
    CompletionLeaves(a, w, l, IntervalFor(g, x));
    if d !in remote.down && StillThere(g, x) && x.binding.Dokploy? {
      var h := if x.binding.resource in remote.listed then remote.listed[x.binding.resource] else [];
      if a.bound.Some? || a.cursor.None? { FindAnswers(h, x.current, a.bound); }
      else { FindAfterAnswers(h, x.current, a.cursor.value); }
    }
  }

  lemma PolledToIsPass(db: Db, g: Generation, remote: Histories, now: Time, ws: seq<PollWork>, db': Db)
    requires DbOk(db) && PolledTo(db, g, remote, now, ws, |ws|, db')
    ensures PollPass(db, g, remote, now, WorkDeliveries(ws), db')
  {
    var ds := WorkDeliveries(ws);
    forall d | d in db.deliveries && d !in ds ensures Cur(db', d) == Cur(db, d) { CurMoved(db, db', (set x | x in ds), d); }
    forall d | d in db.deliveries && d in ds
      ensures Cur(db, d).deadline.Some?
      ensures exists l: Lookup :: LooksUpAs(g, remote, d, db.deliveries[d], Cur(db, d), l)
                                  && PollLeaves(Cur(db, d), l, now, PollEvery(g, db.deliveries[d]), Cur(db', d))
    {
      var k :| 0 <= k < |ds| && ds[k] == d;
      assert PolledAt(db, g, remote, now, ws[k], true, db') && ws[k].delivery == d;
      var l := PolledRowIs(g, remote, now, d, db.deliveries[d], Cur(db, d));
    }
  }

  lemma OnePollMore(acts: seq<Action>, remote: Histories, ws: seq<PollWork>, i: nat)
    requires i < |ws|
    ensures acts + RoundSteps(remote, ws, i) + [LookUp(ws[i].delivery in remote.down), CompletePoll] == acts + RoundSteps(remote, ws, i + 1)
  {
  }

  /** One round of the loop. */
  method PollNext(store: Store, g: Generation, remote: Histories, now: Time, ws: seq<PollWork>, i: nat,
                  ghost db: Db, ghost start: Sys, ghost acts: seq<Action>, ghost s: Sys) returns (ghost t: Sys)
    requires store.Valid() && Compiled(g) && DbOk(db) && i < |ws| && DueBatch(db, now, WorkDeliveries(ws))
    requires PolledTo(db, g, remote, now, ws, i, store.View())
    requires Along(start, acts, s) && InFlightFrom(s, store.View(), g, remote, ws, i)
    modifies store
    ensures store.Valid() && PolledTo(db, g, remote, now, ws, i + 1, store.View())
    ensures Along(start, acts + [LookUp(ws[i].delivery in remote.down), CompletePoll], t)
    ensures InFlightFrom(t, store.View(), g, remote, ws, i + 1)
  {
    ghost var db1 := store.View();
    PollIsFit(db, g, remote, now, ws, i, db1);
    var x := store.deliveries[ws[i].delivery];
    var l := LookUpPoll(g, remote, x, ws[i]);
    var update := DecideLookup(ws[i], l, now, IntervalFor(g, x));
    var r := store.CompletePoll(ws[i], update);
    t := PollIsStep(start, acts, s, db1, g, remote, now, ws, i, store.View());
    PolledOneMore(db, g, remote, now, ws, i, db1, store.View());
  }

  /** A pass that was not cut off by the batch limit leaves nothing due. */
  lemma PassLeavesNothingDue(db: Db, g: Generation, remote: Histories, now: Time, ws: seq<PollWork>, db1: Db)
    requires DbOk(db) && Compiled(g) && DueBatch(db, now, WorkDeliveries(ws)) && PolledTo(db, g, remote, now, ws, |ws|, db1)
    ensures |ws| < MAX_POLL_BATCH ==> forall d | d in db1.deliveries :: !DueNow(db1, d, now)
  {
    var ds := WorkDeliveries(ws);
    forall d | d in db1.deliveries && |ws| < MAX_POLL_BATCH ensures !DueNow(db1, d, now) {
      if d in ds {
        var k :| 0 <= k < |ds| && ds[k] == d;
        assert PolledAt(db, g, remote, now, ws[k], true, db1);
        PolledIsNotDue(db, g, remote, now, ws, k);
        assert Cur(db1, ws[k].delivery) == PolledRow(g, remote, now, d, db.deliveries[d], Cur(db, d));
      } else {
        CurMoved(db, db1, (set x | x in ds), d);
        assert !DueNow(db, d, now);
      }
    }
  }

  lemma PolledIsNotDue(db: Db, g: Generation, remote: Histories, now: Time, ws: seq<PollWork>, k: nat)
    requires DbOk(db) && Compiled(g) && k < |ws| && DueBatch(db, now, WorkDeliveries(ws)) && WorkIsFor(db, ws[k], now)
    ensures HasSchedule(Cur(db, ws[k].delivery))
    ensures !Due(PolledRow(g, remote, now, ws[k].delivery, db.deliveries[ws[k].delivery], Cur(db, ws[k].delivery)), now)
  {
    var d := ws[k].delivery;
    assert WorkDeliveries(ws)[k] == d && DueNow(db, WorkDeliveries(ws)[k], now);
    var x := db.deliveries[d];
    assert RowOk(Cur(db, d));
    HeardFits(g, remote, x, ws[k]);
    CompletionReleasesOrEnds(ClaimedRow(Cur(db, d), now), ws[k], Heard(g, remote, x, ws[k]), IntervalFor(g, x));
  }

  // ----- Manual operations -----

  /** What the operator is told: an attempt was created, or why not. */
  datatype Response = Created(attempt: Id) | Refused(reason: Refusal)

  /** The verdict on a request, given what a history lookup would answer. */
  ghost function Judged(db: Db, g: Generation, idle: bool, d: Id, expected: Id, op: Operation, h: History, reachable: bool, now: Time): Verdict
    requires Linked(db, d)
  {
    var x, a := db.deliveries[d], Cur(db, d);
    Execute(g, idle, d, x, a, expected, op, if reachable then Reconcile(x.binding, h, x.current, a.bound) else LookupFailed, now)
  }

  /** The decision; the lookup runs only when it is needed. */
  method Judge(m: Manager, d: Id, expected: Id, op: Operation, h: History, reachable: bool, now: Time) returns (v: Verdict)
    requires m.store.Valid() && d in m.store.deliveries
    ensures Linked(m.store.View(), d)
    ensures v == Judged(m.store.View(), m.current, m.mode.Idle?, d, expected, op, h, reachable, now)
    ensures v.Submit? ==> UpdateFits(v.update) && StillExpected(m.store.View(), v.update) && v.update.delivery == d
                          && (v.update.create <==> v.report.None?)
  {
    if !m.mode.Idle? { return Refuse(ReloadInProgress); }
    var x := m.store.deliveries[d];
    assert Linked(m.store.View(), d);
    var a := m.store.attempts[x.current];
    assert RowOk(a);
    var l := LookupFailed;
    if reachable && NeedsReconciliation(a.status) && x.binding.Dokploy? { l := FindDeployment(h, x.current, a.bound); }
    v := Execute(m.current, true, d, x, a, expected, op, l, now);
    SubmittedUpdatesFit(m.current, true, d, x, a, expected, op, h, !reachable, now);
  }

  /** Retry what was not sent or may not have arrived, redeploy what ended without success. */
  predicate Offered(s: Status, op: Operation) {
    if s.transport in {Failed, TransportStatus.Unknown} then op.Retry?
    else s.deployment in {Error, Cancelled, Timeout, DeploymentStatus.Unknown} && op.Redeploy?
  }

  /** Why a request on attempt a of delivery x is turned down before anything is looked up. */
  predicate TurnedDown(idle: bool, g: Generation, x: Delivery, a: Attempt, expected: Id, op: Operation, why: Refusal) {
    if !idle then why == ReloadInProgress
    else if x.current != expected then why == StateChanged
    else if !StillThere(g, x) then why == TargetChanged
    else if a.status.transport in {Pending, Sending}
            || (a.status.transport != TransportStatus.Unknown && a.status.deployment in {Locating, Running, Unrecognized}) then
      why == StillActive
    else if a.status.deployment.Done? then why == AlreadySucceeded
    else !Offered(a.status, op) && why == NotAllowed
  }

  /** The row of an attempt whose deployment e was found, and what the operator is told about it. */
  ghost predicate FoundAgain(a: Attempt, e: Entry, op: Operation, now: Time, x: Target, row: Attempt, told: Option<Refusal>) {
    && row == a.(status := row.status, bound := Some(e.id), lastPolled := None, pollDue := row.pollDue, deadline := row.deadline)
    && (if e.status in {Some("done"), Some("error"), Some("cancelled")} then row.pollDue.None? && row.deadline.None?
        else row.pollDue == Some((now + x.interval) / 1_000_000) && row.deadline == Some((now + x.timeout) / 1_000_000))
    && (e.status == Some("done") ==> row.status == Status(Enqueued, Done) && told == Some(AlreadySucceeded))
    && (e.status == Some("error") ==>
          row.status == Status(Enqueued, Error) && told == if op.Redeploy? then None else Some(StateChanged))
    && (e.status == Some("cancelled") ==>
          row.status == Status(Enqueued, Cancelled) && told == if op.Redeploy? then None else Some(StateChanged))
    && (e.status == Some("running") ==>
          row.status == Status(Enqueued, DeploymentStatus.Running) && told == Some(StillActive))
    && (e.status !in {Some("done"), Some("error"), Some("cancelled"), Some("running")} ==>
          row.status == Status(Enqueued, Unrecognized) && told == Some(StillActive))
  }

  /** What a request that is not turned down does, given what its lookup answers. */
  ghost predicate CarriedOut(db: Db, g: Generation, d: Id, op: Operation, l: Lookup, now: Time, id: Id, r: Response, db': Db)
    requires Schema(db) && d in db.deliveries && StillThere(g, db.deliveries[d])
  {
    if Cur(db, d).status.transport.Failed? || l.NotFound? then r == Created(id) && Replaced(db, d, id, op, db')
    else if l.LookupFailed? then r == Refused(ReconciliationUnavailable) && db' == db
    else
      && l.Found?
      && exists row: Attempt, told: Option<Refusal> ::
           && FoundAgain(Cur(db, d), l.entry, op, now, g.targets[db.deliveries[d].target], row, told)
           && if told.Some? then r == Refused(told.value) && Written(db, d, row, db')
              else r == Created(id) && exists mid: Db :: Written(db, d, row, mid) && Replaced(mid, d, id, op, db')
  }

  /** A manual request from its checks to its answer. */
  ghost predicate ManualPass(db: Db, idle: bool, g: Generation, d: Id, expected: Id, op: Operation, h: History, reachable: bool,
                             now: Time, id: Id, r: Response, db': Db)
    requires Schema(db)
  {
    if d !in db.deliveries then r == Refused(if idle then StateChanged else ReloadInProgress) && db' == db
    else if exists why :: TurnedDown(idle, g, db.deliveries[d], Cur(db, d), expected, op, why) then
      r.Refused? && TurnedDown(idle, g, db.deliveries[d], Cur(db, d), expected, op, r.reason) && db' == db
    else
      && StillThere(g, db.deliveries[d])
      && exists l: Lookup ::
           && (if !reachable || db.deliveries[d].binding.Direct? then l == LookupFailed
               else AnswersBy(h, db.deliveries[d].current, Cur(db, d).bound, l))
           && CarriedOut(db, g, d, op, l, now, id, r, db')
  }

  /** The checks of Execute, read as reasons. */
  lemma RefusalsAreReasons(db: Db, g: Generation, idle: bool, d: Id, expected: Id, op: Operation, h: History, reachable: bool, now: Time,
                           why: Refusal)
    requires Schema(db) && d in db.deliveries && RowOk(Cur(db, d))
    requires TurnedDown(idle, g, db.deliveries[d], Cur(db, d), expected, op, why)
    ensures Judged(db, g, idle, d, expected, op, h, reachable, now) == Refuse(why)
  {
  }

  lemma CorrectionIsFoundAgain(x: Delivery, d: Id, a: Attempt, e: Entry, op: Operation, now: Time, t: Target)
    ensures var u := Correction(d, x.current, a, e, op, now, t);
            FoundAgain(a, e, op, now, t, CorrectedTo(a, u),
                       if u.create then None
                       else if u.status.deployment.Done? then Some(AlreadySucceeded)
                       else if Monitored(u.status.deployment) then Some(StillActive) else Some(StateChanged))
  {
  }

  /** A verdict to submit, carried out. */
  lemma SubmittedIsCarriedOut(db: Db, g: Generation, d: Id, expected: Id, op: Operation, h: History, reachable: bool, now: Time,
                              id: Id, db': Db)
    requires Schema(db) && d in db.deliveries && RowOk(Cur(db, d))
    requires Judged(db, g, true, d, expected, op, h, reachable, now).Submit?
    requires ManuallyUpdated(db, Judged(db, g, true, d, expected, op, h, reachable, now).update, id, db')
    ensures StillThere(g, db.deliveries[d])
    ensures var v := Judged(db, g, true, d, expected, op, h, reachable, now);
            CarriedOut(db, g, d, op, if reachable then Reconcile(db.deliveries[d].binding, h, db.deliveries[d].current, Cur(db, d).bound)
                                     else LookupFailed, now, id,
                       if v.report.None? then Created(id) else Refused(v.report.value), db')
  {
    var x, a := db.deliveries[d], Cur(db, d);
    var l := if reachable then Reconcile(x.binding, h, x.current, a.bound) else LookupFailed;
    if NeedsReconciliation(a.status) && l.Found? {
      CorrectionIsFoundAgain(x, d, a, l.entry, op, now, g.targets[x.target]);
    } else {
      FindIsDefinite(h, x.current, a.bound);
    }
  }

  lemma RefusedIsPass(db: Db, g: Generation, idle: bool, d: Id, expected: Id, op: Operation, h: History, reachable: bool, now: Time, id: Id)
    requires Schema(db) && d in db.deliveries && RowOk(Cur(db, d))
    requires Judged(db, g, idle, d, expected, op, h, reachable, now).Refuse?
    ensures ManualPass(db, idle, g, d, expected, op, h, reachable, now, id,
                       Refused(Judged(db, g, idle, d, expected, op, h, reachable, now).refusal), db)
  {
    var x, a := db.deliveries[d], Cur(db, d);
    if exists why :: TurnedDown(idle, g, x, a, expected, op, why) {
      var why :| TurnedDown(idle, g, x, a, expected, op, why);
      RefusalsAreReasons(db, g, idle, d, expected, op, h, reachable, now, why);
    } else {
      NotTurnedDown(idle, g, x, a, expected, op);
      var l := if reachable then Reconcile(x.binding, h, x.current, a.bound) else LookupFailed;
      FindAnswers(h, x.current, a.bound);
      assert CarriedOut(db, g, d, op, l, now, id, Refused(ReconciliationUnavailable), db);
    }
  }

  lemma NotTurnedDown(idle: bool, g: Generation, x: Delivery, a: Attempt, expected: Id, op: Operation)
    requires RowOk(a) && !exists why :: TurnedDown(idle, g, x, a, expected, op, why)
    ensures idle && x.current == expected && StillThere(g, x) && Offered(a.status, op)
    ensures !a.status.deployment.Done? && (a.status.transport.Failed? || NeedsReconciliation(a.status))
    ensures op in AllowedOperations(a.status)
  {
    assert !TurnedDown(idle, g, x, a, expected, op, ReloadInProgress);
    assert !TurnedDown(idle, g, x, a, expected, op, StateChanged);
    assert !TurnedDown(idle, g, x, a, expected, op, TargetChanged);
    assert !TurnedDown(idle, g, x, a, expected, op, StillActive);
    assert !TurnedDown(idle, g, x, a, expected, op, AlreadySucceeded);
    assert !TurnedDown(idle, g, x, a, expected, op, NotAllowed);
  }

  lemma SubmittedIsPass(db: Db, g: Generation, d: Id, expected: Id, op: Operation, h: History, reachable: bool, now: Time, id: Id, db': Db)
    requires Schema(db) && d in db.deliveries && RowOk(Cur(db, d))
    requires Judged(db, g, true, d, expected, op, h, reachable, now).Submit?
    requires ManuallyUpdated(db, Judged(db, g, true, d, expected, op, h, reachable, now).update, id, db')
    ensures var v := Judged(db, g, true, d, expected, op, h, reachable, now);
            ManualPass(db, true, g, d, expected, op, h, reachable, now, id,
                       if v.report.None? then Created(id) else Refused(v.report.value), db')
  {
    var x, a := db.deliveries[d], Cur(db, d);
    if exists why :: TurnedDown(true, g, x, a, expected, op, why) {
      var why :| TurnedDown(true, g, x, a, expected, op, why);
      RefusalsAreReasons(db, g, true, d, expected, op, h, reachable, now, why);
    }
    SubmittedIsCarriedOut(db, g, d, expected, op, h, reachable, now, id, db');
    FindAnswers(h, x.current, a.bound);
  }

  /** Execute of internal/service/attempts.go. */
  method ExecuteManual(m: Manager, d: Id, expected: Id, op: Operation, h: History, reachable: bool, now: Time, id: Id)
    returns (r: Response, ghost v: Verdict)
    requires m.store.Valid() && id !in m.store.attempts
    modifies m.store
    ensures m.store.Valid()
    ensures d in old(m.store.deliveries) ==>
              Linked(old(m.store.View()), d) && v == Judged(old(m.store.View()), m.current, m.mode.Idle?, d, expected, op, h, reachable, now)
    ensures d !in old(m.store.deliveries) ==> v.Refuse?
    ensures v.Refuse? ==> r == Refused(v.refusal) && m.store.View() == old(m.store.View())
    ensures v.Submit? ==> m.store.View() == Apply(old(m.store.View()), v.update, id)
    ensures v.Submit? ==> r == (if v.report.None? then Created(id) else Refused(v.report.value))
    ensures r.Created? ==> d in m.store.deliveries && m.store.deliveries[d].current == id && m.store.deliveries[d].status == FRESH
    ensures ManualPass(old(m.store.View()), m.mode.Idle?, m.current, d, expected, op, h, reachable, now, id, r, m.store.View())
  {
    ghost var db := m.store.View();
    if d !in m.store.deliveries {
      v := Refuse(if m.mode.Idle? then StateChanged else ReloadInProgress);
      return Refused(if m.mode.Idle? then StateChanged else ReloadInProgress), v;
    }
    var verdict := Judge(m, d, expected, op, h, reachable, now);
    v := verdict;
    CurrentRowOk(db, d);
    match verdict
    case Refuse(why) =>
      RefusedIsPass(db, m.current, m.mode.Idle?, d, expected, op, h, reachable, now, id);
      return Refused(why), v;
    case Submit(u, report) =>
      var applied := m.store.ApplyManualUpdate(u, id);
      r := if u.create then Created(id) else Refused(report.value);
      SubmittedIsPass(db, m.current, d, expected, op, h, reachable, now, id, m.store.View());
  }

  lemma CurrentRowOk(db: Db, d: Id)
    requires DbOk(db) && d in db.deliveries
    ensures RowOk(Cur(db, d))
  {
  }

  // ----- Startup -----

  /** The generation can still send and poll what this delivery is bound to. */
  predicate Reachable(g: Generation, x: Delivery) { Compatible(g, x.target, x.binding) }

  /** The row of a delivery once its binding has been checked. */
  function CheckedRow(g: Generation, x: Delivery, a: Attempt): Attempt {
    if Active(a.status) && !Reachable(g, x) then TerminatedRow(a) else a
  }

  /** After the first i bindings: what can no longer be reached has ended, every other row is untouched. */
  ghost predicate Checked(db: Db, g: Generation, bs: seq<ActiveBinding>, i: nat, db1: Db) {
    && DbOk(db) && DbOk(db1) && i <= |bs| && Moved(db, db1, set k | 0 <= k < i :: bs[k].delivery)
    && forall k | 0 <= k < i :: CheckedAt(db, g, bs[k].delivery, db1)
  }

  predicate CheckedAt(db: Db, g: Generation, d: Id, db1: Db) {
    Linked(db, d) && Linked(db1, d) && Cur(db1, d) == CheckedRow(g, db.deliveries[d], Cur(db, d))
  }

  ghost predicate Listed(db: Db, bs: seq<ActiveBinding>)
    requires Schema(db)
  {
    && (forall i | 0 <= i < |bs| ::
          && bs[i].delivery in db.deliveries && ActiveDelivery(db, bs[i].delivery)
          && bs[i].attempt == db.deliveries[bs[i].delivery].current && bs[i].status == Cur(db, bs[i].delivery).status)
    && (forall i, j | 0 <= i < j < |bs| :: bs[i].delivery != bs[j].delivery)
  }

  /** One round of the loop: the binding is still as listed, and is ended only if it cannot be reached. */
  lemma CheckNext(db: Db, g: Generation, bs: seq<ActiveBinding>, i: nat, db1: Db)
    requires Checked(db, g, bs, i, db1) && i < |bs| && Listed(db, bs)
    ensures var d := bs[i].delivery;
            && d in db1.deliveries && Linked(db1, d) && Cur(db1, d) == Cur(db, d) && Cur(db1, d).status == bs[i].status
            && db1.deliveries[d].current == bs[i].attempt && Active(bs[i].status)
            && db1.deliveries[d].target == db.deliveries[d].target && db1.deliveries[d].binding == db.deliveries[d].binding
  {
    CurMoved(db, db1, (set k | 0 <= k < i :: bs[k].delivery), bs[i].delivery);
    assert ActiveDelivery(db, bs[i].delivery);
  }

  lemma CheckedOneMore(db: Db, g: Generation, bs: seq<ActiveBinding>, i: nat, db1: Db, db2: Db)
    requires Checked(db, g, bs, i, db1) && i < |bs| && Listed(db, bs) && DbOk(db2) && bs[i].delivery in db1.deliveries
    requires if Reachable(g, db1.deliveries[bs[i].delivery]) then db2 == db1
             else db2 == Put(db1, bs[i].delivery, TerminatedRow(Cur(db1, bs[i].delivery)), true)
    ensures Checked(db, g, bs, i + 1, db2)
  {
    var d := bs[i].delivery;
    CheckNext(db, g, bs, i, db1);
    CheckedOne(g, db1, db2, d);
    MovedMore(db, db1, db2, bs, i);
    forall k | 0 <= k < i + 1 ensures CheckedAt(db, g, bs[k].delivery, db2) {
      if k < i {
        assert CheckedAt(db, g, bs[k].delivery, db1);
        CurMoved(db1, db2, {d}, bs[k].delivery);
      }
    }
  }

  lemma CheckedOne(g: Generation, db1: Db, db2: Db, d: Id)
    requires DbOk(db1) && Schema(db2) && d in db1.deliveries && ActiveDelivery(db1, d)
    requires if Reachable(g, db1.deliveries[d]) then db2 == db1 else db2 == Put(db1, d, TerminatedRow(Cur(db1, d)), true)
    ensures Moved(db1, db2, {d}) && CheckedAt(db1, g, d, db2)
  {
    if !Reachable(g, db1.deliveries[d]) {
      PutFrame(db1, d, TerminatedRow(Cur(db1, d)), true);
      PutMoves(db1, d, TerminatedRow(Cur(db1, d)), true);
    }
  }

  lemma MovedMore(db: Db, db1: Db, db2: Db, bs: seq<ActiveBinding>, i: nat)
    requires Schema(db) && Schema(db1) && i < |bs| && Moved(db, db1, set k | 0 <= k < i :: bs[k].delivery)
    requires Moved(db1, db2, {bs[i].delivery}) && bs[i].delivery in db.deliveries
    ensures Moved(db, db2, set k | 0 <= k < i + 1 :: bs[k].delivery)
  {
    var m := set k | 0 <= k < i + 1 :: bs[k].delivery;
    var m0 := set k | 0 <= k < i :: bs[k].delivery;
    assert forall d | d in m0 :: d in m;
    assert bs[i].delivery in m;
    assert Moved(db, db1, m);
    MovedBoth(db, db1, db2, m, bs[i].delivery);
  }

  /** Every current row has become what f makes of it; nothing else about the deliveries has changed. */
  ghost predicate RowsBecome(db: Db, f: (Delivery, Attempt) -> Attempt, db': Db)
    requires Schema(db)
  {
    && Schema(db') && db'.deliveries.Keys == db.deliveries.Keys
    && forall d | d in db.deliveries ::
         && db'.deliveries[d] == db.deliveries[d].(status := db'.deliveries[d].status)
         && Cur(db', d) == f(db.deliveries[d], Cur(db, d))
  }

  lemma AllChecked(db: Db, g: Generation, bs: seq<ActiveBinding>, db1: Db)
    requires Checked(db, g, bs, |bs|, db1)
    requires forall d | d in db.deliveries && ActiveDelivery(db, d) :: exists i :: 0 <= i < |bs| && bs[i].delivery == d
    ensures RowsBecome(db, (x, a) => CheckedRow(g, x, a), db1)
  {
    forall d | d in db.deliveries ensures Linked(db1, d) && Cur(db1, d) == CheckedRow(g, db.deliveries[d], Cur(db, d)) {
      if exists i :: 0 <= i < |bs| && bs[i].delivery == d {
        var i :| 0 <= i < |bs| && bs[i].delivery == d;
        assert CheckedAt(db, g, bs[i].delivery, db1);
      } else {
        assert !ActiveDelivery(db, d);
        CurMoved(db, db1, (set k | 0 <= k < |bs| :: bs[k].delivery), d);
      }
    }
  }

  /** Ends exactly the active attempts whose target is gone or has moved; every other row stays as it was. */
  method EndUnreachable(store: Store, g: Generation)
    requires store.Valid()
    modifies store
    ensures store.Valid() && store.queue == old(store.queue) && store.events == old(store.events)
    ensures RowsBecome(old(store.View()), (x, a) => CheckedRow(g, x, a), store.View())
    ensures AllKeptOrEnded(old(store.View()), g, store.View())
  {
    ghost var db := store.View();
    var bs := store.ListActiveBindings();
    assert Listed(db, bs);
    for i := 0 to |bs|
      invariant store.Valid() && Checked(db, g, bs, i, store.View())
    {
      ghost var db1 := store.View();
      CheckNext(db, g, bs, i, db1);
      if !Compatible(g, store.deliveries[bs[i].delivery].target, store.deliveries[bs[i].delivery].binding) {
        store.TerminateIncompatibleActive(bs[i]);
      }
      CheckedOneMore(db, g, bs, i, db1, store.View());
    }
    AllChecked(db, g, bs, store.View());
    CheckedIsKeptOrEnded(db, g, store.View());
  }

  /** Exactly the unfinished attempts that can no longer be reached have ended: failed if never sent, unknown otherwise. */
  ghost predicate AllKeptOrEnded(db: Db, g: Generation, db': Db)
    requires Schema(db)
  {
    && Schema(db') && db'.deliveries.Keys == db.deliveries.Keys
    && forall d | d in db.deliveries :: KeptOrEnded(g, db.deliveries[d], Cur(db, d), Cur(db', d))
  }

  lemma CheckedIsKeptOrEnded(db: Db, g: Generation, db': Db)
    requires Schema(db) && RowsBecome(db, (x, a) => CheckedRow(g, x, a), db')
    ensures AllKeptOrEnded(db, g, db')
  {
    forall d | d in db.deliveries ensures KeptOrEnded(g, db.deliveries[d], Cur(db, d), Cur(db', d)) {
      TerminatedIsEnded(Cur(db, d));
    }
  }

  /** Every row when start-up ends, column by column. */
  ghost predicate AllReady(db: Db, g: Generation, now: Time, db': Db)
    requires Schema(db)
  {
    && Schema(db') && db'.deliveries.Keys == db.deliveries.Keys
    && forall d | d in db.deliveries :: ReadyToServe(g, now, db.deliveries[d], Cur(db, d), Cur(db', d))
  }

  lemma PreparedIsReady(db: Db, g: Generation, now: Time, db': Db)
    requires DbOk(db) && RowsBecome(db, (x, a) => PreparedRow(g, now, x, a), db')
    ensures AllReady(db, g, now, db')
  {
    forall d | d in db.deliveries ensures ReadyToServe(g, now, db.deliveries[d], Cur(db, d), Cur(db', d)) {
      assert RowOk(Cur(db, d));
      ReadyRow(g, now, db.deliveries[d], Cur(db, d));
    }
  }

  lemma ReadyRow(g: Generation, now: Time, x: Delivery, a: Attempt)
    ensures ReadyToServe(g, now, x, a, PreparedRow(g, now, x, a))
  {
    TerminatedIsEnded(a);
    RecoveredIs(g, now, x, a);
  }

  /** The row of a delivery when start-up ends: checked first, then recovered. */
  function PreparedRow(g: Generation, now: Time, x: Delivery, a: Attempt): Attempt {
    var b := CheckedRow(g, x, a);
    if Interrupted(b) then RecoveredRow(g, now, x, b) else b
  }

  lemma RecoveredRows(db: Db, db1: Db, g: Generation, now: Time, ds: seq<Id>, db2: Db)
    requires DbOk(db) && DbOk(db1) && Compiled(g) && RowsBecome(db, (x, a) => CheckedRow(g, x, a), db1)
    requires RecoveryBatch(db1, ds) && DbOk(db2) && db2 == PutAll(db1, ds, (x, a) => RecoveredRow(g, now, x, a))
    ensures RowsBecome(db, (x, a) => PreparedRow(g, now, x, a), db2) && db2.queue == db1.queue && db2.events == db1.events
  {
    var f := (x: Delivery, a: Attempt) => RecoveredRow(g, now, x, a);
    RecoveryIsBatch(db1, g, now, ds);
    PutAllOk(db1, ds, f);
    forall d | d in db.deliveries ensures Linked(db2, d) && Cur(db2, d) == PreparedRow(g, now, db.deliveries[d], Cur(db, d)) {
      PutAllCur(db1, ds, f, d);
    }
  }

  /** What survives start-up: exactly the reachable ones of the active deliveries, and none of them in a send. */
  lemma PreparedRowFacts(g: Generation, now: Time, x: Delivery, a: Attempt)
    requires RowOk(a)
    ensures var b := PreparedRow(g, now, x, a);
            && (Active(b.status) <==> Active(a.status) && Reachable(g, x))
            && !b.status.transport.Sending? && (!Active(a.status) ==> b == a) && (a.status.transport.Pending? && Reachable(g, x) ==> b == a)
  {
  }

  /** The rows after start-up: as prepared, so that exactly the reachable ones of the active deliveries are active. */
  ghost predicate PreparedTo(db: Db, g: Generation, now: Time, db': Db)
    requires Schema(db)
  {
    && RowsBecome(db, (x, a) => PreparedRow(g, now, x, a), db') && db'.queue == db.queue && db'.events == db.events
    && forall d | d in db'.deliveries ::
         && (ActiveDelivery(db', d) <==> ActiveDelivery(db, d) && Reachable(g, db'.deliveries[d]))
         && !Cur(db', d).status.transport.Sending?
  }

  lemma StartUpIsPrepared(db: Db, db1: Db, g: Generation, now: Time, ds: seq<Id>, db2: Db)
    requires DbOk(db) && DbOk(db1) && Compiled(g) && RowsBecome(db, (x, a) => CheckedRow(g, x, a), db1)
    requires db1.queue == db.queue && db1.events == db.events
    requires RecoveryBatch(db1, ds) && DbOk(db2) && db2 == PutAll(db1, ds, (x, a) => RecoveredRow(g, now, x, a))
    ensures PreparedTo(db, g, now, db2)
  {
    RecoveredRows(db, db1, g, now, ds, db2);
    forall d | d in db2.deliveries
      ensures ActiveDelivery(db2, d) <==> ActiveDelivery(db, d) && Reachable(g, db2.deliveries[d])
      ensures !Cur(db2, d).status.transport.Sending?
    {
      assert RowOk(Cur(db, d));
      PreparedRowFacts(g, now, db.deliveries[d], Cur(db, d));
    }
  }

  /** The durable part of Prepare. */
  method PrepareRows(store: Store, g: Generation, now: Time)
    requires store.Valid() && Compiled(g)
    modifies store
    ensures store.Valid() && PreparedTo(old(store.View()), g, now, store.View())
    ensures AllReady(old(store.View()), g, now, store.View())
  {
    ghost var db := store.View();
    EndUnreachable(store, g);
    ghost var db1 := store.View();
    ghost var ds: seq<Id>;
    var changes;
    changes, ds := store.RecoverInterrupted(now, g);
    StartUpIsPrepared(db, db1, g, now, ds, store.View());
    PreparedIsReady(db, g, now, store.View());
  }

  /** Prepare: before anything serves, every active row is reachable and none is left in the middle of a send. */
  method Prepare(m: Manager, now: Time)
    requires m.store.Valid() && Compiled(m.current)
    modifies m, m.store
    ensures m.store.Valid() && m.current == old(m.current)
    ensures PreparedTo(old(m.store.View()), m.current, now, m.store.View())
    ensures AllReady(old(m.store.View()), m.current, now, m.store.View())
    ensures m.mode.Idle? <==> m.store.queue == []
    ensures m.mode.Waiting? <==> m.store.queue != [] && !Quiet(m.store.View())
    ensures m.mode.Draining? <==> m.store.queue != [] && Quiet(m.store.View())
  {
    PrepareRows(m.store, m.current, now);
    m.Initialize();
    CountsActive(m.store.View());
  }
}
