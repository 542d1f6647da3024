/**
 * Why exactness needs one way per resource. The repository's README.md says sends to the same Compose resource are
 * serialized; the dispatch key, however, also covers the SSH tunnel. Two targets that reach one resource
 * through different tunnels are not serialized, and any such configuration has a run in which an attempt
 * is bound to a deployment another attempt created.
 */
module TwoWays {
  import opened Domain
  import opened Tables
  import opened Correlation
  import opened Polling
  import opened Intake
  import opened Manual
  import opened Reload
  import opened Protocol
  import opened Invariant
  import opened Exactness
  import opened Theorems
  import opened Paths

  const EVENT := EventRow("p", "s", "r", "k", 0, "push", None, None, None, None, None, Deploy)
  const SENT := Status(Sending, NotStarted)
  const LOST := Status(TransportStatus.Unknown, Locating)

  /** The deployment the second send creates. */
  const CREATED := Entry("x", None, Some("done"))

  /** Two targets of g that reach one resource by different ways. */
  ghost predicate TwoWay(g: Generation, t: TargetId, u: TargetId) {
    && Compiled(g) && t in g.targets && u in g.targets
    && g.targets[t].binding.Dokploy? && g.targets[u].binding.Dokploy?
    && g.targets[t].binding.resource == g.targets[u].binding.resource && g.targets[t].binding != g.targets[u].binding
  }

  /** Delivery 1 with attempt 11 to target t, delivery 2 with attempt 12 to target u. */
  function Rows(g: Generation, t: TargetId, u: TargetId, a: Attempt, b: Attempt, la: seq<AuditRecord>, lb: seq<AuditRecord>): Db
    requires t in g.targets && u in g.targets
  {
    var x, y := g.targets[t].binding, g.targets[u].binding;
    Db(map[0 := EVENT],
       map[1 := Delivery(0, t, x, Some(x), 11, a.status, 0), 2 := Delivery(0, u, y, Some(y), 12, b.status, 0)],
       map[11 := a, 12 := b], map[1 := la, 2 := lb], [], 1)
  }

  // ----- Rewriting the two rows -----

  lemma RowsLinked(g: Generation, t: TargetId, u: TargetId, a: Attempt, b: Attempt, la: seq<AuditRecord>, lb: seq<AuditRecord>)
    requires t in g.targets && u in g.targets && a.delivery == 1 && b.delivery == 2
    ensures var db := Rows(g, t, u, a, b, la, lb); Schema(db) && Cur(db, 1) == a && Cur(db, 2) == b
  {
    var db := Rows(g, t, u, a, b, la, lb);
    forall d | d in db.deliveries ensures Linked(db, d) && db.deliveries[d].event in db.events {
      assert d == 1 || d == 2;
    }
    assert QueueSound(db);
  }

  lemma PutSecond(g: Generation, t: TargetId, u: TargetId, a: Attempt, b: Attempt, c: Attempt, la: seq<AuditRecord>, lb: seq<AuditRecord>, note: bool)
    requires t in g.targets && u in g.targets && a.delivery == 1 && b.delivery == 2 && (note || c.status == b.status)
    ensures Linked(Rows(g, t, u, a, b, la, lb), 2)
    ensures Put(Rows(g, t, u, a, b, la, lb), 2, c, note)
            == Rows(g, t, u, a, c, la, if note then lb + [AuditRecord(12, b.status, c.status)] else lb)
  {
    RowsLinked(g, t, u, a, b, la, lb);
    var db := Rows(g, t, u, a, b, la, lb);
    var db' := Rows(g, t, u, a, c, la, if note then lb + [AuditRecord(12, b.status, c.status)] else lb);
    assert Put(db, 2, c, note).deliveries == db'.deliveries;
    assert Put(db, 2, c, note).attempts == db'.attempts;
    assert Put(db, 2, c, note).audit == db'.audit;
  }

  lemma PutFirst(g: Generation, t: TargetId, u: TargetId, a: Attempt, b: Attempt, c: Attempt, la: seq<AuditRecord>, lb: seq<AuditRecord>, note: bool)
    requires t in g.targets && u in g.targets && a.delivery == 1 && b.delivery == 2 && (note || c.status == a.status)
    ensures Linked(Rows(g, t, u, a, b, la, lb), 1)
    ensures Put(Rows(g, t, u, a, b, la, lb), 1, c, note)
            == Rows(g, t, u, c, b, if note then la + [AuditRecord(11, a.status, c.status)] else la, lb)
  {
    RowsLinked(g, t, u, a, b, la, lb);
    var db := Rows(g, t, u, a, b, la, lb);
    var db' := Rows(g, t, u, c, b, if note then la + [AuditRecord(11, a.status, c.status)] else la, lb);
    assert Put(db, 1, c, note).deliveries == db'.deliveries;
    assert Put(db, 1, c, note).attempts == db'.attempts;
    assert Put(db, 1, c, note).audit == db'.audit;
  }

  // ----- The run -----

  /** The rows of an attempt on its way to the POST. */
  function Untouched(d: Id): Attempt { NewAttempt(d, Initial) }
  function SendingOnce(d: Id): Attempt { Untouched(d).(status := SENT) }
  function Fenced(d: Id): Attempt { SendingOnce(d).(cursor := Some("")) }
  function Ready(d: Id): Attempt { Fenced(d).(request := Some(""), requestAt := Some(0)) }

  /** An attempt whose POST was lost: it is waiting to be located after an empty history. */
  function LostRow(t: Target): Attempt {
    Ready(1).(status := LOST, pollDue := Some(Millis(t.interval)), deadline := Some(Millis(t.timeout)))
  }

  function PolledRow(t: Target): Attempt { LostRow(t).(lastPolled := Some(Millis(t.interval))) }

  function BoundRow(t: Target): Attempt {
    PolledRow(t).(status := Status(Enqueued, Done), bound := Some("x"), pollDue := None)
  }

  function Work(t: Target): PollWork { PollWork(1, 11, LOST, None, Some(""), Millis(t.timeout), t.interval) }

  const CLAIM_A := [AuditRecord(11, FRESH, SENT)]
  const LOST_A := CLAIM_A + [AuditRecord(11, SENT, LOST)]
  const DONE_A := LOST_A + [AuditRecord(11, LOST, Status(Enqueued, Done))]
  const CLAIM_B := [AuditRecord(12, FRESH, SENT)]

  function Both(db: Db, g: Generation, disp: Dispatch, posts: multiset<Id>): Sys {
    Sys(db, map[], Serving, NewManager(g), disp, [], map[], posts, map[], {0, 1, 2, 11, 12}, [0], [0])
  }

  /** The first send. */
  function First(g: Generation, t: TargetId, u: TargetId, a: Attempt, stage: Stage, posts: multiset<Id>): Sys
    requires t in g.targets && u in g.targets
  {
    Both(Rows(g, t, u, a, Untouched(2), CLAIM_A, []), g, Busy(1, 11, g, stage), posts)
  }

  /** The second send, while the first attempt waits. */
  function Second(g: Generation, t: TargetId, u: TargetId, b: Attempt, stage: Stage): Sys
    requires t in g.targets && u in g.targets
  {
    Both(Rows(g, t, u, LostRow(g.targets[t]), b, LOST_A, CLAIM_B), g, Busy(2, 12, g, stage), multiset{11})
  }

  /** The second POST has created its deployment. */
  function Third(g: Generation, t: TargetId, u: TargetId, a: Attempt, log: seq<AuditRecord>, polls: seq<InFlight>): Sys
    requires t in g.targets && u in g.targets && g.targets[t].binding.Dokploy?
  {
    Both(Rows(g, t, u, a, Ready(2), log, CLAIM_B), g, Busy(2, 12, g, Posted("", Accepted)), multiset{11, 12}).(
      polls := polls, remote := map[g.targets[t].binding.resource := [CREATED]], born := map["x" := 12])
  }

  /** The state after n steps. */
  function Scene(g: Generation, t: TargetId, u: TargetId, n: nat): Sys
    requires t in g.targets && u in g.targets && g.targets[t].binding.Dokploy?
  {
    var x := g.targets[t];
    if n == 0 then Empty(g, Terminating)
    else if n == 1 then Empty(g, Recovering)
    else if n == 2 then Empty(g, Initializing)
    else if n == 3 then Empty(g, Serving)
    else if n == 4 then Both(Rows(g, t, u, Untouched(1), Untouched(2), [], []), g, Resting, multiset{})
    else if n == 5 then First(g, t, u, SendingOnce(1), Claimed, multiset{})
    else if n == 6 then First(g, t, u, SendingOnce(1), CursorRead(""), multiset{})
    else if n == 7 then First(g, t, u, Fenced(1), CursorStored, multiset{})
    else if n == 8 then First(g, t, u, Ready(1), Recorded(""), multiset{})
    else if n == 9 then First(g, t, u, Ready(1), Posted("", Uncertain), multiset{11})
    else if n == 10 then Both(Rows(g, t, u, LostRow(x), Untouched(2), LOST_A, []), g, Resting, multiset{11})
    else if n == 11 then Second(g, t, u, SendingOnce(2), Claimed)
    else if n == 12 then Second(g, t, u, SendingOnce(2), CursorRead(""))
    else if n == 13 then Second(g, t, u, Fenced(2), CursorStored)
    else if n == 14 then Second(g, t, u, Ready(2), Recorded(""))
    else if n == 15 then Third(g, t, u, LostRow(x), LOST_A, [])
    else if n == 16 then Third(g, t, u, PolledRow(x), LOST_A, [InFlight(Work(x), g, None)])
    else if n == 17 then Third(g, t, u, PolledRow(x), LOST_A, [InFlight(Work(x), g, Some(Found(CREATED)))])
    else Third(g, t, u, BoundRow(x), DONE_A, [])
  }

  function Items(g: Generation, t: TargetId, u: TargetId): seq<NewDelivery>
    requires t in g.targets && u in g.targets
  {
    [NewDelivery(t, g.targets[t].binding), NewDelivery(u, g.targets[u].binding)]
  }

  const IDS := [Fresh(1, 11), Fresh(2, 12)]

  const STEPS := 18

  /** The n-th action. */
  function Act(g: Generation, t: TargetId, u: TargetId, n: nat): Action
    requires t in g.targets && u in g.targets && n < STEPS
  {
    if n == 0 then BindingsChecked
    else if n == 1 then Recover(0, [])
    else if n == 2 then Initialize
    else if n == 3 then Receive(EVENT, true, Decision(Deploy, Items(g, t, u)), 0, IDS)
    else if n == 4 then Claim(1)
    else if n == 5 || n == 11 then ReadCursor
    else if n == 6 || n == 12 then StoreCursor
    else if n == 7 || n == 13 then RecordRequest("", 0)
    else if n == 8 then Post(Uncertain, None)
    else if n == 9 then FinishSend(0)
    else if n == 10 then Claim(2)
    else if n == 14 then Post(Accepted, Some(CREATED))
    else if n == 15 then ClaimPolls(g.targets[t].interval, [1])
    else if n == 16 then LookUp(false)
    else CompletePoll
  }

  ghost predicate Moves(g: Generation, t: TargetId, u: TargetId, n: nat)
    requires TwoWay(g, t, u) && n < STEPS
  {
    Next(Scene(g, t, u, n), Act(g, t, u, n), Scene(g, t, u, n + 1))
  }

  lemma StartUp(g: Generation, t: TargetId, u: TargetId, n: nat)
    requires TwoWay(g, t, u) && n <= 2
    ensures Moves(g, t, u, n)
  {
    if n == 0 { BindingsCheckedStep(g); } else if n == 1 { RecoverStep(g); } else { InitializeStep(g); }
  }

  lemma StoredBoth(g: Generation, t: TargetId, u: TargetId)
    requires TwoWay(g, t, u)
    ensures Stored(EMPTY, 0, EVENT, Decision(Deploy, Items(g, t, u)), IDS) == Rows(g, t, u, Untouched(1), Untouched(2), [], [])
  {
    var items := Items(g, t, u);
    var db := WithEvent(EMPTY, 0, EVENT);
    assert items[1..] == [items[1]] && IDS[1..] == [IDS[1]];
    assert [items[1]][1..] == [] && [IDS[1]][1..] == [];
    var one := AddOne(db, 0, items[0], IDS[0], 0);
    assert AddAll(db, 0, items, IDS, 0) == AddAll(one, 0, [items[1]], [IDS[1]], 0) == AddOne(one, 0, items[1], IDS[1], 0);
    var both := AddOne(one, 0, items[1], IDS[1], 0);
    var rows := Rows(g, t, u, Untouched(1), Untouched(2), [], []);
    assert both.deliveries == rows.deliveries && both.attempts == rows.attempts && both.audit == rows.audit;
  }

  lemma DrawnIds()
    ensures DeliveryIds(IDS) == {1, 2} && AttemptIds(IDS) == {11, 12} && AllFresh(IDS, {0})
  {
    assert IDS[1..] == [IDS[1]] && [IDS[1]][1..] == [];
    assert DeliveryIds([]) == {} && AttemptIds([]) == {};
    assert DeliveryIds([IDS[1]]) == {2} + {} && AttemptIds([IDS[1]]) == {12} + {};
    assert DeliveryIds(IDS) == {1} + {2} && AttemptIds(IDS) == {11} + {12};
  }

  lemma RoutedBoth(g: Generation, t: TargetId, u: TargetId)
    requires TwoWay(g, t, u)
    ensures Routes(g, Decision(Deploy, Items(g, t, u)))
  {
  }

  lemma Received(g: Generation, t: TargetId, u: TargetId)
    requires TwoWay(g, t, u)
    ensures Receives(Scene(g, t, u, 3), EVENT, true, Decision(Deploy, Items(g, t, u)), 0, IDS, Scene(g, t, u, 4))
  {
    StoredBoth(g, t, u);
    DrawnIds();
    RoutedBoth(g, t, u);
    assert {} + {0} + {1, 2} + {11, 12} == {0, 1, 2, 11, 12};
    assert Scene(g, t, u, 3).accepted + [0] == [0];
  }

  lemma Receiving(g: Generation, t: TargetId, u: TargetId)
    requires TwoWay(g, t, u)
    ensures Moves(g, t, u, 3)
  {
    EmptyIsSound();
    Received(g, t, u);
  }

  lemma OnlyTwo(g: Generation, t: TargetId, u: TargetId, a: Attempt, b: Attempt, la: seq<AuditRecord>, lb: seq<AuditRecord>, d: Id)
    requires t in g.targets && u in g.targets
    ensures d in Rows(g, t, u, a, b, la, lb).deliveries <==> d == 1 || d == 2
  {
  }

  lemma FirstIsNext(g: Generation, t: TargetId, u: TargetId)
    requires TwoWay(g, t, u)
    ensures var db := Rows(g, t, u, Untouched(1), Untouched(2), [], []); Schema(db) && NextClaim(db, 1)
  {
    var db := Rows(g, t, u, Untouched(1), Untouched(2), [], []);
    RowsLinked(g, t, u, Untouched(1), Untouched(2), [], []);
    forall d | d in db.deliveries ensures d == 1 || d == 2 { OnlyTwo(g, t, u, Untouched(1), Untouched(2), [], [], d); }
    assert !Holds(Untouched(2));
    assert Claimable(db, 1);
  }

  lemma Claiming(g: Generation, t: TargetId, u: TargetId)
    requires TwoWay(g, t, u)
    ensures Moves(g, t, u, 4)
  {
    FirstIsNext(g, t, u);
    RowsLinked(g, t, u, Untouched(1), Untouched(2), [], []);
    PutFirst(g, t, u, Untouched(1), Untouched(2), SendingOnce(1), [], [], true);
    assert [] + CLAIM_A == CLAIM_A;
  }

  lemma Reading(g: Generation, t: TargetId, u: TargetId)
    requires TwoWay(g, t, u)
    ensures Moves(g, t, u, 5)
  {
    RowsLinked(g, t, u, SendingOnce(1), Untouched(2), CLAIM_A, []);
  }

  lemma Fencing(g: Generation, t: TargetId, u: TargetId)
    requires TwoWay(g, t, u)
    ensures Moves(g, t, u, 6)
  {
    RowsLinked(g, t, u, SendingOnce(1), Untouched(2), CLAIM_A, []);
    PutFirst(g, t, u, SendingOnce(1), Untouched(2), Fenced(1), CLAIM_A, [], false);
  }

  lemma Recording(g: Generation, t: TargetId, u: TargetId)
    requires TwoWay(g, t, u)
    ensures Moves(g, t, u, 7)
  {
    RowsLinked(g, t, u, Fenced(1), Untouched(2), CLAIM_A, []);
    PutFirst(g, t, u, Fenced(1), Untouched(2), Ready(1), CLAIM_A, [], false);
  }

  lemma Losing(g: Generation, t: TargetId, u: TargetId)
    requires TwoWay(g, t, u)
    ensures Moves(g, t, u, 8) && Moves(g, t, u, 9)
  {
    RowsLinked(g, t, u, Ready(1), Untouched(2), CLAIM_A, []);
    assert multiset{} + multiset{11} == multiset{11};
    PutFirst(g, t, u, Ready(1), Untouched(2), LostRow(g.targets[t]), CLAIM_A, [], true);
    assert OutcomeRow(Ready(1), g.targets[t].binding, Uncertain, Some(""), 0, g.targets[t]) == LostRow(g.targets[t]);
  }

  /** The waiting delivery does not block the other: their keys differ. */
  lemma SecondIsNext(g: Generation, t: TargetId, u: TargetId)
    requires TwoWay(g, t, u)
    ensures var db := Rows(g, t, u, LostRow(g.targets[t]), Untouched(2), LOST_A, []); Schema(db) && NextClaim(db, 2)
  {
    var a := LostRow(g.targets[t]);
    var db := Rows(g, t, u, a, Untouched(2), LOST_A, []);
    RowsLinked(g, t, u, a, Untouched(2), LOST_A, []);
    forall d | d in db.deliveries ensures d == 1 || d == 2 { OnlyTwo(g, t, u, a, Untouched(2), LOST_A, [], d); }
    assert !Conflict(db.deliveries[1], db.deliveries[2]);
    assert Claimable(db, 2) && !Claimable(db, 1);
  }

  lemma ClaimingAgain(g: Generation, t: TargetId, u: TargetId)
    requires TwoWay(g, t, u)
    ensures Moves(g, t, u, 10)
  {
    SecondIsNext(g, t, u);
    RowsLinked(g, t, u, LostRow(g.targets[t]), Untouched(2), LOST_A, []);
    PutSecond(g, t, u, LostRow(g.targets[t]), Untouched(2), SendingOnce(2), LOST_A, [], true);
    assert [] + CLAIM_B == CLAIM_B;
  }

  lemma ReadingAgain(g: Generation, t: TargetId, u: TargetId)
    requires TwoWay(g, t, u)
    ensures Moves(g, t, u, 11)
  {
    RowsLinked(g, t, u, LostRow(g.targets[t]), SendingOnce(2), LOST_A, CLAIM_B);
  }

  lemma FencingAgain(g: Generation, t: TargetId, u: TargetId)
    requires TwoWay(g, t, u)
    ensures Moves(g, t, u, 12)
  {
    RowsLinked(g, t, u, LostRow(g.targets[t]), SendingOnce(2), LOST_A, CLAIM_B);
    PutSecond(g, t, u, LostRow(g.targets[t]), SendingOnce(2), Fenced(2), LOST_A, CLAIM_B, false);
  }

  lemma RecordingAgain(g: Generation, t: TargetId, u: TargetId)
    requires TwoWay(g, t, u)
    ensures Moves(g, t, u, 13)
  {
    RowsLinked(g, t, u, LostRow(g.targets[t]), Fenced(2), LOST_A, CLAIM_B);
    PutSecond(g, t, u, LostRow(g.targets[t]), Fenced(2), Ready(2), LOST_A, CLAIM_B, false);
  }

  lemma Creating(g: Generation, t: TargetId, u: TargetId)
    requires TwoWay(g, t, u)
    ensures Moves(g, t, u, 14)
  {
    RowsLinked(g, t, u, LostRow(g.targets[t]), Ready(2), LOST_A, CLAIM_B);
    var res := g.targets[t].binding.resource;
    assert [CREATED] + HistoryOf(Scene(g, t, u, 14), res) == [CREATED];
    assert multiset{11} + multiset{12} == multiset{11, 12};
  }

  lemma OneDue(g: Generation, t: TargetId, u: TargetId)
    requires TwoWay(g, t, u)
    ensures var x := g.targets[t]; var db := Rows(g, t, u, LostRow(x), Ready(2), LOST_A, CLAIM_B);
            Schema(db) && DueBatch(db, x.interval, [1]) && WorkFor(db, 1, x.interval) == Work(x)
  {
    var x := g.targets[t];
    var db := Rows(g, t, u, LostRow(x), Ready(2), LOST_A, CLAIM_B);
    RowsLinked(g, t, u, LostRow(x), Ready(2), LOST_A, CLAIM_B);
    forall d | d in db.deliveries ensures d == 1 || d == 2 { OnlyTwo(g, t, u, LostRow(x), Ready(2), LOST_A, CLAIM_B, d); }
    assert DueNow(db, 1, x.interval) && !DueNow(db, 2, x.interval);
  }

  lemma OneClaimed(g: Generation, t: TargetId, u: TargetId)
    requires TwoWay(g, t, u)
    ensures var x := g.targets[t]; var db := Rows(g, t, u, LostRow(x), Ready(2), LOST_A, CLAIM_B);
            Schema(db) && PutAll(db, [1], (y, a) => ClaimedRow(a, x.interval)) == Rows(g, t, u, PolledRow(x), Ready(2), LOST_A, CLAIM_B)
  {
    var x := g.targets[t];
    RowsLinked(g, t, u, LostRow(x), Ready(2), LOST_A, CLAIM_B);
    PutFirst(g, t, u, LostRow(x), Ready(2), PolledRow(x), LOST_A, CLAIM_B, false);
    assert [1][1..] == [];
  }

  lemma ClaimingPoll(g: Generation, t: TargetId, u: TargetId)
    requires TwoWay(g, t, u)
    ensures Moves(g, t, u, 15)
  {
    OneDue(g, t, u);
    OneClaimed(g, t, u);
  }

  /** The lost attempt sees exactly one newer entry, and takes it. */
  lemma TheOtherIsFound(g: Generation, t: TargetId, u: TargetId)
    requires TwoWay(g, t, u)
    ensures var s := Scene(g, t, u, 16); LookupOf(s, s.polls[0]) == Found(CREATED)
  {
    var s := Scene(g, t, u, 16);
    var h := [CREATED];
    assert HistoryOf(s, g.targets[t].binding.resource) == h;
    assert h[1..] == [] && Stop([], "") == 0 && Stop(h, "") == 1;
    assert h[..1] == h && Readable(h) && Reaches(h, "");
    assert FindAfter(h, 11, "") == Found(CREATED);
  }

  lemma LookingUp(g: Generation, t: TargetId, u: TargetId)
    requires TwoWay(g, t, u)
    ensures Moves(g, t, u, 16)
  {
    RowsLinked(g, t, u, PolledRow(g.targets[t]), Ready(2), LOST_A, CLAIM_B);
    TheOtherIsFound(g, t, u);
    var s, s' := Scene(g, t, u, 16), Scene(g, t, u, 17);
    assert s'.polls == s.polls[0 := s.polls[0].(looked := Some(Found(CREATED)))];
  }

  lemma Completing(g: Generation, t: TargetId, u: TargetId)
    requires TwoWay(g, t, u)
    ensures Moves(g, t, u, 17)
  {
    var x := g.targets[t];
    RowsLinked(g, t, u, PolledRow(x), Ready(2), LOST_A, CLAIM_B);
    PutFirst(g, t, u, PolledRow(x), Ready(2), BoundRow(x), LOST_A, CLAIM_B, true);
    var s := Scene(g, t, u, 17);
    assert Reported(CREATED) == Done;
    assert CompletedRow(PolledRow(x), DecideLookup(Work(x), Found(CREATED), x.interval, WorkInterval(s, s.polls[0]))) == BoundRow(x);
    assert s.polls[1..] == [];
  }

  lemma AlwaysMoves(g: Generation, t: TargetId, u: TargetId, n: nat)
    requires TwoWay(g, t, u) && n < STEPS
    ensures Moves(g, t, u, n)
  {
    if n <= 2 { StartUp(g, t, u, n); }
    else if n == 3 { Receiving(g, t, u); }
    else if n == 4 { Claiming(g, t, u); }
    else if n == 5 { Reading(g, t, u); }
    else if n == 6 { Fencing(g, t, u); }
    else if n == 7 { Recording(g, t, u); }
    else if n <= 9 { Losing(g, t, u); }
    else if n == 10 { ClaimingAgain(g, t, u); }
    else if n == 11 { ReadingAgain(g, t, u); }
    else if n == 12 { FencingAgain(g, t, u); }
    else if n == 13 { RecordingAgain(g, t, u); }
    else if n == 14 { Creating(g, t, u); }
    else if n == 15 { ClaimingPoll(g, t, u); }
    else if n == 16 { LookingUp(g, t, u); }
    else { Completing(g, t, u); }
  }

  lemma LastScene(g: Generation, t: TargetId, u: TargetId)
    requires TwoWay(g, t, u)
    ensures var s := Scene(g, t, u, STEPS);
            && 11 in s.db.attempts && s.db.attempts[11].bound == Some("x") && !Own(s, "x", 11) && Own(s, "x", 12)
  {
  }

  predicate AllKeyed(db: Db) { forall d | d in db.deliveries :: db.deliveries[d].key.Some? }

  lemma RowsAreKeyed(g: Generation, t: TargetId, u: TargetId, a: Attempt, b: Attempt, la: seq<AuditRecord>, lb: seq<AuditRecord>)
    requires t in g.targets && u in g.targets
    ensures AllKeyed(Rows(g, t, u, a, b, la, lb))
  {
  }

  lemma FirstScenesAreKeyed(g: Generation, t: TargetId, u: TargetId, n: nat)
    requires TwoWay(g, t, u) && n <= 10
    ensures AllKeyed(Scene(g, t, u, n).db)
  {
    var x := g.targets[t];
    if n == 4 { RowsAreKeyed(g, t, u, Untouched(1), Untouched(2), [], []); }
    else if 5 <= n <= 6 { RowsAreKeyed(g, t, u, SendingOnce(1), Untouched(2), CLAIM_A, []); }
    else if n == 7 { RowsAreKeyed(g, t, u, Fenced(1), Untouched(2), CLAIM_A, []); }
    else if 8 <= n <= 9 { RowsAreKeyed(g, t, u, Ready(1), Untouched(2), CLAIM_A, []); }
    else if n == 10 { RowsAreKeyed(g, t, u, LostRow(x), Untouched(2), LOST_A, []); }
  }

  lemma LaterScenesAreKeyed(g: Generation, t: TargetId, u: TargetId, n: nat)
    requires TwoWay(g, t, u) && 10 < n
    ensures AllKeyed(Scene(g, t, u, n).db)
  {
    var x := g.targets[t];
    if n <= 12 { RowsAreKeyed(g, t, u, LostRow(x), SendingOnce(2), LOST_A, CLAIM_B); }
    else if n == 13 { RowsAreKeyed(g, t, u, LostRow(x), Fenced(2), LOST_A, CLAIM_B); }
    else if n <= 15 { RowsAreKeyed(g, t, u, LostRow(x), Ready(2), LOST_A, CLAIM_B); }
    else if n <= 17 { RowsAreKeyed(g, t, u, PolledRow(x), Ready(2), LOST_A, CLAIM_B); }
    else { RowsAreKeyed(g, t, u, BoundRow(x), Ready(2), DONE_A, CLAIM_B); }
  }

  lemma ScenesKeepGeneration(g: Generation, t: TargetId, u: TargetId, n: nat)
    requires TwoWay(g, t, u)
    ensures Scene(g, t, u, n).mgr.current == g
  {
  }

  lemma ScenesAreARun(g: Generation, t: TargetId, u: TargetId, run: seq<Sys>, acts: seq<Action>)
    requires TwoWay(g, t, u) && |run| == STEPS + 1 && |acts| == STEPS
    requires (forall n | 0 <= n <= STEPS :: run[n] == Scene(g, t, u, n)) && forall n | 0 <= n < STEPS :: acts[n] == Act(g, t, u, n)
    ensures Run(run, acts) && run[0] == Empty(g, Terminating)
  {
    EmptyIsInit(g);
    forall i | 0 <= i < |acts| ensures Follows(run, acts, i) { AlwaysMoves(g, t, u, i); }
  }

  /**
   * Every generation with two ways to one resource has a run, starting from the empty database, in which a lost
   * attempt is bound to the deployment of the other delivery's POST.
   */
  lemma TwoWaysBreakExactness(g: Generation, t: TargetId, u: TargetId) returns (run: seq<Sys>, acts: seq<Action>)
    requires TwoWay(g, t, u)
    ensures Run(run, acts) && run[0] == Empty(g, Terminating)
    ensures forall i | 0 <= i < |run| :: run[i].mgr.current == g && Keyed(run[i])
    ensures var s := run[|run| - 1];
            && 11 in s.db.attempts && s.db.attempts[11].bound == Some("x") && !Own(s, "x", 11) && Own(s, "x", 12)
  {
    run := seq(STEPS + 1, n requires 0 <= n <= STEPS => Scene(g, t, u, n));
    acts := seq(STEPS, n requires 0 <= n < STEPS => Act(g, t, u, n));
    ScenesAreARun(g, t, u, run, acts);
    LastScene(g, t, u);
    forall i | 0 <= i < |run| ensures run[i].mgr.current == g && Keyed(run[i]) {
      ScenesKeepGeneration(g, t, u, i);
      if i <= 10 { FirstScenesAreKeyed(g, t, u, i); } else { LaterScenesAreKeyed(g, t, u, i); }
    }
  }

  // ----- One way per resource is exactly what is needed -----

  ghost predicate Keyed(s: Sys) {
    forall d | d in s.db.deliveries && s.db.deliveries[d].binding.Dokploy? :: s.db.deliveries[d].key.Some?
  }

  /** A run under one generation, from an exact start, with dispatch keys on all deliveries to Dokploy. */
  ghost predicate Under(run: seq<Sys>, acts: seq<Action>, g: Generation) {
    && Run(run, acts) && Schema(run[0].db) && Exact(run[0])
    && forall k | 0 <= k < |run| :: run[k].mgr.current == g && Keyed(run[k])
  }

  /** In every state an attempt is bound to nothing but the deployment of its own POST. */
  ghost predicate Faithful(run: seq<Sys>) {
    forall i, a | 0 <= i < |run| && a in run[i].db.attempts && run[i].db.attempts[a].bound.Some? ::
      Own(run[i], run[i].db.attempts[a].bound.value, a)
  }

  lemma OneWayIsFaithful(run: seq<Sys>, acts: seq<Action>, g: Generation)
    requires Under(run, acts, g) && OneWay(g)
    ensures Faithful(run)
  {
    forall k | 0 <= k < |run| ensures Separated(run[k]) { assert Keyed(run[k]); }
    forall i, a | 0 <= i < |run| && a in run[i].db.attempts && run[i].db.attempts[a].bound.Some?
      ensures Own(run[i], run[i].db.attempts[a].bound.value, a)
    {
      CorrelationIsExact(run, acts, i, a, a);
    }
  }

  /** The same, started on the empty database. */
  ghost predicate UnderFromNothing(run: seq<Sys>, acts: seq<Action>, g: Generation) {
    Under(run, acts, g) && run[0] == Empty(g, Terminating)
  }

  lemma TwoWaysAreUnfaithful(g: Generation, t: TargetId, u: TargetId) returns (run: seq<Sys>, acts: seq<Action>)
    requires TwoWay(g, t, u)
    ensures UnderFromNothing(run, acts, g) && !Faithful(run)
  {
    run, acts := TwoWaysBreakExactness(g, t, u);
    EmptyIsExact(g, Terminating);
    assert !Own(run[|run| - 1], run[|run| - 1].db.attempts[11].bound.value, 11);
  }

  /**
   * Correlation is exact under a generation if and only if no resource has two ways in it: then in all runs from an
   * exact start, otherwise not even in all runs from the empty database.
   */
  lemma ExactIffOneWay(g: Generation)
    requires Compiled(g)
    ensures OneWay(g) <==> forall run, acts | Under(run, acts, g) :: Faithful(run)
    ensures OneWay(g) <==> forall run, acts | UnderFromNothing(run, acts, g) :: Faithful(run)
  {
    if OneWay(g) {
      forall run, acts | Under(run, acts, g) ensures Faithful(run) { OneWayIsFaithful(run, acts, g); }
    } else {
      var t, u :| t in g.targets && u in g.targets && g.targets[t].binding.Dokploy? && g.targets[u].binding.Dokploy?
                  && g.targets[t].binding.resource == g.targets[u].binding.resource && g.targets[t].binding != g.targets[u].binding;
      var run, acts := TwoWaysAreUnfaithful(g, t, u);
      assert Under(run, acts, g) && UnderFromNothing(run, acts, g) && !Faithful(run);
    }
  }
}
