/** Each of the thirteen status pairs is reached by some run that starts on an empty database. */
module Reachability {
  import opened Domain
  import opened Tables
  import opened Correlation
  import opened Polling
  import opened Intake
  import opened Manual
  import opened Reload
  import opened Protocol
  import opened Invariant
  import opened Theorems
  import opened Paths

  const BINDING := Binding.Dokploy("compose", None)

  const GENERATION := Generation(map["t" := Target(BINDING, SECOND, 30 * MINUTE)], SECOND, 30 * MINUTE)

  // ----- One delivery -----

  const EVENT := EventRow("p", "s", "r", "k", 0, "push", None, None, None, None, None, Deploy)
  const SENT := Status(Sending, NotStarted)
  const FIRST := NewAttempt(1, Initial)
  const CLAIMED := FIRST.(status := SENT)
  const FENCED := CLAIMED.(cursor := Some(""))
  const READY := FENCED.(request := Some(""), requestAt := Some(0))

  function One(a: Attempt, log: seq<AuditRecord>): Db {
    Db(map[0 := EVENT], map[1 := Delivery(0, "t", BINDING, Some(BINDING), 11, a.status, 0)], map[11 := a], map[1 := log], [], 1)
  }

  function Lone(a: Attempt, log: seq<AuditRecord>, disp: Dispatch): Sys {
    Sys(One(a, log), map[], Serving, NewManager(GENERATION), disp, [], map[], multiset{}, map[], {0, 1, 11}, [0], [0])
  }

  /** After the POST, with what the remote side created and the polls in flight. */
  function AfterPost(a: Attempt, log: seq<AuditRecord>, disp: Dispatch, created: Option<Entry>, polls: seq<InFlight>): Sys {
    Lone(a, log, disp).(posts := multiset{11}, polls := polls,
                        remote := if created.None? then map[] else map["compose" := [created.value]],
                        born := if created.None? then map[] else map[created.value.id := 11])
  }

  lemma OneLinked(a: Attempt, log: seq<AuditRecord>)
    requires a.delivery == 1
    ensures Schema(One(a, log)) && Cur(One(a, log), 1) == a
  {
    var db := One(a, log);
    forall d | d in db.deliveries ensures Linked(db, d) && db.deliveries[d].event in db.events { assert d == 1; }
    assert QueueSound(db);
  }

  lemma PutOne(a: Attempt, log: seq<AuditRecord>, b: Attempt, note: bool)
    requires a.delivery == 1 && (note || b.status == a.status)
    ensures Linked(One(a, log), 1)
    ensures Put(One(a, log), 1, b, note) == One(b, if note then log + [AuditRecord(11, a.status, b.status)] else log)
  {
    OneLinked(a, log);
    var db, db' := One(a, log), One(b, if note then log + [AuditRecord(11, a.status, b.status)] else log);
    assert Put(db, 1, b, note).deliveries == db'.deliveries;
    assert Put(db, 1, b, note).attempts == db'.attempts;
    assert Put(db, 1, b, note).audit == db'.audit;
  }

  // ----- Up to the POST -----

  const ITEMS := [NewDelivery("t", BINDING)]
  const IDS := [Fresh(1, 11)]

  lemma StoredOne()
    ensures Stored(EMPTY, 0, EVENT, Decision(Deploy, ITEMS), IDS) == One(FIRST, [])
  {
    var db := WithEvent(EMPTY, 0, EVENT);
    assert ITEMS[1..] == [] && IDS[1..] == [];
    assert AddAll(db, 0, ITEMS, IDS, 0) == AddOne(db, 0, ITEMS[0], IDS[0], 0) == One(FIRST, []);
  }

  lemma ReceiveStep()
    ensures Next(Empty(GENERATION, Serving), Receive(EVENT, true, Decision(Deploy, ITEMS), 0, IDS), Lone(FIRST, [], Resting))
  {
    StoredOne();
    assert QueueSound(EMPTY) && Schema(EMPTY);
    assert IDS[1..] == [];
    assert DeliveryIds(IDS) == {1} && AttemptIds(IDS) == {11};
  }

  lemma ReachReceived()
    ensures Reached(Lone(FIRST, [], Resting))
  {
    ReachServing(GENERATION);
    ReceiveStep();
    Extend(Empty(GENERATION, Serving), Receive(EVENT, true, Decision(Deploy, ITEMS), 0, IDS), Lone(FIRST, [], Resting));
  }

  const LOG := [AuditRecord(11, FRESH, SENT)]

  /** The attempt while it is being sent. */
  function InSend(a: Attempt, stage: Stage): Sys { Lone(a, LOG, Busy(1, 11, GENERATION, stage)) }

  lemma ClaimStep()
    ensures Next(Lone(FIRST, [], Resting), Claim(1), InSend(CLAIMED, Claimed))
  {
    OneLinked(FIRST, []);
    PutOne(FIRST, [], CLAIMED, true);
    assert [] + LOG == LOG;
    var db := One(FIRST, []);
    assert forall d | d in db.deliveries :: d == 1;
    assert NextClaim(db, 1);
  }

  lemma ReachClaimed()
    ensures Reached(InSend(CLAIMED, Claimed))
  {
    ReachReceived();
    ClaimStep();
    Extend(Lone(FIRST, [], Resting), Claim(1), InSend(CLAIMED, Claimed));
  }

  function Refused(): Sys {
    Lone(CLAIMED.(status := Status(Failed, NotStarted)), LOG + [AuditRecord(11, SENT, Status(Failed, NotStarted))], Resting)
  }

  lemma FailStep()
    ensures Next(InSend(CLAIMED, Claimed), FailSend, Refused())
  {
    OneLinked(CLAIMED, LOG);
    PutOne(CLAIMED, LOG, CLAIMED.(status := Status(Failed, NotStarted)), true);
  }

  lemma ReachFailed()
    ensures Reached(Refused())
  {
    ReachClaimed();
    FailStep();
    Extend(InSend(CLAIMED, Claimed), FailSend, Refused());
  }

  lemma ReadCursorStep()
    ensures Next(InSend(CLAIMED, Claimed), ReadCursor, InSend(CLAIMED, CursorRead("")))
  {
    OneLinked(CLAIMED, LOG);
  }

  lemma StoreCursorStep()
    ensures Next(InSend(CLAIMED, CursorRead("")), StoreCursor, InSend(FENCED, CursorStored))
  {
    OneLinked(CLAIMED, LOG);
    PutOne(CLAIMED, LOG, FENCED, false);
  }

  lemma RecordStep()
    ensures Next(InSend(FENCED, CursorStored), RecordRequest("", 0), InSend(READY, Recorded("")))
  {
    OneLinked(FENCED, LOG);
    PutOne(FENCED, LOG, READY, false);
  }

  lemma ReachReady()
    ensures Reached(InSend(READY, Recorded("")))
  {
    ReachClaimed();
    ReadCursorStep();
    Extend(InSend(CLAIMED, Claimed), ReadCursor, InSend(CLAIMED, CursorRead("")));
    StoreCursorStep();
    Extend(InSend(CLAIMED, CursorRead("")), StoreCursor, InSend(FENCED, CursorStored));
    RecordStep();
    Extend(InSend(FENCED, CursorStored), RecordRequest("", 0), InSend(READY, Recorded("")));
  }

  // ----- From the POST on -----

  /** How a send and the poll after it turn out. */
  datatype Course = Course(outcome: Outcome, reported: Option<string>, failed: bool, polledAt: Time)

  predicate Plays(c: Course) { !c.outcome.Definitive? && (c.polledAt == SECOND || c.polledAt == 30 * MINUTE) }

  function Created(c: Course): Entry { Entry("x", None, c.reported) }

  function Located(c: Course): Attempt {
    READY.(status := Status(if c.outcome.Accepted? then Enqueued else TransportStatus.Unknown, Locating),
           pollDue := Some(Millis(SECOND)), deadline := Some(Millis(30 * MINUTE)))
  }

  function LocatedLog(c: Course): seq<AuditRecord> { LOG + [AuditRecord(11, SENT, Located(c).status)] }

  function Sent(c: Course): Sys {
    AfterPost(READY, LOG, Busy(1, 11, GENERATION, Posted("", c.outcome)), Some(Created(c)), [])
  }

  lemma PostStep(c: Course)
    requires Plays(c)
    ensures Next(InSend(READY, Recorded("")), Post(c.outcome, Some(Created(c))), Sent(c))
  {
    OneLinked(READY, LOG);
    var before := InSend(READY, Recorded(""));
    assert [Created(c)] + HistoryOf(before, "compose") == [Created(c)];
    assert multiset{} + multiset{11} == multiset{11};
  }

  lemma FinishStep(c: Course)
    requires Plays(c)
    ensures Next(Sent(c), FinishSend(0), AfterPost(Located(c), LocatedLog(c), Resting, Some(Created(c)), []))
  {
    OneLinked(READY, LOG);
    PutOne(READY, LOG, Located(c), true);
    assert OutcomeRow(READY, BINDING, c.outcome, Some(""), 0, GENERATION.targets["t"]) == Located(c);
  }

  lemma ReachLocated(c: Course)
    requires Plays(c)
    ensures Reached(AfterPost(Located(c), LocatedLog(c), Resting, Some(Created(c)), []))
  {
    ReachReady();
    PostStep(c);
    Extend(InSend(READY, Recorded("")), Post(c.outcome, Some(Created(c))), Sent(c));
    FinishStep(c);
    Extend(Sent(c), FinishSend(0), AfterPost(Located(c), LocatedLog(c), Resting, Some(Created(c)), []));
  }

  function WorkOf(c: Course): PollWork {
    PollWork(1, 11, Located(c).status, None, Some(""), Millis(30 * MINUTE), c.polledAt)
  }

  function Looked(c: Course): Lookup { if c.failed then LookupFailed else Found(Created(c)) }

  function Polled(c: Course): Attempt {
    CompletedRow(ClaimedRow(Located(c), c.polledAt), DecideLookup(WorkOf(c), Looked(c), c.polledAt, SECOND))
  }

  lemma OneDue(c: Course)
    requires Plays(c)
    ensures var db := One(Located(c), LocatedLog(c));
            Schema(db) && DueBatch(db, c.polledAt, [1]) && WorkFor(db, 1, c.polledAt) == WorkOf(c)
  {
    OneLinked(Located(c), LocatedLog(c));
    var db := One(Located(c), LocatedLog(c));
    assert forall d | d in db.deliveries :: d == 1;
    assert DueNow(db, 1, c.polledAt);
  }

  lemma OneClaimed(c: Course)
    ensures var db := One(Located(c), LocatedLog(c));
            Schema(db) && PutAll(db, [1], (x, a) => ClaimedRow(a, c.polledAt)) == One(ClaimedRow(Located(c), c.polledAt), LocatedLog(c))
  {
    OneLinked(Located(c), LocatedLog(c));
    PutOne(Located(c), LocatedLog(c), ClaimedRow(Located(c), c.polledAt), false);
    assert [1][1..] == [];
  }

  lemma ReachPollClaimed(c: Course)
    requires Plays(c)
    ensures Reached(AfterPost(ClaimedRow(Located(c), c.polledAt), LocatedLog(c), Resting, Some(Created(c)),
                              [InFlight(WorkOf(c), GENERATION, None)]))
  {
    ReachLocated(c);
    ClaimPollStep(c);
    Extend(AfterPost(Located(c), LocatedLog(c), Resting, Some(Created(c)), []), ClaimPolls(c.polledAt, [1]),
           AfterPost(ClaimedRow(Located(c), c.polledAt), LocatedLog(c), Resting, Some(Created(c)), [InFlight(WorkOf(c), GENERATION, None)]));
  }

  lemma ClaimPollStep(c: Course)
    requires Plays(c)
    ensures Next(AfterPost(Located(c), LocatedLog(c), Resting, Some(Created(c)), []), ClaimPolls(c.polledAt, [1]),
                 AfterPost(ClaimedRow(Located(c), c.polledAt), LocatedLog(c), Resting, Some(Created(c)), [InFlight(WorkOf(c), GENERATION, None)]))
  {
    OneDue(c);
    OneClaimed(c);
  }

  /** The poll in flight, before or after its lookup. */
  function InPoll(c: Course, looked: Option<Lookup>): Sys {
    AfterPost(ClaimedRow(Located(c), c.polledAt), LocatedLog(c), Resting, Some(Created(c)), [InFlight(WorkOf(c), GENERATION, looked)])
  }

  lemma LookUpStep(c: Course)
    requires Plays(c)
    ensures Next(InPoll(c, None), LookUp(c.failed), InPoll(c, Some(Looked(c))))
  {
    OneLinked(ClaimedRow(Located(c), c.polledAt), LocatedLog(c));
    var s := InPoll(c, None);
    var h := [Created(c)];
    assert h[1..] == [] && Stop([], "") == 0 && Stop(h, "") == 1 && h[..1] == h;
    assert HistoryOf(s, "compose") == h;
    assert FindAfter(h, 11, "") == Found(Created(c));
    assert InPoll(c, Some(Looked(c))).polls == s.polls[0 := s.polls[0].(looked := Some(Looked(c)))];
  }

  function PolledLog(c: Course): seq<AuditRecord> {
    if Located(c).status != Polled(c).status then LocatedLog(c) + [AuditRecord(11, Located(c).status, Polled(c).status)] else LocatedLog(c)
  }

  lemma CompleteStep(c: Course)
    requires Plays(c)
    ensures Next(InPoll(c, Some(Looked(c))), CompletePoll, AfterPost(Polled(c), PolledLog(c), Resting, Some(Created(c)), []))
  {
    var a, b := ClaimedRow(Located(c), c.polledAt), Polled(c);
    OneLinked(a, LocatedLog(c));
    PutOne(a, LocatedLog(c), b, a.status != b.status);
    var s := InPoll(c, Some(Looked(c)));
    assert WorkInterval(s, s.polls[0]) == SECOND;
    assert s.polls[1..] == [];
  }

  lemma ReachPolled(c: Course)
    requires Plays(c)
    ensures Reached(AfterPost(Polled(c), PolledLog(c), Resting, Some(Created(c)), []))
  {
    ReachPollClaimed(c);
    LookUpStep(c);
    Extend(InPoll(c, None), LookUp(c.failed), InPoll(c, Some(Looked(c))));
    CompleteStep(c);
    Extend(InPoll(c, Some(Looked(c))), CompletePoll, AfterPost(Polled(c), PolledLog(c), Resting, Some(Created(c)), []));
  }

  // ----- Exactly thirteen -----

  ghost predicate Attains(s: Sys, p: Status) { Reached(s) && exists a :: a in s.db.attempts && s.db.attempts[a].status == p }

  /** The poll after which an enqueued or unknown attempt shows the pair p. */
  function CourseTo(p: Status): Course {
    match p.deployment
    case Running => Course(Accepted, Some("running"), false, SECOND)
    case Unrecognized => Course(Accepted, None, false, SECOND)
    case Done => Course(Accepted, Some("done"), false, SECOND)
    case Error => Course(Accepted, Some("error"), false, SECOND)
    case Cancelled => Course(Accepted, Some("cancelled"), false, SECOND)
    case Timeout => Course(Accepted, Some("running"), false, 30 * MINUTE)
    case _ => Course(if p.transport.Enqueued? then Accepted else Uncertain, None, true, 30 * MINUTE)
  }

  lemma EarlyPairs(p: Status) returns (s: Sys)
    requires Expected(p) && (p.deployment.NotStarted? || p.deployment.Locating?)
    ensures Attains(s, p)
  {
    match p.transport
    case Pending =>
      ReachReceived();
      s := Lone(FIRST, [], Resting);
      assert 11 in s.db.attempts;
    case Sending =>
      ReachClaimed();
      s := InSend(CLAIMED, Claimed);
      assert 11 in s.db.attempts;
    case Failed =>
      ReachFailed();
      s := Refused();
      assert 11 in s.db.attempts;
    case _ =>
      var c := Course(if p.transport.Enqueued? then Accepted else Uncertain, None, false, SECOND);
      ReachLocated(c);
      s := AfterPost(Located(c), LocatedLog(c), Resting, Some(Created(c)), []);
      assert 11 in s.db.attempts;
  }

  lemma CourseLeadsThere(p: Status)
    requires Expected(p) && !p.deployment.NotStarted? && !p.deployment.Locating?
    ensures Plays(CourseTo(p)) && Polled(CourseTo(p)).status == p
  {
    var c := CourseTo(p);
    if c.failed {
      assert Looked(c) == LookupFailed;
    } else {
      assert Looked(c) == Found(Created(c)) && Created(c).status == c.reported;
    }
  }

  lemma LatePairs(p: Status) returns (s: Sys)
    requires Expected(p) && !p.deployment.NotStarted? && !p.deployment.Locating?
    ensures Attains(s, p)
  {
    var c := CourseTo(p);
    CourseLeadsThere(p);
    ReachPolled(c);
    s := AfterPost(Polled(c), PolledLog(c), Resting, Some(Created(c)), []);
    assert 11 in s.db.attempts;
  }

  /** A pair is carried by some attempt in some process from the empty database if and only if it is one of the thirteen. */
  lemma ExactlyThirteenPairs(p: Status)
    ensures p in THIRTEEN <==> exists s :: Attains(s, p)
  {
    ExpectedPairsAreThirteen(p);
    if Expected(p) {
      if p.deployment.NotStarted? || p.deployment.Locating? { var s := EarlyPairs(p); } else { var s := LatePairs(p); }
    }
    if exists s :: Attains(s, p) {
      var s :| Attains(s, p);
      var a :| a in s.db.attempts && s.db.attempts[a].status == p;
      var run, acts := ReachedIsRun(s);
      ReachablePairs(run, acts, |run| - 1, a);
    }
  }
}
