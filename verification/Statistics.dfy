/** The one-pass pipeline statistics of internal/store/statistics.go. */
module Statistics {
  import Domain

  datatype Phase = Initialization | Waiting | Running | Terminal | Unknown

  datatype Key = Key(provider: string, source: string, repository: string, pipeline: string)

  /** One row of pipeline_observations; times are milliseconds. */
  datatype Observation = Observation(key: Key, ref: string, status: string, at: int, event: int)

  function PhaseOf(status: string): Phase {
    if status in {"created", "preparing", "scheduled"} then Initialization
    else if status in {"pending", "queued", "waiting_for_resource", "requested"} then Waiting
    else if status in {"running", "in_progress"} then Running
    else if status in {"success", "failed", "failure", "canceled", "cancelled", "skipped", "neutral", "timed_out",
                       "action_required"} then Terminal
    else Unknown
  }

  /** The state of one pipeline: the run being built, its phase and where that phase began. */
  datatype State = State(
    ref: string, status: string, first: int, last: int, phase: Phase, boundary: int,
    knownStart: bool, ran: bool, invalid: bool,
    initialization: int, waiting: int, running: int, restarts: nat)

  // ----- Folding one pipeline -----

  function Start(o: Observation): State {
    var p := PhaseOf(o.status);
    State(o.ref, o.status, o.at, o.at, p, o.at, p.Initialization? || p.Waiting?, p.Running?, p.Unknown?, 0, 0, 0, 0)
  }

  function Advance(s: State, o: Observation): State {
    var p := PhaseOf(o.status);
    if p == s.phase then
      s.(invalid := s.invalid || (p.Terminal? && s.status != o.status), status := o.status, last := o.at)
    else
      var delta := o.at - s.boundary;
      s.(invalid := || s.invalid || (s.phase.Running? && (p.Initialization? || p.Waiting?)) || delta == 0
                    || s.phase.Terminal? || p.Unknown?,
         initialization := s.initialization + (if s.phase.Initialization? then delta else 0),
         waiting := s.waiting + (if s.phase.Waiting? then delta else 0),
         running := s.running + (if s.phase.Running? then delta else 0),
         restarts := s.restarts + (if s.phase.Terminal? then 1 else 0),
         ran := s.ran || p.Running?,
         boundary := o.at, phase := p, status := o.status, last := o.at)
  }

  /** The state after the first n observations. */
  function FoldTo(os: seq<Observation>, n: nat): State
    requires 0 < n <= |os|
    decreases n
  {
    if n == 1 then Start(os[0]) else Advance(FoldTo(os, n - 1), os[n - 1])
  }

  function FoldOne(os: seq<Observation>): State
    requires os != []
  {
    FoldTo(os, |os|)
  }

  lemma {:induction false} FoldExtends(os: seq<Observation>, more: seq<Observation>, n: nat)
    requires 0 < n <= |os|
    ensures FoldTo(os + more, n) == FoldTo(os, n)
    decreases n
  {
    if n > 1 { FoldExtends(os, more, n - 1); }
  }

  predicate Complete(s: State) { s.knownStart && s.ran && s.phase.Terminal? && !s.invalid }

  // ----- Folding all pipelines at once -----

  /** The observations of one pipeline, in order. */
  function Of(os: seq<Observation>, k: Key): seq<Observation>
    decreases |os|
  {
    if os == [] then []
    else Of(os[..|os| - 1], k) + (if os[|os| - 1].key == k then [os[|os| - 1]] else [])
  }

  lemma {:induction false} OfPresent(os: seq<Observation>, k: Key)
    ensures Of(os, k) != [] <==> exists i :: 0 <= i < |os| && os[i].key == k
    decreases |os|
  {
    if os != [] {
      OfPresent(os[..|os| - 1], k);
      if exists i :: 0 <= i < |os| && os[i].key == k {
        var i :| 0 <= i < |os| && os[i].key == k;
        if i < |os| - 1 { assert os[..|os| - 1][i].key == k; }
      }
    }
  }

  lemma OfSnoc(os: seq<Observation>, i: nat, k: Key)
    requires i < |os|
    ensures Of(os[..i + 1], k) == if os[i].key == k then Of(os[..i], k) + [os[i]] else Of(os[..i], k)
  {
    assert os[..i + 1][..i] == os[..i];
  }

  /** Every pipeline is in the state its own observations alone give. */
  ghost predicate Folded(rows: seq<Observation>, states: map<Key, State>) {
    forall k :: if Of(rows, k) == [] then k !in states else k in states && states[k] == FoldOne(Of(rows, k))
  }

  lemma NextRow(rows: seq<Observation>, i: nat, states: map<Key, State>)
    requires i < |rows| && Folded(rows[..i], states)
    ensures var k := rows[i].key;
            Folded(rows[..i + 1], states[k := if k in states then Advance(states[k], rows[i]) else Start(rows[i])])
  {
    var row := rows[i];
    var next := states[row.key := if row.key in states then Advance(states[row.key], row) else Start(row)];
    forall k ensures if Of(rows[..i + 1], k) == [] then k !in next else k in next && next[k] == FoldOne(Of(rows[..i + 1], k)) {
      OfSnoc(rows, i, k);
      var before := Of(rows[..i], k);
      assert Of(rows[..i], k) == [] <==> k !in states;
      if k == row.key && before != [] { FoldExtends(before, [row], |before|); }
    }
  }

  /** One further row of a pipeline already seen. */
  method Observe(before: State, row: Observation) returns (current: State)
    ensures current == Advance(before, row)
  {
    current := before;
    var phase := PhaseOf(row.status);
    if phase != current.phase {
      if current.phase.Running? && (phase.Initialization? || phase.Waiting?) { current := current.(invalid := true); }
      var delta := row.at - current.boundary;
      if delta == 0 { current := current.(invalid := true); }
      match current.phase {
        case Initialization => current := current.(initialization := current.initialization + delta);
        case Waiting => current := current.(waiting := current.waiting + delta);
        case Running => current := current.(running := current.running + delta);
        case Terminal => current := current.(restarts := current.restarts + 1, invalid := true);
        case Unknown =>
      }
      if phase.Unknown? { current := current.(invalid := true); }
      if phase.Running? { current := current.(ran := true); }
      current := current.(boundary := row.at, phase := phase);
    } else if phase.Terminal? && current.status != row.status {
      current := current.(invalid := true);
    }
    current := current.(status := row.status, last := row.at);
  }

  /** The scan over all rows: every pipeline ends in the state its own observations alone would give. */
  method Fold(rows: seq<Observation>) returns (states: map<Key, State>)
    ensures Folded(rows, states)
  {
    states := map[];
    for i := 0 to |rows|
      invariant Folded(rows[..i], states)
    {
      var row := rows[i];
      NextRow(rows, i, states);
      if row.key !in states {
        states := states[row.key := Start(row)];
      } else {
        var current := Observe(states[row.key], row);
        states := states[row.key := current];
      }
    }
    assert rows[..|rows|] == rows;
  }

  // ----- What the state says about the observations -----

  function P(os: seq<Observation>, k: nat): Phase
    requires k < |os|
  {
    PhaseOf(os[k].status)
  }

  /** Where the block of equal phases containing k begins. */
  function BlockStart(os: seq<Observation>, k: nat): (b: nat)
    requires k < |os|
    ensures b <= k && forall i | b <= i <= k :: P(os, i) == P(os, k)
    ensures b > 0 ==> P(os, b - 1) != P(os, b)
  {
    if k == 0 || P(os, k) != P(os, k - 1) then k else BlockStart(os, k - 1)
  }

  predicate Early(p: Phase) { p.Initialization? || p.Waiting? }

  /** Why the k-th observation alone disqualifies a run. */
  predicate Bad(os: seq<Observation>, k: nat)
    requires k < |os|
  {
    if k == 0 then P(os, 0).Unknown?
    else if P(os, k) == P(os, k - 1) then P(os, k).Terminal? && os[k].status != os[k - 1].status
    else
      || (P(os, k - 1).Running? && Early(P(os, k))) || P(os, k - 1).Terminal? || P(os, k).Unknown?
      || os[BlockStart(os, k - 1)].at == os[k].at
  }

  ghost predicate HasRun(os: seq<Observation>, n: nat)
    requires n <= |os|
  {
    exists k :: 0 <= k < n && P(os, k).Running?
  }

  ghost predicate HasBad(os: seq<Observation>, n: nat)
    requires n <= |os|
  {
    exists k :: 0 <= k < n && Bad(os, k)
  }

  /** s is the summary of the first n observations. */
  ghost predicate Describes(s: State, os: seq<Observation>, n: nat)
    requires 0 < n <= |os|
  {
    && s.first == os[0].at && s.last == os[n - 1].at && s.status == os[n - 1].status
    && s.phase == P(os, n - 1) && s.boundary == os[BlockStart(os, n - 1)].at
    && s.knownStart == Early(P(os, 0)) && (s.ran <==> HasRun(os, n)) && (s.invalid <==> HasBad(os, n))
  }

  /** The folded state is exactly this summary of the observations. */
  lemma {:induction false} FoldDescribes(os: seq<Observation>, n: nat)
    requires 0 < n <= |os|
    ensures Describes(FoldTo(os, n), os, n)
    decreases n
  {
    if n > 1 {
      FoldDescribes(os, n - 1);
      HasMore(os, n - 1);
    } else {
      HasMore(os, 0);
    }
  }

  lemma HasMore(os: seq<Observation>, n: nat)
    requires n < |os|
    ensures HasRun(os, n + 1) <==> HasRun(os, n) || P(os, n).Running?
    ensures HasBad(os, n + 1) <==> HasBad(os, n) || Bad(os, n)
  {
  }

  // ----- Complete runs -----

  /**
   * The shape of a complete run: some observations before it runs (initialization and waiting may alternate
   * in any order), one uninterrupted running block from i on, and from j on the same terminal status; and
   * no phase begins at the instant the phase before it began.
   */
  ghost predicate Shaped(os: seq<Observation>, i: nat, j: nat) {
    && 0 < i < j < |os|
    && (forall k | 0 <= k < i :: Early(P(os, k)))
    && (forall k | i <= k < j :: P(os, k).Running?)
    && (forall k | j <= k < |os| :: P(os, k).Terminal? && os[k].status == os[j].status)
    && (forall k | 0 < k < |os| && P(os, k) != P(os, k - 1) :: os[BlockStart(os, k - 1)].at != os[k].at)
  }

  lemma ShapedIsComplete(os: seq<Observation>, i: nat, j: nat)
    requires Shaped(os, i, j)
    ensures Complete(FoldOne(os))
  {
    FoldDescribes(os, |os|);
    assert P(os, i).Running?;
    forall k | 0 <= k < |os| ensures !Bad(os, k) {
      if k > j { assert os[k].status == os[k - 1].status; }
    }
  }

  /** From the first running observation on, only running and then terminal ones follow. */
  lemma {:induction false} AfterRunning(os: seq<Observation>, m: nat, i: nat, k: nat)
    requires i <= k < m <= |os| && P(os, i).Running? && !HasBad(os, m)
    ensures P(os, k).Running? || P(os, k).Terminal?
    ensures P(os, k).Running? ==> forall n | i <= n <= k :: P(os, n).Running?
    decreases k
  {
    if k > i {
      AfterRunning(os, m, i, k - 1);
      assert !Bad(os, k);
    }
  }

  lemma {:induction false} FirstRunning(os: seq<Observation>, m: nat) returns (i: nat)
    requires m < |os| && P(os, m).Running?
    ensures i <= m && P(os, i).Running? && forall k | 0 <= k < i :: !P(os, k).Running?
    decreases m
  {
    if exists k :: 0 <= k < m && P(os, k).Running? {
      var k :| 0 <= k < m && P(os, k).Running?;
      i := FirstRunning(os, k);
    } else {
      i := m;
    }
  }

  lemma {:induction false} BeforeRunning(os: seq<Observation>, i: nat, k: nat)
    requires k < i < |os| && Early(P(os, 0)) && (forall n | 0 <= n < |os| :: !Bad(os, n))
    requires P(os, i).Running? && forall n | 0 <= n < i :: !P(os, n).Running?
    ensures Early(P(os, k))
    decreases i - k
  {
    assert !Bad(os, BlockStart(os, k));
    assert !Bad(os, k + 1);
    if k + 1 < i { BeforeRunning(os, i, k + 1); }
  }

  lemma {:induction false} SameTerminalStatus(os: seq<Observation>, j: nat, k: nat)
    requires j <= k < |os| && (forall n | 0 <= n < |os| :: !Bad(os, n)) && forall n | j <= n < |os| :: P(os, n).Terminal?
    ensures os[k].status == os[j].status
    decreases k
  {
    if k > j {
      SameTerminalStatus(os, j, k - 1);
      assert !Bad(os, k);
    }
  }

  lemma CompleteIsShaped(os: seq<Observation>) returns (i: nat, j: nat)
    requires os != [] && Complete(FoldOne(os))
    ensures Shaped(os, i, j)
  {
    FoldDescribes(os, |os|);
    assert forall n | 0 <= n < |os| :: !Bad(os, n);
    assert HasRun(os, |os|);
    var m :| 0 <= m < |os| && P(os, m).Running?;
    i := FirstRunning(os, m);
    j := BlockStart(os, |os| - 1);
    AfterRunning(os, |os|, i, |os| - 1);
    forall k | 0 <= k < i ensures Early(P(os, k)) { BeforeRunning(os, i, k); }
    AfterRunning(os, |os|, i, j - 1);
    forall k | j <= k < |os| ensures P(os, k).Terminal? && os[k].status == os[j].status { SameTerminalStatus(os, j, k); }
    forall k | 0 < k < |os| && P(os, k) != P(os, k - 1) ensures os[BlockStart(os, k - 1)].at != os[k].at {
      assert !Bad(os, k);
    }
  }

  /** A run counts as complete exactly when its observations have the shape of a complete run. */
  lemma CompleteIffShaped(os: seq<Observation>)
    requires os != []
    ensures Complete(FoldOne(os)) <==> exists i: nat, j: nat :: Shaped(os, i, j)
  {
    if Complete(FoldOne(os)) { var i, j := CompleteIsShaped(os); }
    if exists i: nat, j: nat :: Shaped(os, i, j) {
      var i: nat, j: nat :| Shaped(os, i, j);
      ShapedIsComplete(os, i, j);
    }
  }

  function Rank(p: Phase): int {
    match p case Initialization => 0 case Waiting => 1 case Running => 2 case Terminal => 3 case Unknown => 4
  }

  /** The repository's README.md excludes every backwards step from the metrics; the only one that slips through is waiting to initialization. */
  lemma OnlyBackwardStep(os: seq<Observation>, k: nat)
    requires os != [] && Complete(FoldOne(os)) && 0 < k < |os| && Rank(P(os, k)) < Rank(P(os, k - 1))
    ensures P(os, k - 1).Waiting? && P(os, k).Initialization?
  {
    var i, j := CompleteIsShaped(os);
  }

  /** Going back from waiting to initialization does not disqualify a run; going back from running does. */
  lemma BackwardSteps(k: Key)
    ensures Complete(FoldOne([Observation(k, "", "pending", 1, 1), Observation(k, "", "created", 2, 2),
                              Observation(k, "", "running", 3, 3), Observation(k, "", "success", 4, 4)]))
    ensures !Complete(FoldOne([Observation(k, "", "created", 1, 1), Observation(k, "", "running", 2, 2), Observation(k, "", "pending", 3, 3),
                               Observation(k, "", "running", 4, 4), Observation(k, "", "success", 5, 5)]))
  {
    var os := [Observation(k, "", "pending", 1, 1), Observation(k, "", "created", 2, 2),
               Observation(k, "", "running", 3, 3), Observation(k, "", "success", 4, 4)];
    var s1 := FoldTo(os, 1);
    var s2 := FoldTo(os, 2);
    var s3 := FoldTo(os, 3);
    assert s2 == Advance(s1, os[1]) && s3 == Advance(s2, os[2]) && FoldOne(os) == Advance(s3, os[3]);
    var bs := [Observation(k, "", "created", 1, 1), Observation(k, "", "running", 2, 2), Observation(k, "", "pending", 3, 3),
               Observation(k, "", "running", 4, 4), Observation(k, "", "success", 5, 5)];
    FoldDescribes(bs, 5);
    assert Bad(bs, 2);
  }

  // ----- Conservation -----

  /** As long as nothing disqualified the run, no time is lost and none is counted twice. */
  ghost predicate Conserves(s: State) {
    !s.invalid ==>
      && s.initialization + s.waiting + s.running == s.boundary - s.first && s.restarts == 0
      && (!s.ran || s.phase.Running? ==> s.running == 0)
      && (s.phase.Running? ==> s.ran) && !s.phase.Unknown?
  }

  lemma {:induction false} FoldConserves(os: seq<Observation>, n: nat)
    requires 0 < n <= |os|
    ensures Conserves(FoldTo(os, n))
    decreases n
  {
    if n > 1 {
      FoldConserves(os, n - 1);
      var before := FoldTo(os, n - 1);
      if before.ran && !before.invalid { RanIsOver(os, n - 1); }
    }
  }

  /** A valid run that has run and is not running has ended. */
  lemma RanIsOver(os: seq<Observation>, n: nat)
    requires 0 < n <= |os| && FoldTo(os, n).ran && !FoldTo(os, n).invalid
    ensures FoldTo(os, n).phase.Running? || FoldTo(os, n).phase.Terminal?
  {
    FoldDescribes(os, n);
    var m :| 0 <= m < n && P(os, m).Running?;
    AfterRunning(os, n, m, n - 1);
  }

  /**
   * The time of a complete run: from its first receipt to its first terminal one, all of it accounted for;
   * the running time is that of the single running block, the rest is spent before it.
   */
  lemma CompleteRunsConserveTime(os: seq<Observation>, i: nat, j: nat)
    requires Shaped(os, i, j)
    ensures var s := FoldOne(os);
            && s.initialization + s.waiting + s.running == os[j].at - os[0].at
            && s.running == os[j].at - os[i].at
            && s.initialization + s.waiting == os[i].at - os[0].at
            && s.restarts == 0
  {
    ShapedIsComplete(os, i, j);
    FoldConserves(os, |os|);
    FoldDescribes(os, |os|);
    BlockAt(os, j, |os| - 1);
    RunningTime(os, i, j, |os|);
  }

  lemma {:induction false} BlockAt(os: seq<Observation>, j: nat, k: nat)
    requires 0 < j <= k < |os| && P(os, j - 1) != P(os, j) && forall n | j <= n <= k :: P(os, n) == P(os, j)
    ensures BlockStart(os, k) == j
    decreases k
  {
    if k > j { BlockAt(os, j, k - 1); }
  }

  lemma AdvanceRunning(s: State, o: Observation)
    ensures Advance(s, o).running == s.running + (if s.phase.Running? && !PhaseOf(o.status).Running? then o.at - s.boundary else 0)
  {
  }

  /** The running block is left exactly once, at the first terminal observation. */
  lemma LeavesRunning(os: seq<Observation>, i: nat, j: nat, k: nat)
    requires Shaped(os, i, j) && 0 < k < |os|
    ensures P(os, k - 1).Running? && !P(os, k).Running? <==> k == j
    ensures BlockStart(os, j - 1) == i
  {
    assert P(os, j).Terminal? && P(os, j - 1).Running? && Early(P(os, i - 1));
    BlockAt(os, i, j - 1);
  }

  /** One more observation adds to running exactly at the first terminal one, and then the whole block. */
  lemma RunningStep(os: seq<Observation>, i: nat, j: nat, n: nat)
    requires Shaped(os, i, j) && 1 < n <= |os|
    ensures FoldTo(os, n).running == FoldTo(os, n - 1).running + (if n - 1 == j then os[j].at - os[i].at else 0)
  {
    FoldDescribes(os, n - 1);
    AdvanceRunning(FoldTo(os, n - 1), os[n - 1]);
    LeavesRunning(os, i, j, n - 1);
  }

  /** running stays zero up to the terminal block, receives the whole block there, and stays. */
  lemma {:induction false} RunningTime(os: seq<Observation>, i: nat, j: nat, n: nat)
    requires Shaped(os, i, j) && 0 < n <= |os|
    ensures FoldTo(os, n).running == if n <= j then 0 else os[j].at - os[i].at
    decreases n
  {
    if n > 1 {
      RunningTime(os, i, j, n - 1);
      RunningStep(os, i, j, n);
    }
  }

  // ----- The reported runs -----

  datatype Run = Run(status: string, first: int, initialization: int, waiting: int, running: int,
                     total: Domain.Option<int>, complete: bool, restarts: nat)

  predicate Open(s: State) { !s.phase.Terminal? && !s.phase.Unknown? }

  /** The second loop's body: an open phase is extended up to the end of the window. */
  function Report(s: State, end: int): Run {
    var delta := if Open(s) && end > s.boundary then end - s.boundary else 0;
    Run(s.status, s.first,
        s.initialization + (if s.phase.Initialization? then delta else 0),
        s.waiting + (if s.phase.Waiting? then delta else 0),
        s.running + (if s.phase.Running? then delta else 0),
        if Complete(s) then Domain.Some(s.initialization + s.waiting + s.running) else Domain.None, Complete(s), s.restarts)
  }

  /** A total is reported exactly for complete runs, and it is the time from first receipt to first terminal one. */
  lemma ReportedTotal(os: seq<Observation>, end: int)
    requires os != []
    ensures Report(FoldOne(os), end).total.Some? <==> exists i: nat, j: nat :: Shaped(os, i, j)
    ensures forall i: nat, j: nat | Shaped(os, i, j) :: Report(FoldOne(os), end).total == Domain.Some(os[j].at - os[0].at)
  {
    CompleteIffShaped(os);
    forall i: nat, j: nat | Shaped(os, i, j) ensures Report(FoldOne(os), end).total == Domain.Some(os[j].at - os[0].at) {
      ShapedIsComplete(os, i, j);
      CompleteRunsConserveTime(os, i, j);
    }
  }

  /** A run that is still open and valid is accounted for up to the end of the window. */
  lemma ReportedOpenTime(os: seq<Observation>, end: int)
    requires os != [] && Open(FoldOne(os)) && !FoldOne(os).invalid && end >= FoldOne(os).boundary
    ensures var r := Report(FoldOne(os), end); r.initialization + r.waiting + r.running == end - os[0].at && r.total.None?
  {
    FoldConserves(os, |os|);
    FoldDescribes(os, |os|);
  }

  // ----- A run in terms of its observations -----

  const KNOWN: set<string> := {
    "created", "preparing", "scheduled", "pending", "queued", "waiting_for_resource", "requested", "running", "in_progress",
    "success", "failed", "failure", "canceled", "cancelled", "skipped", "neutral", "timed_out", "action_required"}

  /** The phase of every status a provider reports; any other text is unknown. */
  lemma PhaseTable(status: string)
    ensures PhaseOf("created") == PhaseOf("preparing") == PhaseOf("scheduled") == Initialization
    ensures PhaseOf("pending") == PhaseOf("queued") == PhaseOf("waiting_for_resource") == PhaseOf("requested") == Waiting
    ensures PhaseOf("running") == PhaseOf("in_progress") == Running
    ensures PhaseOf("success") == PhaseOf("failed") == PhaseOf("failure") == PhaseOf("canceled") == PhaseOf("cancelled") == Terminal
    ensures PhaseOf("skipped") == PhaseOf("neutral") == PhaseOf("timed_out") == PhaseOf("action_required") == Terminal
    ensures status !in KNOWN ==> PhaseOf(status) == Unknown
  {
  }

  /** The time between each notification and the next, up to the n-th, as far as the earlier of the two reports phase p. */
  function TimeIn(os: seq<Observation>, p: Phase, n: nat): int
    requires n < |os|
    decreases n
  {
    if n == 0 then 0 else TimeIn(os, p, n - 1) + (if P(os, n - 1) == p then os[n].at - os[n - 1].at else 0)
  }

  /** How often, up to the n-th notification, a pipeline that had ended went on. */
  function Restarts(os: seq<Observation>, n: nat): nat
    requires n < |os|
    decreases n
  {
    if n == 0 then 0 else Restarts(os, n - 1) + (if P(os, n - 1).Terminal? && !P(os, n).Terminal? then 1 else 0)
  }

  /** Within one block the time is that since the block began. */
  lemma {:induction false} TimeInBlock(os: seq<Observation>, p: Phase, b: nat, m: nat)
    requires b <= m < |os| && forall k | b <= k < m :: P(os, k) == P(os, b)
    ensures TimeIn(os, p, m) == TimeIn(os, p, b) + (if P(os, b) == p then os[m].at - os[b].at else 0)
    decreases m
  {
    if m > b { TimeInBlock(os, p, b, m - 1); }
  }

  /** A change of phase closes a block, and its time is that of the phase left behind. */
  lemma TimesAfterChange(os: seq<Observation>, n: nat)
    requires 0 < n < |os| && P(os, n) != P(os, n - 1)
    ensures var b := BlockStart(os, n - 1); forall p: Phase ::
              TimeIn(os, p, BlockStart(os, n)) == TimeIn(os, p, b) + (if P(os, n - 1) == p then os[n].at - os[b].at else 0)
  {
    var b := BlockStart(os, n - 1);
    forall p: Phase ensures TimeIn(os, p, n) == TimeIn(os, p, b) + (if P(os, n - 1) == p then os[n].at - os[b].at else 0) {
      TimeInBlock(os, p, b, n);
    }
  }

  /** The durations and restarts of s are the times spent in each phase until the block of os[k] began. */
  predicate Timed(s: State, os: seq<Observation>, k: nat)
    requires k < |os|
  {
    var b := BlockStart(os, k);
    && s.initialization == TimeIn(os, Initialization, b) && s.waiting == TimeIn(os, Waiting, b)
    && s.running == TimeIn(os, Running, b) && s.restarts == Restarts(os, k) && s.ref == os[0].ref
  }

  lemma TimedNext(s: State, os: seq<Observation>, k: nat)
    requires 0 < k < |os| && Timed(s, os, k - 1) && s.phase == P(os, k - 1) && s.boundary == os[BlockStart(os, k - 1)].at
    ensures Timed(Advance(s, os[k]), os, k)
  {
    if P(os, k) != P(os, k - 1) { TimesAfterChange(os, k); }
  }

  /** The folded durations are those times. */
  lemma {:induction false} FoldTimes(os: seq<Observation>, n: nat)
    requires 0 < n <= |os|
    ensures Timed(FoldTo(os, n), os, n - 1)
    decreases n
  {
    if n > 1 {
      FoldTimes(os, n - 1);
      FoldDescribes(os, n - 1);
      TimedNext(FoldTo(os, n - 1), os, n - 1);
    }
  }

  /** The time of the phase still open when the window ends. */
  function OpenTime(os: seq<Observation>, p: Phase, end: int): int
    requires os != []
  {
    var b := BlockStart(os, |os| - 1);
    if P(os, |os| - 1) == p && end > os[b].at then end - os[b].at else 0
  }

  /** What is reported of a pipeline with these observations. */
  ghost predicate RunIs(os: seq<Observation>, end: int, r: Run)
    requires os != []
  {
    var b := BlockStart(os, |os| - 1);
    && r.first == os[0].at && r.status == os[|os| - 1].status && r.restarts == Restarts(os, |os| - 1)
    && r.initialization == TimeIn(os, Initialization, b) + OpenTime(os, Initialization, end)
    && r.waiting == TimeIn(os, Waiting, b) + OpenTime(os, Waiting, end)
    && r.running == TimeIn(os, Running, b) + OpenTime(os, Running, end)
    && (r.complete <==> exists i: nat, j: nat :: Shaped(os, i, j)) && (r.total.Some? <==> r.complete)
    && (forall i: nat, j: nat | Shaped(os, i, j) :: r.total == Domain.Some(os[j].at - os[0].at))
  }

  lemma ReportIs(os: seq<Observation>, end: int)
    requires os != []
    ensures RunIs(os, end, Report(FoldOne(os), end))
  {
    FoldTimes(os, |os|);
    FoldDescribes(os, |os|);
    CompleteIffShaped(os);
    ReportedTotal(os, end);
  }

  method ReportRun(current: State, end: int) returns (run: Run)
    ensures run == Report(current, end)
  {
    run := Run(current.status, current.first, current.initialization, current.waiting, current.running,
               Domain.None, Complete(current), current.restarts);
    if run.complete { run := run.(total := Domain.Some(run.initialization + run.waiting + run.running)); }
    if Open(current) {
      var delta := end - current.boundary;
      if delta > 0 {
        match current.phase {
          case Initialization => run := run.(initialization := run.initialization + delta);
          case Waiting => run := run.(waiting := run.waiting + delta);
          case Running => run := run.(running := run.running + delta);
          case _ =>
        }
      }
    }
  }

  /** Some pipeline of the window is still open. */
  ghost predicate SomeOpen(states: map<Key, State>, ks: set<Key>) {
    exists k :: k in ks && k in states && Open(states[k])
  }

  /** The runs of the rows; those that began before the window are left out, active tells whether one is open. */
  method CollectRuns(rows: seq<Observation>, from: int, end: int) returns (runs: map<Key, Run>, active: bool)
    ensures forall k :: k in runs <==> Reports(rows, from, k)
    ensures forall k | k in runs :: Of(rows, k) != [] && runs[k] == Report(FoldOne(Of(rows, k)), end)
    ensures active <==> exists k :: Reports(rows, from, k) && Open(FoldOne(Of(rows, k)))
  {
    var states := Fold(rows);
    runs, active := map[], false;
    var rest := states.Keys;
    while rest != {}
      invariant rest <= states.Keys
      invariant forall k :: k in runs <==> k in states && k !in rest && states[k].first >= from
      invariant forall k | k in runs :: runs[k] == Report(states[k], end)
      invariant active <==> SomeOpen(states, runs.Keys)
      decreases |rest|
    {
      SomeKey(rest);
      var key :| key in rest;
      rest := rest - {key};
      if states[key].first >= from {
        var run := ReportRun(states[key], end);
        OneMoreRun(states, runs.Keys, key);
        assert runs[key := run].Keys == runs.Keys + {key};
        runs := runs[key := run];
        if Open(states[key]) { active := true; }
      }
    }
    AllReported(rows, from, states, runs.Keys);
  }

  /** A pipeline first seen in the window. */
  ghost predicate Reports(rows: seq<Observation>, from: int, k: Key) {
    Of(rows, k) != [] && Of(rows, k)[0].at >= from
  }

  lemma AllReported(rows: seq<Observation>, from: int, states: map<Key, State>, ks: set<Key>)
    requires Folded(rows, states) && forall k :: k in ks <==> k in states && states[k].first >= from
    ensures forall k :: k in ks <==> Reports(rows, from, k)
    ensures forall k | k in ks :: k in states && Of(rows, k) != [] && states[k] == FoldOne(Of(rows, k))
    ensures SomeOpen(states, ks) <==> exists k :: Reports(rows, from, k) && Open(FoldOne(Of(rows, k)))
  {
    forall k ensures k in ks <==> Reports(rows, from, k) {
      if Of(rows, k) != [] {
        assert k in states;
        FoldDescribes(Of(rows, k), |Of(rows, k)|);
      }
    }
    forall k | k in ks ensures k in states && Of(rows, k) != [] && states[k] == FoldOne(Of(rows, k)) {
      assert Of(rows, k) != [];
    }
  }

  lemma SomeKey(ks: set<Key>)
    requires ks != {}
    ensures exists k :: k in ks
  {
    assert (forall k :: k !in ks) ==> ks == {};
  }

  lemma OneMoreRun(states: map<Key, State>, ks: set<Key>, key: Key)
    requires key in states
    ensures SomeOpen(states, ks + {key}) <==> SomeOpen(states, ks) || Open(states[key])
  {
    if SomeOpen(states, ks) {
      var k :| k in ks && k in states && Open(states[k]);
      assert k in ks + {key};
    }
    if Open(states[key]) { assert key in ks + {key}; }
  }

  // ----- The query -----

  /** The parameters of a request; an empty source or repository selects all of them. */
  datatype Query = Query(source: string, repository: string, from: int, to: int, now: int)

  const RETENTION := 90 * 24 * 60 * 60 * 1000

  predicate Selected(o: Observation, q: Query) {
    && o.at >= q.now - RETENTION && o.at < q.to
    && (q.source == "" || o.key.source == q.source) && (q.repository == "" || o.key.repository == q.repository)
  }

  /** ORDER BY received_at, event_id. */
  predicate Precedes(x: Observation, y: Observation) { x.at < y.at || (x.at == y.at && x.event < y.event) }

  function InsertRow(o: Observation, rows: seq<Observation>): seq<Observation> {
    if rows == [] || !Precedes(rows[0], o) then [o] + rows else [rows[0]] + InsertRow(o, rows[1..])
  }

  /** The selected rows of the table in the order of the query. */
  function Window(table: seq<Observation>, q: Query): seq<Observation> {
    if table == [] then []
    else if Selected(table[0], q) then InsertRow(table[0], Window(table[1..], q))
    else Window(table[1..], q)
  }

  ghost predicate InOrder(rows: seq<Observation>) { forall i, j | 0 <= i < j < |rows| :: !Precedes(rows[j], rows[i]) }

  lemma {:induction false} InsertRowKeeps(o: Observation, rows: seq<Observation>)
    ensures multiset(InsertRow(o, rows)) == multiset(rows) + multiset{o}
    ensures InOrder(rows) ==> InOrder(InsertRow(o, rows))
  {
    if rows != [] && Precedes(rows[0], o) {
      InsertRowKeeps(o, rows[1..]);
      assert rows == [rows[0]] + rows[1..];
      if InOrder(rows) {
        var tail := InsertRow(o, rows[1..]);
        forall j | 0 <= j < |tail| ensures !Precedes(tail[j], rows[0]) {
          assert tail[j] in multiset(tail);
          if tail[j] != o { assert tail[j] in rows[1..]; }
        }
      }
    } else if rows != [] && InOrder(rows) {
      forall j | 0 <= j < |rows| ensures !Precedes(rows[j], o) { assert j > 0 ==> !Precedes(rows[j], rows[0]); }
    }
  }

  /** The query returns each selected row as often as the table holds it, oldest first. */
  lemma {:induction false} WindowIs(table: seq<Observation>, q: Query)
    ensures InOrder(Window(table, q))
    ensures forall o :: multiset(Window(table, q))[o] == if Selected(o, q) then multiset(table)[o] else 0
  {
    if table != [] {
      WindowIs(table[1..], q);
      if Selected(table[0], q) { InsertRowKeeps(table[0], Window(table[1..], q)); }
      assert table == [table[0]] + table[1..];
    }
  }

  /** The same, row by row: the last 90 days of the period, of the source and repository asked for, in order. */
  lemma WindowShows(table: seq<Observation>, q: Query)
    ensures forall o | o in Window(table, q) ::
              && o in table && q.now - 7_776_000_000 <= o.at < q.to
              && (q.source != "" ==> o.key.source == q.source) && (q.repository != "" ==> o.key.repository == q.repository)
    ensures forall o | o in table && q.now - 7_776_000_000 <= o.at < q.to && q.source in {"", o.key.source}
                       && q.repository in {"", o.key.repository} :: o in Window(table, q)
    ensures forall i, j | 0 <= i < j < |Window(table, q)| ::
              && Window(table, q)[i].at <= Window(table, q)[j].at
              && (Window(table, q)[i].at == Window(table, q)[j].at ==> Window(table, q)[i].event <= Window(table, q)[j].event)
  {
    WindowIs(table, q);
    var rows := Window(table, q);
    forall o ensures o in rows <==> o in table && Selected(o, q) {
      assert o in rows <==> multiset(rows)[o] > 0;
      assert o in table <==> multiset(table)[o] > 0;
    }
    forall i, j | 0 <= i < j < |rows| ensures rows[i].at <= rows[j].at && (rows[i].at == rows[j].at ==> rows[i].event <= rows[j].event) {
      assert !Precedes(rows[j], rows[i]);
    }
  }

  // ----- The answer -----

  datatype Listed = Listed(key: Key, run: Run)

  ghost predicate NewestFirst(runs: seq<Listed>) { forall i, j | 0 <= i < j < |runs| :: runs[i].run.first >= runs[j].run.first }

  ghost predicate OncePerKey(runs: seq<Listed>) { forall i, j | 0 <= i < j < |runs| :: runs[i].key != runs[j].key }

  function InsertRun(r: Listed, runs: seq<Listed>): seq<Listed> {
    if runs == [] || r.run.first >= runs[0].run.first then [r] + runs else [runs[0]] + InsertRun(r, runs[1..])
  }

  lemma {:induction false} InsertRunKeeps(r: Listed, runs: seq<Listed>)
    ensures forall x :: x in InsertRun(r, runs) <==> x == r || x in runs
    ensures NewestFirst(runs) ==> NewestFirst(InsertRun(r, runs))
    ensures OncePerKey(runs) && (forall x | x in runs :: x.key != r.key) ==> OncePerKey(InsertRun(r, runs))
  {
    if runs != [] && r.run.first < runs[0].run.first {
      InsertRunKeeps(r, runs[1..]);
      assert runs == [runs[0]] + runs[1..];
      var tail := InsertRun(r, runs[1..]);
      forall j | 0 <= j < |tail| ensures tail[j] == r || tail[j] in runs[1..] { assert tail[j] in tail; }
    }
  }

  /** The list is exactly the entries of the map, newest first. */
  ghost predicate Lists(runs: seq<Listed>, m: map<Key, Run>) {
    && NewestFirst(runs) && OncePerKey(runs) && forall k, r :: Listed(k, r) in runs <==> k in m && m[k] == r
  }

  method SortRuns(m: map<Key, Run>) returns (runs: seq<Listed>)
    ensures Lists(runs, m)
  {
    runs := [];
    var rest := m.Keys;
    while rest != {}
      invariant rest <= m.Keys && NewestFirst(runs) && OncePerKey(runs)
      invariant forall x :: x in runs <==> x.key in m && x.key !in rest && m[x.key] == x.run
      decreases |rest|
    {
      SomeKey(rest);
      var key :| key in rest;
      InsertRunKeeps(Listed(key, m[key]), runs);
      runs := InsertRun(Listed(key, m[key]), runs);
      rest := rest - {key};
    }
  }

  /**
   * PipelineStatistics: the runs of the selected observations that began in the window, newest first, each from its
   * own observations alone, and whether one of them is open.
   */
  method PipelineStatistics(table: seq<Observation>, q: Query) returns (runs: seq<Listed>, active: bool)
    ensures NewestFirst(runs) && OncePerKey(runs)
    ensures forall x :: x in runs <==>
              && Reports(Window(table, q), q.from, x.key)
              && x.run == Report(FoldOne(Of(Window(table, q), x.key)), if q.to < q.now then q.to else q.now)
    ensures active <==> exists k :: Reports(Window(table, q), q.from, k) && Open(FoldOne(Of(Window(table, q), k)))
    ensures forall x | x in runs ::
              Of(Window(table, q), x.key) != [] && RunIs(Of(Window(table, q), x.key), if q.to < q.now then q.to else q.now, x.run)
    ensures active <==> exists k :: Reports(Window(table, q), q.from, k) && GoesOn(Of(Window(table, q), k))
  {
    var end := q.now;
    if q.to < end { end := q.to; }
    var rows := Window(table, q);
    var collected;
    collected, active := CollectRuns(rows, q.from, end);
    runs := SortRuns(collected);
    forall x ensures x in runs <==> Reports(rows, q.from, x.key) && x.run == Report(FoldOne(Of(rows, x.key)), end) {
      assert x == Listed(x.key, x.run);
    }
    forall x | x in runs ensures Of(rows, x.key) != [] && RunIs(Of(rows, x.key), end, x.run) { ReportIs(Of(rows, x.key), end); }
    OpenIsGoingOn(rows, q.from);
  }

  lemma OpenIsGoingOn(rows: seq<Observation>, from: int)
    ensures (exists k :: Reports(rows, from, k) && Open(FoldOne(Of(rows, k)))) <==>
            (exists k :: Reports(rows, from, k) && GoesOn(Of(rows, k)))
  {
    if exists k :: Reports(rows, from, k) && Open(FoldOne(Of(rows, k))) {
      var k :| Reports(rows, from, k) && Open(FoldOne(Of(rows, k)));
      FoldDescribes(Of(rows, k), |Of(rows, k)|);
      assert GoesOn(Of(rows, k));
    }
    if exists k :: Reports(rows, from, k) && GoesOn(Of(rows, k)) {
      var k :| Reports(rows, from, k) && GoesOn(Of(rows, k));
      FoldDescribes(Of(rows, k), |Of(rows, k)|);
      assert Open(FoldOne(Of(rows, k)));
    }
  }

  /** The last notification leaves the pipeline waiting for another one. */
  predicate GoesOn(os: seq<Observation>) {
    os != [] && P(os, |os| - 1) in {Initialization, Waiting, Running}
  }
}
