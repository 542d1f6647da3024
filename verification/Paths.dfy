/** Sequences of steps between two states, and what starts on an empty database. */
module Paths {
  import opened Domain
  import opened Tables
  import opened Correlation
  import opened Polling
  import opened Intake
  import opened Manual
  import opened Reload
  import opened Protocol
  import opened Invariant
  import opened Exactness
  import opened Theorems

  function Front(acts: seq<Action>): seq<Action>
    requires acts != []
  {
    acts[..|acts| - 1]
  }

  function Last(acts: seq<Action>): Action
    requires acts != []
  {
    acts[|acts| - 1]
  }

  /** run lists the states the actions lead through, from s to t. */
  ghost predicate Trace(run: seq<Sys>, acts: seq<Action>, s: Sys, t: Sys) {
    |run| == |acts| + 1 && run[0] == s && run[|run| - 1] == t && forall i | 0 <= i < |acts| :: Follows(run, acts, i)
  }

  /** The actions lead from s to t, one step after the other. */
  ghost predicate Along(s: Sys, acts: seq<Action>, t: Sys) { exists run: seq<Sys> :: Trace(run, acts, s, t) }

  lemma Nowhere(s: Sys)
    ensures Along(s, [], s)
  {
    assert Trace([s], [], s, s);
  }

  lemma Then(s: Sys, acts: seq<Action>, u: Sys, act: Action, t: Sys)
    requires Along(s, acts, u) && Next(u, act, t)
    ensures Along(s, acts + [act], t)
  {
    var run: seq<Sys> :| Trace(run, acts, s, u);
    forall i | 0 <= i < |acts + [act]| ensures Follows(run + [t], acts + [act], i) { StillFollows(run, acts, act, t, i); }
    assert Trace(run + [t], acts + [act], s, t);
  }

  lemma StillFollows(run: seq<Sys>, acts: seq<Action>, act: Action, t: Sys, i: nat)
    requires |run| == |acts| + 1 && i <= |acts| && (i < |acts| ==> Follows(run, acts, i)) && Next(run[|run| - 1], act, t)
    ensures Follows(run + [t], acts + [act], i)
  {
    var longer, more := run + [t], acts + [act];
    assert longer[i] == run[i];
    if i < |acts| {
      assert longer[i + 1] == run[i + 1] && more[i] == acts[i];
    } else {
      assert longer[i + 1] == t && more[i] == act;
    }
  }

  /** The last step of a path. */
  lemma LastStep(s: Sys, acts: seq<Action>, t: Sys) returns (u: Sys)
    requires Along(s, acts, t) && acts != []
    ensures Along(s, Front(acts), u) && Next(u, Last(acts), t)
  {
    var run: seq<Sys> :| Trace(run, acts, s, t);
    var n := |acts| - 1;
    u := run[n];
    var shorter := run[..n + 1];
    forall i | 0 <= i < n ensures Follows(shorter, Front(acts), i) {
      assert Follows(run, acts, i);
      assert shorter[i] == run[i] && shorter[i + 1] == run[i + 1] && Front(acts)[i] == acts[i];
    }
    assert Trace(shorter, Front(acts), s, u);
    assert Follows(run, acts, n);
  }

  /** A path from a sound start is a run. */
  lemma AlongIsRun(s: Sys, acts: seq<Action>, t: Sys) returns (run: seq<Sys>)
    requires Init(s) && Along(s, acts, t)
    ensures Run(run, acts) && run[0] == s && run[|run| - 1] == t
  {
    run :| Trace(run, acts, s, t);
  }

  /** The invariant carries along any path, wherever it starts. */
  lemma {:induction false} AlongKeepsInv(s: Sys, acts: seq<Action>, t: Sys)
    requires Inv(s) && Along(s, acts, t)
    ensures Inv(t)
    decreases |acts|
  {
    if acts != [] {
      var u := LastStep(s, acts, t);
      AlongKeepsInv(s, Front(acts), u);
      StepKeepsInv(u, Last(acts), t);
    }
  }

  // ----- Within one process -----

  predicate WithinProcess(acts: seq<Action>) { forall i | 0 <= i < |acts| :: !acts[i].Crash? }

  ghost predicate LeadsBy(s: Sys, acts: seq<Action>, t: Sys) { Along(s, acts, t) && WithinProcess(acts) }

  /** Some steps of one process lead from s to t. */
  ghost predicate Leads(s: Sys, t: Sys) { exists acts: seq<Action> :: LeadsBy(s, acts, t) }

  lemma Stays(s: Sys)
    ensures Leads(s, s)
  {
    Nowhere(s);
    assert LeadsBy(s, [], s);
  }

  lemma Onward(s: Sys, t: Sys, act: Action, u: Sys)
    requires Leads(s, t) && Next(t, act, u) && !act.Crash?
    ensures Leads(s, u)
  {
    var acts: seq<Action> :| LeadsBy(s, acts, t);
    Then(s, acts, t, act, u);
    assert LeadsBy(s, acts + [act], u);
  }

  // ----- From nothing -----

  /** A process on an empty database, with an empty remote history. */
  function Empty(g: Generation, phase: Phase): Sys {
    Sys(EMPTY, map[], phase, NewManager(g), Resting, [], map[], multiset{}, map[], {}, [], [])
  }

  /** One process that started on the empty database has come to s. */
  ghost predicate Reached(s: Sys) { exists g: Generation :: Compiled(g) && Leads(Empty(g, Terminating), s) }

  lemma Extend(s: Sys, act: Action, s': Sys)
    requires Reached(s) && Next(s, act, s') && !act.Crash?
    ensures Reached(s')
  {
    var g: Generation :| Compiled(g) && Leads(Empty(g, Terminating), s);
    Onward(Empty(g, Terminating), s, act, s');
  }

  lemma EmptyIsSound()
    ensures DbOk(EMPTY)
  {
    assert QueueSound(EMPTY) && Schema(EMPTY);
  }

  lemma EmptyIsInit(g: Generation)
    requires Compiled(g)
    ensures Init(Empty(g, Terminating))
  {
    EmptyIsSound();
    assert QueueIds([]) == [];
  }

  /** Nothing is misattributed where nothing has happened. */
  lemma EmptyIsExact(g: Generation, phase: Phase)
    ensures Schema(EMPTY) && Exact(Empty(g, phase))
  {
    EmptyIsSound();
  }

  /** What one process reaches from the empty database is the end of a run. */
  lemma ReachedIsRun(s: Sys) returns (run: seq<Sys>, acts: seq<Action>)
    requires Reached(s)
    ensures Run(run, acts) && run[|run| - 1] == s && WithinProcess(acts)
    ensures exists g :: Compiled(g) && run[0] == Empty(g, Terminating)
  {
    var g: Generation :| Compiled(g) && Leads(Empty(g, Terminating), s);
    acts :| LeadsBy(Empty(g, Terminating), acts, s);
    EmptyIsInit(g);
    run := AlongIsRun(Empty(g, Terminating), acts, s);
  }

  lemma BindingsCheckedStep(g: Generation)
    ensures Next(Empty(g, Terminating), BindingsChecked, Empty(g, Recovering))
  {
    EmptyIsSound();
  }

  lemma RecoverStep(g: Generation)
    ensures Next(Empty(g, Recovering), Recover(0, []), Empty(g, Initializing))
  {
    EmptyIsSound();
  }

  lemma InitializeStep(g: Generation)
    ensures Next(Empty(g, Initializing), Initialize, Empty(g, Serving))
  {
    EmptyIsSound();
  }

  lemma ReachServing(g: Generation)
    requires Compiled(g)
    ensures Reached(Empty(g, Serving))
  {
    Stays(Empty(g, Terminating));
    BindingsCheckedStep(g);
    Extend(Empty(g, Terminating), BindingsChecked, Empty(g, Recovering));
    RecoverStep(g);
    Extend(Empty(g, Recovering), Recover(0, []), Empty(g, Initializing));
    InitializeStep(g);
    Extend(Empty(g, Initializing), Initialize, Empty(g, Serving));
  }
}
