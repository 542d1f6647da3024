/** The reload manager of internal/runtimecfg/manager.go: the fields its write-locked sections update. */
module ReloadManager {
  import opened Domain
  import opened Tables
  import opened Polling
  import opened Reload
  import opened Protocol
  import opened Columns
  import opened StoreTransactions

  class Manager {
    const store: Store
    var mode: Mode
    var current: Generation
    var candidate: Option<Generation>
    var recovery: bool

    constructor (initial: Generation, store: Store)
      ensures this.store == store && State() == NewManager(initial)
    {
      this.store := store;
      mode, current, candidate, recovery := Idle, initial, None, false;
    }

    function State(): ManagerState
      reads this
    {
      ManagerState(mode, current, candidate, recovery)
    }

    /** A queue left by an earlier process is drained only once the deliveries left with it have ended. */
    method Initialize()
      requires store.Valid()
      modifies this
      ensures State() == Initialized(old(State()), |store.queue|, |ActiveSet(store.View())|)
      ensures mode == if store.queue == [] then Idle else if NothingUnfinished(store.View()) then Draining else Waiting
      ensures current == old(current) && candidate == None && (recovery <==> store.queue != [])
    {
      var queued := store.CountQueued();
      var active := 0;
      if queued > 0 { active := store.CountActive(); }
      candidate := None;
      recovery := queued > 0;
      if queued == 0 { mode := Idle; } else if active > 0 { mode := Waiting; } else { mode := Draining; }
    }

    /** The first locked section of Reload; only one reload can pass it. */
    method BeginReload() returns (started: bool)
      modifies this
      ensures started <==> old(mode).Idle?
      ensures State() == if started then Begun(old(State())) else old(State())
      ensures current == old(current)
      ensures if started then mode == Validating && candidate == None && !recovery
              else mode == old(mode) && candidate == old(candidate) && recovery == old(recovery)
    {
      if !mode.Idle? { return false; }
      mode := Validating;
      recovery := false;
      candidate := None;
      return true;
    }

    /** failValidation: the candidate did not compile, or the active deliveries could not be counted. */
    method FailValidation()
      modifies this
      ensures State() == Abandoned(old(State()))
      ensures mode == Idle && candidate == None && current == old(current) && recovery == old(recovery)
    {
      candidate := None;
      mode := Idle;
    }

    /** publishCandidateLocked. */
    method PublishCandidate()
      requires candidate.Some?
      modifies this
      ensures State() == Published(old(State()), old(candidate).value)
      ensures current == old(candidate).value && candidate == None && mode == Draining && !recovery
    {
      mode := Applying;
      current := candidate.value;
      candidate := None;
      recovery := false;
      mode := Draining;
    }

    /** The second locked section of Reload: a compiled candidate waits while anything is active. */
    method FinishReload(compiled: Generation) returns (applied: bool)
      requires store.Valid()
      modifies this
      ensures State() == Loaded(old(State()), compiled, |ActiveSet(store.View())|)
      ensures applied <==> NothingUnfinished(store.View())
      ensures applied ==> current == compiled && candidate == None && mode == Draining && !recovery
      ensures !applied ==> current == old(current) && candidate == Some(compiled) && mode == Waiting && recovery == old(recovery)
    {
      candidate := Some(compiled);
      var active := store.CountActive();
      if active > 0 {
        mode := Waiting;
        return false;
      }
      PublishCandidate();
      return true;
    }

    /** advanceWaiting; returns whether the reload is still waiting. */
    method AdvanceWaiting() returns (waiting: bool)
      requires store.Valid()
      modifies this
      ensures State() == Advanced(old(State()), |ActiveSet(store.View())|)
      ensures waiting <==> mode.Waiting?
      ensures old(mode) == Waiting && NothingUnfinished(store.View()) && old(candidate).Some? ==>
                current == old(candidate).value && candidate == None && mode == Draining && !recovery
      ensures old(mode) == Waiting && NothingUnfinished(store.View()) && old(candidate).None? ==>
                current == old(current) && candidate == None && mode == Draining && recovery == old(recovery)
      ensures old(mode) != Waiting || !NothingUnfinished(store.View()) ==>
                current == old(current) && candidate == old(candidate) && mode == old(mode) && recovery == old(recovery)
    {
      if !mode.Waiting? { return false; }
      var active := store.CountActive();
      if active > 0 { return true; }
      if candidate.Some? {
        PublishCandidate();
      } else {
        mode := Applying;
        mode := Draining;
      }
      return false;
    }

    method SetIdleIfQueueEmpty() returns (idle: bool)
      modifies this
      ensures State() == Settled(old(State()), |store.queue|)
      ensures idle <==> mode.Idle?
      ensures current == old(current) && candidate == old(candidate)
      ensures if old(mode) == Draining && store.queue == [] then mode == Idle && !recovery
              else mode == old(mode) && recovery == old(recovery)
    {
      if !mode.Draining? { return mode.Idle?; }
      var queued := store.CountQueued();
      if queued != 0 { return false; }
      mode := Idle;
      recovery := false;
      return true;
    }
  }
}
