/** The reload lifecycle of internal/runtimecfg/manager.go as functions of the manager's fields. */
module Reload {
  import opened Domain
  import opened Polling

  datatype Mode = Idle | Validating | Waiting | Applying | Draining

  datatype ManagerState = ManagerState(mode: Mode, current: Generation, candidate: Option<Generation>, recovery: bool)

  /** reloadDefers: events arriving in these modes are queued instead of routed. */
  predicate Defers(m: Mode) { m.Waiting? || m.Draining? || m.Applying? }

  function NewManager(initial: Generation): ManagerState {
    ManagerState(Idle, initial, None, false)
  }

  function Initialized(m: ManagerState, queued: nat, active: nat): ManagerState {
    ManagerState(if queued == 0 then Idle else if active > 0 then Waiting else Draining, m.current, None, queued > 0)
  }

  function Begun(m: ManagerState): ManagerState {
    m.(mode := Validating, recovery := false, candidate := None)
  }

  function Abandoned(m: ManagerState): ManagerState {
    m.(mode := Idle, candidate := None)
  }

  function Published(m: ManagerState, g: Generation): ManagerState {
    ManagerState(Draining, g, None, false)
  }

  /** The second half of Reload, once the candidate is compiled. */
  function Loaded(m: ManagerState, g: Generation, active: nat): ManagerState {
    if active > 0 then m.(mode := Waiting, candidate := Some(g)) else Published(m, g)
  }

  /** advanceWaiting. */
  function Advanced(m: ManagerState, active: nat): ManagerState {
    if !m.mode.Waiting? || active > 0 then m
    else if m.candidate.Some? then Published(m, m.candidate.value)
    else m.(mode := Draining)
  }

  /** SetIdleIfQueueEmpty. */
  function Settled(m: ManagerState, queued: nat): ManagerState {
    if m.mode.Draining? && queued == 0 then m.(mode := Idle, recovery := false) else m
  }
}
