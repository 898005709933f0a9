/** The lifecycle gate of the control plane (apps/control-plane/src/state.rs): admission, drain, completion. */
module Shutdown {

  datatype Failure = SessionFailed | LoginFailed
  datatype Outcome = Clean | Failed(failure: Failure)
  datatype Phase = Running | Draining | Complete(outcome: Outcome)
  datatype Gate = Gate(phase: Phase, active: nat)

  /** What a caller of shutdown finds when it holds the lock. */
  datatype Role = Drains | Leads | Follows | Completed(outcome: Outcome)

  function Admitted(g: Gate): Gate { g.(active := g.active + 1) }

  function Dropped(g: Gate): Gate { g.(active := if g.active == 0 then 0 else g.active - 1) }

  /** The session cleanup's failure takes precedence over the login cleanup's. */
  ghost function Combined(sessionOk: bool, loginOk: bool): Outcome {
    if !sessionOk then Failed(SessionFailed) else if !loginOk then Failed(LoginFailed) else Clean
  }

  class Lifecycle {
    var phase: Phase
    var active: nat

    function View(): Gate reads this { Gate(phase, active) }

    constructor ()
      ensures View() == Gate(Running, 0)
    {
      phase, active := Running, 0;
    }

    method Admit() returns (ok: bool)
      modifies this
      ensures ok == old(phase).Running?
      ensures View() == if ok then Admitted(old(View())) else old(View())
    {
      if !phase.Running? {
        return false;
      }
      active := active + 1;
      ok := true;
    }

    method DropOperation()
      modifies this
      ensures View() == Dropped(old(View()))
    {
      active := if active == 0 then 0 else active - 1;
    }

    /** One pass of the caller's loop under the lock; the caller sleeps on `Drains` and `Follows`. */
    method BeginShutdown(draining: bool) returns (role: Role)
      requires draining ==> phase.Draining?
      modifies `phase
      ensures old(phase).Running? ==> phase == Draining && role == if active == 0 then Leads else Drains
      ensures !old(phase).Running? ==> phase == old(phase)
      ensures draining ==> role == if active == 0 then Leads else Drains
      ensures !draining && old(phase).Draining? ==> role == Follows
      ensures !draining && old(phase).Complete? ==> role == Completed(old(phase).outcome)
    {
      if draining {
        return if active == 0 then Leads else Drains;
      }
      match phase {
        case Running =>
          phase := Draining;
          role := if active == 0 then Leads else Drains;
        case Draining => role := Follows;
        case Complete(outcome) => role := Completed(outcome);
      }
    }

    method ForceComplete(outcome: Outcome)
      modifies `phase
      ensures phase == Complete(outcome)
    {
      phase := Complete(outcome);
    }
  }
}
