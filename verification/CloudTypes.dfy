/** Identities, statuses and error classes shared by the two durable Cloud ledgers. */
module CloudTypes {

  datatype Option<+T> = None | Some(value: T)

  /** A submit operation identity. `NIL_OPERATION` is the nil UUID, which no ledger accepts. */
  type OperationId = nat
  const NIL_OPERATION: OperationId := 0

  type TaskId = nat
  type ProcessIdentity = nat

  /** The administrator's Cloud environment and branch, written into every submit ledger. */
  datatype Config = Config(environment: string, branch: string)

  datatype TaskStatus = PendingStatus | ReadyStatus | AppliedStatus | ErrorStatus

  /** The operator's answer to an unknown submit outcome. */
  datatype Decision =
    | AdoptListedTask(task: TaskId)
    | AbandonAfterReconciliation(acknowledged: OperationId)

  datatype Category =
    | Busy
    | Version
    | NotAuthenticated
    | LedgerInvalid
    | LedgerUnavailable
    | Process
    | ProviderOutput
    | ProviderRead
    | CanceledBeforeStart
    | OutcomeUnknown
    | RecoveryRequired
    | PriorFailedBeforeSpawn
    | PriorExplicitlyAbandoned
    | ReconciliationCycle
    | NoUnknownOperation
    | OperationConflict
    | ResolutionUnavailable
    | ResolutionConflict
    | CandidateNotRecorded
    | NoCurrentOperation
    | TurnAlreadyRunning
    | StaleDecision
    | WrongState
    | TaskNotListed
    | AcknowledgementRequired

  datatype Error = Error(category: Category, op: Option<OperationId>)

  datatype Result<+T, +E> = Ok(value: T) | Err(error: E)

  /** The state a record operation leaves behind, and the error it reports, if any. */
  datatype Attempt<+S> = Attempt(state: S, error: Option<Category>) {
    predicate Ok() { error.None? }
  }

  /**
   * What one replacement of a durable file did. The file is replaced by a rename and then the
   * directory is synced, so a call may report an error although the new bytes are in place.
   */
  datatype Write = Durable | NotWritten | WrittenButFailed

  function Stored<T>(before: T, after: T, write: Write): T {
    if write.NotWritten? then before else after
  }

  predicate Distinct<T(==)>(s: seq<T>) {
    forall i, j :: 0 <= i < j < |s| ==> s[i] != s[j]
  }

  /** The duplicate scan both ledgers run over a candidate list. */
  method HasNoDuplicate(ids: seq<TaskId>) returns (distinct: bool)
    ensures distinct == Distinct(ids)
  {
    var seen: set<TaskId> := {};
    for i := 0 to |ids|
      invariant seen == set k | 0 <= k < i :: ids[k]
      invariant forall k, m :: 0 <= k < m < i ==> ids[k] != ids[m]
    {
      if ids[i] in seen {
        return false;
      }
      seen := seen + {ids[i]};
    }
    distinct := true;
  }
}
