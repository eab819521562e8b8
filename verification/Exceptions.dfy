/** Failure values passed between the layers (db/exceptions.py). */
module Exceptions {
  import opened Basics

  // The first six are what the driver, the pool and the runtime raise; the last three are the
  // gateway's own categories.
  datatype Kind =
    | InterfaceError | OperationalError | PoolTimeout | TimeoutError | ProgrammingError | OtherError
    | ContractError | MutationFailure | ConfirmationFailure

  predicate IsRaw(k: Kind) {
    !k.ContractError? && !k.MutationFailure? && !k.ConfirmationFailure?
  }

  predicate Retryable(sqlstate: Option<string>) {
    sqlstate.Some? && sqlstate.value in {"55P03", "40P01", "40001"}
  }

  // Exceptions are objects: the gateways compare them by identity and update `cleanupFailed`.
  class Failure {
    const kind: Kind
    const sqlstate: Option<string>
    const safeToRetry: bool
    const mutationDispatched: bool
    const outcomeUnknown: bool
    const poolWaitMs: real
    const databaseMs: real
    var cleanupFailed: bool

    constructor Raise(kind: Kind, sqlstate: Option<string>)
      requires IsRaw(kind)
      ensures this.kind == kind && this.sqlstate == sqlstate && !cleanupFailed
    {
      this.kind, this.sqlstate := kind, sqlstate;
      safeToRetry, mutationDispatched, outcomeUnknown := false, false, false;
      poolWaitMs, databaseMs, cleanupFailed := 0.0, 0.0, false;
    }

    constructor Contract(poolWaitMs: real, databaseMs: real, cleanupFailed: bool)
      ensures kind == ContractError && sqlstate == None
      ensures this.poolWaitMs == poolWaitMs && this.databaseMs == databaseMs
      ensures this.cleanupFailed == cleanupFailed
    {
      kind, sqlstate := ContractError, None;
      safeToRetry, mutationDispatched, outcomeUnknown := false, false, false;
      this.poolWaitMs, this.databaseMs, this.cleanupFailed := poolWaitMs, databaseMs, cleanupFailed;
    }

    constructor Mutation(sqlstate: Option<string>, safeToRetry: bool, mutationDispatched: bool,
                         outcomeUnknown: bool, poolWaitMs: real, databaseMs: real, cleanupFailed: bool)
      ensures kind == MutationFailure && this.sqlstate == sqlstate && this.safeToRetry == safeToRetry
      ensures this.mutationDispatched == mutationDispatched && this.outcomeUnknown == outcomeUnknown
      ensures this.poolWaitMs == poolWaitMs && this.databaseMs == databaseMs
      ensures this.cleanupFailed == cleanupFailed
    {
      kind, this.sqlstate, this.safeToRetry := MutationFailure, sqlstate, safeToRetry;
      this.mutationDispatched, this.outcomeUnknown := mutationDispatched, outcomeUnknown;
      this.poolWaitMs, this.databaseMs, this.cleanupFailed := poolWaitMs, databaseMs, cleanupFailed;
    }

    constructor Confirmation(poolWaitMs: real, databaseMs: real, cleanupFailed: bool)
      ensures kind == ConfirmationFailure && sqlstate == None
      ensures this.poolWaitMs == poolWaitMs && this.databaseMs == databaseMs
      ensures this.cleanupFailed == cleanupFailed
    {
      kind, sqlstate := ConfirmationFailure, None;
      safeToRetry, mutationDispatched, outcomeUnknown := false, false, false;
      this.poolWaitMs, this.databaseMs, this.cleanupFailed := poolWaitMs, databaseMs, cleanupFailed;
    }
  }
}
