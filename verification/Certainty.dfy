/**
 * What one mutation attempt is allowed to report, stated over the facts of the attempt. Both
 * gateways are proved against this one classifier.
 */
module Certainty {
  import opened Basics
  import opened Exceptions
  import opened Driver

  // The transaction is known not to have committed: it never opened, or its rollback is confirmed.
  ghost predicate KnownRolledBack(f: Facts) {
    f.ending.Open? || f.ending == RolledBack(true)
  }

  // The server committed this attempt's transaction.
  ghost predicate Applied(f: Facts) {
    f.ending.CommitSent? && f.ending.applied
  }

  ghost predicate Acknowledged(f: Facts) {
    f.ending.CommitSent? && f.ending.acknowledged
  }

  // A cause that is reported as a broken database contract once the rollback is confirmed.
  predicate Defective(kind: Kind, sqlstate: Option<string>) {
    kind.ContractError? || (kind.ProgrammingError? && !Retryable(sqlstate))
  }

  // `raised` is the classification of `cause`. `transient` are the kinds that make an attempt
  // retryable before anything was dispatched.
  ghost predicate Classifies(cause: Failure, raised: Failure, transient: set<Kind>,
                             dispatched: bool, rollbackConfirmed: bool)
  {
    if rollbackConfirmed && Defective(cause.kind, cause.sqlstate) then
      raised.kind.ContractError? && (cause.kind.ContractError? ==> raised == cause)
    else
      && raised.kind.MutationFailure?
      && raised.sqlstate == cause.sqlstate
      && raised.mutationDispatched == dispatched
      && raised.outcomeUnknown == (dispatched && !rollbackConfirmed)
      && (raised.safeToRetry <==> rollbackConfirmed && if dispatched then Retryable(cause.sqlstate) else cause.kind in transient)
  }

  // `_failure` and `_mutation_failure`.
  method Classify(error: Failure, transient: set<Kind>, dispatched: bool, rollbackConfirmed: bool,
                  cleanupFailed: bool, poolWaitMs: real, databaseMs: real) returns (raised: Failure)
    modifies error
    ensures Classifies(error, raised, transient, dispatched, rollbackConfirmed)
    ensures raised == error || (fresh(raised) && unchanged(error))
    ensures raised.cleanupFailed == (cleanupFailed || (raised == error && old(error.cleanupFailed)))
    ensures raised != error ==> raised.poolWaitMs == poolWaitMs && raised.databaseMs == databaseMs
    ensures raised == error ==> error.kind.ContractError?
  {
    if error.kind.ContractError? && rollbackConfirmed {
      error.cleanupFailed := error.cleanupFailed || cleanupFailed;
      return error;
    }
    var outcomeUnknown := dispatched && !rollbackConfirmed;
    if rollbackConfirmed && error.kind.ProgrammingError? && !Retryable(error.sqlstate) {
      raised := new Failure.Contract(poolWaitMs, databaseMs, cleanupFailed);
      return;
    }
    var safeToRetry := !outcomeUnknown && rollbackConfirmed &&
                       ((!dispatched && error.kind in transient) || (dispatched && Retryable(error.sqlstate)));
    raised := new Failure.Mutation(error.sqlstate, safeToRetry, dispatched, outcomeUnknown,
                                   poolWaitMs, databaseMs, cleanupFailed);
  }

  // Reported times: the wait for a connection, and the time since it was acquired.
  ghost predicate Timed(f: Facts, poolWaitMs: real, databaseMs: real) {
    if f.acquiredAt.Some? then
      poolWaitMs == Milliseconds(f.acquiredAt.value - f.startedAt) &&
      databaseMs == Milliseconds(f.latest - f.acquiredAt.value)
    else
      poolWaitMs == Milliseconds(f.latest - f.startedAt) && databaseMs == 0.0
  }

  // ----- disposition of the connection -----

  predicate PutBack(d: seq<Disposal>) {
    && 1 <= |d| <= 2
    && d[0].GivenBack?
    && (if d[0].ok then |d| == 1 else |d| == 2 && d[1].Closed?)
  }

  // An uncertain connection is closed first, and given back only if closing worked; every other
  // connection is given back at once. One that the pool refuses is closed.
  ghost predicate Disposed(f: Facts, uncertain: bool) {
    if !f.acquired then f.disposal == []
    else if !uncertain then PutBack(f.disposal)
    else
      && f.disposal != []
      && f.disposal[0].Closed?
      && (if f.disposal[0].ok then PutBack(f.disposal[1..]) else |f.disposal| == 1)
  }

  ghost predicate CleanupTrouble(f: Facts) {
    f.ending == RolledBack(false) || Closed(false) in f.disposal || GivenBack(false) in f.disposal
  }

  function GivenBackCount(d: seq<Disposal>): nat {
    if d == [] then 0 else (if d[0].GivenBack? then 1 else 0) + GivenBackCount(d[1..])
  }

  // Every acquired connection is given back exactly once, or never when closing it failed while
  // its transaction was uncertain; an uncertain connection is closed before it is given back.
  lemma DispositionIsExact(f: Facts, uncertain: bool)
    requires Disposed(f, uncertain)
    ensures GivenBackCount(f.disposal) == 1 <==> f.acquired && !(uncertain && f.disposal[0] == Closed(false))
    ensures GivenBackCount(f.disposal) <= 1
    ensures uncertain ==> forall i | 0 <= i < |f.disposal| && f.disposal[i].GivenBack? ::
      1 <= i && f.disposal[0] == Closed(true)
  {
    var d := f.disposal;
    if f.acquired {
      var rest := if uncertain then d[1..] else d;
      if PutBack(rest) {
        assert |rest| == 2 ==> rest[1..][1..] == [] && rest[1..][0].Closed?;
        assert GivenBackCount(rest[1..]) == 0;
      } else {
        assert rest == [];
      }
    }
  }
}
