/**
 * One call of a mutation service, attempt by attempt. The source passes a closure over four
 * accumulators to the retry loop; here the closure is an object and the accumulators its fields.
 */
module Attempts {
  import opened Basics
  import opened Exceptions
  import opened Records
  import opened Driver
  import opened Certainty
  import RG = ReservationGateway
  import NG = NewsletterGateway

  // services/retry.py
  datatype AttemptFailure = AttemptFailure(
    sqlstate: Option<string>, safeToRetry: bool, mutationDispatched: bool, outcomeUnknown: bool)
  {
    predicate Eligible() {
      if !safeToRetry || outcomeUnknown then false
      else if mutationDispatched then Retryable(sqlstate)
      else sqlstate.None? || Retryable(sqlstate) || "08" <= sqlstate.value
    }
  }

  datatype Verdict = Returned | Failed(failure: AttemptFailure) | Escaped

  // What the retry loop sees of one attempt, and what the gateway reported.
  datatype Trial = Trial(number: int, remainingMs: real, facts: Facts, verdict: Verdict,
                         poolWaitMs: real, databaseMs: real, cleanupFailed: bool)

  // The four accumulators.
  datatype Account = Account(poolWaitMs: real, databaseMs: real, attempts: int, cleanupFailed: bool)

  ghost function TotalPoolWait(trials: seq<Trial>): real {
    if trials == [] then 0.0 else TotalPoolWait(trials[..|trials| - 1]) + trials[|trials| - 1].poolWaitMs
  }

  ghost function TotalDatabase(trials: seq<Trial>): real {
    if trials == [] then 0.0 else TotalDatabase(trials[..|trials| - 1]) + trials[|trials| - 1].databaseMs
  }

  ghost function AnyCleanupFailed(trials: seq<Trial>): bool {
    trials != [] && (AnyCleanupFailed(trials[..|trials| - 1]) || trials[|trials| - 1].cleanupFailed)
  }

  // The account holds the totals over all attempts.
  ghost predicate Accounts(a: Account, trials: seq<Trial>) {
    && a.poolWaitMs == TotalPoolWait(trials) && a.poolWaitMs >= 0.0
    && a.databaseMs == TotalDatabase(trials) && a.databaseMs >= 0.0
    && a.attempts == |trials|
    && a.cleanupFailed == AnyCleanupFailed(trials)
  }

  // What each verdict says about the server.
  ghost predicate Certain(t: Trial) {
    (Acknowledged(t.facts) ==> Applied(t.facts)) &&
    match t.verdict
    case Returned => Applied(t.facts) && Acknowledged(t.facts)
    case Failed(failure) =>
      && !Acknowledged(t.facts)
      && failure.mutationDispatched == t.facts.dispatched
      && (failure.outcomeUnknown <==> t.facts.dispatched && !KnownRolledBack(t.facts))
      && (!failure.outcomeUnknown ==> !Applied(t.facts))
      && (failure.safeToRetry ==> KnownRolledBack(t.facts))
    case Escaped => Applied(t.facts) ==> Acknowledged(t.facts)
  }

  // A retry is asked for only after an attempt that left nothing behind, and after a dispatch only
  // for the three approved conditions.
  lemma EligibleLeavesNothing(t: Trial)
    requires Certain(t) && t.verdict.Failed? && t.verdict.failure.Eligible()
    ensures !Applied(t.facts) && KnownRolledBack(t.facts)
    ensures t.facts.dispatched ==> Retryable(t.verdict.failure.sqlstate)
  {
  }

  lemma Extended(trials: seq<Trial>, t: Trial)
    ensures (trials + [t])[..|trials|] == trials
    ensures TotalPoolWait(trials + [t]) == TotalPoolWait(trials) + t.poolWaitMs
    ensures TotalDatabase(trials + [t]) == TotalDatabase(trials) + t.databaseMs
    ensures AnyCleanupFailed(trials + [t]) == (AnyCleanupFailed(trials) || t.cleanupFailed)
  {
    assert (trials + [t])[..|trials|] == trials;
  }

  // ----- OP-05 -----

  datatype BookingReply =
    | Completed(result: BookingResult)
    | AttemptFailed(failure: AttemptFailure)
    | ConfirmationUnavailable(account: Account)
    | ServiceUnavailable(account: Account)
    | ContractFailure(cleanupFailed: bool)
    | NoReply

  class BookingAttempts {
    const gateway: RG.Gateway
    const command: ReservationCommand
    var account: Account
    var reply: BookingReply      // what the last attempt returned or raised
    var retryNotices: seq<int>   // calls of the retry observer
    var cleanupNotices: nat      // calls of the cleanup-failure observer
    ghost var trials: seq<Trial>

    constructor (gateway: RG.Gateway, command: ReservationCommand)
      ensures this.gateway == gateway && this.command == command
      ensures account == Account(0.0, 0.0, 0, false) && reply == NoReply
      ensures retryNotices == [] && cleanupNotices == 0 && trials == []
      ensures Accounts(account, trials)
    {
      this.gateway, this.command := gateway, command;
      account, reply := Account(0.0, 0.0, 0, false), NoReply;
      retryNotices, cleanupNotices, trials := [], 0, [];
    }

    // The last trial and the reply to it agree.
    ghost predicate Replied(t: Trial)
      reads this
    {
      RG.Protocol(t.facts, command) &&
      match reply
      case Completed(r) =>
        && t.verdict.Returned? && Accounts(account, trials)
        && r.poolWaitMs == account.poolWaitMs && r.databaseMs == account.databaseMs
        && r.attempts == account.attempts && r.cleanupFailed == account.cleanupFailed
        && BookingResultAccepted(r)
        && !r.outcome.InvalidDatabaseConfiguration?
        && RG.Answer(t.facts).Some? && SameBooking(r, RG.Answer(t.facts).value)
        && (r.outcome.Success() ==> r.customerName.Some? && r.restaurantTimezone.Some? && r.restaurantTimezone.value in gateway.world.zones)
      case AttemptFailed(failure) => t.verdict == Failed(failure) && Accounts(account, trials)
      case ConfirmationUnavailable(a) =>
        t.verdict.Escaped? && a == account && Accounts(account, trials) && RG.Booked(t.facts)
      case ServiceUnavailable(a) =>
        && t.verdict.Escaped? && a == account && Accounts(account, trials) && Acknowledged(t.facts)
        && RG.Answer(t.facts).Some? && RG.Answer(t.facts).value.outcome.InvalidDatabaseConfiguration?
      case ContractFailure(failed) => t.verdict.Escaped? && KnownRolledBack(t.facts) && failed == t.cleanupFailed
      case NoReply => false
    }

    // The `except` clauses.
    method Translate(raised: Failure, number: int, remainingMs: real, ghost cause: Failure) returns (verdict: Verdict)
      requires RG.Explains(gateway.world.facts, gateway.world.zones, cause, raised)
      requires Acknowledged(gateway.world.facts) ==> Applied(gateway.world.facts)
      requires RG.Protocol(gateway.world.facts, command)
      requires |trials| == number - 1 && account.attempts == number
      requires Accounts(account.(attempts := number - 1), trials)
      modifies this
      ensures retryNotices == old(retryNotices)
      ensures trials == old(trials) + [Trial(number, remainingMs, gateway.world.facts, verdict,
                                             raised.poolWaitMs, raised.databaseMs, raised.cleanupFailed)]
      ensures Certain(trials[number - 1]) && Replied(trials[number - 1])
      ensures cleanupNotices == old(cleanupNotices) + (if account.cleanupFailed && reply.ContractFailure? then 1 else 0)
      ensures !reply.Completed? && !reply.ServiceUnavailable? && account.attempts == number
    {
      if raised.kind.ContractError? {
        account := account.(cleanupFailed := account.cleanupFailed || raised.cleanupFailed);
        if account.cleanupFailed {
          cleanupNotices := cleanupNotices + 1;
        }
        reply, verdict := ContractFailure(raised.cleanupFailed), Escaped;
      } else {
        account := account.(poolWaitMs := account.poolWaitMs + raised.poolWaitMs,
                            databaseMs := account.databaseMs + raised.databaseMs,
                            cleanupFailed := account.cleanupFailed || raised.cleanupFailed);
        if raised.kind.MutationFailure? {
          var failure := AttemptFailure(raised.sqlstate, raised.safeToRetry, raised.mutationDispatched, raised.outcomeUnknown);
          reply, verdict := AttemptFailed(failure), Failed(failure);
        } else {
          reply, verdict := ConfirmationUnavailable(account), Escaped;
        }
      }
      ghost var t := Trial(number, remainingMs, gateway.world.facts, verdict, raised.poolWaitMs, raised.databaseMs, raised.cleanupFailed);
      Extended(trials, t);
      trials := trials + [t];
    }

    // A normal return of the gateway.
    method Finish(result: BookingResult, number: int, remainingMs: real) returns (verdict: Verdict)
      requires RG.Reports(gateway.world.facts, gateway.world.zones, result)
      requires Acknowledged(gateway.world.facts) ==> Applied(gateway.world.facts)
      requires RG.Protocol(gateway.world.facts, command)
      requires 1 <= number <= 3 && |trials| == number - 1 && account.attempts == number
      requires Accounts(account.(attempts := number - 1), trials)
      modifies this
      ensures retryNotices == old(retryNotices)
      ensures trials == old(trials) + [Trial(number, remainingMs, gateway.world.facts, verdict,
                                             result.poolWaitMs, result.databaseMs, result.cleanupFailed)]
      ensures Certain(trials[number - 1]) && Replied(trials[number - 1])
      ensures cleanupNotices == old(cleanupNotices) + (if account.cleanupFailed then 1 else 0)
      ensures (reply.Completed? || reply.ServiceUnavailable?) && account.attempts == number
    {
      if result.outcome.Success() {
        RG.ReportedZoneIsKnown(gateway.world.facts, gateway.world.zones, result);
      }
      account := account.(poolWaitMs := account.poolWaitMs + result.poolWaitMs,
                          databaseMs := account.databaseMs + result.databaseMs,
                          cleanupFailed := account.cleanupFailed || result.cleanupFailed);
      var completed := result.(poolWaitMs := account.poolWaitMs, databaseMs := account.databaseMs,
                               attempts := number, cleanupFailed := account.cleanupFailed);
      if account.cleanupFailed {
        cleanupNotices := cleanupNotices + 1;
      }
      if completed.outcome.InvalidDatabaseConfiguration? {
        reply, verdict := ServiceUnavailable(account), Escaped;
      } else {
        reply, verdict := Completed(completed), Returned;
      }
      ghost var t := Trial(number, remainingMs, gateway.world.facts, verdict, result.poolWaitMs, result.databaseMs, result.cleanupFailed);
      Extended(trials, t);
      trials := trials + [t];
    }

    // What the gateway returned or raised.
    method Settle(result: Option<BookingResult>, raised: Failure?, ghost cause: Failure?, number: int, remainingMs: real) returns (verdict: Verdict)
      requires raised == null ==> result.Some? && RG.Reports(gateway.world.facts, gateway.world.zones, result.value)
      requires raised != null ==> cause != null && RG.Explains(gateway.world.facts, gateway.world.zones, cause, raised)
      requires Acknowledged(gateway.world.facts) ==> Applied(gateway.world.facts)
      requires RG.Protocol(gateway.world.facts, command)
      requires 1 <= number <= 3 && |trials| == number - 1 && account.attempts == number
      requires Accounts(account.(attempts := number - 1), trials)
      modifies this
      ensures |trials| == number && trials[..number - 1] == old(trials)
      ensures var t := trials[number - 1];
        && t.number == number && t.remainingMs == remainingMs && t.verdict == verdict && t.facts == gateway.world.facts
        && Certain(t) && Replied(t) && t.cleanupFailed == CleanupTrouble(t.facts)
      ensures retryNotices == old(retryNotices)
      ensures cleanupNotices == old(cleanupNotices) +
        (if account.cleanupFailed && (reply.Completed? || reply.ServiceUnavailable? || reply.ContractFailure?) then 1 else 0)
      ensures account.attempts == number
    {
      if raised != null {
        verdict := Translate(raised, number, remainingMs, cause);
      } else {
        verdict := Finish(result.value, number, remainingMs);
      }
    }

    method Attempt(number: int, remainingMs: real) returns (verdict: Verdict)
      requires 1 <= number <= 3 && |trials| == number - 1
      requires Accounts(account, trials)
      modifies this, gateway.world
      ensures gateway.world.sleeps == old(gateway.world.sleeps) && gateway.world.now >= old(gateway.world.now)
      ensures |trials| == number && trials[..number - 1] == old(trials)
      ensures var t := trials[number - 1];
        && t.number == number && t.remainingMs == remainingMs && t.verdict == verdict
        && Certain(t) && Replied(t)
        && Disposed(t.facts, RG.Uncertain(t.facts, gateway.world.zones))
        && t.cleanupFailed == CleanupTrouble(t.facts)
        && gateway.world.commits == old(gateway.world.commits) + (if Applied(t.facts) then 1 else 0)
      ensures retryNotices == old(retryNotices) + (if number > 1 then [number] else [])
      ensures cleanupNotices == old(cleanupNotices) +
        (if account.cleanupFailed && (reply.Completed? || reply.ServiceUnavailable? || reply.ContractFailure?) then 1 else 0)
      ensures account.attempts == number
    {
      account := account.(attempts := number);
      if number > 1 {
        retryNotices := retryNotices + [number];
      }
      var result, raised, cause := gateway.Book(command, Some(remainingMs));
      verdict := Settle(result, raised, cause, number, remainingMs);
    }
  }

  // ----- OP-04 -----

  datatype PreferenceReply =
    | PreferenceCompleted(result: PreferenceResult)
    | PreferenceAttemptFailed(failure: AttemptFailure)
    | PreferenceContractFailure(cleanupFailed: bool)
    | NoPreferenceReply

  class PreferenceAttempts {
    const gateway: NG.Gateway
    const command: PreferenceCommand
    var account: Account
    var reply: PreferenceReply
    var retryNotices: seq<int>
    var cleanupNotices: nat
    ghost var trials: seq<Trial>

    constructor (gateway: NG.Gateway, command: PreferenceCommand)
      ensures this.gateway == gateway && this.command == command
      ensures account == Account(0.0, 0.0, 0, false) && reply == NoPreferenceReply
      ensures retryNotices == [] && cleanupNotices == 0 && trials == []
      ensures Accounts(account, trials)
    {
      this.gateway, this.command := gateway, command;
      account, reply := Account(0.0, 0.0, 0, false), NoPreferenceReply;
      retryNotices, cleanupNotices, trials := [], 0, [];
    }

    ghost predicate Replied(t: Trial)
      reads this
    {
      NG.Protocol(t.facts, command, t.remainingMs) &&
      match reply
      case PreferenceCompleted(r) =>
        && t.verdict.Returned? && Accounts(account, trials)
        && r.poolWaitMs == account.poolWaitMs && r.databaseMs == account.databaseMs
        && r.attempts == account.attempts && r.cleanupFailed == account.cleanupFailed
        && PreferenceResultAccepted(r)
        && NG.Answer(t.facts).Some? && r.outcome == NG.Answer(t.facts).value.outcome
      case PreferenceAttemptFailed(failure) => t.verdict == Failed(failure) && Accounts(account, trials)
      case PreferenceContractFailure(failed) => t.verdict.Escaped? && KnownRolledBack(t.facts) && failed == t.cleanupFailed
      case NoPreferenceReply => false
    }

    // The `except` clauses. Unlike OP-05, a contract error is passed on without being accumulated.
    method Translate(raised: Failure, number: int, remainingMs: real, ghost cause: Failure) returns (verdict: Verdict)
      requires NG.Explains(gateway.world.facts, cause, raised)
      requires NG.Protocol(gateway.world.facts, command, remainingMs)
      requires |trials| == number - 1 && account.attempts == number
      requires Accounts(account.(attempts := number - 1), trials)
      modifies this
      ensures retryNotices == old(retryNotices)
      ensures trials == old(trials) + [Trial(number, remainingMs, gateway.world.facts, verdict,
                                             raised.poolWaitMs, raised.databaseMs, raised.cleanupFailed)]
      ensures Certain(trials[number - 1]) && Replied(trials[number - 1])
      ensures cleanupNotices == old(cleanupNotices) + (if raised.cleanupFailed && reply.PreferenceContractFailure? then 1 else 0)
      ensures !reply.PreferenceCompleted? && account.attempts == number
    {
      if raised.kind.MutationFailure? {
        account := account.(poolWaitMs := account.poolWaitMs + raised.poolWaitMs,
                            databaseMs := account.databaseMs + raised.databaseMs,
                            cleanupFailed := account.cleanupFailed || raised.cleanupFailed);
        var failure := AttemptFailure(raised.sqlstate, raised.safeToRetry, raised.mutationDispatched, raised.outcomeUnknown);
        reply, verdict := PreferenceAttemptFailed(failure), Failed(failure);
      } else {
        if raised.cleanupFailed {
          cleanupNotices := cleanupNotices + 1;
        }
        reply, verdict := PreferenceContractFailure(raised.cleanupFailed), Escaped;
      }
      ghost var t := Trial(number, remainingMs, gateway.world.facts, verdict, raised.poolWaitMs, raised.databaseMs, raised.cleanupFailed);
      Extended(trials, t);
      trials := trials + [t];
    }

    method Finish(result: PreferenceResult, number: int, remainingMs: real) returns (verdict: Verdict)
      requires NG.Reports(gateway.world.facts, result)
      requires Acknowledged(gateway.world.facts) ==> Applied(gateway.world.facts)
      requires NG.Protocol(gateway.world.facts, command, remainingMs)
      requires 1 <= number <= 3 && |trials| == number - 1 && account.attempts == number
      requires Accounts(account.(attempts := number - 1), trials)
      modifies this
      ensures retryNotices == old(retryNotices)
      ensures trials == old(trials) + [Trial(number, remainingMs, gateway.world.facts, verdict,
                                             result.poolWaitMs, result.databaseMs, result.cleanupFailed)]
      ensures Certain(trials[number - 1]) && Replied(trials[number - 1])
      ensures cleanupNotices == old(cleanupNotices) + (if account.cleanupFailed then 1 else 0)
      ensures reply.PreferenceCompleted? && account.attempts == number
    {
      account := account.(poolWaitMs := account.poolWaitMs + result.poolWaitMs,
                          databaseMs := account.databaseMs + result.databaseMs,
                          cleanupFailed := account.cleanupFailed || result.cleanupFailed);
      var completed := result.(poolWaitMs := account.poolWaitMs, databaseMs := account.databaseMs,
                               attempts := number, cleanupFailed := account.cleanupFailed);
      if completed.cleanupFailed {
        cleanupNotices := cleanupNotices + 1;
      }
      reply, verdict := PreferenceCompleted(completed), Returned;
      ghost var t := Trial(number, remainingMs, gateway.world.facts, verdict, result.poolWaitMs, result.databaseMs, result.cleanupFailed);
      Extended(trials, t);
      trials := trials + [t];
    }

    method Attempt(number: int, remainingMs: real) returns (verdict: Verdict)
      requires 1 <= number <= 3 && |trials| == number - 1
      requires Accounts(account, trials)
      modifies this, gateway.world
      ensures gateway.world.sleeps == old(gateway.world.sleeps) && gateway.world.now >= old(gateway.world.now)
      ensures |trials| == number && trials[..number - 1] == old(trials)
      ensures var t := trials[number - 1];
        && t.number == number && t.remainingMs == remainingMs && t.verdict == verdict
        && Certain(t) && Replied(t)
        && Disposed(t.facts, NG.Uncertain(t.facts))
        && t.cleanupFailed == CleanupTrouble(t.facts)
        && gateway.world.commits == old(gateway.world.commits) + (if Applied(t.facts) then 1 else 0)
      ensures retryNotices == old(retryNotices) + (if number > 1 then [number] else [])
      ensures cleanupNotices == old(cleanupNotices) +
        (match reply
         case PreferenceCompleted(r) => if r.cleanupFailed then 1 else 0
         case PreferenceContractFailure(failed) => if failed then 1 else 0
         case _ => 0)
      ensures account.attempts == number
    {
      account := account.(attempts := number);
      if number > 1 {
        retryNotices := retryNotices + [number];
      }
      var result, raised, cause := gateway.SetPreference(command, Some(remainingMs));
      if raised != null {
        verdict := Translate(raised, number, remainingMs, cause);
      } else {
        verdict := Finish(result.value, number, remainingMs);
      }
    }
  }
}
