/** The two mutation services: retry, and the mapping to public outcomes. */
module Services {
  import opened Basics
  import opened Records
  import opened Driver
  import opened Decoding
  import opened Certainty
  import opened Attempts
  import opened Retry
  import RG = ReservationGateway
  import NG = NewsletterGateway

  // ----- OP-05 (services/reservations.py) -----

  datatype BookingPublic =
    | Answered(result: BookingResult)
    | TemporaryFailure(account: Account)
    | OutcomeUnknown(account: Account)
    | ConfirmationMissing(account: Account)
    | ServiceDown(account: Account)
    | ContractBroken(cleanupFailed: bool)
    | PolicyRejected

  // What a caller may conclude from a public outcome. `applied` is the routine's answer in the
  // transaction the server committed, if it committed any; `zones` are those the runtime knows.
  ghost predicate Certifies(outcome: BookingPublic, applied: Option<BookingResult>, zones: set<string>) {
    match outcome
    case Answered(r) =>
      && applied.Some? && SameBooking(r, applied.value) && !r.outcome.InvalidDatabaseConfiguration?
      && (r.outcome.Success() ==>
            Complete(r) && r.customerName.Some? && r.restaurantTimezone.Some? && r.restaurantTimezone.value in zones)
    case ConfirmationMissing(_) => applied.Some? && applied.value.outcome.Success()
    case ServiceDown(_) => applied.Some? && applied.value.outcome.InvalidDatabaseConfiguration?
    case TemporaryFailure(_) => applied == None
    case ContractBroken(_) => applied == None
    case PolicyRejected => applied == None
    case OutcomeUnknown(_) => true
  }

  // Results and the failures derived from attempts report the totals over all attempts.
  ghost predicate ReportsTotals(outcome: BookingPublic, trials: seq<Trial>) {
    match outcome
    case Answered(r) => Accounts(Account(r.poolWaitMs, r.databaseMs, r.attempts, r.cleanupFailed), trials) && BookingResultAccepted(r)
    case TemporaryFailure(a) => Accounts(a, trials)
    case OutcomeUnknown(a) => Accounts(a, trials)
    case ConfirmationMissing(a) => Accounts(a, trials)
    case ServiceDown(a) => Accounts(a, trials)
    case ContractBroken(failed) => trials != [] && failed == trials[|trials| - 1].cleanupFailed
    case PolicyRejected => trials == []
  }

  // The routine's answer in an attempt's transaction, if the server committed it.
  ghost function AppliedAnswer(f: Facts): Option<BookingResult> {
    if Applied(f) then RG.Answer(f) else None
  }

  lemma AnswersAreComplete(f: Facts)
    ensures RG.Answer(f).Some? && RG.Answer(f).value.outcome.Success() ==> Complete(RG.Answer(f).value)
  {
    if RG.Answer(f).Some? {
      DecodedBookingMeaning(f.rows.value, 0.0, 0.0);
      DecodedBookingFields(f.rows.value, 0.0, 0.0);
    }
  }

  class ReservationService {
    const gateway: RG.Gateway
    const deadlineMs: int
    const policy: RetryPolicy

    constructor (gateway: RG.Gateway, deadlineMs: int, policy: RetryPolicy)
      ensures this.gateway == gateway && this.deadlineMs == deadlineMs && this.policy == policy
    {
      this.gateway, this.deadlineMs, this.policy := gateway, deadlineMs, policy;
    }

    method Book(command: ReservationCommand)
      returns (outcome: BookingPublic, ghost applied: Option<BookingResult>, ghost trials: seq<Trial>)
      modifies gateway.world
      ensures gateway.world.commits == old(gateway.world.commits) + (if applied.Some? then 1 else 0)
      ensures Certifies(outcome, applied, gateway.world.zones)
      ensures ReportsTotals(outcome, trials)
      ensures outcome.PolicyRejected? <==> !(1 <= policy.maxAttempts <= 3)
      ensures !outcome.PolicyRejected? ==>
        && RetryRun(trials, policy)
        && applied.Some? == Applied(trials[|trials| - 1].facts)
        && (outcome.OutcomeUnknown? <==> trials[|trials| - 1].verdict.Failed? && trials[|trials| - 1].verdict.failure.outcomeUnknown)
    {
      applied := None;
      var attempts := new BookingAttempts(gateway, command);
      ghost var delays;
      var end;
      end, delays := ExecuteWithRetry(Booking(attempts), deadlineMs, policy);
      trials := attempts.trials;
      if end.InvalidPolicy? {
        outcome := PolicyRejected;
        return;
      }
      ghost var last := trials[|trials| - 1];
      RunCommitsAtMostOnce(trials, policy);
      applied := AppliedAnswer(last.facts);
      outcome := Publish(attempts, last);
    }

    // The public outcome of the last attempt.
    method Publish(attempts: BookingAttempts, ghost last: Trial) returns (outcome: BookingPublic)
      requires attempts.gateway == gateway && attempts.trials != [] && last == attempts.trials[|attempts.trials| - 1]
      requires attempts.Replied(last) && Certain(last)
      ensures Certifies(outcome, AppliedAnswer(last.facts), gateway.world.zones) && !outcome.PolicyRejected?
      ensures ReportsTotals(outcome, attempts.trials)
      ensures outcome.OutcomeUnknown? <==> last.verdict.Failed? && last.verdict.failure.outcomeUnknown
      ensures Applied(last.facts) ==> AppliedAnswer(last.facts).Some?
    {
      AnswersAreComplete(last.facts);
      match attempts.reply
      case Completed(r) => outcome := Answered(r);
      case ConfirmationUnavailable(a) => outcome := ConfirmationMissing(a);
      case ServiceUnavailable(a) => outcome := ServiceDown(a);
      case ContractFailure(failed) => outcome := ContractBroken(failed);
      case AttemptFailed(failure) =>
        outcome := if failure.outcomeUnknown then OutcomeUnknown(attempts.account) else TemporaryFailure(attempts.account);
    }
  }

  // ----- OP-04 (services/newsletter_preferences.py) -----

  datatype PreferencePublic =
    | Saved(result: PreferenceResult)
    | PreferenceTemporaryFailure(account: Account)
    | PreferenceOutcomeUnknown(account: Account)
    | PreferenceContractBroken(cleanupFailed: bool)
    | PreferencePolicyRejected

  ghost predicate CertifiesPreference(outcome: PreferencePublic, applied: Option<PreferenceOutcome>) {
    match outcome
    case Saved(r) => applied == Some(r.outcome)
    case PreferenceTemporaryFailure(_) => applied == None
    case PreferenceContractBroken(_) => applied == None
    case PreferencePolicyRejected => applied == None
    case PreferenceOutcomeUnknown(_) => true
  }

  ghost predicate PreferenceTotals(outcome: PreferencePublic, trials: seq<Trial>) {
    match outcome
    case Saved(r) => Accounts(Account(r.poolWaitMs, r.databaseMs, r.attempts, r.cleanupFailed), trials) && PreferenceResultAccepted(r)
    case PreferenceTemporaryFailure(a) => Accounts(a, trials)
    case PreferenceOutcomeUnknown(a) => Accounts(a, trials)
    case PreferenceContractBroken(failed) => trials != [] && failed == trials[|trials| - 1].cleanupFailed
    case PreferencePolicyRejected => trials == []
  }

  class NewsletterPreferenceService {
    const gateway: NG.Gateway
    const deadlineMs: int
    const policy: RetryPolicy

    constructor (gateway: NG.Gateway, deadlineMs: int, policy: RetryPolicy)
      ensures this.gateway == gateway && this.deadlineMs == deadlineMs && this.policy == policy
    {
      this.gateway, this.deadlineMs, this.policy := gateway, deadlineMs, policy;
    }

    method SetPreference(command: PreferenceCommand)
      returns (outcome: PreferencePublic, ghost applied: Option<PreferenceOutcome>, ghost trials: seq<Trial>)
      modifies gateway.world
      ensures gateway.world.commits == old(gateway.world.commits) + (if applied.Some? then 1 else 0)
      ensures CertifiesPreference(outcome, applied)
      ensures PreferenceTotals(outcome, trials)
      ensures outcome.PreferencePolicyRejected? <==> !(1 <= policy.maxAttempts <= 3)
      ensures !outcome.PreferencePolicyRejected? ==>
        && RetryRun(trials, policy)
        && applied.Some? == Applied(trials[|trials| - 1].facts)
        && (outcome.PreferenceOutcomeUnknown? <==> trials[|trials| - 1].verdict.Failed? && trials[|trials| - 1].verdict.failure.outcomeUnknown)
    {
      applied := None;
      var attempts := new PreferenceAttempts(gateway, command);
      ghost var delays;
      var end;
      end, delays := ExecuteWithRetry(Preference(attempts), deadlineMs, policy);
      trials := attempts.trials;
      if end.InvalidPolicy? {
        outcome := PreferencePolicyRejected;
        return;
      }
      ghost var last := trials[|trials| - 1];
      RunCommitsAtMostOnce(trials, policy);
      if Applied(last.facts) {
        applied := Some(NG.Answer(last.facts).value.outcome);
      }
      assert attempts.Replied(last);
      match attempts.reply
      case PreferenceCompleted(r) => outcome := Saved(r);
      case PreferenceContractFailure(failed) => outcome := PreferenceContractBroken(failed);
      case PreferenceAttemptFailed(failure) =>
        outcome := if failure.outcomeUnknown then PreferenceOutcomeUnknown(attempts.account)
                   else PreferenceTemporaryFailure(attempts.account);
    }
  }
}
