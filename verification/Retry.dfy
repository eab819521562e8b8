/** The bounded, deadline-aware retry loop (services/retry.py), shared by both mutation services. */
module Retry {
  import opened Basics
  import opened Driver
  import opened Certainty
  import opened Attempts

  datatype RetryPolicy = RetryPolicy(
    maxAttempts: int, baseDelayMs: int, capDelayMs: int, jitterRatio: real, minRemainingMs: int)

  datatype Operation = Booking(booking: BookingAttempts) | Preference(preference: PreferenceAttempts)
  {
    ghost function TheWorld(): World {
      match this case Booking(b) => b.gateway.world case Preference(p) => p.gateway.world
    }

    ghost function Home(): object {
      match this case Booking(b) => b case Preference(p) => p
    }

    ghost function Trials(): seq<Trial>
      reads Home()
    {
      match this case Booking(b) => b.trials case Preference(p) => p.trials
    }

    ghost predicate Accounted()
      reads Home()
    {
      match this
      case Booking(b) => Accounts(b.account, b.trials)
      case Preference(p) => Accounts(p.account, p.trials)
    }

    // The last trial is answered by the operation's reply, and followed its protocol.
    ghost predicate Replied()
      reads Home()
      requires Trials() != []
    {
      var t := Trials()[|Trials()| - 1];
      match this case Booking(b) => b.Replied(t) case Preference(p) => p.Replied(t)
    }

    method TheClock() returns (world: World)
      ensures world == TheWorld()
    {
      match this
      case Booking(b) => world := b.gateway.world;
      case Preference(p) => world := p.gateway.world;
    }

    method Invoke(number: int, remainingMs: real) returns (verdict: Verdict)
      requires 1 <= number <= 3 && |Trials()| == number - 1 && Accounted()
      modifies Home(), TheWorld()
      ensures TheWorld().sleeps == old(TheWorld().sleeps) && TheWorld().now >= old(TheWorld().now)
      ensures |Trials()| == number && Trials()[..number - 1] == old(Trials())
      ensures var t := Trials()[number - 1];
        && t.number == number && t.remainingMs == remainingMs && t.verdict == verdict && Certain(t)
        && TheWorld().commits == old(TheWorld().commits) + (if Applied(t.facts) then 1 else 0)
      ensures Replied()
      ensures verdict.Failed? ==> Accounted()
    {
      match this
      case Booking(b) => verdict := b.Attempt(number, remainingMs);
      case Preference(p) => verdict := p.Attempt(number, remainingMs);
    }
  }

  // ----- what a run of the loop looks like -----

  // Attempts are numbered from one, all but the last failed in a way that may be retried, and
  // every retry began with the required time left.
  ghost predicate RetryRun(trials: seq<Trial>, policy: RetryPolicy) {
    && 1 <= |trials| <= policy.maxAttempts
    && (forall i | 0 <= i < |trials| :: trials[i].number == i + 1 && Certain(trials[i]))
    && (forall i | 0 <= i < |trials| - 1 :: trials[i].verdict.Failed? && trials[i].verdict.failure.Eligible())
    && (forall i | 1 <= i < |trials| :: trials[i].remainingMs >= policy.minRemainingMs as real)
  }

  ghost function Commits(trials: seq<Trial>): nat {
    if trials == [] then 0
    else Commits(trials[..|trials| - 1]) + (if Applied(trials[|trials| - 1].facts) then 1 else 0)
  }

  lemma {:induction false} FailedRunCommitsNothing(trials: seq<Trial>)
    requires forall i | 0 <= i < |trials| ::
      Certain(trials[i]) && trials[i].verdict.Failed? && trials[i].verdict.failure.Eligible()
    ensures Commits(trials) == 0
  {
    if trials != [] {
      EligibleLeavesNothing(trials[|trials| - 1]);
      FailedRunCommitsNothing(trials[..|trials| - 1]);
    }
  }

  // Over every run, at most one transaction committed, and it is the last attempt's: exactly one
  // when that attempt returned, none when it failed with a known outcome.
  lemma {:induction false} RunCommitsAtMostOnce(trials: seq<Trial>, policy: RetryPolicy)
    requires RetryRun(trials, policy)
    ensures var last := trials[|trials| - 1];
      && Commits(trials) == (if Applied(last.facts) then 1 else 0)
      && (last.verdict.Returned? ==> Commits(trials) == 1)
      && (last.verdict.Failed? && !last.verdict.failure.outcomeUnknown ==> Commits(trials) == 0)
    ensures forall i | 0 <= i < |trials| - 1 :: !(trials[i].verdict.Failed? && trials[i].verdict.failure.outcomeUnknown)
  {
    FailedRunCommitsNothing(trials[..|trials| - 1]);
  }

  // ----- delays -----

  function Power2(n: nat): int {
    if n == 0 then 1 else 2 * Power2(n - 1)
  }

  // The delay before the k-th retry, before jitter.
  function Nominal(policy: RetryPolicy, k: nat): int
    requires k >= 1
  {
    var backoff := policy.baseDelayMs * Power2(k - 1);
    if policy.capDelayMs < backoff then policy.capDelayMs else backoff
  }

  ghost function Total(delays: seq<real>): real {
    if delays == [] then 0.0 else Total(delays[..|delays| - 1]) + delays[|delays| - 1]
  }

  predicate DelayInBand(policy: RetryPolicy, k: nat, delay: real)
    requires k >= 1
  {
    var nominal := Nominal(policy, k) as real;
    nominal * (1.0 - policy.jitterRatio) <= delay <= nominal * (1.0 + policy.jitterRatio)
  }

  ghost predicate InBand(policy: RetryPolicy, delays: seq<real>) {
    forall k | 0 <= k < |delays| :: DelayInBand(policy, k + 1, delays[k])
  }

  predicate Nonnegative(policy: RetryPolicy) {
    policy.baseDelayMs >= 0 && policy.capDelayMs >= 0 && policy.jitterRatio >= 0.0
  }

  lemma {:induction false} Power2Positive(n: nat)
    ensures Power2(n) >= 1
  {
    if n > 0 { Power2Positive(n - 1); }
  }

  lemma JitterStaysInBand(policy: RetryPolicy, k: nat, u: real)
    requires k >= 1 && Nonnegative(policy)
    requires 1.0 - policy.jitterRatio <= u <= 1.0 + policy.jitterRatio
    ensures DelayInBand(policy, k, Nominal(policy, k) as real * u)
  {
    Power2Positive(k - 1);
    ScaledBand(Nominal(policy, k) as real, 1.0 - policy.jitterRatio, u, 1.0 + policy.jitterRatio);
  }

  lemma ScaledBand(nominal: real, low: real, u: real, high: real)
    requires nominal >= 0.0 && low <= u <= high
    ensures nominal * low <= nominal * u <= nominal * high
  {
  }

  // The sleeps requested so far: they fit into the time that has passed, each is in its band, and
  // the last of them still left the required time.
  ghost predicate Paced(policy: RetryPolicy, deadlineMs: int, delays: seq<real>, elapsed: real) {
    && Total(delays) <= elapsed
    && (delays != [] ==> Total(delays) <= deadlineMs as real - policy.minRemainingMs as real)
    && (Nonnegative(policy) ==> InBand(policy, delays))
  }

  lemma PacedExtended(policy: RetryPolicy, deadlineMs: int, delays: seq<real>, elapsed: real, d: real, later: real)
    requires Paced(policy, deadlineMs, delays, elapsed)
    requires elapsed + d <= deadlineMs as real - policy.minRemainingMs as real
    requires elapsed + d <= later
    requires Nonnegative(policy) ==> DelayInBand(policy, |delays| + 1, d)
    ensures Paced(policy, deadlineMs, delays + [d], later)
  {
    assert (delays + [d])[..|delays|] == delays;
  }

  lemma RunExtended(trials: seq<Trial>, longer: seq<Trial>, policy: RetryPolicy)
    requires |longer| == |trials| + 1 <= policy.maxAttempts && longer[..|trials|] == trials
    requires trials != [] ==>
      && RetryRun(trials, policy) && trials[|trials| - 1].verdict.Failed? && trials[|trials| - 1].verdict.failure.Eligible()
      && longer[|trials|].remainingMs >= policy.minRemainingMs as real
    requires longer[|trials|].number == |longer| && Certain(longer[|trials|])
    ensures RetryRun(longer, policy)
    ensures Commits(longer) == Commits(trials) + (if Applied(longer[|trials|].facts) then 1 else 0)
  {
    assert forall i | 0 <= i < |trials| :: longer[i] == trials[i];
  }

  datatype LoopEnd = InvalidPolicy | LostContext | Ended(verdict: Verdict)

  // The pause before the next attempt: it is given up when it would not leave the required time,
  // before the sleep or after it.
  method Pause(world: World, policy: RetryPolicy, attempt: nat, deadline: real)
    returns (proceed: bool, ghost delay: Option<real>)
    requires attempt >= 1
    modifies world
    ensures world.commits == old(world.commits)
    ensures proceed ==> delay.Some?
    ensures world.sleeps == old(world.sleeps) + (if delay.Some? then [delay.value] else [])
    ensures world.now >= old(world.now)
    ensures delay.Some? ==>
      && world.now >= old(world.now) + delay.value
      && old(world.now) + delay.value <= deadline - policy.minRemainingMs as real
      && (Nonnegative(policy) ==> DelayInBand(policy, attempt, delay.value))
  {
    delay := None;
    var u := world.Uniform(1.0 - policy.jitterRatio, 1.0 + policy.jitterRatio);
    var delayMs := Nominal(policy, attempt) as real * u;
    if Nonnegative(policy) {
      JitterStaysInBand(policy, attempt, u);
    }
    var now := world.Clock();
    if deadline - now - delayMs < policy.minRemainingMs as real {
      return false, None;
    }
    delay := Some(delayMs);
    world.Sleep(delayMs);
    now := world.Clock();
    proceed := deadline - now >= policy.minRemainingMs as real;
  }

  // The pause, with the sleeps requested so far.
  method PacedPause(world: World, policy: RetryPolicy, attempt: nat, start: real, deadlineMs: int, ghost delays: seq<real>)
    returns (proceed: bool, ghost delays': seq<real>)
    requires attempt == |delays| + 1 && Paced(policy, deadlineMs, delays, world.now - start)
    modifies world
    ensures world.commits == old(world.commits)
    ensures Paced(policy, deadlineMs, delays', world.now - start)
    ensures |delays| <= |delays'| <= attempt && (proceed ==> |delays'| == attempt)
    ensures forall slept | old(world.sleeps) == slept + delays :: world.sleeps == slept + delays'
  {
    ghost var elapsed := world.now - start;
    ghost var delay;
    proceed, delay := Pause(world, policy, attempt, start + deadlineMs as real);
    delays' := delays;
    if delay.Some? {
      PacedExtended(policy, deadlineMs, delays, elapsed, delay.value, world.now - start);
      delays' := delays + [delay.value];
    }
  }

  // The loop may start its next attempt; everything before it may be retried.
  ghost predicate Going(operation: Operation, policy: RetryPolicy, attempt: int, retryGuardFailure: Option<AttemptFailure>)
    reads operation.Home()
  {
    var trials := operation.Trials();
    && 1 <= attempt <= policy.maxAttempts <= 3 && |trials| == attempt - 1
    && operation.Accounted()
    && (attempt > 1 ==>
          && RetryRun(trials, policy) && operation.Replied()
          && trials[attempt - 2].verdict.Failed? && trials[attempt - 2].verdict.failure.Eligible()
          && retryGuardFailure == Some(trials[attempt - 2].verdict.failure))
  }

  // The loop is over, with the verdict of the last attempt made.
  ghost predicate Over(operation: Operation, policy: RetryPolicy, end: LoopEnd)
    reads operation.Home()
  {
    && RetryRun(operation.Trials(), policy) && operation.Replied()
    && end == Ended(operation.Trials()[|operation.Trials()| - 1].verdict)
  }

  // The loop's guard and its attempt.
  method Turn(operation: Operation, world: World, policy: RetryPolicy, attempt: int, deadline: real,
              retryGuardFailure: Option<AttemptFailure>)
    returns (end: Option<LoopEnd>, failure: Option<AttemptFailure>)
    requires world == operation.TheWorld() && Going(operation, policy, attempt, retryGuardFailure)
    modifies operation.Home(), world
    ensures world.sleeps == old(world.sleeps) && world.now >= old(world.now)
    ensures |old(operation.Trials())| <= |operation.Trials()|
    ensures world.commits - Commits(operation.Trials()) == old(world.commits) - old(Commits(operation.Trials()))
    ensures end.Some? ==> Over(operation, policy, end.value) && attempt - 1 <= |operation.Trials()| <= attempt
    ensures end.None? ==> failure.Some? && attempt < policy.maxAttempts && Going(operation, policy, attempt + 1, failure)
  {
    end, failure := None, None;
    var now := world.Clock();
    var remaining := Milliseconds(deadline - now);
    if attempt > 1 && remaining < policy.minRemainingMs as real {
      if retryGuardFailure == None {
        end := Some(LostContext);
        return;
      }
      end := Some(Ended(Failed(retryGuardFailure.value)));
      return;
    }
    ghost var trials := operation.Trials();
    var verdict := operation.Invoke(attempt, remaining);
    RunExtended(trials, operation.Trials(), policy);
    if !verdict.Failed? || !verdict.failure.Eligible() || attempt >= policy.maxAttempts {
      end := Some(Ended(verdict));
    } else {
      failure := Some(verdict.failure);
    }
  }

  // `execute_with_retry`. `LostContext` is the RuntimeError of the loop's guard.
  method ExecuteWithRetry(operation: Operation, deadlineMs: int, policy: RetryPolicy)
    returns (end: LoopEnd, ghost delays: seq<real>)
    requires operation.Trials() == [] && operation.Accounted()
    modifies operation.Home(), operation.TheWorld()
    ensures end.InvalidPolicy? <==> !(1 <= policy.maxAttempts <= 3)
    ensures end.InvalidPolicy? ==>
      operation.Trials() == [] && delays == [] && operation.TheWorld().commits == old(operation.TheWorld().commits)
    ensures !end.InvalidPolicy? ==> Over(operation, policy, end)
    ensures operation.TheWorld().commits == old(operation.TheWorld().commits) + Commits(operation.Trials())
    ensures operation.TheWorld().sleeps == old(operation.TheWorld().sleeps) + delays
    ensures |operation.Trials()| - 1 <= |delays| <= |operation.Trials()|
    ensures delays != [] ==> Total(delays) <= deadlineMs as real - policy.minRemainingMs as real
    ensures Nonnegative(policy) ==> InBand(policy, delays)
  {
    if !(1 <= policy.maxAttempts <= 3) {
      return InvalidPolicy, [];
    }
    var world := operation.TheClock();
    end, delays := Loop(operation, world, deadlineMs, policy);
  }

  // One pass through the loop.
  method Round(operation: Operation, world: World, policy: RetryPolicy, attempt: int, start: real, deadlineMs: int,
               retryGuardFailure: Option<AttemptFailure>, ghost delays: seq<real>)
    returns (end: Option<LoopEnd>, failure: Option<AttemptFailure>, ghost delays': seq<real>)
    requires world == operation.TheWorld() && Going(operation, policy, attempt, retryGuardFailure)
    requires |delays| == attempt - 1 && Paced(policy, deadlineMs, delays, world.now - start)
    modifies operation.Home(), world
    ensures world.commits - Commits(operation.Trials()) == old(world.commits) - old(Commits(operation.Trials()))
    ensures forall slept | old(world.sleeps) == slept + delays :: world.sleeps == slept + delays'
    ensures Paced(policy, deadlineMs, delays', world.now - start)
    ensures end.Some? ==> Over(operation, policy, end.value) && |operation.Trials()| - 1 <= |delays'| <= |operation.Trials()|
    ensures end.None? ==> |delays'| == attempt < policy.maxAttempts && Going(operation, policy, attempt + 1, failure)
  {
    delays' := delays;
    end, failure := Turn(operation, world, policy, attempt, start + deadlineMs as real, retryGuardFailure);
    if end.Some? {
      PacedLater(policy, deadlineMs, delays, old(world.now) - start, world.now - start);
      return;
    }
    PacedLater(policy, deadlineMs, delays, old(world.now) - start, world.now - start);
    var proceed;
    proceed, delays' := PacedPause(world, policy, attempt, start, deadlineMs, delays);
    if !proceed {
      end := Some(Ended(Failed(failure.value)));
    }
  }

  lemma PacedLater(policy: RetryPolicy, deadlineMs: int, delays: seq<real>, elapsed: real, later: real)
    requires Paced(policy, deadlineMs, delays, elapsed) && elapsed <= later
    ensures Paced(policy, deadlineMs, delays, later)
  {
  }

  method Loop(operation: Operation, world: World, deadlineMs: int, policy: RetryPolicy)
    returns (end: LoopEnd, ghost delays: seq<real>)
    requires operation.Trials() == [] && operation.Accounted() && world == operation.TheWorld()
    requires 1 <= policy.maxAttempts <= 3
    modifies operation.Home(), world
    ensures Over(operation, policy, end)
    ensures world.commits == old(world.commits) + Commits(operation.Trials())
    ensures world.sleeps == old(world.sleeps) + delays
    ensures |operation.Trials()| - 1 <= |delays| <= |operation.Trials()|
    ensures delays != [] ==> Total(delays) <= deadlineMs as real - policy.minRemainingMs as real
    ensures Nonnegative(policy) ==> InBand(policy, delays)
  {
    delays := [];
    var start := world.Clock();
    var attempt := 1;
    var retryGuardFailure: Option<AttemptFailure> := None;
    while true
      invariant Going(operation, policy, attempt, retryGuardFailure)
      invariant |delays| == attempt - 1
      invariant world.commits == old(world.commits) + Commits(operation.Trials())
      invariant world.sleeps == old(world.sleeps) + delays
      invariant Paced(policy, deadlineMs, delays, world.now - start)
      decreases policy.maxAttempts - attempt
    {
      var over, failure;
      over, failure, delays := Round(operation, world, policy, attempt, start, deadlineMs, retryGuardFailure, delays);
      if over.Some? {
        return over.value, delays;
      }
      retryGuardFailure := failure;
      attempt := attempt + 1;
    }
  }
}
