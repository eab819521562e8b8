/** The OP-04 gateway (db/newsletter_gateway.py): one preference attempt over one connection. */
module NewsletterGateway {
  import opened Basics
  import opened Exceptions
  import opened Records
  import opened Driver
  import opened Decoding
  import opened Certainty

  // Unlike OP-05, a deadline that passes before dispatch is not retried.
  const TRANSIENT: set<Kind> := {InterfaceError, OperationalError, PoolTimeout}

  ghost predicate PreferenceStatements(statements: seq<Statement>, command: PreferenceCommand) {
    && |statements| <= 3
    && (|statements| >= 1 ==> statements[0] == Begin)
    && (|statements| >= 2 ==> statements[1].SetStatementTimeout? && statements[1].milliseconds >= 1)
    && (|statements| == 3 ==> statements[2] == Statement.SetPreference(command))
  }

  ghost function Answer(f: Facts): Option<PreferenceResult> {
    match f.rows
    case None => None
    case Some(rows) =>
      match DecodePreference(rows, 0.0, 0.0)
      case Decoded(r) => Some(r)
      case _ => None
  }

  // The routine is dispatched, and the commit sent, only on a clock reading that leaves at least
  // one millisecond before the deadline; and the commit only after the answer was decoded.
  ghost predicate Protocol(f: Facts, command: PreferenceCommand, timeoutMs: real) {
    && PreferenceStatements(f.statements, command)
    && f.queries == []
    && (f.dispatched <==> |f.statements| == 3)
    && (f.statements != [] ==> f.acquired)
    && (f.rows.Some? ==> f.dispatched)
    && (f.dispatched ==> f.startedAt + timeoutMs - f.readingAtDispatch >= 1.0)
    && (f.ending.CommitSent? ==>
          |f.statements| == 3 && Answer(f).Some? && f.startedAt + timeoutMs - f.readingAtCommit >= 1.0)
  }

  ghost predicate Uncertain(f: Facts) {
    || (f.ending.CommitSent? && !f.ending.acknowledged)
    || (f.dispatched && f.ending == RolledBack(false))
  }

  ghost predicate Reports(f: Facts, r: PreferenceResult) {
    && Acknowledged(f) && Answer(f).Some?
    && Timed(f, r.poolWaitMs, r.databaseMs)
    && PreferenceResultAccepted(r)
    && r == Answer(f).value.(poolWaitMs := r.poolWaitMs, databaseMs := r.databaseMs, cleanupFailed := CleanupTrouble(f))
  }

  ghost predicate Explains(f: Facts, cause: Failure, raised: Failure)
    reads raised
  {
    && raised.cleanupFailed == CleanupTrouble(f)
    && !Acknowledged(f)
    && Classifies(cause, raised, TRANSIENT, f.dispatched, KnownRolledBack(f))
    && (f.ending.RolledBack? ==> cause == f.primary)
    && (raised != cause || !raised.kind.ContractError? ==> Timed(f, raised.poolWaitMs, raised.databaseMs))
  }

  ghost predicate Decided(f: Facts, unsafeDisposalFailed: bool, pending: Failure?, cause: Failure?, completed: Option<PreferenceResult>)
    reads pending
  {
    && f.acquired
    && (if Uncertain(f) then f.disposal == [Closed(!unsafeDisposalFailed)] else f.disposal == [] && !unsafeDisposalFailed)
    && (pending == null ==> completed.Some? && Reports(f, completed.value))
    && (pending != null ==> cause != null && Explains(f, cause, pending))
  }

  class Gateway {
    const world: World
    const acquireTimeoutMs: real

    constructor (world: World, acquireTimeoutMs: real)
      ensures this.world == world && this.acquireTimeoutMs == acquireTimeoutMs
    {
      this.world, this.acquireTimeoutMs := world, acquireTimeoutMs;
    }

    // The statements of the mutation, run on an open cursor.
    method Run(command: PreferenceCommand, remainingMs: int, deadline: real, started: real, acquired: real)
      returns (error: Failure?, dispatched: bool, result: Option<PreferenceResult>)
      requires remainingMs >= 1
      requires world.facts.statements == [] && !world.facts.dispatched && world.facts.rows.None?
      modifies world
      ensures world.commits == old(world.commits) && world.sleeps == old(world.sleeps) && world.now >= old(world.now)
      ensures world.facts == old(world.facts).(latest := world.facts.latest, statements := world.facts.statements,
                dispatched := dispatched, readingAtDispatch := world.facts.readingAtDispatch, rows := world.facts.rows)
      ensures PreferenceStatements(world.facts.statements, command)
      ensures dispatched <==> |world.facts.statements| == 3
      ensures dispatched ==> deadline - world.facts.readingAtDispatch >= 1.0
      ensures world.facts.rows.Some? ==> dispatched
      ensures error != null ==> fresh(error) && !error.cleanupFailed && (IsRaw(error.kind) || error.kind.ContractError?)
      ensures error == null ==>
        && dispatched && result.Some? && Answer(world.facts).Some? && deadline - world.facts.latest >= 1.0
        && result.value == Answer(world.facts).value.(poolWaitMs := Milliseconds(acquired - started), databaseMs := result.value.databaseMs)
    {
      dispatched, result := false, None;
      error := world.Execute(Begin);
      if error != null { return; }
      error := world.Execute(SetStatementTimeout(remainingMs));
      if error != null { return; }
      var now := world.Clock();
      if deadline - now < 1.0 {
        error := new Failure.Raise(TimeoutError, None);
        return;
      }
      dispatched := true;
      error := world.Execute(Statement.SetPreference(command));
      if error != null { return; }
      var rows;
      rows, error := world.FetchAll();
      if error != null { return; }
      error, result := Interpret(rows, deadline, started, acquired);
    }

    // Decoding, and the last look at the clock before the commit.
    method Interpret(rows: seq<Row>, deadline: real, started: real, acquired: real)
      returns (error: Failure?, result: Option<PreferenceResult>)
      modifies world
      ensures world.commits == old(world.commits) && world.sleeps == old(world.sleeps) && world.now >= old(world.now)
      ensures world.facts == old(world.facts).(latest := world.facts.latest)
      ensures error != null ==> fresh(error) && !error.cleanupFailed && (IsRaw(error.kind) || error.kind.ContractError?)
      ensures error == null ==>
        && result.Some? && deadline - world.facts.latest >= 1.0
        && result.value.databaseMs >= 0.0
        && DecodePreference(rows, 0.0, 0.0).Decoded?
        && result.value == DecodePreference(rows, 0.0, 0.0).result.(poolWaitMs := Milliseconds(acquired - started), databaseMs := result.value.databaseMs)
    {
      error, result := null, None;
      var now := world.Clock();
      var poolWaitMs, databaseMs := Milliseconds(acquired - started), Milliseconds(now - acquired);
      var decoding := DecodePreference(rows, poolWaitMs, databaseMs);
      DecodePreferenceTimes(rows, poolWaitMs, databaseMs);
      if !decoding.Decoded? {
        error := new Failure.Contract(poolWaitMs, databaseMs, false);
        return;
      }
      result := Some(decoding.result);
      now := world.Clock();
      if deadline - now < 1.0 {
        error := new Failure.Raise(TimeoutError, None);
      }
    }

    // The body of the mutation's `with connection` block.
    method Body(command: PreferenceCommand, deadline: real, started: real, acquired: real)
      returns (error: Failure?, dispatched: bool, result: Option<PreferenceResult>)
      requires world.facts.statements == [] && !world.facts.dispatched && world.facts.rows.None?
      modifies world
      ensures world.commits == old(world.commits) && world.sleeps == old(world.sleeps) && world.now >= old(world.now)
      ensures world.facts == old(world.facts).(latest := world.facts.latest, statements := world.facts.statements,
                dispatched := dispatched, readingAtDispatch := world.facts.readingAtDispatch, rows := world.facts.rows)
      ensures PreferenceStatements(world.facts.statements, command)
      ensures dispatched <==> |world.facts.statements| == 3
      ensures dispatched ==> deadline - world.facts.readingAtDispatch >= 1.0
      ensures world.facts.rows.Some? ==> dispatched
      ensures error != null ==> fresh(error) && !error.cleanupFailed && (IsRaw(error.kind) || error.kind.ContractError?)
      ensures error == null ==>
        && dispatched && result.Some? && Answer(world.facts).Some? && deadline - world.facts.latest >= 1.0
        && result.value == Answer(world.facts).value.(poolWaitMs := Milliseconds(acquired - started), databaseMs := result.value.databaseMs)
    {
      dispatched, result := false, None;
      var now := world.Clock();
      var remainingMs := Trunc(deadline - now);
      if remainingMs < 1 {
        error := new Failure.Raise(TimeoutError, None);
        return;
      }
      error := world.Attempt();  // connection.cursor()
      if error != null { return; }
      error, dispatched, result := Run(command, remainingMs, deadline, started, acquired);
      var exit := world.Attempt();  // the cursor's own exit may replace the exception
      if exit != null {
        error := exit;
      }
    }

    // The `with connection` block.
    method Mutate(command: PreferenceCommand, deadline: real, started: real, acquired: real)
      returns (contextError: Failure?, primaryError: Failure?, dispatched: bool, bodyCompleted: bool, result: Option<PreferenceResult>)
      requires world.facts == Untouched.(startedAt := started, latest := acquired, acquiredAt := Some(acquired), acquired := true)
      modifies world
      ensures world.sleeps == old(world.sleeps) && world.now >= old(world.now)
      ensures world.facts == old(world.facts).(latest := world.facts.latest, statements := world.facts.statements,
                dispatched := dispatched, readingAtDispatch := world.facts.readingAtDispatch, rows := world.facts.rows,
                ending := world.facts.ending, primary := world.facts.primary, readingAtCommit := world.facts.readingAtCommit)
      ensures Protocol(world.facts, command, deadline - started)
      ensures world.commits == old(world.commits) + (if Applied(world.facts) then 1 else 0)
      ensures Acknowledged(world.facts) ==> Applied(world.facts)
      ensures bodyCompleted <==> world.facts.ending.CommitSent?
      ensures contextError == null <==> Acknowledged(world.facts)
      ensures contextError == null ==>
        && result.Some? && Answer(world.facts).Some?
        && result.value == Answer(world.facts).value.(poolWaitMs := Milliseconds(acquired - started), databaseMs := result.value.databaseMs)
      ensures bodyCompleted ==> primaryError == null
      ensures primaryError != null ==> fresh(primaryError) && !primaryError.cleanupFailed && (IsRaw(primaryError.kind) || primaryError.kind.ContractError?)
      ensures contextError != null ==> fresh(contextError) && !contextError.cleanupFailed && (contextError == primaryError || IsRaw(contextError.kind))
      ensures contextError != null && !bodyCompleted ==>
        (KnownRolledBack(world.facts) <==> primaryError == null || contextError == primaryError)
      ensures contextError != null && !bodyCompleted && !KnownRolledBack(world.facts) ==> world.facts.ending == RolledBack(false)
      ensures primaryError == null && !bodyCompleted ==> world.facts.ending.Open?
      ensures world.facts.ending.RolledBack? ==> primaryError == world.facts.primary
    {
      primaryError, dispatched, bodyCompleted, result := null, false, false, None;
      contextError := world.Attempt();  // entering the block
      if contextError == null {
        primaryError, dispatched, result := Body(command, deadline, started, acquired);
        if primaryError == null {
          bodyCompleted := true;
          ghost var applied;
          contextError, applied := world.ExitNormally();
        } else {
          contextError := world.ExitRaising(primaryError);
        }
      }
    }

    // The handler of an exception that left the `with connection` block.
    method Handle(contextError: Failure, primary: Failure?, dispatched: bool, bodyCompleted: bool, started: real, acquired: real)
      returns (pendingError: Failure, primaryError: Failure, unsafeDisposalFailed: bool)
      requires var f := world.facts;
        && f.acquired && f.startedAt == started && f.acquiredAt == Some(acquired) && f.disposal == []
        && f.dispatched == dispatched && (bodyCompleted <==> f.ending.CommitSent?) && !Acknowledged(f)
        && (bodyCompleted ==> primary == null)
        && (f.ending.RolledBack? ==> primary != null && primary == f.primary)
        && (!bodyCompleted ==> (KnownRolledBack(f) <==> primary == null || contextError == primary))
      requires !contextError.cleanupFailed && (primary != null ==> !primary.cleanupFailed)
      modifies world, contextError, primary
      ensures world.commits == old(world.commits) && world.sleeps == old(world.sleeps) && world.now >= old(world.now)
      ensures world.facts == old(world.facts).(latest := world.facts.latest, disposal := world.facts.disposal)
      ensures Decided(world.facts, unsafeDisposalFailed, pendingError, primaryError, None)
      ensures pendingError in {contextError, primary} || fresh(pendingError)
    {
      primaryError := if primary == null then contextError else primary;
      unsafeDisposalFailed := false;
      var rollbackConfirmed := !bodyCompleted && contextError == primaryError;
      var cleanupFailed := !bodyCompleted && contextError != primaryError;
      if bodyCompleted || (dispatched && !rollbackConfirmed) {
        unsafeDisposalFailed := world.CloseUnsafe();
        cleanupFailed := cleanupFailed || unsafeDisposalFailed;
      }
      var now := world.Clock();
      pendingError := Classify(primaryError, TRANSIENT, dispatched, rollbackConfirmed, cleanupFailed,
                               Milliseconds(acquired - started), Milliseconds(now - acquired));
    }

    // The `finally` clause.
    method GiveBack(unsafeDisposalFailed: bool, pendingError: Failure?, ghost cause: Failure?, completed: Option<PreferenceResult>)
      returns (result: Option<PreferenceResult>)
      requires Decided(world.facts, unsafeDisposalFailed, pendingError, cause, completed)
      modifies world, pendingError
      ensures world.commits == old(world.commits) && world.sleeps == old(world.sleeps) && world.now == old(world.now)
      ensures world.facts == old(world.facts).(disposal := world.facts.disposal)
      ensures Disposed(world.facts, Uncertain(world.facts))
      ensures pendingError == null ==> result.Some? && Reports(world.facts, result.value)
      ensures pendingError != null ==> Explains(world.facts, cause, pendingError)
    {
      result := completed;
      if unsafeDisposalFailed {
        if pendingError != null {
          pendingError.cleanupFailed := true;
        }
      } else {
        var refused := world.PutConn();
        if refused {
          var _ := world.CloseUnsafe();
          if pendingError != null {
            pendingError.cleanupFailed := true;
          } else {
            result := Some(result.value.(cleanupFailed := true));
          }
        }
      }
    }

    // Returns a result, or raises `raised` from `cause`.
    method SetPreference(command: PreferenceCommand, timeoutMs: Option<real>)
      returns (result: Option<PreferenceResult>, raised: Failure?, cause: Failure?)
      modifies world
      ensures world.sleeps == old(world.sleeps) && world.now >= old(world.now)
      ensures Protocol(world.facts, command, if timeoutMs.Some? then timeoutMs.value else acquireTimeoutMs)
      ensures Disposed(world.facts, Uncertain(world.facts))
      ensures world.commits == old(world.commits) + (if Applied(world.facts) then 1 else 0)
      ensures Acknowledged(world.facts) ==> Applied(world.facts)
      ensures raised == null <==> result.Some?
      ensures raised == null ==> Reports(world.facts, result.value)
      ensures raised != null ==> fresh(raised) && cause != null && Explains(world.facts, cause, raised)
    {
      result, raised, cause := None, null, null;
      var started := world.Start();
      var deadline := started + (if timeoutMs.Some? then timeoutMs.value else acquireTimeoutMs);
      var now := world.Clock();
      var remaining := deadline - now;
      if remaining <= 0.0 {
        cause := new Failure.Raise(TimeoutError, None);
      } else {
        cause := world.GetConn(if acquireTimeoutMs < remaining then acquireTimeoutMs else remaining);
      }
      if cause != null {
        now := world.Clock();
        raised := Classify(cause, TRANSIENT, false, true, false, Milliseconds(now - started), 0.0);
        return;
      }
      var acquired := world.ClockOnAcquisition();
      result, raised, cause := SetPreferenceOn(command, deadline, started, acquired);
    }

    // The rest of `SetPreference`, once a connection is acquired.
    method SetPreferenceOn(command: PreferenceCommand, deadline: real, started: real, acquired: real)
      returns (result: Option<PreferenceResult>, raised: Failure?, cause: Failure?)
      requires world.facts == Untouched.(startedAt := started, latest := acquired, acquiredAt := Some(acquired), acquired := true)
      modifies world
      ensures world.sleeps == old(world.sleeps) && world.now >= old(world.now)
      ensures world.facts.startedAt == started
      ensures Protocol(world.facts, command, deadline - started)
      ensures Disposed(world.facts, Uncertain(world.facts))
      ensures world.commits == old(world.commits) + (if Applied(world.facts) then 1 else 0)
      ensures Acknowledged(world.facts) ==> Applied(world.facts)
      ensures raised == null <==> result.Some?
      ensures raised == null ==> Reports(world.facts, result.value)
      ensures raised != null ==> fresh(raised) && cause != null && Explains(world.facts, cause, raised)
    {
      var unsafeDisposalFailed := false;
      raised := null;
      var contextError, primaryError, dispatched, bodyCompleted, completed := Mutate(command, deadline, started, acquired);
      if contextError != null {
        raised, cause, unsafeDisposalFailed := Handle(contextError, primaryError, dispatched, bodyCompleted, started, acquired);
        completed := None;
      } else {
        var now := world.Clock();
        cause := null;
        completed := Some(completed.value.(databaseMs := Milliseconds(now - acquired)));
      }
      result := GiveBack(unsafeDisposalFailed, raised, cause, completed);
      if raised != null {
        result := None;
      }
    }
  }
}
