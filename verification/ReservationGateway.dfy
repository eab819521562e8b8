/** The OP-05 gateway (db/reservation_gateway.py): one booking attempt over one connection. */
module ReservationGateway {
  import opened Basics
  import opened Exceptions
  import opened Records
  import opened Driver
  import opened Decoding
  import opened Certainty

  const TRANSIENT: set<Kind> := {InterfaceError, OperationalError, PoolTimeout, TimeoutError}

  ghost predicate BookingStatements(statements: seq<Statement>, command: ReservationCommand) {
    && |statements| <= 3
    && (|statements| >= 1 ==> statements[0] == Begin)
    && (|statements| >= 2 ==> statements[1].SetStatementTimeout? && statements[1].milliseconds >= 1)
    && (|statements| == 3 ==> statements[2] == BookReservation(command))
  }

  ghost predicate ConfirmationStatements(queries: seq<Statement>, command: ReservationCommand) {
    && |queries| <= 3
    && (|queries| >= 1 ==> queries[0] == SetReadOnly)
    && (|queries| >= 2 ==> queries[1].SetStatementTimeout? && queries[1].milliseconds >= 1)
    && (|queries| == 3 ==> queries[2] == ReadConfirmation(command.email))
  }

  // The routine's answer, as far as it can be decoded.
  ghost function Answer(f: Facts): Option<BookingResult> {
    match f.rows
    case None => None
    case Some(rows) =>
      match DecodeBooking(rows, 0.0, 0.0)
      case Decoded(r) => Some(r)
      case _ => None
  }

  ghost predicate Booked(f: Facts) {
    Acknowledged(f) && Answer(f).Some? && Answer(f).value.outcome.Success()
  }

  ghost function Confirmation(f: Facts, zones: set<string>): Option<(string, string)> {
    if f.readEnded && f.readRows.Some? then ConfirmationFacts(f.readRows.value, zones) else None
  }

  // The connection cannot be trusted: its commit was not acknowledged, its rollback failed after
  // the routine was dispatched, or the confirmation read broke off.
  ghost predicate Uncertain(f: Facts, zones: set<string>) {
    || (f.ending.CommitSent? && !f.ending.acknowledged)
    || (f.dispatched && f.ending == RolledBack(false))
    || (Booked(f) && Confirmation(f, zones).None?)
  }

  // The statements of an attempt follow the protocol, and a commit is sent only after the whole
  // of it ran and its answer was decoded.
  ghost predicate Protocol(f: Facts, command: ReservationCommand) {
    && BookingStatements(f.statements, command)
    && ConfirmationStatements(f.queries, command)
    && (f.dispatched <==> |f.statements| == 3)
    && (f.statements != [] ==> f.acquired)
    && (f.rows.Some? ==> f.dispatched)
    && (f.ending.CommitSent? ==> |f.statements| == 3 && Answer(f).Some?)
    && (f.queries != [] ==> Booked(f))
    && (f.readEnded ==> |f.queries| == 3)
  }

  // A normal return: the acknowledged answer, completed by the confirmation read when the
  // reservation exists.
  ghost predicate Reports(f: Facts, zones: set<string>, r: BookingResult) {
    && Acknowledged(f) && Answer(f).Some?
    && (Booked(f) ==> Confirmation(f, zones).Some?)
    && Timed(f, r.poolWaitMs, r.databaseMs)
    && BookingResultAccepted(r)
    && r == Answer(f).value.(
         customerName := if Booked(f) then Some(Confirmation(f, zones).value.0) else None,
         restaurantTimezone := if Booked(f) then Some(Confirmation(f, zones).value.1) else None,
         poolWaitMs := r.poolWaitMs, databaseMs := r.databaseMs, cleanupFailed := CleanupTrouble(f))
  }

  lemma ReportedZoneIsKnown(f: Facts, zones: set<string>, r: BookingResult)
    requires Reports(f, zones, r) && r.outcome.Success()
    ensures r.customerName.Some? && r.restaurantTimezone.Some? && r.restaurantTimezone.value in zones
  {
  }

  // A raised failure is a confirmation failure exactly when the reservation is known to exist;
  // otherwise it is the classification of its cause.
  ghost predicate Explains(f: Facts, zones: set<string>, cause: Failure, raised: Failure)
    reads raised
  {
    raised.cleanupFailed == CleanupTrouble(f) && ExplainsCause(f, zones, cause, raised)
  }

  // All but the clean-up flag, which is the only field that changes.
  ghost predicate ExplainsCause(f: Facts, zones: set<string>, cause: Failure, raised: Failure) {
    && (Acknowledged(f) ==> Booked(f) && Confirmation(f, zones).None? && raised.kind.ConfirmationFailure?)
    && (!Acknowledged(f) ==> Classifies(cause, raised, TRANSIENT, f.dispatched, KnownRolledBack(f)))
    && (f.ending.RolledBack? ==> cause == f.primary)
    && (raised != cause || !raised.kind.ContractError? ==> Timed(f, raised.poolWaitMs, raised.databaseMs))
  }

  // Giving the connection back does not change what happened before.
  lemma DisposalIsLast(f: Facts, d: seq<Disposal>, zones: set<string>)
    ensures var f' := f.(disposal := d);
      && Uncertain(f', zones) == Uncertain(f, zones)
      && (forall cause, raised :: ExplainsCause(f, zones, cause, raised) ==> ExplainsCause(f', zones, cause, raised))
      && (forall r, r' :: Reports(f, zones, r) && r' == r.(cleanupFailed := CleanupTrouble(f')) ==> Reports(f', zones, r'))
  {
  }

  // The attempt is decided; only the `finally` clause is left.
  ghost predicate Decided(f: Facts, zones: set<string>, unsafeDisposalFailed: bool,
                          pending: Failure?, cause: Failure?, completed: Option<BookingResult>)
    reads pending
  {
    && f.acquired
    && (if Uncertain(f, zones) then f.disposal == [Closed(!unsafeDisposalFailed)]
        else f.disposal == [] && !unsafeDisposalFailed)
    && (pending == null ==> completed.Some? && Reports(f, zones, completed.value))
    && (pending != null ==> cause != null && Explains(f, zones, cause, pending))
  }

  class Gateway {
    const world: World
    const acquireTimeoutMs: real

    constructor (world: World, acquireTimeoutMs: real)
      ensures this.world == world && this.acquireTimeoutMs == acquireTimeoutMs
    {
      this.world, this.acquireTimeoutMs := world, acquireTimeoutMs;
    }

    // The statements of the mutation, run on an open cursor.
    method Run(command: ReservationCommand, remainingMs: int, started: real, acquired: real)
      returns (error: Failure?, dispatched: bool, result: Option<BookingResult>)
      requires remainingMs >= 1
      requires world.facts.statements == [] && !world.facts.dispatched && world.facts.rows.None?
      modifies world
      ensures world.commits == old(world.commits) && world.sleeps == old(world.sleeps) && world.now >= old(world.now)
      ensures world.facts == old(world.facts).(latest := world.facts.latest, statements := world.facts.statements,
                dispatched := dispatched, readingAtDispatch := world.facts.readingAtDispatch, rows := world.facts.rows)
      ensures BookingStatements(world.facts.statements, command)
      ensures dispatched <==> |world.facts.statements| == 3
      ensures world.facts.rows.Some? ==> dispatched
      ensures error != null ==> fresh(error) && !error.cleanupFailed && (IsRaw(error.kind) || error.kind.ContractError?)
      ensures error == null ==>
        && dispatched && result.Some? && Answer(world.facts).Some?
        && result.value.databaseMs >= 0.0
        && result.value == Answer(world.facts).value.(poolWaitMs := Milliseconds(acquired - started), databaseMs := result.value.databaseMs)
    {
      dispatched, result := false, None;
      error := world.Execute(Begin);
      if error != null { return; }
      error := world.Execute(SetStatementTimeout(remainingMs));
      if error != null { return; }
      dispatched := true;
      error := world.Execute(BookReservation(command));
      if error != null { return; }
      var rows;
      rows, error := world.FetchAll();
      if error != null { return; }
      error, result := Interpret(rows, started, acquired);
    }

    method Interpret(rows: seq<Row>, started: real, acquired: real) returns (error: Failure?, result: Option<BookingResult>)
      modifies world
      ensures world.commits == old(world.commits) && world.sleeps == old(world.sleeps) && world.now >= old(world.now)
      ensures world.facts == old(world.facts).(latest := world.facts.latest)
      ensures error != null ==> fresh(error) && !error.cleanupFailed && (IsRaw(error.kind) || error.kind.ContractError?)
      ensures error == null ==>
        && result.Some? && DecodeBooking(rows, 0.0, 0.0).Decoded? && result.value.databaseMs >= 0.0
        && result.value == DecodeBooking(rows, 0.0, 0.0).result.(poolWaitMs := Milliseconds(acquired - started), databaseMs := result.value.databaseMs)
    {
      error, result := null, None;
      var now := world.Clock();
      var poolWaitMs, databaseMs := Milliseconds(acquired - started), Milliseconds(now - acquired);
      var decoding := DecodeBooking(rows, poolWaitMs, databaseMs);
      if decoding.Decoded? {
        result := Some(decoding.result);
      } else if decoding.Defect? {
        error := new Failure.Contract(poolWaitMs, databaseMs, false);
      } else {
        error := new Failure.Raise(OtherError, None);
      }
    }

    // The body of the mutation's `with connection` block.
    method Body(command: ReservationCommand, deadline: real, started: real, acquired: real)
      returns (error: Failure?, dispatched: bool, result: Option<BookingResult>)
      requires world.facts.statements == [] && !world.facts.dispatched && world.facts.rows.None?
      modifies world
      ensures world.commits == old(world.commits) && world.sleeps == old(world.sleeps) && world.now >= old(world.now)
      ensures world.facts == old(world.facts).(latest := world.facts.latest, statements := world.facts.statements,
                dispatched := dispatched, readingAtDispatch := world.facts.readingAtDispatch, rows := world.facts.rows)
      ensures BookingStatements(world.facts.statements, command)
      ensures dispatched <==> |world.facts.statements| == 3
      ensures world.facts.rows.Some? ==> dispatched
      ensures error != null ==> fresh(error) && !error.cleanupFailed && (IsRaw(error.kind) || error.kind.ContractError?)
      ensures error == null ==>
        && dispatched && result.Some? && Answer(world.facts).Some?
        && result.value.databaseMs >= 0.0
        && result.value == Answer(world.facts).value.(poolWaitMs := Milliseconds(acquired - started), databaseMs := result.value.databaseMs)
    {
      dispatched, result := false, None;
      var now := world.Clock();
      var remainingMs := Trunc(deadline - now);
      if remainingMs < 1 {
        error := new Failure.Raise(TimeoutError, None);
        return;
      }
      error := world.Attempt();  // connection.cursor()
      if error != null { return; }
      error, dispatched, result := Run(command, remainingMs, started, acquired);
      var exit := world.Attempt();  // the cursor's own exit may replace the exception
      if exit != null {
        error := exit;
      }
    }

    // The separate read of the stored name and the time zone.
    method Confirm(command: ReservationCommand, deadline: real) returns (error: Failure?, confirmed: Option<(string, string)>)
      requires world.facts.queries == [] && world.facts.readRows.None? && !world.facts.readEnded
      modifies world
      ensures world.commits == old(world.commits) && world.sleeps == old(world.sleeps)
      ensures world.facts == old(world.facts).(latest := world.facts.latest, queries := world.facts.queries,
                readRows := world.facts.readRows, readEnded := world.facts.readEnded)
      ensures world.now >= old(world.now)
      ensures ConfirmationStatements(world.facts.queries, command)
      ensures world.facts.readEnded ==> |world.facts.queries| == 3
      ensures error != null ==> fresh(error) && IsRaw(error.kind) && !error.cleanupFailed
      ensures error == null <==> Confirmation(world.facts, world.zones).Some?
      ensures error == null ==> confirmed == Confirmation(world.facts, world.zones)
    {
      confirmed := None;
      var now := world.Clock();
      var remainingMs := Trunc(deadline - now);
      if remainingMs < 1 {
        error := new Failure.Raise(TimeoutError, None);
        return;
      }
      error := world.Attempt();  // connection.transaction() and connection.cursor()
      if error != null { return; }
      error := world.ExecuteRead(SetReadOnly);
      if error == null {
        error := world.ExecuteRead(SetStatementTimeout(remainingMs));
      }
      if error == null {
        error := world.ExecuteRead(ReadConfirmation(command.email));
      }
      if error != null { return; }
      error, confirmed := FetchFacts();
    }

    // The answer of the confirmation read, and the end of its transaction.
    method FetchFacts() returns (error: Failure?, confirmed: Option<(string, string)>)
      requires world.facts.readRows.None? && !world.facts.readEnded
      modifies world
      ensures world.commits == old(world.commits) && world.sleeps == old(world.sleeps) && world.now == old(world.now)
      ensures world.facts == old(world.facts).(readRows := world.facts.readRows, readEnded := world.facts.readEnded)
      ensures error != null ==> fresh(error) && IsRaw(error.kind) && !error.cleanupFailed
      ensures error == null <==> Confirmation(world.facts, world.zones).Some?
      ensures error == null ==> confirmed == Confirmation(world.facts, world.zones)
    {
      confirmed := None;
      var rows;
      rows, error := world.FetchRead();
      if error != null { return; }
      var facts := ConfirmationFacts(rows, world.zones);
      if facts == None {
        error := new Failure.Raise(OtherError, None);
        return;
      }
      error := world.EndRead();
      if error == null {
        confirmed := facts;
      }
    }

    // The `with connection` block.
    method Mutate(command: ReservationCommand, deadline: real, started: real, acquired: real)
      returns (contextError: Failure?, primaryError: Failure?, dispatched: bool, bodyCompleted: bool, result: Option<BookingResult>)
      requires world.facts == Untouched.(startedAt := started, latest := acquired, acquiredAt := Some(acquired), acquired := true)
      modifies world
      ensures world.sleeps == old(world.sleeps) && world.now >= old(world.now)
      ensures world.facts == old(world.facts).(latest := world.facts.latest, statements := world.facts.statements,
                dispatched := dispatched, readingAtDispatch := world.facts.readingAtDispatch, rows := world.facts.rows,
                ending := world.facts.ending, primary := world.facts.primary, readingAtCommit := world.facts.readingAtCommit)
      ensures Protocol(world.facts, command)
      ensures world.commits == old(world.commits) + (if Applied(world.facts) then 1 else 0)
      ensures Acknowledged(world.facts) ==> Applied(world.facts)
      ensures bodyCompleted <==> world.facts.ending.CommitSent?
      ensures contextError == null <==> Acknowledged(world.facts)
      ensures contextError == null ==>
        && result.Some? && Answer(world.facts).Some? && result.value.databaseMs >= 0.0
        && result.value == Answer(world.facts).value.(poolWaitMs := Milliseconds(acquired - started), databaseMs := result.value.databaseMs)
      ensures bodyCompleted ==> primaryError == null
      ensures primaryError != null ==> fresh(primaryError) && !primaryError.cleanupFailed && (IsRaw(primaryError.kind) || primaryError.kind.ContractError?)
      ensures contextError != null ==> fresh(contextError) && !contextError.cleanupFailed && (contextError == primaryError || IsRaw(contextError.kind))
      ensures contextError != null && !bodyCompleted ==>
        (KnownRolledBack(world.facts) <==> primaryError == null || contextError == primaryError)
      ensures contextError != null && !bodyCompleted && !KnownRolledBack(world.facts) ==> world.facts.ending == RolledBack(false)
      ensures primaryError == null && !bodyCompleted ==> world.facts.ending.Open?
      ensures world.facts.ending.RolledBack? ==> primaryError == world.facts.primary
    {
      primaryError, dispatched, bodyCompleted, result := null, false, false, None;
      contextError := world.Attempt();  // entering the block
      if contextError == null {
        primaryError, dispatched, result := Body(command, deadline, started, acquired);
        if primaryError == null {
          bodyCompleted := true;
          ghost var applied;
          contextError, applied := world.ExitNormally();
        } else {
          contextError := world.ExitRaising(primaryError);
        }
      }
    }

    // The handler of an exception that left the `with connection` block.
    method Handle(contextError: Failure, primary: Failure?, dispatched: bool, bodyCompleted: bool, started: real, acquired: real)
      returns (pendingError: Failure, primaryError: Failure, unsafeDisposalFailed: bool)
      requires var f := world.facts;
        && f.acquired && f.startedAt == started && f.acquiredAt == Some(acquired) && f.disposal == []
        && f.dispatched == dispatched && (bodyCompleted <==> f.ending.CommitSent?) && !Acknowledged(f)
        && (bodyCompleted ==> primary == null)
        && (f.ending.RolledBack? ==> primary != null && primary == f.primary)
        && (!bodyCompleted ==> (KnownRolledBack(f) <==> primary == null || contextError == primary))
      requires !contextError.cleanupFailed && (primary != null ==> !primary.cleanupFailed)
      modifies world, contextError, primary
      ensures world.commits == old(world.commits) && world.sleeps == old(world.sleeps) && world.now >= old(world.now)
      ensures world.facts == old(world.facts).(latest := world.facts.latest, disposal := world.facts.disposal)
      ensures Decided(world.facts, world.zones, unsafeDisposalFailed, pendingError, primaryError, None)
      ensures pendingError in {contextError, primary} || fresh(pendingError)
    {
      primaryError := if primary == null then contextError else primary;
      unsafeDisposalFailed := false;
      var rollbackConfirmed := !bodyCompleted && contextError == primaryError;
      var cleanupFailed := !bodyCompleted && contextError != primaryError;
      if bodyCompleted || (dispatched && !rollbackConfirmed) {
        unsafeDisposalFailed := world.CloseUnsafe();
        cleanupFailed := cleanupFailed || unsafeDisposalFailed;
      }
      var now := world.Clock();
      pendingError := Classify(primaryError, TRANSIENT, dispatched, rollbackConfirmed, cleanupFailed,
                               Milliseconds(acquired - started), Milliseconds(now - acquired));
    }

    // After an acknowledged commit: the confirmation read, when the answer is a reservation.
    method Complete(command: ReservationCommand, deadline: real, started: real, acquired: real, answer: BookingResult)
      returns (pendingError: Failure?, primaryError: Failure?, unsafeDisposalFailed: bool, completed: Option<BookingResult>)
      requires var f := world.facts;
        && Protocol(f, command)
        && f.acquired && f.startedAt == started && f.acquiredAt == Some(acquired) && f.disposal == []
        && f.queries == [] && f.readRows.None? && !f.readEnded
        && Acknowledged(f) && Answer(f).Some? && answer.databaseMs >= 0.0
        && answer == Answer(f).value.(poolWaitMs := Milliseconds(acquired - started), databaseMs := answer.databaseMs)
      modifies world
      ensures world.commits == old(world.commits) && world.sleeps == old(world.sleeps) && world.now >= old(world.now)
      ensures world.facts == old(world.facts).(latest := world.facts.latest, disposal := world.facts.disposal,
                queries := world.facts.queries, readRows := world.facts.readRows, readEnded := world.facts.readEnded)
      ensures Protocol(world.facts, command)
      ensures Decided(world.facts, world.zones, unsafeDisposalFailed, pendingError, primaryError, completed)
      ensures pendingError != null ==> fresh(pendingError)
    {
      pendingError, primaryError, unsafeDisposalFailed, completed := null, null, false, None;
      if answer.outcome.Success() {
        var error, confirmed := Confirm(command, deadline);
        if error == null {
          var now := world.Clock();
          completed := Some(answer.(customerName := Some(confirmed.value.0), restaurantTimezone := Some(confirmed.value.1),
                                    databaseMs := Milliseconds(now - acquired)));
        } else {
          primaryError := error;
          unsafeDisposalFailed := world.CloseUnsafe();
          var now := world.Clock();
          pendingError := new Failure.Confirmation(Milliseconds(acquired - started), Milliseconds(now - acquired), unsafeDisposalFailed);
        }
      } else {
        var now := world.Clock();
        completed := Some(answer.(databaseMs := Milliseconds(now - acquired)));
      }
    }

    // The `finally` clause.
    method GiveBack(unsafeDisposalFailed: bool, pendingError: Failure?, ghost cause: Failure?, completed: Option<BookingResult>)
      returns (result: Option<BookingResult>)
      requires Decided(world.facts, world.zones, unsafeDisposalFailed, pendingError, cause, completed)
      modifies world, pendingError
      ensures world.commits == old(world.commits) && world.sleeps == old(world.sleeps) && world.now == old(world.now)
      ensures world.facts == old(world.facts).(disposal := world.facts.disposal)
      ensures Disposed(world.facts, Uncertain(world.facts, world.zones))
      ensures pendingError == null ==> result.Some? && Reports(world.facts, world.zones, result.value)
      ensures pendingError != null ==> Explains(world.facts, world.zones, cause, pendingError)
    {
      result := completed;
      ghost var f := world.facts;
      if !unsafeDisposalFailed {
        var refused := world.PutConn();
        DisposalIsLast(f, world.facts.disposal, world.zones);
        if refused {
          var _ := world.CloseUnsafe();
          DisposalIsLast(f, world.facts.disposal, world.zones);
          if pendingError != null {
            pendingError.cleanupFailed := true;
          } else {
            result := Some(result.value.(cleanupFailed := true));
          }
        }
      }
    }

    // Returns a result, or raises `raised` from `cause`.
    method Book(command: ReservationCommand, timeoutMs: Option<real>)
      returns (result: Option<BookingResult>, raised: Failure?, cause: Failure?)
      modifies world
      ensures world.sleeps == old(world.sleeps) && world.now >= old(world.now)
      ensures Protocol(world.facts, command)
      ensures Disposed(world.facts, Uncertain(world.facts, world.zones))
      ensures world.commits == old(world.commits) + (if Applied(world.facts) then 1 else 0)
      ensures Acknowledged(world.facts) ==> Applied(world.facts)
      ensures raised == null <==> result.Some?
      ensures raised == null ==> Reports(world.facts, world.zones, result.value)
      ensures raised != null ==> fresh(raised) && cause != null && Explains(world.facts, world.zones, cause, raised)
    {
      result, raised, cause := None, null, null;
      var started := world.Start();
      var deadline := started + (if timeoutMs.Some? then timeoutMs.value else acquireTimeoutMs);
      var now := world.Clock();
      var remaining := deadline - now;
      if remaining <= 0.0 {
        cause := new Failure.Raise(TimeoutError, None);
      } else {
        cause := world.GetConn(if acquireTimeoutMs < remaining then acquireTimeoutMs else remaining);
      }
      if cause != null {
        now := world.Clock();
        raised := Classify(cause, TRANSIENT, false, true, false, Milliseconds(now - started), 0.0);
        return;
      }
      var acquired := world.ClockOnAcquisition();
      result, raised, cause := BookOn(command, deadline, started, acquired);
    }

    // The rest of `Book`, once a connection is acquired.
    method BookOn(command: ReservationCommand, deadline: real, started: real, acquired: real)
      returns (result: Option<BookingResult>, raised: Failure?, cause: Failure?)
      requires world.facts == Untouched.(startedAt := started, latest := acquired, acquiredAt := Some(acquired), acquired := true)
      modifies world
      ensures world.sleeps == old(world.sleeps) && world.now >= old(world.now)
      ensures Protocol(world.facts, command)
      ensures Disposed(world.facts, Uncertain(world.facts, world.zones))
      ensures world.commits == old(world.commits) + (if Applied(world.facts) then 1 else 0)
      ensures Acknowledged(world.facts) ==> Applied(world.facts)
      ensures raised == null <==> result.Some?
      ensures raised == null ==> Reports(world.facts, world.zones, result.value)
      ensures raised != null ==> fresh(raised) && cause != null && Explains(world.facts, world.zones, cause, raised)
    {
      var unsafeDisposalFailed;
      var contextError, primaryError, dispatched, bodyCompleted, completed := Mutate(command, deadline, started, acquired);
      raised := null;
      if contextError != null {
        raised, cause, unsafeDisposalFailed := Handle(contextError, primaryError, dispatched, bodyCompleted, started, acquired);
        completed := None;
      } else {
        raised, cause, unsafeDisposalFailed, completed := Complete(command, deadline, started, acquired, completed.value);
      }
      result := GiveBack(unsafeDisposalFailed, raised, cause, completed);
      if raised != null {
        result := None;
      }
    }
  }
}
