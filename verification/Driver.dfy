/**
 * The world one mutation attempt runs in: a monotonic clock, a connection pool, one pooled
 * connection and the PostgreSQL server behind it. Every method may fail in any way its contract
 * does not exclude; the gateways are proved against these contracts alone, so their results hold
 * over every fault trace. The ghost fields record what really happened, in particular how many
 * transactions the server committed.
 */
module Driver {
  import opened Basics
  import opened Exceptions
  import opened Records

  datatype Statement =
    | Begin
    | SetStatementTimeout(milliseconds: int)
    | BookReservation(booking: ReservationCommand)
    | SetPreference(preference: PreferenceCommand)
    | SetReadOnly
    | ReadConfirmation(email: string)
  {
    predicate Mutates() { BookReservation? || SetPreference? }
  }

  // How the mutation's `with connection` block ended. `quiet`: the exit let the body's own
  // exception through, so the rollback is confirmed. `applied`: the commit reached the server.
  datatype Ending = Open | RolledBack(quiet: bool) | CommitSent(acknowledged: bool, applied: bool)

  datatype Disposal = Closed(ok: bool) | GivenBack(ok: bool)

  // What one attempt did, in the order it did it.
  datatype Facts = Facts(
    startedAt: real,            // first clock reading
    latest: real,               // last clock reading
    acquiredAt: Option<real>,   // first reading after the connection was acquired
    acquired: bool,
    statements: seq<Statement>, // sent before the mutation's block ended
    dispatched: bool,           // the mutating routine was handed to the driver
    readingAtDispatch: real,    // last clock reading before that
    rows: Option<seq<Row>>,     // the routine's answer
    ending: Ending,
    primary: Failure?,          // the body's exception, when the block ended with one
    readingAtCommit: real,      // last clock reading before the commit was sent
    queries: seq<Statement>,    // sent in the confirmation transaction
    readRows: Option<seq<Row>>,
    readEnded: bool,            // the confirmation transaction ended quietly
    disposal: seq<Disposal>)

  ghost const Untouched := Facts(0.0, 0.0, None, false, [], false, 0.0, None, Open, null, 0.0, [], None, false, [])

  class World {
    var now: real
    const zones: set<string>    // the time zone names the runtime knows
    ghost var facts: Facts
    ghost var commits: nat      // transactions the server committed, ever
    ghost var sleeps: seq<real> // requested sleeps, in milliseconds

    constructor (zones: set<string>, now: real)
      ensures facts == Untouched && commits == 0 && sleeps == [] && this.zones == zones
    {
      this.zones, this.now := zones, now;
      facts, commits, sleeps := Untouched, 0, [];
    }

    // The first clock reading of an attempt: a new record begins.
    method Start() returns (t: real)
      modifies this
      ensures t == now >= old(now)
      ensures facts == Untouched.(startedAt := t, latest := t)
      ensures commits == old(commits) && sleeps == old(sleeps)
    {
      var d: real :| d >= 0.0;
      now := now + d;
      t := now;
      facts := Untouched.(startedAt := t, latest := t);
    }

    method Clock() returns (t: real)
      modifies this
      ensures t == now >= old(now)
      ensures facts == old(facts).(latest := t)
      ensures commits == old(commits) && sleeps == old(sleeps)
    {
      var d: real :| d >= 0.0;
      now := now + d;
      t := now;
      facts := facts.(latest := t);
    }

    // The reading taken on acquisition, from which database time is measured.
    method ClockOnAcquisition() returns (t: real)
      modifies this
      ensures t == now >= old(now)
      ensures facts == old(facts).(latest := t, acquiredAt := Some(t))
      ensures commits == old(commits) && sleeps == old(sleeps)
    {
      t := Clock();
      facts := facts.(acquiredAt := Some(t));
    }

    method Sleep(milliseconds: real)
      modifies this
      ensures now >= old(now) && now >= old(now) + milliseconds
      ensures sleeps == old(sleeps) + [milliseconds]
      ensures commits == old(commits) && facts == old(facts)
    {
      var d: real :| d >= 0.0;
      now := now + d + (if milliseconds > 0.0 then milliseconds else 0.0);
      sleeps := sleeps + [milliseconds];
    }

    // Some step of the driver or the pool: it succeeds, or raises an exception of its own making.
    method Attempt() returns (e: Failure?)
      ensures e != null ==> fresh(e) && IsRaw(e.kind) && !e.cleanupFailed
    {
      e := null;
      if * {
        var kind: Kind :| IsRaw(kind);
        var sqlstate: Option<string> := *;
        e := new Failure.Raise(kind, sqlstate);
      }
    }

    method GetConn(timeout: real) returns (e: Failure?)
      modifies this
      ensures e != null ==> fresh(e) && IsRaw(e.kind) && !e.cleanupFailed
      ensures facts == old(facts).(acquired := e == null)
      ensures now == old(now) && commits == old(commits) && sleeps == old(sleeps)
    {
      e := Attempt();
      facts := facts.(acquired := e == null);
    }

    // `cursor.execute` in the mutation's transaction. The statement counts as sent even if it raises.
    method Execute(s: Statement) returns (e: Failure?)
      modifies this
      ensures e != null ==> fresh(e) && IsRaw(e.kind) && !e.cleanupFailed
      ensures facts == old(facts).(statements := old(facts.statements) + [s],
                                   dispatched := old(facts.dispatched) || s.Mutates(),
                                   readingAtDispatch := if s.Mutates() then old(facts.latest) else old(facts.readingAtDispatch))
      ensures now == old(now) && commits == old(commits) && sleeps == old(sleeps)
    {
      facts := facts.(statements := facts.statements + [s],
                      dispatched := facts.dispatched || s.Mutates(),
                      readingAtDispatch := if s.Mutates() then facts.latest else facts.readingAtDispatch);
      e := Attempt();
    }

    method FetchAll() returns (rows: seq<Row>, e: Failure?)
      modifies this
      ensures e != null ==> fresh(e) && IsRaw(e.kind) && !e.cleanupFailed
      ensures facts == if e == null then old(facts).(rows := Some(rows)) else old(facts)
      ensures now == old(now) && commits == old(commits) && sleeps == old(sleeps)
    {
      rows := *;
      e := Attempt();
      if e == null {
        facts := facts.(rows := Some(rows));
      }
    }

    // Normal exit of `with connection`: the only place a commit is sent. A commit that raises may
    // still have reached the server.
    method ExitNormally() returns (e: Failure?, ghost applied: bool)
      modifies this
      ensures e != null ==> fresh(e) && IsRaw(e.kind) && !e.cleanupFailed
      ensures e == null ==> applied
      ensures facts == old(facts).(ending := CommitSent(e == null, applied), readingAtCommit := old(facts.latest))
      ensures commits == old(commits) + (if applied then 1 else 0)
      ensures now == old(now) && sleeps == old(sleeps)
    {
      e := Attempt();
      applied := *;
      applied := applied || e == null;
      facts := facts.(ending := CommitSent(e == null, applied), readingAtCommit := facts.latest);
      if applied {
        commits := commits + 1;
      }
    }

    // Exceptional exit of `with connection`: the rollback succeeds and the body's exception goes
    // on, or the exit raises an exception of its own in its place.
    method ExitRaising(primary: Failure) returns (context: Failure)
      modifies this
      ensures context == primary || (fresh(context) && IsRaw(context.kind) && !context.cleanupFailed)
      ensures facts == old(facts).(ending := RolledBack(context == primary), primary := primary)
      ensures now == old(now) && commits == old(commits) && sleeps == old(sleeps)
    {
      var e := Attempt();
      context := if e == null then primary else e;
      facts := facts.(ending := RolledBack(context == primary), primary := primary);
    }

    method ExecuteRead(s: Statement) returns (e: Failure?)
      modifies this
      ensures e != null ==> fresh(e) && IsRaw(e.kind) && !e.cleanupFailed
      ensures facts == old(facts).(queries := old(facts.queries) + [s])
      ensures now == old(now) && commits == old(commits) && sleeps == old(sleeps)
    {
      facts := facts.(queries := facts.queries + [s]);
      e := Attempt();
    }

    method FetchRead() returns (rows: seq<Row>, e: Failure?)
      modifies this
      ensures e != null ==> fresh(e) && IsRaw(e.kind) && !e.cleanupFailed
      ensures facts == if e == null then old(facts).(readRows := Some(rows)) else old(facts)
      ensures now == old(now) && commits == old(commits) && sleeps == old(sleeps)
    {
      rows := *;
      e := Attempt();
      if e == null {
        facts := facts.(readRows := Some(rows));
      }
    }

    method EndRead() returns (e: Failure?)
      modifies this
      ensures e != null ==> fresh(e) && IsRaw(e.kind) && !e.cleanupFailed
      ensures facts == old(facts).(readEnded := e == null)
      ensures now == old(now) && commits == old(commits) && sleeps == old(sleeps)
    {
      e := Attempt();
      facts := facts.(readEnded := e == null);
    }

    // `_close_unsafe`: true when closing raised.
    method CloseUnsafe() returns (failed: bool)
      modifies this
      ensures facts == old(facts).(disposal := old(facts.disposal) + [Closed(!failed)])
      ensures now == old(now) && commits == old(commits) && sleeps == old(sleeps)
    {
      failed := *;
      facts := facts.(disposal := facts.disposal + [Closed(!failed)]);
    }

    method PutConn() returns (failed: bool)
      modifies this
      ensures facts == old(facts).(disposal := old(facts.disposal) + [GivenBack(!failed)])
      ensures now == old(now) && commits == old(commits) && sleeps == old(sleeps)
    {
      failed := *;
      facts := facts.(disposal := facts.disposal + [GivenBack(!failed)]);
    }

    // `random.uniform`: some value between the bounds, whichever way round they are given.
    method Uniform(low: real, high: real) returns (u: real)
      ensures low <= u <= high || high <= u <= low
    {
      u := *;
      if !(low <= u <= high || high <= u <= low) {
        u := low;
      }
    }
  }
}
