/**
 * OP-02: what the availability gateway accepts from the database (db/availability_gateway.py), and
 * how the accepted slots are sent to the client (serialization/reservation.py). A zone gives each
 * instant its offset from UTC in whole minutes; aware driver values carry UTC.
 */
module Availability {
  import opened Basics
  import opened Calendar
  import opened Records

  type Zone = int -> int

  ghost predicate ZoneOk(zone: Zone) { forall at :: -840 <= zone(at) <= 840 }

  // `local` is what the clocks of the zone show at the instant.
  predicate Shows(zone: Zone, at: int, local: WallTime) { Seconds(local) == at + 60 * zone(at) }

  // The calendar has that wall time: `astimezone` raises otherwise.
  predicate HasWall(zone: Zone, at: int) { InRange(at + 60 * zone(at)) }

  datatype AvailabilitySlot = AvailabilitySlot(localStart: WallTime, startsAt: Instant, endsAt: Instant, available: bool)

  // `Escapes`: an exception the gateway does not turn into a contract error.
  datatype Answer = Slots(timezone: string, slots: seq<AvailabilitySlot>) | InvalidRequest | ContractError | Escapes

  predicate RowTyped(row: Row) {
    && |row| == 6 && row[0] == Value.Text("slots") && row[1].Null?
    && row[2].Naive? && row[3].Moment? && row[4].Moment?
    && row[2].microsecond == 0 && row[3].microsecond == 0 && row[4].microsecond == 0 && row[5].Flag?
  }

  function SlotOf(row: Row): AvailabilitySlot
    requires RowTyped(row)
  {
    AvailabilitySlot(row[2].local, row[3].at, row[4].at, row[5].flag)
  }

  // The checks before the zone is consulted.
  predicate Fits(slot: AvailabilitySlot, date: Date, previous: Option<int>) {
    && DateOf(slot.localStart) == date
    && (slot.endsAt - slot.startsAt == 3600 || slot.endsAt - slot.startsAt == 5400 || slot.endsAt - slot.startsAt == 7200)
    && (previous.Some? ==> slot.startsAt > previous.value)
  }

  // What a slot must be, whatever comes before it.
  predicate Honest(slot: AvailabilitySlot, date: Date, zone: Zone) {
    Fits(slot, date, None) && Shows(zone, slot.startsAt, slot.localStart)
  }

  ghost predicate Ascending(slots: seq<AvailabilitySlot>) {
    forall i, j | 0 <= i < j < |slots| :: slots[i].startsAt < slots[j].startsAt
  }

  // The rows say exactly these slots.
  ghost predicate Says(rows: seq<Row>, slots: seq<AvailabilitySlot>) {
    |slots| == |rows| && forall i | 0 <= i < |rows| :: RowTyped(rows[i]) && slots[i] == SlotOf(rows[i])
  }

  ghost predicate Acceptable(rows: seq<Row>, slots: seq<AvailabilitySlot>, date: Date, zone: Zone) {
    Says(rows, slots) && Ascending(slots) && forall i | 0 <= i < |slots| :: Honest(slots[i], date, zone)
  }

  function Previous(rows: seq<Row>, i: nat): Option<int>
    requires i <= |rows| && (i > 0 ==> RowTyped(rows[i - 1]))
  {
    if i == 0 then None else Some(rows[i - 1][3].at)
  }

  // The first row that cannot be accepted is one whose wall time the calendar does not have.
  ghost predicate Overflows(rows: seq<Row>, i: nat, date: Date, zone: Zone) {
    && i < |rows| && (exists slots :: Acceptable(rows[..i], slots, date, zone))
    && RowTyped(rows[i]) && (i > 0 ==> RowTyped(rows[i - 1])) && Fits(SlotOf(rows[i]), date, Previous(rows, i))
    && !HasWall(zone, rows[i][3].at)
  }

  // Checks the rows one by one: they are accepted exactly when they say an acceptable schedule, which
  // is then the answer. An empty schedule is a schedule. An exception escapes exactly when the first
  // objection is that the calendar lacks the row's wall time.
  method ReadSlots(rows: seq<Row>, date: Date, timezone: string, zone: Zone) returns (answer: Answer)
    ensures answer.Slots? ==> answer.timezone == timezone && Acceptable(rows, answer.slots, date, zone)
    ensures (exists slots :: Acceptable(rows, slots, date, zone)) ==> answer.Slots?
    ensures !answer.InvalidRequest?
    ensures answer.Escapes? <==> exists i: nat :: Overflows(rows, i, date, zone)
  {
    var slots: seq<AvailabilitySlot> := [];
    var previous: Option<int> := None;
    var i := 0;
    while i < |rows|
      invariant 0 <= i <= |rows|
      invariant Acceptable(rows[..i], slots, date, zone)
      invariant previous == if i == 0 then None else Some(slots[i - 1].startsAt)
    {
      var row := rows[i];
      Objection(rows, i, slots, previous, date, zone);
      if !RowTyped(row) || !Fits(SlotOf(row), date, previous) {
        return ContractError;
      }
      if !HasWall(zone, row[3].at) {
        return Escapes;
      }
      if !Shows(zone, row[3].at, row[2].local) {
        return ContractError;
      }
      Accepted(rows, i, slots, previous, date, zone);
      previous := Some(row[3].at);
      slots := slots + [SlotOf(row)];
      i := i + 1;
    }
    assert rows[..i] == rows;
    forall j: nat | Overflows(rows, j, date, zone) ensures false {
      NoOverflow(rows, rows, slots, j, date, zone);
    }
    return Slots(timezone, slots);
  }

  // What an objection to the i-th row, after acceptable ones, means for the answer.
  lemma Objection(rows: seq<Row>, i: nat, slots: seq<AvailabilitySlot>, previous: Option<int>, date: Date, zone: Zone)
    requires i < |rows| && Acceptable(rows[..i], slots, date, zone)
    requires previous == if i == 0 then None else Some(slots[i - 1].startsAt)
    ensures var row := rows[i];
      var fits := RowTyped(row) && Fits(SlotOf(row), date, previous);
      && (!(fits && Shows(zone, row[3].at, row[2].local)) ==>
            && (!exists all :: Acceptable(rows, all, date, zone))
            && ((exists j: nat :: Overflows(rows, j, date, zone)) <==> fits && !HasWall(zone, row[3].at)))
      && (fits && !HasWall(zone, row[3].at) ==> !Shows(zone, row[3].at, row[2].local))
  {
    var row := rows[i];
    var fits := RowTyped(row) && Fits(SlotOf(row), date, previous);
    if i > 0 {
      assert rows[..i][i - 1] == rows[i - 1] && slots[i - 1] == SlotOf(rows[i - 1]);
    }
    if fits {
      SecondsInRange(row[2].local);
    }
    if fits && !HasWall(zone, row[3].at) {
      assert Overflows(rows, i, date, zone);
    }
    if !(fits && Shows(zone, row[3].at, row[2].local)) {
      forall all | Acceptable(rows, all, date, zone) ensures false {
        EveryRowMatters(rows, all, i, slots, previous, date, zone);
      }
      forall j: nat | Overflows(rows, j, date, zone) ensures j == i {
        if j < i {
          NoOverflow(rows, rows[..i], slots, j, date, zone);
        } else if j > i {
          LaterOverflow(rows, i, j, slots, previous, date, zone);
        }
      }
    }
  }

  // An objection to a later row finds nothing wrong with this one.
  lemma LaterOverflow(rows: seq<Row>, i: nat, j: nat, slots: seq<AvailabilitySlot>, previous: Option<int>, date: Date, zone: Zone)
    requires i < j && Overflows(rows, j, date, zone) && Says(rows[..i], slots)
    requires previous == if i == 0 then None else Some(slots[i - 1].startsAt)
    ensures RowTyped(rows[i]) && Fits(SlotOf(rows[i]), date, previous) && Shows(zone, rows[i][3].at, rows[i][2].local)
  {
    var all :| Acceptable(rows[..j], all, date, zone);
    assert rows[..j][..i] == rows[..i] && rows[..j][i] == rows[i];
    EveryRowMatters(rows[..j], all, i, slots, previous, date, zone);
  }

  lemma NoOverflow(rows: seq<Row>, prefix: seq<Row>, slots: seq<AvailabilitySlot>, j: nat, date: Date, zone: Zone)
    requires Acceptable(prefix, slots, date, zone) && j < |prefix| <= |rows| && prefix[j] == rows[j]
    ensures !Overflows(rows, j, date, zone)
  {
    assert slots[j] == SlotOf(prefix[j]) && Honest(slots[j], date, zone);
    SecondsInRange(slots[j].localStart);
  }

  lemma Accepted(rows: seq<Row>, i: nat, slots: seq<AvailabilitySlot>, previous: Option<int>, date: Date, zone: Zone)
    requires i < |rows| && Acceptable(rows[..i], slots, date, zone)
    requires previous == if i == 0 then None else Some(slots[i - 1].startsAt)
    requires RowTyped(rows[i]) && Fits(SlotOf(rows[i]), date, previous) && Shows(zone, rows[i][3].at, rows[i][2].local)
    ensures Acceptable(rows[..i + 1], slots + [SlotOf(rows[i])], date, zone)
  {
    var next := SlotOf(rows[i]);
    forall j | 0 <= j < i ensures slots[j].startsAt < next.startsAt {
      if j < i - 1 { assert slots[j].startsAt < slots[i - 1].startsAt; }
    }
    assert forall j | 0 <= j < i :: rows[..i + 1][j] == rows[..i][j];
  }

  // An acceptable schedule leaves no row to object to.
  lemma {:induction false} EveryRowMatters(rows: seq<Row>, all: seq<AvailabilitySlot>, i: nat, slots: seq<AvailabilitySlot>, previous: Option<int>, date: Date, zone: Zone)
    requires Acceptable(rows, all, date, zone) && i < |rows| && Says(rows[..i], slots)
    requires previous == if i == 0 then None else Some(slots[i - 1].startsAt)
    ensures RowTyped(rows[i]) && Fits(SlotOf(rows[i]), date, previous) && Shows(zone, rows[i][3].at, rows[i][2].local)
  {
    assert all[i] == SlotOf(rows[i]);
    if i > 0 {
      assert rows[..i][i - 1] == rows[i - 1] && all[i - 1] == SlotOf(rows[i - 1]) == slots[i - 1];
    }
  }

  predicate AllNull(values: seq<Value>) { forall i | 0 <= i < |values| :: values[i].Null? }

  predicate Refusal(rows: seq<Row>) {
    && |rows| == 1 && |rows[0]| >= 2 && rows[0][0] == Value.Text("invalid_request")
    && rows[0][1] == Value.Text("date_or_party_size_out_of_range") && AllNull(rows[0][2..])
  }

  predicate OneName(rows: seq<Row>) { |rows| == 1 && |rows[0]| == 1 && rows[0][0].Text? }

  predicate KnownZone(timezoneRows: seq<Row>, zones: map<string, Zone>) {
    OneName(timezoneRows) && timezoneRows[0][0].text in zones
  }

  // A single row too short for the column that is looked up.
  predicate TooShort(rows: seq<Row>) {
    && |rows| == 1
    && (rows[0] == [] || (|rows[0]| == 1 && rows[0][0] == Value.Text("invalid_database_configuration")))
  }

  // A schedule is reported exactly for rows that say an acceptable one in a known time zone, a refusal
  // exactly for the routine's refusal row, and an exception escapes exactly for a row that is too
  // short or a wall time outside the calendar; everything else is a contract error.
  method Interpret(timezoneRows: seq<Row>, rows: seq<Row>, date: Date, zones: map<string, Zone>) returns (answer: Answer)
    ensures !KnownZone(timezoneRows, zones) ==> answer.ContractError?
    ensures KnownZone(timezoneRows, zones) ==>
      var timezone := timezoneRows[0][0].text; var zone := zones[timezone];
      && (answer.InvalidRequest? <==> Refusal(rows))
      && (answer.Slots? ==> answer.timezone == timezone && Acceptable(rows, answer.slots, date, zone))
      && ((exists slots :: Acceptable(rows, slots, date, zone)) ==> answer.Slots?)
      && (answer.Escapes? <==> TooShort(rows) || exists i: nat :: Overflows(rows, i, date, zone))
  {
    if !OneName(timezoneRows) || timezoneRows[0][0].text !in zones {
      return ContractError;
    }
    var timezone := timezoneRows[0][0].text;
    SpecialRows(rows, date, zones[timezone]);
    if Refusal(rows) {
      return Answer.InvalidRequest;
    }
    if |rows| == 1 && (rows[0] == [] || rows[0][0] == Value.Text("invalid_database_configuration")) {
      if |rows[0]| < 2 {
        return Escapes;
      }
      return ContractError;
    }
    answer := ReadSlots(rows, date, timezone, zones[timezone]);
  }

  // A single row that is not a typed slot is neither a schedule nor one that overflows.
  lemma SpecialRows(rows: seq<Row>, date: Date, zone: Zone)
    ensures |rows| == 1 && !RowTyped(rows[0]) ==>
      (forall slots :: !Acceptable(rows, slots, date, zone)) && (forall i: nat :: !Overflows(rows, i, date, zone))
  {
  }

  // The first day of the calendar, an hour behind UTC: such a row would leave the gateway as an
  // exception of the runtime; so would a row without columns.
  lemma ExceptionsCanEscape() returns (rows: seq<Row>, date: Date, zone: Zone)
    ensures ZoneOk(zone) && Overflows(rows, 0, date, zone) && TooShort([[]])
  {
    zone := at => -60;
    date := Date(1, 1, 1);
    var first: WallTime := DateTime(1, 1, 1, 0, 0, 0);
    rows := [[Value.Text("slots"), Null, Naive(first, 0), Moment(0, 0), Moment(3600, 0), Flag(true)]];
    assert rows[..0] == [] && Acceptable([], [], date, zone);
  }
}
