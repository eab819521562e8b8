/** Row decoding of both mutation gateways. */
module Decoding {
  import opened Basics
  import opened Records

  // `Defect` is a contract error; `Crash` is an exception of the runtime itself.
  datatype Decoding<T> = Decoded(result: T) | Defect | Crash

  // ----- OP-05 -----

  function BookingOutcomeOf(text: string): Option<BookingOutcome> {
    match text
    case "booked" => Some(Booked)
    case "booked_phone_notice" => Some(BookedPhoneNotice)
    case "exact_retry" => Some(ExactRetry)
    case "same_customer_overlap" => Some(SameCustomerOverlap)
    case "customer_identity_mismatch" => Some(CustomerIdentityConflict)
    case "middle_initial_conflict" => Some(MiddleInitialConflict)
    case "unavailable" => Some(Unavailable)
    case "invalid_request" => Some(InvalidRequest)
    case "invalid_database_configuration" => Some(InvalidDatabaseConfiguration)
    case _ => None
  }

  const DETAILS: set<string> := {
    "requires_read_committed", "invalid_normalized_input", "configuration_row_count",
    "operating_hours_population", "restaurant_table_population", "invalid_timezone",
    "nonexistent_local_start", "ambiguous_local_start", "utc_offset_mismatch",
    "date_outside_booking_window", "insufficient_same_day_lead", "start_before_opening",
    "misaligned_start", "end_after_closing", "duration_or_party_size_out_of_range",
    "no_capacity_sufficient_combination", "time_boundary_crossed_during_booking"
  }

  predicate WholeSecond(v: Value) {
    v.Moment? && v.microsecond == 0
  }

  predicate TableNumber(v: Value) {
    v.Whole? && 1 <= v.number <= 32767
  }

  function Numbers(items: seq<Value>): (r: seq<int>)
    requires forall v <- items :: TableNumber(v)
    ensures |r| == |items|
  {
    if items == [] then [] else
      assert TableNumber(items[0]);
      [items[0].number] + Numbers(items[1..])
  }

  // `sorted(set(...))`
  function SortedSet(xs: seq<int>): seq<int> {
    if xs == [] then [] else Insert(xs[0], SortedSet(xs[1..]))
  }

  function Insert(x: int, xs: seq<int>): seq<int> {
    if xs == [] || x < xs[0] then [x] + xs
    else if x == xs[0] then xs
    else [xs[0]] + Insert(x, xs[1..])
  }

  predicate SuccessRow(row: Row, outcome: BookingOutcome)
    requires |row| == 11
  {
    && row[1] == Null
    && row[2].Whole? && row[2].number > 0
    && WholeSecond(row[3]) && WholeSecond(row[4]) && row[4].at > row[3].at
    && row[5].Whole? && row[5].number > 0
    && row[6].List? && row[6].items != []
    && (forall v <- row[6].items :: TableNumber(v))
    && Numbers(row[6].items) == SortedSet(Numbers(row[6].items))
    && row[7].Flag?
    && row[8].Flag? && row[8].flag == outcome.BookedPhoneNotice?
    && (row[9] == Whole(1) || row[9] == Flag(true))
    && row[10].Bytes? && |row[10].data| == 32
  }

  predicate RefusalRow(row: Row, outcome: BookingOutcome, detail: Option<string>)
    requires |row| == 11
  {
    && (outcome.InvalidRequest? || outcome.InvalidDatabaseConfiguration? || outcome.Unavailable? ==> detail.Some?)
    && (outcome.CustomerIdentityConflict? || outcome.MiddleInitialConflict? || outcome.SameCustomerOverlap? ==> detail.None?)
    && row[8] == Flag(false)
  }

  // `tuple(tables or ())`; a truthy object that cannot be iterated crashes.
  function Tupled(v: Value): Option<seq<Value>> {
    match v
    case Null => Some([])
    case Text(t) => Some(seq(|t|, i requires 0 <= i < |t| => Text([t[i]])))
    case Whole(n) => if n == 0 then Some([]) else None
    case Flag(b) => if b then None else Some([])
    case List(items) => Some(items)
    case Bytes(data) => Some(seq(|data|, i requires 0 <= i < |data| => Whole(data[i])))
    case _ => None
  }

  function DecodeBooking(rows: seq<Row>, poolWaitMs: real, databaseMs: real): (d: Decoding<BookingResult>) {
    if |rows| != 1 || |rows[0]| != 11 then Defect else
      var row := rows[0];
      if !row[0].Text? || BookingOutcomeOf(row[0].text).None? then Defect else
        var outcome := BookingOutcomeOf(row[0].text).value;
        if row[1] != Null && (!row[1].Text? || row[1].text !in DETAILS) then Defect else
          var detail := if row[1].Text? then Some(row[1].text) else None;
          if outcome.Success() && !SuccessRow(row, outcome) then Defect
          else if !outcome.Success() && !RefusalRow(row, outcome, detail) then Defect
          else match Tupled(row[6])
            case None => Crash
            case Some(tables) =>
              Decoded(BookingResult(outcome, detail, row[2], row[3], row[4], row[5], tables, row[7],
                                    row[8].flag, None, None, poolWaitMs, databaseMs, 1, false))
  }

  // ----- confirmation facts -----

  predicate MiddlePart(v: Value) {
    v == Null || (v.Text? && |v.text| == 1)
  }

  function StoredName(first: string, middle: Value, last: string): string
    requires MiddlePart(middle)
  {
    first + " " + (if middle == Null then "" else middle.text + ". ") + last
  }

  function ConfirmationFacts(rows: seq<Row>, zones: set<string>): Option<(string, string)> {
    if |rows| != 1 || |rows[0]| != 4 then None else
      var row := rows[0];
      if !(row[0].Text? && row[0].text != "" && MiddlePart(row[1]) && row[2].Text? && row[2].text != "") then None
      else if !(row[3].Text? && row[3].text != "" && row[3].text in zones) then None
      else Some((StoredName(row[0].text, row[1], row[2].text), row[3].text))
  }

  // ----- OP-04 -----

  function PreferenceOutcomeOf(text: string): Option<PreferenceOutcome> {
    match text
    case "subscribed" => Some(Subscribed)
    case "unsubscribed" => Some(Unsubscribed)
    case "no_customer_no_change" => Some(NoCustomerNoChange)
    case "invalid_request" => Some(PreferenceInvalidRequest)
    case "customer_identity_mismatch" => Some(PreferenceIdentityConflict)
    case "middle_initial_conflict" => Some(PreferenceMiddleConflict)
    case _ => None
  }

  function DecodePreference(rows: seq<Row>, poolWaitMs: real, databaseMs: real): (d: Decoding<PreferenceResult>) {
    if |rows| != 1 || |rows[0]| != 2 then Defect else
      var row := rows[0];
      if !row[0].Text? || PreferenceOutcomeOf(row[0].text).None? then Defect else
        var outcome := PreferenceOutcomeOf(row[0].text).value;
        if outcome.PreferenceInvalidRequest? then
          if row[1] != Null then Defect
          else Decoded(PreferenceResult(outcome, None, poolWaitMs, databaseMs, 1, false))
        else if !row[1].Flag? then Defect
        else
          var state := if outcome.Success() then Some(row[1].flag) else None;
          var result := PreferenceResult(outcome, state, poolWaitMs, databaseMs, 1, false);
          if PreferenceResultAccepted(result) then Decoded(result) else Defect
  }

  // ----- what the decoders guarantee -----

  ghost predicate StrictlyAscending(xs: seq<int>) {
    forall i, j | 0 <= i < j < |xs| :: xs[i] < xs[j]
  }

  lemma ConsAscends(x: int, xs: seq<int>)
    requires StrictlyAscending(xs) && (xs != [] ==> x < xs[0])
    ensures StrictlyAscending([x] + xs)
  {
    forall j | 0 <= j < |xs| ensures x < xs[j] {
      assert j > 0 ==> xs[0] < xs[j];
    }
  }

  lemma {:induction false} InsertAscends(x: int, xs: seq<int>)
    requires StrictlyAscending(xs)
    ensures StrictlyAscending(Insert(x, xs)) && Insert(x, xs) != []
    ensures Insert(x, xs)[0] == (if xs == [] || x < xs[0] then x else xs[0])
  {
    if xs == [] || x < xs[0] {
      ConsAscends(x, xs);
    } else if x > xs[0] {
      InsertAscends(x, xs[1..]);
      assert |xs| > 1 ==> xs[0] < xs[1] == xs[1..][0];
      ConsAscends(xs[0], Insert(x, xs[1..]));
    }
  }

  lemma {:induction false} SortedSetAscends(xs: seq<int>)
    ensures StrictlyAscending(SortedSet(xs))
  {
    if xs != [] {
      SortedSetAscends(xs[1..]);
      InsertAscends(xs[0], SortedSet(xs[1..]));
    }
  }

  lemma {:induction false} AscendingIsFixed(xs: seq<int>)
    requires StrictlyAscending(xs)
    ensures SortedSet(xs) == xs
  {
    if xs != [] {
      AscendingIsFixed(xs[1..]);
      assert xs[1..] != [] ==> xs[0] < xs[1..][0];
      assert xs == [xs[0]] + xs[1..];
    }
  }

  // The source's test `tables == sorted(set(tables))` says exactly: strictly ascending.
  lemma SortedSetTest(xs: seq<int>)
    ensures xs == SortedSet(xs) <==> StrictlyAscending(xs)
  {
    SortedSetAscends(xs);
    if StrictlyAscending(xs) {
      AscendingIsFixed(xs);
    }
  }

  // A row that tells of a reservation.
  ghost predicate BookedRow(row: Row) {
    && |row| == 11 && row[0].Text? && row[0].text in {"booked", "booked_phone_notice", "exact_retry"} && row[1].Null?
    && row[2].Whole? && row[2].number > 0
    && row[3].Moment? && row[4].Moment? && row[3].microsecond == 0 && row[4].microsecond == 0 && row[3].at < row[4].at
    && row[5].Whole? && row[5].number > 0
    && row[6].List? && row[6].items != [] && (forall v <- row[6].items :: TableNumber(v)) && StrictlyAscending(Numbers(row[6].items))
    && row[7].Flag? && row[8] == Flag(row[0].text == "booked_phone_notice")
    && row[9] in {Whole(1), Flag(true)} && row[10].Bytes? && |row[10].data| == 32
  }

  // A row that tells of a refusal: with a known detail for three outcomes, with none for the others.
  ghost predicate RefusedRow(row: Row) {
    && |row| == 11 && row[0].Text? && row[8] == Flag(false)
    && (if row[0].text in {"invalid_request", "invalid_database_configuration", "unavailable"}
        then row[1].Text? && row[1].text in DETAILS
        else row[0].text in {"same_customer_overlap", "customer_identity_mismatch", "middle_initial_conflict"} && row[1].Null?)
  }

  lemma BookedRows(row: Row)
    requires |row| == 11 && row[0].Text? && BookingOutcomeOf(row[0].text).Some?
    ensures var outcome := BookingOutcomeOf(row[0].text).value;
      BookedRow(row) <==> outcome.Success() && SuccessRow(row, outcome)
  {
    if row[6].List? && forall v <- row[6].items :: TableNumber(v) {
      SortedSetTest(Numbers(row[6].items));
    }
  }

  lemma RefusedRows(row: Row)
    requires |row| == 11 && row[0].Text? && BookingOutcomeOf(row[0].text).Some?
    ensures var outcome := BookingOutcomeOf(row[0].text).value;
      var detail := if row[1].Text? then Some(row[1].text) else None;
      RefusedRow(row) <==>
        !outcome.Success() && (row[1] == Null || (row[1].Text? && row[1].text in DETAILS)) && RefusalRow(row, outcome, detail)
  {
  }

  // What is decoded, and what crashes the runtime, is exactly characterised.
  lemma DecodedBookingMeaning(rows: seq<Row>, poolWaitMs: real, databaseMs: real)
    ensures var d := DecodeBooking(rows, poolWaitMs, databaseMs);
      && (d.Decoded? <==> |rows| == 1 && (BookedRow(rows[0]) || (RefusedRow(rows[0]) && Tupled(rows[0][6]).Some?)))
      && (d.Crash? <==> |rows| == 1 && RefusedRow(rows[0]) && Tupled(rows[0][6]).None?)
      && (d.Decoded? ==> (d.result.outcome.Success() <==> BookedRow(rows[0])))
  {
    if |rows| == 1 && |rows[0]| == 11 && rows[0][0].Text? && BookingOutcomeOf(rows[0][0].text).Some? {
      BookedRows(rows[0]);
      RefusedRows(rows[0]);
    }
  }

  // Every column of a decoded row that the result has a field for is in it, unchanged.
  lemma DecodedBookingFields(rows: seq<Row>, poolWaitMs: real, databaseMs: real)
    requires DecodeBooking(rows, poolWaitMs, databaseMs).Decoded?
    ensures var r, row := DecodeBooking(rows, poolWaitMs, databaseMs).result, rows[0];
      && BookingOutcomeOf(row[0].text) == Some(r.outcome) && r.detail == (if row[1].Text? then Some(row[1].text) else None)
      && r.reservationId == row[2] && r.startsAt == row[3] && r.endsAt == row[4] && r.partySize == row[5]
      && Tupled(row[6]) == Some(r.tables) && r.newsletterSubscribed == row[7] && (r.phoneNotice <==> r.outcome.BookedPhoneNotice?)
      && r.poolWaitMs == poolWaitMs && r.databaseMs == databaseMs && r.attempts == 1 && !r.cleanupFailed
  {
  }

  // The answers OP-04 accepts.
  ghost predicate PreferenceAnswer(row: Row) {
    || row == [Text("subscribed"), Flag(true)]
    || row == [Text("unsubscribed"), Flag(false)]
    || row == [Text("no_customer_no_change"), Flag(false)]
    || row == [Text("invalid_request"), Null]
    || (|row| == 2 && row[0] in {Text("customer_identity_mismatch"), Text("middle_initial_conflict")} && row[1].Flag?)
  }

  lemma DecodedPreferenceMeaning(rows: seq<Row>)
    ensures DecodePreference(rows, 0.0, 0.0).Decoded? <==> |rows| == 1 && PreferenceAnswer(rows[0])
    ensures DecodePreference(rows, 0.0, 0.0).Decoded? ==> PreferenceResultAccepted(DecodePreference(rows, 0.0, 0.0).result)
  {
    if |rows| == 1 && |rows[0]| == 2 {
      assert rows[0] == [rows[0][0], rows[0][1]];
    }
  }

  // The time an answer is decoded at only shows in its two timing fields.
  lemma DecodePreferenceTimes(rows: seq<Row>, poolWaitMs: real, databaseMs: real)
    requires poolWaitMs >= 0.0 && databaseMs >= 0.0
    ensures
      match DecodePreference(rows, 0.0, 0.0)
      case Decoded(r) => DecodePreference(rows, poolWaitMs, databaseMs) == Decoded(r.(poolWaitMs := poolWaitMs, databaseMs := databaseMs))
      case other => DecodePreference(rows, poolWaitMs, databaseMs) == other
  {
  }
}
