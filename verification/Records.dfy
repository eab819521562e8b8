/** Operation values (services/results.py) and the cells a driver row can hold. */
module Records {
  import opened Basics
  import opened Calendar

  // A Python object as it arrives in a result row: `Naive` is a `datetime` without a zone, `Moment`
  // one with a zone, which the driver gives in UTC.
  datatype Value =
    | Null
    | Text(text: string)
    | Whole(number: int)
    | Flag(flag: bool)
    | Naive(local: WallTime, microsecond: nat)
    | Moment(at: Instant, microsecond: nat)
    | List(items: seq<Value>)
    | Bytes(data: seq<int>)
    | Other

  type Row = seq<Value>

  datatype BookingOutcome =
    | Booked | BookedPhoneNotice | ExactRetry | SameCustomerOverlap | CustomerIdentityConflict
    | MiddleInitialConflict | Unavailable | InvalidRequest | InvalidDatabaseConfiguration
  {
    predicate Success() { Booked? || BookedPhoneNotice? || ExactRetry? }
  }

  datatype NewsletterAction = Subscribe | Unsubscribe | NoChange

  datatype ReservationCommand = ReservationCommand(
    firstName: string, middleInitial: Option<string>, lastName: string, email: string,
    phone: Option<string>, localStart: WallTime, utcOffsetMinutes: int, partySize: int,
    newsletterAction: NewsletterAction)

  // The checks of the command's constructor.
  predicate CommandAccepted(c: ReservationCommand) {
    -840 <= c.utcOffsetMinutes <= 840 && 1 <= c.partySize <= 2147483647
  }

  datatype BookingResult = BookingResult(
    outcome: BookingOutcome, detail: Option<string>, reservationId: Value, startsAt: Value,
    endsAt: Value, partySize: Value, tables: seq<Value>, newsletterSubscribed: Value,
    phoneNotice: bool, customerName: Option<string>, restaurantTimezone: Option<string>,
    poolWaitMs: real, databaseMs: real, attempts: int, cleanupFailed: bool)

  // The checks of the result's constructor; `replace` runs them again.
  predicate BookingResultAccepted(r: BookingResult) {
    r.poolWaitMs >= 0.0 && r.databaseMs >= 0.0 && 1 <= r.attempts <= 3
  }

  // Two results say the same about the booking: they differ at most in the confirmed name and zone
  // and in the accounting.
  predicate SameBooking(r: BookingResult, answer: BookingResult) {
    r == answer.(customerName := r.customerName, restaurantTimezone := r.restaurantTimezone, poolWaitMs := r.poolWaitMs,
                 databaseMs := r.databaseMs, attempts := r.attempts, cleanupFailed := r.cleanupFailed)
  }

  // A result that a confirmation can be built from, but for the name and the zone.
  predicate Complete(r: BookingResult) {
    r.reservationId.Whole? && r.startsAt.Moment? && r.endsAt.Moment? && r.partySize.Whole? && r.newsletterSubscribed.Flag?
  }

  datatype PreferenceOutcome =
    | Subscribed | Unsubscribed | NoCustomerNoChange | PreferenceInvalidRequest
    | PreferenceIdentityConflict | PreferenceMiddleConflict
  {
    predicate Success() { Subscribed? || Unsubscribed? || NoCustomerNoChange? }
  }

  datatype PreferenceCommand = PreferenceCommand(
    firstName: string, middleInitial: Option<string>, lastName: string, email: string, subscribed: bool)

  datatype PreferenceResult = PreferenceResult(
    outcome: PreferenceOutcome, subscribed: Option<bool>,
    poolWaitMs: real, databaseMs: real, attempts: int, cleanupFailed: bool)

  predicate PreferenceResultAccepted(r: PreferenceResult) {
    && r.subscribed == (match r.outcome
                        case Subscribed => Some(true)
                        case Unsubscribed => Some(false)
                        case NoCustomerNoChange => Some(false)
                        case _ => None)
    && r.poolWaitMs >= 0.0 && r.databaseMs >= 0.0 && 1 <= r.attempts <= 3
  }
}
