/** From a service outcome to the public response (serialization/reservation.py, http/error_handlers.py). */
module PublicResponses {
  import opened Basics
  import opened Calendar
  import opened Records
  import opened PublicErrors
  import opened Services
  import opened Availability
  import FT = FormTypes
  import W = ReservationWorkflow

  datatype Response = Confirmation(created: bool, phoneNotice: bool) | Error(code: Code, fields: seq<FieldError>)

  // `_booking_validation`; no answer for a detail a caller cannot correct.
  function BookingProblems(detail: Option<string>): Option<seq<FieldError>> {
    match detail
    case None => None
    case Some("invalid_normalized_input") =>
      Some([FieldError(FirstName, InvalidValue), FieldError(MiddleInitial, InvalidValue), FieldError(LastName, InvalidValue),
            FieldError(Email, InvalidValue), FieldError(ConfirmationEmail, InvalidValue), FieldError(Phone, InvalidValue),
            FieldError(StartsAtLocal, InvalidValue), FieldError(UtcOffsetMinutes, InvalidValue),
            FieldError(PartySizeField, InvalidValue), FieldError(NewsletterActionField, InvalidValue)])
    case Some("nonexistent_local_start") => Some([FieldError(StartsAtLocal, NonexistentLocalTime)])
    case Some("ambiguous_local_start") => Some([FieldError(StartsAtLocal, AmbiguousLocalTime)])
    case Some("utc_offset_mismatch") => Some([FieldError(UtcOffsetMinutes, UtcOffsetMismatch)])
    case Some("date_outside_booking_window") => Some([FieldError(StartsAtLocal, DateOutsideBookingWindow)])
    case Some("insufficient_same_day_lead") => Some([FieldError(StartsAtLocal, InsufficientSameDayLead)])
    case Some("start_before_opening") => Some([FieldError(StartsAtLocal, InvalidReservationTime)])
    case Some("misaligned_start") => Some([FieldError(StartsAtLocal, InvalidReservationTime)])
    case Some("end_after_closing") => Some([FieldError(StartsAtLocal, InvalidReservationTime)])
    case Some("duration_or_party_size_out_of_range") => Some([FieldError(PartySizeField, OutOfRange)])
    case _ => None
  }

  type Zones = map<string, Zone>

  ghost predicate ZonesOk(zones: Zones) { forall name | name in zones :: ZoneOk(zones[name]) }

  // The calendar has both wall times of the reservation in its zone; `_local` raises otherwise.
  predicate Placed(r: BookingResult, zones: Zones) {
    && r.startsAt.Moment? && r.endsAt.Moment? && r.restaurantTimezone.Some? && r.restaurantTimezone.value in zones
    && HasWall(zones[r.restaurantTimezone.value], r.startsAt.at) && HasWall(zones[r.restaurantTimezone.value], r.endsAt.at)
  }

  predicate Incomplete(r: BookingResult) {
    r.reservationId.Null? || r.startsAt.Null? || r.endsAt.Null? || r.partySize.Null? || r.newsletterSubscribed.Null?
    || r.customerName.None? || r.restaurantTimezone.None?
  }

  // An exception of the serializer is an internal error.
  function Serialized(r: BookingResult, zones: Zones): Response {
    if r.outcome.Success() then
      if Incomplete(r) || !Placed(r, zones) then Error(InternalError, [])
      else Confirmation(!r.outcome.ExactRetry?, r.outcome.BookedPhoneNotice?)
    else if r.outcome.CustomerIdentityConflict? then Error(IdentityConflict, [])
    else if r.outcome.MiddleInitialConflict? then Error(MiddleConflict, [])
    else if r.outcome.SameCustomerOverlap? then Error(ReservationOverlap, [])
    else if r.outcome.Unavailable? || r.detail == Some("time_boundary_crossed_during_booking") then Error(ReservationUnavailable, [])
    else if r.outcome.InvalidRequest? then
      match BookingProblems(r.detail)
      case Some(fields) => Error(ValidationFailed, fields)
      case None => Error(InternalError, [])
    else Error(InternalError, [])
  }

  function Respond(outcome: BookingPublic, zones: Zones): Response {
    match outcome
    case Answered(r) => Serialized(r, zones)
    case TemporaryFailure(_) => Error(TemporaryFailureCode, [])
    case OutcomeUnknown(_) => Error(ReservationUnknown, [])
    case ConfirmationMissing(_) => Error(ConfirmationUnavailableCode, [])
    case ServiceDown(_) => Error(ServiceUnavailableCode, [])
    case ContractBroken(_) => Error(InternalError, [])
    case PolicyRejected => Error(InternalError, [])
  }

  // What the client's promise rejects with.
  function Cause(code: Code, fields: seq<FieldError>): W.BookingCause {
    W.PublicError(code, IsRetryable(code), IsOutcomeUnknown(code), fields)
  }

  // Every field the serializer blames for a stale schedule makes the client set the schedule aside.
  lemma StaleDetailsInvalidate(detail: string)
    requires detail in {"nonexistent_local_start", "ambiguous_local_start", "utc_offset_mismatch", "date_outside_booking_window",
                        "insufficient_same_day_lead", "start_before_opening", "misaligned_start", "end_after_closing",
                        "duration_or_party_size_out_of_range"}
    ensures BookingProblems(Some(detail)).Some? && exists p | p in BookingProblems(Some(detail)).value :: W.StaleSchedule(p)
  {
    var fields := BookingProblems(Some(detail)).value;
    assert fields[0] in fields && W.StaleSchedule(fields[0]);
  }

  // Instants that have a wall time in every zone.
  predicate Central(at: int) { InRange(at - 50400) && InRange(at + 50400) }

  lemma CentralIsPlaced(r: BookingResult, zones: Zones)
    requires ZonesOk(zones) && Complete(r) && r.restaurantTimezone.Some? && r.restaurantTimezone.value in zones
    requires Central(r.startsAt.at) && Central(r.endsAt.at)
    ensures Placed(r, zones)
  {
  }

  // The client calls a booking refused only when nothing was committed, when the committed answer was
  // itself a refusal, or when the wall times of a reservation cannot be printed; in every other case in
  // which a reservation may exist it either confirms it or keeps the identical body for resending.
  lemma ResponseNeverHidesABooking(outcome: BookingPublic, applied: Option<BookingResult>, zones: Zones, page: W.Page, body: FT.ReservationBody)
    requires Certifies(outcome, applied, zones.Keys)
    ensures match Respond(outcome, zones)
            case Confirmation(_, _) => applied.Some? && applied.value.outcome.Success()
            case Error(code, fields) =>
              var after := W.BookingFailed(page, body, Cause(code, fields));
              && (after.recovery.None? ==>
                    applied.None? || !applied.value.outcome.Success() || (outcome.Answered? && !Placed(outcome.result, zones)))
              && (after.recovery.Some? ==> after.recovery.value.body == body)
              && (outcome.TemporaryFailure? || outcome.OutcomeUnknown? || outcome.ConfirmationMissing? || outcome.ServiceDown? <==> after.recovery.Some?)
    ensures outcome.Answered? && outcome.result.outcome.Success() ==>
      (Respond(outcome, zones).Confirmation? <==> Placed(outcome.result, zones))
  {
  }
}
