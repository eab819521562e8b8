/** The public error vocabulary (http/responses.py): codes and what each says about a request. */
module PublicErrors {

  datatype Code =
    | InvalidJson | RequestBodyRequired | InvalidRequestCode | RouteNotFound | MethodNotAllowed
    | UnsupportedMediaType | ValidationFailed | IdentityConflict | MiddleConflict
    | ReservationOverlap | ReservationUnavailable | StatusIndeterminate | TemporaryFailureCode
    | PreferenceUnknown | ConfirmationUnavailableCode | ReservationUnknown | ServiceNotReady
    | ServiceUnavailableCode | InternalError

  predicate IsRetryable(code: Code) {
    code.StatusIndeterminate? || code.TemporaryFailureCode? || code.PreferenceUnknown?
    || code.ConfirmationUnavailableCode? || code.ReservationUnknown? || code.ServiceNotReady?
    || code.ServiceUnavailableCode?
  }

  predicate IsOutcomeUnknown(code: Code) {
    code.PreferenceUnknown? || code.ReservationUnknown?
  }

  datatype Field =
    | FirstName | MiddleInitial | LastName | Email | ConfirmationEmail | Phone
    | StartsAtLocal | UtcOffsetMinutes | PartySizeField | NewsletterActionField | LocalDate

  datatype Problem =
    | Required | NullNotAllowed | InvalidType | InvalidFormat | InvalidValue | OutOfRange | Empty | TooLong
    | EmailMismatch | UtcOffsetMismatch | NonexistentLocalTime | AmbiguousLocalTime
    | DateOutsideBookingWindow | InsufficientSameDayLead | InvalidReservationTime
    | InvalidDate | InvalidInteger

  datatype FieldError = FieldError(field: Field, problem: Problem)
}
