/** OP-02's query (validate_availability_query in validation/reservation.py), and the client's. */
module AvailabilityQuery {
  import opened Basics
  import opened Calendar
  import opened Strings
  import opened DateTexts
  import opened PublicErrors
  import opened Identity

  datatype Request = Request(localDate: Date, partySize: int)

  function DateFault(values: seq<string>): Option<Problem> {
    if |values| != 1 || values[0] == "" then Some(Required)
    else if !ShapedDate(values[0]) then Some(InvalidFormat)
    else if !ValidDate(ReadDate(values[0])) then Some(InvalidValue)
    else None
  }

  function PartyFault(values: seq<string>): Option<Problem> {
    if |values| != 1 || values[0] == "" then Some(Required)
    else if !AllDigits(values[0]) then Some(InvalidType)
    else if !(1 <= Number(values[0]) <= 2147483647) then Some(OutOfRange)
    else None
  }

  // Longer texts of digits make `int` raise, which nothing here catches.
  const MAXIMUM_DIGITS := 4300

  predicate TooLong(values: seq<string>) { |values| == 1 && AllDigits(values[0]) && |values[0]| > MAXIMUM_DIGITS }

  // The texts say this request: the date has only one text, the number may have leading zeros.
  ghost predicate Says(localValues: seq<string>, partyValues: seq<string>, request: Request) {
    && ValidDate(request.localDate) && localValues == [PrintDate(request.localDate)]
    && |partyValues| == 1 && 1 <= |partyValues[0]| <= MAXIMUM_DIGITS && AllDigits(partyValues[0])
    && Number(partyValues[0]) == request.partySize && 1 <= request.partySize <= 2147483647
  }

  // `None` is an exception.
  method ValidateQuery(localValues: seq<string>, partyValues: seq<string>) returns (r: Option<Validation<Request>>)
    ensures r.None? <==> TooLong(partyValues)
    ensures r.Some? ==>
      && ResultAccepted(r.value)
      && r.value.errors == ErrorsFor(LocalDate, DateFault(localValues)) + ErrorsFor(PartySizeField, PartyFault(partyValues))
      && forall request :: r.value.value == Some(request) <==> Says(localValues, partyValues, request)
  {
    var errors: seq<FieldError> := [];
    var localDate: Option<Date> := None;
    var partySize: Option<int> := None;
    if |localValues| != 1 || localValues[0] == "" {
      errors := errors + [FieldError(LocalDate, Required)];
    } else if !ShapedDate(localValues[0]) {
      errors := errors + [FieldError(LocalDate, InvalidFormat)];
    } else if !ValidDate(ReadDate(localValues[0])) {
      errors := errors + [FieldError(LocalDate, InvalidValue)];
    } else {
      localDate := Some(ReadDate(localValues[0]));
    }
    if |partyValues| != 1 || partyValues[0] == "" {
      errors := errors + [FieldError(PartySizeField, Required)];
    } else if !AllDigits(partyValues[0]) {
      errors := errors + [FieldError(PartySizeField, InvalidType)];
    } else {
      if |partyValues[0]| > MAXIMUM_DIGITS {
        return None;
      }
      partySize := Some(Number(partyValues[0]));
      if !(1 <= partySize.value <= 2147483647) {
        errors := errors + [FieldError(PartySizeField, OutOfRange)];
      }
    }
    forall request ensures Says(localValues, partyValues, request) <==>
      errors == [] && request == Request(ReadDate(localValues[0]), Number(partyValues[0]))
    {
      SaysMeansFaultless(localValues, partyValues, request);
    }
    if errors != [] {
      return Some(Validation(None, errors));
    }
    return Some(Validation(Some(Request(localDate.value, partySize.value)), []));
  }

  lemma SaysMeansFaultless(localValues: seq<string>, partyValues: seq<string>, request: Request)
    ensures Says(localValues, partyValues, request) <==>
      && DateFault(localValues).None? && PartyFault(partyValues).None? && !TooLong(partyValues)
      && request == Request(ReadDate(localValues[0]), Number(partyValues[0]))
  {
    if ValidDate(request.localDate) {
      DateRoundTrip(request.localDate);
    }
    if DateFault(localValues).None? {
      DateCanonical(localValues[0]);
      assert localValues == [localValues[0]];
    }
  }

  // What the client asks for a date and a party size is what the server understands.
  lemma ClientQueryIsUnderstood(date: Date, partySize: int)
    requires ValidDate(date) && 1 <= partySize <= 2147483647
    ensures Says([PrintDate(date)], [Decimal(partySize)], Request(date, partySize))
  {
    DecimalRoundTrip(partySize);
    DecimalIsShort(partySize, 10);
  }

  lemma {:induction false} DecimalIsShort(n: nat, w: nat)
    requires w >= 1 && n < Pow10(w)
    ensures |Decimal(n)| <= w
  {
    if n >= 10 {
      assert w > 1 by { assert Pow10(1) == 10 * Pow10(0); }
      DecimalIsShort(n / 10, w - 1);
    }
  }

  // A run of 4301 ones, which no validation error is reported for.
  lemma LongPartySizeEscapes()
    ensures TooLong([seq(MAXIMUM_DIGITS + 1, i => '1')])
  {
    var text := seq(MAXIMUM_DIGITS + 1, i => '1');
    assert forall i | 0 <= i < |text| :: IsDigit(text[i]);
  }
}
