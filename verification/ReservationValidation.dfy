/** The validation of a booking request (validation/reservation.py). */
module ReservationValidation {
  import opened Basics
  import opened Calendar
  import opened PublicErrors
  import opened DateTexts
  import opened Identity
  import Records

  type Command = Records.ReservationCommand

  const BOOKING_ORDER: seq<Field> :=
    [FirstName, MiddleInitial, LastName, Email, ConfirmationEmail,
     Phone, StartsAtLocal, UtcOffsetMinutes, PartySizeField, NewsletterActionField]

  function ExactInteger(value: Json): Option<int> {
    if value.Whole? then Some(value.whole)
    else if value.Fractional? && value.number.Floor as real == value.number then Some(value.number.Floor)
    else None
  }

  // ----- what each field amounts to -----

  function PhoneReading(payload: Payload): Checked<Option<string>> {
    if Phone !in payload then Good(None)
    else if payload[Phone].Null? then Bad(NullNotAllowed)
    else
      var phone := NormalizePhone(payload[Phone]);
      if phone.Bad? then Bad(phone.problem) else Good(Some(phone.value.display))
  }

  function StartReading(payload: Payload, reading: Reading): Checked<(WallTime, int)> {
    if StartsAtLocal !in payload then Bad(Required)
    else if payload[StartsAtLocal].Null? then Bad(NullNotAllowed)
    else if !payload[StartsAtLocal].Text? then Bad(InvalidType)
    else
      var start := ParseStart(payload[StartsAtLocal].text, reading);
      if start.BadFormat? then Bad(InvalidFormat)
      else if start.Parsed? then Good((start.local, start.offset))
      else Bad(InvalidValue)
  }

  // The offset that the start names, even one that makes the start invalid.
  function OffsetFromStart(payload: Payload, reading: Reading): Option<int> {
    if StartsAtLocal !in payload || !payload[StartsAtLocal].Text? then None
    else
      var start := ParseStart(payload[StartsAtLocal].text, reading);
      if start.Parsed? then Some(start.offset) else if start.TooFar? then Some(start.offset) else None
  }

  function OffsetReading(payload: Payload, reading: Reading): Checked<int> {
    var fromStart := OffsetFromStart(payload, reading);
    if UtcOffsetMinutes !in payload then Bad(Required)
    else if payload[UtcOffsetMinutes].Null? then Bad(NullNotAllowed)
    else
      var offset := ExactInteger(payload[UtcOffsetMinutes]);
      if offset.None? then Bad(InvalidType)
      else if !(-840 <= offset.value <= 840) then Bad(OutOfRange)
      else if fromStart.Some? && offset != fromStart then Bad(Problem.UtcOffsetMismatch)
      else Good(offset.value)
  }

  function PartyReading(payload: Payload): Checked<int> {
    if PartySizeField !in payload then Bad(Required)
    else if payload[PartySizeField].Null? then Bad(NullNotAllowed)
    else
      var size := ExactInteger(payload[PartySizeField]);
      if size.None? then Bad(InvalidType)
      else if !(1 <= size.value <= 2147483647) then Bad(OutOfRange)
      else Good(size.value)
  }

  function ActionReading(payload: Payload): Checked<Records.NewsletterAction> {
    if NewsletterActionField !in payload then Bad(Required)
    else if payload[NewsletterActionField].Null? then Bad(NullNotAllowed)
    else if !payload[NewsletterActionField].Text? then Bad(InvalidType)
    else if payload[NewsletterActionField].text == "subscribe" then Good(Records.Subscribe)
    else if payload[NewsletterActionField].text == "unsubscribe" then Good(Records.Unsubscribe)
    else if payload[NewsletterActionField].text == "no_change" then Good(Records.NoChange)
    else Bad(InvalidValue)
  }

  function ProblemOf<T>(c: Checked<T>): Option<Problem> { if c.Bad? then Some(c.problem) else None }

  // The faults of the fields that are not part of the identity.
  datatype Faults = Faults(phone: Option<Problem>, start: Option<Problem>, offset: Option<Problem>, party: Option<Problem>, action: Option<Problem>)

  function FaultsOf(payload: Payload, reading: Reading): Faults {
    Faults(ProblemOf(PhoneReading(payload)), ProblemOf(StartReading(payload, reading)), ProblemOf(OffsetReading(payload, reading)),
           ProblemOf(PartyReading(payload)), ProblemOf(ActionReading(payload)))
  }

  function Fault(identity: Field -> Option<Problem>, rest: Faults, field: Field): Option<Problem> {
    match field
    case Phone => rest.phone
    case StartsAtLocal => rest.start
    case UtcOffsetMinutes => rest.offset
    case PartySizeField => rest.party
    case NewsletterActionField => rest.action
    case LocalDate => None
    case _ => identity(field)
  }

  function BookingFault(payload: Payload, reading: Reading, field: Field): Option<Problem> {
    Fault(f => IdentityFault(payload, f), FaultsOf(payload, reading), field)
  }

  function Who(c: Command): CustomerIdentity { CustomerIdentity(c.firstName, c.middleInitial, c.lastName, c.email) }

  ghost predicate RestAccepted(payload: Payload, reading: Reading, c: Command) {
    && PhoneReading(payload) == Good(c.phone)
    && StartReading(payload, reading) == Good((c.localStart, c.utcOffsetMinutes))
    && OffsetReading(payload, reading) == Good(c.utcOffsetMinutes)
    && PartyReading(payload) == Good(c.partySize)
    && ActionReading(payload) == Good(c.newsletterAction)
  }

  // The command says what the payload says.
  ghost predicate BookingAccepted(payload: Payload, reading: Reading, c: Command) {
    IdentityAccepted(payload, Who(c)) && RestAccepted(payload, reading, c)
  }

  // ----- recording -----

  function Select(errors: seq<FieldError>, field: Field): seq<FieldError> {
    if errors == [] then []
    else Select(errors[..|errors| - 1], field) + (if errors[|errors| - 1].field == field then [errors[|errors| - 1]] else [])
  }

  method RecordAll(found: seq<FieldError>) returns (errors: Errors)
    ensures forall f :: Recorded(errors, f) == Select(found, f)
  {
    errors := map[];
    for i := 0 to |found|
      invariant forall f :: Recorded(errors, f) == Select(found[..i], f)
    {
      errors := Record(errors, found[i].field, found[i].problem);
      assert found[..i + 1][..i] == found[..i];
    }
    assert found[..|found|] == found;
  }

  lemma {:induction false} SelectAppend(a: seq<FieldError>, b: seq<FieldError>, field: Field)
    ensures Select(a + b, field) == Select(a, field) + Select(b, field)
  {
    if b == [] {
      assert a + b == a;
    } else {
      var most := b[..|b| - 1];
      SelectAppend(a, most, field);
      assert (a + b)[..|a + b| - 1] == a + most;
    }
  }

  // A listing gives each of its fields that field's fault, and nothing to any other.
  lemma {:induction false} SelectListed(fault: Field -> Option<Problem>, order: seq<Field>, field: Field)
    requires forall i, j | 0 <= i < j < |order| :: order[i] != order[j]
    ensures Select(Listed(fault, order), field) == if field in order then ErrorsFor(field, fault(field)) else []
  {
    if order != [] {
      SelectListed(fault, order[1..], field);
      SelectAppend(ErrorsFor(order[0], fault(order[0])), Listed(fault, order[1..]), field);
      assert field in order <==> field == order[0] || field in order[1..];
      assert order[0] !in order[1..];
      SelectOne(order[0], fault(order[0]), field);
    }
  }

  lemma SelectOne(f: Field, fault: Option<Problem>, field: Field)
    ensures Select(ErrorsFor(f, fault), field) == if f == field then ErrorsFor(f, fault) else []
  {
    var one := ErrorsFor(f, fault);
    if one != [] { assert one[..0] == []; }
  }

  function Noted(errors: Errors, field: Field, problem: Option<Problem>): (r: Errors)
    ensures Recorded(r, field) == Recorded(errors, field) + ErrorsFor(field, problem)
    ensures forall f | f != field :: Recorded(r, f) == Recorded(errors, f)
  {
    if problem.None? then errors else Record(errors, field, problem.value)
  }

  // Each of the other fields gets its fault, if any.
  method NoteAll(errors: Errors, rest: Faults) returns (r: Errors)
    ensures forall f :: Recorded(r, f) == Recorded(errors, f) + ErrorsFor(f, Fault(g => None, rest, f))
  {
    r := Noted(errors, Phone, rest.phone);
    r := Noted(r, StartsAtLocal, rest.start);
    r := Noted(r, UtcOffsetMinutes, rest.offset);
    r := Noted(r, PartySizeField, rest.party);
    r := Noted(r, NewsletterActionField, rest.action);
    forall f ensures Recorded(r, f) == Recorded(errors, f) + ErrorsFor(f, Fault(g => None, rest, f)) {
      assert OfIdentity(f) || f.LocalDate? ==> Recorded(r, f) == Recorded(errors, f);
    }
  }

  method ValidateReservation(payload: Payload, reading: Reading) returns (r: Validation<Command>)
    ensures r.errors == Listed(f => BookingFault(payload, reading, f), BOOKING_ORDER)
    ensures ResultAccepted(r)
    ensures r.value.Some? ==> BookingAccepted(payload, reading, r.value.value) && Records.CommandAccepted(r.value.value)
    ensures (exists c :: BookingAccepted(payload, reading, c)) ==> r.value.Some?
  {
    var identity := ValidateIdentity(payload);
    Orders();
    var failures := CollectFailures(identity.errors, IDENTITY_ORDER, BOOKING_ORDER, f => IdentityFault(payload, f), FaultsOf(payload, reading));
    SameListing(f => Fault(g => IdentityFault(payload, g), FaultsOf(payload, reading), f), f => BookingFault(payload, reading, f), BOOKING_ORDER);
    r := Decide(payload, reading, identity, failures);
  }

  lemma {:induction false} SameListing(a: Field -> Option<Problem>, b: Field -> Option<Problem>, order: seq<Field>)
    requires forall f :: a(f) == b(f)
    ensures Listed(a, order) == Listed(b, order)
  {
    if order != [] { SameListing(a, b, order[1..]); }
  }

  predicate OfIdentity(f: Field) {
    f.FirstName? || f.MiddleInitial? || f.LastName? || f.Email? || f.ConfirmationEmail?
  }

  // The identity's errors and the rest, in the order of the booking fields.
  method CollectFailures(found: seq<FieldError>, identityOrder: seq<Field>, order: seq<Field>, identity: Field -> Option<Problem>, rest: Faults)
    returns (failures: seq<FieldError>)
    requires forall i, j | 0 <= i < j < |identityOrder| :: identityOrder[i] != identityOrder[j]
    requires forall f :: f in identityOrder <==> OfIdentity(f)
    requires LocalDate !in order
    requires found == Listed(identity, identityOrder)
    ensures failures == Listed(f => Fault(identity, rest, f), order)
  {
    var errors := RecordAll(found);
    forall f ensures Recorded(errors, f) == if OfIdentity(f) then ErrorsFor(f, identity(f)) else [] {
      SelectListed(identity, identityOrder, f);
    }
    errors := NoteAll(errors, rest);
    forall f | f in order ensures Recorded(errors, f) == ErrorsFor(f, Fault(identity, rest, f)) {
      FaultSplits(identity, rest, f);
    }
    OrderedIsListed(errors, f => Fault(identity, rest, f), order);
    failures := OrderedErrors(errors, order);
  }

  lemma FaultSplits(identity: Field -> Option<Problem>, rest: Faults, f: Field)
    requires !f.LocalDate?
    ensures Fault(identity, rest, f) == if OfIdentity(f) then identity(f) else Fault(g => None, rest, f)
    ensures OfIdentity(f) ==> Fault(g => None, rest, f).None?
  {
  }

  lemma Orders()
    ensures forall f :: f in IDENTITY_ORDER <==> OfIdentity(f)
    ensures LocalDate !in BOOKING_ORDER
  {
  }

  method Decide(payload: Payload, reading: Reading, identity: Validation<CustomerIdentity>, failures: seq<FieldError>) returns (r: Validation<Command>)
    requires failures == Listed(f => BookingFault(payload, reading, f), BOOKING_ORDER)
    requires identity.errors == Listed(f => IdentityFault(payload, f), IDENTITY_ORDER) && ResultAccepted(identity)
    requires identity.value.Some? ==> IdentityAccepted(payload, identity.value.value)
    requires (exists who :: IdentityAccepted(payload, who)) ==> identity.value.Some?
    ensures r.errors == failures
    ensures ResultAccepted(r)
    ensures r.value.Some? ==> BookingAccepted(payload, reading, r.value.value) && Records.CommandAccepted(r.value.value)
    ensures (exists c :: BookingAccepted(payload, reading, c)) ==> r.value.Some?
  {
    NoBookingFault(payload, reading, identity);
    if failures != [] {
      return Validation(None, failures);
    }
    r := Validation(Some(Build(payload, reading, identity.value.value)), []);
  }

  lemma NoFault(identity: Field -> Option<Problem>, rest: Faults, identityOrder: seq<Field>, order: seq<Field>)
    requires forall f :: f in identityOrder <==> OfIdentity(f)
    requires forall f :: f in order <==> !f.LocalDate?
    ensures Listed(f => Fault(identity, rest, f), order) == [] <==>
            Listed(identity, identityOrder) == [] && rest == Faults(None, None, None, None, None)
  {
    NoneOf(f => Fault(identity, rest, f), order);
    NoneOf(identity, identityOrder);
    NoFaultAnywhere(identity, rest);
  }

  lemma NoFaultAnywhere(identity: Field -> Option<Problem>, rest: Faults)
    ensures (forall f: Field | !f.LocalDate? :: Fault(identity, rest, f).None?) <==>
            (forall f: Field | OfIdentity(f) :: identity(f).None?) && rest == Faults(None, None, None, None, None)
  {
    forall f: Field | OfIdentity(f) ensures Fault(identity, rest, f) == identity(f) {
      FaultSplits(identity, rest, f);
    }
    assert Fault(identity, rest, Phone) == rest.phone && Fault(identity, rest, StartsAtLocal) == rest.start;
    assert Fault(identity, rest, UtcOffsetMinutes) == rest.offset && Fault(identity, rest, PartySizeField) == rest.party;
    assert Fault(identity, rest, NewsletterActionField) == rest.action;
  }

  lemma NoneOf(fault: Field -> Option<Problem>, order: seq<Field>)
    ensures Listed(fault, order) == [] <==> forall f | f in order :: fault(f).None?
  {
  }

  lemma EveryBookingField()
    ensures forall f :: f in BOOKING_ORDER <==> !f.LocalDate?
  {
    assert BOOKING_ORDER[0] == FirstName && BOOKING_ORDER[1] == MiddleInitial && BOOKING_ORDER[2] == LastName;
    assert BOOKING_ORDER[3] == Email && BOOKING_ORDER[4] == ConfirmationEmail && BOOKING_ORDER[5] == Phone;
    assert BOOKING_ORDER[6] == StartsAtLocal && BOOKING_ORDER[7] == UtcOffsetMinutes;
    assert BOOKING_ORDER[8] == PartySizeField && BOOKING_ORDER[9] == NewsletterActionField;
  }

  ghost predicate RestGood(payload: Payload, reading: Reading) {
    && PhoneReading(payload).Good? && StartReading(payload, reading).Good? && OffsetReading(payload, reading).Good?
    && PartyReading(payload).Good? && ActionReading(payload).Good?
  }

  lemma NoBookingFault(payload: Payload, reading: Reading, identity: Validation<CustomerIdentity>)
    requires identity.errors == Listed(f => IdentityFault(payload, f), IDENTITY_ORDER) && ResultAccepted(identity)
    ensures Listed(f => BookingFault(payload, reading, f), BOOKING_ORDER) == [] <==> identity.value.Some? && RestGood(payload, reading)
  {
    Orders();
    EveryBookingField();
    NoFault(f => IdentityFault(payload, f), FaultsOf(payload, reading), IDENTITY_ORDER, BOOKING_ORDER);
    SameListing(f => Fault(g => IdentityFault(payload, g), FaultsOf(payload, reading), f), f => BookingFault(payload, reading, f), BOOKING_ORDER);
  }

  function Build(payload: Payload, reading: Reading, who: CustomerIdentity): (c: Command)
    requires RestGood(payload, reading)
    ensures Who(c) == who && RestAccepted(payload, reading, c) && Records.CommandAccepted(c)
  {
    OffsetsAgree(payload, reading);
    Records.ReservationCommand(who.firstName, who.middleInitial, who.lastName, who.email,
                               PhoneReading(payload).value, StartReading(payload, reading).value.0,
                               OffsetReading(payload, reading).value, PartyReading(payload).value, ActionReading(payload).value)
  }

  lemma OffsetsAgree(payload: Payload, reading: Reading)
    requires StartReading(payload, reading).Good? && OffsetReading(payload, reading).Good?
    ensures StartReading(payload, reading).value.1 == OffsetReading(payload, reading).value
    ensures -840 <= OffsetReading(payload, reading).value <= 840
  {
  }

  // ----- an offset that is reported twice -----

  // The start is invalid and the separate offset a mismatch as well, exactly when the start is a valid
  // date-time with an offset beyond the protocol's range and the separate offset is a whole number
  // within it: the offset that was read is compared although the start was refused.
  lemma FarOffsetIsReportedTwice(payload: Payload, reading: Reading)
    ensures
      BookingFault(payload, reading, StartsAtLocal) == Some(InvalidValue)
      && BookingFault(payload, reading, UtcOffsetMinutes) == Some(Problem.UtcOffsetMismatch)
      <==>
      && StartsAtLocal in payload && payload[StartsAtLocal].Text? && ParseStart(payload[StartsAtLocal].text, reading).TooFar?
      && UtcOffsetMinutes in payload && ExactInteger(payload[UtcOffsetMinutes]).Some?
      && -840 <= ExactInteger(payload[UtcOffsetMinutes]).value <= 840
  {
  }

  // Six in the evening of the first of June 2026, fifteen hours ahead of UTC, with a separate offset
  // of zero.
  function FarPayload(): Payload {
    map[StartsAtLocal := Text(PrintStart(DateTime(2026, 6, 1, 18, 0, 0), 900)), UtcOffsetMinutes := Whole(0)]
  }

  lemma FarOffsetHappens(reading: Reading)
    ensures BookingFault(FarPayload(), reading, StartsAtLocal) == Some(InvalidValue)
    ensures BookingFault(FarPayload(), reading, UtcOffsetMinutes) == Some(Problem.UtcOffsetMismatch)
  {
    StartPieces(DateTime(2026, 6, 1, 18, 0, 0), 900);
    FarOffsetIsReportedTwice(FarPayload(), reading);
  }
}
