/** The server's identity rules (validation/identity.py, validation/common.py), on ASCII text. */
module Identity {
  import opened Basics
  import opened PublicErrors
  import opened Words
  import opened Emails

  // A parsed JSON value. `Fractional` is one with a fraction or an exponent.
  datatype Json = Null | Text(text: string) | Whole(whole: int) | Fractional(number: real) | Other

  type Payload = map<Field, Json>

  datatype CustomerIdentity = CustomerIdentity(firstName: string, middleInitial: Option<string>, lastName: string, email: string)

  datatype NormalizedPhone = NormalizedPhone(display: string, digits: string)

  datatype Checked<+T> = Good(value: T) | Bad(problem: Problem)

  predicate Space(c: char) { c == ' ' || '\t' <= c <= '\r' || '\U{1C}' <= c <= '\U{1F}' }

  predicate HasLetter(s: string) { exists i | 0 <= i < |s| :: Letter(s[i]) }

  function NormalizeName(value: Json): Checked<string> {
    if !value.Text? then Bad(InvalidType)
    else
      var normalized := JoinWords(SplitWords(value.text, Space));
      if normalized == "" then Bad(Problem.Empty)
      else if |normalized| > 100 then Bad(TooLong)
      else if !HasLetter(normalized) then Bad(InvalidFormat)
      else Good(normalized)
  }

  function NormalizeMiddle(value: Json): Checked<Option<string>> {
    if !value.Text? then Bad(InvalidType)
    else
      var normalized := Trim(value.text, Space);
      if normalized == "" then Good(None)
      else if |normalized| != 1 || !Letter(normalized[0]) then Bad(InvalidFormat)
      else Good(Some([UpperChar(normalized[0])]))
  }

  function NormalizeEmail(value: Json): Checked<string> {
    if !value.Text? then Bad(InvalidType)
    else
      var normalized := Trim(value.text, Space);
      if normalized == "" then Bad(Problem.Empty)
      else if |normalized| > 254 then Bad(TooLong)
      else if Count(normalized, '@') != 1 then Bad(InvalidFormat)
      else if AddressOk(Before(normalized, '@'), After(normalized, '@')) then Good(Lower(normalized))
      else Bad(InvalidFormat)
  }

  predicate AddressOk(local: string, domain: string) {
    local != "" && domain != "" && LocalOk(local) && LabelsOk(SplitOn(domain, '.'))
  }

  predicate PhoneChar(c: char) { Digit(c) || c in " +().-" }

  function Digits(s: string): string {
    if s == "" then "" else (if Digit(s[0]) then [s[0]] else "") + Digits(s[1..])
  }

  function NormalizePhone(value: Json): Checked<NormalizedPhone> {
    if !value.Text? then Bad(InvalidType)
    else
      var display := Trim(value.text, Space);
      if display == "" then Bad(Problem.Empty)
      else if |display| > 32 then Bad(TooLong)
      else if !All(display, PhoneChar) || !(7 <= |Digits(display)| <= 15) then Bad(InvalidFormat)
      else Good(NormalizedPhone(display, Digits(display)))
  }

  // ----- recorded errors -----

  type Errors = map<Field, seq<FieldError>>

  function Recorded(errors: Errors, field: Field): seq<FieldError> {
    if field in errors then errors[field] else []
  }

  // `errors.setdefault(field, []).append(...)`.
  function Record(errors: Errors, field: Field, problem: Problem): Errors {
    errors[field := Recorded(errors, field) + [FieldError(field, problem)]]
  }

  function OrderedErrors(errors: Errors, order: seq<Field>): seq<FieldError> {
    if order == [] then [] else Recorded(errors, order[0]) + OrderedErrors(errors, order[1..])
  }

  ghost predicate OfTheirField(errors: Errors) {
    forall f | f in errors :: forall e | e in errors[f] :: e.field == f
  }

  // Nothing recorded is dropped or invented when every field has its place in the order.
  lemma {:induction false} OrderedKeepsAll(errors: Errors, order: seq<Field>)
    requires OfTheirField(errors)
    ensures forall f | f in order :: forall e | e in Recorded(errors, f) :: e in OrderedErrors(errors, order)
    ensures forall e | e in OrderedErrors(errors, order) :: e.field in order && e in Recorded(errors, e.field)
  {
    if order != [] {
      OrderedKeepsAll(errors, order[1..]);
    }
  }

  // At most one fault for each field, listed in order.
  function Listed(fault: Field -> Option<Problem>, order: seq<Field>): (errors: seq<FieldError>)
    ensures errors == [] <==> forall i | 0 <= i < |order| :: fault(order[i]).None?
  {
    if order == [] then []
    else
      var rest := Listed(fault, order[1..]);
      assert forall i | 1 <= i < |order| :: order[i] == order[1..][i - 1];
      ErrorsFor(order[0], fault(order[0])) + rest
  }

  lemma {:induction false} OrderedIsListed(errors: Errors, fault: Field -> Option<Problem>, order: seq<Field>)
    requires forall f | f in order :: Recorded(errors, f) == ErrorsFor(f, fault(f))
    ensures OrderedErrors(errors, order) == Listed(fault, order)
  {
    if order != [] {
      OrderedIsListed(errors, fault, order[1..]);
    }
  }

  function ErrorsFor(field: Field, fault: Option<Problem>): seq<FieldError> {
    if fault.None? then [] else [FieldError(field, fault.value)]
  }

  // ----- the identity of a payload -----

  datatype Validation<+T> = Validation(value: Option<T>, errors: seq<FieldError>)

  // The check of the result's constructor: exactly one of value and errors.
  predicate ResultAccepted<T>(r: Validation<T>) { r.value.Some? <==> r.errors == [] }

  const IDENTITY_ORDER: seq<Field> := [FirstName, MiddleInitial, LastName, Email, ConfirmationEmail]

  function Lift(c: Checked<string>): Checked<Option<string>> {
    match c
    case Good(s) => Good(Some(s))
    case Bad(p) => Bad(p)
  }

  function NormalizeField(field: Field, value: Json): Checked<Option<string>> {
    if field.FirstName? || field.LastName? then Lift(NormalizeName(value))
    else if field.MiddleInitial? then NormalizeMiddle(value)
    else Lift(NormalizeEmail(value))
  }

  // What one field of the payload amounts to.
  function Reading(payload: Payload, field: Field): Checked<Option<string>> {
    if field !in payload then (if field.MiddleInitial? then Good(None) else Bad(Required))
    else if payload[field].Null? then Bad(NullNotAllowed)
    else NormalizeField(field, payload[field])
  }

  function IdentityFault(payload: Payload, field: Field): Option<Problem> {
    var reading := Reading(payload, field);
    if reading.Bad? then Some(reading.problem)
    else if field.ConfirmationEmail? && Reading(payload, Email).Good? && Reading(payload, Email).value != reading.value
    then Some(EmailMismatch) else None
  }

  // The identity is accepted exactly when no field is at fault.
  ghost predicate IdentityAccepted(payload: Payload, identity: CustomerIdentity) {
    && Reading(payload, FirstName) == Good(Some(identity.firstName))
    && Reading(payload, MiddleInitial) == Good(identity.middleInitial)
    && Reading(payload, LastName) == Good(Some(identity.lastName))
    && Reading(payload, Email) == Reading(payload, ConfirmationEmail) == Good(Some(identity.email))
  }

  // What the loop has recorded for a field that it has visited, or not yet.
  ghost predicate Visited(payload: Payload, field: Field, errors: Errors, normalized: map<Field, Option<string>>) {
    var reading := Reading(payload, field);
    && Recorded(errors, field) == (if reading.Bad? then [FieldError(field, reading.problem)] else [])
    && (reading.Good? ==> field in normalized && normalized[field] == reading.value)
    && (reading.Bad? && !field.MiddleInitial? ==> field !in normalized)
  }

  ghost predicate Unvisited(field: Field, errors: Errors, normalized: map<Field, Option<string>>) {
    && Recorded(errors, field) == []
    && (if field.MiddleInitial? then field in normalized && normalized[field] == None else field !in normalized)
  }

  ghost predicate Same(f: Field, errors: Errors, normalized: map<Field, Option<string>>, errors': Errors, normalized': map<Field, Option<string>>) {
    && Recorded(errors', f) == Recorded(errors, f)
    && (f in normalized' <==> f in normalized) && (f in normalized ==> normalized'[f] == normalized[f])
  }

  method VisitField(payload: Payload, field: Field, errors: Errors, normalized: map<Field, Option<string>>)
    returns (errors': Errors, normalized': map<Field, Option<string>>)
    requires Unvisited(field, errors, normalized)
    ensures Visited(payload, field, errors', normalized')
    ensures forall f | f != field :: Same(f, errors, normalized, errors', normalized')
  {
    errors', normalized' := errors, normalized;
    if field !in payload {
      if !field.MiddleInitial? {
        errors' := Record(errors, field, Required);
      }
      return;
    }
    if payload[field].Null? {
      errors' := Record(errors, field, NullNotAllowed);
      return;
    }
    var result := NormalizeField(field, payload[field]);
    if result.Bad? {
      errors' := Record(errors, field, result.problem);
    } else {
      normalized' := normalized[field := result.value];
    }
  }

  method ValidateIdentity(payload: Payload) returns (r: Validation<CustomerIdentity>)
    ensures r.errors == Listed(f => IdentityFault(payload, f), IDENTITY_ORDER)
    ensures ResultAccepted(r)
    ensures r.value.Some? ==> IdentityAccepted(payload, r.value.value)
    ensures (exists identity :: IdentityAccepted(payload, identity)) ==> r.value.Some?
  {
    var errors: Errors := map[];
    var normalized: map<Field, Option<string>> := map[MiddleInitial := None];
    for i := 0 to |IDENTITY_ORDER|
      invariant forall j | 0 <= j < i :: Visited(payload, IDENTITY_ORDER[j], errors, normalized)
      invariant forall j | i <= j < |IDENTITY_ORDER| :: Unvisited(IDENTITY_ORDER[j], errors, normalized)
    {
      var field := IDENTITY_ORDER[i];
      assert forall j | 0 <= j < |IDENTITY_ORDER| && j != i :: IDENTITY_ORDER[j] != field;
      ghost var errors0, normalized0 := errors, normalized;
      errors, normalized := VisitField(payload, field, errors, normalized);
      forall j | 0 <= j < |IDENTITY_ORDER| && j != i
        ensures Visited(payload, IDENTITY_ORDER[j], errors0, normalized0) ==> Visited(payload, IDENTITY_ORDER[j], errors, normalized)
        ensures Unvisited(IDENTITY_ORDER[j], errors0, normalized0) ==> Unvisited(IDENTITY_ORDER[j], errors, normalized)
      {
        assert Same(IDENTITY_ORDER[j], errors0, normalized0, errors, normalized);
      }
    }
    AllVisited(payload, errors, normalized);
    r := Conclude(payload, errors, normalized);
  }

  lemma AllVisited(payload: Payload, errors: Errors, normalized: map<Field, Option<string>>)
    requires forall j | 0 <= j < |IDENTITY_ORDER| :: Visited(payload, IDENTITY_ORDER[j], errors, normalized)
    ensures VisitedAll(payload, errors, normalized)
  {
    assert IDENTITY_ORDER[0] == FirstName && IDENTITY_ORDER[1] == MiddleInitial && IDENTITY_ORDER[2] == LastName;
    assert IDENTITY_ORDER[3] == Email && IDENTITY_ORDER[4] == ConfirmationEmail;
  }

  ghost predicate VisitedAll(payload: Payload, errors: Errors, normalized: map<Field, Option<string>>) {
    && Visited(payload, FirstName, errors, normalized) && Visited(payload, MiddleInitial, errors, normalized)
    && Visited(payload, LastName, errors, normalized) && Visited(payload, Email, errors, normalized)
    && Visited(payload, ConfirmationEmail, errors, normalized)
  }

  // The comparison of the two addresses, and the result.
  method Conclude(payload: Payload, visited: Errors, normalized: map<Field, Option<string>>) returns (r: Validation<CustomerIdentity>)
    requires VisitedAll(payload, visited, normalized)
    ensures r.errors == Listed(f => IdentityFault(payload, f), IDENTITY_ORDER)
    ensures ResultAccepted(r)
    ensures r.value.Some? ==> IdentityAccepted(payload, r.value.value)
    ensures (exists identity :: IdentityAccepted(payload, identity)) ==> r.value.Some?
  {
    var errors := visited;
    if Email in normalized && ConfirmationEmail in normalized && normalized[Email] != normalized[ConfirmationEmail] {
      errors := Record(errors, ConfirmationEmail, EmailMismatch);
    }
    FaultsRecorded(payload, visited, errors, normalized);
    OrderedIsListed(errors, f => IdentityFault(payload, f), IDENTITY_ORDER);
    var ordered := OrderedErrors(errors, IDENTITY_ORDER);
    NoFaultMeansAccepted(payload);
    if ordered != [] {
      return Validation(None, ordered);
    }
    r := Validation(Some(Build(payload, visited, normalized)), []);
  }

  function Build(ghost payload: Payload, ghost visited: Errors, normalized: map<Field, Option<string>>): (identity: CustomerIdentity)
    requires VisitedAll(payload, visited, normalized) && Faultless(payload)
    ensures IdentityAccepted(payload, identity)
  {
    CustomerIdentity(normalized[FirstName].value, normalized[MiddleInitial], normalized[LastName].value, normalized[Email].value)
  }

  ghost predicate Faultless(payload: Payload) {
    && Reading(payload, FirstName).Good? && Reading(payload, FirstName).value.Some?
    && Reading(payload, MiddleInitial).Good?
    && Reading(payload, LastName).Good? && Reading(payload, LastName).value.Some?
    && Reading(payload, Email) == Reading(payload, ConfirmationEmail)
    && Reading(payload, Email).Good? && Reading(payload, Email).value.Some?
  }

  lemma FaultsRecorded(payload: Payload, visited: Errors, errors: Errors, normalized: map<Field, Option<string>>)
    requires VisitedAll(payload, visited, normalized)
    requires errors ==
      if Email in normalized && ConfirmationEmail in normalized && normalized[Email] != normalized[ConfirmationEmail]
      then Record(visited, ConfirmationEmail, EmailMismatch) else visited
    ensures forall f | f in IDENTITY_ORDER :: Recorded(errors, f) == ErrorsFor(f, IdentityFault(payload, f))
  {
  }

  lemma NoFaultMeansAccepted(payload: Payload)
    ensures Listed(f => IdentityFault(payload, f), IDENTITY_ORDER) == [] ==> Faultless(payload)
    ensures (exists identity :: IdentityAccepted(payload, identity)) ==> Listed(f => IdentityFault(payload, f), IDENTITY_ORDER) == []
  {
    var fault := f => IdentityFault(payload, f);
    if Listed(fault, IDENTITY_ORDER) == [] {
      assert forall i | 0 <= i < 5 :: fault(IDENTITY_ORDER[i]).None?;
      assert fault(FirstName).None? && fault(MiddleInitial).None? && fault(LastName).None? && fault(Email).None?;
      assert fault(ConfirmationEmail).None?;
    }
  }
}
