/**
 * The client's form rules (forms/validation.js), on ASCII text, and their agreement with the
 * server's: an eligible form is exactly one whose raw values the server would accept, except that
 * the client limits domain labels to 63 characters, and what the client then sends is accepted as
 * the same identity.
 */
module IdentityForm {
  import opened Basics
  import opened PublicErrors
  import opened Words
  import opened Emails
  import opened FormTypes
  import I = Identity

  predicate Space(c: char) { c == ' ' || '\t' <= c <= '\r' }

  predicate NotSpace(c: char) { !Space(c) }

  // ASCII without the four separators that only Python counts as white space.
  ghost predicate Plain(s: string) { forall c | c in s :: c < '\U{1C}' || '\U{1F}' < c < '\U{80}' }

  function NormalizeName(s: string): string { Collapse(Trim(s, Space), Space) }

  function NormalizeEmail(s: string): string { Lower(Trim(s, Space)) }

  predicate NameOk(s: string) {
    var normalized := NormalizeName(s);
    normalized != "" && |normalized| <= 100 && I.HasLetter(normalized)
  }

  predicate MiddleOk(s: string) {
    var middle := Trim(s, Space);
    middle != "" ==> |middle| == 1 && Letter(middle[0])
  }

  predicate IsValidEmail(s: string) {
    var email := Trim(s, Space);
    && email != "" && |email| <= 254 && All(email, NotSpace)
    && var pieces := SplitOn(email, '@');
       |pieces| == 2 && LocalOk(pieces[0]) && var labels := SplitOn(pieces[1], '.'); LabelsShort(labels) && LabelsOk(labels)
  }

  predicate PhoneOk(s: string) {
    var phone := Trim(s, Space);
    s != "" ==> |phone| <= 32 && phone != "" && All(phone, I.PhoneChar) && 7 <= |I.Digits(phone)| <= 15
  }

  function FieldText(values: IdentityFields, field: Field): string {
    if field.FirstName? then values.firstName
    else if field.MiddleInitial? then values.middleInitial
    else if field.LastName? then values.lastName
    else if field.Email? then values.email
    else values.confirmationEmail
  }

  function At(errors: map<Field, Problem>, field: Field): Option<Problem> {
    if field in errors then Some(errors[field]) else None
  }

  predicate Eligible(values: IdentityFields) {
    && NameOk(values.firstName) && MiddleOk(values.middleInitial) && NameOk(values.lastName)
    && IsValidEmail(values.email) && IsValidEmail(values.confirmationEmail)
    && NormalizeEmail(values.email) == NormalizeEmail(values.confirmationEmail)
  }

  // ----- what an error says -----

  // An error for a name: there is one exactly for an unacceptable name, and it asks for the field
  // exactly when nothing but white space was typed. The others read alike.
  ghost predicate NameError(error: Option<Problem>, s: string) {
    && (error.Some? <==> !NameOk(s))
    && (error == Some(Required) <==> NormalizeName(s) == "")
    && error in {None, Some(Required), Some(InvalidFormat)}
  }

  ghost predicate MiddleError(error: Option<Problem>, s: string) {
    error == if MiddleOk(s) then None else Some(InvalidFormat)
  }

  ghost predicate EmailError(error: Option<Problem>, s: string) {
    && (error.Some? <==> !IsValidEmail(s))
    && (error == Some(Required) <==> Trim(s, Space) == "")
    && error in {None, Some(Required), Some(InvalidFormat)}
  }

  ghost predicate ConfirmationError(error: Option<Problem>, email: string, confirmation: string) {
    && (error.None? <==> IsValidEmail(confirmation) && (IsValidEmail(email) ==> NormalizeEmail(email) == NormalizeEmail(confirmation)))
    && (error == Some(EmailMismatch) <==> IsValidEmail(confirmation) && error.Some?)
    && (error == Some(Required) <==> Trim(confirmation, Space) == "")
  }

  ghost predicate PhoneError(error: Option<Problem>, phone: Option<string>) {
    error == if phone.Some? && !PhoneOk(phone.value) then Some(InvalidFormat) else None
  }

  ghost predicate OnlyAbout(fields: set<Field>, errors: map<Field, Problem>, errors': map<Field, Problem>) {
    forall f | f !in fields :: At(errors', f) == At(errors, f)
  }

  const NAMES: seq<Field> := [FirstName, LastName]

  method NameErrors(values: IdentityFields) returns (errors: map<Field, Problem>)
    ensures NameError(At(errors, FirstName), values.firstName) && NameError(At(errors, LastName), values.lastName)
    ensures OnlyAbout({FirstName, LastName}, map[], errors)
  {
    errors := map[];
    for i := 0 to |NAMES|
      invariant forall j | 0 <= j < i :: NameError(At(errors, NAMES[j]), FieldText(values, NAMES[j]))
      invariant errors.Keys <= (if i == 0 then {} else if i == 1 then {FirstName} else {FirstName, LastName})
    {
      var field := NAMES[i];
      var normalized := NormalizeName(FieldText(values, field));
      if normalized == "" {
        errors := errors[field := Required];
      } else if |normalized| > 100 || !I.HasLetter(normalized) {
        errors := errors[field := InvalidFormat];
      }
    }
    assert NAMES[0] == FirstName && NAMES[1] == LastName;
  }

  method EmailErrors(email: string, confirmation: string) returns (e: Option<Problem>, c: Option<Problem>)
    ensures EmailError(e, email) && ConfirmationError(c, email, confirmation)
  {
    e, c := None, None;
    if Trim(email, Space) == "" {
      e := Some(Required);
    } else if !IsValidEmail(email) {
      e := Some(InvalidFormat);
    }
    if Trim(confirmation, Space) == "" {
      c := Some(Required);
    } else if !IsValidEmail(confirmation) {
      c := Some(InvalidFormat);
    } else if IsValidEmail(email) && NormalizeEmail(email) != NormalizeEmail(confirmation) {
      c := Some(EmailMismatch);
    }
  }

  method OtherErrors(middleInitial: string, phone: Option<string>) returns (m: Option<Problem>, p: Option<Problem>)
    ensures MiddleError(m, middleInitial) && PhoneError(p, phone)
  {
    m, p := None, None;
    var middle := Trim(middleInitial, Space);
    if middle != "" && !(|middle| == 1 && Letter(middle[0])) {
      m := Some(InvalidFormat);
    }
    if phone.Some? && phone.value != "" {
      var text := Trim(phone.value, Space);
      var digits := I.Digits(text);
      if |text| > 32 || text == "" || !All(text, I.PhoneChar) || |digits| < 7 || |digits| > 15 {
        p := Some(InvalidFormat);
      }
    }
  }

  function Put(errors: map<Field, Problem>, field: Field, problem: Option<Problem>): (r: map<Field, Problem>)
    requires At(errors, field).None?
    ensures At(r, field) == problem && OnlyAbout({field}, errors, r)
  {
    if problem.None? then errors else errors[field := problem.value]
  }

  function Assembled(names: map<Field, Problem>, m: Option<Problem>, e: Option<Problem>, c: Option<Problem>, p: Option<Problem>)
    : (r: map<Field, Problem>)
    requires OnlyAbout({FirstName, LastName}, map[], names)
    ensures At(r, FirstName) == At(names, FirstName) && At(r, LastName) == At(names, LastName)
    ensures At(r, MiddleInitial) == m && At(r, Email) == e && At(r, ConfirmationEmail) == c && At(r, Phone) == p
    ensures OnlyAbout({FirstName, LastName, MiddleInitial, Email, ConfirmationEmail, Phone}, map[], r)
  {
    Put(Put(Put(Put(names, MiddleInitial, m), Email, e), ConfirmationEmail, c), Phone, p)
  }

  // The errors are right, field by field.
  ghost predicate Judged(values: IdentityFields, phone: Option<string>, errors: map<Field, Problem>) {
    && NameError(At(errors, FirstName), values.firstName) && NameError(At(errors, LastName), values.lastName)
    && MiddleError(At(errors, MiddleInitial), values.middleInitial)
    && EmailError(At(errors, Email), values.email)
    && ConfirmationError(At(errors, ConfirmationEmail), values.email, values.confirmationEmail)
    && PhoneError(At(errors, Phone), phone)
    && OnlyAbout({FirstName, LastName, MiddleInitial, Email, ConfirmationEmail, Phone}, map[], errors)
  }

  method Collect(values: IdentityFields, phone: Option<string>) returns (errors: map<Field, Problem>)
    ensures Judged(values, phone, errors)
  {
    var names := NameErrors(values);
    var m, p := OtherErrors(values.middleInitial, phone);
    var e, c := EmailErrors(values.email, values.confirmationEmail);
    errors := Assembled(names, m, e, c, p);
  }

  // `validateIdentity`; `phone` only with `includePhone`. No error at all means exactly that the form
  // is eligible and its phone acceptable, and then the server accepts what is sent.
  method ValidateIdentity(values: IdentityFields, phone: Option<string>) returns (errors: map<Field, Problem>)
    ensures Judged(values, phone, errors)
    ensures errors == map[] <==> Eligible(values) && (phone.Some? ==> PhoneOk(phone.value))
    ensures errors == map[] && PlainFields(values) ==> I.IdentityAccepted(PayloadOf(BodyOf(values)), Stated(BodyOf(values)))
  {
    errors := Collect(values, phone);
    NoErrors(values, phone, errors);
    if errors == map[] && PlainFields(values) {
      EligibleBodyIsAccepted(values);
    }
  }

  lemma NoErrors(values: IdentityFields, phone: Option<string>, errors: map<Field, Problem>)
    requires Judged(values, phone, errors)
    ensures errors == map[] <==> Eligible(values) && (phone.Some? ==> PhoneOk(phone.value))
  {
    if Eligible(values) && (phone.Some? ==> PhoneOk(phone.value)) {
      NothingAt(errors);
    }
  }

  lemma NothingAt(errors: map<Field, Problem>)
    ensures (forall f :: At(errors, f).None?) ==> errors == map[]
  {
    if forall f :: At(errors, f).None? {
      forall f ensures f !in errors {
        assert At(errors, f).None?;
      }
    }
  }

  function BodyOf(values: IdentityFields): IdentityBody {
    var middle := Trim(values.middleInitial, Space);
    IdentityBody(NormalizeName(values.firstName), if middle == "" then None else Some(middle),
                 NormalizeName(values.lastName), NormalizeEmail(values.email), NormalizeEmail(values.confirmationEmail))
  }

  // ----- field by field -----

  lemma SpacesAgree(s: string)
    requires Plain(s)
    ensures Agree(Space, I.Space, s)
  {
  }

  lemma NamesAgree(s: string)
    requires Plain(s)
    ensures NameOk(s) ==> I.NormalizeName(I.Text(s)) == I.Good(NormalizeName(s))
    ensures I.NormalizeName(I.Text(s)).Good? <==> NameOk(s)
  {
    SpacesAgree(s);
    CollapseIsJoin(s, Space);
    WordsAgree(s, Space, I.Space);
  }

  lemma NameFixed(s: string)
    requires I.NormalizeName(I.Text(s)).Good?
    ensures var n := I.NormalizeName(I.Text(s)); I.NormalizeName(I.Text(n.value)) == n
  {
    WordsAreWords(s, I.Space);
    SplitJoin(SplitWords(s, I.Space), I.Space);
  }

  lemma MiddlesAgree(s: string)
    requires Plain(s)
    ensures I.NormalizeMiddle(I.Text(s)).Good? <==> MiddleOk(s)
    ensures var middle := Trim(s, Space);
      MiddleOk(s) ==> I.NormalizeMiddle(I.Text(s)) == I.Good(if middle == "" then None else Some([UpperChar(middle[0])]))
  {
    SpacesAgree(s);
    TrimAgrees(s, Space, I.Space);
  }

  lemma MiddleFixed(c: char)
    requires Letter(c)
    ensures I.NormalizeMiddle(I.Text([c])) == I.Good(Some([UpperChar(c)])) == I.NormalizeMiddle(I.Text([UpperChar(c)]))
  {
    TrimmedStays([c], I.Space);
    TrimmedStays([UpperChar(c)], I.Space);
  }

  lemma TrimmedStays(s: string, space: Class)
    requires Trimmed(s, space)
    ensures Trim(s, space) == s
  {
  }

  // The address tests differ only in the length of the domain's labels.
  lemma EmailsAgree(s: string)
    requires Plain(s)
    ensures IsValidEmail(s) <==>
            I.NormalizeEmail(I.Text(s)).Good? && LabelsShort(SplitOn(After(Trim(s, Space), '@'), '.'))
    ensures IsValidEmail(s) ==> I.NormalizeEmail(I.Text(s)) == I.Good(NormalizeEmail(s))
  {
    SpacesAgree(s);
    TrimAgrees(s, Space, I.Space);
    var email := Trim(s, Space);
    TwoParts(email, '@');
    if Count(email, '@') == 1 {
      var local, domain := Before(email, '@'), After(email, '@');
      if I.AddressOk(local, domain) {
        AddressHasNoSpace(email);
      }
      if LocalOk(local) && LabelsOk(SplitOn(domain, '.')) {
        LabelsNeedText(domain);
      }
    }
  }

  lemma LabelsNeedText(domain: string)
    ensures LabelsOk(SplitOn(domain, '.')) ==> domain != ""
  {
    if domain == "" {
      assert !LabelOk(SplitOn(domain, '.')[0]);
    }
  }

  lemma AddressHasNoSpace(email: string)
    requires Count(email, '@') == 1 && I.AddressOk(Before(email, '@'), After(email, '@'))
    ensures All(email, NotSpace)
  {
    var local, domain := Before(email, '@'), After(email, '@');
    SplitOnMeaning(email, '@');
    TwoParts(email, '@');
    assert email == local + ['@'] + domain;
    LocalHasNoSpace(local, false);
    LabelsHaveNoSpace(SplitOn(domain, '.'));
    SplitOnMeaning(domain, '.');
  }

  lemma {:induction false} LocalHasNoSpace(s: string, open: bool)
    requires MatchesLocal(s, open)
    ensures All(s, NotSpace)
  {
    if s != "" {
      LocalHasNoSpace(s[1..], s[0] != '.');
      assert s == [s[0]] + s[1..];
    }
  }

  lemma {:induction false} LabelsHaveNoSpace(labels: seq<string>)
    requires labels != [] && LabelsOk(labels)
    ensures All(JoinOn(labels, '.'), NotSpace)
  {
    if |labels| > 1 {
      LabelsHaveNoSpace(labels[1..]);
    }
    assert LabelOk(labels[0]);
  }

  lemma EmailFixed(s: string)
    requires I.NormalizeEmail(I.Text(s)).Good?
    ensures var e := I.NormalizeEmail(I.Text(s)); I.NormalizeEmail(I.Text(e.value)) == e
  {
    var email := Trim(s, I.Space);
    var e := Lower(email);
    LowerKeepsTrimmed(email, I.Space);
    TrimmedStays(e, I.Space);
    TwoParts(email, '@');
    TwoParts(e, '@');
    LowerSplits(email, '@');
    var local, domain := Before(email, '@'), After(email, '@');
    assert SplitOn(e, '@') == [Lower(local), Lower(domain)];
    LowerLocal(local, false);
    LowerSplits(domain, '.');
    LowerLabels(SplitOn(domain, '.'));
    LowerTwice(email);
  }

  lemma PhonesAgree(s: string)
    requires Plain(s) && s != ""
    ensures I.NormalizePhone(I.Text(s)).Good? <==> PhoneOk(s)
    ensures PhoneOk(s) ==> I.NormalizePhone(I.Text(s)).value.display == Trim(s, Space) != ""
  {
    SpacesAgree(s);
    TrimAgrees(s, Space, I.Space);
  }

  lemma PhoneFixed(s: string)
    requires I.NormalizePhone(I.Text(s)).Good?
    ensures var p := I.NormalizePhone(I.Text(s)); I.NormalizePhone(I.Text(p.value.display)) == p
  {
    TrimmedStays(Trim(s, I.Space), I.Space);
  }

  lemma NameSent(s: string)
    requires Plain(s) && NameOk(s)
    ensures I.Lift(I.NormalizeName(I.Text(NormalizeName(s)))) == I.Good(Some(NormalizeName(s)))
  {
    NamesAgree(s);
    NameFixed(s);
  }

  lemma EmailSent(s: string)
    requires Plain(s) && IsValidEmail(s)
    ensures I.Lift(I.NormalizeEmail(I.Text(NormalizeEmail(s)))) == I.Good(Some(NormalizeEmail(s)))
  {
    EmailsAgree(s);
    EmailFixed(s);
  }

  lemma MiddleSent(s: string)
    requires Plain(s) && MiddleOk(s) && Trim(s, Space) != ""
    ensures var middle := Trim(s, Space);
      |middle| == 1 && I.NormalizeMiddle(I.Text(middle)) == I.Good(Some([UpperChar(middle[0])]))
  {
    var middle := Trim(s, Space);
    MiddleFixed(middle[0]);
    assert middle == [middle[0]];
  }

  // ----- whole forms -----

  ghost predicate PlainFields(values: IdentityFields) {
    && Plain(values.firstName) && Plain(values.middleInitial) && Plain(values.lastName)
    && Plain(values.email) && Plain(values.confirmationEmail)
  }

  // A form's values before the client normalises them.
  function RawBody(values: IdentityFields): IdentityBody {
    IdentityBody(values.firstName, Some(values.middleInitial), values.lastName, values.email, values.confirmationEmail)
  }

  // A body as the server parses it.
  function PayloadOf(body: IdentityBody): (payload: I.Payload)
    ensures payload.Keys <= {FirstName, MiddleInitial, LastName, Email, ConfirmationEmail}
  {
    var required: I.Payload := map[FirstName := I.Text(body.firstName), LastName := I.Text(body.lastName),
                                   Email := I.Text(body.email), ConfirmationEmail := I.Text(body.confirmationEmail)];
    if body.middleInitial.None? then required else required[MiddleInitial := I.Text(body.middleInitial.value)]
  }

  function Uppered(middle: Option<string>): Option<string> {
    if middle.Some? && |middle.value| == 1 then Some([UpperChar(middle.value[0])]) else middle
  }

  // The identity a body states.
  function Stated(body: IdentityBody): I.CustomerIdentity {
    I.CustomerIdentity(body.firstName, Uppered(body.middleInitial), body.lastName, body.email)
  }

  predicate ShortLabels(values: IdentityFields) {
    && LabelsShort(SplitOn(After(Trim(values.email, Space), '@'), '.'))
    && LabelsShort(SplitOn(After(Trim(values.confirmationEmail, Space), '@'), '.'))
  }

  // The form is eligible exactly when the server would accept what was typed, up to the length of
  // the labels of the domains.
  lemma EligibleMeansAcceptable(values: IdentityFields)
    requires PlainFields(values)
    ensures Eligible(values) <==>
            ShortLabels(values) && exists identity :: I.IdentityAccepted(PayloadOf(RawBody(values)), identity)
  {
    NamesAgree(values.firstName);
    NamesAgree(values.lastName);
    MiddlesAgree(values.middleInitial);
    EmailsAgree(values.email);
    EmailsAgree(values.confirmationEmail);
    RawAcceptance(RawBody(values), values.middleInitial);
  }

  lemma RawAcceptance(body: IdentityBody, middle: string)
    requires body.middleInitial == Some(middle)
    ensures (exists identity :: I.IdentityAccepted(PayloadOf(body), identity)) <==>
      && I.NormalizeName(I.Text(body.firstName)).Good? && I.NormalizeMiddle(I.Text(middle)).Good?
      && I.NormalizeName(I.Text(body.lastName)).Good? && I.NormalizeEmail(I.Text(body.email)).Good?
      && I.NormalizeEmail(I.Text(body.confirmationEmail)) == I.NormalizeEmail(I.Text(body.email))
  {
    var first, last, email := I.NormalizeName(I.Text(body.firstName)), I.NormalizeName(I.Text(body.lastName)), I.NormalizeEmail(I.Text(body.email));
    var initial := I.NormalizeMiddle(I.Text(middle));
    forall identity ensures I.IdentityAccepted(PayloadOf(body), identity) <==> Accepts(body, identity) {
      BodyAccepted(body, identity);
    }
    if first.Good? && last.Good? && email.Good? && initial.Good? {
      var identity := I.CustomerIdentity(first.value, initial.value, last.value, email.value);
      assert Accepts(body, identity) <==> I.NormalizeEmail(I.Text(body.confirmationEmail)) == email;
    }
  }

  ghost predicate Accepts(body: IdentityBody, identity: I.CustomerIdentity) {
    && I.Lift(I.NormalizeName(I.Text(body.firstName))) == I.Good(Some(identity.firstName))
    && (if body.middleInitial.None? then identity.middleInitial == None
        else I.NormalizeMiddle(I.Text(body.middleInitial.value)) == I.Good(identity.middleInitial))
    && I.Lift(I.NormalizeName(I.Text(body.lastName))) == I.Good(Some(identity.lastName))
    && I.Lift(I.NormalizeEmail(I.Text(body.email))) == I.Good(Some(identity.email))
    && I.Lift(I.NormalizeEmail(I.Text(body.confirmationEmail))) == I.Good(Some(identity.email))
  }

  lemma BodyAccepted(body: IdentityBody, identity: I.CustomerIdentity)
    ensures I.IdentityAccepted(PayloadOf(body), identity) <==> Accepts(body, identity)
  {
  }

  // What the client sends for an eligible form is accepted as the identity it states.
  lemma EligibleBodyIsAccepted(values: IdentityFields)
    requires PlainFields(values) && Eligible(values)
    ensures I.IdentityAccepted(PayloadOf(BodyOf(values)), Stated(BodyOf(values)))
  {
    var body := BodyOf(values);
    NameSent(values.firstName);
    NameSent(values.lastName);
    EmailSent(values.email);
    if Trim(values.middleInitial, Space) != "" {
      MiddleSent(values.middleInitial);
    }
    BodyAccepted(body, Stated(body));
  }

  lemma UpperedOnce(s: string)
    requires I.NormalizeMiddle(I.Text(s)).Good? && I.NormalizeMiddle(I.Text(s)).value.Some?
    ensures var middle := I.NormalizeMiddle(I.Text(s)).value.value;
      I.NormalizeMiddle(I.Text(middle)) == I.Good(Some(middle)) && Uppered(Some(middle)) == Some(middle)
  {
    MiddleFixed(Trim(s, I.Space)[0]);
  }

  // A normalised identity, sent again, is accepted unchanged.
  lemma AcceptedIdentityIsFixed(payload: I.Payload, identity: I.CustomerIdentity)
    requires I.IdentityAccepted(payload, identity)
    ensures var body := IdentityBody(identity.firstName, identity.middleInitial, identity.lastName, identity.email, identity.email);
      I.IdentityAccepted(PayloadOf(body), identity) && Stated(body) == identity
  {
    var body := IdentityBody(identity.firstName, identity.middleInitial, identity.lastName, identity.email, identity.email);
    NameFixed(payload[FirstName].text);
    NameFixed(payload[LastName].text);
    EmailFixed(payload[Email].text);
    if identity.middleInitial.Some? {
      UpperedOnce(payload[MiddleInitial].text);
    }
    BodyAccepted(body, identity);
  }

  // ----- where the two address tests differ -----

  // One character, and a domain of a single label.
  function LongAddress(domain: string): string { "a@" + domain }

  lemma LongAddressSplits(domain: string)
    requires '@' !in domain
    ensures var s := LongAddress(domain); Count(s, '@') == 1 && Before(s, '@') == "a" && After(s, '@') == domain
  {
    var s := LongAddress(domain);
    OnePart(domain, '@');
    FirstPart("a", domain, '@');
    assert "a" + ['@'] + domain == s;
    TwoParts(s, '@');
  }

  const LONG_LABEL: string := seq(64, i => 'b')

  lemma LongLabelParts()
    ensures var s := LongAddress(LONG_LABEL);
      && Plain(s) && Trim(s, Space) == Trim(s, I.Space) == s && |s| == 66
      && Count(s, '@') == 1 && Before(s, '@') == "a" && After(s, '@') == LONG_LABEL && SplitOn(LONG_LABEL, '.') == [LONG_LABEL]
  {
    var s := LongAddress(LONG_LABEL);
    LongAddressSplits(LONG_LABEL);
    OnePart(LONG_LABEL, '.');
    TrimmedStays(s, I.Space);
    TrimmedStays(s, Space);
  }

  // A label of 64 letters: the server accepts the address and the client refuses it.
  lemma LongLabelIsRefusedByTheClientOnly()
    ensures I.NormalizeEmail(I.Text(LongAddress(LONG_LABEL))).Good?
    ensures !IsValidEmail(LongAddress(LONG_LABEL))
  {
    LongLabelParts();
    EmailsAgree(LongAddress(LONG_LABEL));
    assert LocalOk("a") && LabelOk(LONG_LABEL);
    assert |[LONG_LABEL][0]| > 63;
  }
}
