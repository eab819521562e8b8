/**
 * From the page to the command: the rules the page really uses, the request it sends, and what the
 * server's validation makes of that request.
 */
module BookingRequest {
  import opened Basics
  import opened Calendar
  import opened Strings
  import opened DateTexts
  import opened PublicErrors
  import opened FormTypes
  import opened ReservationWorkflow
  import A = Availability
  import S = SlotWire
  import F = IdentityForm
  import I = Identity
  import V = ReservationValidation
  import Words
  import AvailabilityQuery
  import Records

  // What the page is told about the restaurant, and JavaScript's `Number` of a party size, zero for
  // what is no whole number.
  datatype Context = Context(minimum: string, maximum: string, maximumPartySize: int, number: string -> int)

  predicate ChoicesValid(c: Context, date: string, party: string) {
    && date != "" && !Less(date, c.minimum) && !Less(c.maximum, date)
    && party != "" && 1 <= c.number(party) <= c.maximumPartySize
  }

  function PhoneSent(phone: string): Option<string> {
    var trimmed := Words.Trim(phone, F.Space);
    if trimmed == "" then None else Some(trimmed)
  }

  function RulesOf(c: Context): Rules {
    Rules(values => if F.Eligible(values) then Some(F.BodyOf(values)) else None,
          (date, party) => ChoicesValid(c, date, party), F.PhoneOk, PhoneSent, c.number)
  }

  // The client's comparison of date texts is the calendar's.
  lemma WindowMeansCalendar(c: Context, minimum: Date, maximum: Date, date: Date, party: string)
    requires ValidDate(minimum) && ValidDate(maximum) && ValidDate(date)
    requires c.minimum == PrintDate(minimum) && c.maximum == PrintDate(maximum)
    ensures ChoicesValid(c, PrintDate(date), party) <==>
            !DateBefore(date, minimum) && !DateBefore(maximum, date) && party != "" && 1 <= c.number(party) <= c.maximumPartySize
  {
    DatesCompareAsTexts(date, minimum);
    DatesCompareAsTexts(maximum, date);
  }

  function ActionText(action: Records.NewsletterAction): string {
    match action
    case Subscribe => "subscribe"
    case Unsubscribe => "unsubscribe"
    case NoChange => "no_change"
  }

  // The request body as the server parses it.
  function PayloadOf(body: ReservationBody): I.Payload {
    var phone: I.Payload := if body.phone.None? then map[] else map[Phone := I.Text(body.phone.value)];
    F.PayloadOf(body.identity) + phone
      + map[StartsAtLocal := I.Text(body.startsAtLocal), UtcOffsetMinutes := I.Whole(body.utcOffsetMinutes),
            PartySizeField := I.Whole(body.partySize), NewsletterActionField := I.Text(ActionText(body.newsletterAction))]
  }

  lemma IdentityPart(body: ReservationBody, identity: I.CustomerIdentity)
    requires I.IdentityAccepted(F.PayloadOf(body.identity), identity)
    ensures I.IdentityAccepted(PayloadOf(body), identity)
  {
    SameIdentityFields(body);
    SameIdentity(F.PayloadOf(body.identity), PayloadOf(body), identity);
  }

  lemma SameIdentityFields(body: ReservationBody)
    ensures var a, b := F.PayloadOf(body.identity), PayloadOf(body);
      forall f | V.OfIdentity(f) :: (f in a <==> f in b) && (f in a ==> a[f] == b[f])
  {
  }

  lemma SameIdentity(a: I.Payload, b: I.Payload, identity: I.CustomerIdentity)
    requires I.IdentityAccepted(a, identity)
    requires forall f | V.OfIdentity(f) :: (f in a <==> f in b) && (f in a ==> a[f] == b[f])
    ensures I.IdentityAccepted(b, identity)
  {
    SameReading(a, b, FirstName);
    SameReading(a, b, MiddleInitial);
    SameReading(a, b, LastName);
    SameReading(a, b, Email);
    SameReading(a, b, ConfirmationEmail);
  }

  lemma SameReading(a: I.Payload, b: I.Payload, field: Field)
    requires (field in a <==> field in b) && (field in a ==> a[field] == b[field])
    ensures I.Reading(a, field) == I.Reading(b, field)
  {
  }

  // The command that a body and a wall time ask for.
  function CommandOf(body: ReservationBody, local: WallTime): V.Command {
    var who := F.Stated(body.identity);
    Records.ReservationCommand(who.firstName, who.middleInitial, who.lastName, who.email, body.phone, local,
                               body.utcOffsetMinutes, body.partySize, body.newsletterAction)
  }

  predicate SoundPhone(phone: string) {
    I.NormalizePhone(I.Text(phone)).Good? && I.NormalizePhone(I.Text(phone)).value.display == phone
  }

  ghost predicate SoundBody(body: ReservationBody) {
    && I.IdentityAccepted(F.PayloadOf(body.identity), F.Stated(body.identity))
    && (body.phone.Some? ==> SoundPhone(body.phone.value))
    && 1 <= body.partySize <= 2147483647
  }

  lemma BodyIsAccepted(body: ReservationBody, local: WallTime, reading: Reading)
    requires SoundBody(body) && ParseStart(body.startsAtLocal, reading) == Parsed(local, body.utcOffsetMinutes)
    ensures V.BookingAccepted(PayloadOf(body), reading, CommandOf(body, local))
  {
    IdentityPart(body, F.Stated(body.identity));
    StartCanonical(body.startsAtLocal, reading);
    OtherParts(body);
    PayloadParts(body);
    StartRead(PayloadOf(body), reading, body.startsAtLocal, local, body.utcOffsetMinutes);
  }

  lemma PayloadParts(body: ReservationBody)
    ensures var payload := PayloadOf(body);
      && StartsAtLocal in payload && payload[StartsAtLocal] == I.Text(body.startsAtLocal)
      && UtcOffsetMinutes in payload && payload[UtcOffsetMinutes] == I.Whole(body.utcOffsetMinutes)
      && PartySizeField in payload && payload[PartySizeField] == I.Whole(body.partySize)
      && NewsletterActionField in payload && payload[NewsletterActionField] == I.Text(ActionText(body.newsletterAction))
      && (Phone in payload <==> body.phone.Some?) && (body.phone.Some? ==> payload[Phone] == I.Text(body.phone.value))
  {
  }

  lemma OtherParts(body: ReservationBody)
    requires SoundBody(body)
    ensures var payload := PayloadOf(body);
      && V.PhoneReading(payload) == I.Good(body.phone)
      && V.PartyReading(payload) == I.Good(body.partySize)
      && V.ActionReading(payload) == I.Good(body.newsletterAction)
  {
    PayloadParts(body);
    PhoneRead(PayloadOf(body), body.phone);
    PartyRead(PayloadOf(body), body.partySize);
    ActionRead(PayloadOf(body), body.newsletterAction);
  }

  lemma PhoneRead(payload: I.Payload, phone: Option<string>)
    requires Phone in payload <==> phone.Some?
    requires phone.Some? ==> payload[Phone] == I.Text(phone.value) && SoundPhone(phone.value)
    ensures V.PhoneReading(payload) == I.Good(phone)
  {
  }

  lemma PartyRead(payload: I.Payload, size: int)
    requires PartySizeField in payload && payload[PartySizeField] == I.Whole(size) && 1 <= size <= 2147483647
    ensures V.PartyReading(payload) == I.Good(size)
  {
  }

  lemma ActionRead(payload: I.Payload, action: Records.NewsletterAction)
    requires NewsletterActionField in payload && payload[NewsletterActionField] == I.Text(ActionText(action))
    ensures V.ActionReading(payload) == I.Good(action)
  {
  }

  lemma StartRead(payload: I.Payload, reading: Reading, text: string, local: WallTime, offset: int)
    requires StartsAtLocal in payload && payload[StartsAtLocal] == I.Text(text)
    requires UtcOffsetMinutes in payload && payload[UtcOffsetMinutes] == I.Whole(offset)
    requires ParseStart(text, reading) == Parsed(local, offset) && -840 <= offset <= 840
    ensures V.StartReading(payload, reading) == I.Good((local, offset)) && V.OffsetReading(payload, reading) == I.Good(offset)
  {
  }

  lemma PhoneIsSound(phone: string)
    requires F.Plain(phone) && F.PhoneOk(phone) && PhoneSent(phone).Some?
    ensures SoundPhone(PhoneSent(phone).value)
  {
    F.PhonesAgree(phone);
    F.PhoneFixed(phone);
  }

  lemma PageBodyIsSound(w: Page, c: Context)
    requires Eligible(w, RulesOf(c)) && c.maximumPartySize <= 2147483647
    requires F.PlainFields(w.customer.identity) && F.Plain(w.customer.phone)
    ensures SoundBody(BodyOf(w, RulesOf(c)))
  {
    F.EligibleBodyIsAccepted(w.customer.identity);
    if PhoneSent(w.customer.phone).Some? {
      PhoneIsSound(w.customer.phone);
    }
  }

  // The body is valid and asks for this slot.
  ghost predicate AsksFor(body: ReservationBody, slot: A.AvailabilitySlot, reading: Reading) {
    && V.BookingAccepted(PayloadOf(body), reading, CommandOf(body, slot.localStart))
    && Seconds(slot.localStart) - 60 * body.utcOffsetMinutes == slot.startsAt
  }

  ghost predicate AsksForOffered(body: ReservationBody, slots: seq<A.AvailabilitySlot>, date: Date, reading: Reading) {
    exists i | 0 <= i < |slots| :: slots[i].available && DateOf(slots[i].localStart) == date && AsksFor(body, slots[i], reading)
  }

  lemma OfferedBody(body: ReservationBody, start: string, date: Date, slots: seq<A.AvailabilitySlot>, zone: A.Zone, wire: seq<S.WireSlot>, reading: Reading)
    requires SoundBody(body) && S.Offered(slots, date, zone, wire)
    requires FindSlot(S.Received(wire), start) == Some(Slot(body.startsAtLocal, body.utcOffsetMinutes, true))
    ensures AsksForOffered(body, slots, date, reading)
  {
    S.ChosenSlotIsOffered(slots, date, zone, wire, start, reading);
    var i :| 0 <= i < |slots| && S.Names(Slot(body.startsAtLocal, body.utcOffsetMinutes, true), slots[i], date, reading);
    NamedSlotIsAccepted(body, slots[i], date, reading);
  }

  lemma NamedSlotIsAccepted(body: ReservationBody, slot: A.AvailabilitySlot, date: Date, reading: Reading)
    requires SoundBody(body) && S.Names(Slot(body.startsAtLocal, body.utcOffsetMinutes, true), slot, date, reading)
    ensures slot.available && DateOf(slot.localStart) == date && AsksFor(body, slot, reading)
  {
    BodyIsAccepted(body, slot.localStart, reading);
  }

  lemma PageBodyIsAccepted(w: Page, c: Context, date: Date, slots: seq<A.AvailabilitySlot>, zone: A.Zone, wire: seq<S.WireSlot>, reading: Reading)
    requires w.availability.Ready? && Eligible(w, RulesOf(c)) && c.maximumPartySize <= 2147483647
    requires F.PlainFields(w.customer.identity) && F.Plain(w.customer.phone)
    requires S.Offered(slots, date, zone, wire) && w.availability.data.slots == S.Received(wire)
    ensures AsksForOffered(BodyOf(w, RulesOf(c)), slots, date, reading)
  {
    PageBodyIsSound(w, c);
    FoundSlot(w.availability.data.slots, w.selectedStart);
    OfferedBody(BodyOf(w, RulesOf(c)), w.selectedStart, date, slots, zone, wire, reading);
  }

  // The page holds this server's answer to its query: the schedule of the date it asked for.
  ghost predicate HoldsAnswer(w: Page, date: Date, slots: seq<A.AvailabilitySlot>, zone: A.Zone, wire: seq<S.WireSlot>) {
    && w.availability.Ready? && ValidDate(date) && w.availability.data.query.date == PrintDate(date)
    && S.Offered(slots, date, zone, wire) && w.availability.data.slots == S.Received(wire)
  }

  // End to end: whatever the user did on the page, the body that a submission sends is accepted, and
  // the command asks for an available slot of the date that the page shows, at its instant, for the
  // party that the schedule was asked for and the identity in the form.
  lemma SubmissionIsAccepted(w: Page, c: Context, date: Date, slots: seq<A.AvailabilitySlot>, zone: A.Zone, wire: seq<S.WireSlot>, reading: Reading)
    requires Reachable(w, RulesOf(c)) && Enabled(w, RulesOf(c), Submit) && c.maximumPartySize <= 2147483647
    requires F.PlainFields(w.customer.identity) && F.Plain(w.customer.phone)
    requires HoldsAnswer(w, date, slots, zone, wire)
    ensures w.date == PrintDate(date)
    ensures exists body | Sends(w, RulesOf(c), Submit) == Some(body) ::
      && AsksForOffered(body, slots, date, reading)
      && body.partySize == w.availability.data.query.partySize == c.number(w.party)
  {
    SubmissionMatchesSchedule(w, RulesOf(c));
    PageBodyIsAccepted(w, c, date, slots, zone, wire, reading);
    assert Sends(w, RulesOf(c), Submit) == Some(BodyOf(w, RulesOf(c)));
  }

  // The query that checking availability sends for a well-formed date is understood by the server as
  // that date and the party size of the page.
  lemma PageQueryIsUnderstood(w: Page, c: Context, date: Date)
    requires Enabled(w, RulesOf(c), Check) && c.maximumPartySize <= 2147483647
    requires ValidDate(date) && w.date == PrintDate(date)
    ensures exists q | q in Step(w, RulesOf(c), Check).queries ::
      && q.sequence == w.sequence + 1 && 1 <= q.partySize == c.number(w.party)
      && AvailabilityQuery.Says([q.date], [Decimal(q.partySize)], AvailabilityQuery.Request(date, q.partySize))
  {
    var q := Query(w.sequence + 1, CurrentKey(w), w.date, w.party, c.number(w.party), w.selectedStart);
    AvailabilityQuery.ClientQueryIsUnderstood(date, c.number(w.party));
    assert q in CheckBegun(w, RulesOf(c)).queries;
    assert Step(w, RulesOf(c), Check).queries == CheckBegun(w, RulesOf(c)).queries;
  }

  // A payload states at most one command, so that is the command the service is called with.
  lemma OneCommand(payload: I.Payload, reading: Reading, a: V.Command, b: V.Command)
    requires V.BookingAccepted(payload, reading, a) && V.BookingAccepted(payload, reading, b)
    ensures a == b
  {
  }
}
