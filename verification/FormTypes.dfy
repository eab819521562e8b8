/** What the user types, and what the client sends. */
module FormTypes {
  import opened Basics
  import opened Records

  datatype IdentityFields = IdentityFields(
    firstName: string, middleInitial: string, lastName: string, email: string, confirmationEmail: string)

  datatype IdentityBody = IdentityBody(
    firstName: string, middleInitial: Option<string>, lastName: string, email: string, confirmationEmail: string)

  datatype Customer = Customer(identity: IdentityFields, phone: string)

  // A slot as the client receives it.
  datatype Slot = Slot(startsAtLocal: string, utcOffsetMinutes: int, available: bool)

  datatype ReservationBody = ReservationBody(
    identity: IdentityBody, phone: Option<string>, startsAtLocal: string, utcOffsetMinutes: int,
    partySize: int, newsletterAction: NewsletterAction)
}
