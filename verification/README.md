# Café Fausse: certainty of writes, asynchronous forms and the slot wire format

This project models the parts of Café Fausse in which a wrong step loses, doubles or misreports a
reservation or a newsletter preference, and proves what they promise. Check it with
`dafny verify dfyconfig.toml`.

## What is modelled

**Writing with certainty.** A booking (OP-05) or a preference (OP-04) is one database transaction over a
pooled connection that can fail anywhere. `Driver.World` is the adversary: clock, pool, driver and
server, with ghost facts that record what really happened, in particular how many transactions were
committed. `ReservationGateway` and `NewsletterGateway` are the two gateways, with exceptions compared
by identity as in the source; both are proved against the one classifier of `Certainty`. `Attempts`
holds the accumulators of one service call, `Retry` the deadline-aware loop, `Services` the mapping to
public outcomes, and `PublicResponses` what the client is told. The main result is
`Services.ReservationService.Book`: over every fault trace, what the caller is told is true of the
server, at most one transaction commits, and no attempt follows an unknown outcome.

**Asynchronous forms.** `NewsletterLookup` (the debounced hook), `NewsletterForm` and
`ReservationWorkflow` are transition systems over edits, effects, timers, responses, submissions,
resends and abandoning, in every interleaving. Each has a class (`LookupHook`,
`NewsletterPreferences`, `ReservationPage.Component`) with a handler for every event, effects and timers
included, that is proved to go through exactly the runs of the transition system (`Run`). `Episode` puts
the page, a lossy network, the certified service and the stored rows together: with what the booking
routine's order of checks promises, any number of resends and retries leaves at most one reservation
for a submission, and it is exact which refusals can be trusted.

**The slot wire format.** `Calendar` is the proleptic Gregorian calendar, `DateTexts` its texts
(section 5.6 of RFC 3339), `Availability` the row checks of OP-02, `SlotWire` the serializer and the
client's view of it. A slot that is offered, sent, chosen and sent back is read as the instant it stood
for, on both sides of a clock change. `AvailabilityQuery` is the query of OP-02.

**Validation on both sides.** `Words` and `Emails` are the string handling of the two languages,
`Identity` and `ReservationValidation` the server's rules, `IdentityForm` the client's. The client's
test is proved to be the server's up to the length of domain labels, and `BookingRequest` carries a
submission from the page to the accepted command.

**Also.** `Gallery` orders the gallery independently of enumeration; `Configuration` shows that every
accepted configuration meets the retry loop's preconditions.

## Assumptions

- The environment is what `Driver.World`'s contracts allow: a monotone clock, a commit that reaches the
  server only from a normal exit of the connection block and may then lose its acknowledgement, and a
  sleep that takes at least the time asked for. Times are exact reals in milliseconds.
- `Episode.Routine` is what the order of the booking routine's checks promises
  (`database/migrations/008_authoritative_booking.sql`, `database/POSTGRESQL_CONTRACT_FOR_FLASK.md`, line 57),
  not a model of its SQL: an identical booking is never stored again nor refused after the lookup, and a
  request whose own booking is stored passes the identity check, since stored names and initials are never
  replaced. Reservations lie in the booking window, so that their wall times exist in every zone.
- Aware timestamps from the driver carry UTC. A zone gives every instant an offset of whole minutes
  between -14:00 and +14:00.
- Text is ASCII where it is classified or changed in case. Theorems that compare the two languages also
  exclude U+001C to U+001F, which only Python counts as white space.
- A handler's updates are rendered before the next event is handled.

## Findings

- A save of newsletter preferences resets the choice version, so a lookup that began before it may still
  overwrite the checkbox (`NewsletterForm.OlderLookupOverwritesSave`; the exact condition for a completion
  to change the checkbox is `NewsletterForm.CompletionAndCheckbox`, and without a save in between a touched
  checkbox is never changed, `NewsletterForm.CompletionKeepsTouchedChoice`).
- A resend of a booking that is stored may be refused: for its schedule, because the routine checks the
  date, the lead time and the hours before it looks for an identical booking, or by an internal error. The
  page then drops the recovery of a booking that exists (`Episode.RefusalHidesABooking`). A request that is
  served after its connection was lost may store a booking the user was refused
  (`Episode.LateRequestHidesABooking`). Every other refusal is one of a submission that stored nothing
  (`Episode.AtMostOneReservation`).
- A valid start with an offset beyond 14 hours is reported twice, as an invalid start and as a mismatch,
  exactly when the separate offset is a whole number within the range
  (`ReservationValidation.FarOffsetIsReportedTwice`, with an input in `FarOffsetHappens`).
- The client refuses domain labels above 63 characters, which the server accepts; otherwise the two address
  tests agree (`IdentityForm.EmailsAgree`; an address in `LongLabelIsRefusedByTheClientOnly`).
- A single row that is too short, or a wall time outside the calendar, leaves the availability gateway as
  an exception that it does not translate (`Availability.Interpret`, with rows in `ExceptionsCanEscape`).
  Nothing else does, as long as every zone name that cannot be used is reported in one of the two ways the
  gateway catches; the model has such names missing from `zones`.
- A party size of more than 4300 digits leaves the validation of the query as an exception, and nothing else
  does (`AvailabilityQuery.ValidateQuery`, with a text in `LongPartySizeEscapes`).

## Model

| member | source | states |
|---|---|---|
| Certainty.Classify | backend/src/cafe_fausse/db/reservation_gateway.py:69-85 | Both gateways' failure translation against one classifier: with a confirmed rollback a contract error passes through as the same object and a defective statement becomes one; otherwise `safe_to_retry`, `mutation_dispatched` and `outcome_unknown` say exactly what is known, and only the error itself is ever changed |
| Certainty.DispositionIsExact | backend/src/cafe_fausse/db/reservation_gateway.py:206-261 | Every acquired connection is given back exactly once, or never exactly when closing it failed while its transaction was uncertain; an uncertain connection is closed, successfully, before it is given back |
| Decoding.SortedSetTest | backend/src/cafe_fausse/db/reservation_gateway.py:107-107 | The test against the sorted set accepts exactly the strictly ascending lists |
| Decoding.DecodedBookingMeaning | backend/src/cafe_fausse/db/reservation_gateway.py:88-120 | Which rows are decoded as a reservation, which as a refusal, and which crash the runtime, exactly |
| Decoding.DecodedPreferenceMeaning | backend/src/cafe_fausse/db/newsletter_gateway.py:93-126 | Exactly five shapes of answer are decoded, and what is decoded passes the result's constructor |
| ReservationGateway.Gateway.Run | backend/src/cafe_fausse/db/reservation_gateway.py:187-199 | The statements go out in order, dispatch is recorded before the routine is sent, and an answer is returned only if it was decoded |
| ReservationGateway.Gateway.Confirm | backend/src/cafe_fausse/db/reservation_gateway.py:225-233 | The read of name and zone succeeds exactly when its rows are usable and its own transaction ended quietly |
| ReservationGateway.Gateway.Mutate | backend/src/cafe_fausse/db/reservation_gateway.py:181-205 | A commit is sent only from a completed body; the server gains one transaction exactly when it was applied, acknowledged or not; an exception that is not the body's own means an unconfirmed rollback |
| ReservationGateway.Gateway.Handle | backend/src/cafe_fausse/db/reservation_gateway.py:206-219 | The handler closes exactly the uncertain connections and classifies the first exception, told from the later one by identity |
| ReservationGateway.Gateway.Complete | backend/src/cafe_fausse/db/reservation_gateway.py:221-250 | After an acknowledged commit a reservation is confirmed by a second transaction, or reported as existing but unconfirmed |
| ReservationGateway.Gateway.GiveBack | backend/src/cafe_fausse/db/reservation_gateway.py:251-261 | The final clause completes the disposition, and `cleanup_failed` ends up true exactly when the rollback raised, a close failed or giving back failed |
| ReservationGateway.Gateway.Book | backend/src/cafe_fausse/db/reservation_gateway.py:156-275 | Over every fault trace: the protocol is kept, the server commits at most once and exactly when the commit was applied, a normal return is the acknowledged answer, and a raised failure says exactly what is known about the commit |
| NewsletterGateway.Gateway.Interpret | backend/src/cafe_fausse/db/newsletter_gateway.py:199-204 | An answer leads to a commit only if it is decoded and a last clock reading leaves one millisecond |
| NewsletterGateway.Gateway.Mutate | backend/src/cafe_fausse/db/newsletter_gateway.py:172-208 | As for bookings; dispatch and commit each follow a reading that leaves at least one millisecond |
| NewsletterGateway.Gateway.Handle | backend/src/cafe_fausse/db/newsletter_gateway.py:209-229 | The same handler against the same classifier, with a passed deadline not retried |
| NewsletterGateway.Gateway.GiveBack | backend/src/cafe_fausse/db/newsletter_gateway.py:244-263 | The disposition is completed and the clean-up flag is exact |
| NewsletterGateway.Gateway.SetPreference | backend/src/cafe_fausse/db/newsletter_gateway.py:141-287 | Over every fault trace: protocol with its deadline guards, one commit at most, exact certainty, exact disposition |
| Attempts.EligibleLeavesNothing | backend/src/cafe_fausse/services/retry.py:36-46 | A failure that may be retried left nothing committed and its rollback is confirmed; after a dispatch it carries one of the three approved conditions |
| Attempts.BookingAttempts.Attempt | backend/src/cafe_fausse/services/reservations.py:59-89 | One attempt adds exactly its own times and clean-up flag to the accumulators, notifies the observers, and its verdict is true of the server |
| Attempts.BookingAttempts.Translate | backend/src/cafe_fausse/services/reservations.py:66-80 | Each gateway failure becomes the attempt's verdict without losing certainty; a contract error adds no times |
| Attempts.BookingAttempts.Finish | backend/src/cafe_fausse/services/reservations.py:81-89 | A returned result carries the totals and passes the result's constructor; a broken configuration is raised instead |
| Attempts.PreferenceAttempts.Attempt | backend/src/cafe_fausse/services/newsletter_preferences.py:83-116 | The same for preferences, where a contract error leaves the accumulators alone |
| Retry.FailedRunCommitsNothing | backend/src/cafe_fausse/services/retry.py:74-87 | Any number of attempts that ended in eligible failures committed nothing |
| Retry.RunCommitsAtMostOnce | backend/src/cafe_fausse/services/retry.py:63-87 | Over every run at most one transaction committed, that of the last attempt; no attempt follows one with an unknown outcome |
| Retry.JitterStaysInBand | backend/src/cafe_fausse/services/retry.py:77-78 | The k-th delay lies in the jitter band around min(cap, base * 2^(k-1)) |
| Retry.PacedExtended | backend/src/cafe_fausse/services/retry.py:79-85 | The requested sleeps fit into the time passed and into the deadline less the required remainder |
| Retry.Turn | backend/src/cafe_fausse/services/retry.py:64-76 | The guard and the attempt: the loop ends with the last attempt's verdict and never without a failure to raise |
| Retry.Pause | backend/src/cafe_fausse/services/retry.py:77-85 | A sleep is requested only if it leaves the required time, and the loop goes on only if it then still does |
| Retry.Round | backend/src/cafe_fausse/services/retry.py:63-87 | One pass keeps the run well-formed, the commits counted and the sleeps paced |
| Retry.ExecuteWithRetry | backend/src/cafe_fausse/services/retry.py:49-87 | Terminates; attempts are numbered 1..n with n at most `max_attempts`, every retry starts with the required time, what is raised is the last failure, the lost-context error is unreachable, and all sleeps sum to at most deadline less remainder |
| Services.ReservationService.Book | backend/src/cafe_fausse/services/reservations.py:53-95 | The public outcome certifies the server: answered means exactly one commit, and the id, interval, party, tables and flags reported are those of its answer; temporary or contract failure means none, confirmation missing exactly one success; only the unknown outcome leaves it open; all totals are those of the attempts |
| Services.NewsletterPreferenceService.SetPreference | backend/src/cafe_fausse/services/newsletter_preferences.py:75-142 | The same certification and conservation for preferences |
| PublicResponses.StaleDetailsInvalidate | backend/src/cafe_fausse/serialization/reservation.py:58-79 | Every detail that blames the schedule makes the client set its schedule aside |
| PublicResponses.ResponseNeverHidesABooking | backend/src/cafe_fausse/serialization/reservation.py:82-119 | Of this call's own transaction: the client drops a submission only if it stored no reservation or its wall times cannot be printed, keeps the identical body whenever it may have stored one, and keeps it exactly for the four retryable outcomes; an answered success is confirmed exactly when the calendar has its wall times |
| PublicResponses.CentralIsPlaced | backend/src/cafe_fausse/serialization/reservation.py:15-20 | Instants fourteen hours away from both ends of the calendar have wall times in every zone |
| NewsletterLookup.StepInv | frontend/src/forms/useNewsletterLookup.js:10-44 | Every render, effect, timer and response keeps the invariant tying sequence, snapshot, timer and state together |
| NewsletterLookup.ReachesInv | frontend/src/forms/useNewsletterLookup.js:4-47 | The invariant holds after every interleaving |
| NewsletterLookup.SettledIsCurrent | frontend/src/forms/useNewsletterLookup.js:10-44 | Once effects have run, a settled state answers the newest effect's query for the identity on the screen, a waiting one has its timer, a checking one its query, and nothing is checked exactly for an ineligible identity |
| NewsletterLookup.SupersededChangesNothing | frontend/src/forms/useNewsletterLookup.js:24-30 | A response changes the state if and only if it is the newest and its identity is still on the screen |
| NewsletterLookup.LookupHook.Complete | frontend/src/forms/useNewsletterLookup.js:22-41 | The continuation does exactly the step of the transition system and hands on exactly what an untouched choice may take |
| NewsletterLookup.LookupHook.RunEffect | frontend/src/forms/useNewsletterLookup.js:10-43 | Cleanup and effect do exactly the step of the transition system |
| NewsletterLookup.LookupHook.FireTimer | frontend/src/forms/useNewsletterLookup.js:20-23 | The timer does exactly the step of the transition system |
| NewsletterForm.ReachesInv | frontend/src/features/newsletter/NewsletterPreferences.jsx:56-100 | The form's invariant holds after every interleaving of edits, saves, resends and lookup events |
| NewsletterForm.ChoiceAndBodyAreKept | frontend/src/features/newsletter/NewsletterPreferences.jsx:56-132 | The checkbox shows the last deliberate choice, and everything sent since a fresh submission is one body |
| NewsletterForm.CompletionAndCheckbox | frontend/src/forms/useNewsletterLookup.js:18-27 | A lookup completion changes the checkbox exactly when it is current, began untouched, finds it untouched and disagrees |
| NewsletterForm.CompletionKeepsTouchedChoice | frontend/src/forms/useNewsletterLookup.js:18-27 | Over any run without a completed save, a completion at its end leaves a checkbox alone that was touched before or during it |
| NewsletterForm.OlderLookupOverwritesSave | frontend/src/features/newsletter/NewsletterPreferences.jsx:61-65 | A completed save resets the choice version, so a lookup begun before it can still turn the checkbox over next to the saved result |
| NewsletterForm.LookupUnderWay | frontend/src/forms/useNewsletterLookup.js:18-23 | The state that this needs is reached by typing an eligible identity |
| NewsletterForm.NewsletterPreferences.SubmitForm | frontend/src/features/newsletter/NewsletterPreferences.jsx:89-100 | Submitting does exactly the step of the transition system, when the form allows it |
| NewsletterForm.NewsletterPreferences.PreferenceRejected | frontend/src/features/newsletter/NewsletterPreferences.jsx:66-86 | After a failed save nothing is pending, and what may be recovered is the body that was |
| ReservationWorkflow.StepInv | frontend/src/features/reservations/ReservationFeature.jsx:105-267 | Every event keeps: a ready schedule answers the newest query for the choices on the page, loading means the newest query is open, and a locked page loads nothing |
| ReservationWorkflow.ReachableInv | frontend/src/features/reservations/ReservationFeature.jsx:54-313 | These hold in every reachable state of the page |
| ReservationWorkflow.SubmissionMatchesSchedule | frontend/src/features/reservations/ReservationFeature.jsx:124-184 | A first submission takes its slot and its party size from one answer, that to the newest query, for the choices on the page |
| ReservationWorkflow.FoundSlot | frontend/src/features/reservations/ReservationFeature.jsx:85-85 | The selected slot is an available one with that text, and there is one whenever such a slot exists |
| ReservationWorkflow.NewsletterOnlyByChoice | frontend/src/features/reservations/ReservationFeature.jsx:161-163 | A booking subscribes or unsubscribes only by the last deliberate choice and after a successful lookup; the lookup was for the identity being booked exactly when the newest effect ran with it, in particular when no effect is due |
| ReservationWorkflow.ResendsAreIdentical | frontend/src/features/reservations/ReservationFeature.jsx:211-267 | From a submission until it is resolved or abandoned, every request carries the identical body, whatever else happens |
| ReservationWorkflow.SentKeepsHead | frontend/src/features/reservations/ReservationFeature.jsx:306-306 | While the page is locked, an event sends nothing or the body already sent |
| ReservationWorkflow.NeverStuck | frontend/src/features/reservations/ReservationFeature.jsx:83-83 | A locked page waits for a response or offers both resending and abandoning, and never a second submission or a new check |
| ReservationWorkflow.FailureKept | frontend/src/features/reservations/ReservationFeature.jsx:236-263 | After a failure the identical body is kept exactly for the resendable causes, and the schedule is kept or set aside |
| ReservationPage.Component.CheckAvailability | frontend/src/features/reservations/ReservationFeature.jsx:124-133 | The handler does exactly the step of the transition system, or nothing |
| ReservationPage.Component.SubmitForm | frontend/src/features/reservations/ReservationFeature.jsx:269-282 | A submission is the transition system's or nothing; what is then pending asks for an available slot of the schedule shown, for the party it was shown for |
| ReservationPage.Component.Classify | frontend/src/features/reservations/ReservationFeature.jsx:227-263 | The branches over the public error do exactly what the transition system does on a failure |
| ReservationPage.Component.AvailabilityArrived | frontend/src/features/reservations/ReservationFeature.jsx:134-141 | A stale answer is dropped: a ready schedule was asked for with the newest number and the date on the page |
| ReservationPage.Component.BookingFailedWith | frontend/src/features/reservations/ReservationFeature.jsx:227-266 | After a failure nothing is pending, and the body that was is recovered exactly for the resendable causes |
| ReservationPage.Component.RetrySame | frontend/src/features/reservations/ReservationFeature.jsx:306-306 | A resend makes the recovered body pending, the one first sent, and keeps the recovery |
| ReservationPage.Component.LookupCompleted | frontend/src/features/reservations/ReservationFeature.jsx:76-80 | A lookup completion never changes a touched checkbox |
| ReservationPage.Component.Run | frontend/src/features/reservations/ReservationFeature.jsx:54-313 | Driven through any run of the transition system, the component goes through that very run: all that is proved over runs holds of it |
| NewsletterForm.NewsletterPreferences.ResendSame | frontend/src/features/newsletter/NewsletterPreferences.jsx:132-132 | A resend makes the recovered body pending, the one first sent, and keeps the recovery |
| NewsletterForm.NewsletterPreferences.LookupCompleted | frontend/src/features/newsletter/NewsletterPreferences.jsx:34-38 | A lookup completion never changes a touched checkbox |
| NewsletterForm.NewsletterPreferences.Run | frontend/src/features/newsletter/NewsletterPreferences.jsx:21-138 | Driven through any run of the transition system, the component goes through that very run |
| NewsletterLookup.LookupHook.Run | frontend/src/forms/useNewsletterLookup.js:4-47 | Driven through any run of the transition system, the hook goes through that very run |
| Episode.StepInv | frontend/src/features/reservations/ReservationFeature.jsx:211-267 | Page, network, service and stored rows together keep the end-to-end invariant |
| Episode.AtMostOneReservation | database/migrations/008_authoritative_booking.sql:197-437 | With a routine that checks in the order of the source: any number of lost responses, resends, server retries and late deliveries leave at most one row for every submission, past or present, and it is the booking that submission asked for; a confirmation is of a stored booking; and, unless a request was served late, a refusal means that nothing is stored if it answers the only request made or its code is neither a validation failure nor an internal error |
| Episode.Served | database/POSTGRESQL_CONTRACT_FOR_FLASK.md:57-57 | The effect of one service call on the stored rows: an identical booking is never stored again, and a refusal that comes after the lookup of identical bookings, or of the identity, means that none of this submission is stored |
| Episode.AmbiguousAnswer | backend/src/cafe_fausse/services/reservations.py:93-95 | A stored booking can be answered as unknown, leaving the page ready to resend it |
| Episode.RefusalHidesABooking | database/migrations/008_authoritative_booking.sql:239-254 | Both remaining codes are real: a resend of a stored booking may be refused for its schedule, such as a lead time that has passed since, or end in an internal error, and the page then drops the recovery of a booking that exists |
| Episode.RefusalCodes | backend/src/cafe_fausse/serialization/reservation.py:82-119 | What the routine must have answered for each code that refuses a booking |
| Episode.LateRequestHidesABooking | frontend/src/features/reservations/ReservationFeature.jsx:223-224 | A request served after its connection was lost can store a booking that the user was refused: the other exception |
| Strings.FixedRoundTrip | backend/src/cafe_fausse/serialization/reservation.py:15-20 | Fixed-width digits are read back as the number printed |
| Strings.FixedCanonical | backend/src/cafe_fausse/validation/reservation.py:14-18 | Fixed-width digits print back as the text read |
| Strings.LessFixed | frontend/src/features/reservations/ReservationFeature.jsx:98-98 | Numbers of equal width compare as their texts do |
| Calendar.FromSecondsIsInverse | backend/src/cafe_fausse/serialization/reservation.py:15-20 | Every second in range is a valid wall time and its number |
| Calendar.SecondsAscend | backend/src/cafe_fausse/db/availability_gateway.py:84-87 | Wall times compare as their numbers, and equal numbers are equal wall times |
| Calendar.NextDayFollows | backend/src/cafe_fausse/validation/reservation.py:98-98 | The next day is the next day number, and valid except after the last day of 9999 |
| DateTexts.DateRoundTrip | backend/src/cafe_fausse/validation/reservation.py:36-42 | A printed date is well-formed and read back as itself |
| DateTexts.DateCanonical | backend/src/cafe_fausse/validation/reservation.py:36-42 | An accepted date text is the printing of the date it names |
| DateTexts.DatesCompareAsTexts | frontend/src/features/reservations/ReservationFeature.jsx:95-98 | Valid dates compare as their texts, as the client compares them |
| DateTexts.InstantsCompareAsTexts | backend/src/cafe_fausse/serialization/reservation.py:15-16 | UTC texts ascend exactly as instants do |
| DateTexts.OffsetCanonical | backend/src/cafe_fausse/validation/reservation.py:99-104 | An offset text is the printing of the offset read from it exactly when its minutes are below 60 and it is not the negative zero |
| DateTexts.StartRoundTrip | backend/src/cafe_fausse/validation/reservation.py:94-105 | A printed local start is read back as the same wall time and offset |
| DateTexts.StartCanonical | backend/src/cafe_fausse/validation/reservation.py:94-105 | An accepted local start is in range and is the printing of what was read exactly when it is ordinary |
| Availability.ReadSlots | backend/src/cafe_fausse/db/availability_gateway.py:73-90 | Rows are accepted exactly when they say an acceptable schedule: typed, on the requested date, of an allowed length, strictly ascending, each showing the zone's wall time; the answer is that schedule; an exception escapes exactly when the first objection is a wall time outside the calendar |
| Availability.Interpret | backend/src/cafe_fausse/db/availability_gateway.py:61-95 | A schedule, a refusal, a contract error and an escaping exception are told apart exactly |
| Availability.ExceptionsCanEscape | backend/src/cafe_fausse/db/availability_gateway.py:66-93 | Rows that leave the gateway as an exception: a wall time before the calendar, and a row without columns |
| Availability.Objection | backend/src/cafe_fausse/db/availability_gateway.py:75-88 | An objection to a row, after acceptable ones, rules out every reading of the rows, and tells a contract error from an escaping exception |
| Availability.EveryRowMatters | backend/src/cafe_fausse/db/availability_gateway.py:75-88 | No acceptable schedule contains a row that the loop objects to |
| SlotWire.Serialize | backend/src/cafe_fausse/serialization/reservation.py:40-54 | Every slot is sent with its local text, offset and UTC texts, unless some wall time is outside the calendar |
| SlotWire.SlotRoundTrip | backend/src/cafe_fausse/serialization/reservation.py:42-54 | A sent slot, given back, validates to the database's local start and the same offset, and local start minus offset is the original instant, whatever the zone does around it |
| SlotWire.LocalTextsDiffer | backend/src/cafe_fausse/serialization/reservation.py:19-20 | Different instants never share a local text, even in a repeated hour |
| SlotWire.SentSlotsDiffer | backend/src/cafe_fausse/serialization/reservation.py:42-54 | Sent slots have pairwise different local starts, and their UTC texts ascend |
| SlotWire.ChoiceIsUnique | frontend/src/features/reservations/ReservationFeature.jsx:85-85 | Looking a sent slot up by its local text finds that slot, if available, and no other |
| SlotWire.ChosenSlotIsOffered | frontend/src/features/reservations/ReservationFeature.jsx:175-184 | Whatever slot the client sends back, the server reads the date and the instant of a slot it offered as available |
| Words.CollapseIsJoin | frontend/src/forms/validation.js:9-11 | Trimming and collapsing runs of white space gives the words joined by single spaces: the two languages' normalisations agree |
| Words.SplitJoin | backend/src/cafe_fausse/validation/identity.py:40-40 | Splitting gives back the words that were joined |
| Words.SplitOnMeaning | frontend/src/forms/validation.js:16-18 | The parts contain no separator and join to the text |
| Words.TwoParts | backend/src/cafe_fausse/validation/identity.py:73-76 | One separator: both languages see the same two parts |
| Emails.LocalIsDotAtom | backend/src/cafe_fausse/validation/identity.py:14-14 | The local-part pattern accepts exactly dot-separated non-empty runs of atom characters |
| Identity.ValidateIdentity | backend/src/cafe_fausse/validation/identity.py:108-152 | Exactly one of value and errors; one error for every field at fault, in order; a value exactly when some identity is what the payload says, and then that one |
| Identity.OrderedKeepsAll | backend/src/cafe_fausse/validation/common.py:30-34 | Ordering drops and invents no error |
| Identity.OrderedIsListed | backend/src/cafe_fausse/validation/common.py:30-34 | Ordering lists the errors of each field at its place |
| IdentityForm.ValidateIdentity | frontend/src/forms/validation.js:22-42 | Each error is there exactly when its field is unacceptable, and says which of the reasons it is; no error means exactly that the form is eligible and its phone acceptable, and then the server accepts what is sent as the identity typed |
| IdentityForm.NoErrors | frontend/src/forms/validation.js:44-46 | The form is eligible exactly when there is no error |
| IdentityForm.EligibleMeansAcceptable | frontend/src/forms/validation.js:22-42 | A form is eligible exactly when the server would accept what was typed, up to the client's limit on label lengths |
| IdentityForm.EligibleBodyIsAccepted | frontend/src/forms/validation.js:48-56 | What is sent for an eligible form is accepted as the identity it states, its initial in upper case |
| IdentityForm.AcceptedIdentityIsFixed | backend/src/cafe_fausse/validation/identity.py:108-152 | A normalised identity sent again is accepted unchanged |
| IdentityForm.EmailsAgree | frontend/src/forms/validation.js:13-20 | The two address tests differ only in the length of labels, and normalise alike |
| IdentityForm.LongLabelIsRefusedByTheClientOnly | frontend/src/forms/validation.js:18-19 | A domain label of 64 letters: the server accepts the address, the client refuses it |
| IdentityForm.NamesAgree | frontend/src/forms/validation.js:24-28 | The two name tests agree and normalise alike |
| IdentityForm.MiddlesAgree | frontend/src/forms/validation.js:29-30 | The two tests of the initial agree |
| IdentityForm.PhonesAgree | frontend/src/forms/validation.js:36-40 | The two phone tests agree, and what is kept is the trimmed text |
| IdentityForm.EmailFixed | backend/src/cafe_fausse/validation/identity.py:65-84 | A normalised address is a fixed point |
| ReservationValidation.ValidateReservation | backend/src/cafe_fausse/validation/reservation.py:67-149 | Exactly one of value and errors; each faulty field reported, in booking order; a command exactly when the payload says one, and that command passes its constructor |
| ReservationValidation.SelectListed | backend/src/cafe_fausse/validation/reservation.py:68-71 | Recording the identity's errors by field loses none and moves none |
| ReservationValidation.CollectFailures | backend/src/cafe_fausse/validation/reservation.py:69-141 | All recorded errors, in the order of the booking fields |
| ReservationValidation.OffsetsAgree | backend/src/cafe_fausse/validation/reservation.py:109-119 | An accepted offset is the one the start names, and in range |
| ReservationValidation.FarOffsetIsReportedTwice | backend/src/cafe_fausse/validation/reservation.py:99-119 | A start is reported as invalid and the separate offset as a mismatch exactly when the start is valid but for an offset beyond the range, and the separate offset is a whole number within it |
| ReservationValidation.FarOffsetHappens | backend/src/cafe_fausse/validation/reservation.py:99-119 | An input for which both are reported |
| AvailabilityQuery.ValidateQuery | backend/src/cafe_fausse/validation/reservation.py:25-56 | A request is returned exactly when the two texts say it, otherwise the errors of both fields in order; an exception escapes exactly for a party size of more than 4300 digits |
| AvailabilityQuery.LongPartySizeEscapes | backend/src/cafe_fausse/validation/reservation.py:46-49 | Such a party size: 4301 ones |
| BookingRequest.PageQueryIsUnderstood | frontend/src/features/reservations/ReservationFeature.jsx:124-135 | The query that the page sends is understood by the server as the date and the party size on the page |
| BookingRequest.WindowMeansCalendar | frontend/src/features/reservations/ReservationFeature.jsx:95-103 | The client's window test on date texts is the calendar's |
| BookingRequest.BodyIsAccepted | backend/src/cafe_fausse/validation/reservation.py:67-149 | A sound body is accepted as the command it states |
| BookingRequest.PageBodyIsSound | frontend/src/features/reservations/ReservationFeature.jsx:175-184 | The body of an eligible page is sound |
| BookingRequest.SubmissionIsAccepted | frontend/src/features/reservations/ReservationFeature.jsx:175-184 | End to end, in every reachable page: a submission for this server's answer to the page's query is accepted, and asks for an available slot of the date on the page, at its instant, for the party on the page |
| BookingRequest.OneCommand | backend/src/cafe_fausse/validation/reservation.py:146-149 | A payload states at most one command |
| Gallery.OrderIsTotal | frontend/src/gallery/gallery-discovery.js:52-66 | Of two assets with different normalised names exactly one precedes |
| Gallery.OrderIsTransitive | frontend/src/gallery/gallery-discovery.js:52-66 | The order is transitive across metadata, order numbers and names |
| Gallery.SortKeeps | frontend/src/gallery/gallery-discovery.js:102-102 | Sorting keeps the assets and sorts them |
| Gallery.OneArrangement | frontend/src/gallery/gallery-discovery.js:102-102 | There is only one sorted arrangement |
| Gallery.FindDuplicate | frontend/src/gallery/gallery-discovery.js:92-100 | The map of seen names finds a clash exactly when two entries share a normalised name |
| Gallery.CreateGalleryAssets | frontend/src/gallery/gallery-discovery.js:68-103 | Throws exactly when two supported files share a normalised name, naming such a pair in order; otherwise returns the sorted permutation of the supported files |
| Gallery.CollectPermute | frontend/src/gallery/gallery-discovery.js:69-90 | Another enumeration gives the same entries in another order |
| Gallery.EnumerationDoesNotMatter | frontend/src/gallery/gallery-discovery.js:68-103 | The gallery does not depend on the enumeration order |
| Strings.DecimalRoundTrip | backend/src/cafe_fausse/config.py:75-78 | Decimal printing has no leading zero and is read back |
| Configuration.StrRoundTrip | backend/src/cafe_fausse/config.py:75-78 | The runtime reads back the integers it prints |
| Configuration.IntegerIsCanonical | backend/src/cafe_fausse/config.py:68-82 | A non-blank text is accepted exactly when it is the printing of an integer in range |
| Configuration.SettingsMeetThePolicy | backend/src/cafe_fausse/config.py:166-220 | Every accepted configuration has 1..3 attempts (three in production), base at most cap, jitter in [0, 0.5] and time for a first attempt, so the loop never refuses its policy |
| Configuration.ConfiguredDelays | backend/src/cafe_fausse/application.py:48-54 | With a configured policy every delay lasts between 5 ms and 1.5 s |

## Left out

- The PostgreSQL routines, their allocator and their locking: only the order of the booking routine's checks is used.
- psycopg, the connection pool, Flask, JSON parsing, `zoneinfo` and React: their behaviour is the environment's choice within stated contracts.
- The driver part of the availability, context, customer and health gateways, and `translate_read_exception`: reads that change nothing, with one-branch translations.
- A raising or backward clock, and process-level interruption: neither gateway handles them.
- Floating-point rounding of reported milliseconds, taken as the identity.
- Years below 1000 in UTC texts, where the width of `%Y` depends on the platform; the model prints four digits.
- Unicode letters, white space, case mapping and NFKC: names, addresses and file names are modelled on ASCII.
- Dates and party sizes as the browser's inputs produce them: `Number` is a parameter that gives zero for what is no whole number.
- Submit events that the disabled form does not let through, and unmounting of components.
- Derived alternative texts of the gallery (a parameter), captions, sizes, and `findOrphanMetadata`, a filter and a sort of names.
- Settings other than those of the retry loop and the mutation deadline; decimals are read by a parameter.
- Rendering, focus, messages, logging, response headers and routes.
- Episode.AtMostOneReservation: a late request of an earlier submission counts as another visitor's booking, and a new submission after abandoning may book again, as the page allows.
- ReservationPage.Component.SubmitForm: the handler's own re-validation is the eligibility test of the transition system, because the button is disabled otherwise.
