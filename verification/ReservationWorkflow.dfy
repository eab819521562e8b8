/**
 * The reservation page (features/reservations/ReservationFeature.jsx) as a labelled transition
 * system: choices, availability checks, the customer form with its newsletter lookup, submission,
 * resending and abandoning, interleaved with responses in every order. Each handler's updates are
 * rendered before the next event; effects, timers and responses come at any time.
 */
module ReservationWorkflow {
  import opened Basics
  import opened Records
  import opened FormTypes
  import opened PublicErrors
  import L = NewsletterLookup

  // The checks the page relies on.
  datatype Rules = Rules(
    key: IdentityFields -> Option<IdentityBody>,  // the body of an eligible identity
    choicesValid: (string, string) -> bool,       // `validateChoices` finds nothing
    phoneValid: string -> bool,
    phone: string -> Option<string>,              // what is sent for it
    number: string -> int)                        // `Number` of a valid party size

  datatype Query = Query(sequence: nat, key: string, date: string, party: string, partySize: int, priorSelection: string)

  datatype Data = Data(query: Query, slots: seq<Slot>)

  datatype Availability =
    | Idle
    | Loading(key: string)
    | Ready(key: string, data: Data)
    | Unreadable(key: string, retryable: bool)

  // No readable response, or a public error.
  datatype BookingCause =
    | NoResponse
    | PublicError(code: Code, retryable: bool, outcomeUnknown: bool, fields: seq<FieldError>)

  datatype Feedback = NoFeedback | TimeUnavailable | OtherFeedback

  datatype Recovery = Recovery(body: ReservationBody, unknown: bool, confirmationUnavailable: bool)

  // `userChoice` is the last deliberate newsletter choice since the choice version was reset, and
  // `sent` are the bodies sent since the last fresh submission; both only observe.
  datatype Page = Page(
    date: string, party: string, availability: Availability, sequence: nat, queries: set<Query>,
    selectedStart: string, customer: Customer, newsletterChecked: bool, choiceVersion: nat,
    lookupRetryVersion: nat, hook: L.Hook, pending: Option<ReservationBody>, feedback: Feedback,
    recovery: Option<Recovery>, confirmed: bool, userChoice: Option<bool>, sent: seq<ReservationBody>)

  const EMPTY := Customer(IdentityFields("", "", "", "", ""), "")

  function PageInputs(w: Page): L.Inputs {
    L.Inputs(w.customer.identity, w.choiceVersion, w.lookupRetryVersion)
  }

  function Mounted(): Page {
    Page("", "", Idle, 0, {}, "", EMPTY, false, 0, 0, L.Mounted(L.Inputs(EMPTY.identity, 0, 0)),
         None, NoFeedback, None, false, None, [])
  }

  function Commit(w: Page, rules: Rules): Page {
    var flushed := if w.hook.effectDue then L.EffectRan(w.hook, rules.key) else w.hook;
    w.(hook := L.Rendered(flushed, PageInputs(w)))
  }

  predicate Locked(w: Page) { w.pending.Some? || w.recovery.Some? }

  function KeyOf(date: string, party: string): string {
    if date != "" && party != "" then date + "|" + party else ""
  }

  function CurrentKey(w: Page): string { KeyOf(w.date, w.party) }

  function FindSlot(slots: seq<Slot>, start: string): Option<Slot> {
    if slots == [] then None
    else if slots[0].startsAtLocal == start && slots[0].available then Some(slots[0])
    else FindSlot(slots[1..], start)
  }

  function SelectedSlot(w: Page): Option<Slot> {
    if w.availability.Ready? then FindSlot(w.availability.data.slots, w.selectedStart) else None
  }

  function NewsletterActionOf(w: Page): NewsletterAction {
    if !(w.hook.lookup.Settled? && w.hook.lookup.outcome.Known?) || w.choiceVersion == 0 then NoChange
    else if w.newsletterChecked then Subscribe else Unsubscribe
  }

  predicate Eligible(w: Page, rules: Rules) {
    && rules.choicesValid(w.date, w.party)
    && SelectedSlot(w).Some?
    && rules.key(w.customer.identity).Some? && rules.phoneValid(w.customer.phone)
    && !(w.hook.lookup.Settled? && w.hook.lookup.outcome.Conflict?)
  }

  function BodyOf(w: Page, rules: Rules): ReservationBody
    requires Eligible(w, rules)
  {
    var slot := SelectedSlot(w).value;
    ReservationBody(rules.key(w.customer.identity).value, rules.phone(w.customer.phone), slot.startsAtLocal,
                    slot.utcOffsetMinutes, rules.number(w.party), NewsletterActionOf(w))
  }

  // `mapServerFields`: this problem makes the schedule stale.
  predicate StaleSchedule(p: FieldError) {
    match p.field
    case StartsAtLocal =>
      p.problem in {NonexistentLocalTime, AmbiguousLocalTime, UtcOffsetMismatch, DateOutsideBookingWindow,
                    InsufficientSameDayLead, InvalidReservationTime}
    case UtcOffsetMinutes => p.problem.UtcOffsetMismatch?
    case LocalDate => p.problem.OutOfRange? || p.problem.InvalidDate?
    case PartySizeField => p.problem.OutOfRange? || p.problem.InvalidInteger?
    case _ => false
  }

  predicate Definite(cause: BookingCause) {
    && cause.PublicError?
    && (cause.code.ValidationFailed? || cause.code.IdentityConflict? || cause.code.MiddleConflict?
        || cause.code.ReservationOverlap? || cause.code.ReservationUnavailable?)
  }

  predicate UnknownOutcome(cause: BookingCause) { cause.NoResponse? || cause.outcomeUnknown }

  predicate ConfirmationUnavailable(cause: BookingCause) {
    cause.PublicError? && cause.code.ConfirmationUnavailableCode?
  }

  // A failure after which the very same body may be sent again.
  predicate Resendable(cause: BookingCause) {
    !Definite(cause) && (UnknownOutcome(cause) || ConfirmationUnavailable(cause) || cause.retryable)
  }

  function BookingFailed(w: Page, body: ReservationBody, cause: BookingCause): Page {
    var settled := w.(pending := None, recovery := None, feedback := OtherFeedback);
    if !Definite(cause) then
      settled.(recovery := if Resendable(cause) then Some(Recovery(body, UnknownOutcome(cause), ConfirmationUnavailable(cause))) else None)
    else if cause.code.ValidationFailed? then
      if exists p | p in cause.fields :: StaleSchedule(p)
      then settled.(sequence := w.sequence + 1, availability := Idle, selectedStart := "")
      else settled
    else if cause.code.ReservationOverlap? then settled.(selectedStart := "")
    else if cause.code.ReservationUnavailable? then
      settled.(selectedStart := "", availability := Idle, feedback := TimeUnavailable)
    else settled
  }

  function Invalidated(w: Page): Page {
    w.(sequence := w.sequence + 1, availability := Idle, selectedStart := "")
  }

  function ScheduleCleared(w: Page): Page {
    w.(date := "", party := "", availability := Idle, selectedStart := "")
  }

  function CustomerCleared(w: Page): Page {
    w.(customer := EMPTY, newsletterChecked := false, choiceVersion := 0, userChoice := None)
  }

  function Confirmed(w: Page): Page {
    w.(recovery := None, confirmed := true, pending := None)
  }

  function CheckBegun(w: Page, rules: Rules): Page {
    var query := Query(w.sequence + 1, CurrentKey(w), w.date, w.party, rules.number(w.party), w.selectedStart);
    w.(sequence := w.sequence + 1, selectedStart := "", availability := Loading(CurrentKey(w)), queries := w.queries + {query})
  }

  predicate Fresh(w: Page, q: Query) { q.sequence == w.sequence && q.key == CurrentKey(w) }

  // The continuation of an availability request: a response that is not fresh is dropped.
  function Answered(w: Page, q: Query, availability: Availability): Page {
    var rest := w.(queries := w.queries - {q});
    if Fresh(w, q) then rest.(availability := availability) else rest
  }

  function Noticed(w: Page, delivered: Option<L.Status>): Page {
    match delivered
    case None => w
    case Some(Matched(subscribed)) => w.(newsletterChecked := subscribed)
    case Some(NotFound) => w.(newsletterChecked := false)
  }

  datatype Event =
    | ChangeDate(value: string)
    | ChangeParty(value: string)
    | Check
    | SlotsArrive(query: Query, slots: seq<Slot>)
    | SlotsFail(query: Query, retryable: bool)
    | Select(start: string)
    | EditCustomer(customer: Customer)
    | Toggle(checked: bool)
    | RetryLookup
    | Submit
    | Resend
    | Abandon
    | BookingResolved
    | BookingRejected(cause: BookingCause)
    | NewReservation
    | Effect
    | Timer
    | Complete(request: L.Request, reply: L.Reply)

  predicate OfHook(e: Event) { e.Effect? || e.Timer? || e.Complete? }

  predicate RetryOffered(lookup: L.Lookup) {
    lookup.Settled? && match lookup.outcome
                       case Indeterminate(_, retryable) => retryable
                       case ReadFailure(_) => true
                       case _ => false
  }

  // What the rendered page lets happen.
  predicate Enabled(w: Page, rules: Rules, e: Event) {
    var editable := !w.confirmed && !Locked(w);
    match e
    case ChangeDate(_) => editable
    case ChangeParty(_) => editable
    case Check =>
      // the "Refresh times" button of the feedback panel sits outside the locked part of the form
      !w.confirmed && (!Locked(w) || w.feedback.TimeUnavailable?) && rules.choicesValid(w.date, w.party) && !w.availability.Loading?
    case SlotsArrive(q, _) => q in w.queries
    case SlotsFail(q, _) => q in w.queries
    case Select(start) => editable && w.availability.Ready? && FindSlot(w.availability.data.slots, start).Some?
    case EditCustomer(_) => editable
    case Toggle(_) => editable
    case RetryLookup => editable && RetryOffered(w.hook.lookup)
    case Submit => editable && Eligible(w, rules)
    case Resend => !w.confirmed && w.recovery.Some? && !w.feedback.NoFeedback? && w.pending.None?
    case Abandon => !w.confirmed && w.recovery.Some? && !w.feedback.NoFeedback?
    case BookingResolved => w.pending.Some?
    case BookingRejected(_) => w.pending.Some?
    case NewReservation => w.confirmed
    case Effect => w.hook.effectDue
    case Timer => w.hook.timer.Some?
    case Complete(r, _) => r in w.hook.inflight
  }

  function Send(w: Page, body: ReservationBody): Page {
    w.(pending := Some(body), feedback := NoFeedback, sent := w.sent + [body])
  }

  // What a handler or a continuation sets, before it is rendered.
  function Handled(w: Page, rules: Rules, e: Event): Page
    requires Enabled(w, rules, e) && !OfHook(e)
  {
    match e
    case ChangeDate(value) => Invalidated(w.(date := value))
    case ChangeParty(value) => Invalidated(w.(party := value))
    case Check => CheckBegun(w, rules)
    case SlotsArrive(q, slots) => Answered(w, q, Ready(q.key, Data(q, slots)))
    case SlotsFail(q, retryable) => Answered(w, q, Unreadable(q.key, retryable))
    case Select(start) => w.(selectedStart := start)
    case EditCustomer(customer) => w.(customer := customer, feedback := NoFeedback)
    case Toggle(checked) =>
      w.(newsletterChecked := checked, choiceVersion := w.choiceVersion + 1, userChoice := Some(checked))
    case RetryLookup => w.(lookupRetryVersion := w.lookupRetryVersion + 1)
    case Submit => Send(w.(sent := []), BodyOf(w, rules))
    case Resend => Send(w, w.recovery.value.body)
    case Abandon => w.(recovery := None, feedback := NoFeedback)
    case BookingResolved => Confirmed(CustomerCleared(ScheduleCleared(w)))
    case BookingRejected(cause) => BookingFailed(w, w.pending.value, cause)
    case NewReservation => w.(confirmed := false)
  }

  // An effect, the timer, or the lookup's continuation with `onUntouchedResult`.
  function HookStep(w: Page, rules: Rules, e: Event): Page
    requires Enabled(w, rules, e) && OfHook(e)
  {
    match e
    case Effect => w.(hook := L.EffectRan(w.hook, rules.key))
    case Timer => w.(hook := L.TimerFired(w.hook))
    case Complete(r, reply) =>
      Noticed(w, L.Delivered(w.hook, rules.key, r, reply)).(hook := L.Completed(w.hook, rules.key, r, reply))
  }

  function Step(w: Page, rules: Rules, e: Event): Page
    requires Enabled(w, rules, e)
  {
    if OfHook(e) then HookStep(w, rules, e) else Commit(Handled(w, rules, e), rules)
  }

  // ----- what holds over every interleaving -----

  // A ready schedule is the answer to the newest query, which asked for the choices on the page; a
  // query with the newest number is outstanding exactly while the page says it is loading.
  ghost predicate InStep(date: string, party: string, partySize: int, availability: Availability, sequence: nat, queries: set<Query>) {
    && (forall q | q in queries :: q.sequence <= sequence)
    && (forall q, q' | q in queries && q' in queries && q.sequence == q'.sequence :: q == q')
    && (forall q | q in queries && q.sequence == sequence ::
          q == Query(sequence, KeyOf(date, party), date, party, partySize, q.priorSelection) && availability == Loading(q.key))
    && (availability.Loading? ==> exists q :: q in queries && q.sequence == sequence)
    && (availability.Ready? ==>
          var q := availability.data.query;
          && availability.key == q.key
          && q == Query(sequence, KeyOf(date, party), date, party, partySize, q.priorSelection))
  }

  ghost predicate Scheduled(w: Page, rules: Rules) {
    && InStep(w.date, w.party, rules.number(w.party), w.availability, w.sequence, w.queries)
    && (Locked(w) ==> !w.availability.Loading?)
  }

  // The checkbox is the user's last choice; only one body is ever sent per submission; and a page
  // that waits for the user always offers a way on.
  ghost predicate Kept(w: Page) {
    && ChoiceKept(w.choiceVersion, w.userChoice, w.newsletterChecked)
    && SendingKept(w.sent, w.pending, w.recovery, w.feedback, w.confirmed)
  }

  ghost predicate ChoiceKept(version: nat, userChoice: Option<bool>, checked: bool) {
    && (version > 0 <==> userChoice.Some?)
    && (userChoice.Some? ==> checked == userChoice.value)
  }

  ghost predicate SendingKept(sent: seq<ReservationBody>, pending: Option<ReservationBody>, recovery: Option<Recovery>, feedback: Feedback, confirmed: bool) {
    && (forall i | 0 <= i < |sent| :: sent[i] == sent[0])
    && (pending.Some? ==> sent != [] && pending.value == sent[0] && feedback.NoFeedback?)
    && (recovery.Some? ==> sent != [] && recovery.value.body == sent[0])
    && (recovery.Some? && pending.None? ==> feedback.OtherFeedback?)
    && (confirmed ==> pending.None? && recovery.None?)
  }

  ghost predicate Inv(w: Page, rules: Rules) {
    L.Inv(w.hook, rules.key) && w.hook.latest == PageInputs(w) && Scheduled(w, rules) && Kept(w)
  }

  lemma CommitKeepsHook(w: Page, rules: Rules)
    requires L.Inv(w.hook, rules.key)
    ensures L.Inv(Commit(w, rules).hook, rules.key) && Commit(w, rules).hook.latest == PageInputs(w)
  {
    if w.hook.effectDue {
      L.StepInv(w.hook, rules.key, L.Effect);
    }
    var flushed := if w.hook.effectDue then L.EffectRan(w.hook, rules.key) else w.hook;
    L.StepInv(flushed, rules.key, L.Render(PageInputs(w)));
  }

  lemma HandledKept(w: Page, rules: Rules, e: Event)
    requires Kept(w) && Enabled(w, rules, e) && !OfHook(e)
    ensures Kept(Handled(w, rules, e)) && Handled(w, rules, e).hook == w.hook
  {
    match e
    case BookingRejected(cause) => FailureKept(w, w.pending.value, cause);
    case Submit => SendKept(w.(sent := []), BodyOf(w, rules));
    case Resend => SendKept(w, w.recovery.value.body);
    case _ => QuietKept(w, rules, e);
  }

  lemma SendKept(w: Page, body: ReservationBody)
    requires Kept(w.(pending := None, recovery := None)) && !w.confirmed && w.pending.None?
    requires w.sent != [] ==> body == w.sent[0]
    requires w.recovery.Some? ==> w.sent != [] && w.recovery.value.body == w.sent[0]
    ensures Kept(Send(w, body)) && Send(w, body).hook == w.hook
  {
  }

  lemma QuietKept(w: Page, rules: Rules, e: Event)
    requires Kept(w) && Enabled(w, rules, e) && !OfHook(e) && !e.BookingRejected? && !e.Submit? && !e.Resend?
    ensures Kept(Handled(w, rules, e)) && Handled(w, rules, e).hook == w.hook
  {
  }

  lemma FailureKept(w: Page, body: ReservationBody, cause: BookingCause)
    requires Kept(w) && w.pending == Some(body)
    ensures var w' := BookingFailed(w, body, cause);
      && Kept(w') && w'.pending.None? && w'.hook == w.hook && w'.queries == w.queries
      && (w'.availability == w.availability || w'.availability.Idle?)
      && (w'.sequence == w.sequence || (w'.sequence == w.sequence + 1 && w'.availability.Idle?))
      && w'.date == w.date && w'.party == w.party
      && (w'.recovery.Some? <==> Resendable(cause))
  {
  }

  // Raising the number makes every outstanding query stale, for any new choices.
  lemma InvalidatedInStep(w: Page, rules: Rules, date: string, party: string)
    requires Scheduled(w, rules)
    ensures InStep(date, party, rules.number(party), Idle, w.sequence + 1, w.queries)
  {
  }

  lemma CheckInStep(w: Page, rules: Rules)
    requires Scheduled(w, rules)
    ensures var w' := CheckBegun(w, rules); InStep(w.date, w.party, rules.number(w.party), w'.availability, w'.sequence, w'.queries)
  {
    assert Query(w.sequence + 1, CurrentKey(w), w.date, w.party, rules.number(w.party), w.selectedStart) in CheckBegun(w, rules).queries;
  }

  // An answer that is not fresh leaves the page alone; a fresh one ends the loading.
  lemma AnswerInStep(w: Page, rules: Rules, q: Query, availability: Availability)
    requires Scheduled(w, rules) && q in w.queries
    requires if Fresh(w, q) then (availability.Ready? && availability.key == q.key && availability.data.query == q) || availability.Unreadable?
             else availability == w.availability
    ensures InStep(w.date, w.party, rules.number(w.party), availability, w.sequence, w.queries - {q})
  {
    if availability.Loading? {
      var newest :| newest in w.queries && newest.sequence == w.sequence;
      assert newest in w.queries - {q};
    }
  }

  // Setting a schedule aside that is not being loaded leaves no query with the newest number.
  lemma SetAsideInStep(w: Page, rules: Rules, date: string, party: string)
    requires Scheduled(w, rules) && !w.availability.Loading?
    ensures InStep(date, party, rules.number(party), Idle, w.sequence, w.queries)
  {
  }

  lemma HandledScheduled(w: Page, rules: Rules, e: Event)
    requires Kept(w) && Scheduled(w, rules) && Enabled(w, rules, e) && !OfHook(e)
    ensures Scheduled(Handled(w, rules, e), rules)
  {
    match e
    case ChangeDate(value) => InvalidatedInStep(w, rules, value, w.party);
    case ChangeParty(value) => InvalidatedInStep(w, rules, w.date, value);
    case Check => CheckInStep(w, rules);
    case SlotsArrive(q, slots) => AnswerInStep(w, rules, q, Handled(w, rules, e).availability);
    case SlotsFail(q, retryable) => AnswerInStep(w, rules, q, Handled(w, rules, e).availability);
    case BookingResolved => SetAsideInStep(w, rules, "", "");
    case BookingRejected(cause) =>
      FailureKept(w, w.pending.value, cause);
      InvalidatedInStep(w, rules, w.date, w.party);
      SetAsideInStep(w, rules, w.date, w.party);
    case _ =>
  }

  lemma HookOnly(w: Page, rules: Rules, hook: L.Hook, checked: bool)
    requires Inv(w, rules) && L.Inv(hook, rules.key) && hook.latest == w.hook.latest
    requires w.choiceVersion > 0 ==> checked == w.newsletterChecked
    ensures Inv(w.(hook := hook, newsletterChecked := checked), rules)
  {
  }

  lemma HookStepInv(w: Page, rules: Rules, e: Event)
    requires Inv(w, rules) && Enabled(w, rules, e) && OfHook(e)
    ensures Inv(HookStep(w, rules, e), rules)
  {
    var w' := HookStep(w, rules, e);
    match e
    case Effect => L.StepInv(w.hook, rules.key, L.Effect);
    case Timer => L.StepInv(w.hook, rules.key, L.Timer);
    case Complete(r, reply) => L.StepInv(w.hook, rules.key, L.Complete(r, reply));
    HookOnly(w, rules, w'.hook, w'.newsletterChecked);
    assert w' == w.(hook := w'.hook, newsletterChecked := w'.newsletterChecked);
  }

  lemma StepInv(w: Page, rules: Rules, e: Event)
    requires Inv(w, rules) && Enabled(w, rules, e)
    ensures Inv(Step(w, rules, e), rules)
  {
    if OfHook(e) {
      HookStepInv(w, rules, e);
    } else {
      HandledKept(w, rules, e);
      HandledScheduled(w, rules, e);
      CommitKeepsHook(Handled(w, rules, e), rules);
    }
  }

  ghost predicate Reaches(w: Page, rules: Rules, events: seq<Event>, w': Page)
    decreases |events|
  {
    if events == [] then w' == w
    else Enabled(w, rules, events[0]) && Reaches(Step(w, rules, events[0]), rules, events[1..], w')
  }

  lemma {:induction false} ReachesInv(w: Page, rules: Rules, events: seq<Event>, w': Page)
    requires Inv(w, rules) && Reaches(w, rules, events, w')
    ensures Inv(w', rules)
    decreases |events|
  {
    if events != [] {
      StepInv(w, rules, events[0]);
      ReachesInv(Step(w, rules, events[0]), rules, events[1..], w');
    }
  }

  ghost predicate Reachable(w: Page, rules: Rules) {
    exists events :: Reaches(Mounted(), rules, events, w)
  }

  lemma ReachableInv(w: Page, rules: Rules)
    requires Reachable(w, rules)
    ensures Inv(w, rules)
  {
    var events :| Reaches(Mounted(), rules, events, w);
    L.MountedInv(L.Inputs(EMPTY.identity, 0, 0), rules.key);
    ReachesInv(Mounted(), rules, events, w);
  }

  // A fresh submission takes its slot from the answer to the newest query, which asked for the date
  // and the party size on the page; nothing is being loaded meanwhile.
  lemma SubmissionMatchesSchedule(w: Page, rules: Rules)
    requires Reachable(w, rules) && Enabled(w, rules, Submit)
    ensures var body, data := BodyOf(w, rules), w.availability.data;
      && Step(w, rules, Submit).pending == Some(body)
      && Slot(body.startsAtLocal, body.utcOffsetMinutes, true) in data.slots
      && data.query.sequence == w.sequence && data.query.date == w.date && data.query.party == w.party
      && body.partySize == data.query.partySize
      && w.availability.key == CurrentKey(w)
  {
    ReachableInv(w, rules);
    FoundSlot(w.availability.data.slots, w.selectedStart);
  }

  lemma {:induction false} FoundSlot(slots: seq<Slot>, start: string)
    ensures match FindSlot(slots, start)
            case Some(slot) => slot in slots && slot.startsAtLocal == start && slot.available
            case None => !exists slot :: slot in slots && slot.startsAtLocal == start && slot.available
  {
    if slots != [] {
      FoundSlot(slots[1..], start);
      assert slots == [slots[0]] + slots[1..];
    }
  }

  // A booking changes the newsletter preference only to the user's deliberate choice, and only after
  // a lookup that succeeded. That lookup was for the identity being booked exactly when the newest
  // effect ran with it, which is the case whenever no effect is due.
  lemma NewsletterOnlyByChoice(w: Page, rules: Rules)
    requires Reachable(w, rules) && Enabled(w, rules, Submit)
    ensures var body := BodyOf(w, rules);
      && (body.newsletterAction.Subscribe? ==> w.userChoice == Some(true))
      && (body.newsletterAction.Unsubscribe? ==> w.userChoice == Some(false))
      && (!body.newsletterAction.NoChange? ==>
            && w.hook.lookup.Settled? && w.hook.lookup.outcome.Known?
            && (w.hook.lookup.source.snapshot == body.identity <==> rules.key(w.hook.effect.values) == rules.key(w.customer.identity)))
    ensures !w.hook.effectDue ==> w.hook.effect.values == w.customer.identity
  {
    ReachableInv(w, rules);
  }

  // The bodies an event sends.
  function Sends(w: Page, rules: Rules, e: Event): Option<ReservationBody>
    requires Enabled(w, rules, e)
  {
    match e
    case Submit => Some(BodyOf(w, rules))
    case Resend => Some(w.recovery.value.body)
    case _ => None
  }

  // While a response is outstanding or unresolved, along every run.
  ghost predicate Unresolved(w: Page, rules: Rules, events: seq<Event>)
    decreases |events|
  {
    Locked(w) && (events == [] || (Enabled(w, rules, events[0]) && Unresolved(Step(w, rules, events[0]), rules, events[1..])))
  }

  ghost predicate OnlySends(w: Page, rules: Rules, events: seq<Event>, body: ReservationBody)
    decreases |events|
  {
    events == [] ||
    (Enabled(w, rules, events[0]) && Sends(w, rules, events[0]) in {None, Some(body)}
     && OnlySends(Step(w, rules, events[0]), rules, events[1..], body))
  }

  // From a submission until it is resolved or abandoned, every request carries the body of that
  // submission, whatever else happens on the page.
  lemma {:induction false} ResendsAreIdentical(w: Page, rules: Rules, events: seq<Event>)
    requires Inv(w, rules) && Unresolved(w, rules, events)
    ensures w.sent != [] && OnlySends(w, rules, events, w.sent[0])
    decreases |events|
  {
    if events != [] {
      var w' := Step(w, rules, events[0]);
      StepInv(w, rules, events[0]);
      ResendsAreIdentical(w', rules, events[1..]);
      SentKeepsHead(w, rules, events[0]);
    }
  }

  lemma {:induction false} SentKeepsHead(w: Page, rules: Rules, e: Event)
    requires Inv(w, rules) && Locked(w) && Enabled(w, rules, e)
    ensures w.sent != [] && Step(w, rules, e).sent != [] && Step(w, rules, e).sent[0] == w.sent[0]
    ensures Sends(w, rules, e) in {None, Some(w.sent[0])}
  {
    if OfHook(e) {
      assert HookStep(w, rules, e).sent == w.sent;
    } else {
      assert e.Resend? || Handled(w, rules, e).sent == w.sent;
    }
  }

  // A locked page is never stuck: a response is outstanding, or both ways on are offered; and it
  // neither submits nor checks.
  lemma NeverStuck(w: Page, rules: Rules)
    requires Reachable(w, rules) && Locked(w)
    ensures w.pending.Some? || (Enabled(w, rules, Resend) && Enabled(w, rules, Abandon))
    ensures w.pending.Some? ==> !Enabled(w, rules, Resend) && !Enabled(w, rules, Abandon)
    ensures !Enabled(w, rules, Submit) && !Enabled(w, rules, Check)
  {
    ReachableInv(w, rules);
    LockedOffers(w, rules);
  }

  lemma LockedOffers(w: Page, rules: Rules)
    requires Kept(w) && Locked(w)
    ensures w.pending.Some? || (Enabled(w, rules, Resend) && Enabled(w, rules, Abandon))
    ensures w.pending.Some? ==> !Enabled(w, rules, Resend) && !Enabled(w, rules, Abandon)
    ensures !Enabled(w, rules, Submit) && !Enabled(w, rules, Check)
  {
  }
}
