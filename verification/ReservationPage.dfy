/** The reservation component itself: its state variables and refs, and the handlers that set them. */
module ReservationPage {
  import opened Basics
  import opened FormTypes
  import opened Records
  import opened ReservationWorkflow
  import L = NewsletterLookup

  class Component {
    const rules: Rules
    const lookup: L.LookupHook
    var localDate: string
    var partySize: string
    var availability: Availability
    var availabilitySequence: nat
    var queries: set<Query>          // availability requests without a response
    var selectedStart: string
    var customer: Customer
    var newsletterChecked: bool
    var newsletterChoiceVersion: nat
    var lookupRetryVersion: nat
    var pending: Option<ReservationBody>
    var feedback: Feedback
    var recovery: Option<Recovery>
    var confirmed: bool
    ghost var userChoice: Option<bool>
    ghost var sent: seq<ReservationBody>

    ghost function State(): Page
      reads this, lookup
    {
      Page(localDate, partySize, availability, availabilitySequence, queries, selectedStart, customer, newsletterChecked,
           newsletterChoiceVersion, lookupRetryVersion, lookup.State(), pending, feedback, recovery, confirmed, userChoice, sent)
    }

    ghost predicate Valid()
      reads this, lookup
    {
      lookup.key == rules.key && Inv(State(), rules)
    }

    constructor (rules: Rules)
      ensures this.rules == rules && fresh(lookup) && State() == Mounted() && Valid()
    {
      this.rules := rules;
      lookup := new L.LookupHook(rules.key, L.Inputs(EMPTY.identity, 0, 0));
      localDate, partySize, availability, availabilitySequence, queries := "", "", Idle, 0, {};
      selectedStart, customer := "", EMPTY;
      newsletterChecked, newsletterChoiceVersion, lookupRetryVersion := false, 0, 0;
      pending, feedback, recovery, confirmed := None, NoFeedback, None, false;
      userChoice, sent := None, [];
    }

    method Render()
      requires lookup.key == rules.key && L.Inv(lookup.State(), rules.key)
      modifies lookup
      ensures State() == Commit(old(State()), rules)
    {
      if lookup.effectDue {
        lookup.RunEffect();
      }
      lookup.Render(L.Inputs(customer.identity, newsletterChoiceVersion, lookupRetryVersion));
    }

    method InvalidateAvailability()
      modifies this`availabilitySequence, this`availability, this`selectedStart
      ensures State() == Invalidated(old(State()))
    {
      availabilitySequence := availabilitySequence + 1;
      availability := Idle;
      selectedStart := "";
    }

    method ChangeDateTo(value: string)
      requires Valid() && Enabled(State(), rules, ChangeDate(value))
      modifies this, lookup
      ensures State() == Step(old(State()), rules, ChangeDate(value)) && Valid()
    {
      StepInv(State(), rules, ChangeDate(value));
      localDate := value;
      InvalidateAvailability();
      Render();
    }

    method ChangePartyTo(value: string)
      requires Valid() && Enabled(State(), rules, ChangeParty(value))
      modifies this, lookup
      ensures State() == Step(old(State()), rules, ChangeParty(value)) && Valid()
    {
      StepInv(State(), rules, ChangeParty(value));
      partySize := value;
      InvalidateAvailability();
      Render();
    }

    // The synchronous part of `checkAvailability`; its continuations are the two methods after it.
    method CheckAvailability()
      requires Valid() && !confirmed && (!Locked(State()) || feedback.TimeUnavailable?)
      modifies this, lookup
      ensures State() == (if Enabled(old(State()), rules, Check) then Step(old(State()), rules, Check) else old(State())) && Valid()
    {
      if !rules.choicesValid(localDate, partySize) || availability.Loading? {
        return;
      }
      StepInv(State(), rules, Check);
      BeginCheck(KeyOf(localDate, partySize));
      Render();
    }

    method BeginCheck(requestKey: string)
      requires requestKey == CurrentKey(State())
      modifies this
      ensures State() == CheckBegun(old(State()), rules)
    {
      availabilitySequence := availabilitySequence + 1;
      var priorSelection := selectedStart;
      selectedStart := "";
      availability := Loading(requestKey);
      queries := queries + {Query(availabilitySequence, requestKey, localDate, partySize, rules.number(partySize), priorSelection)};
    }

    method AvailabilityArrived(q: Query, slots: seq<Slot>)
      requires Valid() && q in queries
      modifies this, lookup
      ensures State() == Step(old(State()), rules, SlotsArrive(q, slots)) && Valid()
      ensures availability.Ready? ==> availability.data.query.date == localDate && availability.data.query.sequence == availabilitySequence
    {
      StepInv(State(), rules, SlotsArrive(q, slots));
      Answer(q, Ready(q.key, Data(q, slots)));
      Render();
    }

    method AvailabilityFailed(q: Query, retryable: bool)
      requires Valid() && q in queries
      modifies this, lookup
      ensures State() == Step(old(State()), rules, SlotsFail(q, retryable)) && Valid()
    {
      StepInv(State(), rules, SlotsFail(q, retryable));
      Answer(q, Unreadable(q.key, retryable));
      Render();
    }

    method Answer(q: Query, answer: Availability)
      modifies this`queries, this`availability
      ensures State() == Answered(old(State()), q, answer)
    {
      queries := queries - {q};
      if q.sequence != availabilitySequence || q.key != KeyOf(localDate, partySize) {
        return;
      }
      availability := answer;
    }

    method SelectStart(start: string)
      requires Valid() && Enabled(State(), rules, Select(start))
      modifies this, lookup
      ensures State() == Step(old(State()), rules, Select(start)) && Valid()
    {
      StepInv(State(), rules, Select(start));
      selectedStart := start;
      Render();
    }

    method UpdateCustomer(next: Customer)
      requires Valid() && Enabled(State(), rules, EditCustomer(next))
      modifies this, lookup
      ensures State() == Step(old(State()), rules, EditCustomer(next)) && Valid()
    {
      StepInv(State(), rules, EditCustomer(next));
      customer, feedback := next, NoFeedback;
      Render();
    }

    method ChooseNewsletter(checked: bool)
      requires Valid() && Enabled(State(), rules, Toggle(checked))
      modifies this, lookup
      ensures State() == Step(old(State()), rules, Toggle(checked)) && Valid()
    {
      StepInv(State(), rules, Toggle(checked));
      newsletterChecked, newsletterChoiceVersion := checked, newsletterChoiceVersion + 1;
      userChoice := Some(checked);
      assert State() == Handled(old(State()), rules, Toggle(checked));
      Render();
    }

    method RetryStatus()
      requires Valid() && Enabled(State(), rules, RetryLookup)
      modifies this, lookup
      ensures State() == Step(old(State()), rules, RetryLookup) && Valid()
    {
      StepInv(State(), rules, RetryLookup);
      lookupRetryVersion := lookupRetryVersion + 1;
      Render();
    }

    // The synchronous part of `sendReservation`; its continuations are the two methods after it.
    method SendReservation(body: ReservationBody)
      requires lookup.key == rules.key && L.Inv(lookup.State(), rules.key)
      modifies this, lookup
      ensures State() == if old(pending).Some? then old(State()) else Commit(Send(old(State()), body), rules)
    {
      if pending.Some? {
        return;
      }
      pending, feedback := Some(body), NoFeedback;
      sent := sent + [body];
      Render();
    }

    method BookingSucceeded()
      requires Valid() && Enabled(State(), rules, BookingResolved)
      modifies this, lookup
      ensures State() == Step(old(State()), rules, BookingResolved) && Valid()
    {
      StepInv(State(), rules, BookingResolved);
      ClearSchedule();
      ClearCustomer();
      Confirm();
      Render();
    }

    method ClearSchedule()
      modifies this
      ensures State() == ScheduleCleared(old(State()))
    {
      localDate, partySize, availability, selectedStart := "", "", Idle, "";
    }

    method ClearCustomer()
      modifies this
      ensures State() == CustomerCleared(old(State()))
    {
      customer, newsletterChecked, newsletterChoiceVersion := EMPTY, false, 0;
      userChoice := None;
    }

    method Confirm()
      modifies this
      ensures State() == Confirmed(old(State()))
    {
      recovery, confirmed, pending := None, true, None;
    }

    method BookingFailedWith(cause: BookingCause)
      requires Valid() && Enabled(State(), rules, BookingRejected(cause))
      modifies this, lookup
      ensures State() == Step(old(State()), rules, BookingRejected(cause)) && Valid()
      ensures pending.None? && (recovery.Some? <==> Resendable(cause)) && (recovery.Some? ==> recovery.value.body == old(pending).value)
    {
      StepInv(State(), rules, BookingRejected(cause));
      Classify(pending.value, cause);
      Render();
    }

    // The `catch` clause of `sendReservation` and its `finally`.
    method Classify(body: ReservationBody, cause: BookingCause)
      modifies this
      ensures State() == BookingFailed(old(State()), body, cause)
      ensures pending.None? && (recovery.Some? <==> Resendable(cause)) && (recovery.Some? ==> recovery.value.body == body)
    {
      recovery, feedback, pending := None, OtherFeedback, None;
      if Definite(cause) {
        MapRefusal(body, cause);
        return;
      }
      var unknown := cause.NoResponse? || cause.outcomeUnknown;
      var confirmationUnavailable := cause.PublicError? && cause.code.ConfirmationUnavailableCode?;
      if unknown || confirmationUnavailable || cause.retryable {
        recovery := Some(Recovery(body, unknown, confirmationUnavailable));
      }
    }

    // The branches for the codes that say what to correct.
    method MapRefusal(body: ReservationBody, cause: BookingCause)
      requires Definite(cause) && pending.None? && recovery.None? && feedback.OtherFeedback?
      modifies this
      ensures State() == BookingFailed(old(State()), body, cause)
    {
      if cause.code.ValidationFailed? {
        if exists p | p in cause.fields :: StaleSchedule(p) {
          InvalidateAvailability();
        }
      } else if cause.code.ReservationOverlap? {
        selectedStart := "";
      } else if cause.code.ReservationUnavailable? {
        selectedStart, availability, feedback := "", Idle, TimeUnavailable;
      }
    }

    method SubmitForm()
      requires Valid() && !confirmed && !Locked(State())
      requires !(lookup.lookup.Settled? && lookup.lookup.outcome.Conflict?)  // the button is disabled
      modifies this, lookup
      ensures State() == (if Enabled(old(State()), rules, Submit) then Step(old(State()), rules, Submit) else old(State())) && Valid()
      ensures pending.Some? ==> Offered(old(availability), pending.value) && sent == [pending.value]
    {
      var slot := if availability.Ready? then FindSlot(availability.data.slots, selectedStart) else None;
      if rules.key(customer.identity) == None || !rules.phoneValid(customer.phone) || !rules.choicesValid(localDate, partySize) || slot == None {
        return;
      }
      StepInv(State(), rules, Submit);
      FoundSlot(availability.data.slots, selectedStart);
      SendFresh(slot.value);
    }

    // The body asks for an available slot of the schedule shown, for the party it was shown for.
    ghost predicate Offered(shown: Availability, body: ReservationBody) {
      && shown.Ready? && Slot(body.startsAtLocal, body.utcOffsetMinutes, true) in shown.data.slots
      && body.partySize == shown.data.query.partySize
    }

    // `sendReservation(reservationBody())`.
    method SendFresh(slot: Slot)
      requires Valid() && Enabled(State(), rules, Submit) && SelectedSlot(State()) == Some(slot)
      modifies this, lookup
      ensures State() == Step(old(State()), rules, Submit)
    {
      var action := if !(lookup.lookup.Settled? && lookup.lookup.outcome.Known?) || newsletterChoiceVersion == 0 then NoChange
                    else if newsletterChecked then Subscribe else Unsubscribe;
      var body := ReservationBody(rules.key(customer.identity).value, rules.phone(customer.phone), slot.startsAtLocal,
                                  slot.utcOffsetMinutes, rules.number(partySize), action);
      sent := [];
      SendReservation(body);
    }

    method RetrySame()
      requires Valid() && Enabled(State(), rules, Resend)
      modifies this, lookup
      ensures State() == Step(old(State()), rules, Resend) && Valid()
      ensures pending == Some(old(recovery).value.body) && recovery == old(recovery) && sent == old(sent) + [old(sent)[0]]
    {
      StepInv(State(), rules, Resend);
      SendReservation(recovery.value.body);
    }

    method LeaveUnresolved()
      requires Valid() && Enabled(State(), rules, Abandon)
      modifies this, lookup
      ensures State() == Step(old(State()), rules, Abandon) && Valid()
    {
      StepInv(State(), rules, Abandon);
      recovery, feedback := None, NoFeedback;
      Render();
    }

    method MakeAnother()
      requires Valid() && Enabled(State(), rules, NewReservation)
      modifies this, lookup
      ensures State() == Step(old(State()), rules, NewReservation) && Valid()
    {
      StepInv(State(), rules, NewReservation);
      confirmed := false;
      Render();
    }

    // The lookup's continuation, with `onUntouchedLookup`.
    method LookupCompleted(r: L.Request, reply: L.Reply)
      requires Valid() && Enabled(State(), rules, Complete(r, reply))
      modifies this, lookup
      ensures State() == Step(old(State()), rules, Complete(r, reply)) && Valid()
      ensures newsletterChoiceVersion > 0 ==> newsletterChecked == old(newsletterChecked)
    {
      StepInv(State(), rules, Complete(r, reply));
      var delivered := lookup.Complete(r, reply);
      if delivered.Some? {
        if delivered.value.Matched? {
          newsletterChecked := delivered.value.subscribed;
        } else {
          newsletterChecked := false;
        }
      }
    }

    method RunEffect()
      requires Valid() && Enabled(State(), rules, Effect)
      modifies lookup
      ensures State() == Step(old(State()), rules, Effect) && Valid()
    {
      lookup.RunEffect();
    }

    method FireTimer()
      requires Valid() && Enabled(State(), rules, Timer)
      modifies lookup
      ensures State() == Step(old(State()), rules, Timer) && Valid()
    {
      lookup.FireTimer();
    }

    // Every event has its handler.
    method Handle(e: Event)
      requires Valid() && Enabled(State(), rules, e)
      modifies this, lookup
      ensures State() == Step(old(State()), rules, e) && Valid()
    {
      if OfHook(e) {
        if e.Effect? { RunEffect(); } else if e.Timer? { FireTimer(); } else { LookupCompleted(e.request, e.reply); }
      } else if e.ChangeDate? { ChangeDateTo(e.value);
      } else if e.ChangeParty? { ChangePartyTo(e.value);
      } else if e.Check? { CheckAvailability();
      } else if e.SlotsArrive? { AvailabilityArrived(e.query, e.slots);
      } else if e.SlotsFail? { AvailabilityFailed(e.query, e.retryable);
      } else if e.Select? { SelectStart(e.start);
      } else if e.EditCustomer? { UpdateCustomer(e.customer);
      } else if e.Toggle? { ChooseNewsletter(e.checked);
      } else if e.RetryLookup? { RetryStatus();
      } else if e.Submit? { SubmitForm();
      } else if e.Resend? { RetrySame();
      } else if e.Abandon? { LeaveUnresolved();
      } else if e.BookingResolved? { BookingSucceeded();
      } else if e.BookingRejected? { BookingFailedWith(e.cause);
      } else { MakeAnother(); }
    }

    // Driven through any run of the transition system, the component goes through that very run, so
    // everything proved over runs holds of it.
    method Run(events: seq<Event>)
      requires Valid() && exists w' :: Reaches(State(), rules, events, w')
      modifies this, lookup
      ensures Reaches(old(State()), rules, events, State()) && Valid()
      decreases |events|
    {
      if events != [] {
        Handle(events[0]);
        Run(events[1..]);
      }
    }
  }
}
