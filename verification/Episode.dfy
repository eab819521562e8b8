/**
 * The reservation page, the network, the booking service and the reservations it stores, end to end.
 * The stored procedure itself is outside the model; `Routine` is what its order of checks promises.
 */
module Episode {
  import opened Basics
  import opened Records
  import opened FormTypes
  import opened PublicErrors
  import opened Services
  import opened PublicResponses
  import A = Attempts
  import W = ReservationWorkflow

  datatype BookingKey = BookingKey(email: string, instant: int, partySize: int)

  // `episode` numbers the fresh submissions of this page; other visitors' rows carry zero.
  datatype Stored = Stored(key: BookingKey, episode: nat)

  // How the current submission ended for the user.
  datatype Resolution = Nothing | Running | Confirmed | Refused(code: Code) | Abandoned

  // `history` holds the first body of every submission so far.
  datatype System = System(
    page: W.Page, rows: seq<Stored>, history: seq<ReservationBody>, zones: Zones, resolution: Resolution,
    served: Option<BookingPublic>,  // the outstanding request's outcome at the service
    late: bool)                     // some request of this submission was served after its connection was lost
  {
    function Episode(): nat { |history| }
  }

  type KeyOf = ReservationBody -> BookingKey

  ghost predicate Present(rows: seq<Stored>, key: BookingKey) {
    exists i :: 0 <= i < |rows| && rows[i].key == key
  }

  // A reservation was inserted.
  predicate Stores(answer: BookingResult) { answer.outcome.Booked? || answer.outcome.BookedPhoneNotice? }

  // Refusals that are only reached after the routine looked for an identical booking and found none.
  predicate AfterLookup(answer: BookingResult) {
    && !answer.outcome.Success()
    && (answer.outcome.SameCustomerOverlap? || answer.outcome.Unavailable? || answer.detail == Some("time_boundary_crossed_during_booking"))
  }

  predicate IdentityRefusal(answer: BookingResult) {
    answer.outcome.CustomerIdentityConflict? || answer.outcome.MiddleInitialConflict?
  }

  // One committed booking transaction. Requests are checked against the configuration, the clock and
  // the identity first; then an identical booking is answered as an exact retry; only if there is none
  // is one stored. A request whose own booking is stored passes the identity check again, because stored
  // names and initials are never replaced. The other early refusals may hit a booking that is stored.
  // Reservations lie in the booking window, far from both ends of the calendar.
  ghost predicate Routine(rows: seq<Stored>, key: BookingKey, episode: nat, answer: BookingResult) {
    && (answer.outcome.ExactRetry? ==> Present(rows, key))
    && (Present(rows, key) ==> !Stores(answer) && !AfterLookup(answer))
    && (HasRow(rows, episode) ==> !IdentityRefusal(answer))
    && (answer.outcome.Success() ==> InTheWindow(answer))
  }

  predicate InTheWindow(answer: BookingResult) {
    answer.startsAt.Moment? && answer.endsAt.Moment? && Central(answer.startsAt.at) && Central(answer.endsAt.at)
  }

  function After(rows: seq<Stored>, key: BookingKey, episode: nat, applied: Option<BookingResult>): seq<Stored> {
    if applied.Some? && Stores(applied.value) then rows + [Stored(key, episode)] else rows
  }

  datatype Event =
    | OnPage(e: W.Event)
    | Serve(outcome: BookingPublic, applied: Option<BookingResult>)
    | ServeLate(outcome: BookingPublic, applied: Option<BookingResult>)
    | Answer
    | Lose
    | OtherVisitor(key: BookingKey)

  ghost predicate ServiceCall(s: System, key: BookingKey, outcome: BookingPublic, applied: Option<BookingResult>) {
    Certifies(outcome, applied, s.zones.Keys) && (applied.Some? ==> Routine(s.rows, key, s.Episode(), applied.value))
  }

  ghost predicate Enabled(s: System, rules: W.Rules, keyOf: KeyOf, e: Event) {
    match e
    case OnPage(p) => W.Enabled(s.page, rules, p) && !p.BookingResolved? && !p.BookingRejected?
    case Serve(outcome, applied) =>
      s.page.pending.Some? && s.served.None? && ServiceCall(s, keyOf(s.page.pending.value), outcome, applied)
    case ServeLate(outcome, applied) => s.page.sent != [] && ServiceCall(s, keyOf(s.page.sent[0]), outcome, applied)
    case Answer => s.page.pending.Some? && s.served.Some?
    case Lose => s.page.pending.Some?
    case OtherVisitor(key) => !Present(s.rows, key)
  }

  // The page's event for an answered request.
  function Heard(response: Response): W.Event {
    match response
    case Confirmation(_, _) => W.BookingResolved
    case Error(code, fields) => W.BookingRejected(Cause(code, fields))
  }

  function Ended(response: Response): Resolution {
    match response
    case Confirmation(_, _) => Confirmed
    case Error(code, fields) => if W.Resendable(Cause(code, fields)) then Running else Refused(code)
  }

  ghost function Step(s: System, rules: W.Rules, keyOf: KeyOf, e: Event): System
    requires Enabled(s, rules, keyOf, e)
  {
    match e
    case OnPage(p) =>
      var page := W.Step(s.page, rules, p);
      if p.Submit? then s.(page := page, history := s.history + [page.sent[0]], resolution := Running, served := None, late := false)
      else if p.Resend? then s.(page := page, served := None)
      else if p.Abandon? then s.(page := page, resolution := Abandoned)
      else s.(page := page)
    case Serve(outcome, applied) =>
      s.(rows := After(s.rows, keyOf(s.page.pending.value), s.Episode(), applied), served := Some(outcome))
    case ServeLate(outcome, applied) =>
      s.(rows := After(s.rows, keyOf(s.page.sent[0]), s.Episode(), applied), late := true)
    case Answer =>
      var response := Respond(s.served.value, s.zones);
      s.(page := W.Step(s.page, rules, Heard(response)), resolution := Ended(response), served := None)
    case Lose => s.(page := W.Step(s.page, rules, W.BookingRejected(W.NoResponse)), served := None)
    case OtherVisitor(key) => s.(rows := s.rows + [Stored(key, 0)])
  }

  ghost function Initially(rows: seq<Stored>, zones: Zones): System {
    System(W.Mounted(), rows, [], zones, Nothing, None, false)
  }

  // ----- what holds over every run -----

  ghost predicate Distinct(rows: seq<Stored>) {
    forall i, j | 0 <= i < j < |rows| :: rows[i].key != rows[j].key
  }

  // Every row of a submission, past or present, is the booking it asked for.
  ghost predicate OwnRows(rows: seq<Stored>, history: seq<ReservationBody>, keyOf: KeyOf) {
    forall i | 0 <= i < |rows| ::
      rows[i].episode <= |history| && (rows[i].episode > 0 ==> rows[i].key == keyOf(history[rows[i].episode - 1]))
  }

  // The last submission recorded is the one on the page.
  ghost predicate Recorded(history: seq<ReservationBody>, sent: seq<ReservationBody>) {
    (history == [] <==> sent == []) && (sent != [] ==> history[|history| - 1] == sent[0])
  }

  ghost predicate HasRow(rows: seq<Stored>, episode: nat) {
    exists i :: 0 <= i < |rows| && rows[i].episode == episode
  }

  // A refusal that settles the submission: it answers the only request made, or its code is one that
  // a stored booking is never refused with.
  predicate Settles(code: Code, requests: nat) {
    requests == 1 || !(code.InternalError? || code.ValidationFailed?)
  }

  // What the user has been told, or is about to be told, is true of the stored rows.
  ghost predicate Truthful(s: System, keyOf: KeyOf) {
    && (s.resolution.Running? <==> W.Locked(s.page))
    && (s.resolution.Nothing? <==> s.page.sent == [])
    && (s.resolution.Confirmed? ==> s.page.sent != [] && Present(s.rows, keyOf(s.page.sent[0])))
    && (s.resolution.Refused? ==> s.page.sent != [] && (!s.late && Settles(s.resolution.code, |s.page.sent|) ==> !HasRow(s.rows, s.Episode())))
    && (s.page.pending.Some? && s.served.None? && |s.page.sent| == 1 && !s.late ==> !HasRow(s.rows, s.Episode()))
    && (s.page.pending.Some? && s.served.Some? ==> Told(s, keyOf))
  }

  // The outcome waiting to be answered does not hide a row.
  ghost predicate Told(s: System, keyOf: KeyOf)
    requires s.page.pending.Some? && s.served.Some?
  {
    match Respond(s.served.value, s.zones)
    case Confirmation(_, _) => Present(s.rows, keyOf(s.page.pending.value))
    case Error(code, fields) =>
      !W.Resendable(Cause(code, fields)) && !s.late && Settles(code, |s.page.sent|) ==> !HasRow(s.rows, s.Episode())
  }

  ghost predicate Inv(s: System, rules: W.Rules, keyOf: KeyOf) {
    W.Inv(s.page, rules) && Distinct(s.rows) && OwnRows(s.rows, s.history, keyOf) && Recorded(s.history, s.page.sent)
    && ZonesOk(s.zones) && Truthful(s, keyOf)
  }

  lemma RowsGrow(rows: seq<Stored>, key: BookingKey, episode: nat)
    ensures var more := rows + [Stored(key, episode)];
      && Present(more, key)
      && (forall k :: Present(rows, k) ==> Present(more, k))
      && (!Present(rows, key) && Distinct(rows) ==> Distinct(more))
      && HasRow(more, episode)
      && (forall e :: e != episode && !HasRow(rows, e) ==> !HasRow(more, e))
  {
    var more := rows + [Stored(key, episode)];
    assert more[|rows|] == Stored(key, episode);
    forall k | Present(rows, k) ensures Present(more, k) {
      var i :| 0 <= i < |rows| && rows[i].key == k;
      assert more[i].key == k;
    }
  }

  // The effect of one service call for the current submission's booking.
  lemma Served(rows: seq<Stored>, history: seq<ReservationBody>, keyOf: KeyOf, applied: Option<BookingResult>)
    requires Distinct(rows) && OwnRows(rows, history, keyOf) && history != []
    requires applied.Some? ==> Routine(rows, keyOf(history[|history| - 1]), |history|, applied.value)
    ensures var key := keyOf(history[|history| - 1]); var more := After(rows, key, |history|, applied);
      && Distinct(more) && OwnRows(more, history, keyOf)
      && (forall k :: Present(rows, k) ==> Present(more, k))
      && (applied.Some? && applied.value.outcome.Success() ==> Present(more, key))
      && (applied.None? || !Stores(applied.value) ==> more == rows)
      && (applied.Some? && (AfterLookup(applied.value) || IdentityRefusal(applied.value)) ==> !HasRow(more, |history|))
  {
    RowsGrow(rows, keyOf(history[|history| - 1]), |history|);
    OwnRowIsPresent(rows, history, keyOf);
    if applied.Some? && Stores(applied.value) {
      OwnRowsGrow(rows, history, keyOf);
    }
  }

  lemma OwnRowsGrow(rows: seq<Stored>, history: seq<ReservationBody>, keyOf: KeyOf)
    requires OwnRows(rows, history, keyOf) && history != []
    ensures OwnRows(rows + [Stored(keyOf(history[|history| - 1]), |history|)], history, keyOf)
  {
  }

  lemma OwnRowIsPresent(rows: seq<Stored>, history: seq<ReservationBody>, keyOf: KeyOf)
    requires OwnRows(rows, history, keyOf) && history != []
    ensures HasRow(rows, |history|) ==> Present(rows, keyOf(history[|history| - 1]))
  {
    if HasRow(rows, |history|) {
      var i :| 0 <= i < |rows| && rows[i].episode == |history|;
      assert rows[i].key == keyOf(history[|history| - 1]);
    }
  }

  // The codes that refuse a booking, by what the routine must have answered.
  lemma RefusalCodes(outcome: BookingPublic, applied: Option<BookingResult>, zones: Zones)
    requires Certifies(outcome, applied, zones.Keys) && ZonesOk(zones)
    requires applied.Some? && applied.value.outcome.Success() ==> InTheWindow(applied.value)
    ensures match Respond(outcome, zones)
            case Confirmation(_, _) => applied.Some? && applied.value.outcome.Success()
            case Error(code, fields) =>
              !W.Resendable(Cause(code, fields)) ==>
                && (applied.Some? ==> !applied.value.outcome.Success())
                && (code.InternalError? || code.ValidationFailed?
                    || (applied.Some? && (AfterLookup(applied.value) || IdentityRefusal(applied.value))))
  {
    if outcome.Answered? && outcome.result.outcome.Success() {
      CentralIsPlaced(outcome.result, zones);
    }
  }

  // Events of the page that neither send nor settle anything.
  predicate Quiet(p: W.Event) {
    !p.Submit? && !p.Resend? && !p.Abandon? && !p.BookingResolved? && !p.BookingRejected?
  }

  lemma QuietPage(page: W.Page, rules: W.Rules, p: W.Event)
    requires W.Enabled(page, rules, p) && Quiet(p)
    ensures var page' := W.Step(page, rules, p);
      page'.pending == page.pending && page'.recovery == page.recovery && page'.sent == page.sent
  {
    if !W.OfHook(p) {
      QuietHandler(page, rules, p);
    }
  }

  lemma QuietHandler(page: W.Page, rules: W.Rules, p: W.Event)
    requires W.Enabled(page, rules, p) && Quiet(p) && !W.OfHook(p)
    ensures var page' := W.Handled(page, rules, p);
      page'.pending == page.pending && page'.recovery == page.recovery && page'.sent == page.sent
  {
  }

  lemma PageStep(s: System, rules: W.Rules, keyOf: KeyOf, p: W.Event)
    requires Inv(s, rules, keyOf) && Enabled(s, rules, keyOf, OnPage(p))
    ensures Inv(Step(s, rules, keyOf, OnPage(p)), rules, keyOf)
  {
    W.StepInv(s.page, rules, p);
    if Quiet(p) {
      QuietPage(s.page, rules, p);
    }
  }

  lemma ServeStep(s: System, rules: W.Rules, keyOf: KeyOf, outcome: BookingPublic, applied: Option<BookingResult>)
    requires Inv(s, rules, keyOf) && Enabled(s, rules, keyOf, Serve(outcome, applied))
    ensures Inv(Step(s, rules, keyOf, Serve(outcome, applied)), rules, keyOf)
  {
    Served(s.rows, s.history, keyOf, applied);
    RefusalCodes(outcome, applied, s.zones);
  }

  lemma ServeLateStep(s: System, rules: W.Rules, keyOf: KeyOf, outcome: BookingPublic, applied: Option<BookingResult>)
    requires Inv(s, rules, keyOf) && Enabled(s, rules, keyOf, ServeLate(outcome, applied))
    ensures Inv(Step(s, rules, keyOf, ServeLate(outcome, applied)), rules, keyOf)
  {
    Served(s.rows, s.history, keyOf, applied);
  }

  lemma AnswerStep(s: System, rules: W.Rules, keyOf: KeyOf)
    requires Inv(s, rules, keyOf) && Enabled(s, rules, keyOf, Answer)
    ensures Inv(Step(s, rules, keyOf, Answer), rules, keyOf)
  {
    var heard := Heard(Respond(s.served.value, s.zones));
    W.StepInv(s.page, rules, heard);
    HeardPage(s.page, rules, Respond(s.served.value, s.zones));
  }

  // How the page takes an answer.
  lemma HeardPage(page: W.Page, rules: W.Rules, response: Response)
    requires W.Inv(page, rules) && page.pending.Some?
    ensures var page' := W.Step(page, rules, Heard(response));
      && page'.pending.None? && page'.sent == page.sent
      && (page'.recovery.Some? <==> Ended(response).Running?)
  {
    if response.Error? {
      RejectedPage(page, rules, Cause(response.code, response.fields));
    }
  }

  lemma RejectedPage(page: W.Page, rules: W.Rules, cause: W.BookingCause)
    requires W.Inv(page, rules) && page.pending.Some?
    ensures var page' := W.Step(page, rules, W.BookingRejected(cause));
      && page'.pending.None? && page'.sent == page.sent && (page'.recovery.Some? <==> W.Resendable(cause))
  {
    W.FailureKept(page, page.pending.value, cause);
  }

  lemma StepInv(s: System, rules: W.Rules, keyOf: KeyOf, e: Event)
    requires Inv(s, rules, keyOf) && Enabled(s, rules, keyOf, e)
    ensures Inv(Step(s, rules, keyOf, e), rules, keyOf)
  {
    match e
    case OnPage(p) => PageStep(s, rules, keyOf, p);
    case Serve(outcome, applied) => ServeStep(s, rules, keyOf, outcome, applied);
    case ServeLate(outcome, applied) => ServeLateStep(s, rules, keyOf, outcome, applied);
    case Answer => AnswerStep(s, rules, keyOf);
    case Lose =>
      W.StepInv(s.page, rules, W.BookingRejected(W.NoResponse));
      W.FailureKept(s.page, s.page.pending.value, W.NoResponse);
    case OtherVisitor(key) => OtherStep(s, rules, keyOf, key);
  }

  lemma OtherStep(s: System, rules: W.Rules, keyOf: KeyOf, key: BookingKey)
    requires Inv(s, rules, keyOf) && !Present(s.rows, key)
    ensures Inv(Step(s, rules, keyOf, OtherVisitor(key)), rules, keyOf)
  {
    RowsGrow(s.rows, key, 0);
  }

  ghost predicate Reaches(s: System, rules: W.Rules, keyOf: KeyOf, events: seq<Event>, s': System)
    decreases |events|
  {
    if events == [] then s' == s
    else Enabled(s, rules, keyOf, events[0]) && Reaches(Step(s, rules, keyOf, events[0]), rules, keyOf, events[1..], s')
  }

  lemma {:induction false} ReachesInv(s: System, rules: W.Rules, keyOf: KeyOf, events: seq<Event>, s': System)
    requires Inv(s, rules, keyOf) && Reaches(s, rules, keyOf, events, s')
    ensures Inv(s', rules, keyOf)
    decreases |events|
  {
    if events != [] {
      StepInv(s, rules, keyOf, events[0]);
      ReachesInv(Step(s, rules, keyOf, events[0]), rules, keyOf, events[1..], s');
    }
  }

  // Over every run, with any number of lost responses, client resends, server retries and late
  // deliveries: every submission, past or present, has stored at most one row, and it is the booking it
  // asked for; all rows have distinct keys; a confirmed booking is stored; and a refusal that settles
  // the submission means nothing was stored, unless a request was served late.
  lemma AtMostOneReservation(rows: seq<Stored>, zones: Zones, rules: W.Rules, keyOf: KeyOf, events: seq<Event>, s: System)
    requires Distinct(rows) && ZonesOk(zones) && forall i | 0 <= i < |rows| :: rows[i].episode == 0
    requires Reaches(Initially(rows, zones), rules, keyOf, events, s)
    ensures forall i, j | 0 <= i < |s.rows| && 0 <= j < |s.rows| && s.rows[i].episode == s.rows[j].episode > 0 :: i == j
    ensures forall i | 0 <= i < |s.rows| && s.rows[i].episode > 0 ::
      s.rows[i].episode <= |s.history| && s.rows[i].key == keyOf(s.history[s.rows[i].episode - 1])
    ensures s.page.sent != [] ==> s.history != [] && s.history[|s.history| - 1] == s.page.sent[0]
    ensures Distinct(s.rows)
    ensures s.resolution.Confirmed? ==> s.page.sent != [] && Present(s.rows, keyOf(s.page.sent[0]))
    ensures s.resolution.Refused? && !s.late && Settles(s.resolution.code, |s.page.sent|) ==> !HasRow(s.rows, s.Episode())
    ensures HasRow(s.rows, s.Episode()) && s.Episode() > 0 && !s.late && !W.Locked(s.page) ==>
      s.resolution.Confirmed? || s.resolution.Abandoned?
      || (s.resolution.Refused? && |s.page.sent| > 1 && (s.resolution.code.InternalError? || s.resolution.code.ValidationFailed?))
  {
    var first := Initially(rows, zones);
    FirstInv(rows, zones, rules, keyOf);
    ReachesInv(first, rules, keyOf, events, s);
  }

  lemma FirstInv(rows: seq<Stored>, zones: Zones, rules: W.Rules, keyOf: KeyOf)
    requires Distinct(rows) && ZonesOk(zones) && forall i | 0 <= i < |rows| :: rows[i].episode == 0
    ensures Inv(Initially(rows, zones), rules, keyOf)
  {
    assert W.Reaches(W.Mounted(), rules, [], W.Mounted());
    W.ReachableInv(W.Mounted(), rules);
  }

  // ----- the exceptions are real -----

  lemma Prepend(s: System, rules: W.Rules, keyOf: KeyOf, e: Event, events: seq<Event>, s': System)
    requires Enabled(s, rules, keyOf, e) && Reaches(Step(s, rules, keyOf, e), rules, keyOf, events, s')
    ensures Reaches(s, rules, keyOf, [e] + events, s')
  {
    assert ([e] + events)[1..] == events;
  }

  // One exchange: the page sends, the service serves the request once, and the page hears of it.
  lemma Exchange(s: System, rules: W.Rules, keyOf: KeyOf, p: W.Event, body: ReservationBody, outcome: BookingPublic, applied: Option<BookingResult>)
    returns (events: seq<Event>, s': System)
    requires Inv(s, rules, keyOf) && Enabled(s, rules, keyOf, OnPage(p)) && (p.Submit? || p.Resend?)
    requires var s1 := Step(s, rules, keyOf, OnPage(p)); s1.page.pending == Some(body) && ServiceCall(s1, keyOf(body), outcome, applied)
    ensures Reaches(s, rules, keyOf, events, s') && Inv(s', rules, keyOf)
    ensures s'.resolution == Ended(Respond(outcome, s.zones)) && s'.page.pending.None?
    ensures var s1 := Step(s, rules, keyOf, OnPage(p));
      && s'.rows == After(s.rows, keyOf(body), s1.Episode(), applied) && s'.Episode() == s1.Episode()
      && s'.late == s1.late && s'.page.sent == s1.page.sent
  {
    var s1 := Step(s, rules, keyOf, OnPage(p));
    StepInv(s, rules, keyOf, OnPage(p));
    var s2 := Step(s1, rules, keyOf, Serve(outcome, applied));
    StepInv(s1, rules, keyOf, Serve(outcome, applied));
    s' := Step(s2, rules, keyOf, Answer);
    StepInv(s2, rules, keyOf, Answer);
    HeardPage(s2.page, rules, Respond(outcome, s.zones));
    Prepend(s2, rules, keyOf, Answer, [], s');
    Prepend(s1, rules, keyOf, Serve(outcome, applied), [Answer] + [], s');
    Prepend(s, rules, keyOf, OnPage(p), [Serve(outcome, applied)] + ([Answer] + []), s');
    events := [OnPage(p)] + ([Serve(outcome, applied)] + ([Answer] + []));
  }

  const NO_ACCOUNT := A.Account(0.0, 0.0, 1, false)

  function AnswerOf(outcome: BookingOutcome, detail: Option<string>): BookingResult {
    BookingResult(outcome, detail, Null, Null, Null, Null, [], Null, false, None, None, 0.0, 0.0, 1, false)
  }

  lemma SubmitSends(s: System, rules: W.Rules, keyOf: KeyOf)
    requires W.Enabled(s.page, rules, W.Submit)
    ensures var s1 := Step(s, rules, keyOf, OnPage(W.Submit));
      && s1.page.pending == Some(W.BodyOf(s.page, rules)) && s1.rows == s.rows && s1.Episode() == s.Episode() + 1
      && !s1.late && |s1.page.sent| == 1
  {
  }

  lemma SubmitExchange(s: System, rules: W.Rules, keyOf: KeyOf, key: BookingKey, outcome: BookingPublic, applied: Option<BookingResult>)
    returns (events: seq<Event>, s': System)
    requires Inv(s, rules, keyOf) && W.Enabled(s.page, rules, W.Submit) && key == keyOf(W.BodyOf(s.page, rules))
    requires Certifies(outcome, applied, s.zones.Keys) && (applied.Some? ==> Routine(s.rows, key, s.Episode() + 1, applied.value))
    ensures Reaches(s, rules, keyOf, events, s') && Inv(s', rules, keyOf)
    ensures s'.resolution == Ended(Respond(outcome, s.zones)) && s'.page.pending.None? && !s'.late && |s'.page.sent| == 1
    ensures s'.rows == After(s.rows, key, s'.Episode(), applied) && s'.Episode() == s.Episode() + 1
  {
    SubmitSends(s, rules, keyOf);
    events, s' := Exchange(s, rules, keyOf, W.Submit, W.BodyOf(s.page, rules), outcome, applied);
  }

  lemma ResendSends(s: System, rules: W.Rules, keyOf: KeyOf)
    requires Inv(s, rules, keyOf) && W.Enabled(s.page, rules, W.Resend)
    ensures var s1 := Step(s, rules, keyOf, OnPage(W.Resend));
      && s1.page.pending == Some(s.page.sent[0]) && s1.rows == s.rows && s1.Episode() == s.Episode()
      && s1.late == s.late && |s1.page.sent| == |s.page.sent| + 1
  {
  }

  lemma ReadyToResend(s: System, rules: W.Rules, keyOf: KeyOf)
    requires Inv(s, rules, keyOf) && s.resolution.Running? && s.page.pending.None?
    ensures W.Enabled(s.page, rules, W.Resend)
  {
  }

  // An ambiguous answer to a stored booking leaves the page ready to resend it.
  lemma AmbiguousAnswer(s: System, rules: W.Rules, keyOf: KeyOf) returns (events: seq<Event>, s': System)
    requires Inv(s, rules, keyOf) && W.Enabled(s.page, rules, W.Submit)
    requires !Present(s.rows, keyOf(W.BodyOf(s.page, rules)))
    ensures Reaches(s, rules, keyOf, events, s') && Inv(s', rules, keyOf) && !s'.late
    ensures W.Enabled(s'.page, rules, W.Resend) && HasRow(s'.rows, s'.Episode())
  {
    var key := keyOf(W.BodyOf(s.page, rules));
    NewBookingIsAllowed(s.rows, key, s.Episode() + 1, s.zones);
    events, s' := SubmitExchange(s, rules, keyOf, key, OutcomeUnknown(NO_ACCOUNT), Some(NewBooking()));
    ReadyToResend(s', rules, keyOf);
  }

  // An hour and a half, some two thousand years into the calendar.
  function NewBooking(): BookingResult {
    AnswerOf(BookingOutcome.Booked, None).(startsAt := Moment(63000000000, 0), endsAt := Moment(63000005400, 0))
  }

  lemma NewBookingIsAllowed(rows: seq<Stored>, key: BookingKey, episode: nat, zones: Zones)
    requires !Present(rows, key)
    ensures Certifies(OutcomeUnknown(NO_ACCOUNT), Some(NewBooking()), zones.Keys) && Routine(rows, key, episode, NewBooking())
    ensures Ended(Respond(OutcomeUnknown(NO_ACCOUNT), zones)).Running?
    ensures HasRow(After(rows, key, episode, Some(NewBooking())), episode)
  {
    RowsGrow(rows, key, episode);
  }

  // Both unsettling codes are real: whenever a stored booking is resent, the answer may be an internal
  // error, or a refusal of the schedule, such as a lead time that has passed since. The page then drops
  // the recovery of a booking that exists.
  lemma RefusalHidesABooking(s: System, rules: W.Rules, keyOf: KeyOf, code: Code) returns (events: seq<Event>, s': System)
    requires Inv(s, rules, keyOf) && W.Enabled(s.page, rules, W.Resend) && HasRow(s.rows, s.Episode())
    requires code.InternalError? || code.ValidationFailed?
    ensures Reaches(s, rules, keyOf, events, s') && s'.late == s.late
    ensures s'.resolution == Refused(code) && !Settles(code, |s'.page.sent|)
    ensures !W.Locked(s'.page) && HasRow(s'.rows, s'.Episode())
  {
    if code.InternalError? {
      events, s' := HidingExchange(s, rules, keyOf, code, ContractBroken(false), None);
    } else {
      TooLateIsAllowed(s.rows, keyOf(s.page.sent[0]), s.Episode(), s.zones);
      events, s' := HidingExchange(s, rules, keyOf, code, BookingPublic.Answered(TooLate()), Some(TooLate()));
    }
  }

  function TooLate(): BookingResult { AnswerOf(InvalidRequest, Some("insufficient_same_day_lead")) }

  lemma TooLateIsAllowed(rows: seq<Stored>, key: BookingKey, episode: nat, zones: Zones)
    ensures Certifies(BookingPublic.Answered(TooLate()), Some(TooLate()), zones.Keys) && Routine(rows, key, episode, TooLate())
    ensures Ended(Respond(BookingPublic.Answered(TooLate()), zones)) == Refused(ValidationFailed)
  {
  }

  lemma HidingExchange(s: System, rules: W.Rules, keyOf: KeyOf, code: Code, outcome: BookingPublic, applied: Option<BookingResult>)
    returns (events: seq<Event>, s': System)
    requires Inv(s, rules, keyOf) && W.Enabled(s.page, rules, W.Resend) && HasRow(s.rows, s.Episode())
    requires ServiceCall(s, keyOf(s.page.sent[0]), outcome, applied)
    requires Ended(Respond(outcome, s.zones)) == Refused(code) && (code.InternalError? || code.ValidationFailed?)
    requires applied.Some? ==> !Stores(applied.value)
    ensures Reaches(s, rules, keyOf, events, s') && s'.late == s.late
    ensures s'.resolution == Refused(code) && !Settles(code, |s'.page.sent|)
    ensures !W.Locked(s'.page) && HasRow(s'.rows, s'.Episode())
  {
    ResendSends(s, rules, keyOf);
    events, s' := Exchange(s, rules, keyOf, W.Resend, s.page.sent[0], outcome, applied);
  }

  // A request served after its connection was lost can store a booking the user was refused.
  lemma LateRequestHidesABooking(s: System, rules: W.Rules, keyOf: KeyOf)
    requires Inv(s, rules, keyOf) && s.resolution.Refused? && !Present(s.rows, keyOf(s.page.sent[0]))
    ensures var late := ServeLate(OutcomeUnknown(NO_ACCOUNT), Some(NewBooking()));
      && Enabled(s, rules, keyOf, late)
      && var s' := Step(s, rules, keyOf, late);
      s'.resolution == s.resolution && s'.late && HasRow(s'.rows, s'.Episode())
  {
    NewBookingIsAllowed(s.rows, keyOf(s.page.sent[0]), s.Episode(), s.zones);
  }
}
