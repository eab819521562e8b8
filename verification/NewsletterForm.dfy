/**
 * The newsletter form (features/newsletter/NewsletterPreferences.jsx): edits, the checkbox, saving,
 * resending and abandoning, interleaved with the lookup in every order. Each handler's updates are
 * rendered before the next event; effects, timers and responses come at any time.
 */
module NewsletterForm {
  import opened Basics
  import opened FormTypes
  import L = NewsletterLookup

  datatype Body = Body(identity: IdentityBody, subscribed: bool)

  datatype SaveCause = NoResponse | PublicError(code: string, retryable: bool, outcomeUnknown: bool)

  datatype Result = NoResult | Saved(subscribed: bool) | NotSaved(unknown: bool)

  datatype Recovery = Recovery(body: Body, unknown: bool)

  // `userChoice` is the last deliberate choice since the choice version was reset, and `sent` are
  // the bodies sent since the last fresh submission; both only observe.
  datatype Form = Form(
    values: IdentityFields, subscribed: bool, choiceVersion: nat, retryVersion: nat,
    pending: Option<Body>, result: Result, recovery: Option<Recovery>, hook: L.Hook,
    userChoice: Option<bool>, sent: seq<Body>)

  type Key = IdentityFields -> Option<IdentityBody>

  predicate Locked(s: Form) { s.pending.Some? || s.recovery.Some? }

  function FormInputs(s: Form): L.Inputs { L.Inputs(s.values, s.choiceVersion, s.retryVersion) }

  function Commit(s: Form, key: Key): Form {
    var flushed := if s.hook.effectDue then L.EffectRan(s.hook, key) else s.hook;
    s.(hook := L.Rendered(flushed, FormInputs(s)))
  }

  const EMPTY := IdentityFields("", "", "", "", "")

  function Mounted(): Form {
    Form(EMPTY, false, 0, 0, None, NoResult, None, L.Mounted(L.Inputs(EMPTY, 0, 0)), None, [])
  }

  function Send(s: Form, body: Body): Form {
    s.(pending := Some(body), result := NoResult, sent := s.sent + [body])
  }

  // Whether a failed save may be resent unchanged, and whether its outcome is unknown.
  function Unknown(cause: SaveCause): bool { cause.NoResponse? || cause.outcomeUnknown }

  function Correctable(cause: SaveCause): bool {
    cause.PublicError? && cause.code in {"validation_failed", "customer_identity_conflict", "middle_initial_conflict"}
  }

  function SaveFailed(s: Form, body: Body, cause: SaveCause): Form {
    var settled := s.(pending := None, recovery := None);
    if Correctable(cause) then settled
    else
      var retryable := Unknown(cause) || cause.retryable;
      settled.(recovery := if retryable then Some(Recovery(body, Unknown(cause))) else None, result := NotSaved(Unknown(cause)))
  }

  function Noticed(s: Form, delivered: Option<L.Status>): Form {
    match delivered
    case None => s
    case Some(Matched(subscribed)) => s.(subscribed := subscribed)
    case Some(NotFound) => s.(subscribed := false)
  }

  datatype Event =
    | Edit(values: IdentityFields)
    | Toggle(checked: bool)
    | RetryLookup
    | Submit
    | Resend
    | Abandon
    | SaveResolved(subscribed: bool)
    | SaveRejected(cause: SaveCause)
    | Effect
    | Timer
    | Complete(request: L.Request, reply: L.Reply)

  predicate RetryOffered(lookup: L.Lookup) {
    lookup.Settled? && match lookup.outcome
                       case Indeterminate(_, retryable) => retryable
                       case ReadFailure(_) => true
                       case _ => false
  }

  predicate Enabled(s: Form, key: Key, e: Event) {
    match e
    case Edit(_) => !Locked(s)
    case Toggle(_) => !Locked(s)
    case RetryLookup => !Locked(s) && RetryOffered(s.hook.lookup)
    case Submit => !Locked(s) && key(s.values).Some?
    case Resend => s.recovery.Some? && s.pending.None?
    case Abandon => s.recovery.Some?   // also while a resend is pending
    case SaveResolved(_) => s.pending.Some?
    case SaveRejected(_) => s.pending.Some?
    case Effect => s.hook.effectDue
    case Timer => s.hook.timer.Some?
    case Complete(r, _) => r in s.hook.inflight
  }

  predicate OfHook(e: Event) { e.Effect? || e.Timer? || e.Complete? }

  // What a handler or a continuation sets, before it is rendered.
  function Handled(s: Form, key: Key, e: Event): Form
    requires Enabled(s, key, e) && !OfHook(e)
  {
    match e
    case Edit(values) => s.(values := values, result := NoResult)
    case Toggle(checked) =>
      s.(subscribed := checked, choiceVersion := s.choiceVersion + 1, result := NoResult, userChoice := Some(checked))
    case RetryLookup => s.(retryVersion := s.retryVersion + 1)
    case Submit => Send(s.(sent := []), Body(key(s.values).value, s.subscribed))
    case Resend => Send(s, s.recovery.value.body)
    case Abandon => s.(recovery := None, result := NoResult)
    case SaveResolved(subscribed) =>
      s.(subscribed := subscribed, choiceVersion := 0, recovery := None, result := Saved(subscribed),
         pending := None, userChoice := None)
    case SaveRejected(cause) => SaveFailed(s, s.pending.value, cause)
  }

  function Step(s: Form, key: Key, e: Event): Form
    requires Enabled(s, key, e)
  {
    match e
    case Effect => s.(hook := L.EffectRan(s.hook, key))
    case Timer => s.(hook := L.TimerFired(s.hook))
    case Complete(r, reply) =>
      Noticed(s, L.Delivered(s.hook, key, r, reply)).(hook := L.Completed(s.hook, key, r, reply))
    case _ => Commit(Handled(s, key, e), key)
  }

  // ----- what holds over every interleaving -----

  // The checkbox is the user's last choice, and only one body is ever sent per submission.
  ghost predicate Kept(s: Form) {
    && (s.choiceVersion > 0 <==> s.userChoice.Some?)
    && (s.userChoice.Some? ==> s.subscribed == s.userChoice.value)
    && (forall i | 0 <= i < |s.sent| :: s.sent[i] == s.sent[0])
    && (s.pending.Some? ==> s.sent != [] && s.pending.value == s.sent[0])
    && (s.recovery.Some? ==> s.sent != [] && s.recovery.value.body == s.sent[0])
  }

  ghost predicate Inv(s: Form, key: Key) {
    L.Inv(s.hook, key) && s.hook.latest == FormInputs(s) && Kept(s)
  }

  lemma CommitKeepsHook(s: Form, key: Key)
    requires L.Inv(s.hook, key)
    ensures L.Inv(Commit(s, key).hook, key) && Commit(s, key).hook.latest == FormInputs(s)
  {
    if s.hook.effectDue {
      L.StepInv(s.hook, key, L.Effect);
    }
    var flushed := if s.hook.effectDue then L.EffectRan(s.hook, key) else s.hook;
    L.StepInv(flushed, key, L.Render(FormInputs(s)));
  }

  lemma HandledKept(s: Form, key: Key, e: Event)
    requires Kept(s) && Enabled(s, key, e) && !OfHook(e)
    ensures Kept(Handled(s, key, e)) && Handled(s, key, e).hook == s.hook
  {
  }

  lemma HookOnly(s: Form, key: Key, hook: L.Hook, subscribed: bool)
    requires Inv(s, key) && L.Inv(hook, key) && hook.latest == s.hook.latest
    requires s.choiceVersion > 0 ==> subscribed == s.subscribed
    ensures Inv(s.(hook := hook, subscribed := subscribed), key)
  {
  }

  lemma HookStepInv(s: Form, key: Key, e: Event)
    requires Inv(s, key) && Enabled(s, key, e) && OfHook(e)
    ensures Inv(Step(s, key, e), key)
  {
    var s' := Step(s, key, e);
    match e
    case Effect => L.StepInv(s.hook, key, L.Effect);
    case Timer => L.StepInv(s.hook, key, L.Timer);
    case Complete(r, reply) => L.StepInv(s.hook, key, L.Complete(r, reply));
    HookOnly(s, key, s'.hook, s'.subscribed);
    assert s' == s.(hook := s'.hook, subscribed := s'.subscribed);
  }

  lemma StepInv(s: Form, key: Key, e: Event)
    requires Inv(s, key) && Enabled(s, key, e)
    ensures Inv(Step(s, key, e), key)
  {
    if OfHook(e) {
      HookStepInv(s, key, e);
    } else {
      HandledKept(s, key, e);
      CommitKeepsHook(Handled(s, key, e), key);
    }
  }

  ghost predicate Reaches(s: Form, key: Key, events: seq<Event>, s': Form)
    decreases |events|
  {
    if events == [] then s' == s
    else Enabled(s, key, events[0]) && Reaches(Step(s, key, events[0]), key, events[1..], s')
  }

  lemma {:induction false} ReachesInv(s: Form, key: Key, events: seq<Event>, s': Form)
    requires Inv(s, key) && Reaches(s, key, events, s')
    ensures Inv(s', key)
    decreases |events|
  {
    if events != [] {
      StepInv(s, key, events[0]);
      ReachesInv(Step(s, key, events[0]), key, events[1..], s');
    }
  }

  // In every reachable state the checkbox shows the user's last deliberate choice if there is one,
  // and everything sent since the last fresh submission is one and the same body, pending and
  // recoverable bodies included.
  lemma ChoiceAndBodyAreKept(key: Key, events: seq<Event>, s: Form)
    requires Reaches(Mounted(), key, events, s)
    ensures s.choiceVersion > 0 <==> s.userChoice.Some?
    ensures s.userChoice.Some? ==> s.subscribed == s.userChoice.value
    ensures forall i, j | 0 <= i < |s.sent| && 0 <= j < |s.sent| :: s.sent[i] == s.sent[j]
    ensures s.pending.Some? ==> s.pending.value in s.sent
    ensures s.recovery.Some? ==> s.recovery.value.body in s.sent
  {
    L.MountedInv(L.Inputs(EMPTY, 0, 0), key);
    ReachesInv(Mounted(), key, events, s);
  }

  function Shown(status: L.Status): bool {
    match status case Matched(subscribed) => subscribed case NotFound => false
  }

  // A completion changes the checkbox exactly when it is current, was begun with an untouched
  // checkbox, finds it untouched now, and disagrees with it.
  lemma CompletionAndCheckbox(s: Form, key: Key, r: L.Request, reply: L.Reply)
    requires Inv(s, key) && r in s.hook.inflight
    ensures var s' := Step(s, key, Complete(r, reply));
      && s' == s.(subscribed := s'.subscribed, hook := s'.hook)
      && (s'.subscribed != s.subscribed <==>
            && r.sequence == s.hook.sequence && key(s.values) == Some(r.snapshot)
            && r.startChoiceVersion == 0 && s.choiceVersion == 0
            && reply.Resolved? && Shown(reply.status) != s.subscribed)
  {
  }

  // No save completes along the run.
  predicate NoSave(events: seq<Event>) { forall i | 0 <= i < |events| :: !events[i].SaveResolved? }

  predicate Touches(events: seq<Event>) { exists i | 0 <= i < |events| :: events[i].Toggle? }

  // Only a save resets the choice version.
  lemma ChoiceVersionGrows(s: Form, key: Key, e: Event)
    requires Enabled(s, key, e) && !e.SaveResolved?
    ensures Step(s, key, e).choiceVersion == s.choiceVersion + (if e.Toggle? then 1 else 0)
  {
  }

  lemma {:induction false} TouchedStaysTouched(s: Form, key: Key, events: seq<Event>, s': Form)
    requires Reaches(s, key, events, s') && NoSave(events)
    ensures s'.choiceVersion >= s.choiceVersion && (Touches(events) ==> s'.choiceVersion > 0)
    decreases |events|
  {
    if events != [] {
      assert forall i | 0 <= i < |events| - 1 :: events[1..][i] == events[i + 1];
      ChoiceVersionGrows(s, key, events[0]);
      TouchedStaysTouched(Step(s, key, events[0]), key, events[1..], s');
    }
  }

  // From the start of a lookup to its completion, with anything but a completed save in between: the
  // completion leaves a checkbox alone that the user had touched before or touched since.
  lemma CompletionKeepsTouchedChoice(key: Key, before: seq<Event>, s: Form, events: seq<Event>, s': Form, r: L.Request, reply: L.Reply)
    requires Reaches(Mounted(), key, before, s) && Reaches(s, key, events, s') && NoSave(events)
    requires s.choiceVersion > 0 || Touches(events)
    requires r in s'.hook.inflight
    ensures Step(s', key, Complete(r, reply)).subscribed == s'.subscribed
    ensures s'.userChoice == Some(s'.subscribed)
  {
    L.MountedInv(L.Inputs(EMPTY, 0, 0), key);
    ReachesInv(Mounted(), key, before, s);
    ReachesInv(s, key, events, s');
    TouchedStaysTouched(s, key, events, s');
    CompletionAndCheckbox(s', key, r, reply);
  }

  lemma Prepend(s: Form, key: Key, e: Event, events: seq<Event>, s': Form)
    requires Enabled(s, key, e) && Reaches(Step(s, key, e), key, events, s')
    ensures Reaches(s, key, [e] + events, s')
  {
    assert ([e] + events)[1..] == events;
  }

  // Saving resets the choice version, so it re-opens the door for a lookup that began before it:
  // the checkbox can then contradict the saved result it is shown next to.
  lemma OlderLookupOverwritesSave(s: Form, key: Key, r: L.Request)
    requires !Locked(s) && !s.hook.effectDue && s.hook.latest == FormInputs(s) && s.hook.effect == s.hook.latest
    requires r in s.hook.inflight && L.Current(s.hook, key, r) && r.startChoiceVersion == 0
    ensures var older := Complete(r, L.Resolved(L.Matched(false)));
      exists s' :: (Reaches(s, key, [Toggle(true), Submit, SaveResolved(true), older], s')
                    && s'.result == Saved(true) && !s'.subscribed)
  {
    var older := Complete(r, L.Resolved(L.Matched(false)));
    var s1 := Step(s, key, Toggle(true));
    var s2 := Step(s1, key, Submit);
    var s3 := Step(s2, key, SaveResolved(true));
    var s4 := Step(s3, key, older);
    assert Reaches(s4, key, [], s4);
    Prepend(s3, key, older, [], s4);
    Prepend(s2, key, SaveResolved(true), [older], s4);
    Prepend(s1, key, Submit, [SaveResolved(true), older], s4);
    Prepend(s, key, Toggle(true), [Submit, SaveResolved(true), older], s4);
    assert [older] + [] == [older];
    assert [SaveResolved(true)] + [older] == [SaveResolved(true), older];
    assert [Submit] + [SaveResolved(true), older] == [Submit, SaveResolved(true), older];
    assert [Toggle(true)] + [Submit, SaveResolved(true), older] == [Toggle(true), Submit, SaveResolved(true), older];
  }

  // Such a state is reached by typing an eligible identity and letting the timer run out.
  lemma LookupUnderWay(key: Key, values: IdentityFields)
    requires key(values).Some? && values != EMPTY
    ensures exists s, r :: (
      Reaches(Mounted(), key, [Edit(values), Effect, Timer], s)
      && !Locked(s) && !s.hook.effectDue && s.hook.latest == FormInputs(s) && s.hook.effect == s.hook.latest
      && r in s.hook.inflight && L.Current(s.hook, key, r) && r.startChoiceVersion == 0)
  {
    var s1 := Step(Mounted(), key, Edit(values));
    var s2 := Step(s1, key, Effect);
    var s3 := Step(s2, key, Timer);
    var r := s2.hook.timer.value;
    assert Reaches(s3, key, [], s3);
    Prepend(s2, key, Timer, [], s3);
    Prepend(s1, key, Effect, [Timer], s3);
    Prepend(Mounted(), key, Edit(values), [Effect, Timer], s3);
    assert [Timer] + [] == [Timer];
    assert [Effect] + [Timer] == [Effect, Timer];
    assert [Edit(values)] + [Effect, Timer] == [Edit(values), Effect, Timer];
    assert r in s3.hook.inflight;
  }

  // ----- the component itself -----

  class NewsletterPreferences {
    const key: Key
    const lookup: L.LookupHook
    var values: IdentityFields
    var subscribed: bool
    var choiceVersion: nat
    var lookupRetryVersion: nat
    var pending: Option<Body>
    var result: Result
    var recovery: Option<Recovery>
    ghost var userChoice: Option<bool>
    ghost var sent: seq<Body>

    ghost function State(): Form
      reads this, lookup
    {
      Form(values, subscribed, choiceVersion, lookupRetryVersion, pending, result, recovery, lookup.State(), userChoice, sent)
    }

    ghost predicate Valid()
      reads this, lookup
    {
      lookup.key == key && Inv(State(), key)
    }

    constructor (key: Key)
      ensures this.key == key && fresh(lookup) && State() == Mounted() && Valid()
    {
      this.key := key;
      lookup := new L.LookupHook(key, L.Inputs(EMPTY, 0, 0));
      values, subscribed, choiceVersion, lookupRetryVersion := EMPTY, false, 0, 0;
      pending, result, recovery, userChoice, sent := None, NoResult, None, None, [];
    }

    method Render()
      requires lookup.key == key && L.Inv(lookup.State(), key)
      modifies lookup
      ensures State() == Commit(old(State()), key)
    {
      if lookup.effectDue {
        lookup.RunEffect();
      }
      lookup.Render(L.Inputs(values, choiceVersion, lookupRetryVersion));
    }

    method Update(next: IdentityFields)
      requires Valid() && Enabled(State(), key, Edit(next))
      modifies this, lookup
      ensures State() == Step(old(State()), key, Edit(next)) && Valid()
    {
      StepInv(State(), key, Edit(next));
      values, result := next, NoResult;
      Render();
    }

    method Choose(checked: bool)
      requires Valid() && Enabled(State(), key, Toggle(checked))
      modifies this, lookup
      ensures State() == Step(old(State()), key, Toggle(checked)) && Valid()
    {
      StepInv(State(), key, Toggle(checked));
      subscribed, choiceVersion, result := checked, choiceVersion + 1, NoResult;
      userChoice := Some(checked);
      Render();
    }

    method RetryStatus()
      requires Valid() && Enabled(State(), key, RetryLookup)
      modifies this, lookup
      ensures State() == Step(old(State()), key, RetryLookup) && Valid()
    {
      StepInv(State(), key, RetryLookup);
      lookupRetryVersion := lookupRetryVersion + 1;
      Render();
    }

    // The synchronous part of `sendPreference`; its continuations are the two methods after it.
    method SendPreference(body: Body)
      requires lookup.key == key && L.Inv(lookup.State(), key)
      modifies this, lookup
      ensures pending.Some? && State() == if old(pending).Some? then old(State()) else Commit(Send(old(State()), body), key)
    {
      if pending.Some? {
        return;
      }
      pending, result := Some(body), NoResult;
      sent := sent + [body];
      Render();
    }

    method PreferenceResolved(saved: bool)
      requires Valid() && Enabled(State(), key, SaveResolved(saved))
      modifies this, lookup
      ensures State() == Step(old(State()), key, SaveResolved(saved)) && Valid()
    {
      StepInv(State(), key, SaveResolved(saved));
      subscribed, choiceVersion, recovery, result := saved, 0, None, Saved(saved);
      userChoice := None;
      pending := None;
      Render();
    }

    method PreferenceRejected(cause: SaveCause)
      requires Valid() && Enabled(State(), key, SaveRejected(cause))
      modifies this, lookup
      ensures State() == Step(old(State()), key, SaveRejected(cause)) && Valid()
      ensures pending.None? && (recovery.Some? ==> recovery.value.body == old(pending).value)
    {
      StepInv(State(), key, SaveRejected(cause));
      Classify(pending.value, cause);
      Render();
    }

    // The `catch` clause of `sendPreference` and its `finally`.
    method Classify(body: Body, cause: SaveCause)
      modifies this
      ensures State() == SaveFailed(old(State()), body, cause)
    {
      recovery := None;
      if !Correctable(cause) {
        var unknown := cause.NoResponse? || cause.outcomeUnknown;
        if unknown || cause.retryable {
          recovery := Some(Recovery(body, unknown));
        }
        result := NotSaved(unknown);
      }
      pending := None;
    }

    method SubmitForm()
      requires Valid() && !Locked(State())
      modifies this, lookup
      ensures State() == (if Enabled(old(State()), key, Submit) then Step(old(State()), key, Submit) else old(State())) && Valid()
    {
      var identity := key(values);
      if identity == None {
        return;
      }
      StepInv(State(), key, Submit);
      sent := [];
      SendPreference(Body(identity.value, subscribed));
    }

    method ResendSame()
      requires Valid() && Enabled(State(), key, Resend)
      modifies this, lookup
      ensures State() == Step(old(State()), key, Resend) && Valid()
      ensures pending == Some(old(recovery).value.body) && recovery == old(recovery) && sent == old(sent) + [old(sent)[0]]
    {
      StepInv(State(), key, Resend);
      SendPreference(recovery.value.body);
    }

    method LeaveUnresolved()
      requires Valid() && Enabled(State(), key, Abandon)
      modifies this, lookup
      ensures State() == Step(old(State()), key, Abandon) && Valid()
    {
      StepInv(State(), key, Abandon);
      recovery, result := None, NoResult;
      Render();
    }

    // The lookup's continuation, with `onUntouchedResult`.
    method LookupCompleted(r: L.Request, reply: L.Reply)
      requires Valid() && Enabled(State(), key, Complete(r, reply))
      modifies this, lookup
      ensures State() == Step(old(State()), key, Complete(r, reply)) && Valid()
      ensures choiceVersion > 0 ==> subscribed == old(subscribed)
    {
      StepInv(State(), key, Complete(r, reply));
      var delivered := lookup.Complete(r, reply);
      if delivered.Some? {
        if delivered.value.Matched? {
          subscribed := delivered.value.subscribed;
        } else {
          subscribed := false;
        }
      }
    }

    method RunEffect()
      requires Valid() && Enabled(State(), key, Effect)
      modifies lookup
      ensures State() == Step(old(State()), key, Effect) && Valid()
    {
      lookup.RunEffect();
    }

    method FireTimer()
      requires Valid() && Enabled(State(), key, Timer)
      modifies lookup
      ensures State() == Step(old(State()), key, Timer) && Valid()
    {
      lookup.FireTimer();
    }

    // Every event has its handler.
    method Handle(e: Event)
      requires Valid() && Enabled(State(), key, e)
      modifies this, lookup
      ensures State() == Step(old(State()), key, e) && Valid()
    {
      if OfHook(e) {
        if e.Effect? { RunEffect(); } else if e.Timer? { FireTimer(); } else { LookupCompleted(e.request, e.reply); }
      } else if e.Edit? { Update(e.values);
      } else if e.Toggle? { Choose(e.checked);
      } else if e.RetryLookup? { RetryStatus();
      } else if e.Submit? { SubmitForm();
      } else if e.Resend? { ResendSame();
      } else if e.Abandon? { LeaveUnresolved();
      } else if e.SaveResolved? { PreferenceResolved(e.subscribed);
      } else { PreferenceRejected(e.cause); }
    }

    // Driven through any run of the transition system, the component goes through that very run.
    method Run(events: seq<Event>)
      requires Valid() && exists s' :: Reaches(State(), key, events, s')
      modifies this, lookup
      ensures Reaches(old(State()), key, events, State()) && Valid()
      decreases |events|
    {
      if events != [] {
        Handle(events[0]);
        Run(events[1..]);
      }
    }
  }
}
