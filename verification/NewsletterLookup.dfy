/**
 * The debounced newsletter lookup (forms/useNewsletterLookup.js) as a labelled transition system:
 * renders, effects, the timer, and responses in any order. `key` gives the normalised
 * identity that is sent, for fields that are eligible.
 */
module NewsletterLookup {
  import opened Basics
  import opened FormTypes

  datatype Status = Matched(subscribed: bool) | NotFound

  // A rejected query: no response at all, or a public error.
  datatype Cause = NoResponse | PublicError(code: string, retryable: bool)

  datatype Reply = Resolved(status: Status) | Rejected(cause: Cause)

  datatype Outcome =
    | Known(status: Status)
    | Conflict(code: string)
    | Indeterminate(code: string, retryable: bool)
    | ReadFailure(code: string)
    | Refused(code: string)

  datatype Request = Request(sequence: nat, snapshot: IdentityBody, startChoiceVersion: nat)

  // `source` remembers which request settled the lookup.
  datatype Lookup = NotChecked | Waiting | Checking | Settled(outcome: Outcome, source: Request)

  datatype Inputs = Inputs(values: IdentityFields, choiceVersion: nat, retryVersion: nat)

  datatype Hook = Hook(
    lookup: Lookup,
    sequence: nat,
    latest: Inputs,           // the last rendered inputs
    effect: Inputs,           // the inputs the last effect ran with
    effectDue: bool,             // a render changed the effect's dependencies
    timer: Option<Request>,   // armed and not yet fired
    inflight: set<Request>)

  function OutcomeOf(reply: Reply): Outcome {
    match reply
    case Resolved(status) => Known(status)
    case Rejected(NoResponse) => Indeterminate("transport_failure", true)
    case Rejected(PublicError(code, retryable)) =>
      if code == "customer_identity_conflict" || code == "middle_initial_conflict" then Conflict(code)
      else if code == "newsletter_status_indeterminate" then Indeterminate(code, retryable)
      else if retryable then ReadFailure(code)
      else Refused(code)
  }

  function Mounted(inputs: Inputs): Hook {
    Hook(NotChecked, 0, inputs, inputs, true, None, {})
  }

  function Rendered(h: Hook, inputs: Inputs): Hook {
    h.(latest := inputs,
       effectDue := h.effectDue || inputs.values != h.effect.values || inputs.retryVersion != h.effect.retryVersion)
  }

  // Cleanup of the previous effect, then the effect.
  function EffectRan(h: Hook, key: IdentityFields -> Option<IdentityBody>): Hook {
    var sequence := h.sequence + 1;
    var started := h.(sequence := sequence, effect := h.latest, effectDue := false);
    match key(h.latest.values)
    case None => started.(lookup := NotChecked, timer := None)
    case Some(snapshot) =>
      started.(lookup := Waiting, timer := Some(Request(sequence, snapshot, h.latest.choiceVersion)))
  }

  function TimerFired(h: Hook): Hook
    requires h.timer.Some?
  {
    h.(lookup := Checking, timer := None, inflight := h.inflight + {h.timer.value})
  }

  // The completion is that of the newest effect, and the rendered identity is still the one asked for.
  predicate Current(h: Hook, key: IdentityFields -> Option<IdentityBody>, r: Request) {
    r.sequence == h.sequence && key(h.latest.values) == Some(r.snapshot)
  }

  function Completed(h: Hook, key: IdentityFields -> Option<IdentityBody>, r: Request, reply: Reply): Hook {
    var rest := h.(inflight := h.inflight - {r});
    if Current(h, key, r) then rest.(lookup := Settled(OutcomeOf(reply), r)) else rest
  }

  // What a completion hands to `onUntouchedResult`.
  function Delivered(h: Hook, key: IdentityFields -> Option<IdentityBody>, r: Request, reply: Reply): Option<Status> {
    if Current(h, key, r) && reply.Resolved? && r.startChoiceVersion == 0 && h.latest.choiceVersion == r.startChoiceVersion
    then Some(reply.status) else None
  }

  datatype Event =
    | Render(inputs: Inputs)
    | Effect
    | Timer
    | Complete(request: Request, reply: Reply)

  predicate Enabled(h: Hook, e: Event) {
    match e
    case Render(_) => !h.effectDue   // pending effects are flushed before the next render
    case Effect => h.effectDue
    case Timer => h.timer.Some?
    case Complete(r, _) => r in h.inflight
  }

  function Step(h: Hook, key: IdentityFields -> Option<IdentityBody>, e: Event): Hook
    requires Enabled(h, e)
  {
    match e
    case Render(inputs) => Rendered(h, inputs)
    case Effect => EffectRan(h, key)
    case Timer => TimerFired(h)
    case Complete(r, reply) => Completed(h, key, r, reply)
  }

  // ----- what holds over every interleaving -----

  ghost predicate Inv(h: Hook, key: IdentityFields -> Option<IdentityBody>) {
    && (h.timer.Some? ==>
          && h.timer.value.sequence == h.sequence
          && key(h.effect.values) == Some(h.timer.value.snapshot)
          && h.timer.value.startChoiceVersion == h.effect.choiceVersion)
    && (forall r | r in h.inflight :: r.sequence <= h.sequence)
    && (forall r | r in h.inflight && r.sequence == h.sequence ::
          key(h.effect.values) == Some(r.snapshot) && r.startChoiceVersion == h.effect.choiceVersion
          && h.timer.None? && !h.lookup.Waiting? && !h.lookup.Settled?)
    && (!h.effectDue ==> h.latest.values == h.effect.values && h.latest.retryVersion == h.effect.retryVersion)
    && (h.lookup.Waiting? ==> h.timer.Some?)
    && (h.lookup.Checking? && !h.effectDue ==> exists r :: r in h.inflight && r.sequence == h.sequence)
    && (h.lookup.Settled? ==>
          h.lookup.source.sequence == h.sequence && key(h.effect.values) == Some(h.lookup.source.snapshot))
  }

  lemma MountedInv(inputs: Inputs, key: IdentityFields -> Option<IdentityBody>)
    ensures Inv(Mounted(inputs), key)
  {
  }

  lemma {:induction false} StepInv(h: Hook, key: IdentityFields -> Option<IdentityBody>, e: Event)
    requires Inv(h, key) && Enabled(h, e)
    ensures Inv(Step(h, key, e), key)
  {
    var h' := Step(h, key, e);
    if e.Timer? {
      assert h.timer.value in h'.inflight;
    }
  }

  ghost predicate Reaches(h: Hook, key: IdentityFields -> Option<IdentityBody>, events: seq<Event>, h': Hook)
    decreases |events|
  {
    if events == [] then h' == h
    else
      Enabled(h, events[0]) && Reaches(Step(h, key, events[0]), key, events[1..], h')
  }

  lemma {:induction false} ReachesInv(h: Hook, key: IdentityFields -> Option<IdentityBody>, events: seq<Event>, h': Hook)
    requires Inv(h, key) && Reaches(h, key, events, h')
    ensures Inv(h', key)
    decreases |events|
  {
    if events != [] {
      StepInv(h, key, events[0]);
      ReachesInv(Step(h, key, events[0]), key, events[1..], h');
    }
  }

  // Once effects have run, every settled lookup answers a query of the newest effect for the
  // normalised identity now on the screen; a waiting lookup has an armed timer and a checking one
  // an outstanding query, so neither can hang.
  lemma SettledIsCurrent(inputs: Inputs, key: IdentityFields -> Option<IdentityBody>, events: seq<Event>, h: Hook)
    requires Reaches(Mounted(inputs), key, events, h) && !h.effectDue
    ensures h.lookup.Settled? ==>
      h.lookup.source.sequence == h.sequence && key(h.latest.values) == Some(h.lookup.source.snapshot)
    ensures h.lookup.Waiting? ==> h.timer.Some? && key(h.latest.values) == Some(h.timer.value.snapshot)
    ensures h.lookup.Checking? ==> exists r :: r in h.inflight && Current(h, key, r)
    ensures key(h.latest.values) == None <==> h.lookup.NotChecked?
  {
    MountedInv(inputs, key);
    ReachesInv(Mounted(inputs), key, events, h);
    EligibilityShown(inputs, key, events, Mounted(inputs), h);
    if h.lookup.Checking? {
      var r :| r in h.inflight && r.sequence == h.sequence;
      assert Current(h, key, r);
    }
  }

  // Along a run, nothing is checked exactly when the identity of the newest effect is not eligible.
  lemma {:induction false} EligibilityShown(
    inputs: Inputs, key: IdentityFields -> Option<IdentityBody>, events: seq<Event>, h: Hook, h': Hook)
    requires Reaches(h, key, events, h') && Inv(h, key)
    requires h.sequence == 0 || (h.lookup.NotChecked? <==> key(h.effect.values) == None)
    requires h.sequence == 0 ==> h.effectDue && h.timer.None? && h.inflight == {}
    ensures h'.sequence == 0 || (h'.lookup.NotChecked? <==> key(h'.effect.values) == None)
    ensures h'.sequence == 0 ==> h'.effectDue
    decreases |events|
  {
    if events != [] {
      StepInv(h, key, events[0]);
      EligibilityShown(inputs, key, events[1..], Step(h, key, events[0]), h');
    }
  }

  // A completion changes the lookup if and only if it belongs to the newest effect and the identity
  // on the screen is still the one it asked for; otherwise it only leaves the set of open queries.
  lemma SupersededChangesNothing(h: Hook, key: IdentityFields -> Option<IdentityBody>, r: Request, reply: Reply)
    requires Inv(h, key) && r in h.inflight
    ensures var h' := Completed(h, key, r, reply);
      && h' == h.(lookup := h'.lookup, inflight := h.inflight - {r})
      && (h'.lookup != h.lookup <==> r.sequence == h.sequence && key(h.latest.values) == Some(r.snapshot))
      && (!Current(h, key, r) ==> Delivered(h, key, r, reply) == None)
  {
  }

  // ----- the hook itself -----

  class LookupHook {
    const key: IdentityFields -> Option<IdentityBody>
    var lookup: Lookup
    var sequence: nat
    var latest: Inputs
    var effect: Inputs
    var effectDue: bool
    var timer: Option<Request>
    var inflight: set<Request>

    ghost function State(): Hook
      reads this
    {
      Hook(lookup, sequence, latest, effect, effectDue, timer, inflight)
    }

    constructor (key: IdentityFields -> Option<IdentityBody>, inputs: Inputs)
      ensures this.key == key && State() == Mounted(inputs) && Inv(State(), key)
    {
      this.key := key;
      lookup, sequence, latest, effect := NotChecked, 0, inputs, inputs;
      effectDue, timer, inflight := true, None, {};
    }

    method Render(inputs: Inputs)
      requires Inv(State(), key) && !effectDue
      modifies this
      ensures State() == Rendered(old(State()), inputs) && Inv(State(), key)
    {
      latest := inputs;
      effectDue := inputs.values != effect.values || inputs.retryVersion != effect.retryVersion;
    }

    method RunEffect()
      requires Inv(State(), key) && effectDue
      modifies this
      ensures State() == EffectRan(old(State()), key) && Inv(State(), key)
    {
      timer := None;
      effect, effectDue := latest, false;
      sequence := sequence + 1;
      var snapshot := key(latest.values);
      if snapshot == None {
        lookup := NotChecked;
        return;
      }
      lookup := Waiting;
      timer := Some(Request(sequence, snapshot.value, latest.choiceVersion));
    }

    method FireTimer()
      requires Inv(State(), key) && timer.Some?
      modifies this
      ensures State() == TimerFired(old(State())) && Inv(State(), key)
    {
      StepInv(State(), key, Timer);
      lookup := Checking;
      inflight := inflight + {timer.value};
      timer := None;
    }

    // The continuation of the query; returns what is passed to `onUntouchedResult`.
    method Complete(r: Request, reply: Reply) returns (delivered: Option<Status>)
      requires Inv(State(), key) && r in inflight
      modifies this
      ensures State() == Completed(old(State()), key, r, reply) && Inv(State(), key)
      ensures delivered == Delivered(old(State()), key, r, reply)
    {
      delivered := None;
      inflight := inflight - {r};
      if r.sequence != sequence || key(latest.values) != Some(r.snapshot) {
        return;
      }
      lookup := Settled(OutcomeOf(reply), r);
      if reply.Resolved? && r.startChoiceVersion == 0 && latest.choiceVersion == r.startChoiceVersion {
        delivered := Some(reply.status);
      }
    }

    // Driven through any run of the transition system, the hook goes through that very run.
    method Run(events: seq<Event>)
      requires Inv(State(), key) && exists h' :: Reaches(State(), key, events, h')
      modifies this
      ensures Reaches(old(State()), key, events, State()) && Inv(State(), key)
      decreases |events|
    {
      if events != [] {
        Handle(events[0]);
        Run(events[1..]);
      }
    }

    method Handle(e: Event)
      requires Inv(State(), key) && Enabled(State(), e)
      modifies this
      ensures State() == Step(old(State()), key, e) && Inv(State(), key)
    {
      if e.Render? {
        Render(e.inputs);
      } else if e.Effect? {
        RunEffect();
      } else if e.Timer? {
        FireTimer();
      } else {
        var _ := Complete(e.request, e.reply);
      }
    }
  }
}
