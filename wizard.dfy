/** The four-step intake wizard of app/estimate/page.tsx as values: its
    state, the transitions its handlers perform, the derived progress
    indicator, and which controls the page renders in each state. The class
    in module Estimate is proved against these functions. */
module Wizard {
  import opened PropertyDraft

  /** `totalSteps`: Location, Characteristics, Details, Confirmation. */
  const TOTAL_STEPS: int := 4

  datatype Option<T> = None | Some(value: T)

  /** What the geocoding service answers for the draft's address: a pair of
      coordinates, or a failure (a non-ok response or a thrown error). */
  datatype Geocode = Located(latitude: real, longitude: real) | Failed

  /** `currentStep`, `formData` and `isLoading`. */
  datatype State = State(step: int, draft: Draft, loading: bool)

  /** The state after a transition, and the record handed to the results
      page if the transition navigated there. */
  datatype Outcome = Outcome(state: State, handoff: Option<Draft>)

  function Initial(): (s: State)
    ensures s.step == 1 && !s.loading
    ensures s.draft == PropertyDraft.Initial()
  {
    State(1, PropertyDraft.Initial(), false)
  }

  // ---------------------------------------------------------------------------
  // Handlers

  /** `handleSubmit`: raise the loading flag, then either merge the geocoded
      coordinates and hand the merged record off, or drop the flag again and
      leave everything else as it was. */
  function Submit(s: State, g: Geocode): (r: Outcome)
    ensures r.state.step == s.step
    ensures g.Failed? ==> r.state == s.(loading := false) && r.handoff == None
    ensures g.Located? ==>
              r.state.loading &&
              r.state.draft == WithCoordinates(s.draft, g.latitude, g.longitude) &&
              r.handoff == Some(r.state.draft)
  {
    var pending := s.(loading := true);
    match g
    case Failed => Outcome(pending.(loading := false), None)
    case Located(lat, lon) =>
      var merged := WithCoordinates(pending.draft, lat, lon);
      Outcome(pending.(draft := merged), Some(merged))
  }

  /** `handleNext`: one step forward, or submission on the last step. */
  function Next(s: State, g: Geocode): (r: Outcome)
    ensures s.step < TOTAL_STEPS ==>
              r.state.step == s.step + 1 && r.state.draft == s.draft &&
              r.state.loading == s.loading && r.handoff == None
    ensures s.step >= TOTAL_STEPS ==> r == Submit(s, g)
    ensures 1 <= s.step <= TOTAL_STEPS ==> 1 <= r.state.step <= TOTAL_STEPS
  {
    if s.step < TOTAL_STEPS then Outcome(s.(step := s.step + 1), None)
    else Submit(s, g)
  }

  /** `handlePrevious`: one step back, or nothing on the first step. */
  function Previous(s: State): (r: State)
    ensures s.step > 1 ==> r.step == s.step - 1
    ensures s.step <= 1 ==> r == s
    ensures r.draft == s.draft && r.loading == s.loading
    ensures 1 <= s.step <= TOTAL_STEPS ==> 1 <= r.step <= TOTAL_STEPS
  {
    if s.step > 1 then s.(step := s.step - 1) else s
  }

  /** `updateFormData`: one field of the draft replaced, nothing validated. */
  function Update(s: State, field: string, value: Value): (r: State)
    ensures r.step == s.step && r.loading == s.loading
    ensures r.draft.Keys == s.draft.Keys + {field} && r.draft[field] == value
    ensures forall k :: k in s.draft && k != field ==> r.draft[k] == s.draft[k]
  {
    s.(draft := PropertyDraft.Set(s.draft, field, value))
  }

  /** Going back after going forward from any step but the last returns to
      where the user was. */
  lemma PreviousUndoesNext(s: State, g: Geocode)
    requires 1 <= s.step < TOTAL_STEPS
    ensures Previous(Next(s, g).state) == s
  {
  }

  /** Going forward after going back from any step but the first returns to
      where the user was, without submitting. */
  lemma NextUndoesPrevious(s: State, g: Geocode)
    requires 1 < s.step <= TOTAL_STEPS
    ensures Next(Previous(s), g) == Outcome(s, None)
  {
  }

  /** A failed geocoding leaves the wizard on the same step with the same
      draft, ready for another attempt. */
  lemma FailedSubmitRecovers(s: State)
    ensures !s.loading ==> Submit(s, Failed).state == s
  {
  }

  // ---------------------------------------------------------------------------
  // Progress indicator

  /** `progress = (currentStep / totalSteps) * 100`. For the integer steps the
      page uses every intermediate value is a dyadic fraction, so binary
      floating point computes it exactly and real arithmetic models it. */
  function Progress(step: int): (p: real)
    ensures p == (step * 25) as real
    ensures 1 <= step <= TOTAL_STEPS ==> 0.0 < p <= 100.0
    ensures p == 100.0 <==> step == TOTAL_STEPS
  {
    (step as real / TOTAL_STEPS as real) * 100.0
  }

  /** `Math.round`: the nearest integer, halves rounded up. */
  function Round(x: real): (n: int)
    ensures n as real <= x + 0.5 < n as real + 1.0
  {
    (x + 0.5).Floor
  }

  /** The percentage shown beside the bar, `Math.round(progress)`: exactly a
      quarter per step. */
  function DisplayedPercent(step: int): (n: int)
    ensures n == step * 25
  {
    Round(Progress(step))
  }

  /** The indicator grows strictly with the step. */
  lemma ProgressIncreases(a: int, b: int)
    requires a < b
    ensures Progress(a) < Progress(b)
    ensures DisplayedPercent(a) < DisplayedPercent(b)
  {
  }

  // ---------------------------------------------------------------------------
  // What the page lets the user do

  /** A user action, each bound to a rendered control: the forward button
      (whose submission, on the last step, resolves with the given geocoding
      answer), the back button, or a change in one field's input. */
  datatype Event = PressNext(geocode: Geocode) | PressPrevious | Edit(field: string, value: Value)

  /** The fields whose inputs are rendered on each step; the confirmation
      step renders none. */
  function StepFields(step: int): (f: set<string>)
    ensures f <= FIELD_NAMES
    ensures LATITUDE !in f && LONGITUDE !in f
    ensures step == 1 ==> f == {ADDRESS, PROPERTY_TYPE}
    ensures step == 2 ==> f == {SURFACE, ROOMS, BEDROOMS, BATHROOMS}
    ensures step == 3 ==> f == {YEAR, CONDITION, PARKING, GARDEN}
    ensures step < 1 || step > 3 ==> f == {}
  {
    if step == 1 then {ADDRESS, PROPERTY_TYPE}
    else if step == 2 then {SURFACE, ROOMS, BEDROOMS, BATHROOMS}
    else if step == 3 then {YEAR, CONDITION, PARKING, GARDEN}
    else {}
  }

  /** Every field some step renders an input for. */
  const EDITABLE: set<string> := StepFields(1) + StepFields(2) + StepFields(3)

  /** Whether the page offers the control behind an event: no wizard button
      or input is rendered while loading, the back button is disabled on the first step,
      and only the current step's inputs are on screen. */
  predicate Enabled(s: State, e: Event) {
    !s.loading &&
    match e
    case PressNext(_) => true
    case PressPrevious => s.step != 1
    case Edit(field, _) => field in StepFields(s.step)
  }

  /** The handler an event triggers. */
  function Fire(s: State, e: Event): (r: Outcome)
    ensures r.handoff.Some? ==> e.PressNext? && e.geocode.Located? && s.step >= TOTAL_STEPS
    ensures r.handoff.Some? ==> r.state.loading
  {
    match e
    case PressNext(g) => Next(s, g)
    case PressPrevious => Outcome(Previous(s), None)
    case Edit(field, value) => Outcome(Update(s, field, value), None)
  }

  /** While a submission is in flight or has navigated away, no wizard
      button or input is on screen. */
  lemma NothingFiresWhileLoading(s: State, e: Event)
    requires s.loading
    ensures !Enabled(s, e)
  {
  }

  /** Every event of `es` is offered by the page in the state it meets. */
  predicate Admissible(s: State, es: seq<Event>)
    decreases |es|
  {
    es == [] || (Enabled(s, es[0]) && Admissible(Fire(s, es[0]).state, es[1..]))
  }

  /** The state after the events of `es`, in order. */
  function Run(s: State, es: seq<Event>): State
    decreases |es|
  {
    if es == [] then s else Run(Fire(s, es[0]).state, es[1..])
  }

  /** How many of the events of `es` navigate to the results page. */
  function Handoffs(s: State, es: seq<Event>): nat
    decreases |es|
  {
    if es == [] then 0
    else (if Fire(s, es[0]).handoff.Some? then 1 else 0) + Handoffs(Fire(s, es[0]).state, es[1..])
  }

  /** The states the atomic model reaches: the step within bounds, every
      field of the draft present, loading only on the last step after the
      coordinates were merged, and no coordinates before that. The real
      page also waits, loading with null coordinates, while the geocoding
      request is in flight; submission is atomic here, so that state is not
      one of these. */
  predicate Consistent(s: State) {
    1 <= s.step <= TOTAL_STEPS && FIELD_NAMES <= s.draft.Keys &&
    (s.loading ==> s.step == TOTAL_STEPS && s.draft[LATITUDE].Number? && s.draft[LONGITUDE].Number?) &&
    (!s.loading ==> s.draft[LATITUDE] == Null && s.draft[LONGITUDE] == Null)
  }

  lemma InitialConsistent()
    ensures Consistent(Initial())
  {
  }

  /** One offered event keeps the page consistent. */
  lemma FirePreservesConsistent(s: State, e: Event)
    requires Consistent(s) && Enabled(s, e)
    ensures Consistent(Fire(s, e).state)
  {
  }

  /** Any sequence of offered events keeps the page consistent; in
      particular the step never leaves 1..4. */
  lemma {:induction false} RunPreservesConsistent(s: State, es: seq<Event>)
    requires Consistent(s) && Admissible(s, es)
    ensures Consistent(Run(s, es))
    decreases |es|
  {
    if es != [] {
      FirePreservesConsistent(s, es[0]);
      RunPreservesConsistent(Fire(s, es[0]).state, es[1..]);
    }
  }

  /** The page hands the draft off at most once: after the hand-off it shows
      only the loading screen, so no further event can occur. */
  lemma {:induction false} AtMostOneHandoff(s: State, es: seq<Event>)
    requires Admissible(s, es)
    ensures Handoffs(s, es) <= 1
    decreases |es|
  {
    if es != [] {
      var o := Fire(s, es[0]);
      if o.handoff.Some? {
        assert es[1..] == [];
      } else {
        AtMostOneHandoff(o.state, es[1..]);
      }
    }
  }

  /** A field without an input on any step keeps its value through every
      sequence of offered events. */
  lemma {:induction false} RunKeepsUneditableField(s: State, es: seq<Event>, k: string)
    requires Admissible(s, es)
    requires k in s.draft && k !in EDITABLE && k != LATITUDE && k != LONGITUDE
    ensures k in Run(s, es).draft && Run(s, es).draft[k] == s.draft[k]
    decreases |es|
  {
    if es != [] {
      var o := Fire(s, es[0]);
      assert k in o.state.draft && o.state.draft[k] == s.draft[k];
      RunKeepsUneditableField(o.state, es[1..], k);
    }
  }

  /** From the start of the wizard, whatever the user does: the step stays
      within 1..4, the coordinates stay null until geocoding succeeds, and
      `balcony`, `floor` and `elevator`, which no step renders an input for,
      are still empty text. */
  lemma Reachable(es: seq<Event>)
    requires Admissible(Initial(), es)
    ensures Consistent(Run(Initial(), es))
    ensures 1 <= Run(Initial(), es).step <= TOTAL_STEPS
    ensures !Run(Initial(), es).loading ==>
              Run(Initial(), es).draft[LATITUDE] == Null && Run(Initial(), es).draft[LONGITUDE] == Null
    ensures Run(Initial(), es).draft[BALCONY] == Text("")
    ensures Run(Initial(), es).draft[FLOOR] == Text("")
    ensures Run(Initial(), es).draft[ELEVATOR] == Text("")
  {
    RunPreservesConsistent(Initial(), es);
    RunKeepsUneditableField(Initial(), es, BALCONY);
    RunKeepsUneditableField(Initial(), es, FLOOR);
    RunKeepsUneditableField(Initial(), es, ELEVATOR);
  }
}
