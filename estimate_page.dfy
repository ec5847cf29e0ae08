/** The `EstimatePage` component of app/estimate/page.tsx as an object whose
    fields are its three pieces of React state. Each handler updates the
    fields in place, and its contract ties the new state to the matching
    function of module Wizard. */
module Estimate {
  import opened PropertyDraft
  import Wizard

  class EstimatePage {
    var step: int
    var draft: Draft
    var loading: bool

    /** The component's state as a value. */
    ghost function State(): Wizard.State
      reads this
    {
      Wizard.State(step, draft, loading)
    }

    ghost predicate Valid()
      reads this
    {
      1 <= step <= Wizard.TOTAL_STEPS && FIELD_NAMES <= draft.Keys
    }

    /** The component's first render. */
    constructor ()
      ensures Valid() && State() == Wizard.Initial()
      ensures step == 1 && !loading
      ensures draft[SURFACE] == Numbers([100]) && draft[YEAR] == Numbers([2000])
      ensures draft[LATITUDE] == Null && draft[LONGITUDE] == Null
    {
      step := 1;
      draft := PropertyDraft.Initial();
      loading := false;
    }

    /** The integer percentage shown beside the progress bar. */
    method ShownProgress() returns (percent: int)
      requires Valid()
      ensures 25 <= percent <= 100
      ensures percent == Wizard.DisplayedPercent(step)
      ensures percent == 100 <==> step == Wizard.TOTAL_STEPS
    {
      percent := Wizard.Round(Wizard.Progress(step));
    }

    /** `handleSubmit`, with the geocoder's answer as a parameter. */
    method Submit(geocode: Wizard.Geocode) returns (handoff: Wizard.Option<Draft>)
      requires Valid()
      modifies this
      ensures Valid()
      ensures Wizard.Outcome(State(), handoff) == Wizard.Submit(old(State()), geocode)
      ensures step == old(step)
      ensures geocode.Failed? ==> !loading && draft == old(draft) && handoff == Wizard.None
      ensures geocode.Located? ==>
                loading && handoff == Wizard.Some(draft) &&
                draft == WithCoordinates(old(draft), geocode.latitude, geocode.longitude)
    {
      loading := true;
      match geocode
      case Failed =>
        loading := false;
        handoff := Wizard.None;
      case Located(latitude, longitude) =>
        draft := WithCoordinates(draft, latitude, longitude);
        handoff := Wizard.Some(draft);
    }

    /** `handleNext`. */
    method Next(geocode: Wizard.Geocode) returns (handoff: Wizard.Option<Draft>)
      requires Valid()
      modifies this
      ensures Valid()
      ensures Wizard.Outcome(State(), handoff) == Wizard.Next(old(State()), geocode)
      ensures old(step) < Wizard.TOTAL_STEPS ==>
                step == old(step) + 1 && draft == old(draft) && loading == old(loading) &&
                handoff == Wizard.None
      ensures old(step) == Wizard.TOTAL_STEPS ==> step == old(step)
    {
      if step < Wizard.TOTAL_STEPS {
        step := step + 1;
        handoff := Wizard.None;
      } else {
        handoff := Submit(geocode);
      }
    }

    /** `handlePrevious`. */
    method Previous()
      requires Valid()
      modifies this
      ensures Valid()
      ensures State() == Wizard.Previous(old(State()))
      ensures step == if old(step) > 1 then old(step) - 1 else old(step)
      ensures draft == old(draft) && loading == old(loading)
    {
      if step > 1 {
        step := step - 1;
      }
    }

    /** `updateFormData`. */
    method Update(field: string, value: Value)
      requires Valid()
      modifies this
      ensures Valid()
      ensures State() == Wizard.Update(old(State()), field, value)
      ensures step == old(step) && loading == old(loading)
      ensures draft.Keys == old(draft).Keys + {field} && draft[field] == value
      ensures forall k :: k in old(draft) && k != field ==> draft[k] == old(draft)[k]
    {
      draft := PropertyDraft.Set(draft, field, value);
    }

    /** The control bindings: an event reaches its handler only when the
        page renders and enables its control, and then the page stays in
        one of the states Wizard.Consistent describes. */
    method Press(e: Wizard.Event) returns (handoff: Wizard.Option<Draft>)
      requires Valid() && Wizard.Consistent(State()) && Wizard.Enabled(State(), e)
      modifies this
      ensures Valid() && Wizard.Consistent(State())
      ensures Wizard.Outcome(State(), handoff) == Wizard.Fire(old(State()), e)
    {
      Wizard.FirePreservesConsistent(State(), e);
      match e
      case PressNext(geocode) =>
        handoff := Next(geocode);
      case PressPrevious =>
        Previous();
        handoff := Wizard.None;
      case Edit(field, value) =>
        Update(field, value);
        handoff := Wizard.None;
    }
  }
}
