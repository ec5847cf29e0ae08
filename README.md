# Estimate wizard — a verified model

This project models the property intake wizard of the EstimPro front end
(`app/estimate/page.tsx`). The page collects a property draft over four
steps: Location, Characteristics, Details and Confirmation. On the last step
it asks a geocoding service for the address's coordinates. If that succeeds,
it merges the coordinates into the draft and hands the merged record to the
results page. If it fails, it drops its loading flag and stays where it was.

The model has three modules:

- `PropertyDraft` (`draft.dfy`) is the draft record `formData`. It is a map
  from field name to value, because `updateFormData` takes any key and any
  value. The module holds the initial draft, the one-field update and the
  coordinate merge.
- `Wizard` (`wizard.dfy`) is the state machine as values. It has the state
  (`currentStep`, `formData`, `isLoading`), one function per handler, and
  the progress indicator. It also records which controls the page renders in
  each state: no wizard button or input while loading, the back button
  disabled on step 1, and each step's own inputs. Events bound to those controls give runs, and
  lemmas proved by induction over runs state what holds in every reachable
  state.
- `Estimate` (`estimate_page.dfy`) is the component as a class
  `EstimatePage`. Its fields `step`, `draft` and `loading` are updated in
  place by `Next`, `Previous`, `Update` and `Submit`. Each method's
  postcondition ties the new state to the matching `Wizard` function.

The geocoder is a parameter. `Submit` and `Next` take its answer,
`Located(latitude, longitude)` or `Failed`. No I/O is modelled. The hand-off
to the results page is returned as the record that would be serialised.

The progress value `currentStep / totalSteps * 100` is modelled in real
arithmetic. For steps 1 to 4 every intermediate value (0.25, 0.5, 0.75, 1)
is exact in binary floating point, so the real value is the value the page
computes. `Math.round` is modelled as `floor(x + 0.5)`.

One observation is proved rather than assumed. No step renders an input for
`balcony`, `floor` or `elevator`. So in every reachable state these three fields are still the empty text
they start as (`Wizard.Reachable`). That includes the state after a
successful submission, whose draft is the handed-off record
(`Wizard.Submit`).

Two behaviours of the code worth noting:
- On a geocoding failure it only logs the error and clears the loading flag.
  It shows the user no message (page.tsx:74-77).
- No field is validated before a step change (page.tsx:40-52).

## Model

| member | source | states |
|---|---|---|
| PropertyDraft.Initial | app/estimate/page.tsx:17-33 | The draft starts with exactly the fifteen fields: `surface` = `[100]`, `year` = `[2000]`, null latitude and longitude, and every other field empty text. |
| PropertyDraft.Set | app/estimate/page.tsx:80-82 | The named field takes the given value, any other field keeps its value, and the key set only gains that field. No value is checked. |
| PropertyDraft.WithCoordinates | app/estimate/page.tsx:66-73 | The merged record has the geocoded latitude and longitude, and every other field is identical to the draft's. |
| Wizard.Initial | app/estimate/page.tsx:16-34 | The wizard starts on step 1, not loading, with the initial draft. |
| Wizard.Submit | app/estimate/page.tsx:54-78 | The step never changes. On failure the state is the old one with the loading flag cleared, and nothing is handed off. On success the state is loading, the draft is the old draft with the coordinates merged in, and the handed-off record is that same draft. |
| Wizard.Next | app/estimate/page.tsx:40-46 | Below step 4 the step goes up by exactly one, the draft and flag are untouched, and nothing is submitted. At step 4 it is a submission. A step in 1..4 stays in 1..4. |
| Wizard.Previous | app/estimate/page.tsx:48-52 | Above step 1 the step goes down by exactly one. At step 1 nothing changes. The draft and flag are never touched, and a step in 1..4 stays in 1..4. |
| Wizard.Update | app/estimate/page.tsx:80-82 | Only the named draft field changes, to the given value. The step and the loading flag stay the same. |
| Wizard.PreviousUndoesNext | app/estimate/page.tsx:40-52 | From any step below the last, going back after going forward restores the exact state. |
| Wizard.NextUndoesPrevious | app/estimate/page.tsx:40-52 | From any step above the first, going forward after going back restores the exact state, with no submission. |
| Wizard.FailedSubmitRecovers | app/estimate/page.tsx:54-77 | From a non-loading state, a failed geocoding gives back exactly the state before the submission. |
| Wizard.Progress | app/estimate/page.tsx:37-38 | Progress is a quarter of 100 per step. It lies in (0, 100] for steps 1..4 and is 100 exactly at the last step. |
| Wizard.Round | app/estimate/page.tsx:110 | `Math.round` gives the integer n with n ≤ x + 0.5 < n + 1. |
| Wizard.DisplayedPercent | app/estimate/page.tsx:110 | The rounded percentage shown is exactly 25 × step. |
| Wizard.ProgressIncreases | app/estimate/page.tsx:37-38 | The progress value and the shown percentage both grow strictly with the step. |
| Wizard.StepFields | app/estimate/page.tsx:124-380 | Step 1 renders inputs for address and property type, step 2 for surface, rooms, bedrooms and bathrooms, step 3 for year, condition, parking and garden. Step 4 renders no inputs. No step renders the coordinates. Every rendered field is a field of the draft. |
| Wizard.Fire | app/estimate/page.tsx:383-401 | An event hands a record off only if it is the forward button on the last step with a successful geocoding, and the page is then loading. |
| Wizard.NothingFiresWhileLoading | app/estimate/page.tsx:116-122 | While loading, no wizard button and no form input is rendered, so no wizard event can occur. |
| Wizard.InitialConsistent | app/estimate/page.tsx:16-34 | The initial state satisfies the reachable-state invariant. |
| Wizard.FirePreservesConsistent | app/estimate/page.tsx:40-82 | Any event the page offers keeps the invariant. The invariant: step in 1..4, all fields present, loading only on step 4 with coordinates merged, null coordinates otherwise. |
| Wizard.RunPreservesConsistent | app/estimate/page.tsx:37-82 | Any sequence of offered events keeps that invariant (by induction over the sequence). |
| Wizard.AtMostOneHandoff | app/estimate/page.tsx:54-78 | In any sequence of offered events, the draft is handed to the results page at most once. |
| Wizard.RunKeepsUneditableField | app/estimate/page.tsx:124-331 | A field that no step renders an input for keeps its value through any sequence of offered events. |
| Wizard.Reachable | app/estimate/page.tsx:16-34 | From the start, whatever the user does: the step stays in 1..4, the coordinates stay null until geocoding succeeds, and `balcony`, `floor` and `elevator` stay empty text. |
| Estimate.EstimatePage.constructor | app/estimate/page.tsx:16-34 | The component starts on step 1, not loading, with `surface` `[100]`, `year` `[2000]` and null coordinates. |
| Estimate.EstimatePage.ShownProgress | app/estimate/page.tsx:110 | The shown percentage lies in 25..100, equals 25 × step, and is 100 exactly on the last step. |
| Estimate.EstimatePage.Submit | app/estimate/page.tsx:54-78 | The fields are updated in place as `Wizard.Submit` says. The step is unchanged. A failure clears the flag and keeps the draft. A success keeps the page loading and merges the coordinates, and the merged draft is handed off. |
| Estimate.EstimatePage.Next | app/estimate/page.tsx:40-46 | The fields are updated as `Wizard.Next` says: one step forward below the last step, otherwise a submission on the same step. |
| Estimate.EstimatePage.Previous | app/estimate/page.tsx:48-52 | The fields are updated as `Wizard.Previous` says: one step back above step 1, otherwise nothing changes. The draft and flag are untouched. |
| Estimate.EstimatePage.Update | app/estimate/page.tsx:80-82 | The fields are updated as `Wizard.Update` says: only the named draft field changes. |
| Estimate.EstimatePage.Press | app/estimate/page.tsx:383-401 | An event from a rendered, enabled control runs its handler and keeps the page in a consistent state. |

## Left out

- `app/results/page.tsx` is not part of this model. It renders mock constants and computes nothing, so the model has no valuation request, no currency conversion and no report.
- `app/page.tsx` is not part of this model. It is marketing content with a hover flag.
- The geocoding `fetch`, `encodeURIComponent`, `JSON.stringify` and `router.push` are not modelled. The geocoder is an input, and the hand-off is the merged record value.
- `console.error` on a failed submission is I/O and is left out.
- A geocoder reply that is ok but lacks `latitude` or `longitude` is not modelled. The code would merge `undefined`; the model's `Located` always carries two numbers.
- Async scheduling is not modelled. `handleSubmit` is one atomic step, so the loading state between the request and its answer (step 4, loading, null coordinates) is never observed, and `Wizard.Consistent` describes only the states the atomic model reaches. The pushed record is built from the render's `formData` and the stored draft from `prev`. These are the same record in the atomic model.
- The header's "Retour" link (page.tsx:90-93) is outside the loading conditional and is on screen in every state. Leaving the page by it, including during a submission, is not modelled: the pending geocode is not cancelled, and a later success would still navigate to the results page.
- React rendering is modelled only as far as it decides which events can occur (`Wizard.Enabled`). Layout, text and icons are left out.
- Slider bounds (10..500 step 5, 1900..2024) and the select option lists are enforced by the UI library, not by `updateFormData`. The model allows any value for any field.
- `PropertyDraft.Value` covers only the value shapes the page stores (text, number arrays, numbers, null), not every JavaScript value.
