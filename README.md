# Registration wizard: a verified model of the `MultiStepForm` state machine

The modelled component is a three-step registration wizard:
- Step 1 collects personal details: name and email.
- Step 2 collects account details: username and password.
- Step 3 is a review screen with a Submit button.
- After Submit the wizard shows a success view with a "Register Another" button.

All of its state is one record: `step`, the four form values, a map of error messages per field and an `isSubmitted` flag. A pure reducer computes the next record for each of six actions. A per-step validator runs when Next is clicked. The view decides which buttons and inputs exist, and so which actions can be dispatched at all.

The modules, one file each:

- `FormState` (`form_state.dfy`): the entities. It holds `Field` (the four inputs), `FormData`, `Errors = map<Field, string>` and `State`. It also has the initial state, field lookup and update, the fields that belong to each step (`StepFields`), and `HasError`. `HasError` is the truthiness test the view applies to an error entry at `q1/src/components/MultiStepForm.jsx:97`: the key is present with a non-empty string. Both are plain definitions. What the view relies on about them is proved elsewhere. For `HasError` that is `UpdateClearsOnlyItsError` and the `HasError` clause of `StepErrors`. For `StepFields` it is `EachFieldOnExactlyOneStep`, the `r.Keys <= StepFields(step)` clause of `StepErrors` and the contract of `NextDisabled`.
- `Text` (`text.dfy`): the two string tests the validator relies on.
  - `trim()` is modelled as `TrimStart` followed by `TrimEnd`. A string is blank (`IsBlank`) when its trimmed form is empty, which is proved to mean that it is all whitespace.
  - The unanchored regular expression `\S+@\S+\.\S+` has two forms. `RegexTest` is its meaning: some substring is in the pattern's language. `EmailMatch` is an executable position search. They are proved equivalent.
  - Whitespace is the ECMAScript WhiteSpace and LineTerminator set. `\s` and `trim()` both use that set.
- `Reducer` (`reducer.dfy`): `formReducer` as `Reduce`, with one function per action. Each function's contract says which component of the state it changes and that nothing else changes.
- `Validation` (`validation.dfy`):
  - `validateStep`'s error map is the pure function `StepErrors`, and its boolean result is `StepValid`.
  - `isNextDisabled` is `NextDisabled`.
  - Worked cases pin down the boundaries: lengths 3 and 6 pass, even though the messages say "more than 3/6".
- `Wizard` (`wizard.dfy`): the view's side.
  - `Event` lists what the user can do.
  - `Enabled` says which events the rendered view offers.
  - `AfterNext` is `handleNext`.
  - A session is a fold `Run` over events, and `Permitted` says that every event was offered when it happened.
  - Under that gating, the invariant "1 <= step <= 3, and a submitted wizard is on step 3" holds from the initial state on.
  - The class `FormWizard` is the component as an object. Its `state` field is replaced by `Dispatch`, by the imperative `ValidateStep` (it builds `currentErrors` key by key), by `HandleNext` and by `OnEvent`.

The reducer is deliberately left unguarded, as in the source. Back on step 1 gives step 0, and Next on step 3 gives step 4 (`UnguardedReducerLeavesRange`). The range invariant is stated only for sessions of events the view offers.

The Submit button is the `else` branch of `step < 3` (`q1/src/components/MultiStepForm.jsx:143-153`), so the view offers it whenever `step >= 3`. Under the invariant that means step 3 only (`SubmitOnlyFromStepThree`).

## Model

| member | source | states |
|---|---|---|
| FormState.Set | q1/src/components/MultiStepForm.jsx:20 | the updated record holds the new value in the chosen field and every other field is unchanged |
| FormState.FormDataDeterminedByFields | q1/src/components/MultiStepForm.jsx:5-10 | a form record is determined by its four field values, so `Set`'s contract describes the spread completely |
| FormState.EachFieldOnExactlyOneStep | q1/src/components/MultiStepForm.jsx:89-125 | the inputs of steps 1 and 2 partition the four fields: each field is rendered on exactly one step, and that step is 1 or 2 |
| Text.TrimStart | q1/src/components/MultiStepForm.jsx:45 | the result is the longest suffix that does not start with whitespace; everything removed is whitespace |
| Text.TrimEnd | q1/src/components/MultiStepForm.jsx:45 | the result is the longest prefix that does not end with whitespace; everything removed is whitespace |
| Text.StripBothEnds | q1/src/components/MultiStepForm.jsx:45 | keeping a suffix behind leading whitespace and then a prefix before trailing whitespace strips exactly the whitespace at both ends |
| Text.Trim | q1/src/components/MultiStepForm.jsx:45 | `s.trim()` is a contiguous piece of `s` with whitespace removed only from the two ends, and it neither starts nor ends with whitespace |
| Text.IsBlank | q1/src/components/MultiStepForm.jsx:45 | `!s.trim()` holds exactly when every character of `s` is whitespace, including for the empty string |
| Text.RegexTest | q1/src/components/MultiStepForm.jsx:46 | the meaning of `/\S+@\S+\.\S+/.test(s)`: some substring of `s` is in the pattern's language; a match needs at least five characters |
| Text.MatchAtIsRegexMatch | q1/src/components/MultiStepForm.jsx:46 | an `@`/`.` pair found by the executable search bounds a substring that is in the language of `\S+@\S+\.\S+` |
| Text.RegexMatchIsMatchAt | q1/src/components/MultiStepForm.jsx:46 | every substring in the pattern's language yields an `@`/`.` pair the executable search accepts |
| Text.PositionSearchIffRegexTest | q1/src/components/MultiStepForm.jsx:46 | a search for an `@`/`.` position pair succeeds exactly when the unanchored regular expression finds a match |
| Text.EmailMatch | q1/src/components/MultiStepForm.jsx:46 | the executable email test accepts exactly the strings `RegexTest` holds of |
| Reducer.ApplyUpdateField | q1/src/components/MultiStepForm.jsx:17-22 | UPDATE_FIELD sets the field to the value and its error entry to `''`; the other fields, the other error entries, `step` and `isSubmitted` are unchanged |
| Reducer.ApplySetErrors | q1/src/components/MultiStepForm.jsx:23-24 | SET_ERRORS replaces the error map wholesale by the payload and changes nothing else |
| Reducer.ApplyNextStep | q1/src/components/MultiStepForm.jsx:25-26 | NEXT_STEP moves `step` by exactly +1, unguarded, and changes nothing else |
| Reducer.ApplyPreviousStep | q1/src/components/MultiStepForm.jsx:27-28 | PREVIOUS_STEP moves `step` by exactly -1, unguarded, and changes nothing else |
| Reducer.ApplySubmit | q1/src/components/MultiStepForm.jsx:29-30 | SUBMIT_FORM sets `isSubmitted` and changes nothing else |
| Reducer.ApplyReset | q1/src/components/MultiStepForm.jsx:31-32 | RESET_FORM yields step 1, four empty fields, no errors and not submitted, from any state |
| Reducer.Reduce | q1/src/components/MultiStepForm.jsx:15-36 | only UPDATE_FIELD and RESET_FORM touch the form data; only NEXT/PREVIOUS/RESET move the step, by at most one except on reset; only SUBMIT_FORM can raise `isSubmitted`; an unknown action returns the state as it was |
| Reducer.ResetIsInitialAndIdempotent | q1/src/components/MultiStepForm.jsx:3-13 | reset returns exactly `initialState`, so resetting twice equals resetting once |
| Reducer.UpdateClearsOnlyItsError | q1/src/components/MultiStepForm.jsx:21 | after editing a field no error shows under it, and whether an error shows under any other field is unchanged |
| Reducer.UnguardedReducerLeavesRange | q1/src/components/MultiStepForm.jsx:25-28 | dispatched directly, PREVIOUS_STEP on step 1 yields step 0 and NEXT_STEP on step 3 yields step 4 |
| Validation.Message | q1/src/components/MultiStepForm.jsx:45-49 | every validation message is a non-empty, and therefore displayed, string |
| Validation.StepErrors | q1/src/components/MultiStepForm.jsx:42-50 | on step 1, name fails iff blank and email fails iff it has no match of the pattern; on step 2, username fails iff shorter than 3 and password iff shorter than 6; only fields of the current step can fail; other steps have no errors; every entry carries its field's message |
| Validation.StepValid | q1/src/components/MultiStepForm.jsx:52-56 | `validateStep` returns true exactly when `currentErrors` has no keys, i.e. no field of the step would show an error |
| Validation.StepValidIffChecksPass | q1/src/components/MultiStepForm.jsx:52-56 | `validateStep` returns true exactly when none of the step's checks fails, i.e. the error map is empty |
| Validation.NextDisabled | q1/src/components/MultiStepForm.jsx:63-67 | Next is disabled exactly when some field of the current step is the empty string; the review step never disables it |
| Validation.ValidStepEnablesNext | q1/src/components/MultiStepForm.jsx:63-67 | whenever validation of a step would pass, its Next button is enabled |
| Validation.NextEnabledDoesNotImplyValid | q1/src/components/MultiStepForm.jsx:64 | the gate is strictly weaker: name `" "` and email `"bad"` enable Next, yet both fail validation |
| Validation.SampleEmailMatches | q1/src/components/MultiStepForm.jsx:46 | `a@b.com` passes the email test |
| Validation.EmptyNameFailsAlone | q1/src/components/MultiStepForm.jsx:44-46 | an empty name with a good email gives an error on the name only |
| Validation.BadEmailFailsAlone | q1/src/components/MultiStepForm.jsx:44-46 | a good name with email `bad` gives an error on the email only |
| Validation.AccountLengthBoundaries | q1/src/components/MultiStepForm.jsx:47-50 | a username of length 3 and a password of length 6 pass; lengths 2 and 5 both fail |
| Validation.AliceIsValid | q1/src/components/MultiStepForm.jsx:44-46 | name `Alice` with email `a@b.com` passes step 1 |
| Wizard.Enabled | q1/src/components/MultiStepForm.jsx:69-153 | once submitted only Register Another is offered; otherwise the inputs of the current step, Back only if step > 1, Next only if step < 3 and not disabled, Submit only if step >= 3 |
| Wizard.ControlsOffered | q1/src/components/MultiStepForm.jsx:69-153 | conversely, each control is offered when its condition holds: Back past step 1, Next before step 3 with the step's fields filled, Submit from step 3 on, the current step's inputs, and Register Another once submitted; each then has its documented effect |
| Wizard.SingleEvent | q1/src/components/MultiStepForm.jsx:69-153 | a one-event session is allowed exactly when the view offers that event, and ends where that event's handler puts it |
| Wizard.Handle | q1/src/components/MultiStepForm.jsx:74-152 | typing sets the field and clears its error, keeping the other fields, the other error entries, the step and the flag; Back moves one step back; Next advances and keeps the errors when the step is valid, otherwise stays and shows exactly the computed errors; Submit raises the submitted flag; Register Another returns to `initialState` |
| Wizard.AfterNext | q1/src/components/MultiStepForm.jsx:59-61 | on failure the step is unchanged and the errors are exactly the computed map; on success the step goes up by one and the errors are untouched; the form data and the submitted flag are kept |
| Wizard.InitialSatisfiesInv | q1/src/components/MultiStepForm.jsx:3-13 | the initial state is on step 1 and not submitted, so it satisfies the session invariant |
| Wizard.HandlePreservesInv | q1/src/components/MultiStepForm.jsx:139-153 | every event the view offers keeps step in 1..3 and keeps a submitted wizard on step 3 |
| Wizard.SubmitOnlyFromStepThree | q1/src/components/MultiStepForm.jsx:143-153 | under the invariant, the only offered event that submits is Submit, and only on step 3 |
| Wizard.RunPreservesInv | q1/src/components/MultiStepForm.jsx:69-77 | any session of offered events keeps the invariant |
| Wizard.SessionStepInRange | q1/src/components/MultiStepForm.jsx:138-153 | from `initialState`, every session of offered events ends with step in 1..3, and on step 3 if submitted |
| Wizard.RunAppend | q1/src/components/MultiStepForm.jsx:39 | handling two sessions one after the other is handling their concatenation, and the concatenation is offered when both parts are |
| Wizard.FillPersonalDetails | q1/src/components/MultiStepForm.jsx:92-104 | typing a valid name and email and clicking Next is offered and reaches step 2 with both values kept |
| Wizard.FillAccountDetailsAndSubmit | q1/src/components/MultiStepForm.jsx:111-153 | on step 2, typing a valid username and password, Next and Submit is offered and ends submitted on step 3 with the values kept |
| Wizard.HappyPath | q1/src/components/MultiStepForm.jsx:59-61 | with input that validates, the full sequence of edits, Next, Next and Submit is offered and ends submitted on step 3 holding the entered values, with every error entry cleared |
| Wizard.AliceRegisters | q1/src/components/MultiStepForm.jsx:127-134 | Alice, a@b.com, bobby, secret ends submitted with exactly those values on record |
| Wizard.FormWizard.constructor | q1/src/components/MultiStepForm.jsx:39 | the component starts in `initialState`, which satisfies the invariant |
| Wizard.FormWizard.Dispatch | q1/src/components/MultiStepForm.jsx:39 | the new state is the reducer applied to the old state and the action |
| Wizard.FormWizard.ValidateStep | q1/src/components/MultiStepForm.jsx:42-57 | returns true exactly when the step is valid, leaving the state alone; otherwise dispatches SET_ERRORS with exactly the computed map |
| Wizard.FormWizard.HandleNext | q1/src/components/MultiStepForm.jsx:59-61 | the new state is the one `AfterNext` describes |
| Wizard.FormWizard.OnEvent | q1/src/components/MultiStepForm.jsx:138-153 | an offered event updates the state as `Handle` describes and keeps the invariant |

## Left out

- The rendering is not modelled: the JSX markup, CSS class names, the progress bar width `(step / 3) * 100` (floating point, presentational) and the review and success texts. The view's only effect kept here is which inputs and buttons exist, in `Enabled`.
- React's `useReducer` machinery, re-rendering and event objects are not modelled. `dispatch` is the direct application of the reducer to the component's state, and the `e.target.value` of an input event is the `value` of an `Edit` event.
- `UPDATE_FIELD` with an arbitrary computed key is not modelled. The view only ever passes the four field names, so `Field` has four constructors.
- Text lengths are sequence lengths. JavaScript's `.length` counts UTF-16 code units, which differs for characters outside the Basic Multilingual Plane.
- Action types the reducer does not know are a single `Unrecognized` action, which leaves the state unchanged. No path in the view produces one.
