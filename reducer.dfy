/**
  The wizard's reducer: one pure transition per action, each building a new
  state from the old one and changing only its own part of the record.
  The reducer itself does not guard `step`; keeping it in range is the job of
  the view (see module Wizard).
 */
module Reducer {
  import opened FormState

  /** The action objects the component dispatches. `Unrecognized` stands for
      any other `type`, which the reducer ignores. */
  datatype Action =
    | UpdateField(field: Field, value: string)
    | SetErrors(payload: Errors)
    | NextStep
    | PreviousStep
    | SubmitForm
    | ResetForm
    | Unrecognized

  /** UPDATE_FIELD: the field takes the new value and its error entry becomes
      the empty string; everything else is kept. */
  function ApplyUpdateField(s: State, f: Field, v: string): (r: State)
    ensures Get(r.formData, f) == v
    ensures forall g :: g != f ==> Get(r.formData, g) == Get(s.formData, g)
    ensures f in r.errors && r.errors[f] == "" && !HasError(r.errors, f)
    ensures r.errors.Keys == s.errors.Keys + {f}
    ensures forall g :: g != f && g in s.errors ==> r.errors[g] == s.errors[g]
    ensures r.step == s.step && r.isSubmitted == s.isSubmitted
  {
    s.(formData := Set(s.formData, f, v), errors := s.errors[f := ""])
  }

  /** SET_ERRORS: the error map is replaced wholesale by the payload. */
  function ApplySetErrors(s: State, payload: Errors): (r: State)
    ensures r.errors == payload
    ensures r.step == s.step && r.formData == s.formData && r.isSubmitted == s.isSubmitted
  {
    s.(errors := payload)
  }

  /** NEXT_STEP: one step forward, unguarded. */
  function ApplyNextStep(s: State): (r: State)
    ensures r.step == s.step + 1
    ensures r.formData == s.formData && r.errors == s.errors && r.isSubmitted == s.isSubmitted
  {
    s.(step := s.step + 1)
  }

  /** PREVIOUS_STEP: one step back, unguarded. */
  function ApplyPreviousStep(s: State): (r: State)
    ensures r.step == s.step - 1
    ensures r.formData == s.formData && r.errors == s.errors && r.isSubmitted == s.isSubmitted
  {
    s.(step := s.step - 1)
  }

  /** SUBMIT_FORM: the submitted flag is raised. */
  function ApplySubmit(s: State): (r: State)
    ensures r.isSubmitted
    ensures r.step == s.step && r.formData == s.formData && r.errors == s.errors
  {
    s.(isSubmitted := true)
  }

  /** RESET_FORM: back to the initial state, whatever came before. */
  function ApplyReset(s: State): (r: State)
    ensures r.step == 1 && !r.isSubmitted && r.errors == map[]
    ensures forall f :: Get(r.formData, f) == ""
  {
    Initial
  }

  /** `formReducer(state, action)`. */
  function Reduce(s: State, a: Action): (r: State)
    ensures !(a.UpdateField? || a.ResetForm?) ==> r.formData == s.formData
    ensures !(a.NextStep? || a.PreviousStep? || a.ResetForm?) ==> r.step == s.step
    ensures !(a.UpdateField? || a.SetErrors? || a.ResetForm?) ==> r.errors == s.errors
    ensures r.isSubmitted ==> s.isSubmitted || a.SubmitForm?
    ensures !a.ResetForm? ==> s.step - 1 <= r.step <= s.step + 1
    ensures a.Unrecognized? ==> r == s
  {
    match a
    case UpdateField(f, v) => ApplyUpdateField(s, f, v)
    case SetErrors(payload) => ApplySetErrors(s, payload)
    case NextStep => ApplyNextStep(s)
    case PreviousStep => ApplyPreviousStep(s)
    case SubmitForm => ApplySubmit(s)
    case ResetForm => ApplyReset(s)
    case Unrecognized => s
  }

  /** Reset yields exactly the documented initial state, from any state, so
      resetting twice is the same as resetting once. */
  lemma ResetIsInitialAndIdempotent(s: State)
    ensures Reduce(s, ResetForm) == Initial
    ensures Reduce(Reduce(s, ResetForm), ResetForm) == Reduce(s, ResetForm)
  {
  }

  /** Editing a field always clears that field's displayed error, whatever was
      there before, and leaves every other field's displayed error as it was. */
  lemma UpdateClearsOnlyItsError(s: State, f: Field, v: string)
    ensures !HasError(Reduce(s, UpdateField(f, v)).errors, f)
    ensures forall g :: g != f ==> (HasError(Reduce(s, UpdateField(f, v)).errors, g) <==> HasError(s.errors, g))
  {
  }

  /** The reducer on its own does not keep `step` in 1..3: Back on step 1
      yields step 0, and Next on step 3 yields step 4. */
  lemma UnguardedReducerLeavesRange(s: State)
    ensures s.step == 1 ==> Reduce(s, PreviousStep).step == 0
    ensures s.step == 3 ==> Reduce(s, NextStep).step == 4
  {
  }
}
