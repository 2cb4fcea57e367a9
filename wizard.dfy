/**
  The wizard as the user drives it: the events the rendered view can raise
  (typing into a shown input, Back, Next, Submit, Register Another), which of
  them the view offers in a given state, what each one dispatches, and the
  component itself as an object whose state every handler replaces.
 */
module Wizard {
  import opened FormState
  import opened Text
  import opened Reducer
  import opened Validation

  /** What the user can do in the view. */
  datatype Event =
    | Edit(field: Field, value: string)
    | Back
    | Next
    | Submit
    | RegisterAnother

  /** Whether the view offers event `e` in state `s`. Once submitted only the
      Register Another button is shown. Otherwise Back is shown when
      `step > 1`; Next when `step < 3`, and it is clickable only while not
      disabled; Submit in the other branch of that same test, `step >= 3`. */
  predicate Enabled(s: State, e: Event)
    ensures Enabled(s, e) ==> (e.RegisterAnother? <==> s.isSubmitted)
    ensures Enabled(s, e) && e.Edit? ==> e.field in StepFields(s.step)
    ensures Enabled(s, e) && e.Back? ==> s.step > 1
    ensures Enabled(s, e) && e.Next? ==> s.step < 3 && !NextDisabled(s.step, s.formData)
    ensures Enabled(s, e) && e.Submit? ==> s.step >= 3
  {
    if s.isSubmitted then
      e.RegisterAnother?
    else
      match e
      case Edit(f, _) => f in StepFields(s.step)
      case Back => s.step > 1
      case Next => s.step < 3 && !NextDisabled(s.step, s.formData)
      case Submit => s.step >= 3
      case RegisterAnother => false
  }

  /** `handleNext()`: validate the current step; on failure dispatch
      SET_ERRORS with the computed map, otherwise dispatch NEXT_STEP. */
  function AfterNext(s: State): (r: State)
    ensures r.formData == s.formData && r.isSubmitted == s.isSubmitted
    ensures !StepValid(s.step, s.formData) ==>
      r.step == s.step && r.errors == StepErrors(s.step, s.formData)
    ensures StepValid(s.step, s.formData) ==>
      r.step == s.step + 1 && r.errors == s.errors
  {
    var errs := StepErrors(s.step, s.formData);
    if |errs| > 0 then Reduce(s, SetErrors(errs)) else Reduce(s, NextStep)
  }

  /** The state after the view handles event `e`: typing sets the field and
      clears its error, Back steps back, Next runs `handleNext`, Submit raises
      the submitted flag, and Register Another starts over. */
  function Handle(s: State, e: Event): (r: State)
    ensures e.Edit? ==>
      && Get(r.formData, e.field) == e.value && !HasError(r.errors, e.field)
      && r.step == s.step && r.isSubmitted == s.isSubmitted
    ensures e.Edit? ==>
      && r.errors.Keys == s.errors.Keys + {e.field}
      && forall g :: g != e.field ==>
           && Get(r.formData, g) == Get(s.formData, g)
           && (g in s.errors ==> r.errors[g] == s.errors[g])
    ensures e.Back? ==>
      r.step == s.step - 1 && r.formData == s.formData && r.errors == s.errors && r.isSubmitted == s.isSubmitted
    ensures e.Next? ==>
      && r.formData == s.formData && r.isSubmitted == s.isSubmitted
      && r.step == (if StepValid(s.step, s.formData) then s.step + 1 else s.step)
      && r.errors == (if StepValid(s.step, s.formData) then s.errors else StepErrors(s.step, s.formData))
    ensures e.Submit? ==>
      r.isSubmitted && r.step == s.step && r.formData == s.formData && r.errors == s.errors
    ensures e.RegisterAnother? ==> r == Initial
  {
    match e
    case Edit(f, v) => Reduce(s, UpdateField(f, v))
    case Back => Reduce(s, PreviousStep)
    case Next => AfterNext(s)
    case Submit => Reduce(s, SubmitForm)
    case RegisterAnother => Reduce(s, ResetForm)
  }

  /** A session: the events handled one after another. */
  function Run(s: State, es: seq<Event>): State
    decreases |es|
  {
    if es == [] then s else Run(Handle(s, es[0]), es[1..])
  }

  /** Every event of the session was offered by the view when it happened. */
  predicate Permitted(s: State, es: seq<Event>)
    decreases |es|
  {
    es == [] || (Enabled(s, es[0]) && Permitted(Handle(s, es[0]), es[1..]))
  }

  /** What the view's gating maintains: the step stays within 1..3, and a
      submitted wizard is on step 3. */
  predicate Inv(s: State)
  {
    1 <= s.step <= 3 && (s.isSubmitted ==> s.step == 3)
  }

  lemma InitialSatisfiesInv()
    ensures Inv(Initial)
  {
  }

  /** Each event the view offers keeps the invariant. */
  lemma HandlePreservesInv(s: State, e: Event)
    requires Inv(s) && Enabled(s, e)
    ensures Inv(Handle(s, e))
  {
  }

  /** The view does offer each of its controls when its condition holds, and
      each, handled on its own, has the documented effect: Back when past
      step 1, Next while before step 3 with the step's fields filled, Submit
      on the review step, the inputs of the current step, and Register
      Another once submitted. */
  lemma ControlsOffered(s: State, f: Field, v: string)
    ensures !s.isSubmitted && s.step > 1 ==>
      Permitted(s, [Back]) && Run(s, [Back]) == s.(step := s.step - 1)
    ensures !s.isSubmitted && s.step < 3 && !NextDisabled(s.step, s.formData) ==>
      Permitted(s, [Next]) && Run(s, [Next]) == AfterNext(s)
    ensures !s.isSubmitted && s.step >= 3 ==>
      Permitted(s, [Submit]) && Run(s, [Submit]) == s.(isSubmitted := true)
    ensures !s.isSubmitted && f in StepFields(s.step) ==>
      Permitted(s, [Edit(f, v)]) && Run(s, [Edit(f, v)]) == Reduce(s, UpdateField(f, v))
    ensures s.isSubmitted ==>
      Permitted(s, [RegisterAnother]) && Run(s, [RegisterAnother]) == Initial
  {
  }

  /** A one-event session is permitted exactly when the view offers that
      event, and ends in the state the event's handler produces. */
  lemma SingleEvent(s: State, e: Event)
    ensures Permitted(s, [e]) <==> Enabled(s, e)
    ensures Run(s, [e]) == Handle(s, e)
  {
  }

  /** Only an event the view offers can submit, and only on step 3. */
  lemma SubmitOnlyFromStepThree(s: State, e: Event)
    requires Inv(s) && Enabled(s, e)
    requires !s.isSubmitted && Handle(s, e).isSubmitted
    ensures e.Submit? && s.step == 3
  {
  }

  /** Any session of offered events keeps the invariant. */
  lemma {:induction false} RunPreservesInv(s: State, es: seq<Event>)
    requires Inv(s) && Permitted(s, es)
    ensures Inv(Run(s, es))
    decreases |es|
  {
    if es != [] {
      HandlePreservesInv(s, es[0]);
      RunPreservesInv(Handle(s, es[0]), es[1..]);
    }
  }

  /** Starting from the initial state, every session of offered events stays
      within steps 1..3, and a submitted wizard is always on step 3. */
  lemma SessionStepInRange(es: seq<Event>)
    requires Permitted(Initial, es)
    ensures 1 <= Run(Initial, es).step <= 3
    ensures Run(Initial, es).isSubmitted ==> Run(Initial, es).step == 3
  {
    RunPreservesInv(Initial, es);
  }

  /** Sessions compose: running `xs` then `ys` is running `xs + ys`, and
      the combined session is offered when both parts are, in turn. */
  lemma {:induction false} RunAppend(s: State, xs: seq<Event>, ys: seq<Event>)
    ensures Run(s, xs + ys) == Run(Run(s, xs), ys)
    ensures Permitted(s, xs) && Permitted(Run(s, xs), ys) ==> Permitted(s, xs + ys)
    decreases |xs|
  {
    if xs != [] {
      assert (xs + ys)[0] == xs[0] && (xs + ys)[1..] == xs[1..] + ys;
      RunAppend(Handle(s, xs[0]), xs[1..], ys);
    } else {
      assert xs + ys == ys;
    }
  }

  /** Step 1 of a successful registration: type the name and the email,
      then Next, which passes validation and moves to step 2. */
  lemma FillPersonalDetails(name: string, email: string)
    requires StepValid(1, FormData(name, email, "", ""))
    ensures var es := [Edit(Name, name), Edit(Email, email), Next];
      && Permitted(Initial, es)
      && Run(Initial, es) == State(2, FormData(name, email, "", ""), map[Name := "", Email := ""], false)
  {
    var es := [Edit(Name, name), Edit(Email, email), Next];
    var s1 := Handle(Initial, es[0]);
    var s2 := Handle(s1, es[1]);
    assert s2.formData == FormData(name, email, "", "");
    ValidStepEnablesNext(1, s2.formData);
    var s3 := Handle(s2, es[2]);
    assert Run(s3, es[3..]) == s3 && Permitted(s3, es[3..]);
    assert Enabled(s2, es[2]) && Run(s2, es[2..]) == s3 && Permitted(s2, es[2..]);
    assert Enabled(s1, es[1]) && Run(s1, es[1..]) == s3 && Permitted(s1, es[1..]);
  }

  /** Step 2 and 3 of a successful registration: type the username and the
      password, Next, which passes validation, then Submit on the review step. */
  lemma FillAccountDetailsAndSubmit(s: State, username: string, password: string)
    requires s.step == 2 && !s.isSubmitted
    requires StepValid(2, FormData(s.formData.name, s.formData.email, username, password))
    ensures var es := [Edit(Username, username), Edit(Password, password), Next, Submit];
      && Permitted(s, es)
      && Run(s, es) == State(3, FormData(s.formData.name, s.formData.email, username, password),
                             s.errors[Username := ""][Password := ""], true)
  {
    var es := [Edit(Username, username), Edit(Password, password), Next, Submit];
    var s1 := Handle(s, es[0]);
    var s2 := Handle(s1, es[1]);
    assert s2.formData == FormData(s.formData.name, s.formData.email, username, password);
    ValidStepEnablesNext(2, s2.formData);
    var s3 := Handle(s2, es[2]);
    var s4 := Handle(s3, es[3]);
    assert Run(s4, es[4..]) == s4 && Permitted(s4, es[4..]);
    assert Enabled(s3, es[3]) && Run(s3, es[3..]) == s4 && Permitted(s3, es[3..]);
    assert Enabled(s2, es[2]) && Run(s2, es[2..]) == s4 && Permitted(s2, es[2..]);
    assert Enabled(s1, es[1]) && Run(s1, es[1..]) == s4 && Permitted(s1, es[1..]);
  }

  /** A successful registration: fill in step 1, Next, fill in step 2, Next,
      Submit. With input that passes validation every click is offered, and
      the wizard ends submitted on the review step holding the entered values,
      with every error entry cleared. */
  lemma {:induction false} HappyPath(name: string, email: string, username: string, password: string)
    requires StepValid(1, FormData(name, email, "", ""))
    requires StepValid(2, FormData(name, email, username, password))
    ensures var es := [Edit(Name, name), Edit(Email, email), Next,
                       Edit(Username, username), Edit(Password, password), Next, Submit];
      && Permitted(Initial, es)
      && Run(Initial, es) == State(3, FormData(name, email, username, password),
                                   map[Name := "", Email := "", Username := "", Password := ""], true)
  {
    var xs := [Edit(Name, name), Edit(Email, email), Next];
    var ys := [Edit(Username, username), Edit(Password, password), Next, Submit];
    var es := [Edit(Name, name), Edit(Email, email), Next,
               Edit(Username, username), Edit(Password, password), Next, Submit];
    assert es == xs + ys;
    FillPersonalDetails(name, email);
    var mid := Run(Initial, xs);
    assert mid == State(2, FormData(name, email, "", ""), map[Name := "", Email := ""], false);
    FillAccountDetailsAndSubmit(mid, username, password);
    RunAppend(Initial, xs, ys);
    assert mid.errors[Username := ""][Password := ""]
      == map[Name := "", Email := "", Username := "", Password := ""];
  }

  /** The worked example: Alice, a@b.com, bobby, secret ends submitted with
      those values on record. */
  lemma AliceRegisters()
    ensures var es := [Edit(Name, "Alice"), Edit(Email, "a@b.com"), Next,
                       Edit(Username, "bobby"), Edit(Password, "secret"), Next, Submit];
      && Permitted(Initial, es)
      && Run(Initial, es).isSubmitted
      && Run(Initial, es).formData == FormData("Alice", "a@b.com", "bobby", "secret")
  {
    AliceIsValid();
    assert StepValid(2, FormData("Alice", "a@b.com", "bobby", "secret"));
    HappyPath("Alice", "a@b.com", "bobby", "secret");
  }

  /** The component: a single state value, replaced by every handler. */
  class FormWizard {
    var state: State

    /** The invariant the view's gating keeps. */
    ghost predicate Valid()
      reads this
    {
      Inv(state)
    }

    /** `useReducer(formReducer, initialState)`. */
    constructor ()
      ensures state == Initial && Valid()
    {
      state := Initial;
    }

    /** `dispatch(action)`. */
    method Dispatch(a: Action)
      modifies this
      ensures state == Reduce(old(state), a)
    {
      state := Reduce(state, a);
    }

    /** `validateStep()`: collect the failing fields of the current step into
        a fresh map; if any failed, dispatch SET_ERRORS with it and report
        false, otherwise leave the state alone and report true. */
    method ValidateStep() returns (ok: bool)
      modifies this
      ensures ok <==> StepValid(old(state).step, old(state).formData)
      ensures ok ==> state == old(state)
      ensures !ok ==> state == Reduce(old(state), SetErrors(StepErrors(old(state).step, old(state).formData)))
    {
      var step, formData := state.step, state.formData;
      var currentErrors: Errors := map[];
      if step == 1 {
        if IsBlank(formData.name) {
          currentErrors := currentErrors[Name := NameRequired];
        }
        if !EmailMatch(formData.email) {
          currentErrors := currentErrors[Email := InvalidEmail];
        }
      } else if step == 2 {
        if |formData.username| < 3 {
          currentErrors := currentErrors[Username := UsernameTooShort];
        }
        if |formData.password| < 6 {
          currentErrors := currentErrors[Password := PasswordTooShort];
        }
      }
      assert currentErrors == StepErrors(step, formData);
      if |currentErrors| > 0 {
        Dispatch(SetErrors(currentErrors));
        return false;
      }
      assert currentErrors == map[];
      return true;
    }

    /** `handleNext()`: validate, and advance only if validation passed. */
    method HandleNext()
      modifies this
      ensures state == AfterNext(old(state))
    {
      var ok := ValidateStep();
      if ok {
        Dispatch(NextStep);
      }
    }

    /** One event raised by the rendered view; the view offers only enabled
        events, and handling one keeps the invariant. */
    method OnEvent(e: Event)
      requires Valid() && Enabled(state, e)
      modifies this
      ensures state == Handle(old(state), e) && Valid()
    {
      match e {
        case Edit(f, v) => Dispatch(UpdateField(f, v));
        case Back => Dispatch(PreviousStep);
        case Next => HandleNext();
        case Submit => Dispatch(SubmitForm);
        case RegisterAnother => Dispatch(ResetForm);
      }
      HandlePreservesInv(old(state), e);
    }
  }
}
