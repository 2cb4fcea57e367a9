/**
  Per-step field validation, run when Next is clicked, and the coarser
  non-emptiness gate that enables the Next button in the first place.
 */
module Validation {
  import opened FormState
  import opened Text

  const NameRequired: string := "Name is required"
  const InvalidEmail: string := "Invalid email format"
  // The two messages below say "more than", but lengths 3 and 6 pass.
  const UsernameTooShort: string := "Username must be more than 3 characters"
  const PasswordTooShort: string := "Password must be more than 6 characters"

  /** The message validation attaches to a failing field. */
  function Message(f: Field): (m: string)
    ensures m != ""
  {
    match f
    case Name => NameRequired
    case Email => InvalidEmail
    case Username => UsernameTooShort
    case Password => PasswordTooShort
  }

  /** The error map `validateStep` computes for the current step: on step 1
      the name must not be blank and the email must contain a match of
      `\S+@\S+\.\S+`; on step 2 the username needs at least 3 characters and
      the password at least 6; any other step has no checks. */
  function StepErrors(step: int, d: FormData): (r: Errors)
    ensures Name in r <==> step == 1 && IsBlank(d.name)
    ensures Email in r <==> step == 1 && !EmailMatch(d.email)
    ensures Username in r <==> step == 2 && |d.username| < 3
    ensures Password in r <==> step == 2 && |d.password| < 6
    ensures forall f :: f in r ==> r[f] == Message(f) && HasError(r, f)
    ensures r.Keys <= StepFields(step)
    ensures step != 1 && step != 2 ==> r == map[]
  {
    var none: Errors := map[];
    if step == 1 then
      var withName := if IsBlank(d.name) then none[Name := NameRequired] else none;
      if !EmailMatch(d.email) then withName[Email := InvalidEmail] else withName
    else if step == 2 then
      var withUser := if |d.username| < 3 then none[Username := UsernameTooShort] else none;
      if |d.password| < 6 then withUser[Password := PasswordTooShort] else withUser
    else
      none
  }

  /** The boolean `validateStep` returns: no field failed. */
  predicate StepValid(step: int, d: FormData)
    ensures StepValid(step, d) <==> |StepErrors(step, d)| == 0
    ensures StepValid(step, d) <==> forall f :: !HasError(StepErrors(step, d), f)
  {
    StepErrors(step, d) == map[]
  }

  /** Validation passes exactly when both checks of the current step pass;
      on the review step there is nothing to check. */
  lemma StepValidIffChecksPass(step: int, d: FormData)
    ensures step == 1 ==> (StepValid(step, d) <==> !IsBlank(d.name) && EmailMatch(d.email))
    ensures step == 2 ==> (StepValid(step, d) <==> |d.username| >= 3 && |d.password| >= 6)
    ensures step != 1 && step != 2 ==> StepValid(step, d)
  {
    var r := StepErrors(step, d);
    if r != map[] {
      var f :| f in r;
    }
  }

  /** `isNextDisabled()`: Next is disabled exactly when some field of the
      current step is still empty, whatever its content would validate to. */
  function NextDisabled(step: int, d: FormData): (disabled: bool)
    ensures disabled <==> exists f :: f in StepFields(step) && Get(d, f) == ""
  {
    if step == 1 then
      assert Get(d, Name) == d.name && Get(d, Email) == d.email;
      d.name == "" || d.email == ""
    else if step == 2 then
      assert Get(d, Username) == d.username && Get(d, Password) == d.password;
      d.username == "" || d.password == ""
    else false
  }

  /** The gate is weaker than validation: whenever a step's validation would
      pass, its Next button is enabled. */
  lemma ValidStepEnablesNext(step: int, d: FormData)
    requires StepValid(step, d)
    ensures !NextDisabled(step, d)
  {
    StepValidIffChecksPass(step, d);
  }

  /** ... and strictly weaker: a blank-but-non-empty name and an email without
      an `@` enable Next on step 1, yet validation fails on both fields. */
  lemma NextEnabledDoesNotImplyValid()
    ensures var d := FormData(" ", "bad", "", "");
      !NextDisabled(1, d) && Name in StepErrors(1, d) && Email in StepErrors(1, d)
  {
    var d := FormData(" ", "bad", "", "");
  }

  /** `a@b.com` contains a match of the email pattern. */
  lemma SampleEmailMatches()
    ensures EmailMatch("a@b.com")
  {
    assert MatchAt("a@b.com", 1, 3);
  }

  /** Step 1 with an empty name and a well-formed email: an error on the
      name only. */
  lemma EmptyNameFailsAlone()
    ensures StepErrors(1, FormData("", "a@b.com", "", "")).Keys == {Name}
  {
    SampleEmailMatches();
  }

  /** Step 1 with a name and an email lacking `@`: an error on the email only. */
  lemma BadEmailFailsAlone()
    ensures StepErrors(1, FormData("Bob", "bad", "", "")).Keys == {Email}
  {
    assert !IsSpace("Bob"[0]);
  }

  /** Step 2 boundaries: a username of length 3 and a password of length 6
      pass, one character fewer fails. */
  lemma AccountLengthBoundaries()
    ensures StepErrors(2, FormData("", "", "abc", "secret")) == map[]
    ensures StepErrors(2, FormData("", "", "ab", "secre")).Keys == {Username, Password}
  {
  }

  /** The happy path's personal details pass step 1. */
  lemma AliceIsValid()
    ensures StepValid(1, FormData("Alice", "a@b.com", "", ""))
  {
    SampleEmailMatches();
    assert !IsSpace("Alice"[0]);
  }
}
