/**
  The state record of the three-step registration wizard: the four form
  fields, the per-field error messages, the current step and the submitted
  flag, together with the initial state the wizard starts from and returns
  to on reset.
 */
module FormState {

  /** The four input fields of the form; the UI never names another. */
  datatype Field = Name | Email | Username | Password

  /** The entered values, one string per field. */
  datatype FormData = FormData(name: string, email: string, username: string, password: string)

  /** Error messages keyed by field. A key that is absent, or present with the
      empty string, means "no error" for that field. */
  type Errors = map<Field, string>

  /** The whole wizard state. `step` is an unbounded integer: the reducer does
      not guard it, so it may leave 1..3 when actions arrive ungated. */
  datatype State = State(step: int, formData: FormData, errors: Errors, isSubmitted: bool)

  const EmptyForm: FormData := FormData("", "", "", "")

  /** Step 1, four empty strings, no errors, not submitted. */
  const Initial: State := State(1, EmptyForm, map[], false)

  /** The value of one field (the `formData[field]` lookup). */
  function Get(d: FormData, f: Field): string
  {
    match f
    case Name => d.name
    case Email => d.email
    case Username => d.username
    case Password => d.password
  }

  /** The record with one field replaced (`{ ...formData, [field]: value }`). */
  function Set(d: FormData, f: Field, v: string): (r: FormData)
    ensures Get(r, f) == v
    ensures forall g :: g != f ==> Get(r, g) == Get(d, g)
  {
    match f
    case Name => d.(name := v)
    case Email => d.(email := v)
    case Username => d.(username := v)
    case Password => d.(password := v)
  }

  /** Two form records that agree on every field are the same record, so the
      two postconditions of Set pin its result down completely. */
  lemma FormDataDeterminedByFields(a: FormData, b: FormData)
    requires forall g :: Get(a, g) == Get(b, g)
    ensures a == b
  {
    assert Get(a, Name) == Get(b, Name) && Get(a, Email) == Get(b, Email);
    assert Get(a, Username) == Get(b, Username) && Get(a, Password) == Get(b, Password);
  }

  /** The fields that belong to each step: their inputs are rendered there
      and validated there. Name and email on step 1, username and password on
      step 2, none on the review step. */
  function StepFields(step: int): set<Field>
  {
    if step == 1 then {Name, Email} else if step == 2 then {Username, Password} else {}
  }

  /** The input steps partition the fields: every field is rendered on one of
      steps 1 and 2, and on no other step. */
  lemma EachFieldOnExactlyOneStep(f: Field, i: int, j: int)
    ensures f in StepFields(1) || f in StepFields(2)
    ensures f in StepFields(1) ==> f !in StepFields(2)
    ensures f in StepFields(i) && f in StepFields(j) ==> i == j && (i == 1 || i == 2)
  {
  }

  /** Whether the view shows an error under field `f`: the value must be
      present and truthy, i.e. a non-empty string. */
  predicate HasError(errors: Errors, f: Field)
  {
    f in errors && errors[f] != ""
  }
}
