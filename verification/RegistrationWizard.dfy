/** The public caregiver registration form: a four-step wizard over one set
    of form values, validated field by field, posted to a webhook at the end. */
module RegistrationWizard {
  import opened Common

  /** The form values; `courses` is the one optional field. */
  datatype FormValues = FormValues(
    name: string, email: string, whatsapp: string, birthDate: string,
    hasChildren: bool, smoker: bool,
    cep: string, address: string, state: string, city: string,
    education: string, courses: Option<string>, availability: string, sleepAtClient: bool,
    careCategory: string, experience: string, references: string)

  /** The values the form starts with and is reset to. */
  const Defaults: FormValues :=
    FormValues("", "", "", "", false, false, "", "", "", "", "", None, "", false, "", "", "")

  /** The 17 fields of the form schema. */
  datatype Field =
    | Name | Email | Whatsapp | BirthDate | HasChildren | Smoker
    | Cep | Address | State | City
    | Education | Courses | Availability | SleepAtClient
    | CareCategory | Experience | References

  /** The minimum length the schema asks of each text field (0 for none). */
  function MinLength(f: Field): nat
  {
    match f
    case Name => 2
    case Whatsapp => 10
    case BirthDate => 1
    case Cep => 8
    case Address => 5
    case State => 1
    case City => 2
    case Education => 1
    case Availability => 1
    case CareCategory => 1
    case Experience => 10
    case References => 1
    case _ => 0
  }

  function TextOf(v: FormValues, f: Field): string
  {
    match f
    case Name => v.name
    case Email => v.email
    case Whatsapp => v.whatsapp
    case BirthDate => v.birthDate
    case Cep => v.cep
    case Address => v.address
    case State => v.state
    case City => v.city
    case Education => v.education
    case Availability => v.availability
    case CareCategory => v.careCategory
    case Experience => v.experience
    case References => v.references
    case Courses => v.courses.GetOr("")
    case _ => ""
  }

  /** The schema's rule for one field. Email syntax is decided by
      `emailOk`; the booleans and the optional courses always pass. */
  predicate FieldValid(v: FormValues, f: Field, emailOk: string -> bool)
  {
    match f
    case Email => emailOk(v.email)
    case HasChildren => true
    case Smoker => true
    case SleepAtClient => true
    case Courses => true
    case _ => |TextOf(v, f)| >= MinLength(f)
  }

  /** The required text fields are exactly those with a positive minimum. */
  lemma RequiredFields(v: FormValues, f: Field, emailOk: string -> bool)
    requires f != Email
    ensures MinLength(f) == 0 ==> FieldValid(v, f, emailOk)
    ensures MinLength(f) > 0 ==> (FieldValid(v, f, emailOk) <==> |TextOf(v, f)| >= MinLength(f))
  {
  }

  const TotalSteps: int := 4

  /** `formSteps[step].fields`; no fields for a step the list lacks. */
  function StepFields(step: int): seq<Field>
  {
    if step == 1 then [Name, Email, Whatsapp, BirthDate, HasChildren, Smoker]
    else if step == 2 then [Cep, Address, State, City]
    else if step == 3 then [Education, Courses, Availability, SleepAtClient]
    else if step == 4 then [CareCategory, Experience, References]
    else []
  }

  /** The step a field is listed under. */
  function StepOf(f: Field): (step: int)
    ensures 1 <= step <= TotalSteps
    ensures f in StepFields(step)
  {
    match f
    case Name => 1 case Email => 1 case Whatsapp => 1 case BirthDate => 1
    case HasChildren => 1 case Smoker => 1
    case Cep => 2 case Address => 2 case State => 2 case City => 2
    case Education => 3 case Courses => 3 case Availability => 3 case SleepAtClient => 3
    case CareCategory => 4 case Experience => 4 case References => 4
  }

  /** Every entry of a step's list is a field of that step. */
  lemma ListedUnderOwnStep(step: int, i: int)
    requires 0 <= i < |StepFields(step)|
    ensures StepOf(StepFields(step)[i]) == step
  {
  }

  /** The four step lists partition the schema: each of the 17 fields is
      listed under exactly one step, and the lists hold 17 entries in all. */
  lemma StepsPartitionFields(f: Field, step: int)
    ensures f in StepFields(step) <==> step == StepOf(f)
    ensures |StepFields(1)| + |StepFields(2)| + |StepFields(3)| + |StepFields(4)| == 17
  {
    if f in StepFields(step) {
      var i :| 0 <= i < |StepFields(step)| && StepFields(step)[i] == f;
      ListedUnderOwnStep(step, i);
    }
  }

  /** `form.trigger(fields)` for the current step. */
  predicate StepValid(v: FormValues, step: int, emailOk: string -> bool)
  {
    forall f :: f in StepFields(step) ==> FieldValid(v, f, emailOk)
  }

  /** The whole schema, as the submit handler checks it. */
  predicate FormValid(v: FormValues, emailOk: string -> bool)
  {
    forall f: Field :: FieldValid(v, f, emailOk)
  }

  /** Passing the four steps' checks is the same as passing the whole schema. */
  lemma StepsCoverForm(v: FormValues, emailOk: string -> bool)
    ensures FormValid(v, emailOk) <==> forall step :: 1 <= step <= TotalSteps ==> StepValid(v, step, emailOk)
  {
    if forall step :: 1 <= step <= TotalSteps ==> StepValid(v, step, emailOk) {
      forall f: Field ensures FieldValid(v, f, emailOk) {
        assert StepValid(v, StepOf(f), emailOk);
      }
    }
  }

  /** The defaults fail the schema, so an untouched form never submits. */
  lemma DefaultsInvalid(emailOk: string -> bool)
    ensures !FormValid(Defaults, emailOk)
    ensures !StepValid(Defaults, 1, emailOk)
  {
    assert !FieldValid(Defaults, Name, emailOk);
    assert Name in StepFields(1);
  }

  /** What the webhook answered: `response.ok`, another status, or a network
      failure. */
  datatype PostOutcome = Accepted | Rejected | NetworkError

  /** The button row: "Voltar" from step 2 on, and "Avançar" before the last
      step, where the submit button takes its place. */
  datatype Buttons = Buttons(back: bool, advance: bool, submit: bool)

  function RenderButtons(step: int): (b: Buttons)
    ensures b.back <==> step > 1
    ensures b.advance != b.submit
    ensures b.submit <==> step >= TotalSteps
  {
    Buttons(step > 1, step < TotalSteps, !(step < TotalSteps))
  }

  class Wizard {
    var currentStep: int
    var values: FormValues

    ghost predicate Valid()
      reads this
    {
      1 <= currentStep <= TotalSteps
    }

    constructor ()
      ensures Valid() && currentStep == 1 && values == Defaults
    {
      currentStep := 1;
      values := Defaults;
    }

    /** A field edited by the user. */
    method Edit(v: FormValues)
      requires Valid()
      modifies this`values
      ensures Valid() && values == v && currentStep == old(currentStep)
    {
      values := v;
    }

    /** `handleNextStep`: one step forward when the current step's fields
        pass and the last step is not reached yet. */
    method NextStep(emailOk: string -> bool) returns (advanced: bool)
      requires Valid()
      modifies this`currentStep
      ensures Valid()
      ensures advanced <==> StepValid(values, old(currentStep), emailOk) && old(currentStep) < TotalSteps
      ensures currentStep == if advanced then old(currentStep) + 1 else old(currentStep)
    {
      var isValid := StepValid(values, currentStep, emailOk);
      if !isValid {
        return false;
      }
      advanced := currentStep < TotalSteps;
      if advanced {
        currentStep := currentStep + 1;
      }
    }

    /** `handleBack`: one step back, except on the first step. */
    method Back()
      requires Valid()
      modifies this`currentStep
      ensures Valid()
      ensures currentStep == if old(currentStep) > 1 then old(currentStep) - 1 else 1
    {
      if currentStep > 1 {
        currentStep := currentStep - 1;
      }
    }

    /** Submitting: the whole schema is checked first, and only valid values
        are posted. An accepted post resets the form to its defaults and
        returns to step 1; any other outcome keeps both. */
    method Submit(emailOk: string -> bool, outcome: PostOutcome) returns (posted: Option<FormValues>)
      requires Valid()
      modifies this
      ensures Valid()
      ensures posted.Some? <==> FormValid(old(values), emailOk)
      ensures posted.Some? ==> posted.value == old(values)
      ensures posted.Some? && outcome == Accepted ==> values == Defaults && currentStep == 1
      ensures !(posted.Some? && outcome == Accepted) ==>
                values == old(values) && currentStep == old(currentStep)
    {
      if !FormValid(values, emailOk) {
        return None;
      }
      posted := Some(values);
      if outcome == Accepted {
        values := Defaults;
        currentStep := 1;
      }
    }
  }

  /** Going forward and back again returns to the same step. */
  method NextThenBack(w: Wizard, emailOk: string -> bool)
    requires w.Valid() && w.currentStep < TotalSteps && StepValid(w.values, w.currentStep, emailOk)
    modifies w
    ensures w.Valid() && w.currentStep == old(w.currentStep) && w.values == old(w.values)
  {
    var advanced := w.NextStep(emailOk);
    w.Back();
  }
}
