/** The professional-category section of the caregiver dashboard: the cargo
    select, the registration-number input each cargo shows, the completion
    badge and the header summary. */
module CategorySection {
  import opened Common

  /** The props the section reads. */
  datatype CategoryFields = CategoryFields(cargo: string, coren: string, crefito: string, crm: string)

  /** The cargo values the select offers. */
  function CargoOptions(): seq<string>
  {
    ["cuidador", "enfermeiro", "tecnico", "fisioterapeuta", "terapeuta", "medico"]
  }

  /** The three registration-number inputs. */
  datatype RegistrationInput = CorenInput | CrefitoInput | CrmInput

  /** The registration-number input rendered below the select for a cargo,
      if any. */
  function VisibleInput(cargo: string): Option<RegistrationInput>
  {
    if cargo == "enfermeiro" || cargo == "tecnico" then Some(CorenInput)
    else if cargo == "fisioterapeuta" || cargo == "terapeuta" then Some(CrefitoInput)
    else if cargo == "medico" then Some(CrmInput)
    else None
  }

  /** The `name` attribute of an input, which its change event reports. */
  function InputName(input: RegistrationInput): string
  {
    match input
    case CorenInput => "coren"
    case CrefitoInput => "crefito"
    case CrmInput => "crm"
  }

  function InputValue(f: CategoryFields, input: RegistrationInput): string
  {
    match input
    case CorenInput => f.coren
    case CrefitoInput => f.crefito
    case CrmInput => f.crm
  }

  /** `checkCompletion`. It agrees with the form: a cargo the select offers,
      with its registration input (if it shows one) filled. */
  predicate CheckCompletion(f: CategoryFields)
    ensures CheckCompletion(f) <==>
      f.cargo in CargoOptions()
      && (VisibleInput(f.cargo).Some? ==> InputValue(f, VisibleInput(f.cargo).value) != "")
  {
    if f.cargo == "" then false
    else match f.cargo
      case "enfermeiro" => f.coren != ""
      case "tecnico" => f.coren != ""
      case "fisioterapeuta" => f.crefito != ""
      case "terapeuta" => f.crefito != ""
      case "medico" => f.crm != ""
      case "cuidador" => true
      case _ => false
  }

  /** An empty cargo is never complete; `cuidador` always is. */
  lemma CompletionEdges(f: CategoryFields)
    ensures f.cargo == "" ==> !CheckCompletion(f)
    ensures f.cargo == "cuidador" ==> CheckCompletion(f)
    ensures f.cargo !in CargoOptions() ==> !CheckCompletion(f)
  {
  }

  /** The label that precedes each number in the header summary. */
  function NumberLabel(input: RegistrationInput): string
  {
    match input
    case CorenInput => " - COREN: "
    case CrefitoInput => " - CREFITO: "
    case CrmInput => " - CRM: "
  }

  /** `getRegistrationNumber`: the number of the input the cargo shows,
      labelled, or nothing when that number is empty or there is no input. */
  function RegistrationNumber(f: CategoryFields): (r: string)
    ensures r != "" <==> VisibleInput(f.cargo).Some? && InputValue(f, VisibleInput(f.cargo).value) != ""
    ensures r != "" ==>
      var input := VisibleInput(f.cargo).value;
      r == NumberLabel(input) + InputValue(f, input)
  {
    match f.cargo
    case "enfermeiro" => if f.coren != "" then " - COREN: " + f.coren else ""
    case "tecnico" => if f.coren != "" then " - COREN: " + f.coren else ""
    case "fisioterapeuta" => if f.crefito != "" then " - CREFITO: " + f.crefito else ""
    case "terapeuta" => if f.crefito != "" then " - CREFITO: " + f.crefito else ""
    case "medico" => if f.crm != "" then " - CRM: " + f.crm else ""
    case _ => ""
  }

  /** For a cargo that needs a registration number, the section is complete
      exactly when the header shows that number. */
  lemma CompleteIffNumberShown(f: CategoryFields)
    requires VisibleInput(f.cargo).Some?
    ensures CheckCompletion(f) <==> RegistrationNumber(f) != ""
  {
  }

  const CargoPlaceholder: string := "Selecione sua categoria profissional"

  /** The header summary: the cargo followed by its number, or a prompt. */
  function HeaderSummary(f: CategoryFields): (r: string)
    ensures f.cargo == "" ==> r == CargoPlaceholder
    ensures f.cargo != "" ==> StartsWith(r, f.cargo) && r[|f.cargo|..] == RegistrationNumber(f)
  {
    if f.cargo != "" then f.cargo + RegistrationNumber(f) else CargoPlaceholder
  }

  /** The select's `onValueChange`: one write, of the cargo alone. */
  function CargoChange(value: string): seq<Write>
  {
    [Write("cargo", Str(value))]
  }

  /** A registration input's `onChange`: one write, under the input's name. */
  function NumberChange(input: RegistrationInput, value: string): seq<Write>
  {
    [Write(InputName(input), Str(value))]
  }

  /** Changing the cargo sets it and never clears a registration number
      already in the draft. */
  lemma CargoChangeKeepsNumbers(draft: Record, value: string, input: RegistrationInput)
    ensures var after := ApplyWrites(draft, CargoChange(value));
      && "cargo" in after && after["cargo"] == Str(value)
      && (InputName(input) in after <==> InputName(input) in draft)
      && (InputName(input) in draft ==> after[InputName(input)] == draft[InputName(input)])
  {
    ApplyWritesLast(draft, CargoChange(value), 0);
    ApplyWritesUntouched(draft, CargoChange(value), InputName(input));
  }

  /** Typing a number sets that number only; the cargo and the other numbers
      are kept. */
  lemma NumberChangeIsLocal(draft: Record, input: RegistrationInput, value: string, key: string)
    requires key != InputName(input)
    ensures var after := ApplyWrites(draft, NumberChange(input, value));
      && InputName(input) in after && after[InputName(input)] == Str(value)
      && (key in after <==> key in draft)
      && (key in draft ==> after[key] == draft[key])
  {
    ApplyWritesLast(draft, NumberChange(input, value), 0);
    ApplyWritesUntouched(draft, NumberChange(input, value), key);
  }
}
