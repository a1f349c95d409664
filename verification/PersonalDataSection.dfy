/** The personal-data section of the caregiver dashboard: five text inputs
    (the email one read-only) and two yes/no selects. */
module PersonalDataSection {
  import opened Common

  /** The props the section reads. */
  datatype PersonalFields = PersonalFields(
    nome: string, email: string, telefone: string, cpf: string, dataNascimento: string,
    possuiFilhos: bool, fumante: bool)

  /** `checkCompletion`: the five text props are all non-empty. */
  function CheckCompletion(f: PersonalFields): (r: bool)
    ensures r <==> "" !in [f.nome, f.email, f.telefone, f.cpf, f.dataNascimento]
  {
    f.nome != "" && f.email != "" && f.telefone != "" && f.cpf != "" && f.dataNascimento != ""
  }

  /** The two yes/no answers never affect the badge. */
  lemma CompletionIgnoresAnswers(f: PersonalFields, filhos: bool, fumante: bool)
    ensures CheckCompletion(f.(possuiFilhos := filhos, fumante := fumante)) == CheckCompletion(f)
  {
  }

  /** The section's controls, in the order they are rendered. */
  datatype Control = Nome | Email | Telefone | Cpf | DataNascimento | PossuiFilhos | Fumante

  predicate IsSelect(c: Control)
  {
    c == PossuiFilhos || c == Fumante
  }

  /** The draft key a control writes, if it has a change handler at all. */
  function FieldKey(c: Control): Option<string>
  {
    match c
    case Nome => Some("nome")
    case Email => None
    case Telefone => Some("telefone")
    case Cpf => Some("cpf")
    case DataNascimento => Some("data_nascimento")
    case PossuiFilhos => Some("possui_filhos")
    case Fumante => Some("fumante")
  }

  /** The value a yes/no select displays for a boolean. */
  function SelectValue(b: bool): string
  {
    if b then "true" else "false"
  }

  /** The boolean a yes/no select emits for the option chosen. */
  function SelectAnswer(v: string): bool
  {
    v == "true"
  }

  /** What a control's change handler emits for the value the browser
      reports: nothing for the email input, which has no handler. */
  function OnChange(c: Control, raw: string): (w: Option<Write>)
    ensures w.None? <==> c == Email
    ensures w.Some? ==> Some(w.value.field) == FieldKey(c)
    ensures w.Some? && IsSelect(c) ==> w.value.value == Bool(raw == "true")
    ensures w.Some? && !IsSelect(c) ==> w.value.value == Str(raw)
  {
    match c
    case Nome => Some(Write("nome", Str(raw)))
    case Email => None
    case Telefone => Some(Write("telefone", Str(raw)))
    case Cpf => Some(Write("cpf", Str(raw)))
    case DataNascimento => Some(Write("data_nascimento", Str(raw)))
    case PossuiFilhos => Some(Write("possui_filhos", Bool(SelectAnswer(raw))))
    case Fumante => Some(Write("fumante", Bool(SelectAnswer(raw))))
  }

  /** The email input is always disabled; every other control exactly when
      the section is not being edited. */
  function Disabled(c: Control, isEditing: bool): (r: bool)
    ensures c == Email ==> r
    ensures c != Email ==> (r <==> !isEditing)
  {
    if c == Email then true else !isEditing
  }

  /** While editing, the disabled controls are exactly those without a
      change handler; an enabled control always writes its own key. */
  lemma EnabledControlsWrite(c: Control, isEditing: bool, raw: string)
    ensures Disabled(c, true) <==> OnChange(c, raw).None?
    ensures !Disabled(c, isEditing) ==>
              (isEditing && OnChange(c, raw).Some? && FieldKey(c).Some?
               && OnChange(c, raw).value.field == FieldKey(c).value)
  {
  }

  /** Each control writes under its own key: no two controls share one. */
  lemma KeysDistinct(c: Control, d: Control)
    requires c != d && FieldKey(c).Some? && FieldKey(d).Some?
    ensures FieldKey(c).value != FieldKey(d).value
  {
  }

  /** A select that shows a boolean emits that same boolean when its shown
      option is chosen again. */
  lemma SelectRoundTrip(c: Control, b: bool)
    requires IsSelect(c)
    ensures OnChange(c, SelectValue(b)) == Some(Write(FieldKey(c).value, Bool(b)))
  {
  }

  /** The only options a yes/no select offers map to the two booleans, and
      the displayed value of each boolean is one of those options. */
  lemma SelectOptions(v: string)
    requires v in ["false", "true"]
    ensures SelectValue(SelectAnswer(v)) == v
  {
  }

  /** A change writes its own key only: the rest of the draft is kept. */
  lemma ChangeIsLocal(draft: Record, c: Control, raw: string, key: string)
    requires c != Email && key != FieldKey(c).value
    ensures var after := ApplyWrites(draft, [OnChange(c, raw).value]);
      && FieldKey(c).value in after
      && (key in after <==> key in draft)
      && (key in draft ==> after[key] == draft[key])
  {
    ApplyWritesLast(draft, [OnChange(c, raw).value], 0);
    ApplyWritesUntouched(draft, [OnChange(c, raw).value], key);
  }
}
