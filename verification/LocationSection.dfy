/** The location card of the caregiver profile: state, city and street, each
    showing the draft while editing and the stored row otherwise. */
module LocationSection {
  import opened Common

  /** The state codes the state select offers, with their labels. */
  function StateOptions(): seq<(string, string)>
  {
    [("SP", "São Paulo"), ("RJ", "Rio de Janeiro"), ("MG", "Minas Gerais")]
  }

  /** The city lists, keyed by state code. */
  function CityTable(): map<string, seq<string>>
  {
    map[
      "SP" := [
        "Amparo", "Analândia", "Aparecida", "Arujá", "Biritiba Mirim",
        "Caçapava", "Cachoeira Paulista", "Campinas", "Cruzeiro",
        "Ferraz de Vasconcelos", "Guararema", "Guaratinguetá", "Guarulhos",
        "Itaquaquecetuba", "Jacareí", "Lorena", "Mogi das Cruzes", "Osasco",
        "Pindamonhangaba", "Poá", "Salesópolis", "Santa Isabel", "Santos",
        "São Bernardo do Campo", "São Caetano do Sul", "São José dos Campos",
        "São Paulo", "São Roque", "Santo André", "Suzano", "Taubaté", "Mauá"],
      "RJ" := [
        "Rio de Janeiro", "Niterói", "Nova Iguaçu", "Duque de Caxias", "Belford Roxo",
        "Campos dos Goytacazes", "Petrópolis", "Volta Redonda", "Magé", "Cabo Frio"],
      "MG" := [
        "Belo Horizonte", "Uberlândia", "Contagem", "Juiz de Fora", "Betim",
        "Montes Claros", "Ribeirão das Neves", "Uberaba", "Governador Valadares", "Ipatinga"]
    ]
  }

  /** What a control shows for `key`: the draft's value while editing (which
      may be `undefined`), otherwise the stored row's value or "". */
  function Shown(isEditing: bool, dados: Option<Record>, editData: Record, key: string): (r: Option<Value>)
    ensures isEditing ==> (r.Some? <==> key in editData) && (r.Some? ==> r.value == editData[key])
    ensures !isEditing && dados.Some? && Filled(dados.value, key) ==> r == Some(dados.value[key])
    ensures !isEditing && !(dados.Some? && Filled(dados.value, key)) ==> r == Some(Str(""))
  {
    if isEditing then (if key in editData then Some(editData[key]) else None)
    else if dados.Some? && Filled(dados.value, key) then Some(dados.value[key])
    else Some(Str(""))
  }

  /** `estadoSelecionado`. */
  function SelectedState(isEditing: bool, dados: Option<Record>, editData: Record): Option<Value>
  {
    Shown(isEditing, dados, editData, "estado")
  }

  /** `cidadesDisponiveis`: the table entry of the selected state; none when
      no state is selected or the table has no entry for it. */
  function AvailableCities(selected: Option<Value>): (r: seq<string>)
    ensures !TruthyValue(selected) ==> r == []
    ensures TruthyValue(selected) && selected.value.Str? && selected.value.s in CityTable() ==>
              r == CityTable()[selected.value.s]
    ensures r != [] ==> selected.Some? && selected.value.Str? && selected.value.s in CityTable()
  {
    if !TruthyValue(selected) then []
    else match selected.value
      case Str(code) => if code in CityTable() then CityTable()[code] else []
      case Bool(_) => []
  }

  lemma TableCodes()
    ensures CityTable().Keys == {"SP", "RJ", "MG"}
  {
  }

  /** Every state code the select offers has a non-empty city list. */
  lemma OfferedStatesHaveCities(i: int)
    requires 0 <= i < |StateOptions()|
    ensures StateOptions()[i].0 in CityTable()
    ensures AvailableCities(Some(Str(StateOptions()[i].0))) != []
  {
    TableCodes();
  }

  /** The city select is disabled when not editing and while no state is
      selected. */
  function CityDisabled(isEditing: bool, selected: Option<Value>): (r: bool)
    ensures !r <==> isEditing && TruthyValue(selected)
  {
    !isEditing || !TruthyValue(selected)
  }

  /** While editing, a select with cities to offer is enabled, and an enabled
      select over an offered state code has cities to offer. */
  lemma CityChoicesWhenEnabled(isEditing: bool, selected: Option<Value>, i: int)
    ensures isEditing && AvailableCities(selected) != [] ==> !CityDisabled(isEditing, selected)
    ensures (0 <= i < |StateOptions()| && selected == Some(Str(StateOptions()[i].0))
             && !CityDisabled(isEditing, selected)) ==> AvailableCities(selected) != []
  {
    if 0 <= i < |StateOptions()| {
      OfferedStatesHaveCities(i);
    }
  }

  /** Outside editing, the state shown never comes from the draft. */
  lemma ViewingIgnoresDraft(dados: Option<Record>, editData: Record, other: Record)
    ensures SelectedState(false, dados, editData) == SelectedState(false, dados, other)
  {
  }
}
