/** The address section of the caregiver dashboard: CEP and street inputs, a
    state select and a city select whose options depend on the state. */
module AddressSection {
  import opened Common
  import opened SectionEditor

  /** The props the section reads. */
  datatype AddressFields = AddressFields(cep: string, endereco: string, cidade: string, estado: string)

  /** `checkCompletion`: every one of the four fields is non-empty. */
  function CheckCompletion(f: AddressFields): (r: bool)
    ensures r <==> "" !in [f.cep, f.endereco, f.cidade, f.estado]
  {
    f.cep != "" && f.endereco != "" && f.cidade != "" && f.estado != ""
  }

  /** The section's props read from the parent's draft or snapshot; a
      missing field reads as empty. */
  function FieldsOf(rec: Record): AddressFields
  {
    AddressFields(TextOf(rec, "cep").GetOr(""), TextOf(rec, "endereco").GetOr(""),
                  TextOf(rec, "cidade").GetOr(""), TextOf(rec, "estado").GetOr(""))
  }

  /** The section's own badge and the profile page's progress overview agree
      on "address" whenever the four fields hold text. */
  lemma BadgeAgreesWithOverview(rec: Record)
    requires forall k :: k in ["cep", "endereco", "cidade", "estado"] && k in rec ==> rec[k].Str?
    ensures CheckCompletion(FieldsOf(rec)) <==> SectionComplete("address", rec)
  {
    assert "cep" in ["cep", "endereco", "cidade", "estado"];
    assert "endereco" in ["cep", "endereco", "cidade", "estado"];
    assert "cidade" in ["cep", "endereco", "cidade", "estado"];
    assert "estado" in ["cep", "endereco", "cidade", "estado"];
  }

  /** The 27 state names the state select offers. */
  function StateOptions(): seq<string>
  {
    ["Acre", "Alagoas", "Amapá", "Amazonas", "Bahia", "Ceará",
     "Distrito Federal", "Espírito Santo", "Goiás", "Maranhão",
     "Mato Grosso", "Mato Grosso do Sul", "Minas Gerais", "Pará",
     "Paraíba", "Paraná", "Pernambuco", "Piauí", "Rio de Janeiro",
     "Rio Grande do Norte", "Rio Grande do Sul", "Rondônia", "Roraima",
     "Santa Catarina", "São Paulo", "Sergipe", "Tocantins"]
  }

  /** The city lists the section knows, keyed by state name. */
  function CityTable(): map<string, seq<string>>
  {
    map[
      "São Paulo" := [
        "Amparo", "Analândia", "Aparecida", "Arujá", "Biritiba Mirim",
        "Caçapava", "Cachoeira Paulista", "Campinas", "Cruzeiro",
        "Ferraz de Vasconcelos", "Guararema", "Guaratinguetá", "Igaratá",
        "Jacareí", "Jambeiro", "Lagoinha", "Lorena", "Mogi das Cruzes",
        "Monteiro Lobato", "Natividade da Serra", "Paraibuna", "Pindamonhangaba",
        "Potim", "Queluz", "Redenção da Serra", "Roseira", "Santa Branca",
        "Santo Antônio do Pinhal", "São Bento do Sapucaí", "São José do Barreiro",
        "São José dos Campos", "São Luiz do Paraitinga", "Silveiras", "Taubaté",
        "Tremembé", "Ubatuba", "São Paulo", "Guarulhos", "Osasco", "Santo André",
        "São Bernardo do Campo", "São Caetano do Sul", "Diadema", "Mauá",
        "Ribeirão Pires", "Rio Grande da Serra"],
      "Rio de Janeiro" := [
        "Rio de Janeiro", "Niterói", "Nova Iguaçu", "Duque de Caxias",
        "São Gonçalo", "Volta Redonda", "Petrópolis", "Magé", "Itaboraí",
        "Mesquita", "Nova Friburgo", "Barra Mansa", "Campos dos Goytacazes",
        "Belford Roxo", "São João de Meriti", "Angra dos Reis", "Cabo Frio",
        "Resende", "Araruama", "Teresópolis"],
      "Minas Gerais" := [
        "Belo Horizonte", "Uberlândia", "Contagem", "Juiz de Fora",
        "Betim", "Montes Claros", "Ribeirão das Neves", "Uberaba",
        "Governador Valadares", "Ipatinga", "Sete Lagoas", "Divinópolis",
        "Santa Luzia", "Ibirité", "Poços de Caldas", "Patos de Minas",
        "Pouso Alegre", "Teófilo Otoni", "Barbacena", "Sabará"]
    ]
  }

  /** The city options for the current state: its table entry, or none for
      a state the table lacks (and for no state at all). */
  function CityOptions(estado: string): (r: seq<string>)
    ensures estado in CityTable() ==> r == CityTable()[estado]
    ensures estado !in CityTable() ==> r == []
  {
    if estado in CityTable() then CityTable()[estado] else []
  }

  lemma TableStates()
    ensures CityTable().Keys == {"São Paulo", "Rio de Janeiro", "Minas Gerais"}
  {
  }

  /** Every state with a city list is one the state select offers and has
      cities; with no state chosen there are no city options. */
  lemma TableKeysOffered(estado: string)
    ensures estado in CityTable() ==> estado in StateOptions() && CityOptions(estado) != []
    ensures estado == "" ==> CityOptions(estado) == []
  {
    TableStates();
  }

  /** What the city select renders: whether it is enabled, its options and
      its placeholder. */
  datatype CitySelect = CitySelect(enabled: bool, options: seq<string>, placeholder: string)

  /** The city select is enabled only while editing with a state chosen; the
      placeholder asks for a state first exactly when none is chosen. */
  function RenderCitySelect(isEditing: bool, estado: string): (r: CitySelect)
    ensures r.enabled <==> isEditing && estado != ""
    ensures r.options == CityOptions(estado)
    ensures estado == "" ==> r.options == [] && r.placeholder == "Selecione primeiro o estado"
    ensures r.enabled ==> r.placeholder == "Selecione a cidade"
  {
    CitySelect(!(!isEditing || estado == ""),
               CityOptions(estado),
               if estado == "" then "Selecione primeiro o estado" else "Selecione a cidade")
  }

  /** `handleInputChange` of the CEP or street input: one write, under the
      input's name. */
  function TextChange(name: string, value: string): seq<Write>
  {
    [Write(name, Str(value))]
  }

  /** `handleSelectChange(field, value)`: the field's write, then, when the
      state changed, a write that clears the city. */
  method SelectChange(field: string, value: string) returns (writes: seq<Write>)
    ensures |writes| >= 1 && writes[0] == Write(field, Str(value))
    ensures field == "estado" ==> writes == [Write("estado", Str(value)), Write("cidade", Str(""))]
    ensures field != "estado" ==> writes == [Write(field, Str(value))]
  {
    writes := [Write(field, Str(value))];
    if field == "estado" {
      writes := writes + [Write("cidade", Str(""))];
    }
  }

  /** After choosing a state the draft holds that state and an empty city,
      whatever city was chosen before; nothing else changes. */
  lemma StateChangeClearsCity(draft: Record, value: string, key: string)
    requires key != "estado" && key != "cidade"
    ensures var after := ApplyWrites(draft, [Write("estado", Str(value)), Write("cidade", Str(""))]);
      && "estado" in after && after["estado"] == Str(value)
      && "cidade" in after && after["cidade"] == Str("")
      && (key in after <==> key in draft)
      && (key in draft ==> after[key] == draft[key])
  {
    var writes := [Write("estado", Str(value)), Write("cidade", Str(""))];
    ApplyWritesLast(draft, writes, 0);
    ApplyWritesLast(draft, writes, 1);
    ApplyWritesUntouched(draft, writes, key);
  }

  /** Choosing a city writes the city and nothing else. */
  lemma CityChangeIsLocal(draft: Record, value: string, key: string)
    requires key != "cidade"
    ensures var after := ApplyWrites(draft, [Write("cidade", Str(value))]);
      && "cidade" in after && after["cidade"] == Str(value)
      && (key in after <==> key in draft)
      && (key in draft ==> after[key] == draft[key])
  {
    ApplyWritesLast(draft, [Write("cidade", Str(value))], 0);
    ApplyWritesUntouched(draft, [Write("cidade", Str(value))], key);
  }

  /** A typed CEP or street changes only the input's own field. */
  lemma TextChangeIsLocal(draft: Record, name: string, value: string, key: string)
    requires key != name
    ensures var after := ApplyWrites(draft, TextChange(name, value));
      && name in after && after[name] == Str(value)
      && (key in after <==> key in draft)
      && (key in draft ==> after[key] == draft[key])
  {
    ApplyWritesLast(draft, TextChange(name, value), 0);
    ApplyWritesUntouched(draft, TextChange(name, value), key);
  }

  /** A user picks a state and a city, then switches state: the city is
      cleared, so the section is no longer complete. */
  method SwitchStateScenario(draft: Record, first: string, city: string, second: string) returns (after: Record)
    ensures "estado" in after && after["estado"] == Str(second)
    ensures "cidade" in after && after["cidade"] == Str("")
    ensures !CheckCompletion(FieldsOf(after))
  {
    var w := SelectChange("estado", first);
    after := ApplyWrites(draft, w);
    w := SelectChange("cidade", city);
    after := ApplyWrites(after, w);
    w := SelectChange("estado", second);
    var before := after;
    after := ApplyWrites(after, w);
    StateChangeClearsCity(before, second, "cep");
  }
}
