/** The `useCaregiverData` hook: loads the signed-in caregiver's row (creating
    a minimal one when none exists), keeps the two acceptance flags, and saves
    an edited row back by update or insert. */
module CaregiverData {
  import opened Common
  import opened DeclarationJson

  /** The two acceptance flags stored as JSON text in the `Declaracao` column.
      The hook holds whatever value the text carried: a checkbox stores a
      boolean, but a truthy string read from the column is kept as it is. */
  datatype Declaration = Declaration(acceptedTerms: Json, acceptedDeclaration: Json)

  const NoAcceptance: Declaration := Declaration(JBool(false), JBool(false))

  /** A flag counts as accepted when its value is truthy. */
  predicate Accepted(flag: Json)
  {
    Truthy(Some(flag))
  }

  /** A flag the hook can hold: `false`, or a truthy scalar that
      `JSON.stringify` writes back. */
  predicate Storable(flag: Json)
  {
    EncodableScalar(flag) && (flag == JBool(false) || Accepted(flag))
  }

  predicate StorableFlags(d: Declaration)
  {
    Storable(d.acceptedTerms) && Storable(d.acceptedDeclaration)
  }

  /** `value || false` for a property read. */
  function OrFalse(v: Option<Json>): (r: Json)
    ensures Truthy(v) ==> Some(r) == v
    ensures !Truthy(v) ==> r == JBool(false)
  {
    if Truthy(v) then v.value else JBool(false)
  }

  function DeclarationMembers(d: Declaration): seq<Member>
  {
    [Member("accepted_terms", d.acceptedTerms),
     Member("accepted_declaration", d.acceptedDeclaration)]
  }

  /** `JSON.stringify({accepted_terms, accepted_declaration})`. */
  function StringifyDeclaration(d: Declaration): string
  {
    Encode(DeclarationMembers(d))
  }

  /** `parseDeclaration`: null or empty text and text `JSON.parse` rejects
      read as "not accepted"; otherwise each flag is the parsed property when
      that is truthy (kept as it is, a string included) and `false` when it
      is missing or falsy. Every result is one the hook can write back. */
  function ParseDeclaration(text: Option<string>): (r: Declaration)
    ensures text == None || text == Some("") ==> r == NoAcceptance
    ensures text.Some? && Parse(text.value).None? ==> r == NoAcceptance
    ensures text.Some? && Parse(text.value).Some? ==>
              var terms := Get(Parse(text.value).value, "accepted_terms");
              (Truthy(terms) ==> Some(r.acceptedTerms) == terms)
              && (!Truthy(terms) ==> r.acceptedTerms == JBool(false))
    ensures text.Some? && Parse(text.value).Some? ==>
              var declaration := Get(Parse(text.value).value, "accepted_declaration");
              (Truthy(declaration) ==> Some(r.acceptedDeclaration) == declaration)
              && (!Truthy(declaration) ==> r.acceptedDeclaration == JBool(false))
    ensures StorableFlags(r)
  {
    match text
    case None => NoAcceptance
    case Some(t) =>
      if t == "" then NoAcceptance
      else match Parse(t)
           case None => NoAcceptance
           case Some(parsed) =>
             ParsedValuesEncodable(t, "accepted_terms");
             ParsedValuesEncodable(t, "accepted_declaration");
             Declaration(OrFalse(Get(parsed, "accepted_terms")), OrFalse(Get(parsed, "accepted_declaration")))
  }

  lemma TermsKeyPlain()
    ensures Plain("accepted_terms")
  {
    PlainChars("accepted_terms");
  }

  lemma DeclarationKeyPlain()
    ensures Plain("accepted_declaration")
  {
    PlainChars("accepted_declaration");
  }

  lemma PairEncodable(a: Member, b: Member)
    requires Plain(a.key) && EncodableScalar(a.value) && Plain(b.key) && EncodableScalar(b.value)
    ensures Encodable([a, b])
  {
    assert [a, b][1..] == [b];
    assert [b][1..] == [];
  }

  lemma DeclarationEncodable(d: Declaration)
    requires EncodableScalar(d.acceptedTerms) && EncodableScalar(d.acceptedDeclaration)
    ensures Encodable(DeclarationMembers(d))
  {
    var ms := DeclarationMembers(d);
    TermsKeyPlain();
    DeclarationKeyPlain();
    PairEncodable(ms[0], ms[1]);
    assert ms == [ms[0], ms[1]];
  }

  /** Each flag is read back from its own member. */
  lemma DeclarationLookup(d: Declaration)
    ensures LastValue(DeclarationMembers(d), "accepted_declaration") == Some(d.acceptedDeclaration)
    ensures LastValue(DeclarationMembers(d), "accepted_terms") == Some(d.acceptedTerms)
  {
    var ms := DeclarationMembers(d);
    assert ms[..1] == [ms[0]];
    assert "accepted_terms" != "accepted_declaration";
  }

  /** Parsing what a save serialised gives each flag back through
      `|| false`, so a flag the hook can hold comes back unchanged. */
  lemma DeclarationRoundTrip(d: Declaration)
    requires EncodableScalar(d.acceptedTerms) && EncodableScalar(d.acceptedDeclaration)
    ensures ParseDeclaration(Some(StringifyDeclaration(d)))
            == Declaration(OrFalse(Some(d.acceptedTerms)), OrFalse(Some(d.acceptedDeclaration)))
    ensures StorableFlags(d) ==> ParseDeclaration(Some(StringifyDeclaration(d))) == d
  {
    var text := StringifyDeclaration(d);
    StringifiedParses(d);
    DeclarationLookup(d);
    assert ParseDeclaration(Some(text))
           == Declaration(OrFalse(LastValue(DeclarationMembers(d), "accepted_terms")),
                          OrFalse(LastValue(DeclarationMembers(d), "accepted_declaration")));
  }

  /** The serialised flags are non-empty text that parses to their object. */
  lemma StringifiedParses(d: Declaration)
    requires EncodableScalar(d.acceptedTerms) && EncodableScalar(d.acceptedDeclaration)
    ensures StringifyDeclaration(d) != ""
    ensures Parse(StringifyDeclaration(d)) == Some(JObject(DeclarationMembers(d)))
  {
    DeclarationEncodable(d);
    RoundTrip(DeclarationMembers(d));
    EncodeShape(DeclarationMembers(d));
  }

  /** The `Declaracao` column as `parseDeclaration` receives it: anything but
      text (a missing column, `null`) reads as no text. */
  function DeclaracaoOf(row: Record): Option<string>
  {
    TextOf(row, "Declaracao")
  }

  /** The authenticated user: email plus the optional name and phone from the
      sign-up metadata. */
  datatype AuthUser = AuthUser(email: string, metaName: Option<string>, metaPhone: Option<string>)

  /** `user?.email` is truthy. */
  predicate HasEmail(user: Option<AuthUser>)
  {
    user.Some? && user.value.email != ""
  }

  /** The lookup by email: the row found and the error code, if any. */
  datatype FetchResponse = FetchResponse(data: Option<Record>, errorCode: Option<string>)

  /** The code the backend gives when `.single()` finds no row. */
  const NotFoundCode: string := "PGRST116"

  datatype FetchStep = StopOnError | UseRow(row: Record) | CreateRecord

  /** What `fetchCaregiverData` does with the lookup's answer. */
  function FetchDecision(resp: FetchResponse): (step: FetchStep)
    ensures step == StopOnError <==> resp.errorCode.Some? && resp.errorCode.value != NotFoundCode
    ensures step.UseRow? <==> step != StopOnError && resp.data.Some?
    ensures step.UseRow? ==> step.row == resp.data.value
    ensures step == CreateRecord <==> resp.data.None? && resp.errorCode in {None, Some(NotFoundCode)}
  {
    if resp.errorCode.Some? && resp.errorCode.value != NotFoundCode then StopOnError
    else if resp.data.Some? then UseRow(resp.data.value)
    else CreateRecord
  }

  /** The row inserted for a caregiver who has none yet. */
  function MinimalRecord(user: AuthUser, now: string): (r: Record)
    ensures r.Keys == {"email", "nome", "telefone", "updated_at"}
    ensures r["email"] == Str(user.email) && r["updated_at"] == Str(now)
    ensures user.metaName.Some? ==> r["nome"] == Str(user.metaName.value)
    ensures user.metaName.None? ==> r["nome"] == Str("")
    ensures user.metaPhone.Some? ==> r["telefone"] == Str(user.metaPhone.value)
    ensures user.metaPhone.None? ==> r["telefone"] == Str("")
  {
    map["email" := Str(user.email),
        "nome" := Str(user.metaName.GetOr("")),
        "telefone" := Str(user.metaPhone.GetOr("")),
        "updated_at" := Str(now)]
  }

  /** The row `saveData` sends: the edited row with the signed-in email, the
      serialised flags and a fresh timestamp written over whatever it held. */
  function SavePayload(editData: Record, email: string, d: Declaration, now: string): (r: Record)
    ensures r.Keys == editData.Keys + {"email", "Declaracao", "updated_at"}
    ensures r["email"] == Str(email)
    ensures r["Declaracao"] == Str(StringifyDeclaration(d))
    ensures r["updated_at"] == Str(now)
    ensures forall k :: k in editData && k !in {"email", "Declaracao", "updated_at"} ==> r[k] == editData[k]
  {
    editData["email" := Str(email)]["Declaracao" := Str(StringifyDeclaration(d))]["updated_at" := Str(now)]
  }

  datatype WriteRequest = UpdateById(id: Value, payload: Record) | Insert(payload: Record)

  /** Update by id when the loaded row has a truthy id, insert otherwise. */
  function ChooseWrite(dados: Option<Record>, payload: Record): (r: WriteRequest)
    ensures r.payload == payload
    ensures r.UpdateById? <==> dados.Some? && Filled(dados.value, "id")
    ensures r.UpdateById? ==> r.id == dados.value["id"]
  {
    if dados.Some? && Filled(dados.value, "id") then UpdateById(dados.value["id"], payload)
    else Insert(payload)
  }

  /** What the backend answered to a write: the stored row, or an error. */
  datatype WriteResponse = Written(row: Record) | WriteFailed

  /** What a backend that stores the payload unchanged hands back keeps the
      flags the save serialised. */
  lemma SaveKeepsAcceptances(editData: Record, email: string, d: Declaration, now: string, row: Record)
    requires StorableFlags(d)
    requires "Declaracao" in row && row["Declaracao"] == SavePayload(editData, email, d, now)["Declaracao"]
    ensures ParseDeclaration(DeclaracaoOf(row)) == d
  {
    DeclarationRoundTrip(d);
  }

  class Store {
    var dados: Option<Record>
    var loading: bool
    var saving: bool
    var acceptedTerms: Json
    var acceptedDeclaration: Json

    /** The flags are always ones the hook can write back. */
    ghost predicate Valid()
      reads this
    {
      StorableFlags(Flags())
    }

    constructor ()
      ensures Valid()
      ensures dados == None && loading && !saving && Flags() == NoAcceptance
    {
      dados := None;
      loading, saving := true, false;
      acceptedTerms, acceptedDeclaration := JBool(false), JBool(false);
    }

    function Flags(): Declaration
      reads this
    {
      Declaration(acceptedTerms, acceptedDeclaration)
    }

    /** `setAcceptedTerms`, which the hook hands to the terms checkbox. */
    method SetAcceptedTerms(accepted: bool)
      requires Valid()
      modifies this`acceptedTerms
      ensures Valid()
      ensures Flags() == old(Flags()).(acceptedTerms := JBool(accepted))
    {
      acceptedTerms := JBool(accepted);
    }

    /** `setAcceptedDeclaration`, which the hook hands to the declaration
        checkbox. */
    method SetAcceptedDeclaration(accepted: bool)
      requires Valid()
      modifies this`acceptedDeclaration
      ensures Valid()
      ensures Flags() == old(Flags()).(acceptedDeclaration := JBool(accepted))
    {
      acceptedDeclaration := JBool(accepted);
    }

    /** `fetchCaregiverData`. `insertAnswer` is what the backend would answer
        to the insert; `inserted` is the row sent, if an insert was made. */
    method Fetch(user: Option<AuthUser>, resp: FetchResponse, insertAnswer: WriteResponse, now: string)
      returns (inserted: Option<Record>)
      requires Valid()
      modifies this`dados, this`loading, this`acceptedTerms, this`acceptedDeclaration
      ensures Valid()
      ensures !loading
      ensures !HasEmail(user) ==> inserted == None && dados == old(dados) && Flags() == old(Flags())
      ensures HasEmail(user) && FetchDecision(resp) == StopOnError ==>
                inserted == None && dados == old(dados) && Flags() == old(Flags())
      ensures HasEmail(user) && FetchDecision(resp).UseRow? ==>
                inserted == None && dados == Some(resp.data.value)
                && Flags() == ParseDeclaration(DeclaracaoOf(resp.data.value))
      ensures HasEmail(user) && FetchDecision(resp) == CreateRecord ==>
                inserted == Some(MinimalRecord(user.value, now)) && Flags() == old(Flags())
                && dados == (if insertAnswer.Written? then Some(insertAnswer.row) else old(dados))
    {
      inserted := None;
      if !HasEmail(user) {
        loading := false;
        return;
      }
      var step := FetchDecision(resp);
      match step {
        case StopOnError =>
        case UseRow(row) =>
          dados := Some(row);
          var declaration := ParseDeclaration(DeclaracaoOf(row));
          acceptedTerms := declaration.acceptedTerms;
          acceptedDeclaration := declaration.acceptedDeclaration;
        case CreateRecord =>
          var newRecord := MinimalRecord(user.value, now);
          inserted := Some(newRecord);
          if insertAnswer.Written? {
            dados := Some(insertAnswer.row);
          }
      }
      loading := false;
    }

    /** `saveData` (the hook's own). `request` is the write sent, if any. */
    method Save(editData: Record, user: Option<AuthUser>, now: string, answer: WriteResponse)
      returns (ok: bool, request: Option<WriteRequest>)
      requires Valid()
      modifies this`dados, this`saving, this`acceptedTerms, this`acceptedDeclaration
      ensures Valid()
      ensures !HasEmail(user) ==>
                !ok && request == None && dados == old(dados) && Flags() == old(Flags()) && saving == old(saving)
      ensures HasEmail(user) ==> !saving
      ensures HasEmail(user) ==>
                request == Some(ChooseWrite(old(dados), SavePayload(editData, user.value.email, old(Flags()), now)))
      ensures HasEmail(user) && answer.WriteFailed? ==> !ok && dados == old(dados) && Flags() == old(Flags())
      ensures HasEmail(user) && answer.Written? ==>
                ok && dados == Some(answer.row) && Flags() == ParseDeclaration(DeclaracaoOf(answer.row))
      ensures HasEmail(user) && answer.Written?
              && DeclaracaoOf(answer.row) == Some(StringifyDeclaration(old(Flags())))
              ==> Flags() == old(Flags())
    {
      if !HasEmail(user) {
        return false, None;
      }
      saving := true;
      var payload := SavePayload(editData, user.value.email, Declaration(acceptedTerms, acceptedDeclaration), now);
      request := Some(ChooseWrite(dados, payload));
      if answer.WriteFailed? {
        ok := false;
      } else {
        dados := Some(answer.row);
        var declaration := ParseDeclaration(DeclaracaoOf(answer.row));
        DeclarationRoundTrip(old(Flags()));
        acceptedTerms := declaration.acceptedTerms;
        acceptedDeclaration := declaration.acceptedDeclaration;
        ok := true;
      }
      saving := false;
    }
  }
}
