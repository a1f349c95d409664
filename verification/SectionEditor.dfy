/** The caregiver profile page (`CadastrarCuidador`): an accordion of sections,
    each switched between viewing and editing, over one persisted snapshot
    (`candidatoData`) and one shared draft (`editFormData`). */
module SectionEditor {
  import opened Common

  /** The parts of a change event `handleInputChange` reads. */
  datatype InputEvent = InputEvent(name: string, value: string, isCheckbox: bool, checked: bool)

  /** Column that a successful save stamps with the current time. */
  const TimestampField: string := "ultima_atualizacao"

  /** The value an input event writes: a checkbox its `checked` flag, any
      other control its text. */
  function EventValue(e: InputEvent): Value
  {
    if e.isCheckbox then Bool(e.checked) else Str(e.value)
  }

  /** The draft after `handleInputChange(e)`: only the key named by the
      control changes. */
  function ApplyInput(draft: Record, e: InputEvent): (r: Record)
    ensures e.name in r
    ensures e.isCheckbox ==> r[e.name] == Bool(e.checked)
    ensures !e.isCheckbox ==> r[e.name] == Str(e.value)
    ensures forall k :: k != e.name ==> (k in r <==> k in draft)
    ensures forall k :: k != e.name && k in draft ==> r[k] == draft[k]
  {
    draft[e.name := EventValue(e)]
  }

  /** The `updateData` a save sends: the whole draft plus a fresh timestamp. */
  function UpdateData(draft: Record, now: string): (r: Record)
    ensures r.Keys == draft.Keys + {TimestampField}
    ensures r[TimestampField] == Str(now)
    ensures forall k :: k in draft && k != TimestampField ==> r[k] == draft[k]
  {
    draft[TimestampField := Str(now)]
  }

  /** `{...base, ...overlay}`: every key of the overlay wins. */
  function Overlay(base: Record, overlay: Record): (r: Record)
    ensures r.Keys == base.Keys + overlay.Keys
    ensures forall k :: k in overlay ==> r[k] == overlay[k]
    ensures forall k :: k in base && k !in overlay ==> r[k] == base[k]
  {
    base + overlay
  }

  /** After a successful save each drafted field reads as drafted, the
      timestamp is the new one, and fields the draft lacks keep their value. */
  lemma SavedSnapshotAt(base: Record, draft: Record, now: string, k: string)
    ensures var saved := Overlay(base, UpdateData(draft, now));
      && saved[TimestampField] == Str(now)
      && (k in draft && k != TimestampField ==> saved[k] == draft[k])
      && (k !in draft && k != TimestampField ==> (k in saved <==> k in base))
      && (k !in draft && k != TimestampField && k in base ==> saved[k] == base[k])
  {
  }

  /** The required fields of each progress-overview section. */
  function RequiredFields(section: string): seq<string>
  {
    match section
    case "personal" => ["nome", "telefone", "data_nascimento"]
    case "address" => ["cep", "endereco", "cidade", "estado"]
    case "education" => ["escolaridade", "cargo"]
    case "experience" => ["possui_experiencia", "disponibilidade_horarios"]
    case "references" => ["referencia_1"]
    case _ => []
  }

  const KnownSections: set<string> := {"personal", "address", "education", "experience", "references"}

  /** `checkSectionCompletion(section)` evaluated on a record. */
  predicate SectionComplete(section: string, rec: Record)
    ensures SectionComplete(section, rec) <==>
      section in KnownSections && forall f :: f in RequiredFields(section) ==> Filled(rec, f)
  {
    match section
    case "personal" => Filled(rec, "nome") && Filled(rec, "telefone") && Filled(rec, "data_nascimento")
    case "address" =>
      Filled(rec, "cep") && Filled(rec, "endereco") && Filled(rec, "cidade") && Filled(rec, "estado")
    case "education" => Filled(rec, "escolaridade") && Filled(rec, "cargo")
    case "experience" => Filled(rec, "possui_experiencia") && Filled(rec, "disponibilidade_horarios")
    case "references" => Filled(rec, "referencia_1")
    case _ => false
  }

  const RegistrationFields: seq<string> :=
    ["escolaridade", "disponibilidade_horarios", "cargo", "experiencia", "referencias"]

  /** `isRegistrationIncomplete`: the "complete your registration" banner. */
  predicate RegistrationIncomplete(rec: Record)
    ensures RegistrationIncomplete(rec) <==> exists f :: f in RegistrationFields && !Filled(rec, f)
  {
    !Filled(rec, "escolaridade") || !Filled(rec, "disponibilidade_horarios") || !Filled(rec, "cargo")
    || !Filled(rec, "experiencia") || !Filled(rec, "referencias")
  }

  datatype Phase = Viewing | Editing | Saving

  /** The request `handleSectionSave` sends: update the row whose id the
      snapshot holds (`undefined` when it has none). */
  datatype UpdateRequest = UpdateRequest(id: Option<Value>, payload: Record)

  /** What the backend answered to the update. */
  datatype SaveOutcome = Saved | Failed(message: string)

  /** The suspended `handleSectionSave` call: its section, the snapshot its
      closure captured and the payload it sent. */
  datatype Pending = Pending(section: string, base: Record, payload: Record)

  class Editor {
    var snapshot: Record          // candidatoData
    var draft: Record             // editFormData
    var editing: map<string, bool> // editingSections
    var saving: bool
    var pending: Option<Pending>

    /** A save is in flight exactly while `saving` is set, and nothing but its
        completion changes the snapshot meanwhile. */
    ghost predicate Valid()
      reads this
    {
      (saving <==> pending.Some?) && (pending.Some? ==> pending.value.base == snapshot)
    }

    /** State right after the row was loaded: snapshot and draft both the row. */
    constructor (row: Record)
      ensures Valid()
      ensures snapshot == row && draft == row && editing == map[] && !saving
    {
      snapshot, draft := row, row;
      editing := map[];
      saving := false;
      pending := None;
    }

    predicate IsEditing(section: string)
      reads this
    {
      section in editing && editing[section]
    }

    function PhaseOf(section: string): Phase
      reads this
    {
      if pending.Some? && pending.value.section == section then Saving
      else if IsEditing(section) then Editing
      else Viewing
    }

    /** Save buttons are `disabled={saving}`. */
    predicate SaveEnabled()
      reads this
    {
      !saving
    }

    /** Progress indicators read the snapshot, never the draft. */
    predicate IsComplete(section: string)
      reads this
    {
      SectionComplete(section, snapshot)
    }

    method InputChange(e: InputEvent)
      requires Valid()
      modifies this`draft
      ensures Valid()
      ensures draft == ApplyInput(old(draft), e)
      ensures forall s :: IsComplete(s) == old(IsComplete(s))
    {
      draft := draft[e.name := EventValue(e)];
    }

    /** `handleSectionEdit`: raises the section's flag; the draft is left as is. */
    method Edit(section: string)
      requires Valid()
      modifies this`editing
      ensures Valid()
      ensures editing == old(editing)[section := true]
      ensures IsEditing(section)
      ensures !saving ==> PhaseOf(section) == Editing
    {
      editing := editing[section := true];
    }

    /** `handleSectionCancel`: the whole shared draft is reset from the
        snapshot, whichever section asked. */
    method Cancel(section: string)
      requires Valid()
      modifies this`draft, this`editing
      ensures Valid()
      ensures draft == snapshot
      ensures editing == old(editing)[section := false]
      ensures pending.Some? && pending.value.section == section ==> PhaseOf(section) == Saving
      ensures !(pending.Some? && pending.value.section == section) ==> PhaseOf(section) == Viewing
    {
      draft := snapshot;
      editing := editing[section := false];
    }

    /** The click on a section's Save button up to the awaited update call.
        While a save is in flight the button is disabled and nothing happens. */
    method BeginSave(section: string, now: string) returns (request: Option<UpdateRequest>)
      requires Valid()
      modifies this`saving, this`pending
      ensures Valid()
      ensures old(saving) ==> request == None && saving && pending == old(pending)
      ensures !old(saving) ==> saving && PhaseOf(section) == Saving
      ensures !old(saving) ==> pending == Some(Pending(section, snapshot, UpdateData(draft, now)))
      ensures !old(saving) ==>
        request == Some(UpdateRequest(if "id" in snapshot then Some(snapshot["id"]) else None,
                                      UpdateData(draft, now)))
    {
      if saving {
        return None;
      }
      saving := true;
      var updateData := draft[TimestampField := Str(now)];
      pending := Some(Pending(section, snapshot, updateData));
      var id := if "id" in snapshot then Some(snapshot["id"]) else None;
      request := Some(UpdateRequest(id, updateData));
    }

    /** The rest of `handleSectionSave` once the backend answered. */
    method CompleteSave(outcome: SaveOutcome)
      requires Valid() && saving
      modifies this`snapshot, this`editing, this`saving, this`pending
      ensures Valid()
      ensures !saving && pending == None
      ensures outcome.Saved? ==>
        snapshot == Overlay(old(snapshot), old(pending).value.payload)
      ensures outcome.Saved? ==> editing == old(editing)[old(pending).value.section := false]
      ensures outcome.Saved? ==> PhaseOf(old(pending).value.section) == Viewing
      ensures outcome.Failed? ==> snapshot == old(snapshot) && editing == old(editing)
      ensures outcome.Failed? ==>
        PhaseOf(old(pending).value.section) == (if IsEditing(old(pending).value.section) then Editing else Viewing)
    {
      var p := pending.value;
      if outcome.Saved? {
        snapshot := p.base + p.payload;
        editing := editing[p.section := false];
      }
      saving := false;
      pending := None;
    }
  }

  /** Opening a section and cancelling it again restores the draft to the
      snapshot and leaves the snapshot as it was. */
  method EditThenCancel(ed: Editor, section: string)
    requires ed.Valid()
    modifies ed
    ensures ed.Valid()
    ensures ed.snapshot == old(ed.snapshot) && ed.draft == ed.snapshot
    ensures ed.editing == old(ed.editing)[section := false]
  {
    ed.Edit(section);
    ed.Cancel(section);
  }

  /** A failed save loses nothing: snapshot, draft and edit flags are as they
      were before the click, and the Save button is enabled again. */
  method FailedSaveKeepsState(ed: Editor, section: string, now: string, message: string)
    requires ed.Valid() && !ed.saving
    modifies ed
    ensures ed.Valid() && ed.SaveEnabled()
    ensures ed.snapshot == old(ed.snapshot) && ed.draft == old(ed.draft)
    ensures ed.editing == old(ed.editing)
  {
    var request := ed.BeginSave(section, now);
    ed.CompleteSave(Failed(message));
  }

  /** With two sections open (the accordion is `type="multiple"`), cancelling
      one discards the pending edit of the other, which stays open. */
  method CancelDiscardsOtherSection() returns (ed: Editor)
    ensures ed.IsEditing("address") && !ed.IsEditing("personal")
    ensures "cep" in ed.draft && ed.draft["cep"] == Str("")
  {
    ed := new Editor(map["nome" := Str("Ana"), "cep" := Str("")]);
    ed.Edit("personal");
    ed.Edit("address");
    ed.InputChange(InputEvent("cep", "01001000", false, false));
    assert ed.draft["cep"] == Str("01001000");
    ed.Cancel("personal");
  }
}
