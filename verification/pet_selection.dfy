/** The first step of the booking wizard: choosing one of the user's pets, or
    registering a new one in a form shown in place of the list. */
module PetSelection {
  import opened Wrappers
  import opened Seqs
  import opened Records
  import PetForm

  /** The screen's own state. `pets` is the list of the screen's `usePets`
      instance; the registration form runs a separate instance of the hook. */
  datatype PetSelectionState = PetSelectionState(selectedPet: string, showForm: bool, pets: seq<Pet>)

  function Initial(pets: seq<Pet>): PetSelectionState {
    PetSelectionState("", false, pets)
  }

  /** `handleNext`: `onNext` receives the selection only when one was made. */
  function HandleNext(s: PetSelectionState): (next: Option<string>)
    ensures next.Some? <==> s.selectedPet != ""
    ensures next.Some? ==> next.value == s.selectedPet
  {
    if s.selectedPet != "" then Some(s.selectedPet) else None
  }

  /** The select's `onValueChange`. */
  function Choose(s: PetSelectionState, petId: string): (r: PetSelectionState)
    ensures r.selectedPet == petId && r.showForm == s.showForm && r.pets == s.pets
  {
    s.(selectedPet := petId)
  }

  /** "Cadastrar novo pet" / "Cadastrar meu primeiro pet". */
  function OpenForm(s: PetSelectionState): (r: PetSelectionState)
    ensures r.showForm && r.selectedPet == s.selectedPet && r.pets == s.pets
  {
    s.(showForm := true)
  }

  /** The form's back button: the form closes and the selection stays. */
  function CloseForm(s: PetSelectionState): (r: PetSelectionState)
    ensures !r.showForm && r.selectedPet == s.selectedPet && r.pets == s.pets
  {
    s.(showForm := false)
  }

  /** `handlePetRegistrationSuccess` as written: the new id is selected and
      the form closes, while the screen's list stays as it was. */
  function RegistrationSucceeded(s: PetSelectionState, petId: string): (r: PetSelectionState)
    ensures r.selectedPet == petId && !r.showForm && r.pets == s.pets
  {
    s.(selectedPet := petId, showForm := false)
  }

  /** Registration success with the new pet also placed at the head of the
      screen's list, as `addPet` does for the instance that inserted it. */
  function RegistrationSucceededShared(s: PetSelectionState, newPet: Pet): (r: PetSelectionState)
    ensures r.selectedPet == newPet.id && !r.showForm && r.pets == [newPet] + s.pets
  {
    s.(selectedPet := newPet.id, showForm := false, pets := [newPet] + s.pets)
  }

  /** `pets.find(p => p.id === selectedPet)`. */
  function SelectedPet(pets: seq<Pet>, selected: string): (r: Option<Pet>)
    ensures r.Some? ==> r.value in pets && r.value.id == selected
    ensures r.None? <==> forall p | p in pets :: p.id != selected
  {
    Find((p: Pet) => p.id == selected, pets)
  }

  /** What the screen shows. In the picker the details panel is present only
      for a non-empty selection, and holds the matching pet if there is one. */
  datatype PetView =
    | RegistrationForm
    | LoadingPets
    | NoPets
    | Picker(options: seq<Pet>, panel: Option<Option<Pet>>, buttonDisabled: bool)

  function View(s: PetSelectionState, loading: bool): (v: PetView)
    ensures v.RegistrationForm? <==> s.showForm
    ensures v.LoadingPets? <==> !s.showForm && loading
    ensures v.NoPets? <==> !s.showForm && !loading && s.pets == []
    ensures v.Picker? ==> v.options == s.pets && (v.buttonDisabled <==> s.selectedPet == "")
    ensures v.Picker? ==> (v.panel.Some? <==> s.selectedPet != "")
    ensures v.Picker? && v.panel.Some? ==> v.panel.value == SelectedPet(s.pets, s.selectedPet)
  {
    if s.showForm then RegistrationForm
    else if loading then LoadingPets
    else if |s.pets| == 0 then NoPets
    else Picker(s.pets, if s.selectedPet != "" then Some(SelectedPet(s.pets, s.selectedPet)) else None,
                s.selectedPet == "")
  }

  // ---------------------------------------------------------------- lemmas

  /** Opening and then backing out of the form returns to the same screen state. */
  lemma FormRoundTrip(s: PetSelectionState)
    requires !s.showForm
    ensures CloseForm(OpenForm(s)) == s
  {
  }

  /** As written, registering the user's first pet leads back to the empty
      screen: the new id is selected, yet the screen shows "Nenhum pet
      cadastrado" and offers no button that would pass the selection on. */
  lemma FirstPetStaysHidden(s: PetSelectionState, petId: string)
    requires s.showForm && s.pets == [] && petId != ""
    ensures var r := RegistrationSucceeded(s, petId);
      && HandleNext(r) == Some(petId)
      && View(r, false) == NoPets
  {
  }

  /** With the new pet shared into the screen's list, the picker comes back
      with the new pet selected, its details in the panel and the button enabled. */
  lemma RegisteredPetShown(s: PetSelectionState, newPet: Pet)
    requires s.showForm && newPet.id != ""
    ensures var r := RegistrationSucceededShared(s, newPet);
      && HandleNext(r) == Some(newPet.id)
      && View(r, false) == Picker(r.pets, Some(Some(newPet)), false)
  {
    var r := RegistrationSucceededShared(s, newPet);
    assert r.pets[0] == newPet;
  }

  /** The panel never shows a pet other than the selected one. */
  lemma PanelShowsSelected(s: PetSelectionState)
    requires View(s, false).Picker? && View(s, false).panel.Some? && View(s, false).panel.value.Some?
    ensures View(s, false).panel.value.value.id == s.selectedPet
    ensures View(s, false).panel.value.value in s.pets
  {
  }

  /** The form and the screen together. A successful registration calls
      `onSuccess` with the new pet's id, which the screen selects; the new pet
      joins the list of the form's own hook instance only. With the pet
      shared into the screen's list, the picker shows it as selected. */
  lemma RegistrationFlow(s: PetSelectionState, f: PetForm.PetFormData, userId: string, formPets: seq<Pet>,
                         parseInt: string -> int, parseFloat: string -> real, rows: seq<Pet>)
    requires s.showForm && userId != "" && rows != [] && rows[0].id != ""
    ensures PetForm.Submit(f, userId, formPets, parseInt, parseFloat, Ok(rows)).onSuccess == Some(rows[0].id)
    ensures var r := RegistrationSucceeded(s, rows[0].id);
      r.selectedPet == rows[0].id && r.pets == s.pets
    ensures var r := RegistrationSucceededShared(s, rows[0]);
      View(r, false) == Picker(r.pets, Some(Some(rows[0])), false)
  {
    RegisteredPetShown(s, rows[0]);
  }
}
