/** The pet registration form: eight text fields and a vaccination switch,
    the validity check behind the submit button, and the submit handler that
    turns empty fields into absent columns and inserts the pet through its own
    instance of the pets hook. */
module PetForm {
  import opened Wrappers
  import opened Text
  import opened Records
  import Pets

  /** `formData`: every input holds a string; the switch holds a boolean. */
  datatype PetFormData = PetFormData(
    nome: string,
    especie: string,
    raca: string,
    idade: string,
    peso: string,
    sexo: string,
    cor: string,
    observacoes: string,
    vacinacaoEmDia: bool)

  const EmptyForm: PetFormData := PetFormData("", "", "", "", "", "", "", "", false)

  /** The text fields `handleChange` is called with. */
  datatype TextField = Nome | Especie | Raca | Idade | Peso | Sexo | Cor | Observacoes

  function Get(f: PetFormData, field: TextField): string {
    match field
    case Nome => f.nome
    case Especie => f.especie
    case Raca => f.raca
    case Idade => f.idade
    case Peso => f.peso
    case Sexo => f.sexo
    case Cor => f.cor
    case Observacoes => f.observacoes
  }

  /** `handleChange(field, value)` for a text field: only that field changes. */
  function SetText(f: PetFormData, field: TextField, value: string): (r: PetFormData)
    ensures Get(r, field) == value
    ensures forall other: TextField | other != field :: Get(r, other) == Get(f, other)
    ensures r.vacinacaoEmDia == f.vacinacaoEmDia
  {
    match field
    case Nome => f.(nome := value)
    case Especie => f.(especie := value)
    case Raca => f.(raca := value)
    case Idade => f.(idade := value)
    case Peso => f.(peso := value)
    case Sexo => f.(sexo := value)
    case Cor => f.(cor := value)
    case Observacoes => f.(observacoes := value)
  }

  /** `handleChange("vacinacao_em_dia", checked)`: only the switch changes. */
  function SetVaccinated(f: PetFormData, checked: bool): (r: PetFormData)
    ensures r.vacinacaoEmDia == checked
    ensures forall field: TextField :: Get(r, field) == Get(f, field)
  {
    f.(vacinacaoEmDia := checked)
  }

  /** `formData.nome.trim() && formData.especie.trim()`: the form is valid
      exactly when neither name nor species is blank. */
  function IsFormValid(f: PetFormData): (b: bool)
    ensures b <==> !IsBlank(f.nome) && !IsBlank(f.especie)
  {
    TrimEmptyIffBlank(f.nome);
    TrimEmptyIffBlank(f.especie);
    Trim(f.nome) != "" && Trim(f.especie) != ""
  }

  /** `disabled={!isFormValid || loading}`: a blank name or species, or a
      submission in flight, keeps the button disabled. */
  function SubmitDisabled(f: PetFormData, loading: bool): (b: bool)
    ensures b <==> loading || IsBlank(f.nome) || IsBlank(f.especie)
  {
    !IsFormValid(f) || loading
  }

  /** `petData`. `parseInt` and `parseFloat` are JavaScript's number parsers,
      taken as given functions. */
  function PetData(f: PetFormData, parseInt: string -> int, parseFloat: string -> real): (d: NewPet)
    ensures d.nome == f.nome && d.especie == f.especie && d.vacinacaoEmDia == f.vacinacaoEmDia
    ensures d.raca == NonEmpty(f.raca) && d.sexo == NonEmpty(f.sexo)
    ensures d.cor == NonEmpty(f.cor) && d.observacoes == NonEmpty(f.observacoes)
    ensures d.idade.None? <==> f.idade == ""
    ensures d.idade.Some? ==> d.idade.value == parseInt(f.idade)
    ensures d.peso.None? <==> f.peso == ""
    ensures d.peso.Some? ==> d.peso.value == parseFloat(f.peso)
  {
    NewPet(
      nome := f.nome,
      especie := f.especie,
      raca := NonEmpty(f.raca),
      idade := if f.idade != "" then Some(parseInt(f.idade)) else None,
      peso := if f.peso != "" then Some(parseFloat(f.peso)) else None,
      sexo := NonEmpty(f.sexo),
      cor := NonEmpty(f.cor),
      observacoes := NonEmpty(f.observacoes),
      vacinacaoEmDia := f.vacinacaoEmDia)
  }

  /** What `handleSubmit` does: the call of `addPet` on the form's own pets
      list, and the id passed to `onSuccess` if it is called. */
  datatype FormSubmit = FormSubmit(call: Pets.AddCall, onSuccess: Option<string>)

  /** `handleSubmit`. `userId` is the prop (`user?.id || ""`), `formPets` the
      list of the form's own hook instance, and `insert` the backend's answer. */
  function Submit(f: PetFormData, userId: string, formPets: seq<Pet>,
                  parseInt: string -> int, parseFloat: string -> real,
                  insert: Outcome<seq<Pet>>): (r: FormSubmit)
    ensures r.call == Pets.AddPet(Some(userId), formPets, PetData(f, parseInt, parseFloat), insert)
    ensures r.onSuccess.Some? <==> userId != "" && insert.Ok? && insert.value != []
    ensures r.onSuccess.Some? ==> r.onSuccess.value == insert.value[0].id
  {
    var call := Pets.AddPet(Some(userId), formPets, PetData(f, parseInt, parseFloat), insert);
    match call.reply
    case Failed(_) => FormSubmit(call, None)
    case Done(pet) => FormSubmit(call, Some(pet.id))
  }

  // ---------------------------------------------------------------- lemmas

  /** Typing into one input changes only that column of the payload, and
      the switch only the vaccination column: an optional column follows the
      new text, absent when it is empty. */
  lemma EditChangesOneColumn(f: PetFormData, field: TextField, v: string, checked: bool,
                             parseInt: string -> int, parseFloat: string -> real)
    ensures var before, after := PetData(f, parseInt, parseFloat), PetData(SetText(f, field, v), parseInt, parseFloat);
      && (field == Nome ==> after == before.(nome := v))
      && (field == Especie ==> after == before.(especie := v))
      && (field == Raca ==> after == before.(raca := NonEmpty(v)))
      && (field == Idade ==> after == before.(idade := if v == "" then None else Some(parseInt(v))))
      && (field == Peso ==> after == before.(peso := if v == "" then None else Some(parseFloat(v))))
      && (field == Sexo ==> after == before.(sexo := NonEmpty(v)))
      && (field == Cor ==> after == before.(cor := NonEmpty(v)))
      && (field == Observacoes ==> after == before.(observacoes := NonEmpty(v)))
    ensures PetData(SetVaccinated(f, checked), parseInt, parseFloat)
         == PetData(f, parseInt, parseFloat).(vacinacaoEmDia := checked)
  {
  }

  /** Setting a field to the value it already holds leaves the form as it is,
      and setting two different fields commutes. */
  lemma SetTextCommutes(f: PetFormData, a: TextField, va: string, b: TextField, vb: string)
    requires a != b
    ensures SetText(f, a, Get(f, a)) == f
    ensures SetText(SetText(f, a, va), b, vb) == SetText(SetText(f, b, vb), a, va)
  {
  }

  /** The empty optional fields of a freshly opened form are all sent as absent. */
  lemma EmptyOptionalFieldsAbsent(nome: string, especie: string, parseInt: string -> int, parseFloat: string -> real)
    ensures var d := PetData(EmptyForm.(nome := nome, especie := especie), parseInt, parseFloat);
      && d.raca.None? && d.idade.None? && d.peso.None? && d.sexo.None?
      && d.cor.None? && d.observacoes.None? && !d.vacinacaoEmDia
  {
  }

  /** On success the pet is inserted with the prop's user id and the form's
      data, and the form's own list gains the new pet at its head. */
  lemma SuccessInsertsForUser(f: PetFormData, userId: string, formPets: seq<Pet>,
                              parseInt: string -> int, parseFloat: string -> real, rows: seq<Pet>)
    requires userId != "" && rows != []
    ensures var r := Submit(f, userId, formPets, parseInt, parseFloat, Ok(rows));
      && r.call.sent == Some(Pets.PetInsert(PetData(f, parseInt, parseFloat), userId))
      && r.call.pets == [rows[0]] + formPets
      && r.onSuccess == Some(rows[0].id)
  {
  }

  /** Without a signed-in user (the prop is `""`), nothing is inserted and
      `onSuccess` is not called. */
  lemma NoUserNoInsert(f: PetFormData, formPets: seq<Pet>, parseInt: string -> int,
                       parseFloat: string -> real, insert: Outcome<seq<Pet>>)
    ensures var r := Submit(f, "", formPets, parseInt, parseFloat, insert);
      r.call.sent.None? && r.onSuccess.None? && r.call.reply == Pets.Failed(Pets.NotAuthenticated)
  {
  }
}
