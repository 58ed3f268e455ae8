/** The profile screen: a read-only view of the signed-in user's profile and
    an edit mode with a form of three fields, saved to the backend or
    discarded. */
module ProfileScreen {
  import opened Wrappers
  import opened Records

  /** `formData`. */
  datatype ProfileForm = ProfileForm(nome: string, telefone: string, cpf: string)

  datatype ProfileState = ProfileState(editing: bool, form: ProfileForm)

  /** The form filled from the profile, each missing or empty field as `""`. */
  function FormFrom(profile: Option<Profile>): (f: ProfileForm)
    ensures profile.None? ==> f == ProfileForm("", "", "")
    ensures profile.Some? ==>
      && f.nome == OrElse(profile.value.nome, "")
      && f.telefone == OrElse(profile.value.telefone, "")
      && f.cpf == OrElse(profile.value.cpf, "")
  {
    if profile.None? then ProfileForm("", "", "")
    else ProfileForm(OrElse(profile.value.nome, ""), OrElse(profile.value.telefone, ""), OrElse(profile.value.cpf, ""))
  }

  function Initial(profile: Option<Profile>): ProfileState {
    ProfileState(false, FormFrom(profile))
  }

  /** The effect on `[profile]`: a new profile refills the form; a profile
      that became absent leaves it. The edit mode is not touched. */
  function ProfileChanged(s: ProfileState, profile: Option<Profile>): (r: ProfileState)
    ensures r.editing == s.editing
    ensures profile.Some? ==> r.form == FormFrom(profile)
    ensures profile.None? ==> r == s
  {
    if profile.Some? then s.(form := FormFrom(profile)) else s
  }

  /** The edit button: `setIsEditing(!isEditing)`; the form is left as it is. */
  function ToggleEdit(s: ProfileState): (r: ProfileState)
    ensures r.editing != s.editing && r.form == s.form
  {
    s.(editing := !s.editing)
  }

  datatype ProfileField = Nome | Telefone | Cpf

  /** Typing into one of the inputs shown in edit mode. */
  function Edit(s: ProfileState, field: ProfileField, value: string): (r: ProfileState)
    ensures r.editing == s.editing
    ensures field == Nome ==> r.form == s.form.(nome := value)
    ensures field == Telefone ==> r.form == s.form.(telefone := value)
    ensures field == Cpf ==> r.form == s.form.(cpf := value)
  {
    match field
    case Nome => s.(form := s.form.(nome := value))
    case Telefone => s.(form := s.form.(telefone := value))
    case Cpf => s.(form := s.form.(cpf := value))
  }

  /** `handleCancel`: the form is refilled from the profile and edit mode ends. */
  function Cancel(s: ProfileState, profile: Option<Profile>): (r: ProfileState)
    ensures !r.editing && r.form == FormFrom(profile)
  {
    ProfileState(false, FormFrom(profile))
  }

  /** The update `handleSave` sends: the three form fields, for the rows whose
      `user_id` is the signed-in user's id (absent when there is none). */
  datatype ProfileUpdate = ProfileUpdate(nome: string, telefone: string, cpf: string, userId: Option<string>)

  /** `handleSave`: the request sent and the state afterwards. Success leaves
      edit mode; failure keeps the screen as it was. */
  function Save(s: ProfileState, userId: Option<string>, update: Outcome<()>): (r: (ProfileUpdate, ProfileState))
    ensures r.0 == ProfileUpdate(s.form.nome, s.form.telefone, s.form.cpf, userId)
    ensures update.Ok? ==> r.1 == s.(editing := false)
    ensures update.Err? ==> r.1 == s
  {
    var request := ProfileUpdate(s.form.nome, s.form.telefone, s.form.cpf, userId);
    match update
    case Ok(_) => (request, s.(editing := false))
    case Err => (request, s)
  }

  /** The fallback of the read-only view. */
  const NotGiven: string := "Não informado"

  /** `profile?.<field> || "Não informado"`. */
  function Shown(profile: Option<Profile>, field: ProfileField): (r: string)
    ensures r != ""
    ensures var v := if profile.None? then None else
                     match field case Nome => profile.value.nome
                                 case Telefone => profile.value.telefone
                                 case Cpf => profile.value.cpf;
      (Truthy(v) ==> r == v.value) && (!Truthy(v) ==> r == NotGiven)
  {
    if profile.None? then NotGiven
    else match field
      case Nome => OrElse(profile.value.nome, NotGiven)
      case Telefone => OrElse(profile.value.telefone, NotGiven)
      case Cpf => OrElse(profile.value.cpf, NotGiven)
  }

  // ---------------------------------------------------------------- lemmas

  /** What the user can do on the screen short of saving: type into an input
      or press the edit button. */
  datatype ProfileAction = Type(field: ProfileField, value: string) | PressEdit

  function Run(s: ProfileState, actions: seq<ProfileAction>): ProfileState
    decreases |actions|
  {
    if actions == [] then s
    else
      var next := match actions[0]
        case Type(field, value) => Edit(s, field, value)
        case PressEdit => ToggleEdit(s);
      Run(next, actions[1..])
  }

  /** Cancel after any run of typing and edit-button presses leaves no
      trace: the screen is the one a fresh mount shows for the same profile. */
  lemma CancelDiscardsEdits(s: ProfileState, profile: Option<Profile>, actions: seq<ProfileAction>)
    ensures Cancel(Run(s, actions), profile) == Initial(profile)
  {
  }

  /** The edit button twice returns to the same state. */
  lemma ToggleTwice(s: ProfileState)
    ensures ToggleEdit(ToggleEdit(s)) == s
  {
  }

  /** A profile with every field filled is shown field by field; the read-only
      view reads the profile, so the form's values appear only once the
      profile itself changes. */
  lemma ShownReadsProfile(s: ProfileState, p: Profile)
    requires Truthy(p.nome) && Truthy(p.telefone) && Truthy(p.cpf)
    ensures Shown(Some(p), Nome) == p.nome.value
    ensures Shown(Some(p), Telefone) == p.telefone.value
    ensures Shown(Some(p), Cpf) == p.cpf.value
  {
  }

  /** A successful save of an edited form sends what was typed and leaves
      edit mode; after a failed save the edits are still in the form. */
  lemma SaveAfterEdit(s: ProfileState, userId: Option<string>, value: string)
    requires s.editing
    ensures var edited := Edit(s, Telefone, value);
      && Save(edited, userId, Ok(())).0.telefone == value
      && !Save(edited, userId, Ok(())).1.editing
      && Save(edited, userId, Err).1.form.telefone == value
      && Save(edited, userId, Err).1.editing
  {
  }

  /** Filling from a profile and reading the form back as the profile's
      fields round-trips every non-empty field, and an empty or absent field
      reads back as absent. */
  lemma FormFromRoundTrip(p: Profile)
    ensures NonEmpty(FormFrom(Some(p)).nome) == (if Truthy(p.nome) then p.nome else None)
    ensures NonEmpty(FormFrom(Some(p)).telefone) == (if Truthy(p.telefone) then p.telefone else None)
    ensures NonEmpty(FormFrom(Some(p)).cpf) == (if Truthy(p.cpf) then p.cpf else None)
  {
  }
}
