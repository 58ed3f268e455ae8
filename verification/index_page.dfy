/** The single page of the application: a string page tag and an auth page
    choose the screen, and the screens' callbacks move between them. The
    booking wizard keeps the chosen pet and service ids here and hands them
    to the calendar. */
module IndexPage {
  import opened Wrappers
  import opened Records
  import PetSelection
  import ServiceSelection

  datatype AuthPage = LoginPage | SignupPage

  /** `currentPage`, `authPage`, `selectedPetId`, `selectedServiceId`. */
  datatype AppState = AppState(currentPage: string, authPage: AuthPage, selectedPetId: string, selectedServiceId: string)

  const Initial: AppState := AppState("login", LoginPage, "", "")

  /** The screen shown, with the props the model tracks. */
  datatype Screen =
    | Spinner
    | LoginScreen
    | SignUpScreen
    | SearchScreen
    | ProfileScreen
    | PetSelectionScreen(userName: string)
    | ServiceSelectionScreen(userName: string)
    | CalendarScreen(petId: string, serviceId: string)
    | ReviewScreen(appointmentId: Option<string>, establishmentId: Option<string>)
    | AppointmentsScreen
    | HomeScreen(userName: string)

  /** `profile?.nome || "Usuário"`. */
  function UserName(profile: Option<Profile>): (r: string)
    ensures profile.Some? && Truthy(profile.value.nome) ==> r == profile.value.nome.value
    ensures !(profile.Some? && Truthy(profile.value.nome)) ==> r == "Usuário"
  {
    if profile.Some? then OrElse(profile.value.nome, "Usuário") else "Usuário"
  }

  /** The render function. While the session loads a spinner is shown; with
      no user the auth page decides; otherwise the page tag is matched and
      any tag the switch does not name renders the home screen. */
  function Render(s: AppState, loading: bool, signedIn: bool, profile: Option<Profile>): (v: Screen)
    ensures loading ==> v == Spinner
    ensures !loading && !signedIn ==> v == (if s.authPage == SignupPage then SignUpScreen else LoginScreen)
    ensures !loading && signedIn && s.currentPage == "calendar" ==> v == CalendarScreen(s.selectedPetId, s.selectedServiceId)
    ensures !loading && signedIn && s.currentPage !in KnownPages ==> v == HomeScreen(UserName(profile))
  {
    if loading then Spinner
    else if !signedIn then (if s.authPage == SignupPage then SignUpScreen else LoginScreen)
    else match s.currentPage
      case "search" => SearchScreen
      case "profile" => ProfileScreen
      case "pet-selection" => PetSelectionScreen(UserName(profile))
      case "service-selection" => ServiceSelectionScreen(UserName(profile))
      case "calendar" => CalendarScreen(s.selectedPetId, s.selectedServiceId)
      case "review" => ReviewScreen(None, None)
      case "appointments" => AppointmentsScreen
      case _ => HomeScreen(UserName(profile))
  }

  /** The tags the switch names. */
  const KnownPages: set<string> := {"search", "profile", "pet-selection", "service-selection", "calendar", "review", "appointments"}

  /** The callbacks the screens invoke. `Navigate` is `handleNavigate`, passed to
      home, search, profile and appointments (the bottom navigation and the
      establishment cards use it); `Back` is each wizard screen's `onBack`. */
  datatype Event =
    | LoginAnswered(ok: bool)
    | SignUpAnswered(ok: bool)
    | CreateAccount
    | BackToLogin
    | Navigate(page: string)
    | PetChosen(petId: string)
    | ServiceChosen(serviceId: string)
    | Back
    | BookingComplete
    | ReviewSubmitted
    | OpenReview

  /** Whether the screen on display offers the event. */
  predicate Offers(v: Screen, e: Event) {
    match e
    case LoginAnswered(_) => v.LoginScreen?
    case CreateAccount => v.LoginScreen?
    case SignUpAnswered(_) => v.SignUpScreen?
    case BackToLogin => v.SignUpScreen?
    case Navigate(_) => v.HomeScreen? || v.SearchScreen? || v.ProfileScreen? || v.AppointmentsScreen?
    case PetChosen(_) => v.PetSelectionScreen?
    case ServiceChosen(_) => v.ServiceSelectionScreen?
    case Back => v.PetSelectionScreen? || v.ServiceSelectionScreen? || v.CalendarScreen? || v.ReviewScreen?
    case BookingComplete => v.CalendarScreen?
    case ReviewSubmitted => v.ReviewScreen?
    case OpenReview => v.AppointmentsScreen?
  }

  /** The effect of a callback on the state; an event the screen does not
      offer changes nothing. */
  function Step(s: AppState, v: Screen, e: Event): (r: AppState)
    ensures !Offers(v, e) ==> r == s
    ensures !e.PetChosen? ==> r.selectedPetId == s.selectedPetId
    ensures !e.ServiceChosen? ==> r.selectedServiceId == s.selectedServiceId
    ensures !(e.SignUpAnswered? || e.CreateAccount? || e.BackToLogin?) ==> r.authPage == s.authPage
  {
    if !Offers(v, e) then s
    else match e
      case LoginAnswered(ok) => if ok then s.(currentPage := "home") else s
      case SignUpAnswered(ok) => if ok then s.(authPage := LoginPage) else s
      case CreateAccount => s.(authPage := SignupPage)
      case BackToLogin => s.(authPage := LoginPage)
      case Navigate(page) => s.(currentPage := page)
      case PetChosen(petId) => s.(selectedPetId := petId, currentPage := "service-selection")
      case ServiceChosen(serviceId) => s.(selectedServiceId := serviceId, currentPage := "calendar")
      case Back =>
        var target := match v
          case ServiceSelectionScreen(_) => "pet-selection"
          case CalendarScreen(_, _) => "service-selection"
          case _ => "home";
        s.(currentPage := target)
      case BookingComplete => s.(currentPage := "home")
      case ReviewSubmitted => s.(currentPage := "home")
      case OpenReview => s.(currentPage := "review")
  }

  /** One callback on the screen rendered for a signed-in user. */
  function Next(s: AppState, profile: Option<Profile>, e: Event): AppState {
    Step(s, Render(s, false, true, profile), e)
  }

  /** A run of callbacks for a signed-in user. */
  function Run(s: AppState, profile: Option<Profile>, events: seq<Event>): AppState
    decreases |events|
  {
    if events == [] then s else Run(Next(s, profile, events[0]), profile, events[1..])
  }

  // ---------------------------------------------------------------- lemmas

  /** A signed-in user who arrives with the initial `"login"` tag (a session
      already open) sees the home screen. */
  lemma InitialTagRendersHome(profile: Option<Profile>)
    ensures Render(Initial, false, true, profile) == HomeScreen(UserName(profile))
  {
    assert Initial.currentPage !in KnownPages;
  }

  /** Without a user the page tag plays no part: two states with the same auth
      page render the same screen. */
  lemma SignedOutIgnoresPage(s1: AppState, s2: AppState, p1: Option<Profile>, p2: Option<Profile>)
    requires s1.authPage == s2.authPage
    ensures Render(s1, false, false, p1) == Render(s2, false, false, p2)
  {
  }

  /** A successful login opens home, a failed one leaves the state; a
      successful sign-up returns to the login form, a failed one stays. */
  lemma AuthTransitions(s: AppState)
    ensures Step(s, LoginScreen, LoginAnswered(true)).currentPage == "home"
    ensures Step(s, LoginScreen, LoginAnswered(false)) == s
    ensures Step(s, SignUpScreen, SignUpAnswered(true)) == s.(authPage := LoginPage)
    ensures Step(s, SignUpScreen, SignUpAnswered(false)) == s
    ensures Step(s, LoginScreen, CreateAccount).authPage == SignupPage
  {
  }

  /** Forward through the wizard: choosing a pet records its id and opens the
      service step, choosing a service then records that id and opens the
      calendar, which receives both ids. */
  lemma WizardForward(s: AppState, profile: Option<Profile>, petId: string, serviceId: string)
    requires s.currentPage == "pet-selection"
    ensures var s1 := Next(s, profile, PetChosen(petId));
      var s2 := Next(s1, profile, ServiceChosen(serviceId));
      && s1.currentPage == "service-selection" && s1.selectedPetId == petId
      && s2.currentPage == "calendar"
      && Render(s2, false, true, profile) == CalendarScreen(petId, serviceId)
  {
  }

  /** Backward through the wizard: calendar, service step, pet step, home. */
  lemma WizardBack(s: AppState, profile: Option<Profile>)
    requires s.currentPage == "calendar"
    ensures var s1 := Next(s, profile, Back);
      var s2 := Next(s1, profile, Back);
      var s3 := Next(s2, profile, Back);
      && s1.currentPage == "service-selection"
      && s2.currentPage == "pet-selection"
      && s3.currentPage == "home"
      && s3.selectedPetId == s.selectedPetId && s3.selectedServiceId == s.selectedServiceId
  {
  }

  /** Completing a booking and submitting a review both return home; the
      review screen opens without appointment or establishment ids. */
  lemma FinishesGoHome(s: AppState, profile: Option<Profile>)
    ensures s.currentPage == "calendar" ==> Next(s, profile, BookingComplete).currentPage == "home"
    ensures s.currentPage == "review" ==> Next(s, profile, ReviewSubmitted).currentPage == "home"
    ensures s.currentPage == "appointments" ==>
      Render(Next(s, profile, OpenReview), false, true, profile) == ReviewScreen(None, None)
  {
  }

  /** The ids the calendar receives are the last ones recorded: a run with no
      pet choice keeps the pet id, and one with no service choice keeps the
      service id. */
  lemma {:induction false} RunKeepsIds(s: AppState, profile: Option<Profile>, events: seq<Event>)
    ensures (forall i | 0 <= i < |events| :: !events[i].PetChosen?) ==>
      Run(s, profile, events).selectedPetId == s.selectedPetId
    ensures (forall i | 0 <= i < |events| :: !events[i].ServiceChosen?) ==>
      Run(s, profile, events).selectedServiceId == s.selectedServiceId
    decreases |events|
  {
    if events != [] {
      var s1 := Next(s, profile, events[0]);
      RunKeepsIds(s1, profile, events[1..]);
      assert forall i | 0 <= i < |events[1..]| :: events[1..][i] == events[i + 1];
    }
  }

  /** A run never changes the auth page: for a signed-in user the login and
      sign-up screens are out of reach. */
  lemma {:induction false} RunKeepsAuthPage(s: AppState, profile: Option<Profile>, events: seq<Event>)
    ensures Run(s, profile, events).authPage == s.authPage
    decreases |events|
  {
    if events != [] {
      var s1 := Next(s, profile, events[0]);
      assert !Render(s, false, true, profile).LoginScreen? && !Render(s, false, true, profile).SignUpScreen?;
      RunKeepsAuthPage(s1, profile, events[1..]);
    }
  }

  /** The wizard screens and the page together: the pet step's `onNext` fires
      only with a non-empty selection, and the calendar then gets that id. */
  lemma PetStepHandsOverSelection(s: AppState, profile: Option<Profile>, ps: PetSelection.PetSelectionState)
    requires s.currentPage == "pet-selection"
    requires PetSelection.HandleNext(ps).Some?
    ensures var s1 := Next(s, profile, PetChosen(PetSelection.HandleNext(ps).value));
      s1.selectedPetId == ps.selectedPet && s1.selectedPetId != "" && s1.currentPage == "service-selection"
  {
  }

  /** Likewise for the service step. */
  lemma ServiceStepHandsOverSelection(s: AppState, profile: Option<Profile>, selected: string)
    requires s.currentPage == "service-selection"
    requires ServiceSelection.HandleNext(selected).Some?
    ensures var s1 := Next(s, profile, ServiceChosen(ServiceSelection.HandleNext(selected).value));
      s1.selectedServiceId == selected && s1.selectedServiceId != "" && s1.currentPage == "calendar"
  {
  }
}
