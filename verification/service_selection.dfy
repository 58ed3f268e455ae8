/** The second step of the booking wizard: choosing one of the active
    services. The screen uses `useServices()` without an establishment, so it
    lists every active service. */
module ServiceSelection {
  import opened Wrappers
  import opened Seqs
  import opened Records
  import Services

  /** The select the screen's hook issues: no establishment id is passed. */
  const ScreenQuery: Services.ServiceQuery := Services.FetchQuery(None)

  /** `handleNext`: `onNext` is called with the selection only when one was made. */
  function HandleNext(selected: string): (next: Option<string>)
    ensures next.Some? <==> selected != ""
    ensures next.Some? ==> next.value == selected
  {
    if selected != "" then Some(selected) else None
  }

  /** `services.find(s => s.id === selectedService)`. */
  function SelectedServiceData(services: seq<Service>, selected: string): (r: Option<Service>)
    ensures r.Some? ==> r.value in services && r.value.id == selected
    ensures r.None? <==> forall s | s in services :: s.id != selected
  {
    Find((s: Service) => s.id == selected, services)
  }

  /** The card content: a spinner, the empty message, or the select with the
      details of the chosen service and the state of the button. */
  datatype ServiceView =
    | LoadingServices
    | NoServicesAvailable
    | Picker(options: seq<Service>, details: Option<Service>, buttonDisabled: bool)

  function View(services: seq<Service>, loading: bool, selected: string): (v: ServiceView)
    ensures v.LoadingServices? <==> loading
    ensures v.NoServicesAvailable? <==> !loading && services == []
    ensures v.Picker? ==> v.options == services && v.details == SelectedServiceData(services, selected)
    ensures v.Picker? ==> (v.buttonDisabled <==> selected == "")
  {
    if loading then LoadingServices
    else if |services| == 0 then NoServicesAvailable
    else Picker(services, SelectedServiceData(services, selected), selected == "")
  }

  // ---------------------------------------------------------------- lemmas

  /** The button is disabled exactly when pressing it would not call `onNext`. */
  lemma ButtonMatchesHandler(services: seq<Service>, selected: string)
    requires services != []
    ensures View(services, false, selected).buttonDisabled <==> HandleNext(selected).None?
  {
  }

  /** The details panel shows the first listed service with the selected id:
      no earlier entry carries that id. */
  lemma DetailsIsFirstMatch(services: seq<Service>, selected: string)
    requires SelectedServiceData(services, selected).Some?
    ensures exists i | 0 <= i < |services| ::
      services[i] == SelectedServiceData(services, selected).value
      && forall j | 0 <= j < i :: services[j].id != selected
  {
  }

  /** The screen lists all active services of every establishment. */
  lemma ScreenListsAllActive()
    ensures ScreenQuery == Services.AllActive
  {
  }
}
