/** The `useServices` hook: the active services, of one establishment or of
    all, and the filter that keeps the services offered for a pet's species. */
module Services {
  import opened Wrappers
  import opened Seqs
  import opened Records

  /** The two selects the hook can issue. Both ask only for services with
      status `ativo`, ordered by category. */
  datatype ServiceQuery = ActiveAt(establishmentId: string) | AllActive

  /** The rows a query asks for. */
  predicate Selects(q: ServiceQuery, s: Service) {
    s.status == "ativo" && (q.ActiveAt? ==> s.establishmentId == q.establishmentId)
  }

  /** The select run on mount and on every change of `establishmentId`, and
      the one `refetchServices` is bound to: the per-establishment query when
      an id is given (truthy), otherwise all active services. */
  function FetchQuery(establishmentId: Option<string>): (q: ServiceQuery)
    ensures q.ActiveAt? <==> Truthy(establishmentId)
    ensures q.ActiveAt? ==> q.establishmentId == establishmentId.value
  {
    if Truthy(establishmentId) then ActiveAt(establishmentId.value) else AllActive
  }

  /** The filter callback of `getServicesByPetSpecies`: a service without a
      species list serves every species; one with a list serves those it names,
      so an empty list (truthy in JavaScript) serves none. */
  function Serves(s: Service, species: string): (b: bool)
    ensures s.especies.None? ==> b
    ensures s.especies == Some([]) ==> !b
  {
    match s.especies
    case None => true
    case Some(list) => species in list
  }

  /** `getServicesByPetSpecies`. */
  function ServicesBySpecies(services: seq<Service>, species: string): (r: seq<Service>)
    ensures forall s | s in r :: s in services && Serves(s, species)
    ensures forall s | s in services && Serves(s, species) :: s in r
  {
    Filter((s: Service) => Serves(s, species), services)
  }

  // ---------------------------------------------------------------- lemmas

  /** The species filter keeps the services it returns in their original order. */
  lemma SpeciesFilterKeepsOrder(services: seq<Service>, species: string)
    ensures IsSubseq(ServicesBySpecies(services, species), services)
  {
    FilterIsSubseq((s: Service) => Serves(s, species), services);
  }

  /** A service in the list is returned exactly when it has no species list or
      its list names the species; in particular one without a list is always
      returned. */
  lemma SpeciesFilterMembership(services: seq<Service>, species: string, s: Service)
    requires s in services
    ensures s.especies.None? ==> s in ServicesBySpecies(services, species)
    ensures s.especies.Some? ==> (s in ServicesBySpecies(services, species) <==> species in s.especies.value)
  {
  }

  /** When no service restricts its species, every species sees them all. */
  lemma UnrestrictedServicesAllKept(services: seq<Service>, species: string)
    requires forall s | s in services :: s.especies.None?
    ensures ServicesBySpecies(services, species) == services
  {
    FilterAll((s: Service) => Serves(s, species), services);
  }

  /** The per-establishment query never selects another establishment's
      service, and both queries select only active services. */
  lemma QueriesSelectActive(establishmentId: Option<string>, s: Service)
    requires Selects(FetchQuery(establishmentId), s)
    ensures s.status == "ativo"
    ensures Truthy(establishmentId) ==> s.establishmentId == establishmentId.value
  {
  }
}
