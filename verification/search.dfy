/** The search screen: a free-text query, a search mode (establishments or
    services) and, in services mode, a category badge. An effect re-runs the
    search whenever one of the three changes; the request it sends is built
    from the query and the category. */
module Search {
  import opened Wrappers
  import opened Text
  import opened Records

  datatype Mode = EstablishmentsMode | ServicesMode

  /** The categories offered as badges in services mode. */
  const Categories: seq<string> := ["Banho e Tosa", "Veterinário", "Pet Shop", "Hotel", "Adestramento", "Fisioterapia"]

  datatype SearchState = SearchState(
    query: string,
    category: string,
    mode: Mode,
    establishments: seq<Establishment>,
    services: seq<Service>)

  const Initial: SearchState := SearchState("", "", EstablishmentsMode, [], [])

  /** `searchQuery.trim() || selectedCategory`: the condition under which the
      effect searches instead of emptying both result lists. */
  function ShouldSearch(query: string, category: string): (b: bool)
    ensures b <==> !IsBlank(query) || category != ""
  {
    TrimEmptyIffBlank(query);
    Trim(query) != "" || category != ""
  }

  /** One condition of a backend select. `ILike` is a case-insensitive
      pattern match in which `%` stands for any text. */
  datatype Condition = Eq(column: string, value: string) | ILike(column: string, pattern: string)

  datatype Request = Request(table: string, conditions: seq<Condition>)

  /** The name condition: present only when the trimmed query is non-empty,
      but built from the query as typed, surrounding spaces included. */
  function NameCondition(query: string): (r: seq<Condition>)
    ensures r != [] <==> Trim(query) != ""
    ensures r != [] ==> r == [ILike("nome", "%" + query + "%")]
  {
    if Trim(query) != "" then [ILike("nome", "%" + query + "%")] else []
  }

  /** `searchEstablishments` and `searchServices`: the select each mode sends. */
  function BuildRequest(s: SearchState): (r: Request)
    ensures Eq("status", "ativo") in r.conditions
    ensures s.mode == EstablishmentsMode ==> r.table == "establishments" && forall c | c in r.conditions :: c.column != "categoria"
    ensures s.mode == ServicesMode ==> r.table == "services" && Eq("establishments.status", "ativo") in r.conditions
    ensures s.mode == ServicesMode ==> (Eq("categoria", s.category) in r.conditions <==> s.category != "")
    ensures (exists c | c in r.conditions :: c.ILike?) <==> Trim(s.query) != ""
  {
    match s.mode
    case EstablishmentsMode =>
      Request("establishments", [Eq("status", "ativo")] + NameCondition(s.query))
    case ServicesMode =>
      var name := NameCondition(s.query);
      var category := if s.category != "" then [Eq("categoria", s.category)] else [];
      var conditions := [Eq("status", "ativo"), Eq("establishments.status", "ativo")] + name + category;
      assert name != [] ==> name[0] in conditions;
      Request("services", conditions)
  }

  /** What the effect did: the state afterwards and the request it sent, if any. */
  datatype EffectRun = EffectRun(state: SearchState, sent: Option<Request>)

  /** The search effect. Without a query or category both lists are emptied
      and nothing is sent; otherwise the request of the current mode is sent
      and its reply refreshes that mode's list only (an error keeps it). */
  function RunEffect(s: SearchState, establishmentsReply: Outcome<Option<seq<Establishment>>>,
                     servicesReply: Outcome<Option<seq<Service>>>): (r: EffectRun)
    ensures r.sent.Some? <==> ShouldSearch(s.query, s.category)
    ensures r.sent.Some? ==> r.sent.value == BuildRequest(s)
    ensures !ShouldSearch(s.query, s.category) ==> r.state.establishments == [] && r.state.services == []
    ensures r.state.query == s.query && r.state.category == s.category && r.state.mode == s.mode
    ensures ShouldSearch(s.query, s.category) && s.mode == EstablishmentsMode ==>
      r.state.services == s.services && r.state.establishments == Refresh(s.establishments, establishmentsReply)
    ensures ShouldSearch(s.query, s.category) && s.mode == ServicesMode ==>
      r.state.establishments == s.establishments && r.state.services == Refresh(s.services, servicesReply)
  {
    if !ShouldSearch(s.query, s.category) then
      EffectRun(s.(establishments := [], services := []), None)
    else
      var request := BuildRequest(s);
      match s.mode
      case EstablishmentsMode =>
        EffectRun(s.(establishments := Refresh(s.establishments, establishmentsReply)), Some(request))
      case ServicesMode =>
        EffectRun(s.(services := Refresh(s.services, servicesReply)), Some(request))
  }

  /** A click on a category badge: the selected badge is unselected, any other
      becomes the selection. */
  function ToggleCategory(selected: string, clicked: string): (r: string)
    ensures selected == clicked ==> r == ""
    ensures selected != clicked ==> r == clicked
  {
    if selected == clicked then "" else clicked
  }

  /** `clearFilters`. */
  function ClearFilters(s: SearchState): (r: SearchState)
    ensures r.query == "" && r.category == "" && r.establishments == [] && r.services == []
    ensures r.mode == s.mode
  {
    s.(query := "", category := "", establishments := [], services := [])
  }

  /** The user's actions on the screen. */
  datatype Action =
    | TypeQuery(text: string)
    | ChooseMode(mode: Mode)
    | ClickCategory(category: string)
    | Clear

  /** The "Limpar filtros" button, shown in services mode once a query or a
      category is set. */
  predicate ClearShown(s: SearchState) {
    s.mode == ServicesMode && (s.query != "" || s.category != "")
  }

  /** Whether an action is on offer: badges and the clear button exist only in
      services mode, and the clear button only when it is shown. */
  predicate Offered(s: SearchState, a: Action) {
    match a
    case TypeQuery(_) => true
    case ChooseMode(_) => true
    case ClickCategory(c) => s.mode == ServicesMode && c in Categories
    case Clear => ClearShown(s)
  }

  /** The state change of an action, before the effect. */
  function Apply(s: SearchState, a: Action): SearchState {
    match a
    case TypeQuery(text) => s.(query := text)
    case ChooseMode(m) => s.(mode := m)
    case ClickCategory(c) => s.(category := ToggleCategory(s.category, c))
    case Clear => ClearFilters(s)
  }

  /** The effect's dependencies `[searchQuery, selectedCategory, searchType]`. */
  predicate SameDeps(a: SearchState, b: SearchState) {
    a.query == b.query && a.category == b.category && a.mode == b.mode
  }

  /** An action followed by the effect, which React runs only when a
      dependency changed. An offered action that leaves the dependencies as
      they were changes nothing at all; any other action is followed by the
      search effect on the new state. */
  function Step(s: SearchState, a: Action, establishmentsReply: Outcome<Option<seq<Establishment>>>,
                servicesReply: Outcome<Option<seq<Service>>>): (r: EffectRun)
    requires Offered(s, a)
    ensures SameDeps(Apply(s, a), r.state)
    ensures SameDeps(s, Apply(s, a)) ==> r.sent.None? && r.state == s
    ensures !SameDeps(s, Apply(s, a)) ==> r == RunEffect(Apply(s, a), establishmentsReply, servicesReply)
  {
    var next := Apply(s, a);
    if SameDeps(s, next) then EffectRun(next, None)
    else RunEffect(next, establishmentsReply, servicesReply)
  }

  /** `n !== 1 ? 's' : ''`. */
  function Plural(n: int): (r: string)
    ensures r == "s" <==> n != 1
    ensures r == "" <==> n == 1
  {
    if n != 1 then "s" else ""
  }

  /** The results heading, e.g. `2 serviços encontrados`. */
  function Heading(n: nat, noun: string): string {
    ShowInt(n) + " " + noun + Plural(n) + " encontrado" + Plural(n)
  }

  /** The body of the results area. */
  datatype ResultsView =
    | Prompt
    | Loading
    | EstablishmentCards(heading: string, cards: seq<Establishment>)
    | NoEstablishments
    | ServiceCards(heading: string, items: seq<Service>)
    | NoServices

  /** The prompt while neither a query nor a category is set, the skeleton
      while a search is in flight, and otherwise the current mode's results. */
  function Results(s: SearchState, loading: bool): (v: ResultsView)
    ensures v.Prompt? <==> !ShouldSearch(s.query, s.category)
    ensures v.Loading? <==> ShouldSearch(s.query, s.category) && loading
    ensures v.EstablishmentCards? ==> s.mode == EstablishmentsMode && v.cards == s.establishments && s.establishments != []
    ensures v.ServiceCards? ==> s.mode == ServicesMode && v.items == s.services && s.services != []
    ensures v.NoEstablishments? <==> ShouldSearch(s.query, s.category) && !loading && s.mode == EstablishmentsMode && s.establishments == []
    ensures v.NoServices? <==> ShouldSearch(s.query, s.category) && !loading && s.mode == ServicesMode && s.services == []
  {
    if !ShouldSearch(s.query, s.category) then Prompt
    else if loading then Loading
    else match s.mode
      case EstablishmentsMode =>
        if |s.establishments| > 0
        then EstablishmentCards(Heading(|s.establishments|, "estabelecimento"), s.establishments)
        else NoEstablishments
      case ServicesMode =>
        if |s.services| > 0 then ServiceCards(Heading(|s.services|, "serviço"), s.services) else NoServices
  }

  // ---------------------------------------------------------------- lemmas

  /** Clearing always ends with an empty query, no category and both lists
      empty, whether or not the effect runs afterwards. */
  lemma ClearEmptiesEverything(s: SearchState, er: Outcome<Option<seq<Establishment>>>, sr: Outcome<Option<seq<Service>>>)
    requires ClearShown(s)
    ensures var r := Step(s, Clear, er, sr);
      && r.state.query == "" && r.state.category == ""
      && r.state.establishments == [] && r.state.services == []
      && r.sent.None?
  {
  }

  /** A query of spaces alone is treated like an empty one: with no category
      nothing is sent and both lists are emptied. */
  lemma BlankQueryDoesNotSearch(s: SearchState, er: Outcome<Option<seq<Establishment>>>, sr: Outcome<Option<seq<Service>>>)
    requires IsBlank(s.query) && s.category == ""
    ensures RunEffect(s, er, sr).sent.None?
    ensures RunEffect(s, er, sr).state.establishments == [] && RunEffect(s, er, sr).state.services == []
  {
    TrimEmptyIffBlank(s.query);
  }

  /** The request with every name pattern replaced by `pattern`. */
  function WithPattern(cs: seq<Condition>, pattern: string): seq<Condition> {
    seq(|cs|, i requires 0 <= i < |cs| => if cs[i].ILike? then cs[i].(pattern := pattern) else cs[i])
  }

  /** In establishments mode the selected category plays no part in the
      request: it is sent only by the services search. */
  lemma EstablishmentsIgnoreCategory(s: SearchState, category: string)
    requires s.mode == EstablishmentsMode
    ensures BuildRequest(s.(category := category)) == BuildRequest(s)
  {
  }

  /** Changing one non-blank query into another changes only the text inside
      the name pattern: the table and every other condition stay the same. */
  lemma QueryChangesOnlyPattern(s: SearchState, query: string)
    requires Trim(s.query) != "" && Trim(query) != ""
    ensures var before, after := BuildRequest(s), BuildRequest(s.(query := query));
      && after.table == before.table
      && after.conditions == WithPattern(before.conditions, "%" + query + "%")
  {
  }

  /** Clicking the same badge twice from no selection selects and then
      clears it. */
  lemma ToggleTwice(c: string)
    requires c != ""
    ensures ToggleCategory("", c) == c
    ensures ToggleCategory(ToggleCategory("", c), c) == ""
  {
  }

  /** The heading's noun and participle carry the plural `s` exactly when the
      count is not one. */
  lemma HeadingPlural(n: nat, noun: string)
    ensures var h := Heading(n, noun);
      && (n != 1 <==> h[|h| - 1] == 's')
      && (n == 1 ==> h == "1 " + noun + " encontrado")
  {
    var h := Heading(n, noun);
    assert h[|h| - 1] == (if n != 1 then 's' else 'o');
    if n == 1 {
      assert ShowInt(1) == "1";
    }
  }

  /** Results shown as cards always match the mode and a non-empty list. */
  lemma CardsHaveHeading(s: SearchState)
    requires ShouldSearch(s.query, s.category) && s.mode == ServicesMode && s.services != []
    ensures Results(s, false) == ServiceCards(Heading(|s.services|, "serviço"), s.services)
  {
  }
}
