/** The home screen: the active establishments narrowed by a case-insensitive
    name search, and the fallbacks used when an establishment card has no
    photo or no street. The card helpers are shared with the search screen. */
module Home {
  import opened Wrappers
  import opened Seqs
  import opened Text
  import opened Records

  /** The card image used when an establishment has no usable first photo. */
  const DefaultImage: string := "https://images.unsplash.com/photo-1601758228041-f3b2795255f1?w=400&h=200&fit=crop"

  /** The card address used when an establishment has no street. */
  const NoAddress: string := "Endereço não informado"

  /** The filter callback: `nome.toLowerCase().includes(query.toLowerCase())`.
      It accepts at least every name that contains the query as typed, and
      every name for the empty query. */
  function NameMatches(e: Establishment, query: string): (b: bool)
    ensures query == "" ==> b
    ensures Contains(e.nome, query) ==> b
  {
    ContainsEmpty(Lower(e.nome));
    assert Contains(e.nome, query) ==> Contains(Lower(e.nome), Lower(query)) by {
      if Contains(e.nome, query) { LowerContains(e.nome, query); }
    }
    Contains(Lower(e.nome), Lower(query))
  }

  /** `filteredEstablishments`. */
  function FilteredEstablishments(es: seq<Establishment>, query: string): (r: seq<Establishment>)
    ensures forall e | e in r :: e in es && NameMatches(e, query)
    ensures forall e | e in es && NameMatches(e, query) :: e in r
  {
    Filter((e: Establishment) => NameMatches(e, query), es)
  }

  /** `(fotos && Array.isArray(fotos) && fotos[0]) || DefaultImage`: the first
      photo when the column is an array whose first element is a non-empty
      string, otherwise the default image. */
  function CardImage(fotos: Photos): (r: string)
    ensures r != ""
    ensures fotos.PhotoList? && fotos.urls != [] && fotos.urls[0] != "" ==> r == fotos.urls[0]
    ensures !(fotos.PhotoList? && fotos.urls != [] && fotos.urls[0] != "") ==> r == DefaultImage
  {
    match fotos
    case PhotoList(urls) => if urls != [] && urls[0] != "" then urls[0] else DefaultImage
    case _ => DefaultImage
  }

  /** A value interpolated into a template literal: a missing one is
      written as `undefined`. */
  function Interpolate(s: Option<string>): (r: string)
    ensures s.Some? ==> r == s.value
    ensures s.None? ==> r == "undefined"
  {
    s.GetOr("undefined")
  }

  /** `endereco?.rua ? `${rua} - ${bairro}` : NoAddress`. Every card shows
      some address text, and a card with a street shows it first. */
  function CardAddress(endereco: Option<Address>): (r: string)
    ensures r != ""
    ensures endereco.Some? && Truthy(endereco.value.rua) ==> endereco.value.rua.value <= r
    ensures endereco.Some? && Truthy(endereco.value.rua) ==>
      r == endereco.value.rua.value + " - " + Interpolate(endereco.value.bairro)
    ensures !(endereco.Some? && Truthy(endereco.value.rua)) ==> r == NoAddress
  {
    if endereco.Some? && Truthy(endereco.value.rua)
    then endereco.value.rua.value + " - " + Interpolate(endereco.value.bairro)
    else NoAddress
  }

  /** "Nenhum estabelecimento encontrado" is shown once loading has finished
      and the filter kept nothing. */
  predicate ShowsEmptyMessage(loading: bool, es: seq<Establishment>, query: string) {
    !loading && |FilteredEstablishments(es, query)| == 0
  }

  // ---------------------------------------------------------------- lemmas

  /** The filtered list is the establishments list with some entries removed,
      in the original order. */
  lemma FilterKeepsOrder(es: seq<Establishment>, query: string)
    ensures IsSubseq(FilteredEstablishments(es, query), es)
  {
    FilterIsSubseq((e: Establishment) => NameMatches(e, query), es);
  }

  /** An empty search box shows every establishment. */
  lemma EmptyQueryKeepsAll(es: seq<Establishment>)
    ensures FilteredEstablishments(es, "") == es
  {
    forall e | e in es
      ensures NameMatches(e, "")
    {
      ContainsEmpty(Lower(e.nome));
    }
    FilterAll((e: Establishment) => NameMatches(e, ""), es);
  }

  /** The lowered query is a prefix of the lowered longer query. */
  lemma LowerPrefix(query: string, more: string)
    ensures Contains(Lower(query + more), Lower(query))
  {
    LowerSlice(query + more, 0, |query|);
    assert (query + more)[0..|query|] == query;
    assert OccursAt(Lower(query + more), Lower(query), 0);
  }

  /** Typing more characters never brings back an establishment: the result
      for the longer query is a subsequence of the result for the shorter. */
  lemma LongerQueryNarrows(es: seq<Establishment>, query: string, more: string)
    ensures IsSubseq(FilteredEstablishments(es, query + more), FilteredEstablishments(es, query))
  {
    forall e | e in es && NameMatches(e, query + more)
      ensures NameMatches(e, query)
    {
      LowerPrefix(query, more);
      ContainsTransitive(Lower(e.nome), Lower(query + more), Lower(query));
    }
    FilterMonotone((e: Establishment) => NameMatches(e, query + more),
                   (e: Establishment) => NameMatches(e, query), es);
  }

  /** Two queries that differ only in ASCII letter case give the same result;
      in particular the upper-cased query finds the same establishments. */
  lemma CaseInsensitive(es: seq<Establishment>, q1: string, q2: string)
    requires Lower(q1) == Lower(q2)
    ensures FilteredEstablishments(es, q1) == FilteredEstablishments(es, q2)
    ensures FilteredEstablishments(es, Upper(q1)) == FilteredEstablishments(es, q1)
  {
    FilterExtensional((e: Establishment) => NameMatches(e, q1),
                      (e: Establishment) => NameMatches(e, q2), es);
    LowerUpper(q1);
    FilterExtensional((e: Establishment) => NameMatches(e, Upper(q1)),
                      (e: Establishment) => NameMatches(e, q1), es);
  }

  /** The empty message and a non-empty card list never appear together, and
      the message is up exactly when nothing matches after loading. */
  lemma EmptyMessageIffNoMatch(loading: bool, es: seq<Establishment>, query: string)
    requires !loading
    ensures ShowsEmptyMessage(loading, es, query) <==> forall e | e in es :: !NameMatches(e, query)
  {
    var r := FilteredEstablishments(es, query);
    if |r| != 0 {
      assert r[0] in r;
    }
  }
}
