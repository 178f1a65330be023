/** The mock lookup: a fixed seven-item catalogue filtered by a case-insensitive
    substring match on title or description. */
module SearchService {
  import opened Seqs
  import opened Text

  datatype SearchItem = SearchItem(id: int, title: string, description: string)

  function Id(item: SearchItem): int { item.id }

  /** The in-memory catalogue every lookup filters. */
  const MockItems: seq<SearchItem> := [
    SearchItem(1, "Angular Signals", "Estado reactivo moderno para Angular."),
    SearchItem(2, "RxJS switchMap", "Operador para cancelar peticiones anteriores."),
    SearchItem(3, "RxJS mergeMap", "Ejecuta peticiones en paralelo."),
    SearchItem(4, "Angular HttpClient", "Cliente HTTP para Angular con Observables."),
    SearchItem(5, "TypeScript Advanced Types", "Utilitarios y patrones para tipado avanzado."),
    SearchItem(6, "Formularios Reactivos", "Control total de formularios con FormGroup."),
    SearchItem(7, "Arquitectura por features", "Organización de proyectos Angular escalables.")
  ]

  /** The item's lowercased title or lowercased description contains `needle`: the
      needle occurs at some index of one of them. */
  function Matches(item: SearchItem, needle: string): (b: bool)
    ensures b <==> (exists i :: OccursAt(Lower(item.title), needle, i))
                   || (exists i :: OccursAt(Lower(item.description), needle, i))
  {
    ContainsIffOccurs(Lower(item.title), needle);
    ContainsIffOccurs(Lower(item.description), needle);
    Contains(Lower(item.title), needle) || Contains(Lower(item.description), needle)
  }

  /** `SearchService.search(term)` without its simulated latency: the catalogue items
      that match the lowercased term, in catalogue order. */
  function Search(term: string): (r: seq<SearchItem>)
    ensures |r| <= |MockItems|
    ensures forall item :: item in r ==> Matches(item, Lower(term))
    ensures forall item :: item in MockItems && Matches(item, Lower(term)) ==> item in r
  {
    var needle := Lower(term);
    Filter(item => Matches(item, needle), MockItems)
  }

  /** The catalogue's ids are pairwise distinct. */
  lemma MockIdsDistinct()
    ensures DistinctKeys(Id, MockItems)
  {
  }

  /** A lookup returns a subsequence of the catalogue (so catalogue order is kept) with
      distinct ids. */
  lemma SearchIsOrderedSubcatalogue(term: string)
    ensures IsSubsequence(Search(term), MockItems)
    ensures DistinctKeys(Id, Search(term))
  {
    var needle := Lower(term);
    FilterIsSubsequence(item => Matches(item, needle), MockItems);
    MockIdsDistinct();
    FilterKeepsDistinctKeys(item => Matches(item, needle), Id, MockItems);
  }

  /** The lookup ignores case: searching for a term and for its lowercase form agree. */
  lemma SearchCaseInsensitive(term: string)
    ensures Search(term) == Search(Lower(term))
  {
    LowerIdempotent(term);
    FilterCongruent(item => Matches(item, Lower(term)), item => Matches(item, Lower(Lower(term))), MockItems);
  }

  /** The empty term matches everything: the whole catalogue, in order. */
  lemma SearchEmptyTerm()
    ensures Search("") == MockItems
  {
    assert Lower("") == "";
    forall item | item in MockItems ensures Matches(item, "") {
      ContainsEmpty(Lower(item.title));
    }
    FilterKeepsAll(item => Matches(item, ""), MockItems);
  }
}
