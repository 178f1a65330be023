/** The signal-based search store: query and page state, the pagination it derives,
    the lookup pipeline's decisions as explicit steps with time removed, and the
    client-side result filter. */
module SearchStore {
  import opened Seqs
  import opened Text
  import opened SearchService

  datatype Option<T> = None | Some(value: T)

  /** Items per page. */
  const PageSize: nat := 3
  /** A trimmed term shorter than this is answered without a lookup. */
  const MinTermLength: nat := 2
  /** `retry({count: 2})`: a failed attempt is repeated at most twice. */
  const Retries: nat := 2
  /** The message shown once every attempt has failed. */
  const ErrorMessage: string := "Ocurrió un error buscando. Intenta de nuevo."

  datatype FilterMode = All | Title | Description

  /** One page of lookup results and the number of matches over all pages. */
  datatype PagedResult = PagedResult(items: seq<SearchItem>, total: nat)

  const EmptyResult := PagedResult([], 0)

  /** The `(term, page)` pair the pipeline works on once the term is trimmed. */
  datatype Params = Params(term: string, page: int)

  /** The call `searchPaged(term, page, pageSize)` a dispatch issues. */
  datatype LookupRequest = LookupRequest(term: string, page: int, pageSize: nat)

  /** What a debounced emission leads to: nothing (a repeat of the previous pair), an
      immediate empty result (term too short), or a lookup. */
  datatype Dispatched = Suppressed | ShortCircuited | Started(request: LookupRequest)

  /** The lookup provider's answer to one attempt. */
  datatype Outcome = Answered(result: PagedResult) | Failed

  /** How a lookup settled, and after how many attempts. */
  datatype Settlement = Succeeded(result: PagedResult, attempts: nat) | Exhausted(attempts: nat)

  // ===== Pagination =====

  /** `totalPages`: one page when there is nothing, otherwise just enough pages of
      `PageSize` items to hold `total`. */
  function TotalPages(total: nat): (r: nat)
    ensures r >= 1
    ensures total == 0 ==> r == 1
    ensures total > 0 ==> (r - 1) * PageSize < total <= r * PageSize
  {
    if total == 0 then 1 else (total + PageSize - 1) / PageSize
  }

  /** `hasPrev`: going one page back still lands on a page numbered 1 or more. */
  function HasPrev(page: int): (b: bool)
    ensures b <==> page - 1 >= 1
  {
    page > 1
  }

  /** `hasNext`: from a page numbered 1 or more, there is a next page exactly when some
      matches lie beyond the current page, and the next page is then within the page count. */
  function HasNext(page: int, total: nat): (b: bool)
    ensures page >= 1 ==> (b <==> page * PageSize < total)
    ensures b ==> page + 1 <= TotalPages(total)
  {
    page < TotalPages(total)
  }

  // ===== Pipeline decisions =====

  /** The first map of the pipeline: trim the term, keep the page. */
  function Normalize(term: string, page: int): (p: Params)
    ensures p.page == page
    ensures IsTrimmedSlice(term, p.term, LeadingSpaces(term))
    ensures p.term == [] || (!IsSpace(p.term[0]) && !IsSpace(p.term[|p.term| - 1]))
  {
    Params(Trim(term), page)
  }

  /** The empty and too-short branches of the lookup step: no lookup is made. The
      empty-term branch is subsumed by the length test. */
  function SkipsLookup(term: string): (b: bool)
    ensures b <==> |term| < MinTermLength
  {
    term == "" || |term| < MinTermLength
  }

  /** The comparator given to `distinctUntilChanged`: since a pair has only these two
      fields, it is equality of pairs. */
  function SameParams(prev: Params, curr: Params): (b: bool)
    ensures b <==> prev == curr
  {
    prev.term == curr.term && prev.page == curr.page
  }

  /** `retry` over the provider's answers to successive attempts: the first answer
      among the first `retries + 1` that succeeds, `Exhausted` when all of those fail,
      and `None` while the answers given so far are failures with attempts left. */
  function Retry(answers: seq<Outcome>, retries: nat): (r: Option<Settlement>)
    ensures r.Some? ==> 1 <= r.value.attempts <= |answers| && r.value.attempts <= retries + 1
    ensures r.Some? ==> forall i :: 0 <= i < r.value.attempts - 1 ==> answers[i].Failed?
    ensures r.Some? && r.value.Succeeded? ==> answers[r.value.attempts - 1] == Answered(r.value.result)
    ensures r.Some? && r.value.Exhausted? ==> r.value.attempts == retries + 1 && answers[retries].Failed?
    ensures r.None? <==> |answers| <= retries && forall i :: 0 <= i < |answers| ==> answers[i].Failed?
    decreases retries
  {
    if answers == [] then None
    else match answers[0]
      case Answered(result) => Some(Succeeded(result, 1))
      case Failed =>
        if retries == 0 then Some(Exhausted(1))
        else match Retry(answers[1..], retries - 1)
          case None => None
          case Some(Succeeded(result, n)) => Some(Succeeded(result, n + 1))
          case Some(Exhausted(n)) => Some(Exhausted(n + 1))
  }

  /** Answers after the first `retries + 1` are never consulted: at most that many
      attempts are made. */
  lemma RetryUsesAtMostBudget(answers: seq<Outcome>, retries: nat)
    requires |answers| > retries
    ensures Retry(answers, retries) == Retry(answers[..retries + 1], retries)
  {
  }

  /** A provider that fails twice and then answers is recovered from on the third attempt. */
  lemma RetryRecoversOnThirdAttempt(result: PagedResult, later: seq<Outcome>)
    ensures Retry([Failed, Failed, Answered(result)] + later, Retries) == Some(Succeeded(result, 3))
  {
  }

  /** A provider that keeps failing is given up on after three attempts. */
  lemma RetryGivesUpAfterThreeFailures(later: seq<Outcome>)
    ensures Retry([Failed, Failed, Failed] + later, Retries) == Some(Exhausted(3))
  {
  }

  // ===== Client-side result filter =====

  /** The lowercased text mentions "angular" or "rxjs": one of them occurs at some index. */
  function MentionsTopic(text: string): (b: bool)
    ensures b <==> (exists i :: OccursAt(Lower(text), "angular", i))
                   || (exists i :: OccursAt(Lower(text), "rxjs", i))
  {
    ContainsIffOccurs(Lower(text), "angular");
    ContainsIffOccurs(Lower(text), "rxjs");
    Contains(Lower(text), "angular") || Contains(Lower(text), "rxjs")
  }

  function TitleMentionsTopic(item: SearchItem): bool { MentionsTopic(item.title) }

  function DescriptionMentionsTopic(item: SearchItem): bool { MentionsTopic(item.description) }

  /** `results`: the fetched items, narrowed by the filter mode. Nothing is added, and
      `All` changes nothing. */
  function Results(items: seq<SearchItem>, mode: FilterMode): (r: seq<SearchItem>)
    ensures |r| <= |items|
    ensures forall item :: item in r ==> item in items
    ensures mode == All ==> r == items
  {
    match mode
    case All => items
    case Title => Filter(TitleMentionsTopic, items)
    case Description => Filter(DescriptionMentionsTopic, items)
  }

  /** `All` passes the items through; `Title` and `Description` keep, in order, exactly
      the items whose title, respectively description, mentions a topic. */
  lemma ResultsSpec(items: seq<SearchItem>, mode: FilterMode)
    ensures mode == All ==> Results(items, mode) == items
    ensures IsSubsequence(Results(items, mode), items)
    ensures mode == Title ==>
      forall item :: item in Results(items, mode) <==> item in items && MentionsTopic(item.title)
    ensures mode == Description ==>
      forall item :: item in Results(items, mode) <==> item in items && MentionsTopic(item.description)
    ensures mode == Title ==> forall item ::
      multiset(Results(items, mode))[item] == if MentionsTopic(item.title) then multiset(items)[item] else 0
    ensures mode == Description ==> forall item ::
      multiset(Results(items, mode))[item] == if MentionsTopic(item.description) then multiset(items)[item] else 0
  {
    match mode
    case All =>
      SubsequenceReflexive(items);
    case Title => FilterIsSubsequence(TitleMentionsTopic, items);
    case Description => FilterIsSubsequence(DescriptionMentionsTopic, items);
  }

  /** Filtering the filtered results again changes nothing. */
  lemma ResultsIdempotent(items: seq<SearchItem>, mode: FilterMode)
    ensures Results(Results(items, mode), mode) == Results(items, mode)
  {
    match mode
    case All =>
    case Title => FilterIdempotent(TitleMentionsTopic, items);
    case Description => FilterIdempotent(DescriptionMentionsTopic, items);
  }

  // ===== The store =====

  /** The store's signals, and the memory the pipeline's operators hold: the pair
      `distinctUntilChanged` last let through, the lookup `switchMap` is currently
      following, and the answers that lookup's attempts have had so far, which `retry`
      counts inside the running subscription. */
  class Store {
    var searchQuery: string
    var page: int
    var filter: FilterMode
    var loading: bool
    var error: Option<string>
    var total: nat
    var resultsRaw: seq<SearchItem>
    var lastDispatched: Option<Params>
    var inFlight: Option<LookupRequest>
    var history: seq<Outcome>

    /** Pages start at 1, and the store shows loading only while a lookup is in flight.
        Only a lookup in flight has answers on record, and those leave it still retrying:
        all of them failed and attempts remain. A lookup in flight shows no error: starting
        it cleared the error, and only its own exhaustion, which ends it, sets one. */
    ghost predicate Valid()
      reads this
    {
      page >= 1 && (loading ==> inFlight.Some?)
      && (inFlight.None? ==> history == [])
      && (inFlight.Some? ==> error == None)
      && Retry(history, Retries).None?
    }

    constructor ()
      ensures Valid()
      ensures searchQuery == "" && page == 1 && filter == All
      ensures !loading && error == None && total == 0 && resultsRaw == []
      ensures lastDispatched == None && inFlight == None && history == []
    {
      searchQuery := "";
      page := 1;
      filter := All;
      loading := false;
      error := None;
      total := 0;
      resultsRaw := [];
      lastDispatched := None;
      inFlight := None;
      history := [];
    }

    /** `setQuery`: a new term always starts again at page 1; the filter is kept. */
    method SetQuery(term: string)
      requires Valid()
      modifies this`searchQuery, this`page
      ensures Valid()
      ensures searchQuery == term && page == 1
      ensures filter == old(filter)
    {
      searchQuery := term;
      page := 1;
    }

    /** `nextPage`: one page on when there is a next page, otherwise nothing. */
    method NextPage()
      requires Valid()
      modifies this`page
      ensures Valid()
      ensures page == if HasNext(old(page), total) then old(page) + 1 else old(page)
      ensures old(page) <= TotalPages(total) ==> page <= TotalPages(total)
    {
      if !HasNext(page, total) {
        return;
      }
      page := page + 1;
    }

    /** `prevPage`: one page back when there is a previous page, otherwise nothing. */
    method PrevPage()
      requires Valid()
      modifies this`page
      ensures Valid()
      ensures page == if HasPrev(old(page)) then old(page) - 1 else old(page)
      ensures old(page) <= TotalPages(total) ==> page <= TotalPages(total)
    {
      if !HasPrev(page) {
        return;
      }
      page := page - 1;
    }

    /** `setFilter`: a new filter mode starts again at page 1; the term is kept. */
    method SetFilter(mode: FilterMode)
      requires Valid()
      modifies this`filter, this`page
      ensures Valid()
      ensures filter == mode && page == 1
      ensures searchQuery == old(searchQuery)
    {
      filter := mode;
      page := 1;
    }

    /** An emission of `(searchQuery, page)`: the term is trimmed, and an empty term
        clears the error, the loading flag and the total at once, before any debounce. */
    method EmitParams() returns (p: Params)
      requires Valid()
      modifies this`error, this`loading, this`total
      ensures Valid()
      ensures p == Normalize(searchQuery, page)
      ensures p.term == "" ==> error == None && !loading && total == 0
      ensures p.term != "" ==> error == old(error) && loading == old(loading) && total == old(total)
    {
      p := Normalize(searchQuery, page);
      if p.term == "" {
        error := None;
        loading := false;
        total := 0;
      }
    }

    /** The debounced pair `p` reaches the pipeline. A repeat of the last pair let
        through is dropped. Otherwise the lookup in flight is abandoned (its `finalize`
        clears the loading flag), and a term that is empty or too short is answered at
        once with an empty result, while any other term starts a lookup for `p`. */
    method Dispatch(p: Params) returns (d: Dispatched)
      requires Valid()
      modifies this`lastDispatched, this`inFlight, this`history, this`loading, this`error
      modifies this`total, this`resultsRaw
      ensures Valid()
      ensures d.Suppressed? <==> old(lastDispatched).Some? && SameParams(old(lastDispatched).value, p)
      ensures d.Suppressed? ==>
        lastDispatched == old(lastDispatched) && inFlight == old(inFlight) && history == old(history)
        && loading == old(loading) && error == old(error) && total == old(total)
        && resultsRaw == old(resultsRaw)
      ensures !d.Suppressed? ==> lastDispatched == Some(p) && history == []
      ensures d.ShortCircuited? <==> !d.Suppressed? && SkipsLookup(p.term)
      ensures d.ShortCircuited? ==>
        inFlight == None && !loading && error == old(error)
        && total == EmptyResult.total && resultsRaw == EmptyResult.items
      ensures d.Started? ==>
        d.request == LookupRequest(p.term, p.page, PageSize) && inFlight == Some(d.request)
        && loading && error == None && total == old(total) && resultsRaw == old(resultsRaw)
    {
      if lastDispatched.Some? && SameParams(lastDispatched.value, p) {
        return Suppressed;
      }
      lastDispatched := Some(p);
      if inFlight.Some? {
        inFlight := None;
        history := [];
        loading := false;
      }
      if SkipsLookup(p.term) {
        total := EmptyResult.total;
        resultsRaw := EmptyResult.items;
        return ShortCircuited;
      }
      loading := true;
      error := None;
      var request := LookupRequest(p.term, p.page, PageSize);
      inFlight := Some(request);
      return Started(request);
    }

    /** The lookup in flight receives `more`, the provider's answers to its next
        attempts, which follow the answers it already had. `retry` judges the whole
        history, so the attempt budget spans every call. Once the lookup settles, a
        success copies the result's items and total, exhaustion shows the error message
        and an empty result, and either way the loading flag is cleared. A lookup still
        retrying keeps the longer history and nothing else changes; with no lookup in
        flight nothing changes at all. */
    method Settle(more: seq<Outcome>) returns (settled: bool)
      requires Valid()
      modifies this`inFlight, this`history, this`loading, this`error, this`total, this`resultsRaw
      ensures Valid()
      ensures settled <==> old(inFlight).Some? && Retry(old(history) + more, Retries).Some?
      ensures !settled ==>
        inFlight == old(inFlight) && loading == old(loading) && error == old(error)
        && total == old(total) && resultsRaw == old(resultsRaw)
      ensures !settled && old(inFlight).Some? ==> history == old(history) + more
      ensures old(inFlight).None? ==> history == old(history)
      ensures settled ==> inFlight == None && history == [] && !loading
      ensures settled && Retry(old(history) + more, Retries).value.Succeeded? ==>
        var result := Retry(old(history) + more, Retries).value.result;
        total == result.total && resultsRaw == result.items && error == old(error) && error == None
      ensures settled && Retry(old(history) + more, Retries).value.Exhausted? ==>
        error == Some(ErrorMessage) && total == EmptyResult.total && resultsRaw == EmptyResult.items
    {
      if inFlight.None? {
        return false;
      }
      var answers := history + more;
      match Retry(answers, Retries)
      case None =>
        history := answers;
        settled := false;
      case Some(Succeeded(result, _)) =>
        total := result.total;
        resultsRaw := result.items;
        loading := false;
        inFlight := None;
        history := [];
        settled := true;
      case Some(Exhausted(_)) =>
        error := Some(ErrorMessage);
        total := EmptyResult.total;
        resultsRaw := EmptyResult.items;
        loading := false;
        inFlight := None;
        history := [];
        settled := true;
    }
  }

  /** A client of the store: a lookup that fails on every attempt ends in the error
      state with an empty page, whatever the provider would have answered after the
      third attempt, and dispatching the same pair again starts no second lookup. */
  method ExhaustedLookupScenario(later: seq<Outcome>)
  {
    var store := new Store();
    var p := Params("rxjs", 1);
    var d := store.Dispatch(p);
    assert d == Started(LookupRequest("rxjs", 1, PageSize));
    RetryGivesUpAfterThreeFailures(later);
    assert [] + ([Failed, Failed, Failed] + later) == [Failed, Failed, Failed] + later;
    var settled := store.Settle([Failed, Failed, Failed] + later);
    assert settled;
    assert !store.loading && store.error == Some(ErrorMessage);
    assert store.total == 0 && store.resultsRaw == [];
    d := store.Dispatch(p);
    assert d == Suppressed;
  }

  /** A client of the store: the attempt budget spans separate deliveries of answers.
      Two failures leave the lookup retrying; a third failure then exhausts it, so the
      answer that follows is never shown. */
  method SplitAnswersScenario(result: PagedResult)
  {
    var store := new Store();
    var d := store.Dispatch(Params("rxjs", 1));
    assert [] + [Failed, Failed] == [Failed, Failed];
    var settled := store.Settle([Failed, Failed]);
    assert !settled && store.loading && store.history == [Failed, Failed];
    assert [Failed, Failed] + [Failed, Answered(result)] == [Failed, Failed, Failed] + [Answered(result)];
    RetryGivesUpAfterThreeFailures([Answered(result)]);
    settled := store.Settle([Failed, Answered(result)]);
    assert settled && !store.loading && store.error == Some(ErrorMessage);
    assert store.total == 0 && store.resultsRaw == [];
  }

  /** A client of the store: a provider that fails exactly twice and then answers leaves
      the store showing that answer, with no error and not loading. */
  method RecoveredLookupScenario(result: PagedResult)
  {
    var store := new Store();
    var d := store.Dispatch(Params("rxjs", 1));
    RetryRecoversOnThirdAttempt(result, []);
    assert [] + [Failed, Failed, Answered(result)] == [Failed, Failed, Answered(result)] + [];
    var settled := store.Settle([Failed, Failed, Answered(result)]);
    assert settled && !store.loading && store.error == None;
    assert store.total == result.total && store.resultsRaw == result.items;
  }

  /** A client of the store: clearing the term while a lookup is in flight clears the
      error, the loading flag and the total at once. */
  method ClearedQueryScenario()
  {
    var store := new Store();
    var d := store.Dispatch(Params("rxjs", 1));
    assert store.loading;
    store.SetQuery("");
    var p := store.EmitParams();
    assert p.term == "" && !store.loading && store.error == None && store.total == 0;
  }

  /** A client of the store: a dispatch of the empty term answers with an empty page and
      abandons the lookup in flight, so that lookup's late answer changes nothing. */
  method AbandonedLookupScenario(result: PagedResult)
  {
    var store := new Store();
    var d := store.Dispatch(Params("rxjs", 1));
    d := store.Dispatch(Params("", 1));
    assert d == ShortCircuited && store.inFlight == None && !store.loading;
    var settled := store.Settle([Answered(result)]);
    assert !settled && store.total == 0 && store.resultsRaw == [];
  }
}
