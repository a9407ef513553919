/**
 * `useCharacterStore`: the filters, the loaded page of characters, the
 * character being viewed, and the loading and error flags around each request.
 */
module CharacterStore {
  import opened Wrappers
  import opened Http
  import CharacterApi
  import Query

  /** The store's filters; every field is always present. */
  datatype Filters = Filters(name: string, status: string, species: string, gender: string, page: int)

  const InitialFilters: Filters := Filters("", "", "", "", 1)

  /** A `Partial<Filters>`: the keys a caller supplies to `setFilters`. */
  datatype PartialFilters = PartialFilters(
    name: Option<string>, status: Option<string>, species: Option<string>,
    gender: Option<string>, page: Option<int>)

  const NoChange: PartialFilters := PartialFilters(None, None, None, None, None)

  /** `{ ...filters, ...p }`: every supplied key overrides, every other key stays. */
  function Merge(f: Filters, p: PartialFilters): (m: Filters)
    ensures m.name == p.name.GetOr(f.name) && m.status == p.status.GetOr(f.status)
    ensures m.species == p.species.GetOr(f.species) && m.gender == p.gender.GetOr(f.gender)
    ensures m.page == p.page.GetOr(f.page)
  {
    Filters(p.name.GetOr(f.name), p.status.GetOr(f.status), p.species.GetOr(f.species),
            p.gender.GetOr(f.gender), p.page.GetOr(f.page))
  }

  /** Two partial updates in a row, the later one winning key by key. */
  function Then(p: PartialFilters, q: PartialFilters): PartialFilters {
    PartialFilters(
      if q.name.Some? then q.name else p.name,
      if q.status.Some? then q.status else p.status,
      if q.species.Some? then q.species else p.species,
      if q.gender.Some? then q.gender else p.gender,
      if q.page.Some? then q.page else p.page)
  }

  /** Merging nothing changes nothing; merging twice is merging once; two merges are one merge of both. */
  lemma MergeLaws(f: Filters, p: PartialFilters, q: PartialFilters)
    ensures Merge(f, NoChange) == f
    ensures Merge(Merge(f, p), p) == Merge(f, p)
    ensures Merge(Merge(f, p), q) == Merge(f, Then(p, q))
  {
  }

  /** The `searchFilters` object `fetchCharacters` passes to the service. */
  function SearchPayload(f: Filters): (sf: CharacterApi.SearchFilters)
    ensures sf.page == Some(f.page)
    ensures sf.name == Query.Truthy(f.name) && sf.status == Query.Truthy(f.status)
    ensures sf.species == Query.Truthy(f.species) && sf.gender == Query.Truthy(f.gender)
  {
    CharacterApi.SearchFilters(Query.Truthy(f.name), Query.Truthy(f.status), Query.Truthy(f.species), Query.Truthy(f.gender), Some(f.page))
  }

  /**
   * Leaving empty fields out of the payload does not change the request: the
   * service drops them too, so the URL is the one every field would give.
   */
  lemma PayloadOmissionAgrees(f: Filters)
    ensures CharacterApi.ListUrl(SearchPayload(f))
      == CharacterApi.ListUrl(CharacterApi.SearchFilters(Some(f.name), Some(f.status), Some(f.species), Some(f.gender), Some(f.page)))
  {
    var all := CharacterApi.SearchFilters(Some(f.name), Some(f.status), Some(f.species), Some(f.gender), Some(f.page));
    assert Query.StringField(Query.Truthy(f.name)) == Query.StringField(all.name);
    assert Query.StringField(Query.Truthy(f.status)) == Query.StringField(all.status);
    assert Query.StringField(Query.Truthy(f.species)) == Query.StringField(all.species);
    assert Query.StringField(Query.Truthy(f.gender)) == Query.StringField(all.gender);
    assert CharacterApi.ListQuery(SearchPayload(f)) == CharacterApi.ListQuery(all);
  }

  /** Every field of the store, as one value. */
  datatype State = State(
    characters: seq<Character>, currentCharacter: Option<Character>,
    loading: bool, error: Option<string>, filters: Filters,
    totalPages: int, hasNextPage: bool, initialized: bool)

  const FetchCharactersFallback: string := "Failed to fetch characters"
  const FetchCharacterFallback: string := "Failed to fetch character"

  /** `setCharacters(response)`: the list, the page count, and whether a next page exists. */
  function WithPage(s: State, p: Page<Character>): (t: State)
    ensures t.hasNextPage <==> p.info.next.Some?
    ensures t == s.(characters := p.results, totalPages := p.info.pages, hasNextPage := t.hasNextPage)
  {
    s.(characters := p.results, totalPages := p.info.pages, hasNextPage := p.info.next.Some?)
  }

  /** The first `set` of both requests: loading on, error cleared. */
  function Started(s: State): (t: State)
    ensures t.loading && t.error == None
    ensures t.(loading := s.loading, error := s.error) == s
  {
    s.(loading := true, error := None)
  }

  /** Where `fetchCharacters` leaves the store `s` once the list request settles with `r`. */
  function ListSettled(s: State, r: Result<Page<Character>>): (t: State)
    ensures !t.loading
    ensures t.currentCharacter == s.currentCharacter && t.filters == s.filters && t.initialized == s.initialized
    ensures r.Success? ==> t == WithPage(s, r.value).(loading := false)
    ensures r.Failure? ==> t.characters == [] && t.totalPages == 1 && !t.hasNextPage
    ensures r.Failure? ==> t.error == Some(ErrorText(r.error, FetchCharactersFallback))
  {
    match r
    case Success(page) => WithPage(s, page).(loading := false)
    case Failure(e) =>
      s.(error := Some(ErrorText(e, FetchCharactersFallback)), characters := [],
         totalPages := 1, hasNextPage := false, loading := false)
  }

  /** Where `fetchCharacter` leaves the store `s` once the single request settles with `r`. */
  function ItemSettled(s: State, r: Result<Character>): (t: State)
    ensures !t.loading
    ensures t.characters == s.characters && t.filters == s.filters
    ensures t.totalPages == s.totalPages && t.hasNextPage == s.hasNextPage && t.initialized == s.initialized
    ensures r.Success? ==> t.currentCharacter == Some(r.value) && t.error == s.error
    ensures r.Failure? ==> t.currentCharacter == None && t.error == Some(ErrorText(r.error, FetchCharacterFallback))
  {
    match r
    case Success(c) => s.(currentCharacter := Some(c), loading := false)
    case Failure(e) => s.(error := Some(ErrorText(e, FetchCharacterFallback)), currentCharacter := None, loading := false)
  }

  /** After a request the store shows an error exactly when the request failed. */
  lemma ErrorIffFailure(s: State, r: Result<Page<Character>>, q: Result<Character>)
    ensures ListSettled(Started(s), r).error.None? <==> r.Success?
    ensures ItemSettled(Started(s), q).error.None? <==> q.Success?
  {
  }

  /**
   * How each response of the list endpoint ends up in the store: a 404 is an
   * empty list with 0 pages and no error, any other status an `API Error`
   * message with 1 page, and a thrown non-`Error` the fallback text.
   */
  lemma ListOutcomes(s: State, code: int, text: string, p: Page<Character>)
    ensures ListSettled(Started(s), ListResult(Ok(p))) == WithPage(s, p).(loading := false, error := None)
    ensures var t := ListSettled(Started(s), ListResult(Status(404, text)));
      t.characters == [] && t.totalPages == 0 && !t.hasNextPage && t.error == None
    ensures code != 404 ==> var t := ListSettled(Started(s), ListResult(Status(code, text)));
      t.characters == [] && t.totalPages == 1 && t.error == Some(ApiErrorMessage(code, text))
    ensures ListSettled(Started(s), ListResult(NetworkError(NonError))).error == Some(FetchCharactersFallback)
  {
  }

  class CharacterState {
    var characters: seq<Character>
    var currentCharacter: Option<Character>
    var loading: bool
    var error: Option<string>
    var filters: Filters
    var totalPages: int
    var hasNextPage: bool
    var initialized: bool

    function View(): State
      reads this
    {
      State(characters, currentCharacter, loading, error, filters, totalPages, hasNextPage, initialized)
    }

    /** The store's initial state. */
    constructor()
      ensures View() == State([], None, false, None, InitialFilters, 1, false, false)
    {
      characters := [];
      currentCharacter := None;
      loading := false;
      error := None;
      filters := InitialFilters;
      totalPages := 1;
      hasNextPage := false;
      initialized := false;
    }

    /** `setCharacters(response)`. */
    method SetCharacters(response: Page<Character>)
      modifies this
      ensures View() == WithPage(old(View()), response)
    {
      characters := response.results;
      totalPages := response.info.pages;
      hasNextPage := response.info.next != None;
    }

    /** `setCurrentCharacter(character)`. */
    method SetCurrentCharacter(character: Option<Character>)
      modifies this
      ensures View() == old(View()).(currentCharacter := character)
    {
      currentCharacter := character;
    }

    /** `setLoading(loading)`. */
    method SetLoading(value: bool)
      modifies this
      ensures View() == old(View()).(loading := value)
    {
      loading := value;
    }

    /** `setError(error)`. */
    method SetError(value: Option<string>)
      modifies this
      ensures View() == old(View()).(error := value)
    {
      error := value;
    }

    /** `setFilters(partial)`: a shallow merge; `page` is not reset. */
    method SetFilters(p: PartialFilters)
      modifies this
      ensures View() == old(View()).(filters := Merge(old(filters), p))
    {
      filters := Merge(filters, p);
    }

    /** `setInitialized(value)`. */
    method SetInitialized(value: bool)
      modifies this
      ensures View() == old(View()).(initialized := value)
    {
      initialized := value;
    }

    /**
     * `fetchCharacters()`: loading on and error cleared, one list request for
     * the payload of the current filters, then the settle; `response` is what
     * the network answers.
     */
    method FetchCharacters(response: Outcome<Page<Character>>) returns (call: Call<Page<Character>>)
      modifies this
      ensures call.url == Some(CharacterApi.ListUrl(SearchPayload(old(filters))))
      ensures View() == ListSettled(Started(old(View())), ListResult(response))
    {
      var payload := SearchPayload(filters);
      loading := true;
      error := None;
      call := CharacterApi.GetCharacters(payload, response);
      SettleList(call.result);
    }

    /** The `try`/`catch` of `fetchCharacters` once the request has settled with `r`; each branch ends loading. */
    method SettleList(r: Result<Page<Character>>)
      modifies this
      ensures View() == ListSettled(old(View()), r)
    {
      match r {
        case Success(page) =>
          characters := page.results;
          totalPages := page.info.pages;
          hasNextPage := page.info.next != None;
          loading := false;
        case Failure(e) =>
          error := Some(ErrorText(e, FetchCharactersFallback));
          characters := [];
          totalPages := 1;
          hasNextPage := false;
          loading := false;
      }
    }

    /** `fetchCharacter(id)`: loading on and error cleared, one request, the settle, then loading off. */
    method FetchCharacter(id: int, response: Outcome<Character>) returns (call: Call<Character>)
      modifies this
      ensures call == CharacterApi.GetCharacter(id, response)
      ensures View() == ItemSettled(Started(old(View())), call.result)
    {
      loading := true;
      error := None;
      call := CharacterApi.GetCharacter(id, response);
      match call.result {
        case Success(c) =>
          currentCharacter := Some(c);
        case Failure(e) =>
          error := Some(ErrorText(e, FetchCharacterFallback));
          currentCharacter := None;
      }
      loading := false;
    }
  }
}
