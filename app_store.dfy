/**
 * The older combined store `store.ts`: the character list with a search query,
 * a status filter and page navigation, plus favorites and the view mode, of
 * which only the last two are persisted.
 */
module AppStore {
  import opened Wrappers
  import opened Http
  import CharacterApi
  import Query
  import FavoritesStore

  /** Every field of the store, as one value. */
  datatype State = State(
    characters: seq<Character>, currentCharacter: Option<Character>,
    loading: bool, error: Option<string>,
    searchQuery: string, statusFilter: string,
    currentPage: int, totalPages: int, hasNextPage: bool,
    favorites: seq<int>, viewMode: FavoritesStore.ViewMode)

  const Initial: State := State([], None, false, None, "", "", 1, 1, false, [], FavoritesStore.Grid)

  const FetchCharactersFallback: string := "Failed to fetch characters"
  const FetchCharacterFallback: string := "Failed to fetch character"

  /** The filters `fetchCharacters` sends: always the page, the query and status only when non-empty. */
  function Payload(s: State): (f: CharacterApi.SearchFilters)
    ensures f.page == Some(s.currentPage)
    ensures f.name.Some? <==> s.searchQuery != ""
    ensures f.status.Some? <==> s.statusFilter != ""
    ensures f.name.Some? ==> f.name.value == s.searchQuery
    ensures f.status.Some? ==> f.status.value == s.statusFilter
    ensures f.species == None && f.gender == None
  {
    CharacterApi.SearchFilters(Query.Truthy(s.searchQuery), Query.Truthy(s.statusFilter), None, None, Some(s.currentPage))
  }

  /** `partialize`: the part of the state that is persisted. */
  function Partialize(s: State): (p: FavoritesStore.Persisted)
    ensures p.favorites == s.favorites && p.viewMode == s.viewMode
  {
    FavoritesStore.Persisted(s.favorites, s.viewMode)
  }

  /** The persisted snapshot depends on the favorites and the view mode and on nothing else. */
  lemma PartializeExactly(s: State, t: State)
    ensures Partialize(s) == Partialize(t) <==> s.favorites == t.favorites && s.viewMode == t.viewMode
  {
  }

  /** The first `set` of both requests: loading on, error cleared. */
  function Started(s: State): (t: State)
    ensures t.loading && t.error == None
    ensures t.(loading := s.loading, error := s.error) == s
  {
    s.(loading := true, error := None)
  }

  /** Where `fetchCharacters` leaves the store `s` once the list request settles with `r`. */
  function ListSettled(s: State, r: Result<Page<Character>>): (t: State)
    ensures !t.loading
    ensures r.Success? ==> t.characters == r.value.results && t.totalPages == r.value.info.pages
    ensures r.Success? ==> (t.hasNextPage <==> r.value.info.next.Some?) && t.error == s.error
    ensures r.Failure? ==> t.characters == [] && t.totalPages == 1 && !t.hasNextPage
    ensures r.Failure? ==> t.error == Some(ErrorText(r.error, FetchCharactersFallback))
    ensures t == s.(characters := t.characters, totalPages := t.totalPages, hasNextPage := t.hasNextPage,
                    error := t.error, loading := false)
  {
    match r
    case Success(page) =>
      s.(characters := page.results, totalPages := page.info.pages,
         hasNextPage := page.info.next.Some?, loading := false)
    case Failure(e) =>
      s.(error := Some(ErrorText(e, FetchCharactersFallback)), characters := [],
         totalPages := 1, hasNextPage := false, loading := false)
  }

  /** Where `fetchCharacter` leaves the store `s` once the single request settles with `r`. */
  function ItemSettled(s: State, r: Result<Character>): (t: State)
    ensures !t.loading
    ensures r.Success? ==> t.currentCharacter == Some(r.value) && t.error == s.error
    ensures r.Failure? ==> t.currentCharacter == None && t.error == Some(ErrorText(r.error, FetchCharacterFallback))
    ensures t == s.(currentCharacter := t.currentCharacter, error := t.error, loading := false)
  {
    match r
    case Success(c) => s.(currentCharacter := Some(c), loading := false)
    case Failure(e) => s.(error := Some(ErrorText(e, FetchCharacterFallback)), currentCharacter := None, loading := false)
  }

  /** After a request the store shows an error exactly when the request failed. */
  lemma ErrorIffFailure(s: State, r: Result<Page<Character>>, q: Result<Character>)
    ensures ListSettled(Started(s), r).error.None? <==> r.Success?
    ensures ItemSettled(Started(s), q).error.None? <==> q.Success?
  {
  }

  /** No request changes what is persisted. */
  lemma SettleKeepsPersisted(s: State, r: Result<Page<Character>>, q: Result<Character>)
    ensures Partialize(ListSettled(s, r)) == Partialize(s)
    ensures Partialize(ItemSettled(s, q)) == Partialize(s)
  {
  }

  /** `nextPage` moves on only when the last response named a next page. */
  predicate CanGoNext(s: State) {
    s.hasNextPage
  }

  /** `prevPage` moves back only from a page above the first. */
  predicate CanGoPrev(s: State) {
    s.currentPage > 1
  }

  class AppState {
    var characters: seq<Character>
    var currentCharacter: Option<Character>
    var loading: bool
    var error: Option<string>
    var searchQuery: string
    var statusFilter: string
    var currentPage: int
    var totalPages: int
    var hasNextPage: bool
    var favorites: seq<int>
    var viewMode: FavoritesStore.ViewMode

    function View(): State
      reads this
    {
      State(characters, currentCharacter, loading, error, searchQuery, statusFilter,
            currentPage, totalPages, hasNextPage, favorites, viewMode)
    }

    /** The store's initial state. */
    constructor()
      ensures View() == Initial
    {
      characters := [];
      currentCharacter := None;
      loading := false;
      error := None;
      searchQuery := "";
      statusFilter := "";
      currentPage := 1;
      totalPages := 1;
      hasNextPage := false;
      favorites := [];
      viewMode := FavoritesStore.Grid;
    }

    /** `setCharacters(response)`: `hasNextPage` comes from `info.next` alone. */
    method SetCharacters(response: Page<Character>)
      modifies this
      ensures hasNextPage <==> response.info.next.Some?
      ensures View() == old(View()).(characters := response.results, totalPages := response.info.pages,
                                      hasNextPage := hasNextPage)
    {
      characters := response.results;
      totalPages := response.info.pages;
      hasNextPage := response.info.next != None;
    }

    /** `setCurrentCharacter(character)`. */
    method SetCurrentCharacter(character: Option<Character>)
      modifies this
      ensures View() == old(View()).(currentCharacter := character)
    {
      currentCharacter := character;
    }

    /** `setLoading(value)`. */
    method SetLoading(value: bool)
      modifies this
      ensures View() == old(View()).(loading := value)
    {
      loading := value;
    }

    /** `setError(value)`. */
    method SetError(value: Option<string>)
      modifies this
      ensures View() == old(View()).(error := value)
    {
      error := value;
    }

    /** `setSearchQuery(query)`: no page reset, no request. */
    method SetSearchQuery(query: string)
      modifies this
      ensures View() == old(View()).(searchQuery := query)
    {
      searchQuery := query;
    }

    /** `setStatusFilter(status)`: no page reset, no request. */
    method SetStatusFilter(status: string)
      modifies this
      ensures View() == old(View()).(statusFilter := status)
    {
      statusFilter := status;
    }

    /** `setCurrentPage(page)`: any number, no request. */
    method SetCurrentPage(page: int)
      modifies this
      ensures View() == old(View()).(currentPage := page)
    {
      currentPage := page;
    }

    /** `isFavorite(id)`. */
    function IsFavorite(id: int): (fav: bool)
      reads this
      ensures fav <==> exists i :: 0 <= i < |favorites| && favorites[i] == id
    {
      id in favorites
    }

    /** `toggleFavorite(id)`: the same toggle as the favorites store, on this store's own list. */
    method ToggleFavorite(id: int)
      modifies this
      ensures View() == old(View()).(favorites := FavoritesStore.Toggled(old(favorites), id))
      ensures IsFavorite(id) == !old(IsFavorite(id))
      ensures forall y :: y != id ==> (IsFavorite(y) == old(IsFavorite(y)))
    {
      if id in favorites {
        favorites := FavoritesStore.Without(favorites, id);
      } else {
        favorites := favorites + [id];
      }
    }

    /** `setViewMode(mode)`. */
    method SetViewMode(mode: FavoritesStore.ViewMode)
      modifies this
      ensures View() == old(View()).(viewMode := mode)
    {
      viewMode := mode;
    }

    /**
     * `fetchCharacters()`: loading on and error cleared, one list request for the
     * current page, query and status, the settle, then loading off.
     */
    method FetchCharacters(response: Outcome<Page<Character>>) returns (call: Call<Page<Character>>)
      modifies this
      ensures call.url == Some(CharacterApi.ListUrl(Payload(old(View()))))
      ensures View() == ListSettled(Started(old(View())), ListResult(response))
    {
      var filters := Payload(View());
      loading := true;
      error := None;
      call := CharacterApi.GetCharacters(filters, response);
      SettleList(call.result);
    }

    /** The `try`/`catch`/`finally` of `fetchCharacters` once the request has settled with `r`. */
    method SettleList(r: Result<Page<Character>>)
      modifies this
      ensures View() == ListSettled(old(View()), r)
    {
      match r {
        case Success(page) =>
          characters := page.results;
          totalPages := page.info.pages;
          hasNextPage := page.info.next != None;
        case Failure(e) =>
          error := Some(ErrorText(e, FetchCharactersFallback));
          characters := [];
          totalPages := 1;
          hasNextPage := false;
      }
      loading := false;
    }

    /** `fetchCharacter(id)`: loading on and error cleared, one request, the settle, then loading off. */
    method FetchCharacter(id: int, response: Outcome<Character>) returns (call: Call<Character>)
      modifies this
      ensures call == CharacterApi.GetCharacter(id, response)
      ensures View() == ItemSettled(Started(old(View())), call.result)
    {
      loading := true;
      error := None;
      call := CharacterApi.GetCharacter(id, response);
      match call.result {
        case Success(c) =>
          currentCharacter := Some(c);
        case Failure(e) =>
          error := Some(ErrorText(e, FetchCharacterFallback));
          currentCharacter := None;
      }
      loading := false;
    }

    /** `searchCharacters(query)`: the query set and the page back to 1, then the list request. */
    method SearchCharacters(query: string, response: Outcome<Page<Character>>) returns (call: Call<Page<Character>>)
      modifies this
      ensures call.url == Some(CharacterApi.ListUrl(Payload(old(View()).(searchQuery := query, currentPage := 1))))
      ensures View() == ListSettled(Started(old(View()).(searchQuery := query, currentPage := 1)), ListResult(response))
    {
      ghost var before := View().(searchQuery := query, currentPage := 1);
      searchQuery := query;
      currentPage := 1;
      assert View() == before;
      call := FetchCharacters(response);
    }

    /** `filterByStatus(status)`: the status set and the page back to 1, then the list request. */
    method FilterByStatus(status: string, response: Outcome<Page<Character>>) returns (call: Call<Page<Character>>)
      modifies this
      ensures call.url == Some(CharacterApi.ListUrl(Payload(old(View()).(statusFilter := status, currentPage := 1))))
      ensures View() == ListSettled(Started(old(View()).(statusFilter := status, currentPage := 1)), ListResult(response))
    {
      ghost var before := View().(statusFilter := status, currentPage := 1);
      statusFilter := status;
      currentPage := 1;
      assert View() == before;
      call := FetchCharacters(response);
    }

    /** `nextPage()`: one page on and a request when a next page exists; otherwise nothing at all. */
    method NextPage(response: Outcome<Page<Character>>) returns (call: Option<Call<Page<Character>>>)
      modifies this
      ensures call.Some? <==> old(CanGoNext(View()))
      ensures !old(CanGoNext(View())) ==> View() == old(View())
      ensures old(CanGoNext(View())) ==>
        call.value.url == Some(CharacterApi.ListUrl(Payload(old(View()).(currentPage := old(currentPage) + 1))))
        && View() == ListSettled(Started(old(View()).(currentPage := old(currentPage) + 1)), ListResult(response))
    {
      if hasNextPage {
        currentPage := currentPage + 1;
        var c := FetchCharacters(response);
        call := Some(c);
      } else {
        call := None;
      }
    }

    /** `prevPage()`: one page back and a request above page 1; otherwise nothing at all. */
    method PrevPage(response: Outcome<Page<Character>>) returns (call: Option<Call<Page<Character>>>)
      modifies this
      ensures call.Some? <==> old(CanGoPrev(View()))
      ensures !old(CanGoPrev(View())) ==> View() == old(View())
      ensures old(CanGoPrev(View())) ==>
        call.value.url == Some(CharacterApi.ListUrl(Payload(old(View()).(currentPage := old(currentPage) - 1))))
        && View() == ListSettled(Started(old(View()).(currentPage := old(currentPage) - 1)), ListResult(response))
      ensures old(currentPage) >= 1 ==> currentPage >= 1
    {
      if currentPage > 1 {
        currentPage := currentPage - 1;
        var c := FetchCharacters(response);
        call := Some(c);
      } else {
        call := None;
      }
    }

    /** `resetFilters()`: query and status cleared, page 1; no request. */
    method ResetFilters()
      modifies this
      ensures View() == old(View()).(searchQuery := "", statusFilter := "", currentPage := 1)
    {
      searchQuery := "";
      statusFilter := "";
      currentPage := 1;
    }

    /** The persisted snapshot. */
    function Snapshot(): FavoritesStore.Persisted
      reads this
    {
      Partialize(View())
    }
  }

  /** After a reset the payload is the first page and nothing else. */
  lemma ResetPayload(s: State)
    ensures Payload(s.(searchQuery := "", statusFilter := "", currentPage := 1))
      == CharacterApi.SearchFilters(None, None, None, None, Some(1))
  {
  }
}
