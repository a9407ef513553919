# Rick and Morty front end: stores, services and page logic

This project models the non-visual logic of a Next.js front end for the Rick and
Morty API, and proves properties of that model:

- the persisted **favorites store**, an ordered list of character ids with one toggle;
- the **character and episode API services**: how each request URL is built from
  optional filters, and how each response settles into a value or a thrown error;
- the **character store** and the older **combined store**: their fields, the
  filter payload they send, how a request settles into the state, the page
  guards, and the persisted projection;
- the **episodes page**: the season and episode number parsers for `S01E02`-style
  codes, the page's own state around `fetchEpisodes`, its filter handlers and the
  show/disable conditions of its Previous and Next buttons;
- the shared **pagination control**'s show and disable conditions;
- the **status badge**: its colour classes and its capitalised label.

Each `fetch` is a parameter of type `Http.Outcome`. It is a response with the
`ok` flag set and its parsed body, a status code with its status text, or a
rejected promise carrying an `Error` (with its message) or some other thrown
value. From there on every operation is deterministic. Each store is a class
whose fields are the store's fields. `View()` gathers them into one `State`
value. Each asynchronous action is one method that runs the whole action
atomically. Its contract says the new state is
`Settled(Started(old state), result)`. `Started` is the first `set` (loading on,
error cleared), and the settle function is the `try`/`catch`/`finally`.

Modules: `Wrappers` (Option), `Text` (decimal numbers, join and split), `Query`
(URLSearchParams entries and their rendering), `Http` (outcomes, results,
entities, the shared settle rules), `CharacterApi`, `EpisodeApi`,
`FavoritesStore`, `CharacterStore`, `AppStore`, `EpisodesPage`, `Pagination`,
`StatusBadge`.

## Model

| member | source | states |
|---|---|---|
| FavoritesStore.Without | src/store/favorites-store.ts:21 | the filtered list omits the id, keeps every other id, and is no longer than the input |
| FavoritesStore.Toggled | src/store/favorites-store.ts:19-23 | the id is in the result iff it was not in the list; every other id's membership is unchanged |
| FavoritesStore.WithoutAppend | src/store/favorites-store.ts:21 | filtering distributes over concatenation, so the relative order of the remaining ids is kept |
| FavoritesStore.WithoutAbsent | src/store/favorites-store.ts:21 | filtering out an id that is not present leaves the list as it was |
| FavoritesStore.RemoveAt | src/store/favorites-store.ts:21 | in a list without duplicates, removing the id at position k cuts out exactly that position |
| FavoritesStore.ToggleAbsent | src/store/favorites-store.ts:19-23 | toggling an absent id appends it: the old entries keep their positions and the id is last |
| FavoritesStore.TogglePresent | src/store/__tests__/favorites-store.test.ts:121-136 | toggling a present id removes its position and keeps the order of the remaining ids |
| FavoritesStore.ToggleKeepsNoDups | src/store/__tests__/favorites-store.test.ts:50-78 | a toggle keeps the list free of duplicates, and the length moves by exactly one in the right direction |
| FavoritesStore.DoubleToggleAbsent | src/store/__tests__/favorites-store.test.ts:92-106 | toggling an absent id twice restores the list exactly |
| FavoritesStore.DoubleTogglePresent | src/store/favorites-store.ts:20-22 | toggling a present id twice moves it to the end, which restores the list iff it was already last |
| FavoritesStore.DoubleToggleReorders | src/store/favorites-store.ts:20-22 | [7, 8] with 7 toggled twice gives [8, 7] |
| FavoritesStore.RemoveMiddle | src/store/__tests__/favorites-store.test.ts:121-136 | removing the middle of [1, 2, 3] gives [1, 3] |
| FavoritesStore.FavoritesState.constructor | src/store/favorites-store.ts:16-17 | no favorites and grid view initially |
| FavoritesStore.FavoritesState.ToggleFavorite | src/store/favorites-store.ts:19-23 | the new list is the toggle of the old; isFavorite flips for that id and no other; viewMode unchanged; no duplicates is preserved |
| FavoritesStore.FavoritesState.SetViewMode | src/store/favorites-store.ts:25 | sets viewMode and leaves favorites unchanged |
| FavoritesStore.FavoritesState.IsFavorite | src/store/favorites-store.ts:27 | an id is a favorite iff it occurs at some position of the list |
| FavoritesStore.FavoritesState.Snapshot | src/store/favorites-store.ts:31-34 | the persisted record holds exactly the favorites and the view mode |
| FavoritesStore.InsertionOrder | src/store/__tests__/favorites-store.test.ts:188-198 | 5, 1, 3 toggled onto an empty store give [5, 1, 3] in insertion order |
| FavoritesStore.ZeroAndNegative | src/store/__tests__/favorites-store.test.ts:177-186 | 0 and -1 are stored and reported as favorites like any id |
| Http.ListResult | src/services/character.api.ts:17-29 | an ok body is returned unchanged; a 404 is the empty page (count 0, 0 pages, no next or previous link, no results); any other status fails with `API Error: <status> - <statusText>`; a rejection is passed on unchanged |
| Http.AsList | src/services/character.api.ts:51-52 | an array body is returned unchanged, and a bare object becomes the list holding just that object |
| Http.ErrorText | src/store/character-store.ts:86 | an `Error` gives its message, anything else thrown gives the fallback text |
| Http.ApiErrorMessage | src/services/character.api.ts:26 | the message starts with `API Error: ` and ends with the status text |
| Http.ApiErrorMessageInjective | src/services/character.api.ts:26 | `API Error: <status> - <statusText>` determines the status code and the status text |
| CharacterApi.BuildParams | src/services/character.api.ts:7-13 | the guarded appends produce exactly the entry list `ListQuery`: name, status, species, gender, page, each only when truthy |
| CharacterApi.ListQuery | src/services/character.api.ts:9-13 | the entries come in the fixed order name, status, species, gender, page, each key at most once |
| CharacterApi.ListUrl | src/services/character.api.ts:15 | the URL starts with the base and `/character?`, and the rest reads back as exactly the query's entries, in order, when no value holds `&` or `=` |
| CharacterApi.GetCharacters | src/services/character.api.ts:6-30 | the request URL is the base, `/character?` and the rendered query; the result is the list settle rule |
| CharacterApi.ListQueryFields | src/services/character.api.ts:9-12 | a string field is in the query iff the filter holds that value and it is non-empty |
| CharacterApi.ListQueryPage | src/services/character.api.ts:13 | the page is in the query iff it is present and non-zero, in decimal |
| CharacterApi.NoFiltersUrl | src/services/__tests__/character.api.test.ts:55-57 | with no filters the URL ends in a bare `?` |
| CharacterApi.FullFiltersQuery | src/services/__tests__/character.api.test.ts:72-82 | all five filters become five entries in the fixed order |
| CharacterApi.FullFiltersUrl | src/services/__tests__/character.api.test.ts:72-82 | the URL for all five filters is `name=Rick&status=Alive&species=Human&gender=Male&page=2` after `/character?` |
| CharacterApi.EmptyFieldsOmittedQuery | src/services/__tests__/character.api.test.ts:104-126 | empty strings are left out of the query |
| CharacterApi.EmptyFieldsOmittedUrl | src/services/__tests__/character.api.test.ts:104-126 | with two empty fields the URL is `status=Alive&gender=Male&page=1` after `/character?` |
| CharacterApi.GetCharacter | src/services/character.api.ts:32-40 | requests `/character/<id>`; an ok body is returned; any non-ok status throws `Character not found: <id>`; a rejection propagates |
| CharacterApi.GetMultipleCharacters | src/services/character.api.ts:42-53 | no ids means no request and `[]`; otherwise one request for the comma-joined ids, an object wrapped into a list, `Failed to fetch characters` on a non-ok status |
| CharacterApi.CharacterUrlNamesId | src/services/character.api.ts:33 | the id can be read back from the request URL |
| CharacterApi.MultipleUrlNamesIds | src/services/character.api.ts:45 | the ids can be read back from the request URL, in order |
| CharacterApi.MultipleExamples | src/services/__tests__/character.api.test.ts:223-277 | [1, 2] with an array body, [1] with an object body, and [] with no request |
| EpisodeApi.BuildParams | src/services/episode.api.ts:13-17 | the guarded appends produce exactly `ListQuery`: name, episode, page, each only when truthy |
| EpisodeApi.ListQuery | src/services/episode.api.ts:15-17 | the entries come in the fixed order name, episode, page, each key at most once |
| EpisodeApi.ListUrl | src/services/episode.api.ts:19 | the URL starts with the base and `/episode?`, and the rest reads back as exactly the query's entries, in order, when no value holds `&` or `=` |
| EpisodeApi.GetEpisodes | src/services/episode.api.ts:12-34 | the URL is the base, `/episode?` and the rendered query; the result is the list settle rule (404 is the empty page) |
| EpisodeApi.ListQueryFields | src/services/episode.api.ts:15-16 | the name and the episode code are in the query iff they are non-empty, with their values |
| EpisodeApi.ListQueryPage | src/services/episode.api.ts:17 | the page is in the query iff it is present and non-zero, in decimal |
| EpisodeApi.NoFiltersUrl | src/services/episode.api.ts:19 | with no filters the URL ends in a bare `?` |
| EpisodeApi.SeasonPageQuery | src/services/episode.api.ts:15-17 | a season prefix on page 2 gives `episode=S01` then `page=2` |
| EpisodeApi.GetEpisode | src/services/episode.api.ts:36-44 | requests `/episode/<id>`; any non-ok status throws `Episode not found: <id>` |
| EpisodeApi.GetMultipleEpisodes | src/services/episode.api.ts:46-57 | no ids means no request and `[]`; otherwise the comma-joined ids, an object wrapped, `Failed to fetch episodes` on a non-ok status |
| EpisodeApi.EpisodeUrlNamesId | src/services/episode.api.ts:37 | the id can be read back from the request URL |
| EpisodeApi.MultipleUrlNamesIds | src/services/episode.api.ts:49 | the ids can be read back from the request URL, in order |
| Query.Truthy | src/store/character-store.ts:72-75 | a field is spread into the payload iff it is non-empty, with its own value |
| Query.ExtendInOrder | src/services/character.api.ts:9-13 | a guarded append of a key ranked after every key so far keeps the query in key order |
| Query.TruthyField | src/services/character.api.ts:9 | the service reads a spread field back as the field itself, so leaving out `''` loses nothing |
| Query.RenderParse | src/services/character.api.ts:15 | a rendered query string reads back as exactly its entries, in order, when no value holds `&` or `=` |
| CharacterStore.Merge | src/store/character-store.ts:60-62 | each supplied key overrides, each other key keeps its old value |
| CharacterStore.MergeLaws | src/store/character-store.ts:60-62 | an empty update is the identity, merging is idempotent, and two merges are one merge of both |
| CharacterStore.SearchPayload | src/store/character-store.ts:70-76 | the payload always carries the page, and each string filter only when non-empty |
| CharacterStore.PayloadOmissionAgrees | src/store/character-store.ts:70-77 | leaving empty filters out gives the same URL as sending every filter |
| CharacterStore.WithPage | src/store/character-store.ts:51-55 | `hasNextPage` holds iff `info.next` is present; only the three list fields change |
| CharacterStore.Started | src/store/character-store.ts:67 | loading is on and the error cleared; every other field is kept |
| CharacterStore.ListSettled | src/store/character-store.ts:77-91 | success stores the page; failure stores the message or `Failed to fetch characters` with `[]`, 1 page, no next page; loading ends false; currentCharacter and filters untouched |
| CharacterStore.ItemSettled | src/store/character-store.ts:98-108 | success sets currentCharacter; failure sets the error or `Failed to fetch character` and clears it; list and paging fields untouched |
| CharacterStore.ErrorIffFailure | src/store/character-store.ts:67 | after either request the error is set iff the request failed |
| CharacterStore.ListOutcomes | src/store/character-store.ts:65-93 | an ok response stores its page with no error; a 404 gives `[]`, 0 pages, no error; another status gives the API error and 1 page; a non-Error rejection gives the fallback |
| CharacterStore.CharacterState.constructor | src/store/character-store.ts:35-49 | empty filters on page 1, no characters, not loading, no error, 1 page, no next page |
| CharacterStore.CharacterState.SetCharacters | src/store/character-store.ts:51-55 | the state becomes `WithPage` of the old state |
| CharacterStore.CharacterState.SetCurrentCharacter | src/store/character-store.ts:57 | only currentCharacter changes |
| CharacterStore.CharacterState.SetLoading | src/store/character-store.ts:58 | only loading changes |
| CharacterStore.CharacterState.SetError | src/store/character-store.ts:59 | only error changes |
| CharacterStore.CharacterState.SetFilters | src/store/character-store.ts:60-62 | filters become the merge of old filters and the update, page included only if supplied; nothing else changes |
| CharacterStore.CharacterState.SetInitialized | src/store/character-store.ts:63 | only initialized changes |
| CharacterStore.CharacterState.FetchCharacters | src/store/character-store.ts:65-93 | requests the URL of the payload of the old filters; the new state is the list settle of the started state |
| CharacterStore.CharacterState.SettleList | src/store/character-store.ts:78-91 | the success and failure branches reach exactly `ListSettled` |
| CharacterStore.CharacterState.FetchCharacter | src/store/character-store.ts:95-109 | requests the character; the new state is the item settle of the started state |
| AppStore.Payload | src/store/store.ts:82-86 | the payload has page = currentPage, name iff the query is non-empty, status iff the status filter is non-empty, nothing else |
| AppStore.Partialize | src/store/store.ts:158-161 | the snapshot holds the favorites and the view mode of the state |
| AppStore.Started | src/store/store.ts:79 | loading is on and the error cleared; every other field is kept |
| AppStore.PartializeExactly | src/store/store.ts:158-161 | two states persist the same snapshot iff their favorites and view modes agree |
| AppStore.ListSettled | src/store/store.ts:89-103 | success stores the page and keeps the error; failure stores the message or `Failed to fetch characters` with `[]`, 1 page, no next page; loading false; nothing else changes |
| AppStore.ItemSettled | src/store/store.ts:109-119 | success sets currentCharacter; failure sets the error or `Failed to fetch character` and clears it; loading false; nothing else changes |
| AppStore.ErrorIffFailure | src/store/store.ts:79 | after either request the error is set iff the request failed |
| AppStore.SettleKeepsPersisted | src/store/store.ts:77-120 | no request changes the persisted snapshot |
| AppStore.ResetPayload | src/store/store.ts:148-154 | after a reset the payload is page 1 with no other field |
| AppStore.AppState.constructor | src/store/store.ts:42-52 | the initial state |
| AppStore.AppState.SetCharacters | src/store/store.ts:54-58 | `hasNextPage` iff `info.next` is present; only the three list fields change |
| AppStore.AppState.SetCurrentCharacter | src/store/store.ts:60 | only currentCharacter changes |
| AppStore.AppState.SetLoading | src/store/store.ts:61 | only loading changes |
| AppStore.AppState.SetError | src/store/store.ts:62 | only error changes |
| AppStore.AppState.SetSearchQuery | src/store/store.ts:63 | only searchQuery changes; the page is not reset |
| AppStore.AppState.SetStatusFilter | src/store/store.ts:64 | only statusFilter changes; the page is not reset |
| AppStore.AppState.SetCurrentPage | src/store/store.ts:65 | only currentPage changes |
| AppStore.AppState.ToggleFavorite | src/store/store.ts:67-71 | the favorites become the same toggle as in the favorites store; isFavorite flips for that id only; nothing else changes |
| AppStore.AppState.SetViewMode | src/store/store.ts:73 | only viewMode changes |
| AppStore.AppState.IsFavorite | src/store/store.ts:75 | an id is a favorite iff it occurs at some position of the list |
| AppStore.AppState.FetchCharacters | src/store/store.ts:77-104 | requests the URL of the payload of the old state; the new state is the list settle of the started state |
| AppStore.AppState.SettleList | src/store/store.ts:89-103 | the try, catch and finally steps reach exactly `ListSettled` |
| AppStore.AppState.FetchCharacter | src/store/store.ts:106-120 | requests the character; the new state is the item settle of the started state |
| AppStore.AppState.SearchCharacters | src/store/store.ts:122-125 | the query is set and the page reset to 1 before the request, which uses them |
| AppStore.AppState.FilterByStatus | src/store/store.ts:127-130 | the status is set and the page reset to 1 before the request, which uses them |
| AppStore.AppState.NextPage | src/store/store.ts:132-138 | a request is made iff hasNextPage; then it is for the page one higher; otherwise nothing changes |
| AppStore.AppState.PrevPage | src/store/store.ts:140-146 | a request is made iff currentPage > 1; then for the page one lower; otherwise nothing changes; the page never goes below 1 |
| AppStore.AppState.ResetFilters | src/store/store.ts:148-154 | query and status cleared and page 1; favorites, characters and everything else unchanged |
| EpisodesPage.DigitRunEnd | app/episodes/page.tsx:60 | the greedy `\d+` stops at the first non-digit or at the end |
| EpisodesPage.FindMarker | app/episodes/page.tsx:60 | the leftmost position where the marker letter is followed by a digit, or none |
| EpisodesPage.Capture | app/episodes/page.tsx:60 | there is a capture iff the marker is followed by a digit somewhere; a capture is a non-empty run of digits |
| EpisodesPage.CaptureAt | app/episodes/page.tsx:60 | for every code, the capture is the maximal digit run after the leftmost marker followed by a digit |
| EpisodesPage.SeasonAt | app/episodes/page.tsx:59-62 | for every code with a match, the season is the value of the maximal digit run after the leftmost `S<digit>` |
| EpisodesPage.EpisodeAt | app/episodes/page.tsx:64-67 | for every code with a match, the episode number is the maximal digit run after the leftmost `E<digit>`, verbatim |
| EpisodesPage.SeasonFromEpisode | app/episodes/page.tsx:59-62 | 1 when the code has no `S` followed by a digit |
| EpisodesPage.EpisodeNumber | app/episodes/page.tsx:64-67 | always a non-empty digit string; `"1"` when the code has no `E` followed by a digit |
| EpisodesPage.Pad2 | app/episodes/page.tsx:59-67 | a two-digit or longer numeral whose value is the number |
| EpisodesPage.DigitRunEndAt | app/episodes/page.tsx:60 | a digit run ending at a non-digit is exactly what the greedy match takes |
| EpisodesPage.FindMarkerAt | app/episodes/page.tsx:60 | the first position with a match is the one found |
| EpisodesPage.CaptureSeason | app/episodes/page.tsx:60 | in `S<a>E<b>` the season capture is `a` |
| EpisodesPage.CaptureEpisode | app/episodes/page.tsx:65 | in `S<a>E<b>` the episode capture is `b` |
| EpisodesPage.CodeRoundTrip | app/episodes/page.tsx:59-67 | a generated code reads back as its season number and its zero-padded episode digits, whose value is the episode |
| EpisodesPage.FirstEpisodeCode | app/episodes/page.tsx:59-67 | `S01E02` gives season 1 and episode `"02"` |
| EpisodesPage.Defaults | app/episodes/page.tsx:59-67 | a code without digits gives season 1 and episode `"1"` |
| EpisodesPage.FirstMatchWins | app/episodes/page.tsx:60-61 | an `S` without a digit is skipped and the first match wins: `xS-S7S8` gives 7 |
| EpisodesPage.Settled | app/episodes/page.tsx:30-38 | success stores episodes, page count and the requested page; failure stores the message or `An error occurred`, clears episodes and keeps page and count; loading ends false |
| EpisodesPage.Request | app/episodes/page.tsx:25-29 | the request always carries the page, the name and the season code as given |
| EpisodesPage.Started | app/episodes/page.tsx:22-23 | loading is on and the error cleared; every other variable is kept |
| EpisodesPage.PaginationShown | app/episodes/page.tsx:216 | the pagination block is shown iff there are at least two pages |
| EpisodesPage.PreviousDisabled | app/episodes/page.tsx:220 | Previous is disabled iff the page is exactly 1, which within range means at or below 1 |
| EpisodesPage.NextDisabled | app/episodes/page.tsx:237 | Next is disabled iff the page equals the page count, which within range means at or past it |
| EpisodesPage.ErrorIffFailure | app/episodes/page.tsx:23 | after a fetch the error is set iff the request failed |
| EpisodesPage.ButtonTargets | app/episodes/page.tsx:216-237 | from a page in range, an enabled Previous or Next asks for a page in range, and a disabled one would leave it |
| EpisodesPage.BeyondLastPage | app/episodes/page.tsx:237 | since Next compares with `===`, page 5 of 3 keeps Next enabled and asks for page 6 |
| EpisodesPage.EpisodesPageState.constructor | app/episodes/page.tsx:12-18 | loading from the start, page 1 of 1, no episodes, no filters |
| EpisodesPage.EpisodesPageState.FetchEpisodes | app/episodes/page.tsx:20-39 | requests the episode list URL for page, name and season; the new state is the settle of the started state |
| EpisodesPage.EpisodesPageState.FiltersEffect | app/episodes/page.tsx:41-43 | fetches page 1 for the current query and season |
| EpisodesPage.EpisodesPageState.HandleSearch | app/episodes/page.tsx:45-48 | sets the query and resets the page to 1, nothing else |
| EpisodesPage.EpisodesPageState.HandleSeasonFilter | app/episodes/page.tsx:50-53 | sets the season and resets the page to 1, nothing else |
| EpisodesPage.EpisodesPageState.HandlePageChange | app/episodes/page.tsx:55-57 | fetches the given page for the current query and season |
| Pagination.CanGoPrevious | src/components/common/pagination.tsx:24 | going back is possible exactly from page 2 on, so the page it leads to is at least 1 |
| Pagination.PreviousDisabled | src/components/common/pagination.tsx:65 | Previous is disabled iff the page is at or below 1 or a request is loading |
| Pagination.NextDisabled | src/components/common/pagination.tsx:102 | Next is disabled iff there is no next page or a request is loading |
| Pagination.FirstShown | src/components/common/pagination.tsx:29 | First is rendered iff an `onFirst` handler is passed and the page is 3 or more |
| Pagination.LastShown | src/components/common/pagination.tsx:132 | Last is rendered iff an `onLast` handler is passed and at least two pages follow |
| Pagination.FirstDisabled | src/components/common/pagination.tsx:32 | First is disabled iff a request is loading |
| Pagination.LastDisabled | src/components/common/pagination.tsx:135 | Last is disabled iff a request is loading |
| Pagination.ButtonsAgreeWithStore | src/components/common/pagination.tsx:24-102 | an enabled Previous or Next implies the store's own guard passes, and the converse holds when not loading |
| Pagination.NextIgnoresTotal | src/components/common/pagination.tsx:102 | Next's disabled state does not depend on totalPages |
| Pagination.ShortcutsImplySteps | src/components/common/pagination.tsx:29-132 | First is shown only where Previous is possible, and Last only where two or more pages follow |
| Pagination.LoadingDisablesAll | src/components/common/pagination.tsx:32-135 | while loading every button is disabled; otherwise First and Last are enabled |
| StatusBadge.StatusStyles | src/components/character/status-badge.tsx:9-20 | the class string splits on spaces into exactly the status's classes |
| StatusBadge.StatusTokens | src/components/character/status-badge.tsx:9-20 | Alive gives `bg-green-500`, Dead `bg-red-500`, unknown `bg-yellow-500` and anything else `bg-gray-500` as the first class; no class holds a space |
| StatusBadge.StylesNameTokens | src/components/character/status-badge.tsx:9-20 | the class string begins with the status's first class and contains it as a token; Alive carries `bg-green-500`, Dead `bg-red-500`, unknown `bg-yellow-500` |
| StatusBadge.UpperChar | src/components/character/status-badge.tsx:37 | `a` to `z` map to their upper-case letters, every other character is unchanged |
| StatusBadge.Label | src/components/character/status-badge.tsx:37 | the label has the status's length, its first character upper-cased and the rest unchanged |
| StatusBadge.LabelIdempotent | src/components/character/status-badge.tsx:37 | capitalising twice is capitalising once, and the label never starts with a lower-case ASCII letter |
| StatusBadge.LabelExamples | src/components/character/__tests__/character-card.test.tsx:64-82 | `unknown` gives `Unknown`; `Alive`, `Dead` and `""` are unchanged |

## Left out

- `Pagination.ButtonsAgreeWithStore` assumes the control is wired to the combined store's page, page count, next-page flag, loading flag and page actions. Only app/page.tsx:132-139 shows such wiring, and it uses the `components/ui` variant of the control and an unseen store module, so the wiring is an assumption of this model; `Pagination.FromStore` states it.
- The network and JSON decoding. Each `fetch` followed by `response.json()` is the `Outcome` parameter, and entities hold only the fields the logic reads.
- Percent-encoding in `URLSearchParams.toString()`. Rendering is the identity on keys and values. `Query.RenderParse` assumes values hold no `&` or `=`.
- The `persist` middleware and its `localStorage` writes. Only the `partialize` projection is modelled.
- Overlapping requests. Each asynchronous action is one atomic step, so two fetches racing, where the last to settle wins, are not modelled.
- When React runs the episodes page's effect. `FiltersEffect` is the effect body, and the handlers do not call it themselves.
- Floating-point numbers, `NaN` as a page, and `parseInt` overflow. Pages and ids are unbounded integers, and parsed digit runs are natural numbers.
- Non-ASCII case mapping. `StatusBadge.UpperChar` upper-cases `a`-`z` only.
- `StatusBadge.StatusStyles` models only `getStatusStyles`. The fixed classes and the caller's `className` around it in the rendered class attribute are not modelled.
- `CharacterStore.CharacterState.SetFilters`: a key passed with the value `undefined` would overwrite the old value with `undefined`. The model treats a missing key and `undefined` alike.
- `CharacterStore.CharacterState.SetFilters` merges the update and leaves `page` as it was unless the update supplies one (src/store/character-store.ts:60-62); no page reset is modelled because the code performs none.
- A favorites-only listing with client-side filtering is not in the source, and is not modelled.
- `CharacterApi.FullFiltersUrl` and `CharacterApi.EmptyFieldsOmittedUrl` state the expected query as a concatenation of its `key=value` pieces, not as one flat string literal.
- Theme, debounce timers, rendering and styling, the duplicate `components/ui` variants, and `app/page.tsx` with its unseen `@/lib` dependencies are not part of this model.
