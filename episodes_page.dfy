/**
 * The episodes page: reading season and episode numbers out of `S01E02`-style
 * codes, the page's own state around `getEpisodes`, and when its Previous and
 * Next buttons are shown and enabled.
 */
module EpisodesPage {
  import opened Wrappers
  import opened Http
  import opened Text
  import EpisodeApi

  /** A match of `<marker>\d` starts at `i`. */
  predicate MarkerAt(s: string, marker: char, i: int) {
    0 <= i && i + 1 < |s| && s[i] == marker && IsDigit(s[i + 1])
  }

  /** The end of the longest run of digits starting at `j` (what a greedy `\d+` consumes). */
  function DigitRunEnd(s: string, j: nat): (k: nat)
    requires j <= |s|
    ensures j <= k <= |s|
    ensures forall m :: j <= m < k ==> IsDigit(s[m])
    ensures k == |s| || !IsDigit(s[k])
    decreases |s| - j
  {
    if j < |s| && IsDigit(s[j]) then DigitRunEnd(s, j + 1) else j
  }

  /** The leftmost position at or after `i` where `<marker>\d` matches, if any. */
  function FindMarker(s: string, marker: char, i: nat): (m: Option<nat>)
    requires i <= |s|
    ensures m.Some? ==> i <= m.value && MarkerAt(s, marker, m.value)
    ensures m.Some? ==> forall j :: i <= j < m.value ==> !MarkerAt(s, marker, j)
    ensures m.None? ==> forall j :: i <= j ==> !MarkerAt(s, marker, j)
    decreases |s| - i
  {
    if i + 1 >= |s| then None
    else if MarkerAt(s, marker, i) then Some(i)
    else FindMarker(s, marker, i + 1)
  }

  /** The first capture group of `code.match(/<marker>(\d+)/)`: the digits after the leftmost match. */
  function Capture(code: string, marker: char): (c: Option<string>)
    ensures c.None? <==> forall j :: 0 <= j ==> !MarkerAt(code, marker, j)
    ensures c.Some? ==> |c.value| >= 1 && AllDigits(c.value)
  {
    match FindMarker(code, marker, 0)
    case None => None
    case Some(p) => Some(code[p + 1..DigitRunEnd(code, p + 1)])
  }

  /** `getSeasonFromEpisode(code)`: the number after the first `S<digit>`, or 1 when there is none. */
  function SeasonFromEpisode(code: string): (season: nat)
    ensures Capture(code, 'S').None? ==> season == 1
  {
    match Capture(code, 'S')
    case None => 1
    case Some(digits) => ParseDigits(digits)
  }

  /** `getEpisodeNumber(code)`: the digits after the first `E<digit>`, verbatim, or "1" when there is none. */
  function EpisodeNumber(code: string): (number: string)
    ensures |number| >= 1 && AllDigits(number)
    ensures Capture(code, 'E').None? ==> number == "1"
  {
    match Capture(code, 'E')
    case None => "1"
    case Some(digits) => digits
  }

  /** A number written with at least two digits, as episode codes write them. */
  function Pad2(n: nat): (s: string)
    ensures |s| >= 2 && AllDigits(s) && ParseDigits(s) == n
  {
    ParseNatToString(n);
    if n < 10 then
      LeadingZero(NatToString(n));
      "0" + NatToString(n)
    else NatToString(n)
  }

  /** The code of episode `episode` of season `season`, such as `S01E02`. */
  function EpisodeCode(season: nat, episode: nat): string {
    "S" + Pad2(season) + "E" + Pad2(episode)
  }

  /** A run of digits followed by a non-digit or the end is exactly what `DigitRunEnd` consumes. */
  lemma {:induction false} DigitRunEndAt(s: string, j: nat, k: nat)
    requires j <= k <= |s|
    requires forall m :: j <= m < k ==> IsDigit(s[m])
    requires k == |s| || !IsDigit(s[k])
    ensures DigitRunEnd(s, j) == k
    decreases k - j
  {
    if j < k {
      DigitRunEndAt(s, j + 1, k);
    }
  }

  /** The search finds the first match: positions without one are skipped. */
  lemma {:induction false} FindMarkerAt(s: string, marker: char, i: nat, p: nat)
    requires i <= p && MarkerAt(s, marker, p)
    requires forall j :: i <= j < p ==> !MarkerAt(s, marker, j)
    ensures FindMarker(s, marker, i) == Some(p)
    decreases p - i
  {
    if i < p {
      FindMarkerAt(s, marker, i + 1, p);
    }
  }

  /**
   * For any code: when the leftmost match of `<marker>\d` starts at `p` and the
   * digits after it run up to `k`, the capture is exactly those digits.
   */
  lemma CaptureAt(code: string, marker: char, p: nat, k: nat)
    requires MarkerAt(code, marker, p)
    requires forall j :: 0 <= j < p ==> !MarkerAt(code, marker, j)
    requires p + 1 <= k <= |code|
    requires forall m :: p + 1 <= m < k ==> IsDigit(code[m])
    requires k == |code| || !IsDigit(code[k])
    ensures Capture(code, marker) == Some(code[p + 1..k])
  {
    FindMarkerAt(code, marker, 0, p);
    DigitRunEndAt(code, p + 1, k);
  }

  /** The season is the value of the maximal digit run after the leftmost `S<digit>`. */
  lemma SeasonAt(code: string, p: nat, k: nat)
    requires MarkerAt(code, 'S', p)
    requires forall j :: 0 <= j < p ==> !MarkerAt(code, 'S', j)
    requires p + 1 <= k <= |code|
    requires forall m :: p + 1 <= m < k ==> IsDigit(code[m])
    requires k == |code| || !IsDigit(code[k])
    ensures SeasonFromEpisode(code) == ParseDigits(code[p + 1..k])
  {
    CaptureAt(code, 'S', p, k);
  }

  /** The episode number is the maximal digit run after the leftmost `E<digit>`, verbatim. */
  lemma EpisodeAt(code: string, p: nat, k: nat)
    requires MarkerAt(code, 'E', p)
    requires forall j :: 0 <= j < p ==> !MarkerAt(code, 'E', j)
    requires p + 1 <= k <= |code|
    requires forall m :: p + 1 <= m < k ==> IsDigit(code[m])
    requires k == |code| || !IsDigit(code[k])
    ensures EpisodeNumber(code) == code[p + 1..k]
  {
    CaptureAt(code, 'E', p, k);
  }

  /** In `S<a>E<b>` the `S` pattern captures the season digits `a`. */
  lemma CaptureSeason(a: string, b: string)
    requires |a| >= 1 && AllDigits(a) && |b| >= 1 && AllDigits(b)
    ensures Capture("S" + a + "E" + b, 'S') == Some(a)
  {
    var code := "S" + a + "E" + b;
    var e := 1 + |a|;
    assert code[e] == 'E';
    assert forall m :: 1 <= m < e ==> code[m] == a[m - 1];
    FindMarkerAt(code, 'S', 0, 0);
    DigitRunEndAt(code, 1, e);
    assert code[1..e] == a;
  }

  /** In `S<a>E<b>` the `E` pattern captures the episode digits `b`. */
  lemma CaptureEpisode(a: string, b: string)
    requires |a| >= 1 && AllDigits(a) && |b| >= 1 && AllDigits(b)
    ensures Capture("S" + a + "E" + b, 'E') == Some(b)
  {
    var code := "S" + a + "E" + b;
    var e := 1 + |a|;
    assert code[0] == 'S' && code[e] == 'E';
    assert forall m :: 1 <= m < e ==> code[m] == a[m - 1];
    assert forall m :: e + 1 <= m < |code| ==> code[m] == b[m - e - 1];
    forall j | 0 <= j < e ensures !MarkerAt(code, 'E', j) {
      if j > 0 {
        assert IsDigit(a[j - 1]);
      }
    }
    assert MarkerAt(code, 'E', e) by {
      assert code[e + 1] == b[0];
    }
    FindMarkerAt(code, 'E', 0, e);
    DigitRunEndAt(code, e + 1, |code|);
    assert Capture(code, 'E') == Some(code[e + 1..|code|]);
    assert code[e + 1..|code|] == b;
  }

  /**
   * Both parsers read a generated code back: the season as its number, the
   * episode as its zero-padded digits, whose value is the episode number.
   */
  lemma CodeRoundTrip(season: nat, episode: nat)
    ensures SeasonFromEpisode(EpisodeCode(season, episode)) == season
    ensures EpisodeNumber(EpisodeCode(season, episode)) == Pad2(episode)
    ensures ParseDigits(EpisodeNumber(EpisodeCode(season, episode))) == episode
  {
    CaptureSeason(Pad2(season), Pad2(episode));
    CaptureEpisode(Pad2(season), Pad2(episode));
  }

  /** The code every episode of the first episode list carries. */
  lemma FirstEpisodeCode()
    ensures SeasonFromEpisode("S01E02") == 1 && EpisodeNumber("S01E02") == "02"
  {
    CodeRoundTrip(1, 2);
    assert EpisodeCode(1, 2) == "S01E02";
  }

  /** Without a marker followed by a digit the defaults apply. */
  lemma Defaults(code: string)
    requires forall i :: 0 <= i < |code| ==> !IsDigit(code[i])
    ensures SeasonFromEpisode(code) == 1 && EpisodeNumber(code) == "1"
  {
    assert forall i :: !MarkerAt(code, 'S', i) && !MarkerAt(code, 'E', i);
  }

  /** A bare `S` with no digit does not count, and the first match wins. */
  lemma FirstMatchWins()
    ensures SeasonFromEpisode("xS-S7S8") == 7
  {
    var code := "xS-S7S8";
    assert !MarkerAt(code, 'S', 0) && !MarkerAt(code, 'S', 1) && !MarkerAt(code, 'S', 2);
    FindMarkerAt(code, 'S', 0, 3);
    DigitRunEndAt(code, 4, 5);
    assert code[4..5] == "7";
  }

  const ErrorFallback: string := "An error occurred"

  /** The page's state variables, as one value. */
  datatype State = State(
    episodes: seq<Episode>, loading: bool, error: Option<string>,
    currentPage: int, totalPages: int, searchQuery: string, seasonFilter: string)

  /** The first state updates of `fetchEpisodes`: loading on, error cleared. */
  function Started(s: State): (t: State)
    ensures t.loading && t.error == None
    ensures t.(loading := s.loading, error := s.error) == s
  {
    s.(loading := true, error := None)
  }

  /** Where `fetchEpisodes(page, …)` leaves the page once the request settles with `r`. */
  function Settled(s: State, page: int, r: Result<Page<Episode>>): (t: State)
    ensures !t.loading
    ensures t.searchQuery == s.searchQuery && t.seasonFilter == s.seasonFilter
    ensures r.Success? ==> t.episodes == r.value.results && t.totalPages == r.value.info.pages
    ensures r.Success? ==> t.currentPage == page && t.error == s.error
    ensures r.Failure? ==> t.episodes == [] && t.error == Some(ErrorText(r.error, ErrorFallback))
    ensures r.Failure? ==> t.currentPage == s.currentPage && t.totalPages == s.totalPages
  {
    match r
    case Success(data) =>
      s.(episodes := data.results, totalPages := data.info.pages, currentPage := page, loading := false)
    case Failure(e) =>
      s.(error := Some(ErrorText(e, ErrorFallback)), episodes := [], loading := false)
  }

  /**
   * The filters `fetchEpisodes(page, name, episode)` passes: all three, always;
   * the service then leaves an empty name or season out of the query.
   */
  function Request(page: int, name: string, episode: string): (f: EpisodeApi.EpisodeFilters)
    ensures f.page == Some(page) && f.name == Some(name) && f.episode == Some(episode)
  {
    EpisodeApi.EpisodeFilters(Some(name), Some(episode), Some(page))
  }

  /** After a fetch the page shows an error exactly when the request failed. */
  lemma ErrorIffFailure(s: State, page: int, r: Result<Page<Episode>>)
    ensures Settled(Started(s), page, r).error.None? <==> r.Success?
  {
  }

  /** The current page lies within the known page count. */
  predicate InRange(s: State) {
    1 <= s.currentPage <= s.totalPages
  }

  /** The pagination block is rendered only when there is more than one page. */
  function PaginationShown(s: State): (shown: bool)
    ensures shown <==> s.totalPages >= 2
  {
    s.totalPages > 1
  }

  /** Previous is disabled exactly on page 1. */
  function PreviousDisabled(s: State): (disabled: bool)
    ensures disabled <==> s.currentPage == 1
    ensures InRange(s) ==> (disabled <==> s.currentPage <= 1)
  {
    s.currentPage == 1
  }

  /** Next is disabled exactly on the last page. */
  function NextDisabled(s: State): (disabled: bool)
    ensures disabled <==> s.currentPage == s.totalPages
    ensures InRange(s) ==> (disabled <==> s.currentPage >= s.totalPages)
  {
    s.currentPage == s.totalPages
  }

  /**
   * From a page within range, an enabled Previous or Next button asks for a
   * page that is within range too.
   */
  lemma ButtonTargets(s: State)
    requires InRange(s) && PaginationShown(s)
    ensures !PreviousDisabled(s) ==> InRange(s.(currentPage := s.currentPage - 1))
    ensures !NextDisabled(s) ==> InRange(s.(currentPage := s.currentPage + 1))
    ensures PreviousDisabled(s) ==> s.currentPage - 1 < 1
    ensures NextDisabled(s) ==> s.currentPage + 1 > s.totalPages
  {
  }

  /**
   * The buttons test `===`, not `<=`/`>=`: a page beyond the count keeps Next
   * enabled, and its target is further beyond.
   */
  lemma BeyondLastPage()
    ensures var s := State([], false, None, 5, 3, "", "");
      PaginationShown(s) && !NextDisabled(s) && !InRange(s.(currentPage := s.currentPage + 1))
  {
  }

  class EpisodesPageState {
    var episodes: seq<Episode>
    var loading: bool
    var error: Option<string>
    var currentPage: int
    var totalPages: int
    var searchQuery: string
    var seasonFilter: string

    function View(): State
      reads this
    {
      State(episodes, loading, error, currentPage, totalPages, searchQuery, seasonFilter)
    }

    /** The initial state: loading from the start, page 1 of 1, no filters. */
    constructor()
      ensures View() == State([], true, None, 1, 1, "", "")
    {
      episodes := [];
      loading := true;
      error := None;
      currentPage := 1;
      totalPages := 1;
      searchQuery := "";
      seasonFilter := "";
    }

    /**
     * `fetchEpisodes(page, name, episode)`: loading on and error cleared, one
     * request, then the list, count and page, or the error and an empty list;
     * loading off in every case.
     */
    method FetchEpisodes(page: int, name: string, episode: string, response: Outcome<Page<Episode>>)
      returns (call: Call<Page<Episode>>)
      modifies this
      ensures call.url == Some(EpisodeApi.ListUrl(Request(page, name, episode)))
      ensures View() == Settled(Started(old(View())), page, ListResult(response))
    {
      loading := true;
      error := None;
      call := EpisodeApi.GetEpisodes(Request(page, name, episode), response);
      match call.result {
        case Success(data) =>
          episodes := data.results;
          totalPages := data.info.pages;
          currentPage := page;
        case Failure(e) =>
          error := Some(ErrorText(e, ErrorFallback));
          episodes := [];
      }
      loading := false;
    }

    /** The effect on `[searchQuery, seasonFilter]`: the first page for the current filters. */
    method FiltersEffect(response: Outcome<Page<Episode>>) returns (call: Call<Page<Episode>>)
      modifies this
      ensures call.url == Some(EpisodeApi.ListUrl(Request(1, old(searchQuery), old(seasonFilter))))
      ensures View() == Settled(Started(old(View())), 1, ListResult(response))
    {
      call := FetchEpisodes(1, searchQuery, seasonFilter, response);
    }

    /** `handleSearch(query)`: the query set and the page back to 1. */
    method HandleSearch(query: string)
      modifies this
      ensures View() == old(View()).(searchQuery := query, currentPage := 1)
    {
      searchQuery := query;
      currentPage := 1;
    }

    /** `handleSeasonFilter(season)`: the season set and the page back to 1. */
    method HandleSeasonFilter(season: string)
      modifies this
      ensures View() == old(View()).(seasonFilter := season, currentPage := 1)
    {
      seasonFilter := season;
      currentPage := 1;
    }

    /** `handlePageChange(page)`: that page for the current filters. */
    method HandlePageChange(page: int, response: Outcome<Page<Episode>>) returns (call: Call<Page<Episode>>)
      modifies this
      ensures call.url == Some(EpisodeApi.ListUrl(Request(page, old(searchQuery), old(seasonFilter))))
      ensures View() == Settled(Started(old(View())), page, ListResult(response))
    {
      call := FetchEpisodes(page, searchQuery, seasonFilter, response);
    }
  }
}
