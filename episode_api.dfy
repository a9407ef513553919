/** `EpisodeApiService`: the three episode requests and how their responses settle. */
module EpisodeApi {
  import opened Wrappers
  import opened Http
  import Text
  import Query

  /** The optional filters of an episode list request; `episode` is a code or a code prefix such as `S01`. */
  datatype EpisodeFilters = EpisodeFilters(name: Option<string>, episode: Option<string>, page: Option<int>)

  const NoFilters: EpisodeFilters := EpisodeFilters(None, None, None)

  /**
   * The entries `getEpisodes` leaves in its `URLSearchParams`, in append order:
   * name, episode, page, each key at most once.
   */
  function ListQuery(f: EpisodeFilters): (q: seq<Query.Param>)
    ensures Query.InKeyOrder(q)
  {
    var n := Query.Entry(Query.Name, Query.StringField(f.name));
    Query.ExtendInOrder([], Query.Name, Query.StringField(f.name));
    assert [] + n == n;
    var e := Query.Entry(Query.Episode, Query.StringField(f.episode));
    Query.ExtendInOrder(n, Query.Episode, Query.StringField(f.episode));
    Query.ExtendInOrder(n + e, Query.Page, Query.NumberField(f.page));
    n + e + Query.Entry(Query.Page, Query.NumberField(f.page))
  }

  const ListPrefix: string := BaseUrl + "/episode?"

  /** The list URL: the prefix, then a query a server reads back as exactly the entries, in order. */
  function ListUrl(f: EpisodeFilters): (url: string)
    ensures |ListPrefix| <= |url| && url[..|ListPrefix|] == ListPrefix
    ensures (forall p :: p in ListQuery(f) ==> Query.Plain(p.value))
      ==> Query.Parse(url[|ListPrefix|..]) == Query.Pairs(ListQuery(f))
  {
    var q := ListQuery(f);
    var url := BaseUrl + "/episode?" + Query.Render(q);
    assert url[|ListPrefix|..] == Query.Render(q);
    if forall p :: p in q ==> Query.Plain(p.value) then
      Query.RenderParse(q);
      url
    else
      url
  }

  /** The guarded `params.append` calls of `getEpisodes`, one after the other. */
  method BuildParams(f: EpisodeFilters) returns (params: seq<Query.Param>)
    ensures params == ListQuery(f)
  {
    params := [];
    if f.name.Some? && f.name.value != "" {
      params := params + [Query.Param(Query.Name, f.name.value)];
    }
    assert params == Query.Entry(Query.Name, Query.StringField(f.name));
    if f.episode.Some? && f.episode.value != "" {
      params := params + [Query.Param(Query.Episode, f.episode.value)];
    }
    assert params == Query.Entry(Query.Name, Query.StringField(f.name))
      + Query.Entry(Query.Episode, Query.StringField(f.episode));
    if f.page.Some? && f.page.value != 0 {
      params := params + [Query.Param(Query.Page, Text.IntToString(f.page.value))];
    }
  }

  /** `getEpisodes(filters)`: one request for the filtered list; 404 is the empty page. */
  method GetEpisodes(f: EpisodeFilters, response: Outcome<Page<Episode>>) returns (call: Call<Page<Episode>>)
    ensures call.url == Some(ListUrl(f))
    ensures call.result == ListResult(response)
  {
    var params := BuildParams(f);
    var url := BaseUrl + "/episode?" + Query.Render(params);
    call := Call(Some(url), ListResult(response));
  }

  /** The query carries the name and the season code exactly when they are truthy, with those values. */
  lemma ListQueryFields(f: EpisodeFilters, v: string)
    ensures Query.Param(Query.Name, v) in ListQuery(f) <==> f.name == Some(v) && v != ""
    ensures Query.Param(Query.Episode, v) in ListQuery(f) <==> f.episode == Some(v) && v != ""
  {
    var back := Query.Entry(Query.Episode, Query.StringField(f.episode))
      + Query.Entry(Query.Page, Query.NumberField(f.page));
    assert forall p :: p in back ==> p.key != Query.Name;
    assert ListQuery(f) == Query.Entry(Query.Name, Query.StringField(f.name)) + back;
  }

  /** The page goes out exactly when it is present and not 0, written in decimal. */
  lemma ListQueryPage(f: EpisodeFilters, v: string)
    ensures Query.Param(Query.Page, v) in ListQuery(f)
      <==> f.page.Some? && f.page.value != 0 && v == Text.IntToString(f.page.value)
  {
    var front := Query.Entry(Query.Name, Query.StringField(f.name))
      + Query.Entry(Query.Episode, Query.StringField(f.episode));
    assert forall p :: p in front ==> p.key != Query.Page;
    assert ListQuery(f) == front + Query.Entry(Query.Page, Query.NumberField(f.page));
  }

  /** With no filters the URL ends in a bare `?`. */
  lemma NoFiltersUrl()
    ensures ListUrl(NoFilters) == "https://rickandmortyapi.com/api/episode?"
  {
    assert ListQuery(NoFilters) == [];
  }

  /** A season filter on page 2 becomes two entries, the season first. */
  lemma SeasonPageQuery()
    ensures ListQuery(EpisodeFilters(None, Some("S01"), Some(2)))
      == [Query.Param(Query.Episode, "S01"), Query.Param(Query.Page, "2")]
  {
    assert Text.IntToString(2) == "2";
  }

  /** `getEpisode(id)`: `<base>/episode/<id>`; any clear `ok` flag is `Episode not found: <id>`. */
  function GetEpisode(id: int, response: Outcome<Episode>): (call: Call<Episode>)
    ensures call.url == Some(BaseUrl + "/episode/" + Text.IntToString(id))
    ensures response.Ok? ==> call.result == Success(response.body)
    ensures response.Status? ==> call.result == Failure(Error("Episode not found: " + Text.IntToString(id)))
    ensures response.NetworkError? ==> call.result == Failure(response.reason)
  {
    ItemCall(BaseUrl + "/episode/", id, response, "Episode not found: " + Text.IntToString(id))
  }

  /**
   * `getMultipleEpisodes(ids)`: no request for no ids; otherwise one request
   * for the comma-joined ids, a bare object wrapped into a one-element list.
   */
  function GetMultipleEpisodes(ids: seq<int>, response: Outcome<Json<Episode>>): (call: Call<seq<Episode>>)
    ensures call.url.None? <==> ids == []
    ensures ids == [] ==> call.result == Success([])
    ensures ids != [] ==> call.url == Some(BaseUrl + "/episode/" + Text.JoinInts(ids))
    ensures ids != [] && response.Ok? ==> call.result == Success(AsList(response.body))
    ensures ids != [] && response.Status? ==> call.result == Failure(Error("Failed to fetch episodes"))
    ensures ids != [] && response.NetworkError? ==> call.result == Failure(response.reason)
  {
    ManyCall(BaseUrl + "/episode/", ids, response, "Failed to fetch episodes")
  }

  /** The id a single-episode request names can be read back from its URL. */
  lemma EpisodeUrlNamesId(id: int, response: Outcome<Episode>)
    ensures var url := GetEpisode(id, response).url.value;
      var prefix := BaseUrl + "/episode/";
      |prefix| <= |url| && url[..|prefix|] == prefix && Text.ParseInt(url[|prefix|..]) == Some(id)
  {
    Text.ParseIntToString(id);
    var prefix := BaseUrl + "/episode/";
    assert (prefix + Text.IntToString(id))[|prefix|..] == Text.IntToString(id);
  }

  /** The ids a multi-episode request names can be read back from its URL, in order. */
  lemma MultipleUrlNamesIds(ids: seq<int>, response: Outcome<Json<Episode>>)
    requires ids != []
    ensures var url := GetMultipleEpisodes(ids, response).url.value;
      var prefix := BaseUrl + "/episode/";
      |prefix| <= |url| && url[..|prefix|] == prefix
      && Text.ParseInts(Text.Split(url[|prefix|..], ',')) == Some(ids)
  {
    Text.ParseJoinInts(ids);
    var prefix := BaseUrl + "/episode/";
    assert (prefix + Text.JoinInts(ids))[|prefix|..] == Text.JoinInts(ids);
  }
}
