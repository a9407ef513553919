/** `CharacterApiService`: the three character requests and how their responses settle. */
module CharacterApi {
  import opened Wrappers
  import opened Http
  import Text
  import Query

  /** The optional search filters of a list request; `page` is any number. */
  datatype SearchFilters = SearchFilters(
    name: Option<string>, status: Option<string>, species: Option<string>,
    gender: Option<string>, page: Option<int>)

  const NoFilters: SearchFilters := SearchFilters(None, None, None, None, None)

  /**
   * The entries `getCharacters` leaves in its `URLSearchParams`, in append order:
   * name, status, species, gender, page, each key at most once.
   */
  function ListQuery(f: SearchFilters): (q: seq<Query.Param>)
    ensures Query.InKeyOrder(q)
  {
    var n := Query.Entry(Query.Name, Query.StringField(f.name));
    Query.ExtendInOrder([], Query.Name, Query.StringField(f.name));
    assert [] + n == n;
    var st := Query.Entry(Query.Status, Query.StringField(f.status));
    Query.ExtendInOrder(n, Query.Status, Query.StringField(f.status));
    var sp := Query.Entry(Query.Species, Query.StringField(f.species));
    Query.ExtendInOrder(n + st, Query.Species, Query.StringField(f.species));
    var g := Query.Entry(Query.Gender, Query.StringField(f.gender));
    Query.ExtendInOrder(n + st + sp, Query.Gender, Query.StringField(f.gender));
    Query.ExtendInOrder(n + st + sp + g, Query.Page, Query.NumberField(f.page));
    n + st + sp + g + Query.Entry(Query.Page, Query.NumberField(f.page))
  }

  const ListPrefix: string := BaseUrl + "/character?"

  /** The list URL: the prefix, then a query a server reads back as exactly the entries, in order. */
  function ListUrl(f: SearchFilters): (url: string)
    ensures |ListPrefix| <= |url| && url[..|ListPrefix|] == ListPrefix
    ensures (forall p :: p in ListQuery(f) ==> Query.Plain(p.value))
      ==> Query.Parse(url[|ListPrefix|..]) == Query.Pairs(ListQuery(f))
  {
    var q := ListQuery(f);
    var url := BaseUrl + "/character?" + Query.Render(q);
    assert url[|ListPrefix|..] == Query.Render(q);
    if forall p :: p in q ==> Query.Plain(p.value) then
      Query.RenderParse(q);
      url
    else
      url
  }

  /** The guarded `params.append` calls of `getCharacters`, one after the other. */
  method BuildParams(f: SearchFilters) returns (params: seq<Query.Param>)
    ensures params == ListQuery(f)
  {
    params := [];
    if f.name.Some? && f.name.value != "" {
      params := params + [Query.Param(Query.Name, f.name.value)];
    }
    assert params == Query.Entry(Query.Name, Query.StringField(f.name));
    if f.status.Some? && f.status.value != "" {
      params := params + [Query.Param(Query.Status, f.status.value)];
    }
    assert params == Query.Entry(Query.Name, Query.StringField(f.name))
      + Query.Entry(Query.Status, Query.StringField(f.status));
    if f.species.Some? && f.species.value != "" {
      params := params + [Query.Param(Query.Species, f.species.value)];
    }
    assert params == Query.Entry(Query.Name, Query.StringField(f.name))
      + Query.Entry(Query.Status, Query.StringField(f.status))
      + Query.Entry(Query.Species, Query.StringField(f.species));
    if f.gender.Some? && f.gender.value != "" {
      params := params + [Query.Param(Query.Gender, f.gender.value)];
    }
    assert params == Query.Entry(Query.Name, Query.StringField(f.name))
      + Query.Entry(Query.Status, Query.StringField(f.status))
      + Query.Entry(Query.Species, Query.StringField(f.species))
      + Query.Entry(Query.Gender, Query.StringField(f.gender));
    if f.page.Some? && f.page.value != 0 {
      params := params + [Query.Param(Query.Page, Text.IntToString(f.page.value))];
    }
  }

  /** `getCharacters(filters)`: one request for the filtered list; 404 is the empty page. */
  method GetCharacters(f: SearchFilters, response: Outcome<Page<Character>>) returns (call: Call<Page<Character>>)
    ensures call.url == Some(ListUrl(f))
    ensures call.result == ListResult(response)
  {
    var params := BuildParams(f);
    var url := BaseUrl + "/character?" + Query.Render(params);
    call := Call(Some(url), ListResult(response));
  }

  /** The string filter a query key is read from. */
  function StringFilter(f: SearchFilters, k: Query.Key): Option<string>
    requires k != Query.Episode && k != Query.Page
  {
    match k
    case Name => f.name
    case Status => f.status
    case Species => f.species
    case Gender => f.gender
  }

  /**
   * The query carries a string field exactly when the filter holds a truthy
   * value for it, and then with that value.
   */
  lemma ListQueryFields(f: SearchFilters, k: Query.Key, v: string)
    requires k != Query.Episode && k != Query.Page
    ensures Query.Param(k, v) in ListQuery(f) <==> StringFilter(f, k) == Some(v) && v != ""
  {
    var p := Query.Param(k, v);
    var n := Query.Entry(Query.Name, Query.StringField(f.name));
    var st := Query.Entry(Query.Status, Query.StringField(f.status));
    var sp := Query.Entry(Query.Species, Query.StringField(f.species));
    var g := Query.Entry(Query.Gender, Query.StringField(f.gender));
    var pg := Query.Entry(Query.Page, Query.NumberField(f.page));
    assert ListQuery(f) == n + st + sp + g + pg;
    assert p !in pg;
    match k {
      case Name => assert p !in st + sp + g;
      case Status => assert p !in n + sp + g;
      case Species => assert p !in n + st + g;
      case Gender => assert p !in n + st + sp;
    }
  }

  /** The page goes out exactly when it is present and not 0, written in decimal. */
  lemma ListQueryPage(f: SearchFilters, v: string)
    ensures Query.Param(Query.Page, v) in ListQuery(f)
      <==> f.page.Some? && f.page.value != 0 && v == Text.IntToString(f.page.value)
  {
    var front := Query.Entry(Query.Name, Query.StringField(f.name))
      + Query.Entry(Query.Status, Query.StringField(f.status))
      + Query.Entry(Query.Species, Query.StringField(f.species))
      + Query.Entry(Query.Gender, Query.StringField(f.gender));
    assert forall p :: p in front ==> p.key != Query.Page;
    assert ListQuery(f) == front + Query.Entry(Query.Page, Query.NumberField(f.page));
  }

  /** With no filters the URL ends in a bare `?`. */
  lemma NoFiltersUrl()
    ensures ListUrl(NoFilters) == "https://rickandmortyapi.com/api/character?"
  {
    assert ListQuery(NoFilters) == [];
  }

  /** All five filters become five entries, in the fixed order. */
  lemma FullFiltersQuery()
    ensures ListQuery(SearchFilters(Some("Rick"), Some("Alive"), Some("Human"), Some("Male"), Some(2)))
      == [Query.Param(Query.Name, "Rick"), Query.Param(Query.Status, "Alive"), Query.Param(Query.Species, "Human"),
          Query.Param(Query.Gender, "Male"), Query.Param(Query.Page, "2")]
  {
    assert Text.IntToString(2) == "2";
  }

  /** The query text for all five filters. */
  lemma FullFiltersUrl()
    ensures ListUrl(SearchFilters(Some("Rick"), Some("Alive"), Some("Human"), Some("Male"), Some(2)))
      == BaseUrl + "/character?" + ("name=Rick" + "&" + "status=Alive" + "&" + "species=Human" + "&" + "gender=Male" + "&" + "page=2")
  {
    FullFiltersQuery();
    Query.RenderFive(Query.Param(Query.Name, "Rick"), Query.Param(Query.Status, "Alive"), Query.Param(Query.Species, "Human"),
                     Query.Param(Query.Gender, "Male"), Query.Param(Query.Page, "2"));
    assert Query.Piece(Query.Param(Query.Name, "Rick")) == "name=Rick";
    assert Query.Piece(Query.Param(Query.Status, "Alive")) == "status=Alive";
    assert Query.Piece(Query.Param(Query.Species, "Human")) == "species=Human";
    assert Query.Piece(Query.Param(Query.Gender, "Male")) == "gender=Male";
    assert Query.Piece(Query.Param(Query.Page, "2")) == "page=2";
  }

  /** Empty strings are left out, never sent as `field=`. */
  lemma EmptyFieldsOmittedQuery()
    ensures ListQuery(SearchFilters(Some(""), Some("Alive"), Some(""), Some("Male"), Some(1)))
      == [Query.Param(Query.Status, "Alive"), Query.Param(Query.Gender, "Male"), Query.Param(Query.Page, "1")]
  {
    assert Text.IntToString(1) == "1";
  }

  /** The query text when two of the fields are empty. */
  lemma EmptyFieldsOmittedUrl()
    ensures ListUrl(SearchFilters(Some(""), Some("Alive"), Some(""), Some("Male"), Some(1)))
      == BaseUrl + "/character?" + ("status=Alive" + "&" + "gender=Male" + "&" + "page=1")
  {
    EmptyFieldsOmittedQuery();
    Query.RenderThree(Query.Param(Query.Status, "Alive"), Query.Param(Query.Gender, "Male"), Query.Param(Query.Page, "1"));
    assert Query.Piece(Query.Param(Query.Status, "Alive")) == "status=Alive";
    assert Query.Piece(Query.Param(Query.Gender, "Male")) == "gender=Male";
    assert Query.Piece(Query.Param(Query.Page, "1")) == "page=1";
  }

  /** `getCharacter(id)`: `<base>/character/<id>`; any clear `ok` flag is `Character not found: <id>`. */
  function GetCharacter(id: int, response: Outcome<Character>): (call: Call<Character>)
    ensures call.url == Some(BaseUrl + "/character/" + Text.IntToString(id))
    ensures response.Ok? ==> call.result == Success(response.body)
    ensures response.Status? ==> call.result == Failure(Error("Character not found: " + Text.IntToString(id)))
    ensures response.NetworkError? ==> call.result == Failure(response.reason)
  {
    ItemCall(BaseUrl + "/character/", id, response, "Character not found: " + Text.IntToString(id))
  }

  /**
   * `getMultipleCharacters(ids)`: no request for no ids; otherwise one request
   * for the comma-joined ids, a bare object wrapped into a one-element list.
   */
  function GetMultipleCharacters(ids: seq<int>, response: Outcome<Json<Character>>): (call: Call<seq<Character>>)
    ensures call.url.None? <==> ids == []
    ensures ids == [] ==> call.result == Success([])
    ensures ids != [] ==> call.url == Some(BaseUrl + "/character/" + Text.JoinInts(ids))
    ensures ids != [] && response.Ok? ==> call.result == Success(AsList(response.body))
    ensures ids != [] && response.Status? ==> call.result == Failure(Error("Failed to fetch characters"))
    ensures ids != [] && response.NetworkError? ==> call.result == Failure(response.reason)
  {
    ManyCall(BaseUrl + "/character/", ids, response, "Failed to fetch characters")
  }

  /** The id a single-character request names can be read back from its URL. */
  lemma CharacterUrlNamesId(id: int, response: Outcome<Character>)
    ensures var url := GetCharacter(id, response).url.value;
      var prefix := BaseUrl + "/character/";
      |prefix| <= |url| && url[..|prefix|] == prefix && Text.ParseInt(url[|prefix|..]) == Some(id)
  {
    Text.ParseIntToString(id);
    var prefix := BaseUrl + "/character/";
    assert (prefix + Text.IntToString(id))[|prefix|..] == Text.IntToString(id);
  }

  /** The ids a multi-character request names can be read back from its URL, in order. */
  lemma MultipleUrlNamesIds(ids: seq<int>, response: Outcome<Json<Character>>)
    requires ids != []
    ensures var url := GetMultipleCharacters(ids, response).url.value;
      var prefix := BaseUrl + "/character/";
      |prefix| <= |url| && url[..|prefix|] == prefix
      && Text.ParseInts(Text.Split(url[|prefix|..], ',')) == Some(ids)
  {
    Text.ParseJoinInts(ids);
    var prefix := BaseUrl + "/character/";
    assert (prefix + Text.JoinInts(ids))[|prefix|..] == Text.JoinInts(ids);
  }

  lemma MultipleExamples(c: Character, d: Character, response: Outcome<Json<Character>>)
    ensures GetMultipleCharacters([1, 2], Ok(Array([c, d])))
      == Call(Some(BaseUrl + "/character/" + "1,2"), Success([c, d]))
    ensures GetMultipleCharacters([1], Ok(Object(c)))
      == Call(Some(BaseUrl + "/character/" + "1"), Success([c]))
    ensures GetMultipleCharacters([], response) == Call(None, Success([]))
  {
    assert Text.IntToString(1) == "1";
    assert Text.IntToString(2) == "2";
    assert Text.IntStrings([1, 2]) == ["1", "2"];
    assert Text.IntStrings([1]) == ["1"];
    Text.JoinCons("1", ["2"], ',');
    assert ["1"] + ["2"] == ["1", "2"];
    assert Text.JoinInts([1, 2]) == "1,2";
    assert Text.JoinInts([1]) == "1";
  }
}
