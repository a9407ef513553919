/**
 * What the API services exchange with the network: the outcome of one `fetch`
 * (taken as a parameter, since the network is outside the model), the value a
 * rejected promise carries, the list envelope and the two entities.
 */
module Http {
  import opened Wrappers
  import Text

  const BaseUrl: string := "https://rickandmortyapi.com/api"

  /** A thrown value: an `Error` object with its `message`, or anything else. */
  datatype Thrown = Error(message: string) | NonError

  /**
   * The outcome of `fetch(url)` followed by `response.json()`: a response whose
   * `ok` flag is set, with its parsed body; a response whose `ok` flag is clear,
   * with its status code and status text; or a rejected promise.
   */
  datatype Outcome<B> = Ok(body: B) | Status(code: int, statusText: string) | NetworkError(reason: Thrown)

  /** A settled service call: the resolved value or the thrown one. */
  datatype Result<T> = Success(value: T) | Failure(error: Thrown)

  /** The request a service call issued (None when it issued none) and how it settled. */
  datatype Call<T> = Call(url: Option<string>, result: Result<T>)

  datatype Info = Info(count: int, pages: int, next: Option<string>, prev: Option<string>)

  /** The paginated list envelope `{info, results}`. */
  datatype Page<T> = Page(info: Info, results: seq<T>)

  /** The body of a multi-id request: an array, or a bare object for a single id. */
  datatype Json<T> = Array(items: seq<T>) | Object(item: T)

  datatype Character = Character(id: int, name: string, status: string, species: string, gender: string)

  datatype Episode = Episode(id: int, name: string, episode: string)

  /** The page a 404 on a list endpoint stands for. */
  function EmptyPage<T>(): Page<T> {
    Page(Info(0, 0, None, None), [])
  }

  /** `API Error: <status> - <statusText>`. */
  function ApiErrorMessage(code: int, statusText: string): (m: string)
    ensures |m| >= |"API Error: "| + |statusText|
    ensures m[..|"API Error: "|] == "API Error: "
    ensures m[|m| - |statusText|..] == statusText
  {
    "API Error: " + (Text.IntToString(code) + " - " + statusText)
  }

  /** Index of the first space in `s` (|s| when there is none). */
  function FirstSpace(s: string): nat {
    if s == [] || s[0] == ' ' then 0 else 1 + FirstSpace(s[1..])
  }

  lemma {:induction false} FirstSpaceAfter(a: string, t: string)
    requires ' ' !in a
    ensures FirstSpace(a + " - " + t) == |a|
  {
    if a != [] {
      assert (a + " - " + t)[1..] == a[1..] + " - " + t;
      FirstSpaceAfter(a[1..], t);
    }
  }

  /** Distinct statuses give distinct messages: the message names its status code and text. */
  lemma ApiErrorMessageInjective(c1: int, t1: string, c2: int, t2: string)
    requires ApiErrorMessage(c1, t1) == ApiErrorMessage(c2, t2)
    ensures c1 == c2 && t1 == t2
  {
    var p := "API Error: ";
    var a, b := Text.IntToString(c1), Text.IntToString(c2);
    var m1, m2 := a + " - " + t1, b + " - " + t2;
    assert ApiErrorMessage(c1, t1) == p + m1 && ApiErrorMessage(c2, t2) == p + m2;
    assert m1 == (p + m1)[|p|..] == (p + m2)[|p|..] == m2;
    FirstSpaceAfter(a, t1);
    FirstSpaceAfter(b, t2);
    assert a == m1[..|a|] == m2[..|b|] == b;
    Text.IntToStringInjective(c1, c2);
    assert t1 == m1[|a| + 3..] == m2[|b| + 3..] == t2;
  }

  /** `error instanceof Error ? error.message : fallback`. */
  function ErrorText(e: Thrown, fallback: string): (text: string)
    ensures e.Error? ==> text == e.message
    ensures e.NonError? ==> text == fallback
  {
    match e
    case Error(m) => m
    case NonError => fallback
  }

  /** A list endpoint's settlement: 404 is the empty page, any other clear `ok` flag an API error. */
  function ListResult<T>(response: Outcome<Page<T>>): (r: Result<Page<T>>)
    ensures r.Failure? <==> response.NetworkError? || (response.Status? && response.code != 404)
    ensures response.Ok? ==> r == Success(response.body)
    ensures response.Status? && response.code == 404 ==> r == Success(EmptyPage())
    ensures response.Status? && response.code == 404 ==> r.value.results == [] && r.value.info == Info(0, 0, None, None)
    ensures response.Status? && response.code != 404 ==> r == Failure(Error(ApiErrorMessage(response.code, response.statusText)))
    ensures response.NetworkError? ==> r == Failure(response.reason)
  {
    match response
    case Ok(page) => Success(page)
    case Status(code, text) =>
      if code == 404 then Success(EmptyPage()) else Failure(Error(ApiErrorMessage(code, text)))
    case NetworkError(e) => Failure(e)
  }

  /** `Array.isArray(data) ? data : [data]`. */
  function AsList<T>(body: Json<T>): (xs: seq<T>)
    ensures body.Array? ==> xs == body.items
    ensures body.Object? ==> xs == [body.item]
  {
    match body
    case Array(items) => items
    case Object(item) => [item]
  }

  /** `fetch(<prefix><id>)`, failing with `notFound` on a clear `ok` flag. */
  function ItemCall<T>(prefix: string, id: int, response: Outcome<T>, notFound: string): Call<T> {
    var url := prefix + Text.IntToString(id);
    match response
    case Ok(item) => Call(Some(url), Success(item))
    case Status(_, _) => Call(Some(url), Failure(Error(notFound)))
    case NetworkError(e) => Call(Some(url), Failure(e))
  }

  /** No request for no ids; otherwise one request for the comma-joined ids, failing with `failure`. */
  function ManyCall<T>(prefix: string, ids: seq<int>, response: Outcome<Json<T>>, failure: string): Call<seq<T>> {
    if |ids| == 0 then Call(None, Success([]))
    else
      var url := prefix + Text.JoinInts(ids);
      match response
      case Ok(body) => Call(Some(url), Success(AsList(body)))
      case Status(_, _) => Call(Some(url), Failure(Error(failure)))
      case NetworkError(e) => Call(Some(url), Failure(e))
  }
}
