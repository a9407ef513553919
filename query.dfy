/**
 * The query string of a list request: the entries of a `URLSearchParams` that is
 * filled by guarded `append` calls, and its `toString()` (the percent-encoding is
 * the identity on the strings modelled here).
 */
module Query {
  import opened Wrappers
  import opened Text

  /** The parameter names the two list requests use. */
  datatype Key = Name | Status | Species | Gender | Episode | Page

  function KeyText(k: Key): (t: string)
    ensures '&' !in t && '=' !in t
  {
    match k
    case Name => "name"
    case Status => "status"
    case Species => "species"
    case Gender => "gender"
    case Episode => "episode"
    case Page => "page"
  }

  datatype Param = Param(key: Key, value: string)

  /** `if (field) params.append(key, field)` for a string field: absent and '' are skipped. */
  function StringField(field: Option<string>): string {
    if field.Some? then field.value else ""
  }

  /** `...(field && { key: field })`: a string spread into a payload only when it is truthy. */
  function Truthy(field: string): (o: Option<string>)
    ensures o.None? <==> field == ""
    ensures o.Some? ==> o.value == field
  {
    if field != "" then Some(field) else None
  }

  /** Reading a spread field back as the service does gives the field itself: '' stays ''. */
  lemma TruthyField(field: string)
    ensures StringField(Truthy(field)) == field
  {
  }

  /** `if (page) params.append('page', page.toString())`: absent and 0 are skipped. */
  function NumberField(field: Option<int>): (s: string)
    ensures s == "" <==> field == None || field == Some(0)
  {
    if field.Some? && field.value != 0 then IntToString(field.value) else ""
  }

  /** The entry one guarded `append(key, value)` adds: none when the value is ''. */
  function Entry(key: Key, value: string): (r: seq<Param>)
    ensures |r| <= 1 && (r != [] <==> value != "")
    ensures r != [] ==> r[0] == Param(key, value)
  {
    if value != "" then [Param(key, value)] else []
  }

  /** The position of each key in the fixed append order of the list requests. */
  function Rank(k: Key): nat {
    match k
    case Name => 0
    case Status => 1
    case Species => 2
    case Gender => 3
    case Episode => 4
    case Page => 5
  }

  /** Every key comes after the keys before it in the fixed order, so no key occurs twice. */
  predicate InKeyOrder(q: seq<Param>) {
    forall i, j :: 0 <= i < j < |q| ==> Rank(q[i].key) < Rank(q[j].key)
  }

  /** A guarded append of a key ranked after every key so far keeps the query in key order. */
  lemma ExtendInOrder(q: seq<Param>, k: Key, v: string)
    requires InKeyOrder(q)
    requires forall p :: p in q ==> Rank(p.key) < Rank(k)
    ensures InKeyOrder(q + Entry(k, v))
    ensures forall p :: p in q + Entry(k, v) ==> Rank(p.key) <= Rank(k)
  {
    var r := q + Entry(k, v);
    forall i, j | 0 <= i < j < |r| ensures Rank(r[i].key) < Rank(r[j].key) {
      if j >= |q| {
        assert r[i] in q;
      }
    }
  }

  /** `key=value`, the piece of the query one entry renders to. */
  function Piece(p: Param): string {
    KeyText(p.key) + "=" + p.value
  }

  function Pieces(ps: seq<Param>): (ss: seq<string>)
    ensures |ss| == |ps|
    ensures forall i :: 0 <= i < |ps| ==> ss[i] == Piece(ps[i])
  {
    if ps == [] then [] else [Piece(ps[0])] + Pieces(ps[1..])
  }

  /** `params.toString()`. */
  function Render(ps: seq<Param>): string {
    Join(Pieces(ps), '&')
  }

  /** A three-entry query is its three pieces joined by `&`. */
  lemma RenderThree(a: Param, b: Param, c: Param)
    ensures Render([a, b, c]) == Piece(a) + "&" + Piece(b) + "&" + Piece(c)
  {
    assert Pieces([a, b, c]) == [Piece(a), Piece(b), Piece(c)];
    Text.JoinCons(Piece(b), [Piece(c)], '&');
    assert [Piece(b)] + [Piece(c)] == [Piece(b), Piece(c)];
    Text.JoinCons(Piece(a), [Piece(b), Piece(c)], '&');
    assert [Piece(a)] + [Piece(b), Piece(c)] == [Piece(a), Piece(b), Piece(c)];
  }

  /** A five-entry query is its five pieces joined by `&`. */
  lemma RenderFive(a: Param, b: Param, c: Param, d: Param, e: Param)
    ensures Render([a, b, c, d, e]) == Piece(a) + "&" + Piece(b) + "&" + Piece(c) + "&" + Piece(d) + "&" + Piece(e)
  {
    assert Pieces([a, b, c, d, e]) == [Piece(a), Piece(b), Piece(c), Piece(d), Piece(e)];
    Text.JoinFive(Piece(a), Piece(b), Piece(c), Piece(d), Piece(e), '&');
  }

  /** A (name, value) pair as a server reads it from a query. */
  datatype Pair = Pair(name: string, value: string)

  function ParsePiece(piece: string): Pair {
    var kv := Split(piece, '=');
    Pair(kv[0], if |kv| > 1 then kv[1] else "")
  }

  function ParsePieces(pieces: seq<string>): (ps: seq<Pair>)
    ensures |ps| == |pieces|
    ensures forall i :: 0 <= i < |pieces| ==> ps[i] == ParsePiece(pieces[i])
  {
    if pieces == [] then [] else [ParsePiece(pieces[0])] + ParsePieces(pieces[1..])
  }

  /** How a server reads a query string back into pairs. */
  function Parse(query: string): seq<Pair> {
    if query == "" then [] else ParsePieces(Split(query, '&'))
  }

  /** The pairs a list of entries stands for. */
  function Pairs(ps: seq<Param>): (pairs: seq<Pair>)
    ensures |pairs| == |ps|
    ensures forall i :: 0 <= i < |ps| ==> pairs[i] == Pair(KeyText(ps[i].key), ps[i].value)
  {
    if ps == [] then [] else [Pair(KeyText(ps[0].key), ps[0].value)] + Pairs(ps[1..])
  }

  /** Neither separator occurs in the value, so nothing has to be escaped. */
  predicate Plain(value: string) {
    '&' !in value && '=' !in value
  }

  lemma PieceRoundTrip(p: Param)
    requires Plain(p.value)
    ensures ParsePiece(Piece(p)) == Pair(KeyText(p.key), p.value)
  {
    assert Join([KeyText(p.key), p.value], '=') == Piece(p);
    SplitJoin([KeyText(p.key), p.value], '=');
  }

  /** A rendered query reads back as exactly its entries, in order. */
  lemma RenderParse(ps: seq<Param>)
    requires forall p :: p in ps ==> Plain(p.value)
    ensures Parse(Render(ps)) == Pairs(ps)
  {
    if ps != [] {
      var pieces := Pieces(ps);
      forall i | 0 <= i < |pieces| ensures '&' !in pieces[i] {
        assert ps[i] in ps;
      }
      SplitJoin(pieces, '&');
      forall i | 0 <= i < |ps| ensures ParsePiece(pieces[i]) == Pair(KeyText(ps[i].key), ps[i].value) {
        assert ps[i] in ps;
        PieceRoundTrip(ps[i]);
      }
    }
  }
}
