/**
 * The persisted favorites store: an ordered list of character ids that one
 * toggle either extends at the end or removes an id from, and the view mode.
 */
module FavoritesStore {

  /** No id occurs twice. */
  predicate NoDups(s: seq<int>) {
    forall i, j :: 0 <= i < j < |s| ==> s[i] != s[j]
  }

  /** `s.filter(id => id !== x)`: every occurrence of `x` dropped, the rest in order. */
  function Without(s: seq<int>, x: int): (r: seq<int>)
    ensures x !in r
    ensures forall y :: y != x ==> (y in r <==> y in s)
    ensures |r| <= |s|
  {
    if s == [] then []
    else (if s[0] == x then [] else [s[0]]) + Without(s[1..], x)
  }

  /** The list `toggleFavorite(x)` leaves: `x` removed when present, appended when absent. */
  function Toggled(s: seq<int>, x: int): (r: seq<int>)
    ensures x in r <==> x !in s
    ensures forall y :: y != x ==> (y in r <==> y in s)
  {
    if x in s then Without(s, x) else s + [x]
  }

  /** Filtering distributes over concatenation, so it keeps the relative order of what stays. */
  lemma {:induction false} WithoutAppend(a: seq<int>, b: seq<int>, x: int)
    ensures Without(a + b, x) == Without(a, x) + Without(b, x)
  {
    if a != [] {
      assert (a + b)[1..] == a[1..] + b;
      WithoutAppend(a[1..], b, x);
    } else {
      assert a + b == b;
    }
  }

  /** Filtering out an id that is not there changes nothing. */
  lemma {:induction false} WithoutAbsent(s: seq<int>, x: int)
    requires x !in s
    ensures Without(s, x) == s
  {
    if s != [] {
      assert s[0] != x;
      WithoutAbsent(s[1..], x);
      assert [s[0]] + s[1..] == s;
    }
  }

  /** In a list without duplicates, removing `x` cuts out exactly its one position. */
  lemma RemoveAt(s: seq<int>, k: int, x: int)
    requires NoDups(s) && 0 <= k < |s| && s[k] == x
    ensures Without(s, x) == s[..k] + s[k + 1..]
  {
    assert s == s[..k] + [x] + s[k + 1..];
    assert x !in s[..k] by {
      forall i | 0 <= i < k ensures s[..k][i] != x { assert s[i] != s[k]; }
    }
    assert x !in s[k + 1..] by {
      forall i | k < i < |s| ensures s[i] != x { assert s[k] != s[i]; }
    }
    WithoutAppend(s[..k] + [x], s[k + 1..], x);
    WithoutAppend(s[..k], [x], x);
    WithoutAbsent(s[..k], x);
    WithoutAbsent(s[k + 1..], x);
    assert Without([x], x) == [];
  }

  /** Toggling an absent id appends it: the old entries keep their positions and the id comes last. */
  lemma ToggleAbsent(s: seq<int>, x: int)
    requires x !in s
    ensures |Toggled(s, x)| == |s| + 1
    ensures Toggled(s, x)[..|s|] == s && Toggled(s, x)[|s|] == x
  {
  }

  /**
   * Toggling a present id removes it and keeps the relative order of the
   * remaining ids: in a list without duplicates, exactly its position is cut out.
   */
  lemma TogglePresent(s: seq<int>, k: int, x: int)
    requires NoDups(s) && 0 <= k < |s| && s[k] == x
    ensures Toggled(s, x) == s[..k] + s[k + 1..]
  {
    RemoveAt(s, k, x);
  }

  /** A toggle keeps the list free of duplicates and moves its length by exactly one. */
  lemma ToggleKeepsNoDups(s: seq<int>, x: int)
    requires NoDups(s)
    ensures NoDups(Toggled(s, x))
    ensures x in s ==> |Toggled(s, x)| == |s| - 1
    ensures x !in s ==> |Toggled(s, x)| == |s| + 1
  {
    if x in s {
      var k :| 0 <= k < |s| && s[k] == x;
      RemoveAt(s, k, x);
      var r := s[..k] + s[k + 1..];
      forall i, j | 0 <= i < j < |r| ensures r[i] != r[j] {
        var i' := if i < k then i else i + 1;
        var j' := if j < k then j else j + 1;
        assert r[i] == s[i'] && r[j] == s[j'] && i' < j';
      }
    } else {
      var r := s + [x];
      forall i, j | 0 <= i < j < |r| ensures r[i] != r[j] {
        if j == |s| {
          assert r[i] == s[i];
        }
      }
    }
  }

  /** Toggling an absent id twice gives back the very same list. */
  lemma DoubleToggleAbsent(s: seq<int>, x: int)
    requires x !in s
    ensures Toggled(Toggled(s, x), x) == s
  {
    WithoutAppend(s, [x], x);
    WithoutAbsent(s, x);
    assert Without([x], x) == [];
  }

  /**
   * Toggling a present id twice does not restore the list: the id moves to the end.
   * The list is restored only when the id was already last.
   */
  lemma DoubleTogglePresent(s: seq<int>, k: int, x: int)
    requires NoDups(s) && 0 <= k < |s| && s[k] == x
    ensures Toggled(Toggled(s, x), x) == s[..k] + s[k + 1..] + [x]
    ensures Toggled(Toggled(s, x), x) == s <==> k == |s| - 1
  {
    RemoveAt(s, k, x);
    var t := Toggled(Toggled(s, x), x);
    if k < |s| - 1 {
      assert t[k] == s[k + 1] != s[k];
    } else {
      assert s[..k] + s[k + 1..] + [x] == s;
    }
  }

  /** Two ids, the first toggled twice: the list comes back in the other order. */
  lemma DoubleToggleReorders()
    ensures Toggled(Toggled([7, 8], 7), 7) == [8, 7]
  {
    DoubleTogglePresent([7, 8], 0, 7);
    assert [7, 8][..0] + [7, 8][1..] + [7] == [8, 7];
  }

  datatype ViewMode = Grid | List

  /** What the persistence middleware writes: the `partialize` projection. */
  datatype Persisted = Persisted(favorites: seq<int>, viewMode: ViewMode)

  class FavoritesState {
    var favorites: seq<int>
    var viewMode: ViewMode

    /** The store's initial state. */
    constructor()
      ensures favorites == [] && viewMode == Grid
    {
      favorites := [];
      viewMode := Grid;
    }

    /** `isFavorite(id)`: membership in the list. */
    function IsFavorite(id: int): (fav: bool)
      reads this
      ensures fav <==> exists i :: 0 <= i < |favorites| && favorites[i] == id
    {
      id in favorites
    }

    /** `toggleFavorite(id)`: one `set` that replaces `favorites`; `viewMode` is untouched. */
    method ToggleFavorite(id: int)
      modifies this
      ensures favorites == Toggled(old(favorites), id)
      ensures viewMode == old(viewMode)
      ensures IsFavorite(id) == !old(IsFavorite(id))
      ensures forall y :: y != id ==> (IsFavorite(y) == old(IsFavorite(y)))
      ensures old(NoDups(favorites)) ==> NoDups(favorites)
    {
      if NoDups(favorites) {
        ToggleKeepsNoDups(favorites, id);
      }
      if id in favorites {
        favorites := Without(favorites, id);
      } else {
        favorites := favorites + [id];
      }
    }

    /** `setViewMode(mode)`: replaces `viewMode` only. */
    method SetViewMode(mode: ViewMode)
      modifies this
      ensures viewMode == mode && favorites == old(favorites)
    {
      viewMode := mode;
    }

    /** `partialize`: the persisted part of the state, which is the whole of this store's data. */
    function Snapshot(): (p: Persisted)
      reads this
      ensures p.favorites == favorites && p.viewMode == viewMode
    {
      Persisted(favorites, viewMode)
    }
  }

  /** Ids 5, 1, 3 toggled onto an empty list stay in insertion order. */
  method InsertionOrder() returns (s: FavoritesState)
    ensures s.favorites == [5, 1, 3] && s.viewMode == Grid
  {
    s := new FavoritesState();
    s.ToggleFavorite(5);
    s.ToggleFavorite(1);
    s.ToggleFavorite(3);
  }

  /** 0 and negative ids are ids like any other. */
  method ZeroAndNegative() returns (s: FavoritesState)
    ensures s.favorites == [0, -1]
    ensures s.IsFavorite(0) && s.IsFavorite(-1) && !s.IsFavorite(1)
  {
    s := new FavoritesState();
    s.ToggleFavorite(0);
    s.ToggleFavorite(-1);
  }

  /** Removing the middle one of three ids keeps the other two in order. */
  lemma RemoveMiddle()
    ensures Toggled([1, 2, 3], 2) == [1, 3]
  {
    assert [1, 2, 3][1] == 2;
  }
}
