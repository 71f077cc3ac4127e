/**
 * The genre logic of the explore page: which genres are offered for the
 * kind filters, their de-duplication by id, the collapsed first row of
 * eight, the capped selection toggle and the genre list read from the URL.
 */
module ExploreGenres {
  import opened Numbers
  import opened Strings

  /** A genre as the genre lists give it. */
  datatype Genre = Genre(id: int, name: string)

  /** Some genre of `gs` has id `id`. */
  predicate HasId(gs: seq<Genre>, id: int) {
    exists i | 0 <= i < |gs| :: gs[i].id == id
  }

  /** No id occurs twice in `gs`. */
  predicate DistinctIds(gs: seq<Genre>) {
    forall i, j | 0 <= i < j < |gs| :: gs[i].id != gs[j].id
  }

  /** The position of the first genre with id `id`. */
  function FirstPosition(gs: seq<Genre>, id: int): (i: nat)
    requires HasId(gs, id)
    ensures i < |gs| && gs[i].id == id
    ensures forall j | 0 <= j < i :: gs[j].id != id
  {
    if gs[0].id == id then 0
    else
      assert HasId(gs[1..], id) by {
        var k :| 0 <= k < |gs| && gs[k].id == id;
        assert gs[1..][k - 1].id == id;
      }
      1 + FirstPosition(gs[1..], id)
  }

  /** The last genre of `gs` with id `id`. */
  function LastWithId(gs: seq<Genre>, id: int): (g: Genre)
    requires HasId(gs, id)
    ensures g in gs && g.id == id
  {
    var n := |gs| - 1;
    if gs[n].id == id then gs[n]
    else
      assert HasId(gs[..n], id) by {
        var k :| 0 <= k < |gs| && gs[k].id == id;
        assert gs[..n][k].id == id;
      }
      LastWithId(gs[..n], id)
  }

  /**
   * `map.set(g.id, g)` on a map kept as its entries in insertion order: an
   * id already present keeps its place and takes the new genre, a new id
   * goes at the end.
   */
  function Upsert(m: seq<Genre>, g: Genre): (r: seq<Genre>)
    ensures HasId(m, g.id) ==> r == m[FirstPosition(m, g.id) := g]
    ensures !HasId(m, g.id) ==> r == m + [g]
  {
    if HasId(m, g.id) then m[FirstPosition(m, g.id) := g] else m + [g]
  }

  /**
   * `Array.from(new Map(gs.map(g => [g.id, g])).values())` (lines 301-303):
   * the genres of `gs` one per id.
   */
  function UniqueById(gs: seq<Genre>): seq<Genre> {
    if gs == [] then [] else Upsert(UniqueById(gs[..|gs| - 1]), gs[|gs| - 1])
  }

  /**
   * The de-duplicated genres have pairwise distinct ids, have exactly the
   * ids of the input, carry for each id the genre that came last, and keep
   * the ids in the order of their first appearance.
   */
  lemma UniqueByIdFacts(gs: seq<Genre>)
    ensures var u := UniqueById(gs);
      && DistinctIds(u)
      && (forall id :: HasId(u, id) <==> HasId(gs, id))
      && (forall i | 0 <= i < |u| :: HasId(gs, u[i].id) && u[i] == LastWithId(gs, u[i].id))
      && (forall i, j | 0 <= i < j < |u| :: FirstPosition(gs, u[i].id) < FirstPosition(gs, u[j].id))
  {
    UniqueDistinct(gs);
    forall id ensures HasId(UniqueById(gs), id) <==> HasId(gs, id) {
      UniqueSameIds(gs, id);
    }
    UniqueLastWins(gs);
    UniqueFirstOrder(gs);
  }

  /** An id of `a + b` is an id of `a` or of `b`. */
  lemma HasIdAppend(a: seq<Genre>, b: seq<Genre>, id: int)
    ensures HasId(a + b, id) <==> HasId(a, id) || HasId(b, id)
  {
    if HasId(a + b, id) {
      var k :| 0 <= k < |a + b| && (a + b)[k].id == id;
      if k >= |a| {
        assert b[k - |a|].id == id;
      }
    }
    if HasId(a, id) {
      var k :| 0 <= k < |a| && a[k].id == id;
      assert (a + b)[k].id == id;
    }
    if HasId(b, id) {
      var k :| 0 <= k < |b| && b[k].id == id;
      assert (a + b)[|a| + k].id == id;
    }
  }

  /** `Upsert` adds the id of its genre and no other. */
  lemma UpsertIds(m: seq<Genre>, g: Genre, id: int)
    ensures HasId(Upsert(m, g), id) <==> HasId(m, id) || id == g.id
  {
    if HasId(m, g.id) {
      var p := FirstPosition(m, g.id);
      var u := Upsert(m, g);
      if HasId(m, id) {
        var k :| 0 <= k < |m| && m[k].id == id;
        assert u[k].id == id;
      }
      if HasId(u, id) {
        var k :| 0 <= k < |u| && u[k].id == id;
        assert m[k].id == id;
      }
    } else {
      HasIdAppend(m, [g], id);
      assert [g][0].id == g.id;
    }
  }

  /** `gs` minus its last genre, then that genre. */
  lemma SplitLast(gs: seq<Genre>, id: int)
    requires gs != []
    ensures HasId(gs, id) <==> HasId(gs[..|gs| - 1], id) || gs[|gs| - 1].id == id
  {
    assert gs == gs[..|gs| - 1] + [gs[|gs| - 1]];
    HasIdAppend(gs[..|gs| - 1], [gs[|gs| - 1]], id);
  }

  /** De-duplication keeps exactly the ids of its input. */
  lemma {:induction false} UniqueSameIds(gs: seq<Genre>, id: int)
    ensures HasId(UniqueById(gs), id) <==> HasId(gs, id)
  {
    if gs != [] {
      var n := |gs| - 1;
      UniqueSameIds(gs[..n], id);
      UpsertIds(UniqueById(gs[..n]), gs[n], id);
      SplitLast(gs, id);
    }
  }

  /** `Upsert` keeps ids distinct. */
  lemma UpsertDistinct(m: seq<Genre>, g: Genre)
    requires DistinctIds(m)
    ensures DistinctIds(Upsert(m, g))
  {
    var u := Upsert(m, g);
    if !HasId(m, g.id) {
      forall i, j | 0 <= i < j < |u| ensures u[i].id != u[j].id {
        if j == |m| {
          assert u[i] == m[i];
        }
      }
    }
  }

  /** De-duplication gives distinct ids. */
  lemma {:induction false} UniqueDistinct(gs: seq<Genre>)
    ensures DistinctIds(UniqueById(gs))
  {
    if gs != [] {
      UniqueDistinct(gs[..|gs| - 1]);
      UpsertDistinct(UniqueById(gs[..|gs| - 1]), gs[|gs| - 1]);
    }
  }

  /** Each de-duplicated genre is the last one of its id. */
  lemma UniqueLastWins(gs: seq<Genre>)
    ensures var u := UniqueById(gs);
      forall i | 0 <= i < |u| :: HasId(gs, u[i].id) && u[i] == LastWithId(gs, u[i].id)
  {
    forall i | 0 <= i < |UniqueById(gs)|
      ensures HasId(gs, UniqueById(gs)[i].id) && UniqueById(gs)[i] == LastWithId(gs, UniqueById(gs)[i].id)
    {
      UniqueLastWinsAt(gs, i);
    }
  }

  /** The de-duplicated genre at position `i` is the last one of its id. */
  lemma {:induction false} UniqueLastWinsAt(gs: seq<Genre>, i: nat)
    requires i < |UniqueById(gs)|
    ensures HasId(gs, UniqueById(gs)[i].id) && UniqueById(gs)[i] == LastWithId(gs, UniqueById(gs)[i].id)
  {
    var n := |gs| - 1;
    var m := UniqueById(gs[..n]);
    var g := gs[n];
    var u := UniqueById(gs);
    var id := u[i].id;
    UniqueDistinct(gs[..n]);
    SplitLast(gs, id);
    if id != g.id {
      if HasId(m, g.id) {
        assert i != FirstPosition(m, g.id);
      }
      UniqueLastWinsAt(gs[..n], i);
    } else if HasId(m, g.id) {
      assert i == FirstPosition(m, g.id);
    }
  }

  /** De-duplicated ids keep the order of their first appearance. */
  lemma {:induction false} UniqueFirstOrder(gs: seq<Genre>)
    ensures var u := UniqueById(gs);
      && (forall i | 0 <= i < |u| :: HasId(gs, u[i].id))
      && (forall i, j | 0 <= i < j < |u| :: FirstPosition(gs, u[i].id) < FirstPosition(gs, u[j].id))
  {
    if gs != [] {
      var n := |gs| - 1;
      var init := gs[..n];
      var m := UniqueById(init);
      var g := gs[n];
      var u := UniqueById(gs);
      UniqueFirstOrder(init);
      forall id | HasId(init, id)
        ensures HasId(gs, id) && FirstPosition(gs, id) == FirstPosition(init, id)
      {
        var p := FirstPosition(init, id);
        assert gs[p] == init[p];
        FirstPositionUnique(gs, id, p);
      }
      if HasId(m, g.id) {
        var p := FirstPosition(m, g.id);
        forall i | 0 <= i < |u| ensures HasId(init, u[i].id) && u[i].id == m[i].id {
        }
      } else {
        UniqueSameIds(init, g.id);
        FirstPositionUnique(gs, g.id, n);
        forall i | 0 <= i < |u| ensures HasId(gs, u[i].id) && (i < |m| ==> HasId(init, u[i].id) && FirstPosition(gs, u[i].id) < n) {
          if i < |m| {
            assert u[i] == m[i];
          } else {
            assert u[i] == g;
          }
        }
      }
    }
  }

  /** The first position of an id is the one position where it occurs with none before it. */
  lemma FirstPositionUnique(gs: seq<Genre>, id: int, p: nat)
    requires p < |gs| && gs[p].id == id
    requires forall j | 0 <= j < p :: gs[j].id != id
    ensures HasId(gs, id) && FirstPosition(gs, id) == p
  {
    assert gs[p].id == id;
  }

  /** Genres that already have distinct ids pass through unchanged, so de-duplicating twice is de-duplicating once. */
  lemma {:induction false} UniqueByIdOfDistinct(gs: seq<Genre>)
    requires DistinctIds(gs)
    ensures UniqueById(gs) == gs
  {
    if gs != [] {
      var n := |gs| - 1;
      UniqueByIdOfDistinct(gs[..n]);
      assert !HasId(gs[..n], gs[n].id) by {
        forall k | 0 <= k < n ensures gs[..n][k].id != gs[n].id {
          assert gs[..n][k] == gs[k];
        }
      }
      assert gs[..n] + [gs[n]] == gs;
    }
  }

  /** `UniqueById` is idempotent. */
  lemma UniqueByIdIdempotent(gs: seq<Genre>)
    ensures UniqueById(UniqueById(gs)) == UniqueById(gs)
  {
    UniqueByIdFacts(gs);
    UniqueByIdOfDistinct(UniqueById(gs));
  }

  /**
   * The genres offered for the kind filters (lines 293-298): the movie
   * genres when only movies are on, the TV genres when only TV is on, both
   * lists otherwise.
   */
  function AvailableGenres(movies: bool, tv: bool, movieGenres: seq<Genre>, tvGenres: seq<Genre>): seq<Genre> {
    if movies && !tv then movieGenres
    else if tv && !movies then tvGenres
    else movieGenres + tvGenres
  }

  /**
   * An id is offered exactly when it is a movie genre and movies are on or
   * TV is off, or a TV genre and TV is on or movies are off.
   */
  lemma OfferedIds(movies: bool, tv: bool, movieGenres: seq<Genre>, tvGenres: seq<Genre>, id: int)
    ensures HasId(UniqueById(AvailableGenres(movies, tv, movieGenres, tvGenres)), id)
      <==> (HasId(movieGenres, id) && (movies || !tv)) || (HasId(tvGenres, id) && (tv || !movies))
  {
    UniqueSameIds(AvailableGenres(movies, tv, movieGenres, tvGenres), id);
    HasIdAppend(movieGenres, tvGenres, id);
  }

  /** The genres shown (lines 306-308): all of them when expanded, otherwise the first eight. */
  function DisplayedGenres(showAll: bool, unique: seq<Genre>): (shown: seq<Genre>)
    ensures showAll ==> shown == unique
    ensures !showAll ==> |shown| == if |unique| < 8 then |unique| else 8
    ensures shown == unique[..|shown|]
  {
    if showAll then unique
    else if |unique| <= 8 then unique
    else unique[..8]
  }

  /** `s.filter(y => y !== x)`. */
  function Without(s: seq<int>, x: int): (r: seq<int>)
    ensures multiset(r) == multiset(s)[x := 0]
    ensures Subsequence(r, s)
  {
    if s == [] then []
    else if s[0] == x then
      assert s == [s[0]] + s[1..];
      Without(s[1..], x)
    else
      var r := [s[0]] + Without(s[1..], x);
      assert s == [s[0]] + s[1..];
      assert r[1..] == Without(s[1..], x);
      r
  }

  /** `a` is `b` with some elements left out, the rest in their order. */
  predicate Subsequence(a: seq<int>, b: seq<int>) {
    if a == [] then true
    else if b == [] then false
    else (a[0] == b[0] && Subsequence(a[1..], b[1..])) || Subsequence(a, b[1..])
  }

  /** `s.slice(-3)`: the last three elements, or all of them when there are fewer. */
  function LastThree(s: seq<int>): (r: seq<int>)
    ensures |r| == if |s| < 3 then |s| else 3
    ensures r == s[|s| - |r|..]
  {
    if |s| > 3 then s[|s| - 3..] else s
  }

  /**
   * `handleGenreToggle`'s new selection (lines 248-253): a selected id is
   * removed, any other is appended and only the last three are kept.
   */
  function ToggleGenre(selected: seq<int>, id: int): seq<int> {
    if id in selected then Without(selected, id) else LastThree(selected + [id])
  }

  /**
   * Toggling a selected id removes every copy of it and keeps the others
   * in their order; toggling any other id makes it the newest of at most
   * three, dropping the oldest when three were selected.
   */
  lemma ToggleGenreFacts(selected: seq<int>, id: int)
    ensures var r := ToggleGenre(selected, id);
      && (id in selected ==> id !in r && Subsequence(r, selected) && multiset(r) == multiset(selected)[id := 0])
      && (id !in selected ==> r[|r| - 1] == id && r[..|r| - 1] == selected[|selected| + 1 - |r|..])
      && (id !in selected ==> |r| == if |selected| < 3 then |selected| + 1 else 3)
      && (|selected| <= 3 ==> |r| <= 3)
  {
    var r := ToggleGenre(selected, id);
    if id in selected {
      assert multiset(r)[id] == 0;
    } else {
      var s := selected + [id];
      assert r == s[|s| - |r|..];
      assert r[..|r| - 1] == s[|s| - |r|..|s| - 1];
    }
  }

  /** A selection of distinct ids stays distinct. */
  lemma ToggleGenreKeepsDistinct(selected: seq<int>, id: int)
    requires forall i, j | 0 <= i < j < |selected| :: selected[i] != selected[j]
    ensures var r := ToggleGenre(selected, id); forall i, j | 0 <= i < j < |r| :: r[i] != r[j]
  {
    var r := ToggleGenre(selected, id);
    if id in selected {
      forall i, j | 0 <= i < j < |r| ensures r[i] != r[j] {
        if r[i] == r[j] {
          assert multiset(r)[r[i]] >= 2 by {
            assert multiset(r) == multiset(r[..i]) + multiset{r[i]} + multiset(r[i + 1..j]) + multiset{r[j]} + multiset(r[j + 1..]) by {
              assert r == r[..i] + [r[i]] + r[i + 1..j] + [r[j]] + r[j + 1..];
            }
          }
          DistinctCounts(selected, r[i]);
        }
      }
    } else {
      var s := selected + [id];
      forall i, j | 0 <= i < j < |r| ensures r[i] != r[j] {
        var k := |s| - |r|;
        assert r[i] == s[k + i] && r[j] == s[k + j];
      }
    }
  }

  /** In a sequence of distinct elements, each occurs at most once. */
  lemma {:induction false} DistinctCounts(s: seq<int>, x: int)
    requires forall i, j | 0 <= i < j < |s| :: s[i] != s[j]
    ensures multiset(s)[x] <= 1
  {
    if s != [] {
      DistinctCounts(s[1..], x);
      assert s == [s[0]] + s[1..];
      if s[0] == x {
        assert x !in s[1..] by {
          forall k | 0 <= k < |s[1..]| ensures s[1..][k] != x {
            assert s[1..][k] == s[k + 1];
          }
        }
      }
    }
  }

  /** Toggling an id that is not selected, while fewer than three are, and toggling it again restores the selection. */
  lemma ToggleGenreTwice(selected: seq<int>, id: int)
    requires id !in selected && |selected| < 3
    ensures ToggleGenre(ToggleGenre(selected, id), id) == selected
  {
    assert ToggleGenre(selected, id) == selected + [id];
    WithoutAppended(selected, id);
  }

  /** Removing an id appended to a sequence without it gives back the sequence. */
  lemma {:induction false} WithoutAppended(s: seq<int>, x: int)
    requires x !in s
    ensures Without(s + [x], x) == s
  {
    if s != [] {
      assert (s + [x])[1..] == s[1..] + [x];
      WithoutAppended(s[1..], x);
    }
  }

  /** The integer of every piece that `parseInt` reads, in order; the others are dropped. */
  function ParsedIds(pieces: seq<string>): seq<int> {
    if pieces == [] then []
    else
      var first := ParseInt(pieces[0]);
      (if first.Int? then [first.value] else []) + ParsedIds(pieces[1..])
  }

  /**
   * The genre list of the URL (lines 84-89, 95-100): empty when the
   * parameter is absent or empty, otherwise its comma-separated entries
   * read by `parseInt`, the ones that are not numbers dropped.
   */
  function ParseGenres(text: string): seq<int> {
    if text == "" then [] else ParsedIds(Split(text, ','))
  }

  /** Every id reads back from the integers `String` writes. */
  lemma {:induction false} ParsedIdsOfStrings(ids: seq<int>)
    ensures ParsedIds(IdStrings(ids)) == ids
  {
    if ids != [] {
      ParseIntOfString(ids[0]);
      assert IdStrings(ids)[1..] == IdStrings(ids[1..]);
      ParsedIdsOfStrings(ids[1..]);
    }
  }

  /** A genre list written as `ids.join(',')` reads back as `ids`. */
  lemma ParseGenresOfJoin(ids: seq<int>)
    ensures ParseGenres(JoinIds(ids)) == ids
  {
    if ids != [] {
      var pieces := IdStrings(ids);
      SplitJoin(pieces, ',');
      ParsedIdsOfStrings(ids);
    }
  }
}
