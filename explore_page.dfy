/**
 * The explore page's filter state: the search text, the page, the kind
 * filters, the sort and the selected genres, the handlers that change them,
 * and the URL that mirrors them. Rendering, the saved copy of the state,
 * the fetch of results and the timer behind the debounced query are not
 * part of the model; the debounce is a transition of its own.
 */
module Explore {
  import opened Wrappers
  import opened Strings
  import opened Numbers
  import opened QueryParams
  import opened Media
  import opened ExploreGenres

  /** The last page TMDB serves. */
  const MaxPage: int := 500

  /** The kind filter buttons. */
  datatype FilterKey = MoviesFilter | TvFilter | PeopleFilter

  /** What the page reads from its URL (lines 55-61, 95-100); `page` is `Number` of the text. */
  datatype UrlState = UrlState(
    query: string,
    page: Num,
    movies: bool,
    tv: bool,
    people: bool,
    sort: string,
    genres: seq<int>)

  /** The part of the state that the URL mirrors; `query` is the trimmed debounced query. */
  datatype PageState = PageState(
    query: string,
    page: int,
    movies: bool,
    tv: bool,
    people: bool,
    sort: string,
    genres: seq<int>)

  /**
   * Reading the URL: missing or empty text takes its default, `movies` and
   * `tv` are on unless `"false"`, `people` is on only for `"true"`.
   */
  function DecodeUrl(sp: seq<Param>): (u: UrlState)
    ensures u.movies <==> Get(sp, "movies") != Some("false")
    ensures u.tv <==> Get(sp, "tv") != Some("false")
    ensures u.people <==> Get(sp, "people") == Some("true")
    ensures u.sort != ""
    ensures Truthy(Get(sp, "q")) ==> u.query == Get(sp, "q").value
    ensures !Truthy(Get(sp, "q")) ==> u.query == ""
    ensures Truthy(Get(sp, "page")) ==> u.page == ToNumber(Get(sp, "page").value)
    ensures !Truthy(Get(sp, "page")) ==> u.page == Int(1)
    ensures Truthy(Get(sp, "sort")) ==> u.sort == Get(sp, "sort").value
    ensures !Truthy(Get(sp, "sort")) ==> u.sort == DefaultSort
    ensures Truthy(Get(sp, "genres")) ==> u.genres == ParseGenres(Get(sp, "genres").value)
    ensures !Truthy(Get(sp, "genres")) ==> u.genres == []
  {
    ToNumberOfOne();
    UrlState(
      OrElse(Get(sp, "q"), ""),
      ToNumber(OrElse(Get(sp, "page"), "1")),
      Get(sp, "movies") != Some("false"),
      Get(sp, "tv") != Some("false"),
      Get(sp, "people") == Some("true"),
      OrElse(Get(sp, "sort"), DefaultSort),
      ParseGenres(OrElse(Get(sp, "genres"), "")))
  }

  /**
   * The URL parameters for a state (lines 201-213), as the `set` calls
   * that build them: each one is written only when it differs from its
   * default.
   */
  function EncodeParams(v: PageState): seq<Param> {
    EncodeTail(v, EncodeHead(v))
  }

  /** `if (cond) params.set(k, value)`. */
  function SetWhen(ps: seq<Param>, cond: bool, k: string, value: string): seq<Param> {
    if cond then SetParam(ps, k, value) else ps
  }

  /** The first three `set` calls of the encoding. */
  function EncodeHead(v: PageState): seq<Param> {
    var withQuery := SetWhen([], v.query != "", "q", v.query);
    var withPage := SetWhen(withQuery, v.page > 1, "page", IntToString(v.page));
    SetWhen(withPage, !v.movies, "movies", "false")
  }

  /** The last four `set` calls of the encoding, applied to `ps`. */
  function EncodeTail(v: PageState, ps: seq<Param>): seq<Param> {
    var withTv := SetWhen(ps, !v.tv, "tv", "false");
    var withPeople := SetWhen(withTv, v.people, "people", "true");
    var withSort := SetWhen(withPeople, v.sort != DefaultSort, "sort", v.sort);
    SetWhen(withSort, |v.genres| > 0, "genres", JoinIds(v.genres))
  }

  /** Every name reads back from the encoded URL as set, and a value at its default is not written at all. */
  lemma {:induction false} EncodedLookup(v: PageState, k: string)
    ensures var ps := EncodeParams(v);
      && (k == "q" ==> Get(ps, k) == if v.query != "" then Some(v.query) else None)
      && (k == "page" ==> Get(ps, k) == if v.page > 1 then Some(IntToString(v.page)) else None)
      && (k == "movies" ==> Get(ps, k) == if !v.movies then Some("false") else None)
      && (k == "tv" ==> Get(ps, k) == if !v.tv then Some("false") else None)
      && (k == "people" ==> Get(ps, k) == if v.people then Some("true") else None)
      && (k == "sort" ==> Get(ps, k) == if v.sort != DefaultSort then Some(v.sort) else None)
      && (k == "genres" ==> Get(ps, k) == if v.genres != [] then Some(JoinIds(v.genres)) else None)
      && (k !in {"q", "page", "movies", "tv", "people", "sort", "genres"} ==> Get(ps, k) == None)
  {
    var withQuery := SetWhen([], v.query != "", "q", v.query);
    SetThenGet([], "q", v.query, k);
    var withPage := SetWhen(withQuery, v.page > 1, "page", IntToString(v.page));
    SetThenGet(withQuery, "page", IntToString(v.page), k);
    SetThenGet(withPage, "movies", "false", k);
    EncodedLookupTail(v, EncodeHead(v), k);
  }

  /** The last four `set` calls of the encoding. */
  lemma EncodedLookupTail(v: PageState, ps: seq<Param>, k: string)
    ensures Get(EncodeTail(v, ps), k)
      == if k == "tv" && !v.tv then Some("false")
         else if k == "people" && v.people then Some("true")
         else if k == "sort" && v.sort != DefaultSort then Some(v.sort)
         else if k == "genres" && |v.genres| > 0 then Some(JoinIds(v.genres))
         else Get(ps, k)
  {
    var withTv := SetWhen(ps, !v.tv, "tv", "false");
    SetThenGet(ps, "tv", "false", k);
    var withPeople := SetWhen(withTv, v.people, "people", "true");
    SetThenGet(withTv, "people", "true", k);
    var withSort := SetWhen(withPeople, v.sort != DefaultSort, "sort", v.sort);
    SetThenGet(withPeople, "sort", v.sort, k);
    SetThenGet(withSort, "genres", JoinIds(v.genres), k);
  }

  /** A state at every default writes no parameter at all, and only such a state. */
  lemma NoParamsExactlyAtDefaults(v: PageState)
    ensures EncodeParams(v) == [] <==>
      v.query == "" && v.page <= 1 && v.movies && v.tv && !v.people && v.sort == DefaultSort && v.genres == []
  {
    var ps := EncodeParams(v);
    if ps == [] {
      EncodedLookup(v, "q");
      EncodedLookup(v, "page");
      EncodedLookup(v, "movies");
      EncodedLookup(v, "tv");
      EncodedLookup(v, "people");
      EncodedLookup(v, "sort");
      EncodedLookup(v, "genres");
    }
  }

  /** The URL parameters built as the page builds them (lines 201-213): one `URLSearchParams` and a conditional `set` per field. */
  method BuildUrlParams(v: PageState) returns (entries: seq<Param>)
    ensures entries == EncodeParams(v)
  {
    var params := new SearchParams();
    if v.query != "" {
      params.Set("q", v.query);
    }
    if v.page > 1 {
      params.Set("page", IntToString(v.page));
    }
    if !v.movies {
      params.Set("movies", "false");
    }
    assert params.entries == EncodeHead(v);
    ghost var head := params.entries;
    if !v.tv {
      params.Set("tv", "false");
    }
    if v.people {
      params.Set("people", "true");
    }
    if v.sort != DefaultSort {
      params.Set("sort", v.sort);
    }
    if |v.genres| > 0 {
      params.Set("genres", JoinIds(v.genres));
    }
    assert params.entries == EncodeTail(v, head);
    entries := params.entries;
  }

  /** The URL the page replaces its own with (lines 215-218): `/explore`, with `?` and the parameters when there are any. */
  function ExploreUrl(v: PageState, formEncode: string -> string): (url: string)
    ensures url == "/explore" <==> EncodeParams(v) == []
    ensures url != "/explore" ==> url == "/explore?" + Serialize(EncodeParams(v), formEncode)
  {
    var query := Serialize(EncodeParams(v), formEncode);
    if query != "" then "/explore?" + query else "/explore"
  }

  /**
   * Writing the URL and reading it back restores the query, the page, the
   * kind filters, the sort and the genre list.
   */
  lemma UrlRoundTrip(v: PageState)
    requires v.page >= 1 && v.sort != ""
    ensures DecodeUrl(EncodeParams(v)) == UrlState(v.query, Int(v.page), v.movies, v.tv, v.people, v.sort, v.genres)
  {
    var ps := EncodeParams(v);
    EncodedLookup(v, "q");
    EncodedLookup(v, "page");
    EncodedLookup(v, "movies");
    EncodedLookup(v, "tv");
    EncodedLookup(v, "people");
    EncodedLookup(v, "sort");
    EncodedLookup(v, "genres");
    DecodeOfValues(ps, v);
  }

  /** Any parameter list that reads as the encoding of `v` decodes to the values of `v`. */
  lemma DecodeOfValues(sp: seq<Param>, v: PageState)
    requires v.page >= 1 && v.sort != ""
    requires Get(sp, "q") == if v.query != "" then Some(v.query) else None
    requires Get(sp, "page") == if v.page > 1 then Some(IntToString(v.page)) else None
    requires Get(sp, "movies") == if !v.movies then Some("false") else None
    requires Get(sp, "tv") == if !v.tv then Some("false") else None
    requires Get(sp, "people") == if v.people then Some("true") else None
    requires Get(sp, "sort") == if v.sort != DefaultSort then Some(v.sort) else None
    requires Get(sp, "genres") == if v.genres != [] then Some(JoinIds(v.genres)) else None
    ensures DecodeUrl(sp) == UrlState(v.query, Int(v.page), v.movies, v.tv, v.people, v.sort, v.genres)
  {
    DecodedPage(sp, v.page);
    DecodedGenres(sp, v.genres);
  }

  /** The page reads back as written; page 1 is left out and read as its default. */
  lemma DecodedPage(sp: seq<Param>, page: int)
    requires page >= 1
    requires Get(sp, "page") == if page > 1 then Some(IntToString(page)) else None
    ensures DecodeUrl(sp).page == Int(page)
  {
    if page > 1 {
      ToNumberOfString(page);
    } else {
      ToNumberOfOne();
    }
  }

  /** The genre list reads back as written; the empty list is left out and read as its default. */
  lemma DecodedGenres(sp: seq<Param>, genres: seq<int>)
    requires Get(sp, "genres") == if genres != [] then Some(JoinIds(genres)) else None
    ensures DecodeUrl(sp).genres == genres
  {
    ParseGenresOfJoin(genres);
  }

  /**
   * The state a first visit starts from, with nothing saved, as the code
   * is written (lines 64-102): `urlMovies || true` and `urlTV || true`
   * turn both kind filters on whatever the URL says.
   */
  function InitialStateAsWritten(u: UrlState): (v: PageState)
    requires u.page.Int? || u.page.NaN?
    ensures v.movies && v.tv && v.people == u.people
    ensures v.page >= 1
    ensures u.page.Int? && u.page.value > 1 ==> v.page == u.page.value
  {
    PageState(
      Trim(u.query),
      if u.page.Int? && u.page.value > 1 then u.page.value else 1,
      u.movies || true,
      u.tv || true,
      u.people || false,
      if u.sort != DefaultSort then u.sort else DefaultSort,
      u.genres)
  }

  /** As written, a shared URL with the movie filter off opens with it on. */
  lemma KindFilterLostAsWritten()
    ensures var v := PageState("", 1, false, true, false, DefaultSort, []);
      && EncodeParams(v) == [Param("movies", "false")]
      && InitialStateAsWritten(DecodeUrl(EncodeParams(v))) != v
  {
    var v := PageState("", 1, false, true, false, DefaultSort, []);
    SetNewKeyAppends([], "movies", "false");
  }

  /**
   * The state a first visit starts from, with nothing saved: the URL's
   * values, its kind filters included, with the page at least 1.
   */
  function InitialState(u: UrlState): (v: PageState)
    requires u.page.Int? || u.page.NaN?
    ensures v.page >= 1
    ensures v.movies == u.movies && v.tv == u.tv && v.people == u.people
    ensures u.page.Int? && u.page.value > 1 ==> v.page == u.page.value
  {
    PageState(
      Trim(u.query),
      if u.page.Int? && u.page.value > 1 then u.page.value else 1,
      u.movies,
      u.tv,
      u.people,
      if u.sort != DefaultSort then u.sort else DefaultSort,
      u.genres)
  }

  /**
   * The code as written and the corrected first visit differ only in the
   * kind filters, and agree exactly when the URL has both of them on.
   */
  lemma AsWrittenDiffersInKindFilters(u: UrlState)
    requires u.page.Int? || u.page.NaN?
    ensures InitialStateAsWritten(u) == InitialState(u).(movies := true, tv := true)
    ensures InitialStateAsWritten(u) == InitialState(u) <==> u.movies && u.tv
  {
  }

  /** Opening the URL a state wrote gives that state back. */
  lemma OpenOwnUrl(v: PageState)
    requires v.page >= 1 && v.sort != "" && Trim(v.query) == v.query
    ensures var u := DecodeUrl(EncodeParams(v));
      u.page == Int(v.page) && InitialState(u) == v
  {
    UrlRoundTrip(v);
    InitialStateOf(DecodeUrl(EncodeParams(v)), v);
  }

  /** The first-visit state of a URL whose values are those of `v`. */
  lemma InitialStateOf(u: UrlState, v: PageState)
    requires u == UrlState(v.query, Int(v.page), v.movies, v.tv, v.people, v.sort, v.genres)
    requires v.page >= 1 && Trim(v.query) == v.query
    ensures InitialState(u) == v
  {
  }

  /** `handlePageChange` (line 263): the zero-based page picked, plus one, at most 500. */
  function PageChangeTarget(selected: int): (page: int)
    ensures page <= MaxPage
    ensures selected >= 0 ==> page >= 1
    ensures selected < MaxPage ==> page == selected + 1
    ensures selected >= MaxPage ==> page == MaxPage
  {
    if selected + 1 < MaxPage then selected + 1 else MaxPage
  }

  /** The number of pages offered (lines 478, 502): `total_pages || 1`, at most 500. */
  function PageCount(totalPages: Option<int>): (count: int)
    ensures count <= MaxPage
    ensures totalPages.None? || totalPages.value == 0 ==> count == 1
    ensures totalPages.Some? && 0 < totalPages.value ==> 1 <= count && (totalPages.value <= MaxPage ==> count == totalPages.value)
    ensures totalPages.Some? && totalPages.value >= MaxPage ==> count == MaxPage
  {
    var total := if totalPages.Some? && totalPages.value != 0 then totalPages.value else 1;
    if total < MaxPage then total else MaxPage
  }

  /** The zero-based page the pager shows as current (line 503): at most 499. */
  function ForcePage(currentPage: int): (selected: int)
    ensures selected < MaxPage
    ensures currentPage <= MaxPage ==> selected == currentPage - 1
    ensures currentPage >= MaxPage ==> selected == MaxPage - 1
  {
    if currentPage - 1 < MaxPage - 1 then currentPage - 1 else MaxPage - 1
  }

  /**
   * The pager and the page handler agree: picking the page the pager shows
   * keeps the page, and the page shown after a pick is the one picked; a
   * current page within the page count is shown within it.
   */
  lemma PagerRoundTrip(page: int, selected: int, totalPages: Option<int>)
    ensures 1 <= page <= MaxPage ==> PageChangeTarget(ForcePage(page)) == page
    ensures 0 <= selected < MaxPage ==> ForcePage(PageChangeTarget(selected)) == selected
    ensures 1 <= page <= PageCount(totalPages) ==> 0 <= ForcePage(page) < PageCount(totalPages)
  {
  }

  /** The explore page's state, updated in place by its handlers. */
  class ExplorePage {
    var rawQuery: string
    var debouncedQuery: string
    var currentPage: int
    var movies: bool
    var tv: bool
    var people: bool
    var selectedGenres: seq<int>
    var sortBy: string
    var movieGenres: seq<Genre>
    var tvGenres: seq<Genre>
    var showAllGenres: bool

    /** The page number is always at least 1. */
    predicate Valid()
      reads this
    {
      currentPage >= 1
    }

    /** The search text the results and the URL use (line 118). */
    function Query(): string
      reads this
    {
      Trim(debouncedQuery)
    }

    /** The part of the state the URL mirrors. */
    function State(): PageState
      reads this
    {
      PageState(Query(), currentPage, movies, tv, people, sortBy, selectedGenres)
    }

    /** The genres shown as buttons (lines 293-308). */
    function ShownGenres(): seq<Genre>
      reads this
    {
      DisplayedGenres(showAllGenres, UniqueById(AvailableGenres(movies, tv, movieGenres, tvGenres)))
    }

    /**
     * A first visit with nothing saved (lines 64-114), as the code is
     * written: the URL's values, except that both kind filters start on;
     * no genre lists are loaded yet.
     */
    constructor (u: UrlState)
      requires u.page.Int? || u.page.NaN?
      ensures Valid()
      ensures State() == InitialStateAsWritten(u)
      ensures movies && tv && people == u.people
      ensures rawQuery == debouncedQuery == u.query
      ensures movieGenres == [] && tvGenres == [] && !showAllGenres
    {
      var v := InitialStateAsWritten(u);
      rawQuery := u.query;
      debouncedQuery := u.query;
      currentPage := v.page;
      movies := v.movies;
      tv := v.tv;
      people := v.people;
      selectedGenres := v.genres;
      sortBy := v.sort;
      movieGenres := [];
      tvGenres := [];
      showAllGenres := false;
    }

    /** `handleSearch` (lines 221-226): new text goes back to page 1 when its trimmed form differs from the current query. */
    method Search(value: string)
      requires Valid()
      modifies this
      ensures Valid()
      ensures rawQuery == value
      ensures currentPage == if Trim(value) != old(Query()) then 1 else old(currentPage)
      ensures debouncedQuery == old(debouncedQuery) && movies == old(movies) && tv == old(tv) && people == old(people)
      ensures selectedGenres == old(selectedGenres) && sortBy == old(sortBy)
      ensures movieGenres == old(movieGenres) && tvGenres == old(tvGenres) && showAllGenres == old(showAllGenres)
    {
      var query := Query();
      rawQuery := value;
      if Trim(value) != query {
        currentPage := 1;
      }
    }

    /** The debounce delay has passed (line 69): the query catches up with the text typed. */
    method DebounceElapsed()
      requires Valid()
      modifies this
      ensures Valid()
      ensures debouncedQuery == rawQuery == old(rawQuery)
      ensures currentPage == old(currentPage) && movies == old(movies) && tv == old(tv) && people == old(people)
      ensures selectedGenres == old(selectedGenres) && sortBy == old(sortBy)
      ensures movieGenres == old(movieGenres) && tvGenres == old(tvGenres) && showAllGenres == old(showAllGenres)
    {
      debouncedQuery := rawQuery;
    }

    /** `handleFilterChange` (lines 228-244): flips one kind filter and goes back to page 1. */
    method FilterChange(filter: FilterKey)
      requires Valid()
      modifies this
      ensures Valid()
      ensures currentPage == 1
      ensures movies == (old(movies) != (filter == MoviesFilter))
      ensures tv == (old(tv) != (filter == TvFilter))
      ensures people == (old(people) != (filter == PeopleFilter))
      ensures rawQuery == old(rawQuery) && debouncedQuery == old(debouncedQuery)
      ensures selectedGenres == old(selectedGenres) && sortBy == old(sortBy)
      ensures movieGenres == old(movieGenres) && tvGenres == old(tvGenres) && showAllGenres == old(showAllGenres)
    {
      var wasActive: bool;
      match filter {
        case MoviesFilter =>
          wasActive := movies;
          movies := !movies;
        case TvFilter =>
          wasActive := tv;
          tv := !tv;
        case PeopleFilter =>
          wasActive := people;
          people := !people;
      }
      var nowActive := !wasActive;
      if wasActive != nowActive {
        currentPage := 1;
      }
    }

    /** `handleGenreToggle` (lines 246-256): toggles one genre in the capped selection and goes back to page 1. */
    method GenreToggle(genreId: int)
      requires Valid()
      modifies this
      ensures Valid()
      ensures selectedGenres == ToggleGenre(old(selectedGenres), genreId)
      ensures currentPage == 1
      ensures rawQuery == old(rawQuery) && debouncedQuery == old(debouncedQuery)
      ensures movies == old(movies) && tv == old(tv) && people == old(people) && sortBy == old(sortBy)
      ensures movieGenres == old(movieGenres) && tvGenres == old(tvGenres) && showAllGenres == old(showAllGenres)
    {
      selectedGenres := ToggleGenre(selectedGenres, genreId);
      currentPage := 1;
    }

    /** `handleSortChange` (lines 258-260): a new sort; the page is kept. */
    method SortChange(value: string)
      requires Valid()
      modifies this
      ensures Valid()
      ensures sortBy == value
      ensures currentPage == old(currentPage)
      ensures rawQuery == old(rawQuery) && debouncedQuery == old(debouncedQuery)
      ensures movies == old(movies) && tv == old(tv) && people == old(people) && selectedGenres == old(selectedGenres)
      ensures movieGenres == old(movieGenres) && tvGenres == old(tvGenres) && showAllGenres == old(showAllGenres)
    {
      sortBy := value;
    }

    /** `handlePageChange` (lines 262-265): the pager's zero-based pick becomes the page, at most 500. */
    method PageChange(selected: int)
      requires Valid() && selected >= 0
      modifies this
      ensures Valid()
      ensures currentPage == PageChangeTarget(selected)
      ensures rawQuery == old(rawQuery) && debouncedQuery == old(debouncedQuery)
      ensures movies == old(movies) && tv == old(tv) && people == old(people)
      ensures selectedGenres == old(selectedGenres) && sortBy == old(sortBy)
      ensures movieGenres == old(movieGenres) && tvGenres == old(tvGenres) && showAllGenres == old(showAllGenres)
    {
      var newPage := if selected + 1 < MaxPage then selected + 1 else MaxPage;
      currentPage := newPage;
    }

    /** `handleClearFilters` (lines 267-278): every filter back to its default. */
    method ClearFilters()
      requires Valid()
      modifies this
      ensures Valid()
      ensures rawQuery == "" && currentPage == 1
      ensures movies && tv && !people
      ensures selectedGenres == [] && sortBy == DefaultSort
      ensures debouncedQuery == old(debouncedQuery)
      ensures movieGenres == old(movieGenres) && tvGenres == old(tvGenres) && showAllGenres == old(showAllGenres)
    {
      rawQuery := "";
      currentPage := 1;
      movies := true;
      tv := true;
      people := false;
      selectedGenres := [];
      sortBy := DefaultSort;
    }

    /** `handleClearGenres` (lines 280-283): no genre selected, back to page 1. */
    method ClearGenres()
      requires Valid()
      modifies this
      ensures Valid()
      ensures selectedGenres == [] && currentPage == 1
      ensures rawQuery == old(rawQuery) && debouncedQuery == old(debouncedQuery)
      ensures movies == old(movies) && tv == old(tv) && people == old(people) && sortBy == old(sortBy)
      ensures movieGenres == old(movieGenres) && tvGenres == old(tvGenres) && showAllGenres == old(showAllGenres)
    {
      selectedGenres := [];
      currentPage := 1;
    }

    /** `toggleShowAllGenres` (lines 285-287): expands or collapses the genre row. */
    method ToggleShowAllGenres()
      requires Valid()
      modifies this
      ensures Valid()
      ensures showAllGenres == !old(showAllGenres)
      ensures showAllGenres ==>
        |old(ShownGenres())| <= |ShownGenres()| && old(ShownGenres()) == ShownGenres()[..|old(ShownGenres())|]
      ensures !showAllGenres ==>
        |ShownGenres()| <= 8 && |ShownGenres()| <= |old(ShownGenres())| && ShownGenres() == old(ShownGenres())[..|ShownGenres()|]
      ensures currentPage == old(currentPage)
      ensures rawQuery == old(rawQuery) && debouncedQuery == old(debouncedQuery)
      ensures movies == old(movies) && tv == old(tv) && people == old(people)
      ensures selectedGenres == old(selectedGenres) && sortBy == old(sortBy)
      ensures movieGenres == old(movieGenres) && tvGenres == old(tvGenres)
    {
      showAllGenres := !showAllGenres;
    }

    /** The genre lists have arrived (lines 128, 133, 137-152). */
    method GenresLoaded(movieList: seq<Genre>, tvList: seq<Genre>)
      requires Valid()
      modifies this
      ensures Valid()
      ensures movieGenres == movieList && tvGenres == tvList
      ensures currentPage == old(currentPage)
      ensures rawQuery == old(rawQuery) && debouncedQuery == old(debouncedQuery)
      ensures movies == old(movies) && tv == old(tv) && people == old(people)
      ensures selectedGenres == old(selectedGenres) && sortBy == old(sortBy) && showAllGenres == old(showAllGenres)
    {
      movieGenres := movieList;
      tvGenres := tvList;
    }

    /**
     * The URL the page writes for its state (lines 200-217): one
     * `URLSearchParams` filled by `set` for each value that is not a default.
     * Read back, those parameters give the state's values again.
     */
    method CurrentUrl(formEncode: string -> string) returns (url: string)
      requires Valid()
      ensures url == ExploreUrl(State(), formEncode)
      ensures sortBy != "" ==>
        DecodeUrl(EncodeParams(State())) == UrlState(Query(), Int(currentPage), movies, tv, people, sortBy, selectedGenres)
    {
      ghost var v := State();
      if sortBy != "" {
        UrlRoundTrip(v);
      }
      var entries := BuildUrlParams(PageState(Query(), currentPage, movies, tv, people, sortBy, selectedGenres));
      var text := Serialize(entries, formEncode);
      url := if text != "" then "/explore?" + text else "/explore";
    }
  }
}
