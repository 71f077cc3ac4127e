/**
 * The `/api/movies` route: it reads the request's search parameters, plans
 * one upstream TMDB request (either the multi-kind search or one discover
 * listing), and tags every returned item with a `media_type`.
 * The HTTP call itself is not part of the model: the planner ends with the
 * request to send, the tagger starts from the decoded response body.
 */
module MoviesRoute {
  import opened Wrappers
  import opened Strings
  import opened Numbers
  import opened QueryParams
  import opened Media

  const ProxyBase: string := "https://tmdb-proxy-orpin.vercel.app"

  /** The request parameters after defaults are applied. */
  datatype RouteRequest = RouteRequest(
    query: string,
    page: string,
    movies: bool,
    tv: bool,
    people: bool,
    sort: string,
    genres: string)

  /** The upstream endpoint: `search/multi` or `discover/{movie|tv}`. */
  datatype Endpoint = SearchMulti | Discover(kind: MediaKind)

  /** The planned upstream request and the kind used to tag untagged results. */
  datatype UpstreamPlan = UpstreamPlan(endpoint: Endpoint, params: seq<Param>, currentMediaType: MediaKind)

  /** The decoded response body; `results` is absent when the body has no result array. */
  datatype ResponseBody = ResponseBody(results: Option<seq<Item>>, page: int, totalPages: int, totalResults: int)

  /**
   * Reading the request (route.ts lines 7-13): empty or missing text falls
   * back to its default, `movies` and `tv` are on unless `"false"`, `people`
   * is on only for `"true"`.
   */
  function ReadRequest(sp: seq<Param>): (r: RouteRequest)
    ensures r.page != "" && r.sort != ""
    ensures r.movies <==> Get(sp, "movies") != Some("false")
    ensures r.tv <==> Get(sp, "tv") != Some("false")
    ensures r.people <==> Get(sp, "people") == Some("true")
    ensures Truthy(Get(sp, "query")) ==> r.query == Get(sp, "query").value
    ensures !Truthy(Get(sp, "query")) ==> r.query == ""
    ensures Truthy(Get(sp, "page")) ==> r.page == Get(sp, "page").value
    ensures !Truthy(Get(sp, "page")) ==> r.page == "1"
    ensures Truthy(Get(sp, "sort")) ==> r.sort == Get(sp, "sort").value
    ensures !Truthy(Get(sp, "sort")) ==> r.sort == DefaultSort
    ensures Truthy(Get(sp, "genres")) ==> r.genres == Get(sp, "genres").value
    ensures !Truthy(Get(sp, "genres")) ==> r.genres == ""
  {
    RouteRequest(
      OrElse(Get(sp, "query"), ""),
      OrElse(Get(sp, "page"), "1"),
      Get(sp, "movies") != Some("false"),
      Get(sp, "tv") != Some("false"),
      Get(sp, "people") == Some("true"),
      OrElse(Get(sp, "sort"), DefaultSort),
      OrElse(Get(sp, "genres"), ""))
  }

  /** The discover listing for the kind flags: TV only when TV is on and movies are off. */
  function DiscoverKind(movies: bool, tv: bool): MediaKind {
    if tv && !movies then Tv else Movie
  }

  /** `with_genres`: the first comma-separated entry, read by `Number` and written back by `String`. */
  function PrimaryGenre(genres: string): string {
    NumToString(ToNumber(Split(genres, ',')[0]))
  }

  /** The request the route sends for `r`, as the sequence of `set` calls that builds it. */
  function PlanFor(r: RouteRequest): UpstreamPlan {
    var base := SetParam(SetParam([], "page", r.page), "language", "ru-RU");
    if r.query != "" then UpstreamPlan(SearchMulti, base, Movie)
    else
      var kind := DiscoverKind(r.movies, r.tv);
      UpstreamPlan(Discover(kind), DiscoverSets(base, r, kind), kind)
  }

  /** The `set` calls of a discover listing of kind `kind`, applied to `ps`. */
  function DiscoverSets(ps: seq<Param>, r: RouteRequest, kind: MediaKind): seq<Param> {
    var sorted := SetParam(ps, "sort_by", r.sort);
    var genred := if r.genres != "" then SetParam(sorted, "with_genres", PrimaryGenre(r.genres)) else sorted;
    var rated := if Contains(r.sort, "vote_average") then SetParam(genred, "vote_count.gte", "50") else genred;
    if kind == Movie then SetParam(SetParam(rated, "include_adult", "false"), "include_video", "false")
    else rated
  }

  /**
   * Planning as the route does it (lines 18-77): one `URLSearchParams`
   * filled with `set`, the endpoint and the tagging kind in local variables.
   */
  method PlanRequest(r: RouteRequest) returns (plan: UpstreamPlan)
    ensures plan == PlanFor(r)
    ensures plan.endpoint == SearchMulti <==> r.query != ""
    ensures plan.endpoint == Discover(Tv) <==> r.query == "" && r.tv && !r.movies
    ensures plan.endpoint == Discover(Movie) <==> r.query == "" && !(r.tv && !r.movies)
    ensures plan.currentMediaType == if plan.endpoint.Discover? then plan.endpoint.kind else Movie
  {
    var params := new SearchParams();
    var currentMediaType := Movie;
    var endpoint: Endpoint;
    params.Set("page", r.page);
    params.Set("language", "ru-RU");
    ghost var base := params.entries;
    if r.query != "" {
      // The kinds to include are collected here but never sent upstream.
      var includeTypes: seq<MediaKind> := [];
      if r.movies { includeTypes := includeTypes + [Movie]; }
      if r.tv { includeTypes := includeTypes + [Tv]; }
      if r.people { includeTypes := includeTypes + [Person]; }
      endpoint := SearchMulti;
    } else {
      var mediaType := Movie;
      if r.tv && !r.movies {
        mediaType := Tv;
        currentMediaType := Tv;
      } else if r.movies && !r.tv {
        mediaType := Movie;
        currentMediaType := Movie;
      } else {
        mediaType := Movie;
        currentMediaType := Movie;
      }
      endpoint := Discover(mediaType);
      params.Set("sort_by", r.sort);
      if r.genres != "" {
        var genres := Split(r.genres, ',');
        var primaryGenre := ToNumber(genres[0]);
        params.Set("with_genres", NumToString(primaryGenre));
      }
      if Contains(r.sort, "vote_average") {
        params.Set("vote_count.gte", "50");
      }
      if mediaType == Movie {
        params.Set("include_adult", "false");
        params.Set("include_video", "false");
      }
      assert params.entries == DiscoverSets(base, r, mediaType);
    }
    plan := UpstreamPlan(endpoint, params.entries, currentMediaType);
  }

  /**
   * What `get` reads from the plan for each name: `page` and
   * `language=ru-RU` always (lines 23-24); for a discover listing the sort,
   * the first genre when genres are given, at least 50 votes when sorting
   * by rating, and no adult or video entries for movies (lines 55-74);
   * nothing else.
   */
  function ExpectedValue(r: RouteRequest, k: string): Option<string> {
    var discover := r.query == "";
    var movie := discover && DiscoverKind(r.movies, r.tv) == Movie;
    if k == "page" then Some(r.page)
    else if k == "language" then Some("ru-RU")
    else if k == "sort_by" && discover then Some(r.sort)
    else if k == "with_genres" && discover && r.genres != "" then Some(PrimaryGenre(r.genres))
    else if k == "vote_count.gte" && discover && Contains(r.sort, "vote_average") then Some("50")
    else if (k == "include_adult" || k == "include_video") && movie then Some("false")
    else None
  }

  /** Every name reads back from the plan as `ExpectedValue` says. */
  lemma {:induction false} PlanLookup(r: RouteRequest, k: string)
    ensures Get(PlanFor(r).params, k) == ExpectedValue(r, k)
  {
    var base := SetParam(SetParam([], "page", r.page), "language", "ru-RU");
    BaseLookup(r.page, k);
    if r.query == "" {
      DiscoverLookup(base, r, k);
    }
  }

  /** The two parameters set first. */
  lemma BaseLookup(page: string, k: string)
    ensures Get(SetParam(SetParam([], "page", page), "language", "ru-RU"), k)
      == if k == "page" then Some(page) else if k == "language" then Some("ru-RU") else None
  {
    SetThenGet([], "page", page, k);
    SetThenGet(SetParam([], "page", page), "language", "ru-RU", k);
  }

  /** The discover `set` calls override exactly their own names. */
  lemma {:induction false} DiscoverLookup(ps: seq<Param>, r: RouteRequest, k: string)
    ensures var kind := DiscoverKind(r.movies, r.tv);
      Get(DiscoverSets(ps, r, kind), k) ==
        if k == "sort_by" then Some(r.sort)
        else if k == "with_genres" && r.genres != "" then Some(PrimaryGenre(r.genres))
        else if k == "vote_count.gte" && Contains(r.sort, "vote_average") then Some("50")
        else if (k == "include_adult" || k == "include_video") && kind == Movie then Some("false")
        else Get(ps, k)
  {
    var sorted := SetParam(ps, "sort_by", r.sort);
    SetThenGet(ps, "sort_by", r.sort, k);
    var genred := if r.genres != "" then SetParam(sorted, "with_genres", PrimaryGenre(r.genres)) else sorted;
    SetThenGet(sorted, "with_genres", PrimaryGenre(r.genres), k);
    var rated := if Contains(r.sort, "vote_average") then SetParam(genred, "vote_count.gte", "50") else genred;
    SetThenGet(genred, "vote_count.gte", "50", k);
    var adult := SetParam(rated, "include_adult", "false");
    SetThenGet(rated, "include_adult", "false", k);
    SetThenGet(adult, "include_video", "false", k);
  }

  /** No name is sent twice. */
  lemma {:induction false} PlanKeysDistinct(r: RouteRequest)
    ensures DistinctKeys(PlanFor(r).params)
  {
    var paged := SetParam([], "page", r.page);
    SetKeepsDistinct([], "page", r.page);
    var base := SetParam(paged, "language", "ru-RU");
    SetKeepsDistinct(paged, "language", "ru-RU");
    if r.query == "" {
      var sorted := SetParam(base, "sort_by", r.sort);
      SetKeepsDistinct(base, "sort_by", r.sort);
      var genred := if r.genres != "" then SetParam(sorted, "with_genres", PrimaryGenre(r.genres)) else sorted;
      SetKeepsDistinct(sorted, "with_genres", PrimaryGenre(r.genres));
      var rated := if Contains(r.sort, "vote_average") then SetParam(genred, "vote_count.gte", "50") else genred;
      SetKeepsDistinct(genred, "vote_count.gte", "50");
      var adult := SetParam(rated, "include_adult", "false");
      SetKeepsDistinct(rated, "include_adult", "false");
      SetKeepsDistinct(adult, "include_video", "false");
    }
  }

  /**
   * A search sends only `page` and `language`: no sort, no genre, no kind
   * filter (lines 27-35); its plan does not depend on the kind flags, the
   * sort or the genres.
   */
  lemma SearchSendsOnlyPageAndLanguage(r: RouteRequest, movies: bool, tv: bool, people: bool, sort: string, genres: string)
    requires r.query != ""
    ensures PlanFor(r).params == [Param("page", r.page), Param("language", "ru-RU")]
    ensures PlanFor(r) == PlanFor(r.(movies := movies, tv := tv, people := people, sort := sort, genres := genres))
  {
    SetNewKeyAppends([], "page", r.page);
    SetNewKeyAppends([Param("page", r.page)], "language", "ru-RU");
  }

  /**
   * A genre text of the form `ids.join(',')` (the form the explore page
   * writes into its own URL) reaches TMDB as `String` of its first id.
   */
  lemma PrimaryGenreOfIds(ids: seq<int>)
    requires |ids| >= 1
    ensures PrimaryGenre(JoinIds(ids)) == IntToString(ids[0])
  {
    var pieces := IdStrings(ids);
    SplitJoin(pieces, ',');
    ToNumberOfString(ids[0]);
  }

  /**
   * The kind a `search/multi` result is read as (lines 117-124): a title
   * makes a movie, a name without `known_for` a TV show, `known_for` or a
   * department a person; otherwise the kind the route started with.
   */
  function SearchKind(item: Item, fallback: ScreenKind): (k: MediaKind)
    ensures Truthy(item.title) ==> k == Movie
    ensures k == Tv <==> !Truthy(item.title) && ((Truthy(item.name) && item.knownFor.None?) || (fallback == Tv && item.knownFor.None? && !Truthy(item.knownForDepartment)))
    ensures k == Person <==> !Truthy(item.title) && !(Truthy(item.name) && item.knownFor.None?) && (item.knownFor.Some? || Truthy(item.knownForDepartment))
  {
    if Truthy(item.title) then Movie
    else if Truthy(item.name) && item.knownFor.None? then Tv
    else if item.knownFor.Some? || Truthy(item.knownForDepartment) then Person
    else fallback
  }

  /**
   * One result after tagging (lines 99-129): an item that has a
   * `media_type` is returned as it is; otherwise a discover listing tags it
   * with the listing's kind and a search with the kind its fields suggest.
   */
  function TagItem(item: Item, query: string, current: ScreenKind): (t: Item)
    ensures Truthy(t.mediaType)
    ensures t.(mediaType := item.mediaType) == item
    ensures Truthy(item.mediaType) ==> t == item
    ensures !Truthy(item.mediaType) && query == "" ==> t.mediaType == Some(KindName(current))
    ensures !Truthy(item.mediaType) && query != "" ==> t.mediaType == Some(KindName(SearchKind(item, current)))
  {
    if Truthy(item.mediaType) then item
    else if query == "" then item.(mediaType := Some(KindName(current)))
    else item.(mediaType := Some(KindName(SearchKind(item, current))))
  }

  /** Every result tagged, in order. */
  function TagItems(items: seq<Item>, query: string, current: ScreenKind): (r: seq<Item>)
    ensures |r| == |items|
    ensures forall i :: 0 <= i < |items| ==> r[i] == TagItem(items[i], query, current)
  {
    if items == [] then [] else [TagItem(items[0], query, current)] + TagItems(items[1..], query, current)
  }

  /** The body after tagging: only a result array is touched (line 98). */
  function TagBody(body: ResponseBody, query: string, current: ScreenKind): (b: ResponseBody)
    ensures b.results.Some? <==> body.results.Some?
    ensures b.(results := body.results) == body
  {
    if body.results.Some? then body.(results := Some(TagItems(body.results.value, query, current)))
    else body
  }

  /**
   * After tagging, every result has a `media_type`, results keep their
   * number, order and every other field, and tagging again changes nothing.
   */
  lemma {:induction false} TaggedBodyFacts(body: ResponseBody, query: string, current: ScreenKind)
    requires body.results.Some?
    ensures var b := TagBody(body, query, current);
      && |b.results.value| == |body.results.value|
      && (forall i :: 0 <= i < |b.results.value| ==> Truthy(b.results.value[i].mediaType))
      && (forall i :: 0 <= i < |b.results.value| ==>
            b.results.value[i].(mediaType := body.results.value[i].mediaType) == body.results.value[i])
      && TagBody(b, query, current) == b
  {
    var items := body.results.value;
    var tagged := TagItems(items, query, current);
    assert TagItems(tagged, query, current) == tagged;
  }

  /**
   * For a discover listing, every result that arrived without a
   * `media_type` is tagged with the listing's own kind, the one in the
   * endpoint path (lines 38-52, 109-115); it is tagged `"tv"` exactly
   * when TV is on and movies are off.
   */
  lemma DiscoverResultsMatchEndpoint(r: RouteRequest, items: seq<Item>, i: int)
    requires r.query == ""
    requires 0 <= i < |items| && !Truthy(items[i].mediaType)
    ensures PlanFor(r).endpoint.Discover?
    ensures TagItems(items, r.query, PlanFor(r).currentMediaType)[i].mediaType
      == Some(KindName(PlanFor(r).endpoint.kind))
    ensures TagItems(items, r.query, PlanFor(r).currentMediaType)[i].mediaType == Some("tv")
      <==> r.tv && !r.movies
  {
    var kind := PlanFor(r).endpoint.kind;
    if KindName(kind) == "tv" {
      KindNameInjective(kind, Tv);
    }
  }

  /**
   * The upstream URL (lines 35, 52, 76): a search puts the encoded query
   * before the other parameters, a discover listing names its kind in the
   * path. `encodeComponent` is `encodeURIComponent`, `formEncode` the
   * encoding `URLSearchParams.toString` applies.
   */
  function UpstreamUrl(r: RouteRequest, encodeComponent: string -> string, formEncode: string -> string): (url: string)
    ensures r.query != "" ==> url == ProxyBase + "/search/multi?query=" + encodeComponent(r.query) + "&" + Serialize(PlanFor(r).params, formEncode)
    ensures r.query == "" ==> url == ProxyBase + "/discover/" + KindName(DiscoverKind(r.movies, r.tv)) + "?" + Serialize(PlanFor(r).params, formEncode)
  {
    var plan := PlanFor(r);
    match plan.endpoint
    case SearchMulti => ProxyBase + "/search/multi?query=" + encodeComponent(r.query) + "&" + Serialize(plan.params, formEncode)
    case Discover(kind) => ProxyBase + "/discover/" + KindName(kind) + "?" + Serialize(plan.params, formEncode)
  }

  /** The path of the upstream URL tells a search from a discover listing, and names the listing's kind. */
  lemma UpstreamUrlPath(r: RouteRequest, encodeComponent: string -> string, formEncode: string -> string)
    ensures StartsWith(UpstreamUrl(r, encodeComponent, formEncode), ProxyBase + "/search/multi?") <==> r.query != ""
    ensures StartsWith(UpstreamUrl(r, encodeComponent, formEncode), ProxyBase + "/discover/tv?") <==> r.query == "" && r.tv && !r.movies
  {
    var rest := Serialize(PlanFor(r).params, formEncode);
    if r.query != "" {
      SearchPath("query=" + encodeComponent(r.query) + "&" + rest);
    } else {
      DiscoverPath(DiscoverKind(r.movies, r.tv), rest);
    }
  }

  /** A search URL starts with the search path and not with a discover path. */
  lemma SearchPath(tail: string)
    ensures StartsWith(ProxyBase + "/search/multi?" + tail, ProxyBase + "/search/multi?")
    ensures !StartsWith(ProxyBase + "/search/multi?" + tail, ProxyBase + "/discover/tv?")
  {
    var url := ProxyBase + "/search/multi?" + tail;
    var n := |ProxyBase|;
    StartsWithAppend(ProxyBase + "/search/multi?", tail);
    assert url[n + 1] == 's';
    DiffersAt(url, ProxyBase + "/discover/tv?", n + 1);
  }

  /** A discover URL starts with the discover path of its own kind only. */
  lemma DiscoverPath(kind: MediaKind, tail: string)
    ensures !StartsWith(ProxyBase + "/discover/" + KindName(kind) + "?" + tail, ProxyBase + "/search/multi?")
    ensures StartsWith(ProxyBase + "/discover/" + KindName(kind) + "?" + tail, ProxyBase + "/discover/tv?") <==> kind == Tv
  {
    var url := ProxyBase + "/discover/" + KindName(kind) + "?" + tail;
    var n := |ProxyBase|;
    assert url[n + 1] == 'd';
    DiffersAt(url, ProxyBase + "/search/multi?", n + 1);
    if kind == Tv {
      assert url == ProxyBase + "/discover/tv?" + tail;
      StartsWithAppend(ProxyBase + "/discover/tv?", tail);
    } else {
      assert url[n + 10] != 't';
      DiffersAt(url, ProxyBase + "/discover/tv?", n + 10);
    }
  }
}
