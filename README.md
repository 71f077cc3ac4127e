# culture-atlas explore core, in Dafny

culture-atlas is a Next.js front end to TMDB, the movie database. This project models its explore core:

- **The `/api/movies` route** (`src/app/api/movies/route.ts`):
  - It reads the request's search parameters and plans one upstream request. A text query uses `search/multi`; otherwise it uses `discover/movie` or `discover/tv`, with a sort, a primary genre, a vote floor for rating sorts and the adult/video exclusions for movies.
  - It tags every result that lacks a `media_type`.
- **The explore page** (`src/app/explore/ExplorePageContent.tsx`):
  - Its state is a class whose methods are the page's handlers.
  - It reads its state from the URL and writes it back.
  - Genre logic: the genres offered for the kind filters, their de-duplication by id, the first row of eight, the toggle capped at three, and the genre list in the URL.
  - The pager's page clamps.
- **The "where to watch" links** (`src/services/findWatchLinks.ts`).
- **The card helpers** (`src/services/mediaUtils.ts`): an item's title and picture.
- **The detail-page helpers** (`src/services/itemDetail.ts`): an image URL with placeholders, and the empty case of the year helper.

Files:

- **Support modules:**
  - `wrappers.dfy`: `Option`.
  - `strings.dfy`: JavaScript's `||` on strings, `trim`, `includes`, `split`, `join`.
  - `numbers.dfy`: `String(n)`, `parseInt`, `Number` for integer values.
  - `query_params.dfy`: `URLSearchParams` as an ordered list of entries with `get`, `set` and `toString`. `SearchParams` is the object the code fills with `set`.
  - `media.dfy`: the item record and the kinds `movie`/`tv`/`person`.
- **Core modules:**
  - `movies_route.dfy`: the route.
  - `explore_genres.dfy`: the page's genre logic.
  - `explore_page.dfy`: the page state, its handlers, the URL encoding and decoding, and the pager.
  - `watch_links.dfy`, `media_utils.dfy`, `item_detail.dfy`: the three services.

## Model

| member | source | states |
|---|---|---|
| MoviesRoute.ReadRequest | src/app/api/movies/route.ts:7-13 | A non-empty query, page, sort or genres value is taken as given. Missing or empty text takes its default: query "", page "1", sort `popularity.desc`, genres "". `movies` and `tv` are on exactly when the parameter is not `"false"`. `people` is on exactly when it is `"true"`. |
| MoviesRoute.PlanRequest | src/app/api/movies/route.ts:18-77 | The `URLSearchParams` built by successive `set` calls equals the plan `PlanFor`. The endpoint is `search/multi` iff there is a query. It is `discover/tv` iff there is no query, TV is on and movies are off. It is `discover/movie` otherwise. The tagging kind is the discover kind, or movie for a search. |
| MoviesRoute.PlanLookup | src/app/api/movies/route.ts:23-74 | For every name, `get` on the plan returns: `page`, and `language=ru-RU`, always. For a discover listing: `sort_by`, `with_genres` when genres are given, `vote_count.gte=50` when the sort mentions `vote_average`, and `include_adult=false`/`include_video=false` for movies. No other name is present. |
| MoviesRoute.PlanKeysDistinct | src/app/api/movies/route.ts:19-74 | No parameter name occurs twice in the upstream request. |
| MoviesRoute.SearchSendsOnlyPageAndLanguage | src/app/api/movies/route.ts:27-35 | A search sends exactly `page` and `language`. Its plan does not depend on the kind flags, the sort or the genres: the `includeTypes` it collects are never sent. |
| MoviesRoute.PrimaryGenreOfIds | src/app/api/movies/route.ts:58-62 | When the genre text has the form `ids.join(',')` (the form the explore page writes into its own URL), `with_genres` is exactly `String` of the first id. |
| MoviesRoute.UpstreamUrl | src/app/api/movies/route.ts:35-76 | A search URL is the proxy, `/search/multi?query=`, the encoded query, `&`, then the parameters. A discover URL is the proxy, `/discover/<kind>?`, then the parameters. |
| MoviesRoute.UpstreamUrlPath | src/app/api/movies/route.ts:27-52 | The URL starts with the search path iff there is a query. It starts with `/discover/tv?` iff there is no query, TV is on and movies are off. |
| MoviesRoute.SearchKind | src/app/api/movies/route.ts:117-124 | For a search result: a title gives movie. It is tv iff it has no title and either has a name without `known_for`, or falls back to a TV listing with neither `known_for` nor a department. It is person iff it has no title, does not have a name without `known_for`, and has `known_for` or a department. |
| MoviesRoute.TagItem | src/app/api/movies/route.ts:99-129 | After tagging, the item always has a `media_type`, and no other field changes. An item that was already tagged is returned as it is. Otherwise a discover result gets the listing's kind, and a search result gets `SearchKind`. |
| MoviesRoute.TagItems | src/app/api/movies/route.ts:99-130 | Same length; each result is `TagItem` of the result at the same position. |
| MoviesRoute.TagBody | src/app/api/movies/route.ts:98-131 | Only the `results` array is replaced. A body without one is returned unchanged. |
| MoviesRoute.TaggedBodyFacts | src/app/api/movies/route.ts:97-131 | After tagging, every result has a `media_type`. Results keep their number, their order and every other field. Tagging again changes nothing. |
| MoviesRoute.DiscoverResultsMatchEndpoint | src/app/api/movies/route.ts:38-52 | In a discover listing, an untagged result is tagged with the kind named in the endpoint path. It is tagged `"tv"` iff TV is on and movies are off. |
| Explore.DecodeUrl | src/app/explore/ExplorePageContent.tsx:55-100 | Reading the page URL: `movies`/`tv` are off only for `"false"`, and `people` is on only for `"true"`. A missing or empty `q`, `page`, `sort` or `genres` reads as "", 1, `popularity.desc` and []. A non-empty value is taken as given: `page` read by `Number`, `genres` split at commas with the non-numbers dropped. |
| ExploreGenres.ParseGenresOfJoin | src/app/explore/ExplorePageContent.tsx:95-100 | A genre list written as `ids.join(',')` is read back by split, `parseInt` and the NaN filter as exactly `ids`. |
| Explore.EncodedLookup | src/app/explore/ExplorePageContent.tsx:201-213 | The written URL carries each field exactly when it differs from its default: `q`, `page` > 1, `movies=false`, `tv=false`, `people=true`, a non-default `sort`, a non-empty `genres`. Each carries its value, and there is no other parameter. |
| Explore.NoParamsExactlyAtDefaults | src/app/explore/ExplorePageContent.tsx:201-217 | The parameter list is empty iff every field is at its default. |
| Explore.BuildUrlParams | src/app/explore/ExplorePageContent.tsx:201-213 | The `URLSearchParams` filled by the seven conditional `set` calls equals `EncodeParams`. |
| Explore.ExploreUrl | src/app/explore/ExplorePageContent.tsx:215-217 | The URL is bare `/explore` iff there are no parameters. Otherwise it is `/explore?` followed by them. |
| Explore.UrlRoundTrip | src/app/explore/ExplorePageContent.tsx:55-61 | Decoding the written parameters gives back the query, the page, the three kind filters, the sort and the genre list. |
| Explore.DecodeOfValues | src/app/explore/ExplorePageContent.tsx:55-61 | Any parameter list whose `get` results are those of an encoded state decodes to that state's values. |
| Explore.InitialStateAsWritten | src/app/explore/ExplorePageContent.tsx:64-109 | As written, a first visit with nothing saved has both the movie and the TV filter on, whatever the URL says. `people` is the URL's. The page is at least 1, and is the URL's page when that is above 1. |
| Explore.KindFilterLostAsWritten | src/app/explore/ExplorePageContent.tsx:79-82 | A state with the movie filter off writes `movies=false`, yet as written the page opens that URL with the filter on. |
| Explore.InitialState | src/app/explore/ExplorePageContent.tsx:79-82 | The corrected first visit of the Findings row, not what these lines do: the kind filters are taken from the URL. The page is at least 1, and is the URL's page when that is above 1. |
| Explore.AsWrittenDiffersInKindFilters | src/app/explore/ExplorePageContent.tsx:79-82 | The first visit as written is the corrected one with both kind filters forced on. The two agree iff the URL has both filters on. |
| Explore.OpenOwnUrl | src/app/explore/ExplorePageContent.tsx:55-109 | With the corrected first visit, opening the URL a state wrote restores exactly that state. |
| Explore.PageChangeTarget | src/app/explore/ExplorePageContent.tsx:262-265 | The new page is the zero-based pick plus one, capped at 500, and at least 1 for a non-negative pick. |
| Explore.PageCount | src/app/explore/ExplorePageContent.tsx:478 | `total_pages || 1` capped at 500: 1 for a missing or zero count, the count itself up to 500, and 500 for any count from 500 on. |
| Explore.ForcePage | src/app/explore/ExplorePageContent.tsx:503 | The pager's current index is the page minus one, capped at 499: a page from 500 on gives 499. |
| Explore.PagerRoundTrip | src/app/explore/ExplorePageContent.tsx:498-504 | Picking the index the pager shows keeps the page, and the index shown after a pick is the pick. A page within the count is shown within it. |
| Explore.ExplorePage.constructor | src/app/explore/ExplorePageContent.tsx:64-114 | A first visit with nothing saved starts in `InitialStateAsWritten` of its URL, with both kind filters on, with the raw and debounced text equal to the URL's `q` and no genre lists loaded. |
| Explore.ExplorePage.Search | src/app/explore/ExplorePageContent.tsx:221-226 | Stores the text. The page goes to 1 iff the trimmed text differs from the current query. Nothing else changes. |
| Explore.ExplorePage.DebounceElapsed | src/app/explore/ExplorePageContent.tsx:69 | The debounced query catches up with the raw text. Nothing else changes. |
| Explore.ExplorePage.FilterChange | src/app/explore/ExplorePageContent.tsx:228-244 | Flips exactly the chosen kind filter and sets page 1. |
| Explore.ExplorePage.GenreToggle | src/app/explore/ExplorePageContent.tsx:246-256 | The selection becomes `ToggleGenre` of the old one, and the page is 1. |
| Explore.ExplorePage.SortChange | src/app/explore/ExplorePageContent.tsx:258-260 | Sets the sort and keeps the page. |
| Explore.ExplorePage.PageChange | src/app/explore/ExplorePageContent.tsx:262-265 | The page becomes `PageChangeTarget` of the pick. |
| Explore.ExplorePage.ClearFilters | src/app/explore/ExplorePageContent.tsx:267-278 | Empty text, page 1, movies and TV on, people off, no genres, default sort. |
| Explore.ExplorePage.ClearGenres | src/app/explore/ExplorePageContent.tsx:280-283 | No genres and page 1. Nothing else changes. |
| Explore.ExplorePage.ToggleShowAllGenres | src/app/explore/ExplorePageContent.tsx:285-308 | Flips the expanded flag. Nothing else changes. Expanding keeps the collapsed row as the prefix of the genres shown. Collapsing shows at most eight genres, a prefix of those shown before. |
| Explore.ExplorePage.GenresLoaded | src/app/explore/ExplorePageContent.tsx:128-152 | Stores the two loaded genre lists. Nothing else changes. |
| Explore.ExplorePage.CurrentUrl | src/app/explore/ExplorePageContent.tsx:200-218 | The URL the page writes is `ExploreUrl` of its current state. For a non-empty sort, its parameters decode back to the state's query, page, kind filters, sort and genres (an empty sort would be written as `sort=` and read back as `popularity.desc`; the page never holds one). |
| ExploreGenres.OfferedIds | src/app/explore/ExplorePageContent.tsx:293-303 | An id is offered iff it is a movie genre while movies are on or TV is off, or a TV genre while TV is on or movies are off. |
| ExploreGenres.Upsert | src/app/explore/ExplorePageContent.tsx:302 | `Map.set`: an existing id keeps its position and takes the new genre; a new id is appended. |
| ExploreGenres.UniqueByIdFacts | src/app/explore/ExplorePageContent.tsx:301-303 | De-duplication gives pairwise distinct ids, exactly the input's ids, the last genre of each id, and ids in the order of their first appearance. |
| ExploreGenres.UniqueByIdOfDistinct | src/app/explore/ExplorePageContent.tsx:301-303 | Genres with distinct ids pass through unchanged. |
| ExploreGenres.UniqueByIdIdempotent | src/app/explore/ExplorePageContent.tsx:301-303 | De-duplicating twice is de-duplicating once. |
| ExploreGenres.DisplayedGenres | src/app/explore/ExplorePageContent.tsx:306-308 | When expanded, every genre is shown; otherwise the first eight, or all when there are fewer. It is always a prefix. |
| ExploreGenres.Without | src/app/explore/ExplorePageContent.tsx:249 | The filter removes every copy of the id and keeps the rest in order, as a subsequence with the same multiset minus that id. |
| ExploreGenres.LastThree | src/app/explore/ExplorePageContent.tsx:252 | `slice(-3)`: the last three elements, or all of them when there are fewer. |
| ExploreGenres.ToggleGenreFacts | src/app/explore/ExplorePageContent.tsx:247-253 | Toggling a selected id removes it. Toggling any other id makes it the newest, keeping at most three and dropping the oldest. |
| ExploreGenres.ToggleGenreKeepsDistinct | src/app/explore/ExplorePageContent.tsx:247-253 | A selection without repeats stays without repeats. |
| ExploreGenres.ToggleGenreTwice | src/app/explore/ExplorePageContent.tsx:247-253 | Below the cap, toggling a new id twice restores the selection. |
| ExploreGenres.ParsedIdsOfStrings | src/app/explore/ExplorePageContent.tsx:86-88 | `parseInt` of each `String(id)` gives the id back, and none is dropped by the NaN filter. |
| Numbers.ParseIntOfString | src/app/explore/ExplorePageContent.tsx:87 | `parseInt(String(n)) == n` for every integer. |
| Numbers.ToNumberOfString | src/app/explore/ExplorePageContent.tsx:56 | `Number(String(n)) == n` for every integer. |
| Numbers.JoinIds | src/app/explore/ExplorePageContent.tsx:212 | The joined genre text is empty iff the list is. |
| Strings.TrimIdempotent | src/app/explore/ExplorePageContent.tsx:118 | Trimming a trimmed query changes nothing. |
| WatchLinks.DisplayTitle | src/services/findWatchLinks.ts:18 | The shown title is the title, else the name. It is empty iff neither is set. |
| WatchLinks.InferKind | src/services/findWatchLinks.ts:21-30 | An explicit `media_type` wins. Otherwise the kind is tv iff there is a first air date. |
| WatchLinks.GenerateSearchLinks | src/services/findWatchLinks.ts:16-59 | No links iff there is no title. Otherwise exactly three links, in this order: Rutube/direct, Yandex/search, Google/search. |
| WatchLinks.LinkTargets | src/services/findWatchLinks.ts:32-55 | Rutube searches for the kind word then the title. Yandex (region 213) and Google search for the same text: title, kind word, "смотреть бесплатно". |
| WatchLinks.LabelsQuoteTitle | src/services/findWatchLinks.ts:39-51 | Every link's label holds the title in double quotes. |
| WatchLinks.ReleaseDateIgnored | src/services/findWatchLinks.ts:24-30 | The release date has no effect on the links. |
| WatchLinks.LinksDetermineTitleAndKind | src/services/findWatchLinks.ts:37-58 | Equal links mean equal titles. With a one-to-one encoder they also mean equal kinds. |
| MediaUtils.MediaTitle | src/services/mediaUtils.ts:4-6 | The title, else the name, else `ID: ` and the id. It is never empty. |
| MediaUtils.ChosenPath | src/services/mediaUtils.ts:9-17 | Poster first, then backdrop, then profile. There is none iff all three are unset. |
| MediaUtils.MediaImage | src/services/mediaUtils.ts:8-19 | `null` iff the item has no picture path. Otherwise the fixed `w500` proxy prefix followed by the chosen path. |
| MediaUtils.MediaImagePath | src/services/mediaUtils.ts:10-16 | The picture URL starts with the proxy prefix, and the rest is the chosen path. |
| MediaUtils.MediaImageAgreesWithImageUrl | src/services/mediaUtils.ts:9-17 | For a path other than `"N/A"`/`"null"`, the card picture equals the detail pages' `w500` image URL. |
| MediaUtils.SentinelPathStillShown | src/services/mediaUtils.ts:9-10 | A poster path of `"N/A"` still yields a card picture, while the detail pages show their placeholder. |
| ItemDetail.Placeholder | src/services/itemDetail.ts:14-19 | The person placeholder iff `isPerson`, else the poster placeholder. |
| ItemDetail.ImageUrl | src/services/itemDetail.ts:1-24 | A placeholder for a null, undefined, empty, `"N/A"` or `"null"` path. Otherwise the proxy, the size (default `w500`), `/`, and the path. |
| ItemDetail.PlaceholderExactlyWhenUnavailable | src/services/itemDetail.ts:7-23 | The result is a placeholder iff the path names no image. For an available path, `isPerson` has no effect. |
| ItemDetail.ImageUrlParts | src/services/itemDetail.ts:23 | A proxied URL splits into the proxy, the size, `/` and the path. |
| ItemDetail.YearFromDate | src/services/itemDetail.ts:27-34 | "" for a missing or empty date. |

## Left out

- The HTTP exchange of the route is not modelled: the fetch, its headers and caching, the error for a non-OK status, the JSON parse and the 500 error body. The plan ends with the request to send, and the tagger starts from the decoded body.
- TagBody: the route overwrites `data.results` in place. The model returns a new body value, which is the same observable result.
- The percent-encodings of `encodeURIComponent` and `URLSearchParams.toString` are parameters of the URL functions, not implemented.
- Explore.ExplorePage.constructor: models a first visit with nothing saved, as the code is written, so a URL's `movies=false` or `tv=false` has no effect (see Findings). The state saved in local storage, and its precedence over the URL's defaults, are not part of this model.
- MoviesRoute.PlanRequest: `with_genres` is `String(Number(first entry))`. For a first entry with a fraction or an exponent, such as `1.50` or `1e3`, the model sends the entry's own text; JavaScript sends its shortest form (`1.5`, `1000`). For integer entries, such as every list `ids.join(',')` produces, the two agree (`MoviesRoute.PrimaryGenreOfIds`).
- Explore.InitialStateAsWritten: requires the URL's page to read as an integer or NaN. `Number` of a fraction, an exponent or `Infinity` is kept as text (`Num.Unevaluated`), not evaluated.
- Explore.InitialState: requires the URL's page to read as an integer or NaN, for the same reason.
- Explore.ExplorePage.constructor: requires the URL's page to read as an integer or NaN, for the same reason.
- Explore.ExplorePage.DebounceElapsed: the 400 ms timer is not modelled. The debounced query catching up is a transition of its own.
- Explore.ExplorePage.PageChange: requires a non-negative pick, which the pager component always supplies.
- The page's data fetch is not modelled. It goes through `movieService`, which is not part of this model, and its filters object (including `filters.genres`) is not sent by that service.
- The genre JSON loading, the loading flags, rendering and the router call are not modelled. `GenresLoaded` stands for the lists arriving.
- Explore.ExplorePage.CurrentUrl: returns the URL instead of calling `router.replace`.
- Numbers.ParseIntOfString: integers are unbounded. `parseInt` and `Number` losing precision above 2^53 is not modelled.
- ItemDetail.YearFromDate: for a non-empty date, the year is a parameter (`fullYear`). Date parsing and `formatDate`'s locale formatting are not modelled.
- The backup manager and the UI components are not part of this model.

## Findings

| source | as written | input that shows it | evidently intended | confidence | as-written member | corrected member |
|---|---|---|---|---|---|---|
| src/app/explore/ExplorePageContent.tsx:79-82 | `movies: urlMovies \|\| (saved?.filters?.movies !== undefined ? saved.filters.movies : true)`, and `tv: urlTV \|\| (saved?.filters?.tv !== undefined ? saved.filters.tv : true)`. With nothing saved, this is always true. | The page writes `/explore?movies=false` for a state with the movie filter off. Opening that URL on a first visit turns the movie filter back on. | The URL's `movies=false` / `tv=false` should set the filter, as `people=true` does. | medium, not executed | Explore.KindFilterLostAsWritten | Explore.OpenOwnUrl |
