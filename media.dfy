/**
 * The media records that TMDB returns: movies, TV shows and people. An item
 * arrives as loose JSON, so every per-kind field is optional; `mediaType`
 * is the `media_type` tag that the movies route fills in when it is missing.
 */
module Media {
  import opened Wrappers

  /** The listing order used when none is asked for. */
  const DefaultSort: string := "popularity.desc"

  /** The three kinds of item: `'movie' | 'tv' | 'person'`. */
  datatype MediaKind = Movie | Tv | Person

  /** The kinds a title can be watched as: `'movie' | 'tv'`. */
  type ScreenKind = k: MediaKind | !k.Person? witness Movie

  /** The string TMDB uses for a kind. */
  function KindName(k: MediaKind): (s: string)
    ensures s in {"movie", "tv", "person"}
  {
    match k
    case Movie => "movie"
    case Tv => "tv"
    case Person => "person"
  }

  /** Distinct kinds have distinct names. */
  lemma KindNameInjective(a: MediaKind, b: MediaKind)
    requires KindName(a) == KindName(b)
    ensures a == b
  {
  }

  /** An item of a listing or search result, with the fields the front end reads. */
  datatype Item = Item(
    id: int,
    mediaType: Option<string>,
    title: Option<string>,
    name: Option<string>,
    knownFor: Option<seq<int>>,
    knownForDepartment: Option<string>,
    posterPath: Option<string>,
    backdropPath: Option<string>,
    profilePath: Option<string>,
    releaseDate: Option<string>,
    firstAirDate: Option<string>)
}
