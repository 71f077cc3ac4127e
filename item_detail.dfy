/**
 * The detail pages' helpers: the URL of a TMDB image through the image
 * proxy, with a placeholder when there is no image, and the year of a
 * release date.
 */
module ItemDetail {
  import opened Wrappers
  import opened Strings

  /** The image proxy; a size and the TMDB path follow it. */
  const ImageProxy: string := "https://proxy-tmdb-weld.vercel.app/api/image/"
  const DefaultSize: string := "w500"
  const PersonPlaceholder: string := "/person-placeholder.jpg"
  const PosterPlaceholder: string := "/poster-placeholder.jpg"

  /** A path that names no image: `null`, `undefined`, `""`, `"N/A"` or `"null"`. */
  predicate ImageUnavailable(path: Option<string>) {
    !Truthy(path) || path.value == "N/A" || path.value == "null" || path.value == ""
  }

  /** The placeholder for a person or for a poster. */
  function Placeholder(isPerson: bool): (p: string)
    ensures p == PersonPlaceholder || p == PosterPlaceholder
    ensures p == PersonPlaceholder <==> isPerson
  {
    if isPerson then PersonPlaceholder else PosterPlaceholder
  }

  /**
   * `getImageUrl` (itemDetail.ts lines 1-24): a placeholder when the path
   * names no image, otherwise the proxy, the size and the path.
   */
  function ImageUrl(path: Option<string>, size: string := DefaultSize, isPerson: bool := false): (url: string)
    ensures ImageUnavailable(path) ==> url == Placeholder(isPerson)
    ensures !ImageUnavailable(path) ==> url == ImageProxy + size + "/" + path.value
  {
    if ImageUnavailable(path) then Placeholder(isPerson) else ImageProxy + size + "/" + path.value
  }

  /**
   * A placeholder comes back exactly when the path names no image, and the
   * person flag matters only then.
   */
  lemma PlaceholderExactlyWhenUnavailable(path: Option<string>, size: string, isPerson: bool)
    ensures var url := ImageUrl(path, size, isPerson);
      (url == PersonPlaceholder || url == PosterPlaceholder) <==> ImageUnavailable(path)
    ensures !ImageUnavailable(path) ==> ImageUrl(path, size, true) == ImageUrl(path, size, false)
  {
    var url := ImageUrl(path, size, isPerson);
    if !ImageUnavailable(path) {
      assert url == ImageProxy + (size + "/" + path.value);
      assert |url| > |ImageProxy| > |PersonPlaceholder| == |PosterPlaceholder|;
    }
  }

  /** A proxied URL is the proxy, then the size, a `/` and the path. */
  lemma ImageUrlParts(path: Option<string>, size: string, isPerson: bool)
    requires !ImageUnavailable(path)
    ensures var url := ImageUrl(path, size, isPerson);
      && StartsWith(url, ImageProxy)
      && url[|ImageProxy|..|ImageProxy| + |size|] == size
      && url[|ImageProxy| + |size|] == '/'
      && url[|ImageProxy| + |size| + 1..] == path.value
  {
    var url := ImageUrl(path, size, isPerson);
    assert url == ImageProxy + size + "/" + path.value;
    StartsWithAppend(ImageProxy, size + "/" + path.value);
    assert url[|ImageProxy|..] == size + "/" + path.value;
  }

  /**
   * `getYearFromDate` (lines 27-34): the empty text for a missing or empty
   * date; otherwise the year that `fullYear` reads from the date.
   */
  function YearFromDate(date: Option<string>, fullYear: string -> string): (year: string)
    ensures !Truthy(date) ==> year == ""
    ensures Truthy(date) ==> year == fullYear(date.value)
  {
    if !Truthy(date) then "" else fullYear(date.value)
  }
}
