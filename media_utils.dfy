/**
 * The cards' helpers: the text that names an item and the picture that
 * shows it.
 */
module MediaUtils {
  import opened Wrappers
  import opened Strings
  import opened Numbers
  import opened Media
  import ItemDetail

  /** The proxy prefix of every card picture: a fixed `w500` size. */
  const CardImageBase: string := "https://proxy-tmdb-weld.vercel.app/api/image/w500/"

  /**
   * `getMediaTitle` (mediaUtils.ts lines 4-6): the title, else the name,
   * else `ID: ` and the id; never empty.
   */
  function MediaTitle(media: Item): (t: string)
    ensures t != ""
    ensures Truthy(media.title) ==> t == media.title.value
    ensures !Truthy(media.title) && Truthy(media.name) ==> t == media.name.value
    ensures !Truthy(media.title) && !Truthy(media.name) ==> t == "ID: " + IntToString(media.id)
  {
    OrElse(media.title, OrElse(media.name, "ID: " + IntToString(media.id)))
  }

  /** The first of the poster, backdrop and profile paths that is set. */
  function ChosenPath(media: Item): (p: Option<string>)
    ensures p.Some? ==> p.value != ""
    ensures p.None? <==> !Truthy(media.posterPath) && !Truthy(media.backdropPath) && !Truthy(media.profilePath)
    ensures Truthy(media.posterPath) ==> p == media.posterPath
    ensures !Truthy(media.posterPath) && Truthy(media.backdropPath) ==> p == media.backdropPath
    ensures !Truthy(media.posterPath) && !Truthy(media.backdropPath) && Truthy(media.profilePath) ==> p == media.profilePath
  {
    if Truthy(media.posterPath) then media.posterPath
    else if Truthy(media.backdropPath) then media.backdropPath
    else if Truthy(media.profilePath) then media.profilePath
    else None
  }

  /**
   * `getMediaImage` (lines 8-19): the proxied `w500` picture of the chosen
   * path, or `null` when the item has none.
   */
  function MediaImage(media: Item): (url: Option<string>)
    ensures url.None? <==> ChosenPath(media).None?
    ensures url.Some? ==> url.value == CardImageBase + ChosenPath(media).value
  {
    match ChosenPath(media)
    case None => None
    case Some(path) => Some(CardImageBase + path)
  }

  /** The picture's URL gives back the path it was made from. */
  lemma MediaImagePath(media: Item)
    requires MediaImage(media).Some?
    ensures var url := MediaImage(media).value;
      StartsWith(url, CardImageBase) && url[|CardImageBase|..] == ChosenPath(media).value
  {
    var url := MediaImage(media).value;
    StartsWithAppend(CardImageBase, ChosenPath(media).value);
    assert url[|CardImageBase|..] == ChosenPath(media).value;
  }

  /**
   * The card picture is the detail pages' `w500` image URL for the same
   * path, as long as that path is not one of the texts the detail pages
   * read as missing (`"N/A"`, `"null"`).
   */
  lemma MediaImageAgreesWithImageUrl(media: Item, isPerson: bool)
    requires MediaImage(media).Some?
    requires !ItemDetail.ImageUnavailable(ChosenPath(media))
    ensures MediaImage(media).value == ItemDetail.ImageUrl(ChosenPath(media), ItemDetail.DefaultSize, isPerson)
  {
    var path := ChosenPath(media).value;
    assert CardImageBase == ItemDetail.ImageProxy + ItemDetail.DefaultSize + "/";
    assert CardImageBase + path == ItemDetail.ImageProxy + ItemDetail.DefaultSize + "/" + path;
  }

  /** A path the detail pages replace by a placeholder still gets a card picture. */
  lemma SentinelPathStillShown(media: Item)
    requires media.posterPath == Some("N/A")
    ensures MediaImage(media) == Some(CardImageBase + "N/A")
    ensures ItemDetail.ImageUrl(media.posterPath) == ItemDetail.PosterPlaceholder
  {
  }
}
