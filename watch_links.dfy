/**
 * The "where to watch" links of a detail page: one Rutube search and one
 * Yandex and one Google web search for the title, each phrased with the
 * Russian word for a film or a series.
 */
module WatchLinks {
  import opened Wrappers
  import opened Strings
  import opened Media

  /** What the links are made from; the kind, when given, is `'movie' | 'tv'`. */
  datatype MediaDetails = MediaDetails(
    title: Option<string>,
    name: Option<string>,
    mediaType: Option<ScreenKind>,
    firstAirDate: Option<string>,
    releaseDate: Option<string>)

  datatype Engine = Google | Yandex | Rutube

  /** A search page, or the site's own search for the title. */
  datatype LinkType = Search | Direct

  datatype SearchLink = SearchLink(title: string, url: string, engine: Engine, linkType: LinkType)

  const RutubeSearch: string := "https://rutube.ru/search/?query="
  const YandexSearch: string := "https://yandex.ru/search/?text="
  /** Yandex's region parameter: 213 is Moscow. */
  const YandexRegion: string := "&lr=213"
  const GoogleSearch: string := "https://www.google.com/search?q="

  /** The title shown in the links (findWatchLinks.ts line 18): the title, else the name. */
  function DisplayTitle(d: MediaDetails): (t: string)
    ensures t == "" <==> !Truthy(d.title) && !Truthy(d.name)
    ensures Truthy(d.title) ==> t == d.title.value
    ensures !Truthy(d.title) ==> t == OrElse(d.name, "")
  {
    OrElse(d.title, OrElse(d.name, ""))
  }

  /**
   * The kind of the title (lines 22-30): a given kind wins; otherwise a
   * first air date makes it a series; the release date is never read.
   */
  function InferKind(d: MediaDetails): (k: ScreenKind)
    ensures d.mediaType.Some? ==> k == d.mediaType.value
    ensures d.mediaType.None? ==> (k == Tv <==> Truthy(d.firstAirDate))
  {
    if d.mediaType.Some? then d.mediaType.value
    else if Truthy(d.firstAirDate) then Tv
    else Movie
  }

  /** "сериал" (series) or "фильм" (film). */
  function KindText(k: ScreenKind): (s: string)
    ensures s == "сериал" <==> k == Tv
  {
    if k == Tv then "сериал" else "фильм"
  }

  /** The title in double quotes, as the link labels show it. */
  function Quoted(title: string): string {
    "\"" + title + "\""
  }

  /** The web search text (line 34): the title, the kind, then "watch for free". */
  function SearchQuery(title: string, k: ScreenKind): string {
    title + " " + KindText(k) + " смотреть бесплатно"
  }

  /**
   * `generateSearchLinks` (lines 16-59); `encode` is `encodeURIComponent`.
   * No title gives no links; otherwise Rutube, Yandex and Google, in that
   * order.
   */
  function GenerateSearchLinks(d: MediaDetails, encode: string -> string): (links: seq<SearchLink>)
    ensures links == [] <==> DisplayTitle(d) == ""
    ensures links != [] ==>
      && |links| == 3
      && links[0].engine == Rutube && links[0].linkType == Direct
      && links[1].engine == Yandex && links[1].linkType == Search
      && links[2].engine == Google && links[2].linkType == Search
  {
    var title := DisplayTitle(d);
    if title == "" then []
    else
      var kindText := KindText(InferKind(d));
      var query := SearchQuery(title, InferKind(d));
      [ SearchLink("Смотреть " + Quoted(title) + " на Rutube", RutubeSearch + encode(kindText + " " + title), Rutube, Direct),
        SearchLink("Найти " + Quoted(title) + " в Яндексе", YandexSearch + encode(query) + YandexRegion, Yandex, Search),
        SearchLink("Найти " + Quoted(title) + " в Google", GoogleSearch + encode(query), Google, Search) ]
  }

  /**
   * What each link searches for: Rutube the kind then the title, Yandex
   * (always in region 213) and Google the same web search text.
   */
  lemma LinkTargets(d: MediaDetails, encode: string -> string)
    requires DisplayTitle(d) != ""
    ensures var links := GenerateSearchLinks(d, encode);
      var title := DisplayTitle(d);
      var k := InferKind(d);
      && links[0].url == RutubeSearch + encode(KindText(k) + " " + title)
      && links[1].url == YandexSearch + encode(SearchQuery(title, k)) + YandexRegion
      && links[2].url == GoogleSearch + encode(SearchQuery(title, k))
  {
  }

  /** Every link's label holds the title in double quotes. */
  lemma LabelsQuoteTitle(d: MediaDetails, encode: string -> string, i: nat)
    requires DisplayTitle(d) != "" && i < 3
    ensures Contains(GenerateSearchLinks(d, encode)[i].title, Quoted(DisplayTitle(d)))
  {
    var links := GenerateSearchLinks(d, encode);
    var quoted := Quoted(DisplayTitle(d));
    var lead := if i == 0 then "Смотреть " else "Найти ";
    var tail := if i == 0 then " на Rutube" else if i == 1 then " в Яндексе" else " в Google";
    assert links[i].title == lead + quoted + tail;
    ContainsMiddle(lead, quoted, tail);
  }

  /** `b` occurs in `a + b + c`. */
  lemma ContainsMiddle(a: string, b: string, c: string)
    ensures Contains(a + b + c, b)
  {
    assert OccursAt(a + b + c, b, |a|);
  }

  /** The release date has no effect on the links. */
  lemma ReleaseDateIgnored(d: MediaDetails, date: Option<string>, encode: string -> string)
    ensures GenerateSearchLinks(d.(releaseDate := date), encode) == GenerateSearchLinks(d, encode)
  {
  }

  /**
   * The links give the title back: two details with the same links have
   * the same displayed title, and with an encoder that is one-to-one also
   * the same kind.
   */
  lemma LinksDetermineTitleAndKind(d1: MediaDetails, d2: MediaDetails, encode: string -> string)
    requires GenerateSearchLinks(d1, encode) == GenerateSearchLinks(d2, encode)
    ensures DisplayTitle(d1) == DisplayTitle(d2)
    ensures DisplayTitle(d1) != "" && (forall x, y :: encode(x) == encode(y) ==> x == y) ==> InferKind(d1) == InferKind(d2)
  {
    var t1, t2 := DisplayTitle(d1), DisplayTitle(d2);
    if t1 != "" {
      var label1 := GenerateSearchLinks(d1, encode)[0].title;
      var lead := "Смотреть ";
      var tail := " на Rutube";
      assert label1 == lead + Quoted(t1) + tail;
      assert label1 == lead + Quoted(t2) + tail;
      MiddleCancels(lead, Quoted(t1), Quoted(t2), tail);
      MiddleCancels("\"", t1, t2, "\"");
      if forall x, y :: encode(x) == encode(y) ==> x == y {
        var k1, k2 := InferKind(d1), InferKind(d2);
        var u1 := GenerateSearchLinks(d1, encode)[0].url;
        assert u1 == RutubeSearch + encode(KindText(k1) + " " + t1);
        assert u1 == RutubeSearch + encode(KindText(k2) + " " + t1);
        assert encode(KindText(k1) + " " + t1) == encode(KindText(k2) + " " + t1) by {
          assert u1[|RutubeSearch|..] == encode(KindText(k1) + " " + t1);
          assert u1[|RutubeSearch|..] == encode(KindText(k2) + " " + t1);
        }
        assert KindText(k1) + " " + t1 == KindText(k2) + " " + t1;
        assert |KindText(k1)| == |KindText(k2)|;
        assert KindText(k1) == (KindText(k1) + " " + t1)[..|KindText(k1)|];
        assert KindText(k2) == (KindText(k2) + " " + t1)[..|KindText(k2)|];
      }
    }
  }

  /** Equal strings with the same text around them agree in the middle. */
  lemma MiddleCancels(a: string, b1: string, b2: string, c: string)
    requires a + b1 + c == a + b2 + c
    ensures b1 == b2
  {
    var s := a + b1 + c;
    assert |b1| == |b2|;
    assert b1 == s[|a|..|a| + |b1|];
    assert b2 == (a + b2 + c)[|a|..|a| + |b2|];
  }
}
