/** The content of the bridge page that `generateBridgePage` writes: the
    classification of its input URLs, the article and video cards, the
    schema.org ItemList that enumerates every input, and the one-entry
    sitemap (sitemaps.org protocol 0.9) that points at the page. The HTML
    text itself is abstracted to a sequence of cards. */
module BridgePage {
  import opened Js

  const ArticleMarker := "medium.com"
  const VideoMarker := "youtube.com"
  const ShortVideoMarker := "youtu.be"
  const FallbackTitle := "Read Article"
  const BridgePath := "/medium-bridge.html"
  const SitemapNamespace := "http://www.sitemaps.org/schemas/sitemap/0.9"

  /** An input that gets an article card. */
  predicate IsArticleUrl(u: string) {
    Includes(u, ArticleMarker)
  }

  /** An input that may get a video card. */
  predicate IsVideoUrl(u: string) {
    Includes(u, VideoMarker) || Includes(u, ShortVideoMarker)
  }

  /** The link text of an article card: the last path segment with its
      dashes turned into spaces, or the fallback when that is empty. */
  function ArticleTitle(u: string): string {
    var slug := DashesToSpaces(LastSegment(u));
    if slug != "" then slug else FallbackTitle
  }

  /** A title is never empty and holds no '-' and no '/'; for a non-empty
      last segment it is that segment, position by position, with each '-'
      turned into a space, and for an empty one it is the fallback. */
  lemma ArticleTitleShape(u: string)
    ensures var t := ArticleTitle(u);
      t != "" && '-' !in t && '/' !in t
      && (LastSegment(u) != "" ==> t == DashesToSpaces(LastSegment(u)))
      && (LastSegment(u) == "" ==> t == FallbackTitle)
  {
    NoSlashAfterDashes(LastSegment(u));
    FallbackTitleShape();
  }

  lemma NoSlashAfterDashes(seg: string)
    requires '/' !in seg
    ensures '/' !in DashesToSpaces(seg)
  {
    var slug := DashesToSpaces(seg);
    forall i | 0 <= i < |slug| ensures slug[i] != '/' {
      assert seg[i] in seg;
    }
  }

  lemma FallbackTitleShape()
    ensures FallbackTitle != "" && '-' !in FallbackTitle && '/' !in FallbackTitle
  {
  }

  /** Adding an input at the end adds its card at the end. */
  lemma ArticleCardsSnoc(us: seq<string>, u: string)
    ensures ArticleCards(us + [u]) == ArticleCards(us) + [ArticleCard(u, ArticleTitle(u))]
  {
    var s := us + [u];
    var l, r := ArticleCards(s), ArticleCards(us) + [ArticleCard(u, ArticleTitle(u))];
    assert |l| == |r|;
    forall i | 0 <= i < |l| ensures l[i] == r[i] {
      if i < |us| {
        assert s[i] == us[i];
      } else {
        assert s[i] == u;
      }
    }
  }

  /** The video id of a video input: the last path segment of a short
      `youtu.be` link, otherwise the `v` query parameter that the URL parser
      (`searchParamV`) finds, the empty string when it finds none or throws. */
  function VideoId(u: string, searchParamV: string -> Option<string>): string {
    if Includes(u, ShortVideoMarker) then LastSegment(u)
    else match searchParamV(u)
      case Some(v) => v
      case None => ""
  }

  function Thumbnail(id: string): string {
    "https://img.youtube.com/vi/" + id + "/mqdefault.jpg"
  }

  datatype Card =
    | ArticleCard(href: string, title: string)
    | VideoCard(href: string, thumbnail: string)

  /** The article cards, one per input, in input order. */
  function ArticleCards(us: seq<string>): (cards: seq<Card>)
    ensures |cards| == |us|
    ensures forall i :: 0 <= i < |us| ==> cards[i] == ArticleCard(us[i], ArticleTitle(us[i]))
  {
    seq(|us|, i requires 0 <= i < |us| => ArticleCard(us[i], ArticleTitle(us[i])))
  }

  /** The card for one video input, if it has a video id. */
  function VideoCardFor(u: string, searchParamV: string -> Option<string>): seq<Card> {
    var id := VideoId(u, searchParamV);
    if id != "" then [VideoCard(u, Thumbnail(id))] else []
  }

  /** The video cards, in input order, skipping inputs without a video id. */
  function VideoCards(us: seq<string>, searchParamV: string -> Option<string>): (cards: seq<Card>)
    ensures |cards| <= |us|
    ensures forall i :: 0 <= i < |cards| ==> cards[i].VideoCard? && cards[i].href in us
  {
    if us == [] then []
    else VideoCards(us[..|us| - 1], searchParamV) + VideoCardFor(us[|us| - 1], searchParamV)
  }

  /** Video cards of a concatenation are the concatenation of the video cards. */
  lemma {:induction false} VideoCardsAppend(a: seq<string>, b: seq<string>, searchParamV: string -> Option<string>)
    ensures VideoCards(a + b, searchParamV) == VideoCards(a, searchParamV) + VideoCards(b, searchParamV)
  {
    if b == [] {
      assert a + b == a;
    } else {
      var b' := b[..|b| - 1];
      assert (a + b)[..|a + b| - 1] == a + b';
      VideoCardsAppend(a, b', searchParamV);
    }
  }

  /** A single input gets a video card exactly when it has a non-empty video
      id, and that card's thumbnail embeds the id. */
  lemma VideoCardOfOne(u: string, searchParamV: string -> Option<string>)
    ensures |VideoCards([u], searchParamV)| == 1 <==> VideoId(u, searchParamV) != ""
    ensures VideoId(u, searchParamV) != "" ==>
      VideoCards([u], searchParamV) == [VideoCard(u, Thumbnail(VideoId(u, searchParamV)))]
  {
    assert [u][..0] == [];
  }

  /** Every card of the page, article cards first, then video cards. */
  function Cards(urls: seq<string>, searchParamV: string -> Option<string>): seq<Card> {
    ArticleCards(Filter(urls, IsArticleUrl)) + VideoCards(Filter(urls, IsVideoUrl), searchParamV)
  }

  /** The page starts with one article card per article input, in input
      order; no article card follows a video card; every video card links
      to a video input. */
  lemma CardsLayout(urls: seq<string>, searchParamV: string -> Option<string>)
    ensures var cards, articles := Cards(urls, searchParamV), Filter(urls, IsArticleUrl);
      |cards| >= |articles|
      && (forall i :: 0 <= i < |articles| ==> cards[i] == ArticleCard(articles[i], ArticleTitle(articles[i])))
      && (forall i, j :: 0 <= i < j < |cards| && cards[j].ArticleCard? ==> cards[i].ArticleCard?)
      && (forall i :: 0 <= i < |cards| && cards[i].VideoCard? ==> IsVideoUrl(cards[i].href))
  {
    var articles, videos := Filter(urls, IsArticleUrl), Filter(urls, IsVideoUrl);
    var cards := Cards(urls, searchParamV);
    forall i | 0 <= i < |cards| && cards[i].VideoCard? ensures IsVideoUrl(cards[i].href) {
      var k := i - |articles|;
      assert cards[i] == VideoCards(videos, searchParamV)[k];
      assert cards[i].href in videos;
    }
  }

  /** The two classes overlap: a Medium URL whose text also holds "youtu.be"
      gets an article card and then a video card whose id is its last segment. */
  lemma ArticleAndShortLink(u: string, searchParamV: string -> Option<string>)
    requires IsArticleUrl(u) && Includes(u, ShortVideoMarker) && LastSegment(u) != ""
    ensures Cards([u], searchParamV) ==
      [ArticleCard(u, ArticleTitle(u)), VideoCard(u, Thumbnail(LastSegment(u)))]
  {
    SingleInBothClasses(u);
    CardsOfSingle(u, searchParamV);
    ShortLinkCard(u, searchParamV);
  }

  lemma ShortLinkCard(u: string, searchParamV: string -> Option<string>)
    requires Includes(u, ShortVideoMarker) && LastSegment(u) != ""
    ensures VideoCards([u], searchParamV) == [VideoCard(u, Thumbnail(LastSegment(u)))]
  {
    assert VideoId(u, searchParamV) == LastSegment(u);
    VideoCardOfOne(u, searchParamV);
  }

  lemma CardsOfSingle(u: string, searchParamV: string -> Option<string>)
    requires Filter([u], IsArticleUrl) == [u] && Filter([u], IsVideoUrl) == [u]
    ensures Cards([u], searchParamV) == [ArticleCard(u, ArticleTitle(u))] + VideoCards([u], searchParamV)
  {
    assert ArticleCards([u]) == [ArticleCard(u, ArticleTitle(u))];
  }

  lemma SingleInBothClasses(u: string)
    requires IsArticleUrl(u) && IsVideoUrl(u)
    ensures Filter([u], IsArticleUrl) == [u] && Filter([u], IsVideoUrl) == [u]
  {
    FilterSingle(u, IsArticleUrl);
    FilterSingle(u, IsVideoUrl);
  }

  datatype ListItem = ListItem(position: nat, url: string)

  /** The schema.org ItemList: every input, in order, at positions 1..n. */
  function ItemList(urls: seq<string>): (items: seq<ListItem>)
    ensures |items| == |urls|
    ensures forall i :: 0 <= i < |urls| ==> items[i] == ListItem(i + 1, urls[i])
  {
    if urls == [] then []
    else ItemList(urls[..|urls| - 1]) + [ListItem(|urls|, urls[|urls| - 1])]
  }

  datatype ChangeFreq = Always | Hourly | Daily | Weekly | Monthly | Yearly | Never

  datatype SitemapUrl = SitemapUrl(loc: string, lastmod: string, changefreq: ChangeFreq, priority: string)

  datatype Sitemap = Sitemap(namespace: string, urls: seq<SitemapUrl>)

  /** The public URL of the bridge page. */
  function BridgeUrl(siteUrl: string): (u: string)
    ensures |u| > |siteUrl| && u[..|siteUrl|] == siteUrl
  {
    siteUrl + BridgePath
  }

  /** The sitemap written next to the bridge page. */
  function BridgeSitemap(siteUrl: string, lastmod: string): (m: Sitemap)
    ensures |m.urls| == 1
    ensures m.urls[0].loc == BridgeUrl(siteUrl) && m.urls[0].lastmod == lastmod
    ensures m.namespace == SitemapNamespace
    ensures m.urls[0].changefreq == Daily && m.urls[0].priority == "1.0"
  {
    Sitemap(SitemapNamespace, [SitemapUrl(BridgeUrl(siteUrl), lastmod, Daily, "1.0")])
  }

  /** The page, abstracted to its structured-data block and its cards. */
  datatype Page = Page(itemList: seq<ListItem>, cards: seq<Card>)

  /** One article input followed by one video input that has a video id
      give one article card, then one video card, and two list items. */
  lemma OneArticleThenOneVideo(m: string, y: string, searchParamV: string -> Option<string>)
    requires IsArticleUrl(m) && !IsVideoUrl(m)
    requires !IsArticleUrl(y) && IsVideoUrl(y) && VideoId(y, searchParamV) != ""
    ensures Cards([m, y], searchParamV) ==
      [ArticleCard(m, ArticleTitle(m)), VideoCard(y, Thumbnail(VideoId(y, searchParamV)))]
    ensures ItemList([m, y]) == [ListItem(1, m), ListItem(2, y)]
  {
    PairFilters(m, y);
    assert Cards([m, y], searchParamV) == ArticleCards([m]) + VideoCards([y], searchParamV);
    VideoCardOfOne(y, searchParamV);
    assert ArticleCards([m]) == [ArticleCard(m, ArticleTitle(m))];
  }

  lemma PairFilters(m: string, y: string)
    requires IsArticleUrl(m) && !IsVideoUrl(m) && !IsArticleUrl(y) && IsVideoUrl(y)
    ensures Filter([m, y], IsArticleUrl) == [m] && Filter([m, y], IsVideoUrl) == [y]
  {
    assert [m, y] == [m] + [y];
    FilterAppend([m], [y], IsArticleUrl);
    FilterSingle(m, IsArticleUrl);
    FilterSingle(y, IsArticleUrl);
    FilterAppend([m], [y], IsVideoUrl);
    FilterSingle(m, IsVideoUrl);
    FilterSingle(y, IsVideoUrl);
  }

  /** The title of a URL ending in "/seg" is `seg` with its dashes turned into spaces. */
  lemma TitleOfLastSegment(pre: string, seg: string)
    requires '/' !in seg && seg != ""
    ensures ArticleTitle(pre + "/" + seg) == DashesToSpaces(seg)
  {
    LastSegmentAfterSlash(pre, seg);
  }

  /** The video id of a short link "…youtu.be…/id" is `id`. */
  lemma ShortLinkVideoId(pre: string, id: string, searchParamV: string -> Option<string>)
    requires Includes(pre, ShortVideoMarker) && '/' !in id
    ensures VideoId(pre + "/" + id, searchParamV) == id
  {
    var u := pre + "/" + id;
    assert u == "" + pre + ("/" + id);
    IncludesInfixOf("", pre, "/" + id, ShortVideoMarker);
    LastSegmentAfterSlash(pre, id);
  }
}
