/** The server's own state and the rules around it: the monitored feed list
    (loaded at startup, added to without duplicates), the feed check with its
    24-hour window and its item mapping, the hourly cycle over all feeds, the
    newest-first buffer of Googlebot visits capped at 50, and the input
    normalisation of `/api/medium-boost`. Fetching a feed is an input. */
module Server {
  import opened Js
  import opened BridgePage
  import opened Indexing

  /** 24 hours in milliseconds. */
  const DayMs: int := 24 * 60 * 60 * 1000
  const VisitLimit: nat := 50
  const BotMarker := "googlebot"
  const UrlRequired := "URL required"
  const UrlsRequired := "URLs array required"

  // ---------------------------------------------------------------------
  // Monitored feeds

  predicate NoDuplicates(s: seq<string>) {
    forall i, j :: 0 <= i < j < |s| ==> s[i] != s[j]
  }

  /** The feed list after an add of `url`: appended when absent, unchanged otherwise. */
  function AddIfAbsent(feeds: seq<string>, url: string): (r: seq<string>)
    ensures url in r
    ensures url in feeds ==> r == feeds
    ensures url !in feeds ==> r == feeds + [url]
  {
    if url in feeds then feeds else feeds + [url]
  }

  lemma AddIfAbsentKeepsNoDuplicates(feeds: seq<string>, url: string)
    requires NoDuplicates(feeds)
    ensures NoDuplicates(AddIfAbsent(feeds, url))
  {
  }

  function Occurrences(s: seq<string>, x: string): nat {
    if s == [] then 0 else (if s[0] == x then 1 else 0) + Occurrences(s[1..], x)
  }

  lemma {:induction false} OccurrencesAppend(s: seq<string>, t: seq<string>, x: string)
    ensures Occurrences(s + t, x) == Occurrences(s, x) + Occurrences(t, x)
  {
    if s == [] {
      assert s + t == t;
    } else {
      assert (s + t)[1..] == s[1..] + t;
      OccurrencesAppend(s[1..], t, x);
    }
  }

  lemma {:induction false} OccurrencesZero(s: seq<string>, x: string)
    ensures Occurrences(s, x) == 0 <==> x !in s
  {
    if s != [] {
      OccurrencesZero(s[1..], x);
      assert s == [s[0]] + s[1..];
    }
  }

  /** However many times a URL is added, it occurs once when it was absent,
      and as often as before when it was present. */
  lemma AddIfAbsentOccurrences(feeds: seq<string>, url: string)
    ensures Occurrences(AddIfAbsent(feeds, url), url) ==
      if url in feeds then Occurrences(feeds, url) else 1
    ensures AddIfAbsent(AddIfAbsent(feeds, url), url) == AddIfAbsent(feeds, url)
  {
    OccurrencesZero(feeds, url);
    if url !in feeds {
      OccurrencesAppend(feeds, [url], url);
      assert [url][1..] == [];
    }
  }

  // ---------------------------------------------------------------------
  // Checking one feed

  /** One parsed feed item. `pubDate` is the item's date in milliseconds,
      `None` when `new Date(item.pubDate)` is an invalid date. */
  datatype FeedItem = FeedItem(
    link: Option<string>,
    title: Option<string>,
    pubDate: Option<int>,
    contentSnippet: Option<string>,
    content: Option<string>)

  /** `(today - itemDate) < 24h`: an invalid date compares false, a date in
      the future passes. */
  predicate IsRecent(now: int, item: FeedItem) {
    item.pubDate.Some? && now - item.pubDate.value < DayMs
  }

  function RecentItems(now: int, items: seq<FeedItem>): (recent: seq<FeedItem>)
    ensures |recent| <= |items|
    ensures forall i :: 0 <= i < |recent| ==> recent[i] in items && IsRecent(now, recent[i])
    ensures forall i :: 0 <= i < |items| && IsRecent(now, items[i]) ==> items[i] in recent
  {
    Filter(items, item => IsRecent(now, item))
  }

  /** An item exactly 24 hours old is out, one a millisecond younger is in. */
  lemma RecencyBoundary(now: int, item: FeedItem)
    requires item.pubDate.Some?
    ensures item.pubDate.value == now - DayMs ==> !IsRecent(now, item)
    ensures item.pubDate.value == now - DayMs + 1 ==> IsRecent(now, item)
    ensures item.pubDate.value > now ==> IsRecent(now, item)
  {
  }

  /** Items that are all at least a day old, or undated, give no recent items. */
  lemma {:induction false} NothingRecentWhenAllOld(now: int, items: seq<FeedItem>)
    requires forall i :: 0 <= i < |items| ==> !IsRecent(now, items[i])
    ensures RecentItems(now, items) == []
  {
    if items != [] {
      NothingRecentWhenAllOld(now, items[1..]);
    }
  }

  /** `item.contentSnippet || item.content || ''`. */
  function Snippet(item: FeedItem): (s: string)
    ensures TruthyString(item.contentSnippet) ==> s == item.contentSnippet.value
    ensures !TruthyString(item.contentSnippet) && TruthyString(item.content) ==> s == item.content.value
    ensures s == "" <==> !TruthyString(item.contentSnippet) && !TruthyString(item.content)
  {
    Or(item.contentSnippet, Or(item.content, ""))
  }

  function OptionalString(v: Option<string>): JsValue {
    match v
    case Some(s) => JString(s)
    case None => JUndefined
  }

  /** An article object `{url, title, snippet}` as the server builds them. */
  function ArticleObject(url: JsValue, title: JsValue, snippet: JsValue): JsValue {
    JObject(map["url" := url, "title" := title, "snippet" := snippet])
  }

  /** The object a recent item is mapped to. */
  function ArticleOf(item: FeedItem): (a: JsValue)
    ensures a.JObject? && a.fields.Keys == {"url", "title", "snippet"}
    ensures a.fields["url"] == OptionalString(item.link)
    ensures a.fields["title"] == OptionalString(item.title)
    ensures a.fields["snippet"] == JString(Snippet(item))
  {
    ArticleObject(OptionalString(item.link), OptionalString(item.title), JString(Snippet(item)))
  }

  function Articles(items: seq<FeedItem>): (articles: seq<JsValue>)
    ensures |articles| == |items|
    ensures forall i :: 0 <= i < |items| ==> articles[i] == ArticleOf(items[i])
  {
    seq(|items|, i requires 0 <= i < |items| => ArticleOf(items[i]))
  }

  /** The mapped articles are objects, so a non-empty list of them is not
      a list of strings: `generateBridgePage` throws on it. */
  lemma ArticlesAreNotStrings(items: seq<FeedItem>)
    ensures AllStrings(Articles(items)) <==> items == []
  {
    if items != [] {
      assert !Articles(items)[0].JString?;
    }
  }

  /** How one `checkFeed` ends. */
  datatype CheckOutcome =
    | FeedUnreadable(message: string)   // parseURL threw: logged, feed skipped
    | NoRecentItems                     // nothing within the last 24 hours
    | BoostFailed(message: string)      // generateBridgePage threw: logged
    | Boosted(record: SubmissionRecord) // the bridge page was submitted

  /** The outcome of `checkFeed` for a fetch result at time `now`. */
  function CheckOutcomeOf(fetched: Result<seq<FeedItem>>, now: int): (o: CheckOutcome)
    ensures fetched.Err? ==> o == FeedUnreadable(fetched.message)
    ensures fetched.Ok? ==> (o == NoRecentItems <==> RecentItems(now, fetched.value) == [])
    ensures !o.Boosted?
  {
    match fetched
    case Err(message) => FeedUnreadable(message)
    case Ok(items) =>
      if RecentItems(now, items) == [] then NoRecentItems else BoostFailed(IncludesTypeError)
  }

  /** The item list `checkFeed` hands to `generateBridgePage`: one list when
      the feed was read and has recent items, none otherwise. */
  function BridgeCallOf(fetched: Result<seq<FeedItem>>, now: int): seq<seq<JsValue>> {
    if fetched.Ok? && RecentItems(now, fetched.value) != [] then [Articles(RecentItems(now, fetched.value))] else []
  }

  /** The item lists an hourly run over `feeds` hands to `generateBridgePage`, in order. */
  function CronBridgeCalls(feeds: seq<string>, fetch: string -> Result<seq<FeedItem>>, now: int): seq<seq<JsValue>> {
    if feeds == [] then []
    else CronBridgeCalls(feeds[..|feeds| - 1], fetch, now) + BridgeCallOf(fetch(feeds[|feeds| - 1]), now)
  }

  lemma CronBridgeCallsStep(feeds: seq<string>, i: nat, fetch: string -> Result<seq<FeedItem>>, now: int)
    requires i < |feeds|
    ensures CronBridgeCalls(feeds[..i + 1], fetch, now)
      == CronBridgeCalls(feeds[..i], fetch, now) + BridgeCallOf(fetch(feeds[i]), now)
  {
    assert feeds[..i + 1][..i] == feeds[..i];
  }

  // ---------------------------------------------------------------------
  // Googlebot visits

  /** The parts of a request the detector looks at. */
  datatype HttpRequest = HttpRequest(userAgent: Option<string>, ip: string, path: string, time: string)

  datatype Visit = Visit(time: string, ip: string, ua: string, path: string)

  /** A request is recorded when its lower-cased User-Agent contains "googlebot". */
  predicate IsGooglebot(req: HttpRequest) {
    Includes(ToLower(Or(req.userAgent, "")), BotMarker)
  }

  function VisitOf(req: HttpRequest): Visit {
    Visit(req.time, req.ip, Or(req.userAgent, ""), req.path)
  }

  /** `unshift` then one `pop` when the buffer grew past 50. */
  function PushVisit(visits: seq<Visit>, v: Visit): (r: seq<Visit>)
    ensures |r| > 0 && r[0] == v
    ensures |visits| < VisitLimit ==> r == [v] + visits
    ensures |visits| >= VisitLimit ==> r == [v] + visits[..|visits| - 1]
    ensures |visits| <= VisitLimit ==> |r| <= VisitLimit
  {
    var grown := [v] + visits;
    if |grown| > VisitLimit then grown[..|grown| - 1] else grown
  }

  /** The visit buffer after a run of requests. */
  function VisitsAfter(visits: seq<Visit>, reqs: seq<HttpRequest>): seq<Visit>
    decreases reqs
  {
    if reqs == [] then visits
    else VisitsAfter(if IsGooglebot(reqs[0]) then PushVisit(visits, VisitOf(reqs[0])) else visits, reqs[1..])
  }

  /** Starting with at most 50 visits, the buffer never holds more than 50;
      once full it stays full while Googlebot keeps coming. */
  lemma {:induction false} VisitsStayBounded(visits: seq<Visit>, reqs: seq<HttpRequest>)
    requires |visits| <= VisitLimit
    ensures |VisitsAfter(visits, reqs)| <= VisitLimit
    ensures |VisitsAfter(visits, reqs)| >= |visits|
    decreases reqs
  {
    if reqs != [] {
      var next := if IsGooglebot(reqs[0]) then PushVisit(visits, VisitOf(reqs[0])) else visits;
      VisitsStayBounded(next, reqs[1..]);
    }
  }

  /** A User-Agent is detected whenever it holds a spelling `m` of
      "googlebot" in any mix of ASCII cases. */
  lemma GooglebotDetected(req: HttpRequest, pre: string, m: string, post: string)
    requires |m| == |BotMarker| && forall i :: 0 <= i < |m| ==> LowerChar(m[i]) == BotMarker[i]
    requires req.userAgent == Some(pre + m + post)
    ensures IsGooglebot(req)
  {
    assert ToLower(m) == BotMarker;
    ToLowerAppend(pre + m, post);
    ToLowerAppend(pre, m);
    assert ToLower(pre + m + post) == ToLower(pre) + BotMarker + ToLower(post);
    IncludesInfix(ToLower(pre), BotMarker, ToLower(post));
  }

  /** "Googlebot", the spelling crawlers send (as in "Googlebot/2.1"), is detected. */
  lemma CapitalisedMarkerDetected(req: HttpRequest, pre: string, post: string)
    requires req.userAgent == Some(pre + "Googlebot" + post)
    ensures IsGooglebot(req)
  {
    GooglebotDetected(req, pre, "Googlebot", post);
  }

  // ---------------------------------------------------------------------
  // /api/medium-boost

  /** The articles the medium-boost route passes on: `None` (a 400) unless
      `urls` is an array; each string becomes `{url, title: '', snippet: ''}`
      and every other element passes through unchanged. */
  function BoostArticles(urls: Option<JsValue>): (r: Option<seq<JsValue>>)
    ensures r.Some? <==> urls.Some? && urls.value.JArray?
    ensures r.Some? ==> |r.value| == |urls.value.elems|
    ensures r.Some? ==> forall i :: 0 <= i < |r.value| ==>
      r.value[i] == (if urls.value.elems[i].JString?
                     then ArticleObject(urls.value.elems[i], JString(""), JString(""))
                     else urls.value.elems[i])
  {
    match urls
    case Some(JArray(elems)) =>
      Some(seq(|elems|, i requires 0 <= i < |elems| =>
        if elems[i].JString? then ArticleObject(elems[i], JString(""), JString("")) else elems[i]))
    case _ => None
  }

  /** No element the route passes on is a string, so the bridge page is
      built only for an empty array. */
  lemma BoostBuildsOnlyEmptyPages(urls: Option<JsValue>)
    requires BoostArticles(urls).Some?
    ensures AllStrings(BoostArticles(urls).value) <==> BoostArticles(urls).value == []
  {
    var articles := BoostArticles(urls).value;
    if articles != [] {
      assert !articles[0].JString?;
    }
  }

  datatype FeedResponse = FeedBadRequest(error: string) | FeedsListed(feeds: seq<string>)

  datatype BoostResponse =
    | BoostBadRequest(error: string)
    | BoostServerError(error: string)
    | BoostCreated(bridgeUrl: string, articleCount: nat)

  class Server {
    const indexer: Indexer
    var monitoredFeeds: seq<string>
    var botVisits: seq<Visit>

    /** The feeds file on disk, and the feeds whose immediate check was started. */
    ghost var feedsFile: StoredFile<seq<string>>
    ghost var checksStarted: seq<string>

    constructor (indexer: Indexer, feedsFile: StoredFile<seq<string>>)
      ensures this.indexer == indexer
      ensures monitoredFeeds == LoadList(feedsFile) && this.feedsFile == feedsFile
      ensures botVisits == [] && checksStarted == []
    {
      this.indexer := indexer;
      this.feedsFile := feedsFile;
      monitoredFeeds := [];
      match feedsFile {
        case Parsed(saved) => monitoredFeeds := saved;
        case Unparseable => monitoredFeeds := [];
        case Missing =>
      }
      botVisits := [];
      checksStarted := [];
    }

    /** POST /api/feed. */
    method AddFeed(url: Option<string>) returns (resp: FeedResponse)
      modifies this
      ensures !TruthyString(url) ==>
        resp == FeedBadRequest(UrlRequired) && monitoredFeeds == old(monitoredFeeds)
        && feedsFile == old(feedsFile) && checksStarted == old(checksStarted)
      ensures TruthyString(url) ==>
        monitoredFeeds == AddIfAbsent(old(monitoredFeeds), url.value) && resp == FeedsListed(monitoredFeeds)
      ensures TruthyString(url) && url.value !in old(monitoredFeeds) ==>
        feedsFile == Parsed(monitoredFeeds) && checksStarted == old(checksStarted) + [url.value]
      ensures TruthyString(url) && url.value in old(monitoredFeeds) ==>
        feedsFile == old(feedsFile) && checksStarted == old(checksStarted)
      ensures NoDuplicates(old(monitoredFeeds)) ==> NoDuplicates(monitoredFeeds)
      ensures botVisits == old(botVisits)
    {
      if !TruthyString(url) {
        return FeedBadRequest(UrlRequired);
      }
      if NoDuplicates(monitoredFeeds) {
        AddIfAbsentKeepsNoDuplicates(monitoredFeeds, url.value);
      }
      if url.value !in monitoredFeeds {
        monitoredFeeds := monitoredFeeds + [url.value];
        feedsFile := Parsed(monitoredFeeds);
        checksStarted := checksStarted + [url.value];
      }
      resp := FeedsListed(monitoredFeeds);
    }

    /** `checkFeed(feedUrl)` given what fetching and parsing the feed gave. */
    method CheckFeed(fetched: Result<seq<FeedItem>>, now: int, world: World) returns (outcome: CheckOutcome)
      modifies indexer
      ensures outcome == CheckOutcomeOf(fetched, now)
      ensures indexer.bridgeCalls == old(indexer.bridgeCalls) + BridgeCallOf(fetched, now)
      ensures indexer.history == old(indexer.history) && indexer.sent == old(indexer.sent)
      ensures indexer.historyFile == old(indexer.historyFile) && indexer.auth == old(indexer.auth)
      ensures indexer.bridgeFile == old(indexer.bridgeFile) && indexer.sitemapFile == old(indexer.sitemapFile)
    {
      match fetched {
        case Err(message) =>
          outcome := FeedUnreadable(message);
        case Ok(items) =>
          var recent := RecentItems(now, items);
          if |recent| > 0 {
            var articles := Articles(recent);
            ArticlesAreNotStrings(recent);
            var c := indexer.GenerateBridgePage(articles, world);
            outcome := match c
              case Throw(e) => BoostFailed(e)
              case Normal(r) => Boosted(r);
          } else {
            outcome := NoRecentItems;
          }
      }
    }

    /** The hourly job: every monitored feed is checked in turn, and a feed
        that fails does not stop the others. */
    method RunCronCycle(fetch: string -> Result<seq<FeedItem>>, now: int, world: World) returns (outcomes: seq<CheckOutcome>)
      modifies indexer
      ensures |outcomes| == |monitoredFeeds|
      ensures forall i :: 0 <= i < |monitoredFeeds| ==> outcomes[i] == CheckOutcomeOf(fetch(monitoredFeeds[i]), now)
      ensures indexer.bridgeCalls == old(indexer.bridgeCalls) + CronBridgeCalls(monitoredFeeds, fetch, now)
      ensures indexer.history == old(indexer.history) && indexer.historyFile == old(indexer.historyFile)
      ensures indexer.sent == old(indexer.sent) && indexer.auth == old(indexer.auth)
      ensures indexer.bridgeFile == old(indexer.bridgeFile) && indexer.sitemapFile == old(indexer.sitemapFile)
    {
      outcomes := [];
      for i := 0 to |monitoredFeeds|
        invariant |outcomes| == i
        invariant forall k :: 0 <= k < i ==> outcomes[k] == CheckOutcomeOf(fetch(monitoredFeeds[k]), now)
        invariant indexer.bridgeCalls == old(indexer.bridgeCalls) + CronBridgeCalls(monitoredFeeds[..i], fetch, now)
        invariant indexer.history == old(indexer.history) && indexer.historyFile == old(indexer.historyFile)
        invariant indexer.sent == old(indexer.sent) && indexer.auth == old(indexer.auth)
        invariant indexer.bridgeFile == old(indexer.bridgeFile) && indexer.sitemapFile == old(indexer.sitemapFile)
      {
        var outcome := CheckFeed(fetch(monitoredFeeds[i]), now, world);
        CronBridgeCallsStep(monitoredFeeds, i, fetch, now);
        outcomes := outcomes + [outcome];
      }
      assert monitoredFeeds[..|monitoredFeeds|] == monitoredFeeds;
    }

    /** The Googlebot detector middleware. */
    method OnRequest(req: HttpRequest)
      modifies this`botVisits
      ensures botVisits == if IsGooglebot(req) then PushVisit(old(botVisits), VisitOf(req)) else old(botVisits)
      ensures |old(botVisits)| <= VisitLimit ==> |botVisits| <= VisitLimit
    {
      var ua := Or(req.userAgent, "");
      if Includes(ToLower(ua), BotMarker) {
        var visit := Visit(req.time, req.ip, ua, req.path);
        botVisits := [visit] + botVisits;
        if |botVisits| > VisitLimit {
          botVisits := botVisits[..|botVisits| - 1];
        }
      }
    }

    /** POST /api/medium-boost. */
    method MediumBoost(urls: Option<JsValue>, world: World) returns (resp: BoostResponse)
      modifies indexer
      ensures BoostArticles(urls).None? ==>
        resp == BoostBadRequest(UrlsRequired) && indexer.bridgeCalls == old(indexer.bridgeCalls)
      ensures BoostArticles(urls).Some? ==>
        indexer.bridgeCalls == old(indexer.bridgeCalls) + [BoostArticles(urls).value]
      ensures BoostArticles(urls).Some? && BoostArticles(urls).value != [] ==>
        resp == BoostServerError(IncludesTypeError)
      ensures BoostArticles(urls).None? || BoostArticles(urls).value != [] ==>
        indexer.history == old(indexer.history) && indexer.historyFile == old(indexer.historyFile)
        && indexer.sent == old(indexer.sent)
        && indexer.bridgeFile == old(indexer.bridgeFile) && indexer.sitemapFile == old(indexer.sitemapFile)
      ensures BoostArticles(urls).Some? && BoostArticles(urls).value == [] ==>
        var bridgeUrl := BridgeUrl(indexer.config.siteUrl);
        resp == BoostCreated(bridgeUrl, 0)
        && indexer.bridgeFile == Some(Page([], []))
        && indexer.sitemapFile == Some(BridgeSitemap(indexer.config.siteUrl, world.now))
        && indexer.history == [Submission(old(indexer.auth), bridgeUrl, world)] + old(indexer.history)
        && indexer.historyFile == Parsed(Retained(indexer.history))
        && indexer.sent == old(indexer.sent)
           + Requests(old(indexer.auth), indexer.config.siteUrl, IndexNowKey(world.indexNowKey), bridgeUrl, world)
      ensures indexer.auth == old(indexer.auth)
    {
      var articles := BoostArticles(urls);
      if articles.None? {
        return BoostBadRequest(UrlsRequired);
      }
      BoostBuildsOnlyEmptyPages(urls);
      if articles.value == [] {
        assert AsStrings(articles.value) == [];
        assert Cards([], world.searchParamV) == [];
      }
      var c := indexer.GenerateBridgePage(articles.value, world);
      match c {
        case Throw(e) => resp := BoostServerError(e);
        case Normal(r) => resp := BoostCreated(r.url, |articles.value|);
      }
    }
  }
}
