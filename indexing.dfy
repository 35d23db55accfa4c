/** The indexer: it chooses its Google credentials once, turns each URL it
    is asked to submit into one submission record (Google Indexing API,
    IndexNow, ping), keeps every record newest-first in memory and persists
    the newest 5000, and builds the bridge page before submitting it.
    Network answers, the clock and the WHATWG URL parser are inputs (a
    `World`); files are ghost fields. */
module Indexing {
  import opened Js
  import opened BridgePage

  const HistoryLimit: nat := 5000
  const DefaultSiteUrl := "http://localhost:3000"
  const DefaultKeyFile := "service_account.json"
  const DefaultIndexNowKey := "indexnow-key"
  const PublishEndpoint := "https://indexing.googleapis.com/v3/urlNotifications:publish"
  const IndexNowEndpoint := "https://api.indexnow.org/indexnow"
  const UrlUpdated := "URL_UPDATED"
  const NoKeyReason := "No key file"
  const PingServices: seq<string> := ["http://rpc.pingomatic.com", "http://blogsearch.google.com/ping/RPC2"]

  const GoogleService := "google"
  const IndexNowService := "indexnow"
  const PingService := "ping"
  const ServiceNames: set<string> := {GoogleService, IndexNowService, PingService}

  /** What `String.prototype.includes` called on a value that is not a string raises. */
  const IncludesTypeError := "u.includes is not a function"

  /** The environment variables the constructor reads; `None` is an unset
      variable. INDEXNOW_KEY is read on every submission instead, so it is
      part of the `World` of that call. */
  datatype Env = Env(
    siteUrl: Option<string>,        // SITE_URL
    googleKeyFile: Option<string>,  // GOOGLE_KEY_FILE
    googleKeyJson: Option<string>)  // GOOGLE_KEY_JSON

  datatype Config = Config(siteUrl: string, googleKeyFile: string)

  function ConfigOf(env: Env): (c: Config)
    ensures c.siteUrl != "" && c.googleKeyFile != ""
    ensures TruthyString(env.siteUrl) ==> c.siteUrl == env.siteUrl.value
    ensures !TruthyString(env.siteUrl) ==> c.siteUrl == DefaultSiteUrl
    ensures TruthyString(env.googleKeyFile) ==> c.googleKeyFile == env.googleKeyFile.value
    ensures !TruthyString(env.googleKeyFile) ==> c.googleKeyFile == DefaultKeyFile
  {
    Config(Or(env.siteUrl, DefaultSiteUrl), Or(env.googleKeyFile, DefaultKeyFile))
  }

  /** The Google client: built from the credentials parsed out of the
      environment, or from the key file. */
  datatype Auth = CredentialsAuth(credentials: JsValue) | KeyFileAuth(keyFile: string)

  /** The credential source the constructor picks. The environment JSON is
      tried first; only when it is unset or empty is the key file looked at,
      so JSON that does not parse leaves no credentials at all. */
  function SelectAuth(env: Env, parseJson: string -> Result<JsValue>, keyFileExists: string -> bool): (auth: Option<Auth>)
    ensures TruthyString(env.googleKeyJson) ==>
      (auth.Some? <==> parseJson(env.googleKeyJson.value).Ok?)
    ensures TruthyString(env.googleKeyJson) && auth.Some? ==>
      auth.value == CredentialsAuth(parseJson(env.googleKeyJson.value).value)
    ensures !TruthyString(env.googleKeyJson) ==>
      (auth.Some? <==> keyFileExists(ConfigOf(env).googleKeyFile))
    ensures !TruthyString(env.googleKeyJson) && auth.Some? ==>
      auth.value == KeyFileAuth(ConfigOf(env).googleKeyFile)
  {
    if TruthyString(env.googleKeyJson) then
      match parseJson(env.googleKeyJson.value)
      case Ok(credentials) => Some(CredentialsAuth(credentials))
      case Err(_) => None
    else if keyFileExists(ConfigOf(env).googleKeyFile) then
      Some(KeyFileAuth(ConfigOf(env).googleKeyFile))
    else None
  }

  /** With the environment JSON set, whether the key file exists changes nothing. */
  lemma KeyFileIgnoredWhenJsonSet(env: Env, parseJson: string -> Result<JsValue>, exists1: string -> bool, exists2: string -> bool)
    requires TruthyString(env.googleKeyJson)
    ensures SelectAuth(env, parseJson, exists1) == SelectAuth(env, parseJson, exists2)
  {
  }

  /** The outcome recorded for one service. */
  datatype ServiceOutcome =
    | Responded(status: int, data: Option<JsValue>)  // {status, data} or {status: 200}
    | Failed(error: string)                          // {status: 'error', error}
    | Skipped(reason: string)                        // {status: 'skipped', reason}
    | Simulated(count: nat)                          // {status: 'simulated', count}

  datatype SubmissionRecord = SubmissionRecord(url: string, timestamp: string, services: map<string, ServiceOutcome>)

  /** How an outbound HTTP call ended: a response, or a rejection with its message. */
  datatype CallResult = Response(status: int, data: JsValue) | Rejected(message: string)

  /** An outbound request the indexer issues. */
  datatype Request =
    | PublishRequest(endpoint: string, url: string, notification: string)
    | IndexNowRequest(endpoint: string, host: string, key: string, keyLocation: string, urlList: seq<string>)

  /** What the outside world answers during one operation. */
  datatype World = World(
    now: string,                             // the current instant, as ISO-8601 text
    indexNowKey: Option<string>,             // INDEXNOW_KEY as the environment holds it during the call
    hostname: string -> Result<string>,      // `new URL(u).hostname`, or what it throws
    searchParamV: string -> Option<string>,  // `new URL(u).searchParams.get('v')`; None for null or a throw
    googleClient: Option<string>,            // `auth.getClient()`: None when it resolves, else the rejection message
    google: CallResult,                      // the publish request, once the client is there
    indexNow: CallResult)                    // the IndexNow POST

  /** The IndexNow key: INDEXNOW_KEY, or the default when it is unset or empty. */
  function IndexNowKey(variable: Option<string>): (key: string)
    ensures key != ""
    ensures TruthyString(variable) ==> key == variable.value
    ensures !TruthyString(variable) ==> key == DefaultIndexNowKey
  {
    Or(variable, DefaultIndexNowKey)
  }

  function KeyLocation(siteUrl: string, key: string): string {
    siteUrl + "/" + key + ".txt"
  }

  /** The Google step: skipped without a credential; otherwise the error of
      getting the client, or else the publish response or its error. */
  function GoogleOutcome(auth: Option<Auth>, client: Option<string>, call: CallResult): (o: ServiceOutcome)
    ensures o.Skipped? <==> auth.None?
    ensures auth.None? ==> o == Skipped(NoKeyReason)
    ensures auth.Some? && client.Some? ==> o == Failed(client.value)
    ensures auth.Some? && client.None? && call.Response? ==> o == Responded(call.status, Some(call.data))
    ensures auth.Some? && client.None? && call.Rejected? ==> o == Failed(call.message)
  {
    if auth.None? then Skipped(NoKeyReason)
    else if client.Some? then Failed(client.value)
    else match call
      case Response(status, data) => Responded(status, Some(data))
      case Rejected(message) => Failed(message)
  }

  /** IndexNow records 200 on any resolved POST, whatever the status was. */
  function IndexNowOutcome(host: Result<string>, post: CallResult): (o: ServiceOutcome)
    ensures o == Responded(200, None) <==> host.Ok? && post.Response?
    ensures host.Err? ==> o == Failed(host.message)
    ensures host.Ok? && post.Rejected? ==> o == Failed(post.message)
  {
    match host
    case Err(message) => Failed(message)
    case Ok(_) =>
      match post
      case Response(_, _) => Responded(200, None)
      case Rejected(message) => Failed(message)
  }

  /** The record `submitUrl(url)` resolves to. */
  function Submission(auth: Option<Auth>, url: string, world: World): (r: SubmissionRecord)
    ensures r.url == url && r.timestamp == world.now
    ensures r.services.Keys == ServiceNames
    ensures r.services[GoogleService] == GoogleOutcome(auth, world.googleClient, world.google)
    ensures r.services[IndexNowService] == IndexNowOutcome(world.hostname(url), world.indexNow)
    ensures r.services[PingService] == Simulated(2)
  {
    SubmissionRecord(url, world.now, map[
      GoogleService := GoogleOutcome(auth, world.googleClient, world.google),
      IndexNowService := IndexNowOutcome(world.hostname(url), world.indexNow),
      PingService := Simulated(|PingServices|)])
  }

  /** A failed IndexNow step changes only the IndexNow outcome. */
  lemma IndexNowFailureIsLocal(auth: Option<Auth>, url: string, w1: World, w2: World)
    requires w1.now == w2.now && w1.googleClient == w2.googleClient && w1.google == w2.google
    ensures var r1, r2 := Submission(auth, url, w1), Submission(auth, url, w2);
      r1.url == r2.url && r1.services[GoogleService] == r2.services[GoogleService]
      && r1.services[PingService] == r2.services[PingService]
      && r1.services - {IndexNowService} == r2.services - {IndexNowService}
  {
  }

  /** The requests `submitUrl(url)` issues, in order. */
  function Requests(auth: Option<Auth>, siteUrl: string, key: string, url: string, world: World): (rs: seq<Request>)
    ensures |rs| <= 2
    ensures (exists i :: 0 <= i < |rs| && rs[i].PublishRequest?) <==> auth.Some? && world.googleClient.None?
    ensures (exists i :: 0 <= i < |rs| && rs[i].IndexNowRequest?) <==> world.hostname(url).Ok?
    ensures forall i :: 0 <= i < |rs| && rs[i].PublishRequest? ==>
      rs[i] == PublishRequest(PublishEndpoint, url, UrlUpdated)
    ensures forall i :: 0 <= i < |rs| && rs[i].IndexNowRequest? ==>
      rs[i].urlList == [url] && rs[i].host == world.hostname(url).value
      && rs[i].key == key && rs[i].keyLocation == KeyLocation(siteUrl, key)
  {
    var publish := if auth.Some? && world.googleClient.None? then [PublishRequest(PublishEndpoint, url, UrlUpdated)] else [];
    var notify := match world.hostname(url)
      case Ok(host) =>
        [IndexNowRequest(IndexNowEndpoint, host, key, KeyLocation(siteUrl, key), [url])]
      case Err(_) => [];
    assert auth.Some? && world.googleClient.None? ==> (publish + notify)[0].PublishRequest?;
    assert world.hostname(url).Ok? ==> (publish + notify)[|publish|].IndexNowRequest?;
    publish + notify
  }

  /** The part of the history that `saveHistory` writes: its first 5000 entries. */
  function Retained(history: seq<SubmissionRecord>): (kept: seq<SubmissionRecord>)
    ensures |kept| == if |history| < HistoryLimit then |history| else HistoryLimit
    ensures kept == history[..|kept|]
  {
    if |history| < HistoryLimit then history else history[..HistoryLimit]
  }

  /** The in-memory history after submitting `records` one after the other. */
  function AfterSubmissions(history: seq<SubmissionRecord>, records: seq<SubmissionRecord>): seq<SubmissionRecord>
    decreases records
  {
    if records == [] then history else AfterSubmissions([records[0]] + history, records[1..])
  }

  /** Submissions are never dropped from memory: the newest is first, the
      older history follows unchanged. */
  lemma {:induction false} HistoryAfterSubmissions(history: seq<SubmissionRecord>, records: seq<SubmissionRecord>)
    ensures var h := AfterSubmissions(history, records);
      |h| == |history| + |records|
      && (forall i :: 0 <= i < |records| ==> h[i] == records[|records| - 1 - i])
      && h[|records|..] == history
    decreases records
  {
    if records != [] {
      HistoryAfterSubmissions([records[0]] + history, records[1..]);
    }
  }

  /** What is persisted after any run of submissions: at most 5000 entries,
      the newest submission first. */
  lemma PersistedAfterSubmissions(history: seq<SubmissionRecord>, records: seq<SubmissionRecord>)
    requires records != []
    ensures var kept := Retained(AfterSubmissions(history, records));
      |kept| <= HistoryLimit && |kept| > 0 && kept[0] == records[|records| - 1]
  {
    HistoryAfterSubmissions(history, records);
  }

  /** What a restarted indexer loads back after any run of submissions:
      the newest entries of the in-memory history, in the same order, up to
      5000 of them, starting with the latest submissions newest first. */
  lemma ReloadAfterSubmissions(history: seq<SubmissionRecord>, records: seq<SubmissionRecord>)
    ensures var h := AfterSubmissions(history, records);
      var loaded := LoadList(Parsed(Retained(h)));
      |loaded| == (if |history| + |records| < HistoryLimit then |history| + |records| else HistoryLimit)
      && loaded == h[..|loaded|]
      && (forall i :: 0 <= i < |records| && i < HistoryLimit ==> loaded[i] == records[|records| - 1 - i])
      && (|history| + |records| < HistoryLimit ==> loaded[|records|..] == history)
  {
    HistoryAfterSubmissions(history, records);
  }

  /** The two `forEach` loops of `generateBridgePage`: one card per article
      input, then one per video input that has a video id. */
  method RenderCards(urls: seq<string>, searchParamV: string -> Option<string>) returns (cards: seq<Card>)
    ensures cards == Cards(urls, searchParamV)
  {
    var articleCards := RenderArticleCards(Filter(urls, IsArticleUrl));
    var videoCards := RenderVideoCards(Filter(urls, IsVideoUrl), searchParamV);
    cards := articleCards + videoCards;
  }

  /** The loop over the article inputs. */
  method RenderArticleCards(articles: seq<string>) returns (cards: seq<Card>)
    ensures cards == ArticleCards(articles)
  {
    cards := [];
    for i := 0 to |articles|
      invariant cards == ArticleCards(articles[..i])
    {
      var url := articles[i];
      var slug := DashesToSpaces(LastSegment(url));
      cards := cards + [ArticleCard(url, if slug != "" then slug else FallbackTitle)];
      assert articles[..i + 1] == articles[..i] + [url];
      ArticleCardsSnoc(articles[..i], url);
    }
    assert articles[..|articles|] == articles;
  }

  /** The loop over the video inputs. */
  method RenderVideoCards(videos: seq<string>, searchParamV: string -> Option<string>) returns (cards: seq<Card>)
    ensures cards == VideoCards(videos, searchParamV)
  {
    cards := [];
    for j := 0 to |videos|
      invariant cards == VideoCards(videos[..j], searchParamV)
    {
      var url := videos[j];
      var videoId := "";
      if Includes(url, ShortVideoMarker) {
        videoId := LastSegment(url);
      } else {
        match searchParamV(url) {
          case Some(v) => videoId := v;
          case None =>
        }
      }
      if videoId != "" {
        cards := cards + [VideoCard(url, Thumbnail(videoId))];
      }
      assert videos[..j + 1][..j] == videos[..j];
    }
    assert videos[..|videos|] == videos;
  }

  class Indexer {
    const env: Env
    const config: Config
    var auth: Option<Auth>
    var history: seq<SubmissionRecord>

    /** The history file, the bridge page and the sitemap on disk. */
    ghost var historyFile: StoredFile<seq<SubmissionRecord>>
    ghost var bridgeFile: Option<Page>
    ghost var sitemapFile: Option<Sitemap>
    /** Every request sent, and every list `generateBridgePage` was called with. */
    ghost var sent: seq<Request>
    ghost var bridgeCalls: seq<seq<JsValue>>

    constructor (env: Env, historyFile: StoredFile<seq<SubmissionRecord>>,
                 parseJson: string -> Result<JsValue>, keyFileExists: string -> bool)
      ensures this.env == env && config == ConfigOf(env)
      ensures history == LoadList(historyFile) && this.historyFile == historyFile
      ensures auth == SelectAuth(env, parseJson, keyFileExists)
      ensures bridgeFile == None && sitemapFile == None && sent == [] && bridgeCalls == []
    {
      var cfg := ConfigOf(env);
      this.env := env;
      config := cfg;
      this.historyFile := historyFile;
      history := [];
      // loadHistory
      match historyFile {
        case Parsed(saved) => history := saved;
        case Unparseable => history := [];
        case Missing =>
      }
      auth := None;
      if TruthyString(env.googleKeyJson) {
        match parseJson(env.googleKeyJson.value) {
          case Ok(credentials) => auth := Some(CredentialsAuth(credentials));
          case Err(_) =>
        }
      } else if keyFileExists(cfg.googleKeyFile) {
        auth := Some(KeyFileAuth(cfg.googleKeyFile));
      }
      bridgeFile, sitemapFile := None, None;
      sent, bridgeCalls := [], [];
    }

    /** `submitUrl`: fills in the three services one after the other,
        prepends the record to the history and persists the newest 5000. */
    method SubmitUrl(url: string, world: World) returns (r: SubmissionRecord)
      modifies this
      ensures r == Submission(auth, url, world)
      ensures history == [r] + old(history)
      ensures historyFile == Parsed(Retained(history))
      ensures sent == old(sent) + Requests(auth, config.siteUrl, IndexNowKey(world.indexNowKey), url, world)
      ensures auth == old(auth) && bridgeCalls == old(bridgeCalls)
      ensures bridgeFile == old(bridgeFile) && sitemapFile == old(sitemapFile)
    {
      var services: map<string, ServiceOutcome> := map[];
      var requests: seq<Request> := [];
      if auth.Some? {
        match world.googleClient {
          case Some(message) =>
            services := services[GoogleService := Failed(message)];
          case None =>
            requests := requests + [PublishRequest(PublishEndpoint, url, UrlUpdated)];
            match world.google {
              case Response(status, data) => services := services[GoogleService := Responded(status, Some(data))];
              case Rejected(message) => services := services[GoogleService := Failed(message)];
            }
        }
      } else {
        services := services[GoogleService := Skipped(NoKeyReason)];
      }

      var key := IndexNowKey(world.indexNowKey);
      var keyLocation := KeyLocation(config.siteUrl, key);
      match world.hostname(url) {
        case Err(message) =>
          services := services[IndexNowService := Failed(message)];
        case Ok(host) =>
          requests := requests + [IndexNowRequest(IndexNowEndpoint, host, key, keyLocation, [url])];
          match world.indexNow {
            case Response(_, _) => services := services[IndexNowService := Responded(200, None)];
            case Rejected(message) => services := services[IndexNowService := Failed(message)];
          }
      }

      services := services[PingService := Simulated(|PingServices|)];

      r := SubmissionRecord(url, world.now, services);
      assert requests == Requests(auth, config.siteUrl, key, url, world);
      sent := sent + requests;
      history := [r] + history;
      historyFile := Parsed(Retained(history));
    }

    /** `generateBridgePage`: every item must be a string (the first filter
        calls `includes` on each), then the page and the sitemap are written
        and the page's own URL is submitted. */
    method GenerateBridgePage(items: seq<JsValue>, world: World) returns (c: Completion<SubmissionRecord>)
      modifies this
      ensures bridgeCalls == old(bridgeCalls) + [items]
      ensures auth == old(auth)
      ensures !AllStrings(items) ==>
        c == Throw(IncludesTypeError) && history == old(history) && historyFile == old(historyFile)
        && bridgeFile == old(bridgeFile) && sitemapFile == old(sitemapFile) && sent == old(sent)
      ensures AllStrings(items) ==>
        var urls := AsStrings(items);
        bridgeFile == Some(Page(ItemList(urls), Cards(urls, world.searchParamV)))
        && sitemapFile == Some(BridgeSitemap(config.siteUrl, world.now))
        && c == Normal(Submission(auth, BridgeUrl(config.siteUrl), world))
        && history == [c.value] + old(history)
        && historyFile == Parsed(Retained(history))
        && sent == old(sent) + Requests(auth, config.siteUrl, IndexNowKey(world.indexNowKey), BridgeUrl(config.siteUrl), world)
    {
      bridgeCalls := bridgeCalls + [items];
      if !AllStrings(items) {
        return Throw(IncludesTypeError);
      }
      var urls := AsStrings(items);

      var cards := RenderCards(urls, world.searchParamV);
      bridgeFile := Some(Page(ItemList(urls), cards));
      var bridgeUrl := config.siteUrl + BridgePath;
      sitemapFile := Some(Sitemap(SitemapNamespace, [SitemapUrl(bridgeUrl, world.now, Daily, "1.0")]));
      var r := SubmitUrl(bridgeUrl, world);
      c := Normal(r);
    }
  }
}
